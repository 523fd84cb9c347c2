/**
 The driver's timeout meter: a timeout in units of 10 ms, measured with a free running
 counter that is sampled at irregular times. True time is the ghost counter that never
 wraps; the hardware shows it modulo its period.
 */
module TimeoutMeter {

  /** SL_TIMESTAMP_TICKS_IN_10_MILLISECONDS and SL_TIMESTAMP_MAX_VALUE. */
  datatype Config = Config(ticks: nat, max: nat)

  predicate ConfigOk(c: Config) {
    1 <= c.ticks && 1 <= c.max < 0x1_0000_0000
  }

  /** Units left, the last committed sample, and the ticks of a unit begun. */
  datatype Meter = Meter(units: int, prev: nat, rem: nat)

  /** What the counter shows at true time `t`, counting 0..max. */
  function Shown(c: Config, t: nat): nat {
    t % (c.max + 1)
  }

  /** The ticks between two samples as the code computes them. */
  function Delta(c: Config, prev: nat, curr: nat): int {
    if curr >= prev then curr - prev else (c.max - prev) + curr
  }

  function U32(n: int): nat {
    n % 0x1_0000_0000
  }

  /** One poll: the new meter, and whether it reports expiry. */
  function Poll(c: Config, m: Meter, curr: nat): (Meter, bool)
    requires ConfigOk(c)
  {
    var count := U32(m.rem + Delta(c, m.prev, curr));
    if count > c.ticks then
      var left := m.units - count / c.ticks;
      if left > 0 then (Meter(left, curr, count % c.ticks), false) else (Meter(left, m.prev, count % c.ticks), true)
    else (m, false)
  }

  class TimeoutParams {
    const c: Config
    var total10MSecUnits: int
    var tsPrev: nat
    var tsCurr: nat
    var deltaTicks: int
    var deltaTicksReminder: nat

    /** _SlDrvStartMeasureTimeout. */
    constructor (c: Config, timeoutInMsec: nat, now: nat)
      ensures this.c == c && View() == Meter(timeoutInMsec / 10, now, 0)
    {
      this.c := c;
      deltaTicks, deltaTicksReminder, tsCurr := 0, 0, 0;
      total10MSecUnits := timeoutInMsec / 10;
      tsPrev := now;
    }

    function View(): Meter
      reads this
    {
      Meter(total10MSecUnits, tsPrev, deltaTicksReminder)
    }

    /** _SlDrvIsTimeoutExpired, the counter showing `now`. */
    method IsTimeoutExpired(now: nat) returns (expired: bool)
      requires ConfigOk(c)
      modifies this
      ensures (View(), expired) == Poll(c, old(View()), now)
    {
      tsCurr := now;
      if tsCurr >= tsPrev {
        deltaTicks := tsCurr - tsPrev;
      } else {
        deltaTicks := (c.max - tsPrev) + tsCurr;
      }
      var tsCount := U32(deltaTicksReminder + deltaTicks);
      if tsCount > c.ticks {
        total10MSecUnits := total10MSecUnits - tsCount / c.ticks;
        deltaTicksReminder := tsCount % c.ticks;
        if total10MSecUnits > 0 {
          tsPrev := tsCurr;
        } else {
          return true;
        }
      }
      return false;
    }
  }

  // ------------------------------------------------------------------ what is measured

  /** How often the counter wraps from true time `a` to `b`. */
  function Wraps(c: Config, a: nat, b: nat): int {
    b / (c.max + 1) - a / (c.max + 1)
  }

  /** The ticks the meter sees: each wrap costs one. */
  function Measured(c: Config, a: nat, b: nat): int {
    b - a - Wraps(c, a, b)
  }

  lemma DivMod(x: nat, m: nat, q: nat, r: nat)
    requires m > 0 && r < m && x == q * m + r
    ensures x / m == q && x % m == r
  {
    if x / m < q {
      MulMono(x / m + 1, q, m);
    } else if x / m > q {
      MulMono(q + 1, x / m, m);
    }
  }

  lemma MulMono(a: int, b: int, m: nat)
    requires a <= b
    ensures a * m <= b * m
  {
  }

  /** Between samples less than a full period apart the code measures true time, less one
      tick if the counter wrapped in between. */
  lemma DeltaIsMeasured(c: Config, a: nat, b: nat)
    requires a <= b <= a + c.max
    ensures Delta(c, Shown(c, a), Shown(c, b)) == Measured(c, a, b)
    ensures 0 <= Wraps(c, a, b) <= 1
  {
    var m := c.max + 1;
    var q, r := a / m, a % m;
    if r + (b - a) < m {
      DivMod(b, m, q, r + (b - a));
    } else {
      assert (q + 1) * m == q * m + m;
      DivMod(b, m, q + 1, r + (b - a) - m);
    }
  }

  /** The meter's account at committed time `at`, begun at `begun` with `units0` units. */
  ghost predicate Account(c: Config, m: Meter, units0: int, begun: nat, at: nat) {
    && m.prev == Shown(c, at) && m.rem < c.ticks && begun <= at
    && Measured(c, begun, at) == (units0 - m.units) * c.ticks + m.rem
    && (m.units >= 1 || m.units == units0) && m.units <= units0
  }

  lemma StartAccount(c: Config, units0: int, begun: nat)
    requires ConfigOk(c)
    ensures Account(c, Meter(units0, Shown(c, begun), 0), units0, begun, begun)
  {
  }

  /** The poll at true time `t` comes early enough after the last commit. */
  predicate Timely(c: Config, at: nat, t: nat) {
    at <= t <= at + c.max && c.ticks + (t - at) < 0x1_0000_0000
  }

  lemma Distribute(a: int, b: int, m: int)
    ensures (a + b) * m == a * m + b * m
    ensures (a - b) * m == a * m - b * m
  {
  }

  lemma CountIs(c: Config, m: Meter, units0: int, begun: nat, at: nat, t: nat)
    requires ConfigOk(c) && Account(c, m, units0, begun, at) && Timely(c, at, t)
    ensures var count := U32(m.rem + Delta(c, m.prev, Shown(c, t)));
      && count == m.rem + Measured(c, at, t)
      && Measured(c, begun, t) == (units0 - m.units) * c.ticks + count
  {
    DeltaIsMeasured(c, at, t);
    var n := m.rem + Delta(c, m.prev, Shown(c, t));
    assert 0 <= n < 0x1_0000_0000;
  }

  /** Exactly when a poll reports expiry: the measured time has reached the timeout, and has
      passed at least one whole unit since the last commit. */
  lemma ExpiresIff(c: Config, m: Meter, units0: int, begun: nat, at: nat, t: nat)
    requires ConfigOk(c) && Account(c, m, units0, begun, at) && Timely(c, at, t)
    ensures Poll(c, m, Shown(c, t)).1 <==>
      && Measured(c, begun, t) >= units0 * c.ticks
      && Measured(c, begun, t) > (units0 - m.units + 1) * c.ticks
  {
    CountIs(c, m, units0, begun, at, t);
    var count := m.rem + Measured(c, at, t);
    QuotientReaches(count, c.ticks, m.units);
    Distribute(units0 - m.units, m.units, c.ticks);
    Distribute(units0 - m.units, 1, c.ticks);
  }

  /** A poll that reports expiry leaves no units and, unlike the others, the sample of the
      last commit; so a later poll reports expiry again if and only if what it measures from
      there, with the remainder, is more than a unit. */
  lemma ExpiresAgainIff(c: Config, m: Meter, curr: nat, later: nat)
    requires ConfigOk(c) && Poll(c, m, curr).1
    ensures var m' := Poll(c, m, curr).0;
      && m'.units <= 0 && m'.prev == m.prev && m'.rem == U32(m.rem + Delta(c, m.prev, curr)) % c.ticks
      && (Poll(c, m', later).1 <==> U32(m'.rem + Delta(c, m.prev, later)) > c.ticks)
  {
    var m' := Poll(c, m, curr).0;
    var count := U32(m'.rem + Delta(c, m'.prev, later));
    if count > c.ticks {
      QuotientReaches(count, c.ticks, 0);
    }
  }

  lemma QuotientReaches(count: nat, ticks: nat, units: int)
    requires ticks >= 1
    ensures units - count / ticks <= 0 <==> count >= units * ticks
  {
    var q := count / ticks;
    if q >= units {
      MulMono(units, q, ticks);
    } else {
      MulMono(q + 1, units, ticks);
    }
  }

  /** The units that are taken off and the ticks that are kept add up to the count. */
  lemma Commit(units0: int, units: int, count: nat, ticks: nat)
    requires ticks >= 1
    ensures (units0 - (units - count / ticks)) * ticks + count % ticks == (units0 - units) * ticks + count
    ensures count > ticks ==> count / ticks >= 1
  {
    var q := count / ticks;
    assert count == q * ticks + count % ticks;
    Distribute(units0 - units, q, ticks);
    assert units0 - (units - q) == units0 - units + q;
  }

  /** A poll that does not report expiry keeps the account, from the old commit or a new one
      at the poll; and then at most one unit is pending. */
  lemma AccountKept(c: Config, m: Meter, units0: int, begun: nat, at: nat, t: nat) returns (at': nat)
    requires ConfigOk(c) && Account(c, m, units0, begun, at) && Timely(c, at, t)
    requires !Poll(c, m, Shown(c, t)).1
    ensures Account(c, Poll(c, m, Shown(c, t)).0, units0, begun, at')
    ensures at <= at' <= t <= at' + c.ticks + 1
  {
    CountIs(c, m, units0, begun, at, t);
    DeltaIsMeasured(c, at, t);
    var count := m.rem + Measured(c, at, t);
    if count > c.ticks {
      at' := t;
      Commit(units0, m.units, count, c.ticks);
    } else {
      at' := at;
    }
  }

  // ------------------------------------------------------------------ over any number of polls

  /** The meter after polls at the times `ts`, none of which reported expiry. */
  function After(c: Config, m: Meter, ts: seq<nat>): Meter
    requires ConfigOk(c)
  {
    if ts == [] then m else Poll(c, After(c, m, ts[..|ts| - 1]), Shown(c, ts[|ts| - 1])).0
  }

  function Begun(c: Config, units0: nat, begun: nat): Meter {
    Meter(units0, Shown(c, begun), 0)
  }

  ghost predicate Ascending(begun: nat, ts: seq<nat>) {
    && (ts != [] ==> begun <= ts[0])
    && forall k: nat :: k + 1 < |ts| ==> ts[k] <= ts[k + 1]
  }

  /** No two polls are further apart than `gap`. */
  ghost predicate Gaps(begun: nat, ts: seq<nat>, gap: nat) {
    && (ts != [] ==> ts[0] <= begun + gap)
    && forall k: nat :: k + 1 < |ts| ==> ts[k + 1] <= ts[k] + gap
  }

  predicate GapOk(c: Config, gap: nat) {
    c.ticks + 1 + gap <= c.max && 2 * c.ticks + 1 + gap < 0x1_0000_0000
  }

  /** None of the first `n` polls reported expiry. */
  ghost predicate Quiet(c: Config, m: Meter, ts: seq<nat>, n: nat)
    requires ConfigOk(c) && n <= |ts|
  {
    forall k: nat :: k < n ==> !Poll(c, After(c, m, ts[..k]), Shown(c, ts[k])).1
  }

  lemma {:induction false} RunAccount(c: Config, units0: nat, begun: nat, ts: seq<nat>, gap: nat, n: nat)
    returns (at: nat)
    requires ConfigOk(c) && GapOk(c, gap) && Ascending(begun, ts) && Gaps(begun, ts, gap) && n <= |ts|
    requires Quiet(c, Begun(c, units0, begun), ts, n)
    ensures Account(c, After(c, Begun(c, units0, begun), ts[..n]), units0, begun, at)
    ensures var last := if n == 0 then begun else ts[n - 1]; at <= last <= at + c.ticks + 1
  {
    hide Poll, Account;
    if n == 0 {
      StartAccount(c, units0, begun);
      at := begun;
    } else {
      var at0 := RunAccount(c, units0, begun, ts, gap, n - 1);
      assert ts[..n][..n - 1] == ts[..n - 1];
      at := AccountKept(c, After(c, Begun(c, units0, begun), ts[..n - 1]), units0, begun, at0, ts[n - 1]);
    }
  }

  /** The ticks a timeout of `units` stands for; below one unit the meter waits for one. */
  function Target(c: Config, units: nat): nat {
    if units == 0 then c.ticks else units * c.ticks
  }

  lemma TargetReached(c: Config, units0: nat, units: int, e: int)
    requires if units0 == 0 then units == 0 else 1 <= units <= units0
    ensures e >= units0 * c.ticks && e > (units0 - units + 1) * c.ticks ==> e >= Target(c, units0)
    ensures e > Target(c, units0) ==> e >= units0 * c.ticks && e > (units0 - units + 1) * c.ticks
  {
    if units0 > 0 {
      MulMono(units0 - units + 1, units0, c.ticks);
    }
  }

  /** Over any run of polls up to the first that reports expiry: it is never early in
      true time, and never later than the first poll at which the measured time exceeds the
      timeout. True and measured time differ by the number of wraps. */
  lemma NeverEarlyNeverLate(c: Config, units0: nat, begun: nat, ts: seq<nat>, gap: nat, n: nat)
    requires ConfigOk(c) && GapOk(c, gap) && Ascending(begun, ts) && Gaps(begun, ts, gap) && n < |ts|
    requires Quiet(c, Begun(c, units0, begun), ts, n)
    ensures var expired := Poll(c, After(c, Begun(c, units0, begun), ts[..n]), Shown(c, ts[n])).1;
      && (expired ==> ts[n] - begun >= Target(c, units0) + Wraps(c, begun, ts[n]))
      && (ts[n] - begun - Wraps(c, begun, ts[n]) > Target(c, units0) ==> expired)
      && Wraps(c, begun, ts[n]) >= 0
  {
    hide Poll, Account, Target;
    var at := RunAccount(c, units0, begun, ts, gap, n);
    var m := After(c, Begun(c, units0, begun), ts[..n]);
    UnitsLeft(c, m, units0, begun, at);
    ExpiresIff(c, m, units0, begun, at, ts[n]);
    TargetReached(c, units0, m.units, Measured(c, begun, ts[n]));
    WrapsGrow(c, begun, ts[n]);
  }

  lemma UnitsLeft(c: Config, m: Meter, units0: nat, begun: nat, at: nat)
    requires Account(c, m, units0, begun, at)
    ensures (if units0 == 0 then m.units == 0 else 1 <= m.units <= units0) && begun <= at
  {
  }

  lemma WrapsGrow(c: Config, a: nat, b: nat)
    requires a <= b && c.max >= 1
    ensures 0 <= Wraps(c, a, b)
    ensures 2 * Measured(c, a, b) + 2 >= b - a
  {
    var m := c.max + 1;
    var p, q := a / m, b / m;
    QuotientIs(a, m);
    QuotientIs(b, m);
    FewWraps(p, q, m, a, b);
  }

  lemma QuotientIs(x: nat, m: nat)
    requires m >= 1
    ensures x / m * m <= x < x / m * m + m
  {
  }

  lemma FewWraps(p: int, q: int, m: int, a: int, b: int)
    requires m >= 2 && a <= b && p * m <= a < p * m + m && q * m <= b < q * m + m
    ensures 0 <= q - p && 2 * (q - p) <= b - a + 2
  {
    Distribute(q, p, m);
    if q < p {
      Product(p - q - 1, m);
      Distribute(p - q, 1, m);
      Distribute(p, q, m);
    } else if q > p {
      Product(q - p - 1, m);
      Distribute(q - p, 1, m);
    }
  }

  lemma Product(x: int, m: int)
    requires x >= 0 && m >= 2
    ensures x * m >= 2 * x
  {
  }

  /** _SlDrvSleep: the busy wait ends, whenever the counter advances between polls and the
      polls are not too far apart. `clock` gives the true time of each poll. */
  method Sleep(c: Config, msec: nat, begun: nat, clock: nat -> nat, gap: nat) returns (polls: nat)
    requires ConfigOk(c) && GapOk(c, gap)
    requires begun < clock(0) <= begun + gap
    requires forall k: nat :: clock(k) < clock(k + 1) <= clock(k) + gap
    ensures polls >= 1 && clock(polls - 1) - begun >= Target(c, msec / 10)
    ensures forall k: nat :: k + 1 < polls ==> Measured(c, begun, clock(k)) <= Target(c, msec / 10)
  {
    hide Poll, Account, Measured, Target, Shown;
    var units0 := msec / 10;
    var meter := new TimeoutParams(c, msec, Shown(c, begun));
    polls := 0;
    ghost var at := begun;
    StartAccount(c, units0, begun);
    ghost var last := begun;
    var expired := false;
    while !expired
      invariant meter.c == c && begun <= at
      invariant last == (if polls == 0 then begun else clock(polls - 1)) && last >= begun + polls
      invariant expired ==> polls >= 1 && last - begun >= Target(c, units0)
      invariant !expired ==> Account(c, meter.View(), units0, begun, at) && at <= last <= at + c.ticks + 1
      invariant !expired ==> last - begun <= 2 * Target(c, units0) + 2
      invariant forall k: nat :: k + 1 < polls ==> Measured(c, begun, clock(k)) <= Target(c, units0)
      invariant !expired && polls >= 1 ==> Measured(c, begun, last) <= Target(c, units0)
      decreases !expired, 2 * Target(c, units0) + 3 - (last - begun)
    {
      ghost var m, t := meter.View(), clock(polls);
      assert last < t <= last + gap;
      SleepStep(c, m, units0, begun, at, t);
      if !Poll(c, m, Shown(c, t)).1 {
        at := AccountKept(c, m, units0, begun, at, t);
      }
      expired := meter.IsTimeoutExpired(Shown(c, clock(polls)));
      last := t;
      polls := polls + 1;
    }
  }

  lemma SleepStep(c: Config, m: Meter, units0: nat, begun: nat, at: nat, t: nat)
    requires ConfigOk(c) && Account(c, m, units0, begun, at) && Timely(c, at, t) && begun <= t
    ensures Poll(c, m, Shown(c, t)).1 ==> t - begun >= Target(c, units0)
    ensures !Poll(c, m, Shown(c, t)).1 ==>
      Measured(c, begun, t) <= Target(c, units0) && t - begun <= 2 * Target(c, units0) + 2
  {
    hide Poll, Account, Measured, Wraps, Target;
    ExpiresIff(c, m, units0, begun, at, t);
    UnitsLeft(c, m, units0, begun, at);
    TargetReached(c, units0, m.units, Measured(c, begun, t));
    WrapsGrow(c, begun, t);
    NotAbove(c, begun, t);
  }

  lemma NotAbove(c: Config, a: nat, b: nat)
    requires Wraps(c, a, b) >= 0
    ensures Measured(c, a, b) <= b - a
  {
  }
}
