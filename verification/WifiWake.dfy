/**
 When does the connection state machine always wake up? Its timer is armed, or a timeout is
 queued, in every waiting state of every run, except that an idle interval can come to zero
 in 16 bits. This says for which settings that happens.
 */
module WifiWake {
  import opened WifiSpec
  import opened WifiSafety
  import opened WifiRuns

  ghost predicate AlwaysWakes(g: Settings) {
    forall ws: seq<Wifi>, ops: seq<Op>, k: nat ::
      IsRun(g, ws, ops) && k < |ws| && !ws[k].destroyed ==> Wakes(ws[k])
  }

  // ------------------------------------------------------------------ a run that sleeps

  ghost predicate Reached(g: Settings, w: Wifi) {
    exists ws: seq<Wifi>, ops: seq<Op> :: IsRun(g, ws, ops) && ws[|ops|] == w
  }

  lemma Then(g: Settings, w: Wifi, op: Op)
    requires Reached(g, w) && Enabled(w, op)
    ensures Reached(g, Apply(g, w, op))
  {
    hide Apply, Enabled;
    var ws, ops :| IsRun(g, ws, ops) && ws[|ops|] == w;
    var ws', ops' := ws + [Apply(g, w, op)], ops + [op];
    forall k | 0 <= k < |ops'|
      ensures Moves(g, ws'[k], ops'[k], ws'[k + 1])
    {
      assert k < |ops| ==> Moves(g, ws[k], ops[k], ws[k + 1]);
    }
    assert IsRun(g, ws', ops');
  }

  /** Waiting for a connection after `k` idle entries, nothing having happened but timeouts. */
  function AtConn(g: Settings, k: nat): Wifi {
    Init().(state := WAIT_FOR_CONN, timer := g.connect, idle := Idle(Interval(g, k), k))
  }

  /** In IDLE after the next. */
  function AtIdle(g: Settings, k: nat): Wifi {
    Init().(state := IDLE, timer := Interval(g, k), idle := Idle(Interval(g, k + 1), k + 1))
  }

  const ENV := Env(false, Sta)

  lemma Starts(g: Settings)
    ensures Reached(g, AtConn(g, 0))
  {
    var ws: seq<Wifi>, ops: seq<Op> := [Init()], [];
    assert IsRun(g, ws, ops) && ws[|ops|] == Init();
    Then(g, Init(), Post(Enable));
    var w := Init().(eventQ := [Enable]);
    assert [] + [Enable] == [Enable];
    Then(g, w, Process(ENV));
    assert Apply(g, w, Process(ENV)) == AtConn(g, 0);
  }

  lemma GoesIdle(g: Settings, k: nat)
    requires Positive(g) && Reached(g, AtConn(g, k))
    ensures Reached(g, AtIdle(g, k))
  {
    hide Reached, Interval, NextInterval;
    Then(g, AtConn(g, k), Expire);
    var w := AtConn(g, k).(timer := 0, eventQ := [Timeout]);
    assert [] + [Timeout] == [Timeout];
    Then(g, w, Process(ENV));
    NextIs(g, k);
    assert Apply(g, w, Process(ENV)) == AtIdle(g, k);
  }

  lemma NextIs(g: Settings, k: nat)
    ensures Interval(g, k + 1) == NextInterval(g, Interval(g, k))
  {
  }

  lemma TriesAgain(g: Settings, k: nat)
    requires Reached(g, AtIdle(g, k)) && Interval(g, k) > 0
    ensures Reached(g, AtConn(g, k + 1))
  {
    hide Reached, Interval, NextInterval;
    Then(g, AtIdle(g, k), Expire);
    var w := AtIdle(g, k).(timer := 0, eventQ := [Timeout]);
    assert [] + [Timeout] == [Timeout];
    Then(g, w, Process(ENV));
    assert Apply(g, w, Process(ENV)) == AtConn(g, k + 1);
  }

  lemma {:induction false} IdleReached(g: Settings, k: nat)
    requires Positive(g) && forall j: nat :: j < k ==> Interval(g, j) > 0
    ensures Reached(g, AtIdle(g, k))
  {
    hide Reached;
    if k == 0 {
      Starts(g);
    } else {
      IdleReached(g, k - 1);
      TriesAgain(g, k - 1);
    }
    GoesIdle(g, k);
  }

  /** The first zero interval puts the machine to sleep for good: in IDLE, the timer not
      armed and nothing queued. */
  lemma {:induction false} SleepingRun(g: Settings, k: nat) returns (ws: seq<Wifi>, ops: seq<Op>)
    requires Positive(g) && Interval(g, k) == 0
    ensures IsRun(g, ws, ops)
    ensures var w := ws[|ops|]; w.state.IDLE? && w.timer == 0 && w.eventQ == [] && w.deferredQ == [] && !w.destroyed
  {
    if j: nat :| j < k && Interval(g, j) == 0 {
      ws, ops := SleepingRun(g, j);
    } else {
      IdleReached(g, k);
      ws, ops :| IsRun(g, ws, ops) && ws[|ops|] == AtIdle(g, k);
    }
  }

  // ------------------------------------------------------------------ for which settings

  /** `v` doubled `j` times in 16 bits. */
  function Doubled(v: nat, j: nat): nat {
    if j == 0 then v else Doubled(v, j - 1) * 2 % 0x1_0000
  }

  /** One of the first 15 doublings of `v` is above `max`. */
  ghost predicate Exceeds(v: nat, max: nat) {
    exists j: nat :: 1 <= j <= 15 && Doubled(v, j) > max
  }

  /** The series from `v` on. */
  function From(g: Settings, v: nat, k: nat): nat {
    if k == 0 then v else NextInterval(g, From(g, v, k - 1))
  }

  lemma {:induction false} IntervalIsFrom(g: Settings, k: nat)
    ensures Interval(g, k) == From(g, g.idleMin, k)
  {
    if k > 0 {
      IntervalIsFrom(g, k - 1);
    }
  }

  lemma {:induction false} FromFrom(g: Settings, v: nat, i: nat, k: nat)
    ensures From(g, v, i + k) == From(g, From(g, v, i), k)
  {
    if k > 0 {
      FromFrom(g, v, i, k - 1);
    }
  }

  /** Until a doubling is capped the series doubles. */
  lemma {:induction false} FromDoubles(g: Settings, v: nat, k: nat)
    requires forall j: nat :: 1 <= j <= k ==> Doubled(v, j) <= g.idleMax
    ensures From(g, v, k) == Doubled(v, k)
  {
    if k > 0 {
      FromDoubles(g, v, k - 1);
    }
  }

  lemma {:induction false} ZeroStays(v: nat, i: nat, j: nat)
    requires i <= j && Doubled(v, i) == 0
    ensures Doubled(v, j) == 0
    decreases j
  {
    if i < j {
      ZeroStays(v, i, j - 1);
    }
  }

  lemma TwiceModulo(v: nat, q: nat, r: nat)
    requires v == 0x1_0000 * q + r && r < 0x1_0000
    ensures 2 * v % 0x1_0000 == r * 2 % 0x1_0000
  {
    assert 2 * v == 0x1_0000 * (2 * q) + r * 2;
  }

  lemma {:induction false} DoubledIs(v: nat, j: nat)
    requires v < 0x1_0000
    ensures Doubled(v, j) == v * Pow2(j) % 0x1_0000
  {
    if j == 0 {
      assert v * Pow2(0) == v;
    } else {
      DoubledIs(v, j - 1);
      var p := v * Pow2(j - 1);
      Twice(v, Pow2(j - 1));
      TwiceModulo(p, p / 0x1_0000, p % 0x1_0000);
    }
  }

  lemma PowersOfTwo()
    ensures Pow2(15) == 0x8000 && Pow2(16) == 0x1_0000
  {
    assert Pow2(4) == 16 && Pow2(8) == 256 && Pow2(12) == 4096;
  }

  lemma SixteenDoublings(v: nat)
    requires v < 0x1_0000
    ensures Doubled(v, 16) == 0
  {
    DoubledIs(v, 16);
    PowersOfTwo();
  }

  lemma NotExceeding(g: Settings, v: nat)
    requires v < 0x1_0000 && !Exceeds(v, g.idleMax)
    ensures From(g, v, 16) == 0
  {
    SixteenDoublings(v);
    FromDoubles(g, v, 16);
  }

  /** The first doubling above the maximum is capped, and before it nothing is zero. */
  lemma FirstExcess(g: Settings, v: nat) returns (j: nat)
    requires Exceeds(v, g.idleMax) && v > 0
    ensures 1 <= j <= 15 && From(g, v, j) == g.idleMax
    ensures forall i: nat :: i < j ==> From(g, v, i) > 0
  {
    var last: nat :| 1 <= last <= 15 && Doubled(v, last) > g.idleMax;
    j := Least(v, g.idleMax, last);
    FromDoubles(g, v, j - 1);
    forall i: nat | i < j
      ensures From(g, v, i) > 0
    {
      FromDoubles(g, v, i);
      if Doubled(v, i) == 0 {
        ZeroStays(v, i, j);
      }
    }
  }

  lemma {:induction false} Least(v: nat, max: nat, last: nat) returns (j: nat)
    requires 1 <= last && Doubled(v, last) > max
    ensures 1 <= j <= last && Doubled(v, j) > max && forall i: nat :: 1 <= i < j ==> Doubled(v, i) <= max
  {
    if i: nat :| 1 <= i < last && Doubled(v, i) > max {
      j := Least(v, max, i);
    } else {
      j := last;
    }
  }

  lemma {:induction false} StaysPositive(g: Settings, v: nat, k: nat)
    requires v > 0 && g.idleMax > 0 && Exceeds(v, g.idleMax) && Exceeds(g.idleMax, g.idleMax)
    ensures From(g, v, k) > 0
    decreases k
  {
    var j := FirstExcess(g, v);
    if k >= j {
      StaysPositive(g, g.idleMax, k - j);
      FromFrom(g, v, j, k - j);
    }
  }

  /** No idle interval is ever zero if and only if one of the first 15 doublings of the
      minimum in 16 bits is above the maximum, and one of those of the maximum is too. */
  lemma {:induction false} IntervalsPositiveIff(g: Settings)
    requires Positive(g)
    ensures IntervalsPositive(g) <==> Exceeds(g.idleMin, g.idleMax) && Exceeds(g.idleMax, g.idleMax)
  {
    if !Exceeds(g.idleMin, g.idleMax) {
      NotExceeding(g, g.idleMin);
      IntervalIsFrom(g, 16);
    } else if !Exceeds(g.idleMax, g.idleMax) {
      var j := FirstExcess(g, g.idleMin);
      NotExceeding(g, g.idleMax);
      FromFrom(g, g.idleMin, j, 16);
      IntervalIsFrom(g, j + 16);
    } else {
      forall k: nat
        ensures Interval(g, k) > 0
      {
        StaysPositive(g, g.idleMin, k);
        IntervalIsFrom(g, k);
      }
    }
  }

  /** The wake-up property, exactly: with positive 16-bit settings every waiting state of
      every run has its timer armed or a timeout queued, if and only if the two intervals
      meet that condition. */
  lemma {:induction false} AlwaysWakesIff(g: Settings)
    requires Positive(g)
    ensures AlwaysWakes(g) <==> Exceeds(g.idleMin, g.idleMax) && Exceeds(g.idleMax, g.idleMax)
  {
    hide Exceeds, IsRun;
    IntervalsPositiveIff(g);
    if IntervalsPositive(g) {
      forall ws: seq<Wifi>, ops: seq<Op>, k: nat | IsRun(g, ws, ops) && k < |ws| && !ws[k].destroyed
        ensures Wakes(ws[k])
      {
        RunWakes(g, ws, ops, k);
      }
    } else {
      var k: nat :| Interval(g, k) == 0;
      var ws, ops := SleepingRun(g, k);
      RunShape(g, ws, ops);
      assert !Wakes(ws[|ops|]);
    }
  }

  lemma RunShape(g: Settings, ws: seq<Wifi>, ops: seq<Op>)
    requires IsRun(g, ws, ops)
    ensures |ws| == |ops| + 1
  {
  }

  /** In every run: a state that waits for the outside has its timer armed or the timeout
      already queued, so some event always comes. */
  lemma NeverWaitsForever(g: Settings, ws: seq<Wifi>, ops: seq<Op>, k: nat)
    requires Positive(g) && Exceeds(g.idleMin, g.idleMax) && Exceeds(g.idleMax, g.idleMax)
    requires IsRun(g, ws, ops) && k < |ws| && !ws[k].destroyed
    ensures Waits(ws[k].state) ==> ws[k].timer > 0 || Timeout in ws[k].eventQ
  {
    IntervalsPositiveIff(g);
    RunWakes(g, ws, ops, k);
  }

  /** With the largest 16-bit maximum the 17th idle entry arms nothing at all, whatever the
      minimum. */
  lemma {:induction false} IdleNeverWakes(g: Settings)
    requires Positive(g) && g.idleMax == 0xFFFF
    ensures Interval(g, 16) == 0
  {
    assert forall j: nat :: 1 <= j ==> Doubled(g.idleMin, j) <= 0xFFFF;
    NotExceeding(g, g.idleMin);
    IntervalIsFrom(g, 16);
  }

  /** In plain numbers: below 32768 only a minimum of 32768 fails; a maximum of 32768 or
      65535 always fails. */
  lemma {:induction false} PlainSettings(g: Settings)
    requires Positive(g)
    ensures g.idleMax < 0x8000 ==> (AlwaysWakes(g) <==> g.idleMin != 0x8000)
    ensures g.idleMax == 0x8000 || g.idleMax == 0xFFFF ==> !AlwaysWakes(g)
  {
    AlwaysWakesIff(g);
    if g.idleMax < 0x8000 {
      TopBit(g.idleMax, g.idleMax);
      if g.idleMin != 0x8000 {
        TopBit(g.idleMin, g.idleMax);
      } else {
        OnlyTopBit(g.idleMax);
      }
    } else if g.idleMax == 0x8000 {
      OnlyTopBit(g.idleMax);
    } else if g.idleMax == 0xFFFF {
      assert forall j: nat :: 1 <= j ==> Doubled(g.idleMax, j) <= 0xFFFF;
    }
  }

  lemma OnlyTopBit(max: nat)
    ensures !Exceeds(0x8000, max)
  {
    assert Doubled(0x8000, 1) == 0;
    forall j: nat | 1 <= j
      ensures Doubled(0x8000, j) == 0
    {
      ZeroStays(0x8000, 1, j);
    }
  }

  /** Unless `v` is the top bit alone, some doubling has the top bit. */
  lemma {:induction false} TopBit(v: nat, max: nat)
    requires 0 < v < 0x1_0000 && v != 0x8000 && max < 0x8000
    ensures Exceeds(v, max)
  {
    if !Exceeds(v, max) {
      assert Doubled(v, 0) == v;
      assert Doubled(v, 1) >= 2;
      Grows(v, max, 15);
      PowersOfTwo();
    }
  }

  /** While no doubling has the top bit they just grow. */
  lemma {:induction false} Grows(v: nat, max: nat, k: nat)
    requires Doubled(v, 1) >= 2 && max < 0x8000 && 1 <= k <= 15
    requires forall j: nat :: 1 <= j <= 15 ==> Doubled(v, j) <= max
    ensures Doubled(v, k) >= Pow2(k)
  {
    if k > 1 {
      Grows(v, max, k - 1);
      assert Doubled(v, k - 1) <= max;
    } else {
      assert Pow2(0) == 1;
    }
  }
}
