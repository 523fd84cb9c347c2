/**
 What the polled driver keeps in every run, and how long it can go without coming back to
 its start when no address is ever acquired.
 */
module WlanRuns {
  import opened WlanExec

  /** The ticks `ds` and inputs `envs` lead through the states `ws`. */
  ghost predicate IsRun(provision: bool, ws: seq<Dev>, ds: seq<nat>, envs: seq<Env>) {
    && |ws| == |ds| + 1 && |envs| == |ds| && ws[0] == Init(provision)
    && forall k :: 0 <= k < |ds| ==> ws[k + 1] == Exec(ws[k], ds[k], envs[k])
  }

  /** In every run, whatever arrives: the wait for a stop in INIT never spins, every state
      that continues with the next state finds the one meant for it, and neither the invalid
      state branch nor the connection check is ever taken. */
  lemma {:induction false} RunsAreSafe(provision: bool, ws: seq<Dev>, ds: seq<nat>, envs: seq<Env>, k: nat)
    requires IsRun(provision, ws, ds, envs) && k < |ws|
    ensures Inv(ws[k])
  {
    hide Exec;
    if k > 0 {
      RunsAreSafe(provision, ws, ds, envs, k - 1);
      ExecInv(ws[k - 1], ds[k - 1], envs[k - 1]);
    } else {
      assert Inv(Init(provision));
    }
  }

  // ------------------------------------------------------------------ coming back to INIT

  predicate QuietEvent(got: Got) {
    got.Got? ==> !got.e.IpAcquired? && !got.e.FwInstall?
  }

  /** No address and no firmware installation is reported. */
  ghost predicate Quiet(env: Env) {
    QuietEvent(env.got) && forall k :: 0 <= k < |env.later| ==> QuietEvent(env.later[k])
  }

  /** Ticks of length `d` until the timer is at `limit`. */
  function Ticks(limit: nat, timer: nat, d: nat): (n: nat)
    requires d >= 1
    ensures timer < limit <==> n > 0
    decreases limit - timer
  {
    if timer >= limit then 0 else 1 + Ticks(limit, timer + d, d)
  }

  /** It is the quotient, rounded up. */
  lemma {:induction false} TicksRoundUp(limit: nat, timer: nat, d: nat)
    requires d >= 1 && timer < limit
    ensures var n := Ticks(limit, timer, d); n * d >= limit - timer && (n - 1) * d < limit - timer
    decreases limit - timer
  {
    var n := Ticks(limit, timer, d);
    if timer + d < limit {
      TicksRoundUp(limit, timer + d, d);
      OneLess(n, d);
      OneLess(n - 1, d);
    }
  }

  lemma OneLess(n: int, d: int)
    ensures (n - 1) * d == n * d - d
  {
  }

  lemma {:induction false} FewerTicks(limit: nat, timer: nat, d: nat)
    requires d >= 1 && timer < limit
    ensures Ticks(limit, timer + d, d) == Ticks(limit, timer, d) - 1
  {
  }

  function AfterConnected(d: nat): nat
    requires d >= 1
  {
    Ticks(5001, 0, d) + AfterError(d)
  }

  function AfterError(d: nat): nat
    requires d >= 1
  {
    Ticks(2000, 0, d) + 3
  }

  /** Executions, at most, until the machine is in INIT again. */
  function Rank(w: Dev, d: nat): nat
    requires d >= 1
  {
    match w.state
    case STOP => 1
    case SLEEP => Ticks(w.sleepTime, w.timer, d) + 2
    case ERROR => AfterError(d) + 1
    case WAIT_IP => Ticks(5001, w.timer, d) + AfterError(d) + 2
    case WAIT_CONNECTAP => Ticks(10001, w.timer, d) + AfterConnected(d) + 3
    case START_NETWORK => Ticks(10001, 0, d) + AfterConnected(d) + 4
    case CHECK_PROFILES => Ticks(10001, 0, d) + AfterConnected(d) + 5
    case WAIT_4_START => Ticks(2000, w.timer, d) + Ticks(10001, 0, d) + AfterConnected(d) + Ticks(1000, 0, d) + 6
    case START => Bound(d)
    case _ => 0
  }

  /** The bound for a whole round, computable from the tick. */
  function Bound(d: nat): nat
    requires d >= 1
  {
    Ticks(2000, 0, d) + Ticks(10001, 0, d) + AfterConnected(d) + Ticks(1000, 0, d) + 7
  }

  /** A round without an address: the states it can be in and what its timer shows. */
  predicate InRound(w: Dev, d: nat) {
    && Inv(w) && !w.provision && BitIp !in w.status && BitFwInstall !in w.status
    && (|| w.state.INIT? || w.state.START? || w.state.STOP? || w.state.ERROR? || w.state.CHECK_PROFILES?
        || (w.state.WAIT_4_START? && w.timer < 2000)
        || (w.state.START_NETWORK? && w.timer == 0)
        || (w.state.WAIT_CONNECTAP? && (w.timer <= 10000 || w.timer == d))
        || (w.state.WAIT_IP? && w.timer <= 5000)
        || (w.state.SLEEP? && w.timer < w.sleepTime && (w.sleepTime == 1000 || w.sleepTime == 2000)))
  }

  lemma StatusQuiet(s: set<Bit>, got: Got)
    requires BitIp !in s && BitFwInstall !in s && QuietEvent(got)
    ensures BitIp !in Receive(s, got) && BitFwInstall !in Receive(s, got)
  {
  }

  lemma {:induction false} DrainQuiet(s: set<Bit>, later: seq<Got>, n: nat)
    requires BitFwInstall !in s && BitIp !in s
    requires forall k :: 0 <= k < |later| ==> QuietEvent(later[k])
    ensures BitFwInstall !in Drain(s, later, n)
    decreases n
  {
    if BitRunning in s && n > 0 {
      if later == [] {
        DrainQuiet(s, [], n - 1);
      } else {
        StatusQuiet(s, later[0]);
        DrainQuiet(Receive(s, later[0]), later[1..], n - 1);
      }
    }
  }

  lemma RoundKeeps(w: Dev, d: nat, env: Env)
    requires 1 <= d < 0x4000_0000 && InRound(w, d) && Quiet(env)
    ensures InRound(Exec(w, d, env), d)
  {
    ExecInv(w, d, env);
    StatusQuiet(w.status, env.got);
    DrainQuiet(Receive(w.status, env.got), env.later, 10);
    hide Inv, Receive, Drain;
    assert (w.timer + d) % 0x1_0000_0000 == w.timer + d || w.state.INIT? || w.state.START? || w.state.STOP?
        || w.state.ERROR? || w.state.CHECK_PROFILES?;
  }

  lemma RoundDescends(w: Dev, d: nat, env: Env)
    requires 1 <= d < 0x4000_0000 && InRound(w, d) && Quiet(env) && !w.state.INIT?
    ensures var w' := Exec(w, d, env); w'.state.INIT? || Rank(w', d) < Rank(w, d)
  {
    StatusQuiet(w.status, env.got);
    if w.state.SLEEP? {
      SleepDescends(w, d, env);
    } else if w.state.WAIT_IP? || w.state.WAIT_CONNECTAP? || w.state.WAIT_4_START? {
      WaitDescends(w, d, env);
    } else {
      OtherDescends(w, d, env);
    }
  }

  lemma TimerAdds(w: Dev, d: nat, env: Env)
    requires w.timer + d < 0x1_0000_0000
    ensures Exec(w, d, env) == Handle(w.(timer := w.timer + d), env)
  {
    hide Handle;
  }

  lemma SleepDescends(w: Dev, d: nat, env: Env)
    requires 1 <= d < 0x4000_0000 && InRound(w, d) && w.state.SLEEP?
    ensures var w' := Exec(w, d, env); w'.state.INIT? || Rank(w', d) < Rank(w, d)
  {
    FewerTicks(w.sleepTime, w.timer, d);
    TimerAdds(w, d, env);
    hide Receive, Drain, Ticks, Exec;
  }

  lemma WaitDescends(w: Dev, d: nat, env: Env)
    requires 1 <= d < 0x4000_0000 && InRound(w, d)
    requires BitIp !in Receive(w.status, env.got)
    requires w.state.WAIT_IP? || w.state.WAIT_CONNECTAP? || w.state.WAIT_4_START?
    ensures var w' := Exec(w, d, env); w'.state.INIT? || Rank(w', d) < Rank(w, d)
  {
    if w.state.WAIT_IP? {
      FewerTicks(5001, w.timer, d);
    } else if w.state.WAIT_4_START? {
      FewerTicks(2000, w.timer, d);
    } else if w.timer < 10001 {
      FewerTicks(10001, w.timer, d);
    }
    TimerAdds(w, d, env);
    hide Receive, Drain, Ticks, Exec;
  }

  lemma OtherDescends(w: Dev, d: nat, env: Env)
    requires 1 <= d < 0x4000_0000 && InRound(w, d) && !w.state.INIT?
    requires BitFwInstall !in Receive(w.status, env.got)
    requires !(w.state.SLEEP? || w.state.WAIT_IP? || w.state.WAIT_CONNECTAP? || w.state.WAIT_4_START?)
    ensures var w' := Exec(w, d, env); w'.state.INIT? || Rank(w', d) < Rank(w, d)
  {
    FewerTicks(10001, 0, d);
    hide Receive, Drain, Ticks;
  }

  /** The run from `i` to `j` has one tick length, is quiet and does not come to INIT in
      between. */
  ghost predicate QuietStretch(ws: seq<Dev>, ds: seq<nat>, envs: seq<Env>, i: nat, j: nat, d: nat) {
    && i <= j < |ws| && |ds| == |envs| == |ws| - 1
    && (forall k: nat :: i <= k < j ==> ds[k] == d && Quiet(envs[k]))
    && (forall k: nat :: i < k <= j ==> !ws[k].state.INIT?)
  }

  lemma {:induction false} QuietRunIsRound(ws: seq<Dev>, ds: seq<nat>, envs: seq<Env>, j: nat, d: nat)
    requires IsRun(false, ws, ds, envs) && j < |ws| && 1 <= d < 0x4000_0000
    requires forall k: nat :: k < j ==> ds[k] == d && Quiet(envs[k])
    ensures InRound(ws[j], d)
  {
    hide Exec;
    if j > 0 {
      QuietRunIsRound(ws, ds, envs, j - 1, d);
      RoundKeeps(ws[j - 1], d, envs[j - 1]);
    } else {
      assert InRound(Init(false), d);
    }
  }

  lemma {:induction false} StretchDescends(ws: seq<Dev>, ds: seq<nat>, envs: seq<Env>, i: nat, j: nat, d: nat)
    requires IsRun(false, ws, ds, envs) && 1 <= d < 0x4000_0000 && QuietStretch(ws, ds, envs, i, j, d) && i < j
    requires forall k: nat :: k < i ==> ds[k] == d && Quiet(envs[k])
    requires ws[i].state.INIT?
    ensures Rank(ws[j], d) + (j - i - 1) <= Bound(d)
    decreases j
  {
    hide Exec, Rank, Bound;
    if j == i + 1 {
      QuietRunIsRound(ws, ds, envs, i, d);
      FirstStep(ws[i], d, envs[i]);
    } else {
      StretchDescends(ws, ds, envs, i, j - 1, d);
      QuietRunIsRound(ws, ds, envs, j - 1, d);
      RoundDescends(ws[j - 1], d, envs[j - 1]);
    }
  }

  lemma FirstStep(w: Dev, d: nat, env: Env)
    requires w.state.INIT? && d >= 1
    ensures Rank(Exec(w, d, env), d) == Bound(d)
  {
  }

  lemma RankPositive(w: Dev, d: nat)
    requires d >= 1 && InRound(w, d) && !w.state.INIT?
    ensures Rank(w, d) >= 1
  {
  }

  /** In every run without an address, a provisioning request or a firmware installation,
      polled every `d` ms, each visit to INIT is followed by the next within a number of
      executions that the tick gives. */
  lemma ComesBackToInit(ws: seq<Dev>, ds: seq<nat>, envs: seq<Env>, i: nat, j: nat, d: nat)
    requires IsRun(false, ws, ds, envs) && 1 <= d < 0x4000_0000 && i <= j < |ws|
    requires forall k: nat :: k < j ==> ds[k] == d && Quiet(envs[k])
    requires ws[i].state.INIT? && forall k: nat :: i < k <= j ==> !ws[k].state.INIT?
    ensures j - i <= Bound(d)
  {
    hide Exec, Rank, Bound, InRound;
    if i < j {
      StretchDescends(ws, ds, envs, i, j, d);
      QuietRunIsRound(ws, ds, envs, j, d);
      RankPositive(ws[j], d);
    }
  }
}
