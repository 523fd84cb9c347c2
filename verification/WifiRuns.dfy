/**
 The properties of the connection state machine, over every run.
 */
module WifiRuns {
  import opened WifiSpec
  import opened WifiSafety

  /** In every run a state's handler is registered, and so are the provisioning handlers
      whenever the timeout of WAIT_FOR_CONN would call the entry to provisioning. */
  lemma HandlersAreRegistered(g: Settings, ws: seq<Wifi>, ops: seq<Op>, k: nat)
    requires IsRun(g, ws, ops) && k < |ws| && !ws[k].destroyed
    ensures NeedsProvisioning(ws[k].state) ==> ws[k].prov.registered
    ensures !ws[k].prov.mode.ModeOff? ==> ws[k].prov.registered
  {
    RunInv(g, ws, ops, k);
  }

  // ------------------------------------------------------------------ the timer

  /** A timer that is armed shows its state's own timeout; in CONNECTED and PROV_STOPPING
      none is armed. */
  predicate Fits(g: Settings, w: Wifi) {
    match w.state
    case OFF => true
    case IDLE => w.timer == 0 || (w.idle.count > 0 && w.timer == Interval(g, w.idle.count - 1))
    case WAIT_FOR_CONN => w.timer == 0 || w.timer == g.connect || w.timer == g.reconnect
    case WAIT_FOR_IP => w.timer == 0 || w.timer == g.ip
    case CONNECTED => w.timer == 0
    case PROVISIONING => w.timer == 0 || w.timer == g.prov
    case EXT_PROVISIONING => w.timer == 0 || w.timer == g.prov
    case PROV_STOPPING => w.timer == 0
  }

  lemma HandleFits(g: Settings, w: Wifi, e: Event, env: Env)
    requires Fits(g, w) && InSeries(g, w)
    ensures Fits(g, Dispatch(g, w, e, env))
  {
    if NeedsProvisioning(w.state) {
      ProvisioningFits(g, w, e, env);
    } else {
      OtherFits(g, w, e, env);
    }
  }

  lemma ProvisioningFits(g: Settings, w: Wifi, e: Event, env: Env)
    requires Fits(g, w) && InSeries(g, w) && NeedsProvisioning(w.state)
    ensures Fits(g, Dispatch(g, w, e, env))
  {
    hide NextInterval, Restarted, Cleared, UseUp, Again;
  }

  lemma OtherFits(g: Settings, w: Wifi, e: Event, env: Env)
    requires Fits(g, w) && InSeries(g, w) && !NeedsProvisioning(w.state)
    ensures Fits(g, Dispatch(g, w, e, env))
  {
    hide NextInterval, Restarted, Cleared, UseUp, Again;
  }

  /** In every run, whatever the settings. */
  lemma {:induction false} TimersFit(g: Settings, ws: seq<Wifi>, ops: seq<Op>, k: nat)
    requires IsRun(g, ws, ops) && k < |ws|
    ensures Fits(g, ws[k])
  {
    hide Dispatch, Interval;
    if k > 0 {
      TimersFit(g, ws, ops, k - 1);
      RunSeries(g, ws, ops, k - 1);
      var w := ws[k - 1];
      assert Moves(g, w, ops[k - 1], ws[k]);
      if ops[k - 1].Process? {
        HandleFits(g, w.(eventQ := w.eventQ[1..]), w.eventQ[0], ops[k - 1].env);
      }
    }
  }

  /** DISABLE switches off at once, from every state but PROVISIONING, where it is kept for
      when provisioning has stopped. */
  lemma DisableSwitchesOffIff(g: Settings, w: Wifi, env: Env)
    ensures Dispatch(g, w, Disable, env).state.OFF? <==> !w.state.PROVISIONING?
    ensures w.state.PROVISIONING? ==>
      var w' := Dispatch(g, w, Disable, env); w'.state.PROV_STOPPING? && w'.deferredQ == w.deferredQ + [Disable]
  {
  }

  /** The reconnection timeout is armed exactly when a link is given up. */
  lemma ReconnectIff(g: Settings, w: Wifi, e: Event, env: Env)
    requires Dispatch(g, w, e, env).state.WAIT_FOR_CONN? && Dispatch(g, w, e, env) != w && g.connect != g.reconnect
    ensures Dispatch(g, w, e, env).timer == g.reconnect <==> InRegion(w.state)
    ensures Dispatch(g, w, e, env).timer == g.connect <==> !InRegion(w.state)
  {
    if NeedsProvisioning(w.state) {
      ProvisioningConnects(g, w, e, env);
    } else {
      hide NextInterval, Restarted, Cleared, UseUp, Again;
    }
  }

  lemma ProvisioningConnects(g: Settings, w: Wifi, e: Event, env: Env)
    requires Dispatch(g, w, e, env).state.WAIT_FOR_CONN? && NeedsProvisioning(w.state)
    ensures Dispatch(g, w, e, env).timer == g.connect
  {
    hide NextInterval, Restarted, Cleared, UseUp, Again;
  }

  // ------------------------------------------------------------------ stopping provisioning

  /** Position of the first event that leaves PROV_STOPPING, or |q|. */
  function FirstLeaver(q: seq<Event>): (k: nat)
    ensures k <= |q| && (k < |q| ==> Leaves(q[k]))
    ensures forall i: nat :: i < k ==> !Leaves(q[i])
  {
    if q == [] || Leaves(q[0]) then 0
    else
      var r := FirstLeaver(q[1..]);
      assert forall i: nat :: 0 < i < r + 1 ==> q[i] == q[1..][i - 1];
      r + 1
  }

  function Processed(ops: seq<Op>): nat {
    if ops == [] then 0 else Processed(ops[..|ops| - 1]) + if ops[|ops| - 1].Process? then 1 else 0
  }

  lemma FirstLeaverIs(q: seq<Event>, k: nat)
    requires k < |q| && Leaves(q[k]) && forall i: nat :: i < k ==> !Leaves(q[i])
    ensures FirstLeaver(q) == k
  {
  }

  lemma LeaverComesCloser(g: Settings, w: Wifi, op: Op)
    requires Enabled(w, op) && Stopping(w) && w.stopSeen && Apply(g, w, op).stopSeen && !Apply(g, w, op).destroyed
    ensures FirstLeaver(w.eventQ) == FirstLeaver(Apply(g, w, op).eventQ) + if op.Process? then 1 else 0
  {
    var w' := Apply(g, w, op);
    var k := FirstLeaver(w.eventQ);
    if op.Process? {
      var u, e := w.(eventQ := w.eventQ[1..]), w.eventQ[0];
      if Leaves(e) {
        LeaverLeaves(g, u, e, op.env);
      }
      StaysInQueue(g, u, e, op.env);
      FirstLeaverNext(w.eventQ, w'.eventQ[|u.eventQ|..]);
      assert w'.eventQ == u.eventQ + w'.eventQ[|u.eventQ|..];
    } else {
      assert forall i: nat :: i <= k ==> w'.eventQ[i] == w.eventQ[i];
      FirstLeaverIs(w'.eventQ, k);
    }
  }

  lemma FirstLeaverNext(q: seq<Event>, more: seq<Event>)
    requires q != [] && !Leaves(q[0]) && FirstLeaver(q) < |q|
    ensures FirstLeaver(q[1..] + more) == FirstLeaver(q) - 1
  {
    var k := FirstLeaver(q);
    assert forall i: nat :: 1 <= i <= k ==> (q[1..] + more)[i - 1] == q[i];
    FirstLeaverIs(q[1..] + more, k - 1);
  }

  /** An event that does not leave PROV_STOPPING only appends to the queue. */
  lemma StaysInQueue(g: Settings, w: Wifi, e: Event, env: Env)
    requires w.state.PROV_STOPPING? && Dispatch(g, w, e, env).stopSeen
    ensures w.eventQ <= Dispatch(g, w, e, env).eventQ
  {
  }

  /** Once PROV_STOPPED has been handled, PROV_STOPPING is left within as many events as are
      queued: while the machine has not left it, fewer have been processed. */
  lemma {:induction false} StoppingIsLeft(g: Settings, ws: seq<Wifi>, ops: seq<Op>, i: nat, j: nat)
    requires IsRun(g, ws, ops) && i <= j < |ws| && !ws[j].destroyed
    requires forall k: nat :: i <= k <= j ==> ws[k].stopSeen
    ensures Processed(ops[i..j]) < |ws[i].eventQ|
    ensures Processed(ops[i..j]) + FirstLeaver(ws[j].eventQ) == FirstLeaver(ws[i].eventQ)
    ensures ws[j].state.PROV_STOPPING?
  {
    hide Apply, Inv;
    RunInv(g, ws, ops, j);
    StoppingFacts(g, ws[j]);
    if i < j {
      assert Moves(g, ws[j - 1], ops[j - 1], ws[j]);
      StoppingIsLeft(g, ws, ops, i, j - 1);
      RunInv(g, ws, ops, j - 1);
      NotDestroyed(g, ws, ops, i, j);
      RunInv(g, ws, ops, i);
      StoppingFacts(g, ws[i]);
      StoppingFacts(g, ws[j - 1]);
      SomeLeaver(ws[i].eventQ);
      LeaverComesCloser(g, ws[j - 1], ops[j - 1]);
      assert ops[i..j][..j - 1 - i] == ops[i..j - 1];
    } else {
      SomeLeaver(ws[i].eventQ);
    }
  }

  lemma StoppingFacts(g: Settings, w: Wifi)
    requires Inv(g, w)
    ensures Stopping(w)
  {
  }

  lemma {:induction false} NotDestroyed(g: Settings, ws: seq<Wifi>, ops: seq<Op>, i: nat, j: nat)
    requires IsRun(g, ws, ops) && i <= j < |ws| && !ws[j].destroyed
    ensures !ws[i].destroyed
    decreases j - i
  {
    hide Apply;
    if i < j {
      assert Moves(g, ws[j - 1], ops[j - 1], ws[j]);
      NotDestroyed(g, ws, ops, i, j - 1);
    }
  }

  lemma SomeLeaver(q: seq<Event>)
    requires SomeLeave(q)
    ensures FirstLeaver(q) < |q|
  {
  }

  // ------------------------------------------------------------------ link notifications

  /** In every run the DISCONNECT notifications balance the entries into the connected
      region, and the MAC_CONNECTs fall short of them by the silent entries. */
  lemma NotificationsBalance(g: Settings, ws: seq<Wifi>, ops: seq<Op>, k: nat)
    requires IsRun(g, ws, ops) && k < |ws| && !ws[k].destroyed
    ensures ws[k].link.entries == Notes(ws[k].link.notes, DisconnectNote) + (if InRegion(ws[k].state) then 1 else 0)
    ensures ws[k].link.entries == Notes(ws[k].link.notes, MacConnect) + ws[k].link.silent
  {
    RunInv(g, ws, ops, k);
  }

  /** An entry is silent exactly for a CONNECTED in IDLE, and for an address before the
      connection in WAIT_FOR_CONN. */
  lemma SilentIff(g: Settings, w: Wifi, e: Event, env: Env)
    ensures Dispatch(g, w, e, env).link.silent == w.link.silent +
      if (w.state.IDLE? && e.Connected?) || (w.state.WAIT_FOR_CONN? && e.IpAcquired?) then 1 else 0
  {
    if NeedsProvisioning(w.state) {
      ProvisioningNotSilent(g, w, e, env);
    } else {
      hide NextInterval, Restarted, Cleared, UseUp, Again;
    }
  }

  lemma ProvisioningNotSilent(g: Settings, w: Wifi, e: Event, env: Env)
    requires NeedsProvisioning(w.state)
    ensures Dispatch(g, w, e, env).link.silent == w.link.silent
  {
    hide NextInterval, Restarted, Cleared, UseUp, Again;
  }

  /** Such a run: enable, then an address at once. The interface hears of the address and of
      the disconnection and never of the connection. */
  lemma SilentRun(g: Settings) returns (ws: seq<Wifi>, ops: seq<Op>)
    ensures IsRun(g, ws, ops) && ws[|ops|].link.notes == [IpAcquiredNote, DisconnectNote]
    ensures ws[|ops|].link.silent == 1
  {
    var env := Env(false, Sta);
    var w0 := Init();
    var w1 := Apply(g, w0, Post(Enable));
    var w2 := Apply(g, w1, Process(env));
    var w3 := Apply(g, w2, Post(IpAcquired));
    var w4 := Apply(g, w3, Process(env));
    var w5 := Apply(g, w4, Post(Disconnect));
    var w6 := Apply(g, w5, Process(env));
    ops := [Post(Enable), Process(env), Post(IpAcquired), Process(env), Post(Disconnect), Process(env)];
    ws := [w0, w1, w2, w3, w4, w5, w6];
  }

  // ------------------------------------------------------------------ back-off

  /** In every run: the level is the number of restarts since it was last cleared, at most
      4; the n-th of these slept 5, 10, 20, then 30 seconds; the 2 second entry of the table
      is never used; and connecting clears the level unless the 8-bit count has just come
      round to zero. */
  lemma BackoffOverRuns(g: Settings, ws: seq<Wifi>, ops: seq<Op>, k: nat)
    requires IsRun(g, ws, ops) && k < |ws| && !ws[k].destroyed
    ensures var b := ws[k].back;
      && b.level == LevelAfter(b.resets) && b.resets <= |b.delays|
      && (forall i: nat :: 1 <= i <= b.resets ==> b.delays[|b.delays| - b.resets + i - 1] == NthDelay(i))
      && (forall i: nat :: i < |b.delays| ==> b.delays[i] != RecoveryDelay(0))
      && (Cleared(b).level == 0 <==> b.resets % 256 != 0 || b.resets == 0)
  {
    RunInv(g, ws, ops, k);
    assert forall i: nat :: i >= 1 ==> NthDelay(i) == RecoveryDelay(LevelAfter(i));
  }

  /** The delay of the n-th restart in a row. */
  function NthDelay(n: nat): nat {
    if n == 1 then 5 else if n == 2 then 10 else if n == 3 then 20 else 30
  }

  // ------------------------------------------------------------------ idle series

  lemma {:induction false} RunSeries(g: Settings, ws: seq<Wifi>, ops: seq<Op>, k: nat)
    requires IsRun(g, ws, ops) && k < |ws|
    ensures InSeries(g, ws[k])
  {
    hide Dispatch, Interval;
    if k > 0 {
      RunSeries(g, ws, ops, k - 1);
      var w := ws[k - 1];
      assert Moves(g, w, ops[k - 1], ws[k]);
      if ops[k - 1].Process? {
        HandleKeepsSeries(g, w.(eventQ := w.eventQ[1..]), w.eventQ[0], ops[k - 1].env);
      }
    }
  }

  /** In every run, whatever the settings: an entry into IDLE arms the interval that the
      number of earlier entries, since the last connection or ENABLE, gives. */
  lemma IdleEntryArms(g: Settings, ws: seq<Wifi>, ops: seq<Op>, k: nat)
    requires IsRun(g, ws, ops) && k < |ops| && ws[k + 1].idle.count > ws[k].idle.count
    ensures ws[k + 1].state.IDLE? && ws[k + 1].idle.count == ws[k].idle.count + 1
    ensures !ws[k].state.OFF? && ws[k + 1].timer == Interval(g, ws[k].idle.count)
  {
    hide Dispatch, Interval;
    RunSeries(g, ws, ops, k);
    var w := ws[k];
    assert Moves(g, w, ops[k], ws[k + 1]);
    EntersIdle(g, w.(eventQ := w.eventQ[1..]), w.eventQ[0], ops[k].env);
  }

  lemma EntersIdle(g: Settings, w: Wifi, e: Event, env: Env)
    requires Dispatch(g, w, e, env).idle.count > w.idle.count
    ensures var w' := Dispatch(g, w, e, env);
      w'.state.IDLE? && w'.idle.count == w.idle.count + 1 && !w.state.OFF? && w'.timer == w.idle.interval
  {
    if NeedsProvisioning(w.state) {
      ProvisioningEntersIdle(g, w, e, env);
    } else {
      hide NextInterval, Restarted, Cleared, UseUp, Again;
    }
  }

  lemma ProvisioningEntersIdle(g: Settings, w: Wifi, e: Event, env: Env)
    requires NeedsProvisioning(w.state) && Dispatch(g, w, e, env).idle.count > w.idle.count
    ensures var w' := Dispatch(g, w, e, env);
      w'.state.IDLE? && w'.idle.count == w.idle.count + 1 && w'.timer == w.idle.interval
  {
    hide NextInterval, Restarted, Cleared, UseUp, Again;
  }

  function Pow2(k: nat): nat {
    if k == 0 then 1 else 2 * Pow2(k - 1)
  }

  function Min(a: nat, b: nat): nat {
    if a < b then a else b
  }

  lemma Twice(a: nat, b: nat)
    ensures a * (2 * b) == 2 * (a * b)
  {
  }

  lemma MinIs(a: nat, b: nat)
    ensures a <= b ==> Min(a, b) == a
  {
  }

  lemma Doubled(g: Settings, v: nat)
    requires g.idleMax < 0x8000
    ensures NextInterval(g, Min(v, g.idleMax)) == Min(2 * v, g.idleMax)
  {
  }

  lemma {:induction false} IntervalCapped(g: Settings, k: nat)
    requires g.idleMin <= g.idleMax < 0x8000
    ensures Interval(g, k) == Min(g.idleMin * Pow2(k), g.idleMax)
  {
    hide NextInterval, Min;
    if k > 0 {
      IntervalCapped(g, k - 1);
      Twice(g.idleMin, Pow2(k - 1));
      Doubled(g, g.idleMin * Pow2(k - 1));
    } else {
      assert g.idleMin * Pow2(0) == g.idleMin;
      MinIs(g.idleMin, g.idleMax);
    }
  }

  lemma {:induction false} PowGrows(k: nat)
    ensures Pow2(k) > k
  {
    if k > 0 {
      PowGrows(k - 1);
    }
  }

  ghost predicate Documented(g: Settings) {
    forall k: nat :: Interval(g, k) == Min(g.idleMin * Pow2(k), g.idleMax)
  }

  /** The documented series, doubling up to the maximum, is what is armed if and only if the
      maximum is below 32768; above it the 16-bit doubling wraps. */
  lemma IdleSeriesIff(g: Settings)
    requires 1 <= g.idleMin <= g.idleMax < 0x1_0000
    ensures Documented(g) <==> g.idleMax < 0x8000
  {
    if g.idleMax < 0x8000 {
      forall k: nat
        ensures Interval(g, k) == Min(g.idleMin * Pow2(k), g.idleMax)
      {
        IntervalCapped(g, k);
      }
    } else if Documented(g) {
      var k := g.idleMax;
      Reached(g, k);
      Reached(g, k + 1);
      assert Interval(g, k + 1) == NextInterval(g, Interval(g, k));
      WrapsBelow(g);
      assert false;
    }
  }

  lemma Reached(g: Settings, k: nat)
    requires g.idleMin >= 1 && k >= g.idleMax
    ensures Min(g.idleMin * Pow2(k), g.idleMax) == g.idleMax
  {
    PowGrows(k);
    Times(1, g.idleMin, Pow2(k));
  }

  lemma Times(a: nat, b: nat, m: nat)
    requires a <= b
    ensures a * m <= b * m
  {
  }

  lemma WrapsBelow(g: Settings)
    requires 0x8000 <= g.idleMax < 0x1_0000
    ensures NextInterval(g, g.idleMax) < g.idleMax
  {
  }
}
