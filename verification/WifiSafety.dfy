/**
 What the connection state machine keeps in every run: it never waits without a wake-up,
 leaves PROV_STOPPING once provisioning has stopped, notifies the network interface in
 balance, and calls only registered handlers.
 */
module WifiSafety {
  import opened WifiSpec

  // ------------------------------------------------------------------ wake-up

  predicate Waits(s: State) {
    s.IDLE? || s.WAIT_FOR_CONN? || s.WAIT_FOR_IP? || s.PROVISIONING? || s.EXT_PROVISIONING?
  }

  /** A state that waits has its timer armed or a timeout on the way. */
  predicate Wakes(w: Wifi) {
    Waits(w.state) ==> w.timer > 0 || Timeout in w.eventQ
  }

  /** The idle interval after `k` idle entries. */
  function Interval(g: Settings, k: nat): nat {
    if k == 0 then g.idleMin else NextInterval(g, Interval(g, k - 1))
  }

  /** The interval follows the series since it was last reset; before the first ENABLE it is
      not used. */
  predicate InSeries(g: Settings, w: Wifi) {
    w.state.OFF? || w.idle.interval == Interval(g, w.idle.count)
  }

  /** No idle entry arms a duration of zero. */
  ghost predicate IntervalsPositive(g: Settings) {
    forall k: nat :: Interval(g, k) > 0
  }

  lemma HandleKeepsSeries(g: Settings, w: Wifi, e: Event, env: Env)
    requires InSeries(g, w)
    ensures InSeries(g, Dispatch(g, w, e, env))
  {
    if NeedsProvisioning(w.state) {
      ProvisioningKeepsSeries(g, w, e, env);
    } else {
      OtherKeepsSeries(g, w, e, env);
    }
  }

  lemma ProvisioningKeepsSeries(g: Settings, w: Wifi, e: Event, env: Env)
    requires InSeries(g, w) && NeedsProvisioning(w.state)
    ensures InSeries(g, Dispatch(g, w, e, env))
  {
    hide NextInterval, Restarted, Cleared, UseUp, Again;
  }

  lemma OtherKeepsSeries(g: Settings, w: Wifi, e: Event, env: Env)
    requires InSeries(g, w) && !NeedsProvisioning(w.state)
    ensures InSeries(g, Dispatch(g, w, e, env))
  {
    hide NextInterval, Restarted, Cleared, UseUp, Again;
  }

  lemma HandleWakes(g: Settings, w: Wifi, e: Event, env: Env)
    requires Positive(g) && IntervalsPositive(g) && InSeries(g, w)
    requires !e.Timeout? ==> Wakes(w)
    ensures Wakes(Dispatch(g, w, e, env))
  {
    if NeedsProvisioning(w.state) {
      ProvisioningWakes(g, w, e, env);
    } else {
      OtherWakes(g, w, e, env);
    }
  }

  lemma ProvisioningWakes(g: Settings, w: Wifi, e: Event, env: Env)
    requires Positive(g) && NeedsProvisioning(w.state) && w.idle.interval > 0
    requires !e.Timeout? ==> Wakes(w)
    ensures Wakes(Dispatch(g, w, e, env))
  {
    hide NextInterval, Interval, Restarted, Cleared, UseUp, Again;
  }

  lemma OtherWakes(g: Settings, w: Wifi, e: Event, env: Env)
    requires Positive(g) && !NeedsProvisioning(w.state) && (w.state.OFF? || w.idle.interval > 0)
    requires !e.Timeout? ==> Wakes(w)
    ensures Wakes(Dispatch(g, w, e, env))
  {
    hide NextInterval, Interval, Restarted, Cleared, UseUp, Again;
  }

  // ------------------------------------------------------------------ stopping provisioning

  /** The events that leave PROV_STOPPING. */
  predicate Leaves(e: Event) {
    e.Disable? || e.Timeout? || e.Error? || e.ExtProvCompleted? || e.AddProfile?
  }

  ghost predicate AllLeave(q: seq<Event>) {
    forall k: nat :: k < |q| ==> Leaves(q[k])
  }

  ghost predicate SomeLeave(q: seq<Event>) {
    exists k: nat :: k < |q| && Leaves(q[k])
  }

  ghost predicate Stopping(w: Wifi) {
    && AllLeave(w.deferredQ)
    && (w.stopSeen ==> w.state.PROV_STOPPING? && SomeLeave(w.eventQ))
  }

  lemma LeaveJoined(a: seq<Event>, b: seq<Event>)
    requires AllLeave(b)
    ensures SomeLeave(a) || b != [] ==> SomeLeave(a + b)
    ensures AllLeave(a) ==> AllLeave(a + b)
  {
    if b != [] {
      assert (a + b)[|a|] == b[0];
    } else {
      assert a + b == a;
    }
  }

  /** No handler stays in PROV_STOPPING on an event that leaves it. */
  lemma LeaverLeaves(g: Settings, w: Wifi, e: Event, env: Env)
    requires w.state.PROV_STOPPING? && Leaves(e)
    ensures !Dispatch(g, w, e, env).stopSeen
  {
  }

  lemma HandleKeepsStopping(g: Settings, w: Wifi, e: Event, env: Env)
    requires AllLeave(w.deferredQ)
    requires w.stopSeen ==> w.state.PROV_STOPPING? && (Leaves(e) || SomeLeave(w.eventQ))
    ensures Stopping(Dispatch(g, w, e, env))
  {
    if NeedsProvisioning(w.state) {
      if w.state.PROV_STOPPING? && Leaves(e) {
        LeaverLeaves(g, w, e, env);
      }
      ProvisioningKeepsStopping(g, w, e, env);
    } else {
      OtherKeepsStopping(g, w, e, env);
    }
  }

  lemma OtherKeepsStopping(g: Settings, w: Wifi, e: Event, env: Env)
    requires AllLeave(w.deferredQ) && !w.stopSeen && !NeedsProvisioning(w.state)
    ensures Stopping(Dispatch(g, w, e, env))
  {
    NoneLeft();
    hide AllLeave, SomeLeave, NextInterval, Restarted, Cleared, UseUp, Again;
  }

  lemma ProvisioningKeepsStopping(g: Settings, w: Wifi, e: Event, env: Env)
    requires AllLeave(w.deferredQ) && NeedsProvisioning(w.state)
    requires w.stopSeen ==> w.state.PROV_STOPPING?
    requires w.stopSeen ==> SomeLeave(w.eventQ) || !Dispatch(g, w, e, env).stopSeen
    ensures Stopping(Dispatch(g, w, e, env))
  {
    NoneLeft();
    DeferredKept(w.eventQ, w.deferredQ);
    hide AllLeave, SomeLeave, NextInterval, Restarted, Cleared, UseUp, Again;
  }

  /** What a handler may do with the two queues. */
  lemma DeferredKept(q: seq<Event>, d: seq<Event>)
    requires AllLeave(d)
    ensures SomeLeave(q) || d != [] ==> SomeLeave(q + d)
    ensures AllLeave(d + [Disable]) && AllLeave(d + [Timeout]) && AllLeave(d + [Error])
    ensures AllLeave(d + [ExtProvCompleted]) && AllLeave(d + [])
  {
    LeaveJoined(q, d);
    assert d + [] == d;
  }

  lemma NoneLeft()
    ensures AllLeave([])
  {
  }

  // ------------------------------------------------------------------ handlers

  predicate NeedsProvisioning(s: State) {
    s.PROVISIONING? || s.PROV_STOPPING? || s.EXT_PROVISIONING?
  }

  /** The provisioning handlers are registered in the states that need them, and whenever
      the mode could enter them. */
  predicate Registered(w: Wifi) {
    NeedsProvisioning(w.state) || !w.prov.mode.ModeOff? ==> w.prov.registered
  }

  lemma HandleKeepsRegistered(g: Settings, w: Wifi, e: Event, env: Env)
    requires Registered(w)
    ensures Registered(Dispatch(g, w, e, env))
  {
    if NeedsProvisioning(w.state) {
      ProvisioningKeepsRegistered(g, w, e, env);
    } else {
      OtherKeepsRegistered(g, w, e, env);
    }
  }

  lemma ProvisioningKeepsRegistered(g: Settings, w: Wifi, e: Event, env: Env)
    requires Registered(w) && NeedsProvisioning(w.state)
    ensures Registered(Dispatch(g, w, e, env))
  {
    hide NextInterval, Restarted, Cleared;
  }

  lemma OtherKeepsRegistered(g: Settings, w: Wifi, e: Event, env: Env)
    requires Registered(w) && !NeedsProvisioning(w.state)
    ensures Registered(Dispatch(g, w, e, env))
  {
    hide NextInterval, Restarted, Cleared;
  }

  // ------------------------------------------------------------------ link notifications

  function Notes(net: seq<Note>, n: Note): nat {
    if net == [] then 0 else Notes(net[..|net| - 1], n) + if net[|net| - 1] == n then 1 else 0
  }

  lemma NoteAdded(net: seq<Note>, m: Note, n: Note)
    ensures Notes(net + [m], n) == Notes(net, n) + if m == n then 1 else 0
  {
    assert (net + [m])[..|net|] == net;
  }

  /** Entries into the connected region, less DISCONNECT notifications, say whether the
      machine is there; and every other entry was announced. */
  predicate Linked(w: Wifi) {
    && w.link.entries == Notes(w.link.notes, DisconnectNote) + (if InRegion(w.state) then 1 else 0)
    && w.link.entries == Notes(w.link.notes, MacConnect) + w.link.silent
  }

  /** The notifications one event can lead to, counted. */
  lemma NotesCounted(notes: seq<Note>)
    ensures Notes(notes + [DisconnectNote], DisconnectNote) == Notes(notes, DisconnectNote) + 1
    ensures Notes(notes + [DisconnectNote], MacConnect) == Notes(notes, MacConnect)
    ensures Notes(notes + [MacConnect], DisconnectNote) == Notes(notes, DisconnectNote)
    ensures Notes(notes + [MacConnect], MacConnect) == Notes(notes, MacConnect) + 1
    ensures Notes(notes + [IpAcquiredNote], DisconnectNote) == Notes(notes, DisconnectNote)
    ensures Notes(notes + [IpAcquiredNote], MacConnect) == Notes(notes, MacConnect)
  {
    NoteAdded(notes, DisconnectNote, DisconnectNote);
    NoteAdded(notes, DisconnectNote, MacConnect);
    NoteAdded(notes, MacConnect, DisconnectNote);
    NoteAdded(notes, MacConnect, MacConnect);
    NoteAdded(notes, IpAcquiredNote, DisconnectNote);
    NoteAdded(notes, IpAcquiredNote, MacConnect);
  }

  lemma HandleKeepsLinked(g: Settings, w: Wifi, e: Event, env: Env)
    requires Linked(w)
    ensures Linked(Dispatch(g, w, e, env))
  {
    if InRegion(w.state) {
      RegionKeepsLinked(g, w, e, env);
    } else if NeedsProvisioning(w.state) {
      ProvisioningKeepsLinked(g, w, e, env);
    } else {
      OtherKeepsLinked(g, w, e, env);
    }
  }

  lemma RegionKeepsLinked(g: Settings, w: Wifi, e: Event, env: Env)
    requires Linked(w) && InRegion(w.state)
    ensures Linked(Dispatch(g, w, e, env))
  {
    NotesCounted(w.link.notes);
    hide Notes, NextInterval, Restarted, Cleared, UseUp, Again;
  }

  lemma ProvisioningKeepsLinked(g: Settings, w: Wifi, e: Event, env: Env)
    requires Linked(w) && NeedsProvisioning(w.state)
    ensures Linked(Dispatch(g, w, e, env))
  {
    if w.state.PROV_STOPPING? {
      StoppingKeepsLinked(g, w, e, env);
    } else {
      hide Notes, NextInterval, Restarted, Cleared, UseUp, Again;
    }
  }

  lemma StoppingKeepsLinked(g: Settings, w: Wifi, e: Event, env: Env)
    requires Linked(w) && w.state.PROV_STOPPING?
    ensures Linked(Dispatch(g, w, e, env))
  {
    NotesCounted(w.link.notes);
    NotesCounted(w.link.notes + [MacConnect]);
    hide Notes, NextInterval, Restarted, Cleared, UseUp, Again;
  }

  lemma OtherKeepsLinked(g: Settings, w: Wifi, e: Event, env: Env)
    requires Linked(w) && !InRegion(w.state) && !NeedsProvisioning(w.state)
    ensures Linked(Dispatch(g, w, e, env))
  {
    NotesCounted(w.link.notes);
    NotesCounted(w.link.notes + [MacConnect]);
    hide Notes, NextInterval, Restarted, Cleared, UseUp, Again;
  }

  // ------------------------------------------------------------------ back-off

  /** The level after `n` restarts since it was cleared. */
  function LevelAfter(n: nat): nat {
    if n < MAX_RECOVERY_LEVEL then n else MAX_RECOVERY_LEVEL
  }

  /** Level, count and the delays since the level was cleared are what the number of
      restarts says. */
  ghost predicate BackedOff(b: Backoff) {
    && b.level == LevelAfter(b.resets) && b.fatal == b.resets % 256
    && b.resets <= |b.delays| && (forall i: nat :: i < |b.delays| ==> b.delays[i] >= RecoveryDelay(1))
    && forall i: nat :: 1 <= i <= b.resets ==>
         b.delays[|b.delays| - b.resets + i - 1] == RecoveryDelay(LevelAfter(i))
  }

  lemma RestartBacksOff(b: Backoff)
    requires BackedOff(b)
    ensures BackedOff(Restarted(b))
  {
    var r := Restarted(b);
    forall i: nat | 1 <= i <= r.resets
      ensures r.delays[|r.delays| - r.resets + i - 1] == RecoveryDelay(LevelAfter(i))
    {
      if i <= b.resets {
        assert r.delays[|r.delays| - r.resets + i - 1] == b.delays[|b.delays| - b.resets + i - 1];
      }
    }
  }

  lemma ClearBacksOff(b: Backoff)
    requires BackedOff(b)
    ensures BackedOff(Cleared(b))
  {
  }

  lemma HandleBacksOff(g: Settings, w: Wifi, e: Event, env: Env)
    requires BackedOff(w.back)
    ensures BackedOff(Dispatch(g, w, e, env).back)
  {
    RestartBacksOff(w.back);
    ClearBacksOff(w.back);
    assert Dispatch(g, w, e, env).back == w.back || Dispatch(g, w, e, env).back == Restarted(w.back)
        || Dispatch(g, w, e, env).back == Cleared(w.back) by {
      BackoffMoves(g, w, e, env);
    }
  }

  lemma BackoffMoves(g: Settings, w: Wifi, e: Event, env: Env)
    ensures var b := Dispatch(g, w, e, env).back; b == w.back || b == Restarted(w.back) || b == Cleared(w.back)
  {
    if NeedsProvisioning(w.state) {
      ProvisioningBackoff(g, w, e, env);
    } else {
      OtherBackoff(g, w, e, env);
    }
  }

  lemma ProvisioningBackoff(g: Settings, w: Wifi, e: Event, env: Env)
    requires NeedsProvisioning(w.state)
    ensures var b := Dispatch(g, w, e, env).back; b == w.back || b == Restarted(w.back) || b == Cleared(w.back)
  {
    hide Restarted, Cleared, NextInterval, UseUp, Again;
  }

  lemma OtherBackoff(g: Settings, w: Wifi, e: Event, env: Env)
    requires !NeedsProvisioning(w.state)
    ensures var b := Dispatch(g, w, e, env).back; b == w.back || b == Restarted(w.back) || b == Cleared(w.back)
  {
    hide Restarted, Cleared, NextInterval, UseUp, Again;
  }

  // ------------------------------------------------------------------ every step, every run

  /** What holds between events, whatever the settings. */
  ghost predicate Inv(g: Settings, w: Wifi) {
    InSeries(g, w) && Stopping(w) && Registered(w) && Linked(w) && BackedOff(w.back)
  }

  lemma InitInv(g: Settings)
    ensures Inv(g, Init()) && Wakes(Init())
  {
  }

  /** What is left of it while the event at the head of the queue is in hand. */
  lemma InHand(g: Settings, w: Wifi)
    requires Inv(g, w) && w.eventQ != []
    ensures var u, e := w.(eventQ := w.eventQ[1..]), w.eventQ[0];
      && InSeries(g, u) && Registered(u) && Linked(u) && BackedOff(u.back) && AllLeave(u.deferredQ)
      && (u.stopSeen ==> u.state.PROV_STOPPING? && (Leaves(e) || SomeLeave(u.eventQ)))
  {
    var u := w.(eventQ := w.eventQ[1..]);
    hide Interval, Notes, BackedOff;
    if w.stopSeen && !Leaves(w.eventQ[0]) {
      var k: nat :| k < |w.eventQ| && Leaves(w.eventQ[k]);
      assert Leaves(u.eventQ[k - 1]);
    }
  }

  lemma ProcessKeeps(g: Settings, w: Wifi, env: Env)
    requires Inv(g, w) && Enabled(w, Process(env)) && !w.eventQ[0].Destroy?
    ensures Inv(g, Apply(g, w, Process(env)))
  {
    hide Dispatch, InSeries, Stopping, Registered, Linked, BackedOff, AllLeave, SomeLeave;
    InHand(g, w);
    var u, e := w.(eventQ := w.eventQ[1..]), w.eventQ[0];
    HandleKeepsSeries(g, u, e, env);
    HandleKeepsStopping(g, u, e, env);
    HandleKeepsRegistered(g, u, e, env);
    HandleKeepsLinked(g, u, e, env);
    HandleBacksOff(g, u, e, env);
  }

  /** Steps that only put something into the queues, or start the timer's event. */
  lemma QueueKeeps(g: Settings, w: Wifi, w': Wifi, e: Event)
    requires Inv(g, w)
    requires w'.eventQ == w.eventQ + [e] && w'.state == w.state && w'.idle == w.idle && w'.back == w.back
    requires w'.link == w.link && w'.stopSeen == w.stopSeen
    requires w'.prov == w.prov || w'.prov.registered
    requires w'.deferredQ == w.deferredQ || w'.deferredQ == w.deferredQ + [AddProfile]
    ensures Inv(g, w')
  {
    hide Interval, Notes, BackedOff;
    if w.stopSeen {
      var k: nat :| k < |w.eventQ| && Leaves(w.eventQ[k]);
      assert Leaves(w'.eventQ[k]);
    }
  }

  /** A restart on the application's request, or none. */
  lemma RestartKeeps(g: Settings, w: Wifi, w': Wifi)
    requires Inv(g, w)
    requires exists b: Backoff, r: Role ::
      (b == w.back || b == Restarted(w.back)) && w' == w.(back := b, sta := w.sta.(role := r))
    ensures Inv(g, w')
  {
    hide BackedOff, Restarted;
    RestartBacksOff(w.back);
  }

  lemma StepKeeps(g: Settings, w: Wifi, op: Op)
    requires Inv(g, w) && Enabled(w, op) && !Apply(g, w, op).destroyed
    ensures Inv(g, Apply(g, w, op))
  {
    hide Inv, Dispatch;
    match op
    case Post(e) => QueueKeeps(g, w, Apply(g, w, op), e);
    case Defer => QueueKeeps(g, w, Apply(g, w, op), AddProfile);
    case StaticProfile => QueueKeeps(g, w, Apply(g, w, op), AddProfile);
    case EnableProv(_, _) => QueueKeeps(g, w, Apply(g, w, op), EnableProvisioning);
    case ChangeRole(role) =>
      var w' := Apply(g, w, op);
      assert w' == w.(back := w'.back, sta := w.sta.(role := w'.sta.role));
      RestartKeeps(g, w, w');
    case Reset(restart) =>
      var w' := Apply(g, w, op);
      assert w' == w.(back := w'.back, sta := w.sta.(role := w'.sta.role));
      RestartKeeps(g, w, w');
    case Expire => QueueKeeps(g, w, Apply(g, w, op), Timeout);
    case Process(env) => ProcessKeeps(g, w, env);
  }

  /** Once destroyed there are no further steps, so only a last state can be destroyed. */
  lemma {:induction false} RunInv(g: Settings, ws: seq<Wifi>, ops: seq<Op>, k: nat)
    requires IsRun(g, ws, ops) && k < |ws| && !ws[k].destroyed
    ensures Inv(g, ws[k])
  {
    hide Inv, Apply;
    if k == 0 {
      InitInv(g);
    } else {
      assert Moves(g, ws[k - 1], ops[k - 1], ws[k]);
      RunInv(g, ws, ops, k - 1);
      StepKeeps(g, ws[k - 1], ops[k - 1]);
    }
  }

  // ------------------------------------------------------------------ waking up, every run

  lemma StepWakes(g: Settings, w: Wifi, op: Op)
    requires Positive(g) && IntervalsPositive(g) && InSeries(g, w) && Wakes(w)
    requires Enabled(w, op) && !Apply(g, w, op).destroyed
    ensures Wakes(Apply(g, w, op))
  {
    hide Dispatch, InSeries;
    var w' := Apply(g, w, op);
    if Timeout in w.eventQ {
      var k :| 0 <= k < |w.eventQ| && w.eventQ[k] == Timeout;
      if op.Process? {
        if k > 0 {
          assert w.eventQ[1..][k - 1] == Timeout;
        }
      } else {
        assert w'.eventQ == w.eventQ || w.eventQ < w'.eventQ;
        assert w'.eventQ[k] == Timeout;
      }
    }
    if op.Expire? {
      assert w'.eventQ[|w.eventQ|] == Timeout;
    } else if op.Process? {
      SeriesIgnoresQueue(g, w, w.eventQ[1..]);
      HandleWakes(g, w.(eventQ := w.eventQ[1..]), w.eventQ[0], op.env);
    }
  }

  lemma SeriesIgnoresQueue(g: Settings, w: Wifi, q: seq<Event>)
    requires InSeries(g, w)
    ensures InSeries(g, w.(eventQ := q))
  {
  }

  lemma {:induction false} RunWakes(g: Settings, ws: seq<Wifi>, ops: seq<Op>, k: nat)
    requires Positive(g) && IntervalsPositive(g) && IsRun(g, ws, ops) && k < |ws| && !ws[k].destroyed
    ensures Wakes(ws[k])
  {
    hide Apply, Wakes, InSeries, IntervalsPositive;
    InitInv(g);
    if k > 0 {
      assert Moves(g, ws[k - 1], ops[k - 1], ws[k]);
      RunWakes(g, ws, ops, k - 1);
      RunInv(g, ws, ops, k - 1);
      StepWakes(g, ws[k - 1], ops[k - 1]);
    }
  }
}
