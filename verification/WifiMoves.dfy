/**
 What one event does to the connection state machine, told field by field and not handler by
 handler: when each state is entered, what the timer shows, what is queued, notified and
 restarted. And how it comes to provisioning.
 */
module WifiMoves {
  import opened WifiSpec
  import opened WifiSafety

  // ------------------------------------------------------------------ the state

  /** The timeout of a connection attempt with a stored profile. */
  predicate GivesUp(w: Wifi, e: Event) {
    w.state.WAIT_FOR_CONN? && e.Timeout? && !w.sta.connectUsed
  }

  /** Provisioning starts, or starts again after an error. */
  predicate Provisions(w: Wifi, e: Event) {
    (GivesUp(w, e) && !w.prov.mode.ModeOff?) || (w.state.PROV_STOPPING? && e.Error?)
  }

  /** Which state follows, told from the state that is entered. */
  predicate Enters(w: Wifi, e: Event, env: Env, t: State) {
    var s := w.state;
    match t
    case OFF => e.Disable? && !s.PROVISIONING?
    case IDLE =>
      || (GivesUp(w, e) && w.prov.mode.ModeOff?)
      || (s.PROVISIONING? && e.ProvStopped?)
      || (s.PROV_STOPPING? && e.Timeout?)
    case WAIT_FOR_CONN =>
      || (s.OFF? && e.Enable?)
      || (s.IDLE? && (e.Timeout? || e.EnableProvisioning? || e.AddProfile?))
      || (s.WAIT_FOR_IP? && (e.Timeout? || e.Disconnect?))
      || (s.CONNECTED? && (e.Disconnect? || e.ResetRequest?))
      || (s.PROV_STOPPING? && (e.AddProfile? || e.ExtProvCompleted? || (e.ProvStopped? && w.deferredQ == [])))
    case WAIT_FOR_IP =>
      || (s.IDLE? && e.Connected?)
      || (s.WAIT_FOR_CONN? && e.Connected? && !env.bypass)
      || (s.CONNECTED? && e.IpLost?)
    case CONNECTED =>
      || (s.WAIT_FOR_CONN? && (e.IpAcquired? || (e.Connected? && env.bypass)))
      || (s.WAIT_FOR_IP? && e.IpAcquired?)
      || (s.PROV_STOPPING? && e.Connected?)
    case PROVISIONING =>
      || (Provisions(w, e) && !w.prov.external)
      || (s.EXT_PROVISIONING? && e.ResetRequest?)
    case EXT_PROVISIONING =>
      || (Provisions(w, e) && w.prov.external)
      || (s.PROVISIONING? && (e.ProvExtConfigReady? || e.ProvCloudConfirmReady?))
    case PROV_STOPPING =>
      || (s.PROVISIONING? && (e.ProvSuccess? || e.Disable? || e.AddProfile? || e.Timeout? || e.Error?))
      || (s.EXT_PROVISIONING? && (e.ExtProvCompleted? || e.AddProfile? || e.Timeout?))
  }

  /** The wait for a connection is started, anew or again. */
  predicate Waits(w: Wifi, e: Event, env: Env) {
    || (!w.state.WAIT_FOR_CONN? && Enters(w, e, env, WAIT_FOR_CONN))
    || (w.state.WAIT_FOR_CONN? && (e.AddProfile? || (e.Timeout? && w.sta.connectUsed)))
  }

  predicate Comes(w: Wifi, e: Event, env: Env, t: State) {
    w.state != t && Enters(w, e, env, t)
  }

  // ------------------------------------------------------------------ the timer

  /** What the timer shows afterwards: each state's own timeout where it is entered, and the
      reconnection timeout where a link is given up. Switching off, and the two ways between
      the kinds of provisioning, leave it as it is. */
  function TimerAfter(g: Settings, w: Wifi, e: Event, env: Env): nat {
    if Waits(w, e, env) then (if InRegion(w.state) then g.reconnect else g.connect)
    else if Comes(w, e, env, IDLE) then w.idle.interval
    else if Comes(w, e, env, WAIT_FOR_IP) then g.ip
    else if Provisions(w, e) then g.prov
    else if Comes(w, e, env, CONNECTED) || Comes(w, e, env, PROV_STOPPING) then 0
    else w.timer
  }

  // ------------------------------------------------------------------ the queues

  /** The event is kept for when provisioning has stopped. */
  function Kept(w: Wifi, e: Event): seq<Event> {
    if w.state.PROVISIONING? && (e.Disable? || e.Timeout? || e.Error?) then [e]
    else if w.state.EXT_PROVISIONING? && (e.ExtProvCompleted? || e.AddProfile?) then [ExtProvCompleted]
    else if w.state.EXT_PROVISIONING? && e.Timeout? then [Timeout]
    else []
  }

  /** What was kept goes back to the event queue: when a wait for a connection starts, and
      when provisioning reports that it has stopped. */
  predicate HandsBack(w: Wifi, e: Event, env: Env) {
    Waits(w, e, env) || (w.state.PROV_STOPPING? && e.ProvStopped?)
  }

  // ------------------------------------------------------------------ provisioning and profile

  /** A one-shot mode is used up where own provisioning starts, and an error in it, when the
      mode was used up, asks for one more. */
  function ModeAfter(w: Wifi, e: Event): Mode {
    if Provisions(w, e) && !w.prov.external && w.prov.mode.OneShot? then ModeOff
    else if w.state.PROVISIONING? && e.Error? && w.prov.mode.ModeOff? then OneShot
    else w.prov.mode
  }

  /** A wait for a connection uses the non-persistent profile if there is one, except the
      one after it has failed. */
  function UsedAfter(w: Wifi, e: Event, env: Env): bool {
    if Waits(w, e, env) then !(w.state.WAIT_FOR_CONN? && e.Timeout?) && (w.sta.profile || w.sta.connectUsed)
    else w.sta.connectUsed
  }

  // ------------------------------------------------------------------ restarts

  /** The processor is restarted: on a fatal error, when external provisioning has left it in
      another role, and when own provisioning finds it as an access point. */
  predicate RestartsIt(w: Wifi, e: Event) {
    || ((w.state.CONNECTED? || w.state.EXT_PROVISIONING?) && e.ResetRequest?)
    || (w.state.PROV_STOPPING? && e.ExtProvCompleted? && w.sta.role.Ap?)
    || (Provisions(w, e) && !w.prov.external && w.sta.role.Ap?)
  }

  /** The role it comes back in. */
  function RoleAfter(w: Wifi, e: Event, env: Env): Role {
    if !RestartsIt(w, e) then w.sta.role else if Provisions(w, e) then env.restart else Sta
  }

  /** Connecting clears the back-off. */
  function BackoffAfter(w: Wifi, e: Event, env: Env): Backoff {
    if RestartsIt(w, e) then Restarted(w.back) else if Comes(w, e, env, CONNECTED) then Cleared(w.back) else w.back
  }

  /** The idle interval is reset by ENABLE and by connecting, and goes on with each entry
      into IDLE. */
  function IdleAfter(g: Settings, w: Wifi, e: Event, env: Env): Idle {
    if Comes(w, e, env, CONNECTED) || (w.state.OFF? && e.Enable?) then Idle(g.idleMin, 0)
    else if Comes(w, e, env, IDLE) then Idle(NextInterval(g, w.idle.interval), w.idle.count + 1)
    else w.idle
  }

  // ------------------------------------------------------------------ notifications

  /** The notifications an event leads to: of a link, of its address, of its loss. */
  function Told(w: Wifi, e: Event, env: Env): seq<Note> {
    if w.state.WAIT_FOR_CONN? && e.Connected? then [MacConnect]
    else if w.state.PROV_STOPPING? && e.Connected? then [MacConnect, IpAcquiredNote]
    else if Comes(w, e, env, CONNECTED) then [IpAcquiredNote]
    else if InRegion(w.state) && (Waits(w, e, env) || e.Disable?) then [DisconnectNote]
    else []
  }

  /** `more` is added behind `was`, if there is any. */
  ghost predicate Grows<T>(was: seq<T>, more: seq<T>, now: seq<T>) {
    if more == [] then now == was else now == was + more
  }

  // ------------------------------------------------------------------ all of it

  /** State, timer and queues. */
  ghost predicate MovesAsTold(g: Settings, w: Wifi, e: Event, env: Env, w': Wifi) {
    && (forall t: State :: t != w.state ==> (w'.state == t <==> Enters(w, e, env, t)))
    && w'.timer == TimerAfter(g, w, e, env)
    && w'.eventQ == (if HandsBack(w, e, env) then w.eventQ + w.deferredQ else w.eventQ)
    && if HandsBack(w, e, env) then w'.deferredQ == [] else Grows(w.deferredQ, Kept(w, e), w'.deferredQ)
  }

  /** Provisioning and profile. */
  ghost predicate StationAsTold(w: Wifi, e: Event, env: Env, w': Wifi) {
    && w'.prov == w.prov.(mode := ModeAfter(w, e))
    && w'.sta == Station(UsedAfter(w, e, env), w.sta.profile, RoleAfter(w, e, env))
    && w'.destroyed == w.destroyed
  }

  /** Restarts, idle series and notifications. */
  ghost predicate HistoryAsTold(g: Settings, w: Wifi, e: Event, env: Env, w': Wifi) {
    && w'.back == BackoffAfter(w, e, env) && w'.idle == IdleAfter(g, w, e, env)
    && Grows(w.link.notes, Told(w, e, env), w'.link.notes)
  }

  ghost predicate AsTold(g: Settings, w: Wifi, e: Event, env: Env, w': Wifi) {
    MovesAsTold(g, w, e, env, w') && StationAsTold(w, e, env, w') && HistoryAsTold(g, w, e, env, w')
  }

  lemma StartMoves(g: Settings, w: Wifi, e: Event, env: Env)
    requires w.state.OFF? || w.state.IDLE?
    ensures MovesAsTold(g, w, e, env, Dispatch(g, w, e, env))
  {
    hide NextInterval, Restarted, Cleared, UseUp, Again;
  }

  lemma StartStation(g: Settings, w: Wifi, e: Event, env: Env)
    requires w.state.OFF? || w.state.IDLE?
    ensures StationAsTold(w, e, env, Dispatch(g, w, e, env))
  {
    hide NextInterval, Restarted, Cleared;
  }

  lemma StartHistory(g: Settings, w: Wifi, e: Event, env: Env)
    requires w.state.OFF? || w.state.IDLE?
    ensures HistoryAsTold(g, w, e, env, Dispatch(g, w, e, env))
  {
    hide NextInterval, Restarted, Cleared, UseUp, Again;
  }

  lemma ConnTimesOut(g: Settings, w: Wifi, e: Event, env: Env)
    requires w.state.WAIT_FOR_CONN? && e.Timeout?
    ensures MovesAsTold(g, w, e, env, Dispatch(g, w, e, env))
  {
    hide NextInterval, Restarted, Cleared, UseUp, Again;
  }

  lemma ConnGoesOn(g: Settings, w: Wifi, e: Event, env: Env)
    requires w.state.WAIT_FOR_CONN? && !e.Timeout?
    ensures MovesAsTold(g, w, e, env, Dispatch(g, w, e, env))
  {
    hide NextInterval, Restarted, Cleared, UseUp, Again;
  }

  lemma ConnStation(g: Settings, w: Wifi, e: Event, env: Env)
    requires w.state.WAIT_FOR_CONN?
    ensures StationAsTold(w, e, env, Dispatch(g, w, e, env))
  {
    hide NextInterval, Restarted, Cleared;
  }

  lemma ConnHistory(g: Settings, w: Wifi, e: Event, env: Env)
    requires w.state.WAIT_FOR_CONN?
    ensures HistoryAsTold(g, w, e, env, Dispatch(g, w, e, env))
  {
    hide NextInterval, Restarted, Cleared, UseUp, Again;
  }

  lemma RegionMoves(g: Settings, w: Wifi, e: Event, env: Env)
    requires InRegion(w.state)
    ensures MovesAsTold(g, w, e, env, Dispatch(g, w, e, env))
  {
    hide NextInterval, Restarted, Cleared, UseUp, Again;
  }

  lemma RegionStation(g: Settings, w: Wifi, e: Event, env: Env)
    requires InRegion(w.state)
    ensures StationAsTold(w, e, env, Dispatch(g, w, e, env))
  {
    hide NextInterval, Restarted, Cleared;
  }

  lemma RegionHistory(g: Settings, w: Wifi, e: Event, env: Env)
    requires InRegion(w.state)
    ensures HistoryAsTold(g, w, e, env, Dispatch(g, w, e, env))
  {
    hide NextInterval, Restarted, Cleared, UseUp, Again;
  }

  lemma ProvisioningMoves(g: Settings, w: Wifi, e: Event, env: Env)
    requires w.state.PROVISIONING? || w.state.EXT_PROVISIONING?
    ensures MovesAsTold(g, w, e, env, Dispatch(g, w, e, env))
  {
    hide NextInterval, Restarted, Cleared, UseUp, Again;
  }

  lemma ProvisioningStation(g: Settings, w: Wifi, e: Event, env: Env)
    requires w.state.PROVISIONING? || w.state.EXT_PROVISIONING?
    ensures StationAsTold(w, e, env, Dispatch(g, w, e, env))
  {
    hide NextInterval, Restarted, Cleared;
  }

  lemma ProvisioningHistory(g: Settings, w: Wifi, e: Event, env: Env)
    requires w.state.PROVISIONING? || w.state.EXT_PROVISIONING?
    ensures HistoryAsTold(g, w, e, env, Dispatch(g, w, e, env))
  {
    hide NextInterval, Restarted, Cleared, UseUp, Again;
  }

  lemma StoppingRetries(g: Settings, w: Wifi, e: Event, env: Env)
    requires w.state.PROV_STOPPING? && e.Error?
    ensures MovesAsTold(g, w, e, env, Dispatch(g, w, e, env))
  {
    hide NextInterval, Restarted, Cleared, UseUp, Again;
  }

  lemma StoppingGoesOn(g: Settings, w: Wifi, e: Event, env: Env)
    requires w.state.PROV_STOPPING? && !e.Error?
    ensures MovesAsTold(g, w, e, env, Dispatch(g, w, e, env))
  {
    hide NextInterval, Restarted, Cleared, UseUp, Again;
  }

  lemma StoppingStation(g: Settings, w: Wifi, e: Event, env: Env)
    requires w.state.PROV_STOPPING?
    ensures StationAsTold(w, e, env, Dispatch(g, w, e, env))
  {
    hide NextInterval, Restarted, Cleared;
  }

  lemma StoppingHistory(g: Settings, w: Wifi, e: Event, env: Env)
    requires w.state.PROV_STOPPING?
    ensures HistoryAsTold(g, w, e, env, Dispatch(g, w, e, env))
  {
    hide NextInterval, Restarted, Cleared, UseUp, Again;
  }

  /** One event, in any state and whatever the processor answers, does all this and nothing
      else. */
  lemma EventAsTold(g: Settings, w: Wifi, e: Event, env: Env)
    ensures AsTold(g, w, e, env, Dispatch(g, w, e, env))
  {
    hide Dispatch, MovesAsTold, StationAsTold, HistoryAsTold;
    if w.state.OFF? || w.state.IDLE? {
      StartMoves(g, w, e, env);
      StartStation(g, w, e, env);
      StartHistory(g, w, e, env);
    } else if w.state.WAIT_FOR_CONN? {
      if e.Timeout? {
        ConnTimesOut(g, w, e, env);
      } else {
        ConnGoesOn(g, w, e, env);
      }
      ConnStation(g, w, e, env);
      ConnHistory(g, w, e, env);
    } else if InRegion(w.state) {
      RegionMoves(g, w, e, env);
      RegionStation(g, w, e, env);
      RegionHistory(g, w, e, env);
    } else if w.state.PROV_STOPPING? {
      if e.Error? {
        StoppingRetries(g, w, e, env);
      } else {
        StoppingGoesOn(g, w, e, env);
      }
      StoppingStation(g, w, e, env);
      StoppingHistory(g, w, e, env);
    } else {
      ProvisioningMoves(g, w, e, env);
      ProvisioningStation(g, w, e, env);
      ProvisioningHistory(g, w, e, env);
    }
  }

  /** A state is entered from another one exactly if the state, the event, the mode, the
      method and the profile in use say so. */
  lemma EntersIff(g: Settings, w: Wifi, e: Event, env: Env, t: State)
    requires t != w.state
    ensures Dispatch(g, w, e, env).state == t <==> Enters(w, e, env, t)
  {
    hide Dispatch, Enters;
    EventAsTold(g, w, e, env);
  }

  // ------------------------------------------------------------------ what it takes to provision

  /** The next `n` things to happen are timeouts: the timer expires and the event loop
      handles its event. */
  predicate OnlyTimeouts(ops: seq<Op>, k: nat, n: nat)
    decreases n
  {
    n > 0 ==> k + 1 < |ops| && ops[k].Expire? && ops[k + 1].Process? && OnlyTimeouts(ops, k + 2, n - 1)
  }

  predicate Provisioned(w: Wifi) {
    if w.prov.external then w.state.EXT_PROVISIONING? else w.state.PROVISIONING?
  }

  /** One timeout: the timer expires and the event loop handles its event. */
  lemma TimesOut(g: Settings, w: Wifi, env: Env)
    requires !w.destroyed && w.timer > 0 && w.eventQ == []
    ensures Enabled(Apply(g, w, Expire), Process(env))
    ensures Apply(g, Apply(g, w, Expire), Process(env)) == Dispatch(g, w.(timer := 0), Timeout, env)
  {
    hide Dispatch;
    assert w.eventQ + [Timeout] == [Timeout] && [Timeout][1..] == [];
    assert Apply(g, w, Expire).(eventQ := []) == w.(timer := 0);
  }

  /** Provisioning is enabled and there is no connection; nothing is queued. */
  predicate Trying(w: Wifi) {
    && (w.state.IDLE? || w.state.WAIT_FOR_CONN? || w.state.WAIT_FOR_IP?) && !w.prov.mode.ModeOff?
    && w.eventQ == [] && w.deferredQ == [] && !w.destroyed
  }

  function Tries(w: Wifi): nat {
    if !w.state.WAIT_FOR_CONN? then 3 else if w.sta.connectUsed then 2 else 1
  }

  lemma OneTryLess(g: Settings, w: Wifi, env: Env)
    requires Trying(w)
    ensures var w' := Dispatch(g, w, Timeout, env); Provisioned(w') || (Trying(w') && Tries(w') < Tries(w))
  {
    hide Dispatch;
    EventAsTold(g, w, Timeout, env);
    var w' := Dispatch(g, w, Timeout, env);
    if !w.state.WAIT_FOR_CONN? {
      assert Enters(w, Timeout, env, WAIT_FOR_CONN);
    } else if w.sta.connectUsed {
      assert w'.state != w.state ==> !Enters(w, Timeout, env, w'.state);
    } else {
      assert Enters(w, Timeout, env, if w.prov.external then EXT_PROVISIONING else PROVISIONING);
    }
  }

  ghost predicate ProvisionedAt(ws: seq<Wifi>, i: nat) {
    i < |ws| && Provisioned(ws[i])
  }

  /** With provisioning enabled and no connection, from IDLE or any of the two waits, it is
      reached by at most three timeouts alone, whatever the processor answers. */
  lemma {:induction false} TimeoutsProvision(g: Settings, ws: seq<Wifi>, ops: seq<Op>, k: nat, n: nat)
    requires IsRun(g, ws, ops) && k < |ws| && Trying(ws[k]) && Tries(ws[k]) <= n && OnlyTimeouts(ops, k, n)
    ensures Tries(ws[k]) <= 3 && exists i: nat :: k < i <= k + 2 * n && ProvisionedAt(ws, i)
    decreases n
  {
    hide Dispatch, Provisioned, Trying, Tries;
    TryingFacts(ws[k]);
    assert Moves(g, ws[k], ops[k], ws[k + 1]) && Moves(g, ws[k + 1], ops[k + 1], ws[k + 2]);
    var env := ops[k + 1].env;
    TimesOut(g, ws[k], env);
    OneTryLess(g, ws[k].(timer := 0), env);
    if Provisioned(ws[k + 2]) {
      assert ProvisionedAt(ws, k + 2);
    } else {
      TimeoutsProvision(g, ws, ops, k + 2, n - 1);
    }
  }

  lemma TryingFacts(w: Wifi)
    requires Trying(w)
    ensures w.eventQ == [] && !w.destroyed
    ensures Trying(w.(timer := 0)) && 1 <= Tries(w) == Tries(w.(timer := 0)) <= 3
  {
  }

  /** Such a run from the start: provisioning enabled, ENABLE, and one timeout. */
  lemma ProvisioningRun(g: Settings, mode: Mode, external: bool, env: Env) returns (ws: seq<Wifi>, ops: seq<Op>)
    requires !mode.ModeOff? && g.connect > 0
    ensures IsRun(g, ws, ops) && Provisioned(ws[|ops|]) && ws[|ops|].prov.external == external
  {
    var w0 := Init();
    var w1 := Apply(g, w0, EnableProv(mode, external));
    var w2 := Apply(g, w1, Post(Enable));
    var w3 := Apply(g, w2, Process(env));
    var w4 := Apply(g, w3, Process(env));
    var w5 := Apply(g, w4, Expire);
    var w6 := Apply(g, w5, Process(env));
    ops := [EnableProv(mode, external), Post(Enable), Process(env), Process(env), Expire, Process(env)];
    ws := [w0, w1, w2, w3, w4, w5, w6];
  }
}
