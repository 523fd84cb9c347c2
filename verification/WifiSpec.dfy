/**
 The Wi-Fi connection state machine of slwificonn.c as functions on its context: event
 queue, deferred queue, one-shot timer, provisioning mode, idle interval and back-off. One
 event is handled at a time, under the module's lock.
 */
module WifiSpec {

  datatype State = OFF | IDLE | WAIT_FOR_CONN | WAIT_FOR_IP | CONNECTED | PROVISIONING | PROV_STOPPING | EXT_PROVISIONING

  datatype Event =
    | Enable | Disable | Connected | Disconnect | IpAcquired | IpLost
    | ProvSuccess | ProvStopped | ProvExtConfigReady | ProvCloudConfirmReady
    | EnableProvisioning | AddProfile | ExtProvCompleted
    | Timeout | Error | ResetRequest | Destroy

  /** WifiConnSettings_t: the timeouts, in seconds, 16 bits each. */
  datatype Settings = Settings(connect: nat, ip: nat, reconnect: nat, prov: nat, idleMin: nat, idleMax: nat)

  /** Every setting is a positive 16-bit number. */
  predicate Positive(g: Settings) {
    && 1 <= g.connect < 0x1_0000 && 1 <= g.ip < 0x1_0000 && 1 <= g.reconnect < 0x1_0000 && 1 <= g.prov < 0x1_0000
    && 1 <= g.idleMin < 0x1_0000 && 1 <= g.idleMax < 0x1_0000
  }

  datatype Mode = ModeOff | OneShot | ModeOn

  /** Provisioning: mode, whether it is the external method, whether the handlers of its
      states are registered. */
  datatype Prov = Prov(mode: Mode, external: bool, registered: bool)

  /** The next idle interval; `count` is the number of idle entries since it was reset. */
  datatype Idle = Idle(interval: nat, count: nat)

  /** Fatal error count (8 bits), delay level and the delays slept before restarts; `resets`
      is the number of restarts since the level was last cleared. */
  datatype Backoff = Backoff(fatal: nat, level: nat, delays: seq<nat>, resets: nat)

  datatype Role = Sta | Ap

  /** Whether the non-persistent profile is in use and exists, and the processor's role. */
  datatype Station = Station(connectUsed: bool, profile: bool, role: Role)

  /** Notifications to the network interface. */
  datatype Note = MacConnect | IpAcquiredNote | DisconnectNote

  /** The notifications given; `entries` counts the entries into the connected region and
      `silent` those without a MAC_CONNECT. */
  datatype Link = Link(notes: seq<Note>, entries: nat, silent: nat)

  /** SlWifiConn_t. `timer` is the duration the timer is armed with, 0 when it is not;
      `stopSeen` is whether PROV_STOPPED was handled since provisioning began to stop. The
      counts `idle.count`, `back.resets`, `link.entries`, `link.silent` and `stopSeen` are
      history that no branch looks at. */
  datatype Wifi = Wifi(
    state: State, eventQ: seq<Event>, deferredQ: seq<Event>, timer: nat,
    prov: Prov, idle: Idle, back: Backoff, sta: Station, link: Link,
    stopSeen: bool, destroyed: bool)

  /** What the network processor answers while an event is handled: whether the station has
      a static zero address, and the role it restarts in. */
  datatype Env = Env(bypass: bool, restart: Role)

  datatype Op =
    | Post(e: Event)
    | Defer
    | StaticProfile
    | EnableProv(mode: Mode, external: bool)
    | ChangeRole(role: Role)
    | Reset(restart: Role)
    | Expire
    | Process(env: Env)

  function Init(): Wifi {
    Wifi(OFF, [], [], 0, Prov(ModeOff, false, false), Idle(0, 0), Backoff(0, 0, [], 0),
         Station(false, false, Sta), Link([], 0, 0), false, false)
  }

  predicate InRegion(s: State) {
    s.WAIT_FOR_IP? || s.CONNECTED?
  }

  /** SetState, with the history of entries into the connected region. */
  function SetState(w: Wifi, s: State): Wifi {
    w.(state := s, stopSeen := false,
       link := if InRegion(s) && !InRegion(w.state) then w.link.(entries := w.link.entries + 1) else w.link)
  }

  function Notify(w: Wifi, n: Note): Wifi {
    w.(link := w.link.(notes := w.link.notes + [n]))
  }

  /** The connected region is about to be entered without a MAC_CONNECT. */
  function Silent(w: Wifi): Wifi {
    w.(link := w.link.(silent := w.link.silent + 1))
  }

  // ------------------------------------------------------------------ back-off

  /** g_recoveryDelays, in seconds. */
  function RecoveryDelay(level: nat): nat {
    if level == 0 then 2 else if level == 1 then 5 else if level == 2 then 10 else if level == 3 then 20 else 30
  }

  const MAX_RECOVERY_LEVEL: nat := 4

  /** The bookkeeping of a restart: the level is raised before the delay is looked up. */
  function Restarted(b: Backoff): Backoff {
    var level := if b.level < MAX_RECOVERY_LEVEL then b.level + 1 else b.level;
    Backoff((b.fatal + 1) % 256, level, b.delays + [RecoveryDelay(level)], b.resets + 1)
  }

  function Cleared(b: Backoff): Backoff {
    if b.fatal > 0 then b.(fatal := 0, level := 0, resets := 0) else b
  }

  /** ResetNWP; the processor restarts in `role`. */
  function ResetNwp(w: Wifi, role: Role): Wifi {
    w.(back := Restarted(w.back), sta := w.sta.(role := role))
  }

  /** SetRole, which asserts that the restart took the role. */
  function SetRole(w: Wifi, role: Role): Wifi {
    if w.sta.role == role then w else ResetNwp(w, role)
  }

  /** SetApParams. */
  function SetApParams(w: Wifi, env: Env): Wifi {
    if w.sta.role.Ap? then ResetNwp(w, env.restart) else w
  }

  // ------------------------------------------------------------------ entering states

  /** DeferredEvent_process: every deferred event goes to the event queue. */
  function ProcessDeferred(w: Wifi): Wifi {
    w.(eventQ := w.eventQ + w.deferredQ, deferredQ := [])
  }

  /** The idle interval after `v`: doubled, in 16 bits, and capped. */
  function NextInterval(g: Settings, v: nat): nat {
    var doubled := v * 2 % 0x1_0000;
    if doubled > g.idleMax then g.idleMax else doubled
  }

  /** EnterIDLE: the interval armed is the one before doubling. */
  function EnterIdle(g: Settings, w: Wifi): Wifi {
    SetState(w.(timer := w.idle.interval, idle := Idle(NextInterval(g, w.idle.interval), w.idle.count + 1)), IDLE)
  }

  function ResetIdle(g: Settings, w: Wifi): Wifi {
    w.(idle := Idle(g.idleMin, 0))
  }

  function EnterWaitForConn(g: Settings, w: Wifi, timeout: nat, disconnect: bool): Wifi {
    var used := !disconnect && (w.sta.profile || w.sta.connectUsed);
    SetState(ProcessDeferred(w).(sta := w.sta.(connectUsed := used), timer := timeout), WAIT_FOR_CONN)
  }

  function EnterConnected(g: Settings, w: Wifi, notify: bool): Wifi {
    var u := w.(timer := 0, back := Cleared(w.back), idle := Idle(g.idleMin, 0));
    SetState(if notify then Notify(u, IpAcquiredNote) else u, CONNECTED)
  }

  function EnterWaitForIp(g: Settings, w: Wifi, env: Env): Wifi {
    var u := Notify(w, MacConnect);
    if env.bypass then EnterConnected(g, u, false) else SetState(u.(timer := g.ip), WAIT_FOR_IP)
  }

  /** A one-shot mode is used up. */
  function UseUp(p: Prov): Prov {
    if p.mode.OneShot? then p.(mode := ModeOff) else p
  }

  function EnterProvisioning(g: Settings, w: Wifi, env: Env): Wifi {
    if w.prov.external then SetState(w.(timer := g.prov), EXT_PROVISIONING)
    else
      var u := SetApParams(w, env);
      SetState(u.(timer := g.prov, prov := UseUp(w.prov)), PROVISIONING)
  }

  function EnterProvStopping(w: Wifi, deferred: seq<Event>): Wifi {
    SetState(w.(timer := 0, deferredQ := w.deferredQ + deferred), PROV_STOPPING)
  }

  // ------------------------------------------------------------------ the state handlers

  /** A handler's result: what it did, or that it does not know the event. */
  datatype Handled = Done(w: Wifi) | Unknown

  function StateOff(g: Settings, w: Wifi, e: Event): Handled {
    match e
    case Enable => Done(EnterWaitForConn(g, ResetIdle(g, w), g.connect, false))
    case Disable => Done(w)
    case EnableProvisioning => Done(w)
    case AddProfile => Done(w)
    case Disconnect => Done(w)
    case Connected => Done(w)
    case _ => Unknown
  }

  function StateIdle(g: Settings, w: Wifi, e: Event): Handled {
    match e
    case EnableProvisioning => Done(EnterWaitForConn(g, w, g.connect, false))
    case AddProfile => Done(EnterWaitForConn(g, w, g.connect, false))
    case Timeout => Done(EnterWaitForConn(g, w, g.connect, false))
    case Connected => Done(SetState(Silent(w).(timer := g.ip), WAIT_FOR_IP))
    case _ => Unknown
  }

  function StateWaitForConn(g: Settings, w: Wifi, e: Event, env: Env): Handled {
    match e
    case AddProfile => Done(EnterWaitForConn(g, w, g.connect, false))
    case Connected => Done(EnterWaitForIp(g, w, env))
    case IpAcquired => Done(EnterConnected(g, Silent(w), true))
    case Timeout =>
      if w.sta.connectUsed then Done(EnterWaitForConn(g, w, g.connect, true))
      else if !w.prov.mode.ModeOff? then Done(EnterProvisioning(g, w, env))
      else Done(EnterIdle(g, w))
    case _ => Unknown
  }

  function StateWaitForIp(g: Settings, w: Wifi, e: Event): Handled {
    match e
    case AddProfile => Done(w)
    case IpAcquired => Done(EnterConnected(g, w, true))
    case Timeout => Done(EnterWaitForConn(g, Notify(w, DisconnectNote), g.reconnect, false))
    case Disconnect => Done(EnterWaitForConn(g, Notify(w, DisconnectNote), g.reconnect, false))
    case _ => Unknown
  }

  /** A RESET_REQUEST asserts that the processor came back as a station. */
  function StateConnected(g: Settings, w: Wifi, e: Event): Handled {
    match e
    case IpAcquired => Done(w)
    case AddProfile => Done(w)
    case Disconnect => Done(EnterWaitForConn(g, Notify(w, DisconnectNote), g.reconnect, false))
    case IpLost => Done(SetState(w.(timer := g.ip), WAIT_FOR_IP))
    case ResetRequest => Done(EnterWaitForConn(g, ResetNwp(Notify(w, DisconnectNote), Sta), g.reconnect, false))
    case _ => Unknown
  }

  /** An error needs provisioning once more, even if the mode was used up. */
  function Again(p: Prov): Prov {
    if p.mode.ModeOff? then p.(mode := OneShot) else p
  }

  function StateProvisioning(g: Settings, w: Wifi, e: Event): Handled {
    match e
    case ProvSuccess => Done(SetState(w.(timer := 0), PROV_STOPPING))
    case Disable => Done(EnterProvStopping(w, [Disable]))
    case AddProfile => Done(EnterProvStopping(w, []))
    case Timeout => Done(EnterProvStopping(w, [Timeout]))
    case Error => Done(EnterProvStopping(w.(prov := Again(w.prov)), [Error]))
    case ProvStopped => Done(EnterIdle(g, w.(timer := 0)))
    case ProvExtConfigReady => Done(SetState(w, EXT_PROVISIONING))
    case ProvCloudConfirmReady => Done(SetState(w, EXT_PROVISIONING))
    case _ => Unknown
  }

  function StateExtProvisioning(g: Settings, w: Wifi, e: Event): Handled {
    match e
    case ExtProvCompleted => Done(EnterProvStopping(w, [ExtProvCompleted]))
    case AddProfile => Done(EnterProvStopping(w, [ExtProvCompleted]))
    case Timeout => Done(EnterProvStopping(w, [Timeout]))
    case ResetRequest => Done(SetState(ResetNwp(w, Sta), PROVISIONING))
    case _ => Unknown
  }

  function StateProvStopping(g: Settings, w: Wifi, e: Event, env: Env): Handled {
    match e
    case Connected => Done(EnterConnected(g, Notify(w, MacConnect), true))
    case ProvStopped =>
      if w.deferredQ == [] then Done(EnterWaitForConn(g, w, g.connect, false))
      else Done(ProcessDeferred(w).(stopSeen := true))
    case ExtProvCompleted => Done(EnterWaitForConn(g, SetRole(w, Sta), g.connect, false))
    case AddProfile => Done(EnterWaitForConn(g, w, g.connect, false))
    case Error => Done(EnterProvisioning(g, w, env))
    case Timeout => Done(EnterIdle(g, w))
    case _ => Unknown
  }

  function Handle(g: Settings, w: Wifi, e: Event, env: Env): Handled {
    match w.state
    case OFF => StateOff(g, w, e)
    case IDLE => StateIdle(g, w, e)
    case WAIT_FOR_CONN => StateWaitForConn(g, w, e, env)
    case WAIT_FOR_IP => StateWaitForIp(g, w, e)
    case CONNECTED => StateConnected(g, w, e)
    case PROVISIONING => StateProvisioning(g, w, e)
    case PROV_STOPPING => StateProvStopping(g, w, e, env)
    case EXT_PROVISIONING => StateExtProvisioning(g, w, e)
  }

  /** DISABLE in a state without a handler of its own for it. */
  function SwitchOff(w: Wifi): Wifi {
    SetState(if InRegion(w.state) then Notify(w, DisconnectNote) else w, OFF)
  }

  /** ProcessEvent: DISABLE is known everywhere, other unknown events change nothing. */
  function Dispatch(g: Settings, w: Wifi, e: Event, env: Env): Wifi {
    var h := Handle(g, w, e, env);
    if h.Done? then h.w else if e.Disable? then SwitchOff(w) else w
  }

  // ------------------------------------------------------------------ runs

  /** What the application, the processor's callbacks and the timer may do, and one turn of
      the event loop. Timeouts come from the timer alone. A change of role is recorded as
      the station role whatever was asked for, the result of SetRole being stored. */
  predicate Enabled(w: Wifi, op: Op) {
    && !w.destroyed
    && match op
       case Post(e) => !e.Timeout?
       case Expire => w.timer > 0
       case Process(_) => w.eventQ != []
       case _ => true
  }

  function Apply(g: Settings, w: Wifi, op: Op): Wifi
    requires Enabled(w, op)
  {
    match op
    case Post(e) => w.(eventQ := w.eventQ + [e])
    case Defer => w.(deferredQ := w.deferredQ + [AddProfile], eventQ := w.eventQ + [AddProfile])
    case StaticProfile => w.(sta := w.sta.(profile := true), eventQ := w.eventQ + [AddProfile])
    case EnableProv(mode, external) =>
      w.(prov := Prov(mode, external, true), eventQ := w.eventQ + [EnableProvisioning])
    case ChangeRole(role) =>
      if w.state.OFF? || w.state.EXT_PROVISIONING? then
        var u := SetRole(w, role);
        u.(sta := u.sta.(role := Sta))
      else w
    case Reset(restart) => if w.state.OFF? then ResetNwp(w, restart) else w
    case Expire => w.(timer := 0, eventQ := w.eventQ + [Timeout])
    case Process(env) =>
      var u := w.(eventQ := w.eventQ[1..]);
      if w.eventQ[0].Destroy? then u.(destroyed := true) else Dispatch(g, u, w.eventQ[0], env)
  }

  ghost predicate Moves(g: Settings, w: Wifi, op: Op, w': Wifi) {
    Enabled(w, op) && w' == Apply(g, w, op)
  }

  ghost predicate IsRun(g: Settings, ws: seq<Wifi>, ops: seq<Op>) {
    && |ws| == |ops| + 1 && ws[0] == Init()
    && forall k :: 0 <= k < |ops| ==> Moves(g, ws[k], ops[k], ws[k + 1])
  }
}
