/**
 The connection manager's context and its handlers, updating it in place. Each does to the
 context what WifiSpec says.
 */
module WifiConn {
  import opened WifiSpec
  import opened WifiSafety
  import WifiMoves

  /** What the processor answers to a profile to be stored. */
  datatype Store = Kept | InProgress | Refused

  class SlWifiConn {
    const settings: Settings
    var state: State
    var eventQ: seq<Event>
    var deferredQ: seq<Event>
    var timer: nat
    var provMode: Mode
    var external: bool
    var registered: bool
    var idleInterval: nat
    var connectUsed: bool
    var profile: bool
    var role: Role
    var fatalErrorCount: nat
    var recoveryDelayLevel: nat
    var delays: seq<nat>
    var notes: seq<Note>
    var destroyed: bool
    ghost var idleCount: nat
    ghost var resets: nat
    ghost var entries: nat
    ghost var silent: nat
    ghost var stopSeen: bool

    constructor (settings: Settings)
      ensures this.settings == settings && View() == Init()
    {
      this.settings := settings;
      state, eventQ, deferredQ, timer := OFF, [], [], 0;
      provMode, external, registered := ModeOff, false, false;
      idleInterval, connectUsed, profile, role := 0, false, false, Sta;
      fatalErrorCount, recoveryDelayLevel, delays, notes, destroyed := 0, 0, [], [], false;
      idleCount, resets, entries, silent, stopSeen := 0, 0, 0, 0, false;
    }

    ghost function View(): Wifi
      reads this
    {
      Wifi(state, eventQ, deferredQ, timer, Prov(provMode, external, registered), Idle(idleInterval, idleCount),
           Backoff(fatalErrorCount, recoveryDelayLevel, delays, resets), Station(connectUsed, profile, role),
           Link(notes, entries, silent), stopSeen, destroyed)
    }

    /** The invariant of every run holds. */
    ghost predicate Valid()
      reads this
    {
      Inv(settings, View())
    }

    method SetState(s: State)
      modifies this
      ensures View() == WifiSpec.SetState(old(View()), s)
    {
      if InRegion(s) && !InRegion(state) {
        entries := entries + 1;
      }
      stopSeen := false;
      state := s;
    }

    method NotifyNetIf(n: Note)
      modifies this
      ensures View() == Notify(old(View()), n)
    {
      notes := notes + [n];
    }

    method SignalEvent(e: Event)
      modifies this
      ensures View() == old(View()).(eventQ := old(eventQ) + [e])
    {
      eventQ := eventQ + [e];
    }

    /** Arms the timer; with 0 it is disarmed. */
    method StartAsyncEvtTimer(duration: nat)
      modifies this
      ensures View() == old(View()).(timer := duration)
    {
      timer := duration;
    }

    /** The timer's own thread, when it fires. */
    method AsyncEvtTimerHandler()
      requires Enabled(View(), Expire)
      modifies this
      ensures View() == Apply(settings, old(View()), Expire)
      ensures timer == 0 && eventQ == old(eventQ) + [Timeout] && state == old(state)
      ensures old(Valid()) && !destroyed ==> Valid()
    {
      ghost var was := View();
      timer := 0;
      SignalEvent(Timeout);
      if Inv(settings, was) && !destroyed {
        StepKeeps(settings, was, Expire);
      }
    }

    method DeferredEventProcess() returns (none: bool)
      modifies this
      ensures View() == ProcessDeferred(old(View()))
      ensures none == (old(deferredQ) == [])
    {
      none := true;
      ghost var q := eventQ;
      while deferredQ != []
        invariant View() == old(View()).(eventQ := eventQ, deferredQ := deferredQ)
        invariant eventQ + deferredQ == q + old(deferredQ)
        invariant none == (|deferredQ| == |old(deferredQ)|) && |deferredQ| <= |old(deferredQ)|
        decreases |deferredQ|
      {
        var e := deferredQ[0];
        deferredQ := deferredQ[1..];
        none := false;
        eventQ := eventQ + [e];
      }
    }

    /** Restart of the network processor, which comes back in role `r`. */
    method ResetNWP(r: Role)
      modifies this`fatalErrorCount, this`recoveryDelayLevel, this`delays, this`role, this`resets
      ensures View() == ResetNwp(old(View()), r)
    {
      CountError();
      delays := delays + [RecoveryDelay(recoveryDelayLevel)];
      role := r;
      resets := resets + 1;
    }

    method SetRole(r: Role)
      modifies this
      ensures View() == WifiSpec.SetRole(old(View()), r)
    {
      if role != r {
        ResetNWP(r);
      }
    }

    method CountError()
      modifies this`fatalErrorCount, this`recoveryDelayLevel
      ensures fatalErrorCount == (old(fatalErrorCount) + 1) % 256
      ensures recoveryDelayLevel ==
        if old(recoveryDelayLevel) < MAX_RECOVERY_LEVEL then old(recoveryDelayLevel) + 1 else old(recoveryDelayLevel)
    {
      fatalErrorCount := (fatalErrorCount + 1) % 256;
      if recoveryDelayLevel < MAX_RECOVERY_LEVEL {
        recoveryDelayLevel := recoveryDelayLevel + 1;
      }
    }

    method NonPersistentProfileProcess(disconnect: bool)
      modifies this
      ensures View() == old(View()).(sta := old(View()).sta.(connectUsed := !disconnect && (profile || old(connectUsed))))
    {
      if disconnect {
        connectUsed := false;
      } else if profile {
        connectUsed := true;
      }
    }

    method EnterIDLE()
      modifies this
      ensures View() == EnterIdle(settings, old(View()))
    {
      StartAsyncEvtTimer(idleInterval);
      idleInterval := idleInterval * 2 % 0x1_0000;
      if idleInterval > settings.idleMax {
        idleInterval := settings.idleMax;
      }
      idleCount := idleCount + 1;
      SetState(IDLE);
    }

    method EnterWAIT_FOR_CONN(timeout: nat, disconnect: bool)
      modifies this
      ensures View() == EnterWaitForConn(settings, old(View()), timeout, disconnect)
    {
      var _ := DeferredEventProcess();
      NonPersistentProfileProcess(disconnect);
      StartAsyncEvtTimer(timeout);
      SetState(WAIT_FOR_CONN);
    }

    /** Forgets the errors so far, if any are counted. */
    method ClearErrors()
      modifies this
      ensures View() == old(View()).(back := Cleared(old(View()).back))
    {
      if fatalErrorCount > 0 {
        fatalErrorCount, recoveryDelayLevel := 0, 0;
        resets := 0;
      }
    }

    method EnterCONNECTED(notify: bool)
      modifies this
      ensures View() == EnterConnected(settings, old(View()), notify)
    {
      StartAsyncEvtTimer(0);
      ClearErrors();
      if notify {
        NotifyNetIf(IpAcquiredNote);
      }
      idleInterval := settings.idleMin;
      idleCount := 0;
      SetState(CONNECTED);
    }

    /** With a static zero address (`bypass`) no address will be acquired. */
    method EnterWAIT_FOR_IP(env: Env)
      modifies this
      ensures View() == EnterWaitForIp(settings, old(View()), env)
    {
      NotifyNetIf(MacConnect);
      if env.bypass {
        EnterCONNECTED(false);
      } else {
        StartAsyncEvtTimer(settings.ip);
        SetState(WAIT_FOR_IP);
      }
    }

    method EnterPROVISIONING(env: Env)
      modifies this
      ensures View() == EnterProvisioning(settings, old(View()), env)
    {
      if external {
        SetState(EXT_PROVISIONING);
      } else {
        if role.Ap? {
          ResetNWP(env.restart);
        }
        SetState(PROVISIONING);
        if provMode.OneShot? {
          provMode := ModeOff;
        }
      }
      StartAsyncEvtTimer(settings.prov);
    }

    method EnterPROV_STOPPING(deferred: seq<Event>)
      modifies this
      ensures View() == EnterProvStopping(old(View()), deferred)
    {
      StartAsyncEvtTimer(0);
      deferredQ := deferredQ + deferred;
      SetState(PROV_STOPPING);
    }

    /** The handler did what `h` says, or knows nothing of the event and changed nothing. */
    ghost predicate Did(was: Wifi, h: Handled, ret: int)
      reads this
    {
      if h.Done? then ret >= 0 && View() == h.w else ret < 0 && View() == was
    }

    method SmStateOFF(e: Event) returns (ret: int)
      modifies this
      ensures Did(old(View()), StateOff(settings, old(View()), e), ret)
    {
      ret := 0;
      match e
      case Enable =>
        idleInterval := settings.idleMin;
        idleCount := 0;
        EnterWAIT_FOR_CONN(settings.connect, false);
      case Disable =>
      case EnableProvisioning =>
      case AddProfile =>
      case Disconnect =>
      case Connected =>
      case _ => ret := -1;
    }

    method SmStateIDLE(e: Event) returns (ret: int)
      modifies this
      ensures Did(old(View()), StateIdle(settings, old(View()), e), ret)
    {
      ret := 0;
      match e
      case EnableProvisioning => EnterWAIT_FOR_CONN(settings.connect, false);
      case AddProfile => EnterWAIT_FOR_CONN(settings.connect, false);
      case Timeout => EnterWAIT_FOR_CONN(settings.connect, false);
      case Connected =>
        StartAsyncEvtTimer(0);
        StartAsyncEvtTimer(settings.ip);
        silent := silent + 1;
        SetState(WAIT_FOR_IP);
      case _ => ret := -1;
    }

    method SmStateWAIT_FOR_CONN(e: Event, env: Env) returns (ret: int)
      requires !provMode.ModeOff? ==> registered
      modifies this
      ensures Did(old(View()), StateWaitForConn(settings, old(View()), e, env), ret)
    {
      ret := 0;
      match e
      case AddProfile => EnterWAIT_FOR_CONN(settings.connect, false);
      case Connected => EnterWAIT_FOR_IP(env);
      case IpAcquired =>
        silent := silent + 1;
        EnterCONNECTED(true);
      case Timeout =>
        if connectUsed {
          EnterWAIT_FOR_CONN(settings.connect, true);
        } else if !provMode.ModeOff? {
          assert registered;
          EnterPROVISIONING(env);
        } else {
          EnterIDLE();
        }
      case _ => ret := -1;
    }

    method SmStateWAIT_FOR_IP(e: Event) returns (ret: int)
      modifies this
      ensures Did(old(View()), StateWaitForIp(settings, old(View()), e), ret)
    {
      ret := 0;
      match e
      case AddProfile =>
      case IpAcquired => EnterCONNECTED(true);
      case Timeout =>
        NotifyNetIf(DisconnectNote);
        EnterWAIT_FOR_CONN(settings.reconnect, false);
      case Disconnect =>
        NotifyNetIf(DisconnectNote);
        EnterWAIT_FOR_CONN(settings.reconnect, false);
      case _ => ret := -1;
    }

    method SmStateCONNECTED(e: Event) returns (ret: int)
      modifies this
      ensures Did(old(View()), StateConnected(settings, old(View()), e), ret)
    {
      ret := 0;
      match e
      case IpAcquired =>
      case AddProfile =>
      case Disconnect =>
        NotifyNetIf(DisconnectNote);
        EnterWAIT_FOR_CONN(settings.reconnect, false);
      case IpLost =>
        StartAsyncEvtTimer(settings.ip);
        SetState(WAIT_FOR_IP);
      case ResetRequest =>
        NotifyNetIf(DisconnectNote);
        ResetNWP(Sta);
        EnterWAIT_FOR_CONN(settings.reconnect, false);
      case _ => ret := -1;
    }

    method SmStatePROVISIONING(e: Event) returns (ret: int)
      modifies this
      ensures Did(old(View()), StateProvisioning(settings, old(View()), e), ret)
    {
      ret := 0;
      match e
      case ProvSuccess =>
        StartAsyncEvtTimer(0);
        SetState(PROV_STOPPING);
      case Disable => EnterPROV_STOPPING([Disable]);
      case AddProfile => EnterPROV_STOPPING([]);
      case Timeout => EnterPROV_STOPPING([Timeout]);
      case Error =>
        if provMode.ModeOff? {
          provMode := OneShot;
        }
        EnterPROV_STOPPING([Error]);
      case ProvStopped =>
        StartAsyncEvtTimer(0);
        EnterIDLE();
      case ProvExtConfigReady => SetState(EXT_PROVISIONING);
      case ProvCloudConfirmReady => SetState(EXT_PROVISIONING);
      case _ => ret := -1;
    }

    method SmStateEXT_PROVISIONING(e: Event) returns (ret: int)
      modifies this
      ensures Did(old(View()), StateExtProvisioning(settings, old(View()), e), ret)
    {
      ret := 0;
      match e
      case ExtProvCompleted => EnterPROV_STOPPING([ExtProvCompleted]);
      case AddProfile => EnterPROV_STOPPING([ExtProvCompleted]);
      case Timeout => EnterPROV_STOPPING([Timeout]);
      case ResetRequest =>
        ResetNWP(Sta);
        SetState(PROVISIONING);
      case _ => ret := -1;
    }

    method SmStatePROV_STOPPING(e: Event, env: Env) returns (ret: int)
      modifies this
      ensures Did(old(View()), StateProvStopping(settings, old(View()), e, env), ret)
    {
      ret := 0;
      match e
      case Connected =>
        NotifyNetIf(MacConnect);
        EnterCONNECTED(true);
      case ProvStopped =>
        var none := DeferredEventProcess();
        if none {
          EnterWAIT_FOR_CONN(settings.connect, false);
        } else {
          stopSeen := true;
        }
      case ExtProvCompleted =>
        SetRole(Sta);
        EnterWAIT_FOR_CONN(settings.connect, false);
      case AddProfile => EnterWAIT_FOR_CONN(settings.connect, false);
      case Error => EnterPROVISIONING(env);
      case Timeout => EnterIDLE();
      case _ => ret := -1;
    }

    /** Calls the handler of the current state, which must be registered. */
    method CallHandler(e: Event, env: Env) returns (ret: int)
      requires Registered(View())
      modifies this
      ensures Did(old(View()), Handle(settings, old(View()), e, env), ret)
    {
      match state
      case OFF => ret := SmStateOFF(e);
      case IDLE => ret := SmStateIDLE(e);
      case WAIT_FOR_CONN => ret := SmStateWAIT_FOR_CONN(e, env);
      case WAIT_FOR_IP => ret := SmStateWAIT_FOR_IP(e);
      case CONNECTED => ret := SmStateCONNECTED(e);
      case PROVISIONING => ret := SmStatePROVISIONING(e);
      case PROV_STOPPING => ret := SmStatePROV_STOPPING(e, env);
      case EXT_PROVISIONING => ret := SmStateEXT_PROVISIONING(e);
    }

    method ProcessEvent(e: Event, env: Env)
      requires Registered(View())
      modifies this
      ensures View() == Dispatch(settings, old(View()), e, env)
      ensures WifiMoves.AsTold(settings, old(View()), e, env, View())
    {
      hide Handle, WifiMoves.AsTold;
      WifiMoves.EventAsTold(settings, View(), e, env);
      var ret := CallHandler(e, env);
      if ret < 0 && e.Disable? {
        if InRegion(state) {
          NotifyNetIf(DisconnectNote);
        }
        SetState(OFF);
      }
    }

    /** One turn of SlWifiConn_process. */
    method ProcessNext(env: Env)
      requires Enabled(View(), Process(env)) && Registered(View())
      modifies this
      ensures View() == Apply(settings, old(View()), Process(env))
      ensures var e, was := old(eventQ)[0], old(View()).(eventQ := old(eventQ)[1..]);
        if e.Destroy? then destroyed else WifiMoves.AsTold(settings, was, e, env, View())
      ensures old(Valid()) && !destroyed ==> Valid()
    {
      ghost var was := View();
      hide Dispatch, WifiMoves.AsTold;
      var e := eventQ[0];
      eventQ := eventQ[1..];
      if e.Destroy? {
        destroyed := true;
      } else {
        ProcessEvent(e, env);
      }
      if Inv(settings, was) && !destroyed {
        StepKeeps(settings, was, Process(env));
      }
    }

    method EnableProvisioning(mode: Mode, ext: bool)
      requires Enabled(View(), EnableProv(mode, ext))
      modifies this
      ensures View() == Apply(settings, old(View()), EnableProv(mode, ext))
      ensures provMode == mode && external == ext && registered
      ensures eventQ == old(eventQ) + [Event.EnableProvisioning] && state == old(state)
      ensures old(Valid()) && !destroyed ==> Valid()
    {
      ghost var was := View();
      registered := true;
      external := ext;
      provMode := mode;
      SignalEvent(Event.EnableProvisioning);
      if Inv(settings, was) && !destroyed {
        StepKeeps(settings, was, EnableProv(mode, ext));
      }
    }

    /** SlWifiConn_setRole. */
    method ChangeRoleTo(r: Role) returns (ok: bool)
      requires Enabled(View(), ChangeRole(r))
      modifies this
      ensures View() == Apply(settings, old(View()), ChangeRole(r))
      ensures ok == (old(state).OFF? || old(state).EXT_PROVISIONING?)
      ensures role == (if ok then Sta else old(role)) && state == old(state)
      ensures resets == old(resets) + if ok && r != old(role) then 1 else 0
      ensures old(Valid()) && !destroyed ==> Valid()
    {
      ghost var was := View();
      ok := state.OFF? || state.EXT_PROVISIONING?;
      if ok {
        SetRole(r);
        role := Sta;
      }
      if Inv(settings, was) && !destroyed {
        StepKeeps(settings, was, ChangeRole(r));
      }
    }

    /** SlWifiConn_reset. */
    method ResetIfOff(restart: Role) returns (ok: bool)
      requires Enabled(View(), Reset(restart))
      modifies this
      ensures View() == Apply(settings, old(View()), Reset(restart))
      ensures ok == old(state).OFF? && state == old(state)
      ensures resets == old(resets) + (if ok then 1 else 0) && role == if ok then restart else old(role)
      ensures old(Valid()) && !destroyed ==> Valid()
    {
      ghost var was := View();
      ok := state.OFF?;
      if ok {
        ResetNWP(restart);
      }
      if Inv(settings, was) && !destroyed {
        StepKeeps(settings, was, Reset(restart));
      }
    }

    /** What adding a profile amounts to, when it succeeds. */
    static function Addition(nonPersistent: bool, store: Store): Op {
      if nonPersistent then StaticProfile else if store.InProgress? then Defer else Post(Event.AddProfile)
    }

    /** SlWifiConn_addProfile: a non-persistent profile is kept; one that cannot be stored
        because provisioning is active is deferred, both in a copy that may not fit the
        memory; one that the processor refuses changes nothing and sends no event. */
    method AddProfile(nonPersistent: bool, store: Store, memory: bool) returns (ok: bool)
      requires !destroyed
      modifies this
      ensures ok == if nonPersistent || store.InProgress? then memory else store.Kept?
      ensures View() == if ok then Apply(settings, old(View()), Addition(nonPersistent, store)) else old(View())
      ensures profile == (old(profile) || (ok && nonPersistent))
      ensures deferredQ == old(deferredQ) + if ok && !nonPersistent && store.InProgress? then [Event.AddProfile] else []
      ensures eventQ == old(eventQ) + (if ok then [Event.AddProfile] else []) && state == old(state)
      ensures old(Valid()) && !destroyed ==> Valid()
    {
      ghost var was := View();
      var result := if nonPersistent then Kept else store;
      if result.InProgress? || nonPersistent {
        if !memory {
          return false;
        }
        if nonPersistent {
          profile := true;
        } else {
          deferredQ := deferredQ + [Event.AddProfile];
          result := Kept;
        }
      }
      if result.Kept? {
        SignalEvent(Event.AddProfile);
        if Inv(settings, was) && !destroyed {
          StepKeeps(settings, was, Addition(nonPersistent, store));
        }
      }
      ok := result.Kept?;
    }
  }
}
