/**
 The device structure of cc3220sf.c, updated in place by the handlers of its states.
 */
module WlanDriver {
  import opened WlanExec
  import opened WlanMoves

  class WlanDev {
    var state: State
    var nstate: State
    var timer: nat
    var sleepTime: nat
    var wlanStatus: set<Bit>
    var doProvisioning: bool

    constructor (provision: bool)
      ensures View() == Init(provision)
    {
      state, nstate, timer, sleepTime := INIT, INIT, 0, 5000;
      wlanStatus, doProvisioning := {BitChecked}, provision;
    }

    function View(): Dev
      reads this
    {
      Dev(state, nstate, timer, sleepTime, wlanStatus, doProvisioning)
    }

    method RecvEvent(got: Got)
      modifies this`wlanStatus
      ensures wlanStatus == Receive(old(wlanStatus), got)
    {
      if got.Got? {
        wlanStatus := Status(wlanStatus, got.e);
      }
    }

    method SmStart(got: Got) returns (s: State)
      modifies this
      ensures View().(state := s) == DoStart(old(View()).(status := Receive(old(wlanStatus), got)))
      ensures state == old(state)
    {
      RecvEvent(got);
      if BitFwInstall in wlanStatus {
        timer := 0;
        return WAIT_FW_INSTALL;
      }
      nstate := CHECK_PROFILES;
      timer := 0;
      return WAIT_4_START;
    }

    method SmWait4Start(got: Got) returns (s: State)
      requires state == WAIT_4_START
      modifies this
      ensures View().(state := s) == DoWaitStart(old(View()).(status := Receive(old(wlanStatus), got)))
      ensures state == old(state)
    {
      RecvEvent(got);
      if BitRunning in wlanStatus {
        timer := 0;
        return nstate;
      }
      if timer >= GENERAL_TIMEOUT && BitRunning !in wlanStatus {
        nstate := INIT;
        timer := 0;
        sleepTime := 1000;
        return SLEEP;
      }
      return WAIT_4_START;
    }

    method SmStop(got: Got, later: seq<Got>) returns (s: State)
      modifies this`wlanStatus
      ensures s == INIT
      ensures wlanStatus == Drain(Receive(old(wlanStatus), got), later, 10) * {BitFwInstall}
    {
      RecvEvent(got);
      var to := 10;
      var rest := later;
      while BitRunning in wlanStatus && to > 0
        invariant 0 <= to <= 10
        invariant Drain(wlanStatus, rest, to) == Drain(Receive(old(wlanStatus), got), later, 10)
      {
        if rest != [] {
          RecvEvent(rest[0]);
          rest := rest[1..];
        }
        to := to - 1;
      }
      wlanStatus := wlanStatus * {BitFwInstall};
      return INIT;
    }

    method SmWaitConnectAp(got: Got) returns (s: State)
      requires state == WAIT_CONNECTAP
      modifies this
      ensures View().(state := s) == DoWaitConnect(old(View()).(status := Receive(old(wlanStatus), got)))
      ensures state == old(state)
    {
      RecvEvent(got);
      if BitConnected in wlanStatus {
        timer := 0;
        return WAIT_IP;
      }
      return if timer > 10000 then ERROR else WAIT_CONNECTAP;
    }

    method SmWaitIp(got: Got) returns (s: State)
      requires state == WAIT_IP
      modifies this
      ensures View().(state := s) == DoWaitIp(old(View()).(status := Receive(old(wlanStatus), got)))
      ensures state == old(state)
    {
      RecvEvent(got);
      if BitIp in wlanStatus { return START_HTTP; }
      return if timer > 5000 then ERROR else WAIT_IP;
    }

    method SmIdle(env: Env) returns (s: State)
      requires state == IDLE
      modifies this
      ensures View().(state := s) == DoIdle(old(View()), env)
      ensures state == old(state)
    {
      if env.http { return HTTP_MESSAGE; }
      if env.waiting { return HANDLE_EVENT; }
      if timer >= 30000 {
        timer := 0;
      }
      return IDLE;
    }

    method SmHandleEvent(got: Got) returns (s: State)
      modifies this
      ensures View().(state := s) == DoHandleEvent(old(View()).(status := Receive(old(wlanStatus), got)), got)
      ensures state == old(state)
    {
      RecvEvent(got);
      if got.Got? && (got.e.FwInstall? || got.e.FatalError?) {
        timer := 0;
        nstate := STOP;
        return NOTIFY_DOWN;
      }
      if BitReboot in wlanStatus {
        timer := 0;
        nstate := STOP;
        return NOTIFY_DOWN;
      }
      return IDLE;
    }

    /** The handler of the current state; the switch over the states. */
    method Dispatch(env: Env) returns (s: State)
      modifies this
      ensures View().(state := s) == Handle(old(View()), env)
    {
      match state
      case INIT => s := START;
      case START => s := SmStart(env.got);
      case WAIT_4_START => s := SmWait4Start(env.got);
      case STOP => s := SmStop(env.got, env.later);
      case CHECK_PROFILES =>
        timer := 0;
        s := START_NETWORK;
      case START_NETWORK => s := if doProvisioning then WAIT_PROVISION else WAIT_CONNECTAP;
      case WAIT_CONNECTAP => s := SmWaitConnectAp(env.got);
      case WAIT_IP => s := SmWaitIp(env.got);
      case START_HTTP =>
        nstate := IDLE;
        s := NOTIFY_UP;
      case NOTIFY_UP =>
        timer := 0;
        s := nstate;
      case NOTIFY_DOWN =>
        timer, sleepTime := 0, 2000;
        s := nstate;
      case IDLE => s := SmIdle(env);
      case SLEEP => s := if timer >= sleepTime then nstate else SLEEP;
      case ERROR =>
        nstate, sleepTime, timer := STOP, 2000, 0;
        s := SLEEP;
      case CHECK_CONNECTION =>
        timer := 0;
        s := IDLE;
      case HTTP_MESSAGE => s := IDLE;
      case HANDLE_EVENT => s := SmHandleEvent(env.got);
      case WAIT_FW_INSTALL =>
        RecvEvent(env.got);
        s := WAIT_FW_INSTALL;
      case WAIT_PROVISION =>
        RecvEvent(env.got);
        wlanStatus := wlanStatus + {BitProvMode};
        s := WAIT_PROVISION;
      case _ => s := ERROR;
    }

    /** netdev_wlan_cc3220sf_exec. In INIT the source would spin until the processor has
        stopped; the invariant says it never finds it running. */
    method Tick(d: nat, env: Env)
      requires Inv(View())
      modifies this
      ensures View() == Exec(old(View()), d, env) && Inv(View())
      ensures forall t: State :: t != old(state) ==> (state == t <==> Enters(old(View()), d, env, t))
      ensures timer == if Restarts(old(View()), d, state) then 0 else Shown(old(View()), d)
    {
      MovesAsTold(View(), d, env);
      ExecInv(View(), d, env);
      if state.INIT? {
        assert BitRunning !in wlanStatus;
      }
      timer := (timer + d) % 0x1_0000_0000;
      hide Handle, Enters, Restarts, Shown;
      var s := Dispatch(env);
      state := s;
    }
  }

  lemma MovesAsTold(w: Dev, d: nat, env: Env)
    requires Inv(w)
    ensures forall t: State :: t != w.state ==> (Exec(w, d, env).state == t <==> Enters(w, d, env, t))
    ensures var w' := Exec(w, d, env); w'.timer == if Restarts(w, d, w'.state) then 0 else Shown(w, d)
  {
    hide Exec, Enters, Restarts;
    forall t: State | t != w.state
      ensures Exec(w, d, env).state == t <==> Enters(w, d, env, t)
    {
      EntersIff(w, d, env, t);
    }
    TimerIff(w, d, env);
  }
}
