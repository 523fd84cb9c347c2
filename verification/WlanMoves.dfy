/**
 Where the polled driver goes: for every state, exactly when it is entered from another one;
 for every status bit, exactly when it is on; and the way down from an established link.
 */
module WlanMoves {
  import opened WlanExec
  import opened WlanRuns

  // ------------------------------------------------------------------ the status bits

  /** The events that report a bit. */
  predicate Sets(e: Event, b: Bit) {
    match b
    case BitRunning => e.Running?
    case BitChecked => false
    case BitProvMode => e.ProvStarted?
    case BitConnected => e.Connected?
    case BitIp => e.IpAcquired?
    case BitProvConnect => e.ProvConnected?
    case BitProvIp => e.ProvIpAcquired?
    case BitProvSuccess => e.ProvSuccess?
    case BitProvStopped => e.ProvStopped?
    case BitProvAdded => e.ProfileAdded?
    case BitProvFailed => e.ProvFailed?
    case BitFwStart => e.FwStart?
    case BitFwDone => e.FwDone?
    case BitFwError => e.FwError?
    case BitFwUpgrade => e.FwUpgrade?
    case BitFwInstall => e.FwInstall?
    case BitReboot => e.Restart?
    case BitFatal => e.ErrorEvent? || e.FatalError?
  }

  /** ... and those that take it back. An error takes back everything. */
  predicate Clears(e: Event, b: Bit) {
    || e.ErrorEvent? || e.FatalError?
    || (match b
        case BitRunning => e.Stopped?
        case BitConnected => e.Disconnected?
        case BitFwStart => e.FwError? || e.FwUpgrade? || e.FwInstall?
        case BitFwDone => e.FwStart? || e.FwError? || e.FwUpgrade? || e.FwInstall?
        case BitFwError => e.FwStart? || e.FwUpgrade? || e.FwInstall?
        case BitFwUpgrade => e.FwInstall?
        case BitFwInstall => e.FwUpgrade?
        case _ => false)
  }

  /** The bit is on once the event of this poll has been received. */
  predicate On(s: set<Bit>, got: Got, b: Bit) {
    if got.Got? then Sets(got.e, b) || (b in s && !Clears(got.e, b)) else b in s
  }

  predicate AboutFirmware(e: Event) {
    e.FwStart? || e.FwDone? || e.FwError? || e.FwUpgrade? || e.FwInstall?
  }

  lemma FirmwareBit(s: set<Bit>, e: Event, b: Bit)
    requires AboutFirmware(e)
    ensures b in Status(s, e) <==> Sets(e, b) || (b in s && !Clears(e, b))
  {
  }

  lemma OtherBit(s: set<Bit>, e: Event, b: Bit)
    requires !AboutFirmware(e)
    ensures b in Status(s, e) <==> Sets(e, b) || (b in s && !Clears(e, b))
  {
  }

  lemma OnIff(s: set<Bit>, got: Got, b: Bit)
    ensures b in Receive(s, got) <==> On(s, got, b)
  {
    hide Status, Sets, Clears;
    if got.Got? {
      if AboutFirmware(got.e) {
        FirmwareBit(s, got.e, b);
      } else {
        OtherBit(s, got.e, b);
      }
    }
  }

  /** The states that receive an event when they are polled. */
  predicate Receives(s: State) {
    || s.START? || s.WAIT_4_START? || s.STOP? || s.WAIT_CONNECTAP? || s.WAIT_IP? || s.HANDLE_EVENT?
    || s.WAIT_FW_INSTALL? || s.WAIT_PROVISION?
  }

  /** A poll leaves a bit as its event does, if it receives one; waiting for provisioning
      marks the mode; and a stop leaves nothing but a firmware installation asked for. */
  lemma BitIff(w: Dev, d: nat, env: Env, b: Bit)
    ensures !w.state.STOP? ==>
      (b in Exec(w, d, env).status <==>
        || (if Receives(w.state) then On(w.status, env.got, b) else b in w.status)
        || (b.BitProvMode? && w.state.WAIT_PROVISION?))
    ensures w.state.STOP? ==> (b in Exec(w, d, env).status ==> b.BitFwInstall?)
  {
    hide Status, Drain;
    OnIff(w.status, env.got, b);
  }

  // ------------------------------------------------------------------ entering a state

  /** What the timer shows when the handler runs. */
  function Shown(w: Dev, d: nat): nat {
    (w.timer + d) % 0x1_0000_0000
  }

  predicate Expired(w: Dev, d: nat) {
    Shown(w, d) >= w.sleepTime
  }

  /** The event of this poll takes an established link down. */
  predicate GoesDown(w: Dev, env: Env) {
    env.got == Got(FwInstall) || env.got == Got(FatalError) || On(w.status, env.got, BitReboot)
  }

  /** Which state follows, told from the state that is entered. */
  predicate Enters(w: Dev, d: nat, env: Env, t: State) {
    var s := w.state;
    match t
    case INIT => s.STOP? || (s.SLEEP? && Expired(w, d) && w.next.INIT?)
    case START => s.INIT?
    case WAIT_FW_INSTALL => s.START? && On(w.status, env.got, BitFwInstall)
    case WAIT_4_START => s.START? && !On(w.status, env.got, BitFwInstall)
    case CHECK_PROFILES => s.WAIT_4_START? && On(w.status, env.got, BitRunning)
    case SLEEP =>
      s.ERROR? || (s.WAIT_4_START? && !On(w.status, env.got, BitRunning) && Shown(w, d) >= 2000)
    case START_NETWORK => s.CHECK_PROFILES?
    case WAIT_PROVISION => s.START_NETWORK? && w.provision
    case WAIT_CONNECTAP => s.START_NETWORK? && !w.provision
    case WAIT_IP => s.WAIT_CONNECTAP? && On(w.status, env.got, BitConnected)
    case START_HTTP => s.WAIT_IP? && On(w.status, env.got, BitIp)
    case ERROR =>
      || (s.WAIT_CONNECTAP? && !On(w.status, env.got, BitConnected) && Shown(w, d) > 10000)
      || (s.WAIT_IP? && !On(w.status, env.got, BitIp) && Shown(w, d) > 5000)
    case NOTIFY_UP => s.START_HTTP?
    case IDLE => s.NOTIFY_UP? || s.HTTP_MESSAGE? || (s.HANDLE_EVENT? && !GoesDown(w, env))
    case HTTP_MESSAGE => s.IDLE? && env.http
    case HANDLE_EVENT => s.IDLE? && !env.http && env.waiting
    case NOTIFY_DOWN => s.HANDLE_EVENT? && GoesDown(w, env)
    case STOP => s.NOTIFY_DOWN? || (s.SLEEP? && Expired(w, d) && w.next.STOP?)
    case _ => false
  }

  /** In every state a run can be in, a state is entered from another one exactly then. In
      particular an established link is taken down, from HANDLE_EVENT, if and only if the
      event received is FW_INSTALL or FATAL_ERROR or the reboot bit is on afterwards; IDLE
      hands on requests first and then events; and the network is started by waiting for
      provisioning if and only if that was asked for. */
  lemma EntersIff(w: Dev, d: nat, env: Env, t: State)
    requires Inv(w) && t != w.state
    ensures Exec(w, d, env).state == t <==> Enters(w, d, env, t)
  {
    hide Status, Drain, On;
    OnIff(w.status, env.got, BitFwInstall);
    OnIff(w.status, env.got, BitRunning);
    OnIff(w.status, env.got, BitConnected);
    OnIff(w.status, env.got, BitIp);
    OnIff(w.status, env.got, BitReboot);
  }

  // ------------------------------------------------------------------ the timer

  /** The timer starts again when one of these states is left or entered, and every half
      minute in IDLE; otherwise it goes on. */
  predicate Restarts(w: Dev, d: nat, t: State) {
    var s := w.state;
    || s.START? || s.CHECK_PROFILES? || s.NOTIFY_UP? || s.NOTIFY_DOWN? || s.ERROR? || t.NOTIFY_DOWN?
    || (s.WAIT_4_START? && t != s) || (s.WAIT_CONNECTAP? && t.WAIT_IP?)
    || (s.IDLE? && t == s && Shown(w, d) >= 30000)
  }

  lemma TimerIff(w: Dev, d: nat, env: Env)
    requires Inv(w)
    ensures var w' := Exec(w, d, env); w'.timer == if Restarts(w, d, w'.state) then 0 else Shown(w, d)
  {
    hide Receive, Drain;
  }

  /** How long it sleeps and where it goes on: after an error 2 s and then the stop, and
      after a processor that does not start 1 s and then INIT. */
  lemma SleepsFor(w: Dev, d: nat, env: Env)
    requires Inv(w) && !w.state.SLEEP? && Exec(w, d, env).state.SLEEP?
    ensures var w' := Exec(w, d, env);
      if w.state.ERROR? then w'.next.STOP? && w'.sleepTime == 2000 else w'.next.INIT? && w'.sleepTime == 1000
  {
    hide Receive, Drain;
  }

  // ------------------------------------------------------------------ the way down

  lemma RunStep(provision: bool, ws: seq<Dev>, ds: seq<nat>, envs: seq<Env>, k: nat, t: State)
    requires IsRun(provision, ws, ds, envs) && k < |ds| && t != ws[k].state && Enters(ws[k], ds[k], envs[k], t)
    ensures ws[k + 1] == Exec(ws[k], ds[k], envs[k]) && ws[k + 1].state == t
  {
    hide Exec, Enters;
    RunsAreSafe(provision, ws, ds, envs, k);
    EntersIff(ws[k], ds[k], envs[k], t);
  }

  /** In every run an event that takes the link down is followed by the notification, the
      stop and INIT, one poll each whatever the tick, and nothing of the status is left but
      a firmware installation asked for. */
  lemma DownComesToInit(provision: bool, ws: seq<Dev>, ds: seq<nat>, envs: seq<Env>, k: nat)
    requires IsRun(provision, ws, ds, envs) && k + 3 < |ws|
    requires ws[k].state.HANDLE_EVENT? && GoesDown(ws[k], envs[k])
    ensures ws[k + 1].state.NOTIFY_DOWN? && ws[k + 2].state.STOP? && ws[k + 3].state.INIT?
    ensures forall b: Bit :: b in ws[k + 3].status ==> b.BitFwInstall?
  {
    hide Exec, GoesDown;
    RunStep(provision, ws, ds, envs, k, NOTIFY_DOWN);
    RunStep(provision, ws, ds, envs, k + 1, STOP);
    RunStep(provision, ws, ds, envs, k + 2, INIT);
    forall b: Bit | b in ws[k + 3].status
      ensures b.BitFwInstall?
    {
      BitIff(ws[k + 2], ds[k + 2], envs[k + 2], b);
    }
  }

  /** From IDLE with an event waiting and no request, four polls. */
  lemma IdleComesToInit(provision: bool, ws: seq<Dev>, ds: seq<nat>, envs: seq<Env>, k: nat)
    requires IsRun(provision, ws, ds, envs) && k + 4 < |ws|
    requires ws[k].state.IDLE? && !envs[k].http && envs[k].waiting
    requires envs[k + 1].got == Got(FwInstall) || envs[k + 1].got == Got(FatalError) || envs[k + 1].got == Got(Restart)
    ensures ws[k + 1].state.HANDLE_EVENT? && ws[k + 4].state.INIT?
  {
    hide Exec;
    RunStep(provision, ws, ds, envs, k, HANDLE_EVENT);
    DownComesToInit(provision, ws, ds, envs, k + 1);
  }

  /** No event takes back the request for an installation. */
  predicate Keeps(got: Got) {
    got.Got? ==> !Clears(got.e, BitFwInstall)
  }

  lemma {:induction false} DrainKeeps(s: set<Bit>, later: seq<Got>, n: nat)
    requires BitFwInstall in s && forall m :: 0 <= m < |later| ==> Keeps(later[m])
    ensures BitFwInstall in Drain(s, later, n)
    decreases n
  {
    hide Status;
    if BitRunning in s && n > 0 {
      if later == [] {
        DrainKeeps(s, [], n - 1);
      } else {
        OnIff(s, later[0], BitFwInstall);
        DrainKeeps(Receive(s, later[0]), later[1..], n - 1);
      }
    }
  }

  lemma StopKeeps(w: Dev, d: nat, env: Env)
    requires w.state.STOP? && BitFwInstall in w.status && Keeps(env.got)
    requires forall m :: 0 <= m < |env.later| ==> Keeps(env.later[m])
    ensures BitFwInstall in Exec(w, d, env).status
  {
    hide Status, Drain;
    OnIff(w.status, env.got, BitFwInstall);
    DrainKeeps(Receive(w.status, env.got), env.later, 10);
  }

  /** A firmware installation asked for on an established link is carried out: six polls
      after IDLE the driver waits for it, unless another event takes the request back. */
  lemma InstallsFirmware(provision: bool, ws: seq<Dev>, ds: seq<nat>, envs: seq<Env>, k: nat)
    requires IsRun(provision, ws, ds, envs) && k + 6 < |ws|
    requires ws[k].state.IDLE? && !envs[k].http && envs[k].waiting && envs[k + 1].got == Got(FwInstall)
    requires forall j: nat :: k + 2 <= j < k + 6 ==>
      Keeps(envs[j].got) && forall m :: 0 <= m < |envs[j].later| ==> Keeps(envs[j].later[m])
    ensures ws[k + 6].state.WAIT_FW_INSTALL?
  {
    hide Exec, Enters;
    IdleComesToInit(provision, ws, ds, envs, k);
    DownComesToInit(provision, ws, ds, envs, k + 1);
    BitIff(ws[k + 1], ds[k + 1], envs[k + 1], BitFwInstall);
    BitIff(ws[k + 2], ds[k + 2], envs[k + 2], BitFwInstall);
    StopKeeps(ws[k + 3], ds[k + 3], envs[k + 3]);
    BitIff(ws[k + 4], ds[k + 4], envs[k + 4], BitFwInstall);
    assert Enters(ws[k + 4], ds[k + 4], envs[k + 4], START) by {
      IsStart(ws[k + 4], ds[k + 4], envs[k + 4]);
    }
    RunStep(provision, ws, ds, envs, k + 4, START);
    assert Enters(ws[k + 5], ds[k + 5], envs[k + 5], WAIT_FW_INSTALL) by {
      IsInstall(ws[k + 5], ds[k + 5], envs[k + 5]);
    }
    RunStep(provision, ws, ds, envs, k + 5, WAIT_FW_INSTALL);
  }

  lemma IsStart(w: Dev, d: nat, env: Env)
    requires w.state.INIT?
    ensures Enters(w, d, env, START)
  {
  }

  lemma IsInstall(w: Dev, d: nat, env: Env)
    requires w.state.START? && BitFwInstall in w.status && Keeps(env.got)
    ensures Enters(w, d, env, WAIT_FW_INSTALL)
  {
  }
}
