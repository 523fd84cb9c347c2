/**
 The polled Wi-Fi driver of cc3220sf.c: one state handler per tick, a status word that the
 received events set, and a `next state` that some states set for a later one.
 */
module WlanExec {

  datatype State =
    | INIT | START | CHECK_PROFILES | WAIT_4_START | STOP | WAIT_CONNECTAP | WAIT_IP | START_NETWORK | START_HTTP
    | NOTIFY_UP | NOTIFY_DOWN | READY | IDLE | SLEEP | CHECK_CONNECTION | GET_STATISTICS | ERROR
    | START_PROV | HTTP_MESSAGE | HANDLE_EVENT | WAIT_FW_INSTALL | WAIT_PROVISION

  /** The events that set or clear a status bit or are looked at, and all the others. */
  datatype Event =
    | Stopped | Running | Connected | IpAcquired | Disconnected
    | ProvStarted | ProvSuccess | ProvStopped | ProvConnected | ProvIpAcquired | ProvFailed | ProfileAdded
    | FwStart | FwDone | FwError | FwUpgrade | FwInstall
    | ErrorEvent | FatalError | Restart | Other

  datatype Bit =
    | BitRunning | BitChecked | BitProvMode | BitConnected | BitIp
    | BitProvConnect | BitProvIp | BitProvSuccess | BitProvStopped | BitProvAdded | BitProvFailed
    | BitFwStart | BitFwDone | BitFwError | BitFwUpgrade | BitFwInstall | BitReboot | BitFatal

  /** netdev_wlan_cc3220sf_recv_event's effect on the status word. */
  function Status(s: set<Bit>, e: Event): set<Bit> {
    match e
    case Stopped => s - {BitRunning}
    case Running => s + {BitRunning}
    case Connected => s + {BitConnected}
    case IpAcquired => s + {BitIp}
    case Disconnected => s - {BitConnected}
    case ProvStarted => s + {BitProvMode}
    case ProvSuccess => s + {BitProvSuccess}
    case ProvStopped => s + {BitProvStopped}
    case ProvConnected => s + {BitProvConnect}
    case ProvIpAcquired => s + {BitProvIp}
    case ProvFailed => s + {BitProvFailed}
    case ProfileAdded => s + {BitProvAdded}
    case FwStart => s + {BitFwStart} - {BitFwDone, BitFwError}
    case FwDone => s + {BitFwDone}
    case FwError => s - {BitFwStart, BitFwDone} + {BitFwError}
    case FwUpgrade => s + {BitFwUpgrade} - {BitFwStart, BitFwDone, BitFwError, BitFwInstall}
    case FwInstall => s - {BitFwUpgrade, BitFwStart, BitFwDone, BitFwError} + {BitFwInstall}
    case ErrorEvent => {BitFatal}
    case FatalError => {BitFatal}
    case Restart => s + {BitReboot}
    case Other => s
  }

  datatype Got = Nothing | Got(e: Event)

  function Receive(s: set<Bit>, got: Got): set<Bit> {
    if got.Got? then Status(s, got.e) else s
  }

  /** What the two queues hold when a tick looks at them: the event it receives, whether an
      HTTP request or an event is waiting, and what arrives while STOP waits. */
  datatype Env = Env(got: Got, http: bool, waiting: bool, later: seq<Got>)

  datatype Dev = Dev(state: State, next: State, timer: nat, sleepTime: nat, status: set<Bit>, provision: bool)

  const GENERAL_TIMEOUT: nat := 2000

  function Init(provision: bool): Dev {
    Dev(INIT, INIT, 0, 5000, {BitChecked}, provision)
  }

  /** STOP receives up to `n` more events while the processor still runs. */
  function Drain(s: set<Bit>, later: seq<Got>, n: nat): set<Bit>
    decreases n
  {
    if BitRunning !in s || n == 0 then s
    else if later == [] then Drain(s, [], n - 1)
    else Drain(Receive(s, later[0]), later[1..], n - 1)
  }

  /** netdev_wlan_cc3220sf_exec with the handler of the state; `d` is the tick. */
  function Exec(w: Dev, d: nat, env: Env): Dev {
    Handle(w.(timer := (w.timer + d) % 0x1_0000_0000), env)
  }

  function Handle(w: Dev, env: Env): Dev {
    match w.state
    case INIT => w.(state := START)
    case START => DoStart(w.(status := Receive(w.status, env.got)))
    case WAIT_4_START => DoWaitStart(w.(status := Receive(w.status, env.got)))
    case STOP =>
      var s := Drain(Receive(w.status, env.got), env.later, 10);
      w.(state := INIT, status := s * {BitFwInstall})
    case CHECK_PROFILES => w.(state := START_NETWORK, timer := 0)
    case START_NETWORK => w.(state := if w.provision then WAIT_PROVISION else WAIT_CONNECTAP)
    case WAIT_CONNECTAP => DoWaitConnect(w.(status := Receive(w.status, env.got)))
    case WAIT_IP => DoWaitIp(w.(status := Receive(w.status, env.got)))
    case START_HTTP => w.(state := NOTIFY_UP, next := IDLE)
    case NOTIFY_UP => w.(state := w.next, timer := 0)
    case NOTIFY_DOWN => w.(state := w.next, timer := 0, sleepTime := 2000)
    case IDLE => DoIdle(w, env)
    case SLEEP => if w.timer >= w.sleepTime then w.(state := w.next) else w
    case ERROR => w.(state := SLEEP, next := STOP, sleepTime := 2000, timer := 0)
    case CHECK_CONNECTION => w.(state := IDLE, timer := 0)
    case HTTP_MESSAGE => w.(state := IDLE)
    case HANDLE_EVENT => DoHandleEvent(w.(status := Receive(w.status, env.got)), env.got)
    case WAIT_FW_INSTALL => w.(status := Receive(w.status, env.got))
    case WAIT_PROVISION => w.(status := Receive(w.status, env.got) + {BitProvMode})
    case _ => w.(state := ERROR)
  }

  function DoStart(w: Dev): Dev {
    if BitFwInstall in w.status then w.(state := WAIT_FW_INSTALL, timer := 0)
    else w.(state := WAIT_4_START, next := CHECK_PROFILES, timer := 0)
  }

  function DoWaitStart(w: Dev): Dev {
    if BitRunning in w.status then w.(state := w.next, timer := 0)
    else if w.timer >= GENERAL_TIMEOUT then w.(state := SLEEP, next := INIT, timer := 0, sleepTime := 1000)
    else w
  }

  function DoWaitConnect(w: Dev): Dev {
    if BitConnected in w.status then w.(state := WAIT_IP, timer := 0)
    else if w.timer > 10000 then w.(state := ERROR)
    else w
  }

  function DoWaitIp(w: Dev): Dev {
    if BitIp in w.status then w.(state := START_HTTP) else if w.timer > 5000 then w.(state := ERROR) else w
  }

  function DoIdle(w: Dev, env: Env): Dev {
    if env.http then w.(state := HTTP_MESSAGE)
    else if env.waiting then w.(state := HANDLE_EVENT)
    else if w.timer >= 30000 then w.(timer := 0)
    else w
  }

  function Down(w: Dev): Dev {
    w.(state := NOTIFY_DOWN, next := STOP, timer := 0)
  }

  function DoHandleEvent(w: Dev, got: Got): Dev {
    if got.Got? && (got.e.FwInstall? || got.e.FatalError?) then Down(w)
    else if BitReboot in w.status then Down(w)
    else w.(state := IDLE)
  }

  // ------------------------------------------------------------------ what every poll keeps

  /** The next state is the one set for the state that is under way; the processor does not
      run in INIT; and the states without a handler are not reached. */
  predicate Inv(w: Dev) {
    && (w.state.INIT? ==> BitRunning !in w.status)
    && (w.state.WAIT_4_START? ==> w.next.CHECK_PROFILES?)
    && (w.state.NOTIFY_UP? ==> w.next.IDLE?)
    && (w.state.NOTIFY_DOWN? ==> w.next.STOP?)
    && (w.state.SLEEP? ==> w.next.STOP? || (w.next.INIT? && BitRunning !in w.status))
    && !w.state.READY? && !w.state.CHECK_CONNECTION? && !w.state.GET_STATISTICS? && !w.state.START_PROV?
  }

  lemma ExecInv(w: Dev, d: nat, env: Env)
    requires Inv(w)
    ensures Inv(Exec(w, d, env))
  {
    hide Status, Drain;
  }
}
