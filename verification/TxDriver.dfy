/**
 The flow control block, the two locks and the counters of driver.c, updated in place by the
 calls that use them, with their loops: a data write, a data read, a command and the spawn
 thread's read. Between two atomic actions of the call that runs, the others do whatever
 TxFlow allows; what is proved is that all of it together is a run of TxFlow.
 */
module TxDriver {
  import opened TxFlow
  import TxLedger

  /** What the others try to do until the running call's next action, and what the
      environment contributes to that action. */
  datatype Slice = Slice(others: seq<Step>, own: In)

  datatype Outcome = Done | Failed | Aborted | Unfinished

  const QUIET := In(Writer, 0, 0, 1, false, false, false, true, false)

  predicate IsOwn(i: nat, a: Step) {
    a.Run? && a.i == i
  }

  /** What comes of the others' attempts: those that are possible happen, in order. */
  function Mixed(c: Config, i: nat, s: State, batch: seq<Step>): State {
    if batch == [] then s
    else
      var t, a := Mixed(c, i, s, batch[..|batch| - 1]), batch[|batch| - 1];
      if Enabled(t, a) && t.minSize >= 1 && !IsOwn(i, a) then Apply(c, t, a) else t
  }

  /** The others leave a call where it is. */
  ghost predicate Undisturbed(i: nat, s: State, t: State) {
    |t.thr| == |s.thr| && (i < |s.thr| ==> t.thr[i] == s.thr[i])
  }

  lemma OthersDoNotDisturb(c: Config, i: nat, s: State, a: Step)
    requires Enabled(s, a) && s.minSize >= 1 && !IsOwn(i, a)
    ensures Undisturbed(i, s, Apply(c, s, a))
  {
    if a.Run? {
      SharedKeepsCalls(s, a.i, s.thr[a.i], a.e);
    }
  }

  lemma SharedKeepsCalls(s: State, i: nat, t: Thr, e: In)
    ensures Shared(s, i, t, e).thr == s.thr
  {
  }

  lemma Extends(c: Config, n: nat, ss: seq<State>, es: seq<Step>, a: Step, t: State)
    requires IsRun(c, n, ss, es) && Moves(c, ss[|es|], a, t)
    ensures IsRun(c, n, ss + [t], es + [a]) && |ss| == |es| + 1
  {
    hide Moves;
    var ss', es' := ss + [t], es + [a];
    forall k | 0 <= k < |es'|
      ensures Moves(c, ss'[k], es'[k], ss'[k + 1])
    {
      assert k < |es| ==> Moves(c, ss[k], es[k], ss[k + 1]);
    }
  }

  /** Call `i` took the packets for its payload of `len` bytes at or after step `from`. */
  ghost predicate SpentIn(ss: seq<State>, es: seq<Step>, i: nat, len: nat, from: nat) {
    exists k: nat :: from <= k && Took(ss, es, i, len, k)
  }

  ghost predicate Took(ss: seq<State>, es: seq<Step>, i: nat, len: nat, k: nat) {
    && k < |es| < |ss| && es[k].Run? && es[k].i == i && i < |ss[k].thr|
    && var t := ss[k].thr[i];
       t.pc.TxTake? && t.len == len && t.size >= 1 && (t.kind.Writer? ==> t.alloc == Packets(len, t.size))
  }

  /** That stays so while the run goes on. */
  lemma StaysSpent(ss: seq<State>, es: seq<Step>, ss': seq<State>, es': seq<Step>, i: nat, len: nat,
                   from: nat)
    requires SpentIn(ss, es, i, len, from) && ss <= ss' && es <= es' && |es'| < |ss'|
    ensures SpentIn(ss', es', i, len, from)
  {
    var k: nat :| from <= k && Took(ss, es, i, len, k);
    assert Took(ss', es', i, len, k);
  }

  class Driver {
    const config: Config
    var txPoolCnt: int
    var minTxPayloadSize: nat
    var txLockObj: Owner
    var txSyncObj: bool
    var globalLock: Owner
    var restartRequired: bool
    var apiInProgressCnt: int
    var lockCntRequested: int
    var lockCntReleased: int
    var calls: seq<Thr>
    var refused: nat
    var strays: nat

    /** The scheduler's and the environment's choices. */
    var schedule: seq<Slice>
    var own: In

    /** What has happened so far. */
    ghost var ss: seq<State>
    ghost var es: seq<Step>

    constructor (config: Config, n: nat, choices: seq<Slice>)
      requires ConfigOk(config) && config.min < 256
      ensures Valid() && this.config == config && View() == Init(config, n) && schedule == choices && es == []
    {
      this.config := config;
      txPoolCnt, minTxPayloadSize := config.min, 1536;
      txLockObj, txSyncObj, globalLock, restartRequired := Nobody, false, Nobody, false;
      apiInProgressCnt, lockCntRequested, lockCntReleased := 0, 0, 0;
      calls, refused, strays := seq(n, _ => Thr(Writer, Idle, 0, 0, 1)), 0, 0;
      schedule, own := choices, QUIET;
      ss, es := [Init(config, n)], [];
    }

    function View(): State
      reads this
    {
      State(txPoolCnt, minTxPayloadSize, txLockObj, txSyncObj, globalLock, restartRequired,
            apiInProgressCnt, lockCntRequested, lockCntReleased, refused, strays, calls)
    }

    /** The history is a run of the machine that has come to `s`. */
    ghost predicate CameTo(s: State)
      reads this
    {
      ConfigOk(config) && config.min < 256 && InOk(own) && IsRun(config, |calls|, ss, es) && ss[|es|] == s
    }

    ghost predicate Valid()
      reads this
    {
      CameTo(View())
    }

    lemma ValidInv()
      requires Valid()
      ensures Inv(config, View()) && minTxPayloadSize >= 1
    {
      RunInv(config, |calls|, ss, es, |es|);
    }

    /** The books of what has happened balance: the credit is what the last message reported
        less the packets taken since, and so on. */
    ghost predicate Accounted()
      reads this
    {
      |ss| == |es| + 1 && TxLedger.Balanced(View(), TxLedger.Books(config, ss, es, |es|))
    }

    lemma ValidAccounted()
      requires Valid()
      ensures Accounted()
    {
      TxLedger.BooksBalance(config, |calls|, ss, es, |es|);
    }

    /** The run has gone on. */
    twostate predicate Onward()
      reads this
    {
      old(ss) <= ss && old(es) <= es && |calls| == old(|calls|) && |schedule| <= old(|schedule|)
    }

    /** It is still the same call, for the same payload. */
    twostate predicate SameCall(i: nat)
      reads this
    {
      && i < |calls| && i < old(|calls|)
      && calls[i].kind == old(calls[i].kind) && calls[i].len == old(calls[i].len)
    }

    // ---------------------------------------------------------------- the others

    method Store(t: State)
      modifies this
      ensures View() == t && ss == old(ss) && es == old(es) && schedule == old(schedule) && own == old(own)
    {
      StoreCredit(t);
      StoreCounters(t);
    }

    method StoreCredit(t: State)
      modifies this`txPoolCnt, this`minTxPayloadSize, this`txLockObj, this`txSyncObj, this`globalLock,
        this`restartRequired
      ensures txPoolCnt == t.pool && minTxPayloadSize == t.minSize && txLockObj == t.tx && txSyncObj == t.txSync
      ensures globalLock == t.g && restartRequired == t.restart
    {
      txPoolCnt, minTxPayloadSize, txLockObj, txSyncObj, globalLock, restartRequired :=
        t.pool, t.minSize, t.tx, t.txSync, t.g, t.restart;
    }

    method StoreCounters(t: State)
      modifies this`apiInProgressCnt, this`lockCntRequested, this`lockCntReleased, this`refused, this`strays,
        this`calls
      ensures apiInProgressCnt == t.api && lockCntRequested == t.req && lockCntReleased == t.rel
      ensures refused == t.refused && strays == t.strays && calls == t.thr
    {
      apiInProgressCnt, lockCntRequested, lockCntReleased, refused, strays, calls :=
        t.api, t.req, t.rel, t.refused, t.strays, t.thr;
    }

    /** A step of another call, or a fatal error. */
    method Take(i: nat, a: Step)
      requires Valid() && Enabled(View(), a) && !IsOwn(i, a)
      modifies this
      ensures Valid() && Onward() && schedule == old(schedule) && Undisturbed(i, old(View()), View())
      ensures old(View()).minSize >= 1 && View() == Apply(config, old(View()), a)
    {
      hide Enabled, Apply, IsRun, Inv;
      ValidInv();
      OthersDoNotDisturb(config, i, View(), a);
      var t := Apply(config, View(), a);
      Extends(config, |calls|, ss, es, a, t);
      Store(t);
      ss, es := ss + [t], es + [a];
    }

    /** Until the next action of call `i`. */
    method Others(i: nat)
      requires Valid()
      modifies this
      ensures Valid() && Onward() && (old(schedule) != [] ==> |schedule| < old(|schedule|))
      ensures View() ==
        if old(schedule) == [] then old(View()) else Mixed(config, i, old(View()), old(schedule)[0].others)
      ensures Undisturbed(i, old(View()), View())
    {
      hide Enabled, Apply, IsRun, Inv;
      if schedule == [] {
        return;
      }
      var batch := schedule[0].others;
      if InOk(schedule[0].own) {
        own := schedule[0].own;
      }
      schedule := schedule[1..];
      for k := 0 to |batch|
        invariant Valid() && Onward() && schedule == old(schedule)[1..]
        invariant Undisturbed(i, old(View()), View())
        invariant View() == Mixed(config, i, old(View()), batch[..k])
      {
        assert batch[..k + 1][..k] == batch[..k];
        ValidInv();
        if Enabled(View(), batch[k]) && !IsOwn(i, batch[k]) {
          Take(i, batch[k]);
        }
      }
      assert batch[..|batch|] == batch;
    }

    // ---------------------------------------------------------------- the running call

    ghost predicate At(i: nat, pc: Pc)
      reads this
    {
      i < |calls| && calls[i].pc == pc
    }

    /** Records an action of call `i` that has been done, as step `e`. */
    method Record(i: nat, t: Thr, e: In, ghost was: State)
      requires CameTo(was) && Enabled(was, Run(i, e)) && was.minSize >= 1 && calls == was.thr
      requires View() == Shared(was, i, calls[i], e)
      requires t == Own(was, calls[i], e).(pc := Next(config, was, calls[i], e))
      modifies this`calls, this`ss, this`es
      ensures Valid() && calls == old(calls)[i := t] && old(ss) <= ss && old(es) + [Run(i, e)] == es
    {
      hide Shared, Own, Next, IsRun;
      calls := calls[i := t];
      ss, es := ss + [View()], es + [Run(i, e)];
      assert View() == Apply(config, was, Run(i, e));
      Extends(config, |calls|, old(ss), old(es), Run(i, e), View());
    }

    /** ... and lets the others go on. */
    method Acted(i: nat, t: Thr, e: In, ghost was: State)
      requires i < |calls|
      requires CameTo(was) && Enabled(was, Run(i, e)) && was.minSize >= 1 && calls == was.thr
      requires View() == Shared(was, i, calls[i], e)
      requires t == Own(was, calls[i], e).(pc := Next(config, was, calls[i], e))
      modifies this
      ensures Valid() && Onward() && i < |calls| && calls[i] == t && old(es) + [Run(i, e)] <= es
      ensures old(schedule) != [] ==> |schedule| < old(|schedule|)
    {
      hide Shared, Own, Next, IsRun, Inv, Enabled;
      Record(i, t, e, was);
      Others(i);
    }

    /** The same, where the call only moves on. */
    method Go(i: nat, q: Pc, ghost was: State)
      requires i < |calls| && !calls[i].pc.Idle? && !calls[i].pc.TxAlloc?
      requires CameTo(was) && Enabled(was, Run(i, own)) && was.minSize >= 1 && calls == was.thr
      requires View() == Shared(was, i, calls[i], own) && q == Next(config, was, calls[i], own)
      modifies this
      ensures Valid() && Onward() && At(i, q) && calls[i] == old(calls[i]).(pc := q)
      ensures old(es) < es && es[|old(es)|] == Run(i, old(own))
      ensures old(schedule) != [] ==> |schedule| < old(|schedule|)
    {
      hide Shared, Next, IsRun, Inv, Enabled;
      Acted(i, calls[i].(pc := q), own, was);
      assert es[|old(es)|] == Run(i, old(own));
    }

    /** Where a test leads. */
    predicate Leads(t: Thr, q: Pc)
      reads this
    {
      match t.pc
      case TxCheck =>
        if !t.kind.Writer? then q == (if txPoolCnt <= config.min then TxWait else ReqG)
        else if txPoolCnt <= config.min + t.alloc then q == (if own.nonBlocking then TxQuit else TxWait)
        else q == TxRecheck
      case TxRecheck => q == if txPoolCnt > config.min + t.alloc then ReqG else TxBack
      case GRestart =>
        if restartRequired then q == (if Transmits(t.kind) then GQuit else GUnlock)
        else q == if Transmits(t.kind) then TxVerify else Write
      case TxVerify => q == if txPoolCnt > Floor(config, t) then TxTake else AbortBoth
      case Write => q == if t.kind.Commander? && own.ok then Loop else GUnlock
      case Loop => q == if own.ok then RSet else GUnlock
      case RCount => q == if txPoolCnt > config.min && !txSyncObj then RSignal else RDone
      case RDone =>
        if own.ok then q == (if t.kind.Spawner? then GUnlock else Loop)
        else q == if t.kind.Spawner? then Stray else GUnlock
      case ObjWait => q == ObjDec
      case _ => false
    }

    /** A test: nothing changes but the place. */
    method Pass(i: nat, q: Pc)
      requires Valid() && i < |calls| && Leads(calls[i], q)
      modifies this
      ensures Valid() && Onward() && At(i, q) && calls[i] == old(calls[i]).(pc := q)
      ensures old(schedule) != [] ==> |schedule| < old(|schedule|)
    {
      hide IsRun, Floor, Inv;
      ValidInv();
      Go(i, q, View());
    }

    /** A call comes in. A data read may find no pool object. */
    method Begin(i: nat, kind: Kind, len: nat, ok: bool)
      requires Valid() && At(i, Idle)
      modifies this
      ensures Valid() && Onward() && i < |calls| && calls[i].kind == kind && calls[i].len == len
      ensures At(i, if kind.Writer? then WantTx else if !kind.Reader? then ReqG else if ok then ObjInc else Idle)
    {
      hide IsRun, Inv;
      ValidInv();
      var e := own.(kind := kind, len := len, ok := ok);
      var q := if kind.Writer? then WantTx else if !kind.Reader? then ReqG else if ok then ObjInc else Idle;
      Acted(i, calls[i].(kind := kind, len := len, pc := q), e, View());
    }

    // ---------------------------------------------------------------- the transmit lock and the credit

    method LockTx(i: nat) returns (locked: bool)
      requires Valid() && At(i, WantTx)
      modifies this
      ensures Valid() && Onward() && (locked ==> At(i, TxClear) && SameCall(i))
      ensures !locked ==> schedule == []
    {
      hide IsRun, Inv;
      while !txLockObj.Nobody?
        invariant Valid() && Onward() && At(i, WantTx) && calls[i] == old(calls[i])
        decreases |schedule|
      {
        if schedule == [] {
          return false;
        }
        Others(i);
      }
      ValidInv();
      ghost var was := View();
      txLockObj := By(i);
      Go(i, TxClear, was);
      locked := true;
    }

    method UnlockTx(i: nat, q: Pc)
      requires Valid()
      requires (At(i, TxBack) && q.WantTx?) || (At(i, TxQuit) && q.Idle?) || (At(i, TxUnlock) && q.Write?)
      modifies this
      ensures Valid() && Onward() && At(i, q) && SameCall(i)
    {
      hide IsRun, Inv;
      ValidInv();
      ghost var was := View();
      txLockObj := Nobody;
      Go(i, q, was);
    }

    /** An old signal of credit is cleared. */
    method ClearCredit(i: nat)
      requires Valid() && At(i, TxClear)
      modifies this
      ensures Valid() && Onward() && At(i, if calls[i].kind.Writer? then TxAlloc else TxCheck)
      ensures SameCall(i)
    {
      hide IsRun, Inv;
      ValidInv();
      ghost var was := View();
      txSyncObj := false;
      Go(i, if calls[i].kind.Writer? then TxAlloc else TxCheck, was);
    }

    /** The packets the payload needs; and whether the socket's last transmission failed. */
    method Reserve(i: nat) returns (failed: bool)
      requires Valid() && At(i, TxAlloc) && calls[i].kind.Writer?
      modifies this
      ensures Valid() && Onward() && SameCall(i) && At(i, if failed then TxQuit else TxCheck)
    {
      hide IsRun, Inv, Packets;
      ValidInv();
      failed := own.txFail;
      var t := calls[i].(alloc := Packets(calls[i].len, minTxPayloadSize), size := minTxPayloadSize);
      Acted(i, t.(pc := if failed then TxQuit else TxCheck), own, View());
    }

    /** sl_SyncObjWait on the signal of credit; a timeout is a fatal error. */
    method WaitForCredit(i: nat) returns (o: Outcome)
      requires Valid() && At(i, TxWait)
      modifies this
      ensures Valid() && Onward() && !o.Failed?
      ensures o.Done? ==> At(i, if calls[i].kind.Writer? then TxRecheck else ReqG) && SameCall(i)
      ensures o.Aborted? ==> At(i, AbortTx)
      ensures o.Unfinished? ==> schedule == []
    {
      hide IsRun, Inv;
      while !txSyncObj && !own.timeout
        invariant Valid() && Onward() && At(i, TxWait) && calls[i] == old(calls[i])
        decreases |schedule|
      {
        if schedule == [] {
          return Unfinished;
        }
        Others(i);
      }
      if txSyncObj && !restartRequired {
        TakeSignal(i, if calls[i].kind.Writer? then TxRecheck else ReqG);
        o := Done;
      } else {
        TakeSignal(i, AbortTx);
        o := Aborted;
      }
    }

    method TakeSignal(i: nat, q: Pc)
      requires Valid() && At(i, TxWait) && (txSyncObj || own.timeout)
      requires q == if !txSyncObj || restartRequired then AbortTx else if calls[i].kind.Writer? then TxRecheck else ReqG
      modifies this
      ensures Valid() && Onward() && At(i, q) && SameCall(i)
    {
      hide IsRun, Inv;
      ValidInv();
      ghost var was := View();
      if txSyncObj {
        txSyncObj := false;
      } else {
        restartRequired := true;
      }
      Go(i, q, was);
    }

    /** The loop of _SlDrvDataWriteOp: it is left with the transmit lock held and the credit
        seen, or not at all. */
    method ReserveCredit(i: nat) returns (o: Outcome)
      requires Valid() && At(i, WantTx) && calls[i].kind.Writer?
      modifies this
      ensures Valid() && Onward()
      ensures o.Done? ==> At(i, ReqG) && SameCall(i)
      ensures o.Failed? ==> At(i, Idle)
      ensures o.Aborted? ==> At(i, AbortTx)
      ensures o.Unfinished? ==> schedule == []
    {
      hide IsRun, CameTo, View;
      while true
        invariant Valid() && Onward() && At(i, WantTx) && calls[i].kind.Writer? && SameCall(i)
        decreases |schedule|
      {
        if schedule == [] {
          return Unfinished;
        }
        o := TryReserve(i);
        if !o.Done? {
          return;
        }
        if txPoolCnt > config.min + calls[i].alloc {
          Pass(i, ReqG);
          return;
        }
        Pass(i, TxBack);
        UnlockTx(i, WantTx);
      }
    }

    /** One turn of it, up to the second look at the credit. */
    method TryReserve(i: nat) returns (o: Outcome)
      requires Valid() && At(i, WantTx) && calls[i].kind.Writer?
      modifies this
      ensures Valid() && Onward()
      ensures o.Done? ==> At(i, TxRecheck) && SameCall(i)
      ensures o.Failed? ==> At(i, Idle)
      ensures o.Aborted? ==> At(i, AbortTx)
      ensures o.Unfinished? ==> schedule == []
    {
      hide IsRun, CameTo, View;
      var locked := LockTx(i);
      if !locked {
        return Unfinished;
      }
      o := ReserveLocked(i);
      if o.Done? {
        o := LookAtCredit(i);
      }
    }

    /** Under the transmit lock: old signals cleared, the packets computed. */
    method ReserveLocked(i: nat) returns (o: Outcome)
      requires Valid() && At(i, TxClear) && calls[i].kind.Writer?
      modifies this
      ensures Valid() && Onward() && (o.Done? || o.Failed?)
      ensures if o.Done? then At(i, TxCheck) && SameCall(i) else At(i, Idle)
    {
      hide IsRun, CameTo, View;
      ClearCredit(i);
      var failed := Reserve(i);
      if failed {
        UnlockTx(i, Idle);
      }
      o := if failed then Failed else Done;
    }

    /** The first look: enough, or wait for it, or give up on a non-blocking socket. */
    method LookAtCredit(i: nat) returns (o: Outcome)
      requires Valid() && At(i, TxCheck) && calls[i].kind.Writer?
      modifies this
      ensures Valid() && Onward()
      ensures o.Done? ==> At(i, TxRecheck) && SameCall(i)
      ensures o.Failed? ==> At(i, Idle)
      ensures o.Aborted? ==> At(i, AbortTx)
      ensures o.Unfinished? ==> schedule == []
    {
      hide IsRun, CameTo, View;
      if txPoolCnt > config.min + calls[i].alloc {
        Pass(i, TxRecheck);
        o := Done;
      } else if own.nonBlocking {
        Pass(i, TxQuit);
        UnlockTx(i, Idle);
        o := Failed;
      } else {
        Pass(i, TxWait);
        o := WaitForCredit(i);
      }
    }

    // ---------------------------------------------------------------- the global lock and the counters

    /** The request is refused at once after a fatal error. */
    method RequestGlobal(i: nat) returns (o: Outcome)
      requires Valid() && At(i, ReqG)
      modifies this
      ensures Valid() && Onward() && SameCall(i)
      ensures o.Done? ==> At(i, GAllow)
      ensures o.Failed? ==> At(i, Idle) && !Transmits(calls[i].kind)
      ensures o.Aborted? ==> At(i, AbortTx) && Transmits(calls[i].kind)
      ensures o.Unfinished? ==> schedule == []
    {
      hide IsRun, Inv;
      ValidInv();
      if restartRequired {
        o := if Transmits(calls[i].kind) then Aborted else Failed;
        Go(i, if Transmits(calls[i].kind) then AbortTx else Idle, View());
      } else {
        CountRequest(i);
        var locked := LockGlobal(i);
        o := if locked then Done else Unfinished;
      }
    }

    method CountRequest(i: nat)
      requires Valid() && At(i, ReqG) && !restartRequired
      modifies this
      ensures Valid() && Onward() && At(i, WantG) && SameCall(i)
    {
      hide IsRun, Inv;
      ValidInv();
      ghost var was := View();
      lockCntRequested := lockCntRequested + 1;
      Go(i, WantG, was);
    }

    method LockGlobal(i: nat) returns (locked: bool)
      requires Valid() && At(i, WantG)
      modifies this
      ensures Valid() && Onward() && SameCall(i) && (locked ==> At(i, GAllow))
      ensures !locked ==> schedule == []
    {
      hide IsRun, Inv;
      while !globalLock.Nobody?
        invariant Valid() && Onward() && At(i, WantG) && calls[i] == old(calls[i])
        decreases |schedule|
      {
        if schedule == [] {
          return false;
        }
        Others(i);
      }
      ValidInv();
      ghost var was := View();
      globalLock := By(i);
      Go(i, GAllow, was);
      locked := true;
    }

    /** The lock is given back at once if the call is not allowed. */
    method CheckAllowed(i: nat) returns (o: Outcome)
      requires Valid() && At(i, GAllow)
      modifies this
      ensures Valid() && Onward() && SameCall(i) && !o.Unfinished?
      ensures o.Done? ==> At(i, if !calls[i].kind.Spawner? then GInc else if old(own).ok then RSet else GUnlock)
      ensures o.Failed? ==> At(i, Idle) && !Transmits(calls[i].kind)
      ensures o.Aborted? ==> At(i, AbortTx) && Transmits(calls[i].kind)
    {
      hide IsRun, Inv;
      ValidInv();
      ghost var was := View();
      if own.refuse {
        o := if Transmits(calls[i].kind) then Aborted else Failed;
        globalLock := Nobody;
        refused := refused + 1;
        Go(i, if Transmits(calls[i].kind) then AbortTx else Idle, was);
      } else {
        o := Done;
        Go(i, if !calls[i].kind.Spawner? then GInc else if own.ok then RSet else GUnlock, was);
      }
    }

    /** _SlDrvUpdateApiInProgress. */
    method UpdateApiInProgress(i: nat, value: int, q: Pc)
      requires Valid() && i < |calls|
      requires || (value == 1 && At(i, GInc) && q.GRestart?)
               || (value == 1 && At(i, ObjInc) && q.WantTx?)
               || (value == -1 && At(i, GDec) && q == if calls[i].kind.Reader? then ObjWait else Idle)
               || (value == -1 && At(i, GQuitDec) && q.AbortTx?)
               || (value == -1 && At(i, ObjDec) && q.Idle?)
      modifies this
      ensures Valid() && Onward() && At(i, q) && SameCall(i)
    {
      hide IsRun, Inv;
      ValidInv();
      ghost var was := View();
      apiInProgressCnt := apiInProgressCnt + value;
      Go(i, q, was);
    }

    /** _SlDrvGlobalObjUnLock: the counter of releases and the lock, and then the count of
        calls. */
    method UnlockGlobal(i: nat, q: Pc)
      requires Valid() && i < |calls|
      requires || (At(i, GUnlock) && q == if calls[i].kind.Spawner? then Idle else GDec)
               || (At(i, GQuit) && q.GQuitDec?)
               || (At(i, Stray) && q.StrayDec?)
      modifies this
      ensures Valid() && Onward() && At(i, q) && SameCall(i)
    {
      hide IsRun, Inv;
      ValidInv();
      ghost var was := View();
      lockCntReleased := lockCntReleased + 1;
      globalLock := Nobody;
      Go(i, q, was);
    }

    method UnlockAndCount(i: nat)
      requires Valid() && At(i, GUnlock) && !calls[i].kind.Spawner?
      modifies this
      ensures Valid() && Onward() && At(i, if calls[i].kind.Reader? then ObjWait else Idle)
      ensures SameCall(i)
    {
      hide IsRun, CameTo, View;
      UnlockGlobal(i, GDec);
      UpdateApiInProgress(i, -1, if calls[i].kind.Reader? then ObjWait else Idle);
    }

    /** The lock taken for a call, and the test for a fatal error in the meantime. */
    method LockForApi(i: nat) returns (o: Outcome)
      requires Valid() && At(i, ReqG) && !calls[i].kind.Spawner?
      modifies this
      ensures Valid() && Onward() && SameCall(i)
      ensures o.Done? ==> At(i, if Transmits(calls[i].kind) then TxVerify else Write)
      ensures o.Failed? ==> At(i, Idle) && !Transmits(calls[i].kind)
      ensures o.Aborted? ==> At(i, AbortTx) && Transmits(calls[i].kind)
      ensures o.Unfinished? ==> schedule == []
    {
      hide IsRun, CameTo, View;
      o := RequestGlobal(i);
      if o.Done? {
        o := CheckAllowed(i);
      }
      if o.Done? {
        UpdateApiInProgress(i, 1, GRestart);
        o := CheckRestart(i);
      }
    }

    method CheckRestart(i: nat) returns (o: Outcome)
      requires Valid() && At(i, GRestart) && !calls[i].kind.Spawner?
      modifies this
      ensures Valid() && Onward() && SameCall(i) && !o.Unfinished?
      ensures o.Done? ==> At(i, if Transmits(calls[i].kind) then TxVerify else Write)
      ensures o.Failed? ==> At(i, Idle) && !Transmits(calls[i].kind)
      ensures o.Aborted? ==> At(i, AbortTx) && Transmits(calls[i].kind)
    {
      hide IsRun, CameTo, View;
      if !restartRequired {
        Pass(i, if Transmits(calls[i].kind) then TxVerify else Write);
        o := Done;
      } else if Transmits(calls[i].kind) {
        Quit(i);
        o := Aborted;
      } else {
        Pass(i, GUnlock);
        UnlockAndCount(i);
        o := Failed;
      }
    }

    /** An abort gives the global lock back, and keeps the transmit lock. */
    method Quit(i: nat)
      requires Valid() && At(i, GRestart) && restartRequired && Transmits(calls[i].kind)
      modifies this
      ensures Valid() && Onward() && At(i, AbortTx) && SameCall(i)
    {
      hide IsRun, CameTo, View;
      Pass(i, GQuit);
      UnlockGlobal(i, GQuitDec);
      UpdateApiInProgress(i, -1, AbortTx);
    }

    // ---------------------------------------------------------------- a message written, a message read

    /** The call `i` has taken the packets for `len` bytes at or after step `from`. */
    ghost predicate Spent(i: nat, len: nat, from: nat)
      reads this
    {
      SpentIn(ss, es, i, len, from)
    }

    /** The credit is looked at once more, under both locks, and taken. */
    method Spend(i: nat, ghost from: nat) returns (o: Outcome)
      requires from <= |es| && Valid() && At(i, TxVerify) && Transmits(calls[i].kind)
      modifies this
      ensures Valid() && Onward() && SameCall(i)
      ensures (o.Done? && At(i, Write) && Spent(i, old(calls[i].len), from)) || (o.Aborted? && At(i, AbortBoth))
    {
      hide IsRun, CameTo, View, Floor, SpentIn;
      if txPoolCnt > Floor(config, calls[i]) {
        Pass(i, TxTake);
        TakePackets(i, from);
        o := Done;
      } else {
        Pass(i, AbortBoth);
        o := Aborted;
      }
    }

    method TakePackets(i: nat, ghost from: nat)
      requires from <= |es| && Valid() && At(i, TxTake)
      modifies this
      ensures Valid() && Onward() && At(i, Write) && SameCall(i) && Spent(i, old(calls[i].len), from)
    {
      hide IsRun, CameTo, View, SpentIn;
      LowerCredit(i, from);
      ghost var ss0, es0 := ss, es;
      UnlockTx(i, Write);
      ValidShape();
      StaysSpent(ss0, es0, ss, es, i, calls[i].len, from);
    }

    method LowerCredit(i: nat, ghost from: nat)
      requires from <= |es| && Valid() && At(i, TxTake)
      modifies this
      ensures Valid() && Onward() && At(i, TxUnlock) && SameCall(i) && Spent(i, old(calls[i].len), from)
    {
      hide IsRun, Inv;
      ValidInv();
      ghost var was := View();
      OwnFacts(config, was, i);
      ValidShape();
      txPoolCnt := txPoolCnt - U8(Taken(calls[i]));
      Go(i, TxUnlock, was);
      ValidShape();
      assert ss[|old(es)|] == was;
      assert Took(ss, es, i, old(calls[i].len), |old(es)|);
    }

    /** The flow control half of _SlDrvMsgRead. */
    method MsgRead(i: nat)
      requires Valid() && At(i, RSet)
      modifies this
      ensures Valid() && Onward() && At(i, RDone) && SameCall(i)
    {
      hide IsRun, CameTo, View;
      UpdateCredit(i);
      if txPoolCnt > config.min && !txSyncObj {
        Pass(i, RSignal);
        SignalCredit(i);
      } else {
        Pass(i, RDone);
      }
    }

    method UpdateCredit(i: nat)
      requires Valid() && At(i, RSet)
      modifies this
      ensures Valid() && Onward() && At(i, RCount) && SameCall(i)
    {
      hide IsRun, Inv;
      ValidInv();
      ghost var was := View();
      txPoolCnt, minTxPayloadSize := own.pool, own.minSize;
      Go(i, RCount, was);
    }

    method SignalCredit(i: nat)
      requires Valid() && At(i, RSignal)
      modifies this
      ensures Valid() && Onward() && At(i, RDone) && SameCall(i)
    {
      hide IsRun, Inv;
      ValidInv();
      ghost var was := View();
      txSyncObj := true;
      Go(i, RDone, was);
    }

    // ---------------------------------------------------------------- the calls

    /** _SlDrvDataWriteOp. Whatever the schedule does to it, what happens is a run of the
        machine; a success has taken its packets, and an abort keeps the transmit lock. */
    method DataWriteOp(i: nat, len: nat) returns (o: Outcome)
      requires Valid() && At(i, Idle)
      modifies this
      ensures Valid() && Onward()
      ensures o.Done? ==> At(i, Idle) && Spent(i, len, |old(es)|)
      ensures o.Failed? ==> At(i, Idle)
      ensures o.Aborted? ==> At(i, AbortTx) || At(i, AbortBoth)
      ensures o.Unfinished? ==> schedule == []
      ensures Accounted()
    {
      hide IsRun, CameTo, View, SpentIn;
      ghost var from := |es|;
      Begin(i, Writer, len, true);
      o := ReserveCredit(i);
      if o.Done? {
        o := Transmit(i, from);
      }
      ValidAccounted();
    }

    /** What data writes and reads do once they hold the transmit lock over enough credit. */
    method Transmit(i: nat, ghost from: nat) returns (o: Outcome)
      requires from <= |es| && Valid() && At(i, ReqG) && Transmits(calls[i].kind)
      modifies this
      ensures Valid() && Onward() && SameCall(i) && !o.Failed?
      ensures o.Done? ==> At(i, if calls[i].kind.Reader? then ObjWait else Idle) && Spent(i, old(calls[i].len), from)
      ensures o.Aborted? ==> At(i, AbortTx) || At(i, AbortBoth)
      ensures o.Unfinished? ==> schedule == []
    {
      hide IsRun, CameTo, View, SpentIn;
      o := LockAndSpend(i, from);
      if o.Done? {
        ghost var ss0, es0 := ss, es;
        FinishWrite(i);
        ValidShape();
        StaysSpent(ss0, es0, ss, es, i, calls[i].len, from);
      }
    }

    method LockAndSpend(i: nat, ghost from: nat) returns (o: Outcome)
      requires from <= |es| && Valid() && At(i, ReqG) && Transmits(calls[i].kind)
      modifies this
      ensures Valid() && Onward() && SameCall(i) && !o.Failed?
      ensures o.Done? ==> At(i, Write) && Spent(i, old(calls[i].len), from)
      ensures o.Aborted? ==> At(i, AbortTx) || At(i, AbortBoth)
      ensures o.Unfinished? ==> schedule == []
    {
      hide IsRun, CameTo, View, SpentIn;
      o := LockForApi(i);
      if o.Done? {
        o := Spend(i, from);
      }
    }

    method FinishWrite(i: nat)
      requires Valid() && At(i, Write) && Transmits(calls[i].kind)
      modifies this
      ensures Valid() && Onward() && At(i, if calls[i].kind.Reader? then ObjWait else Idle)
      ensures SameCall(i)
    {
      hide IsRun, CameTo, View;
      Pass(i, GUnlock);
      UnlockAndCount(i);
    }

    lemma ValidShape()
      requires Valid()
      ensures |ss| == |es| + 1
    {
    }

    /** _SlDrvDataReadOp. */
    method DataReadOp(i: nat, hasObject: bool) returns (o: Outcome)
      requires Valid() && At(i, Idle)
      modifies this
      ensures Valid() && Onward()
      ensures o.Done? ==> At(i, Idle) && Spent(i, 0, |old(es)|)
      ensures o.Failed? ==> At(i, Idle) && !hasObject
      ensures o.Aborted? ==> At(i, AbortTx) || At(i, AbortBoth)
      ensures o.Unfinished? ==> schedule == []
      ensures Accounted()
    {
      hide IsRun, CameTo, View, SpentIn;
      ghost var from := |es|;
      Begin(i, Reader, 0, hasObject);
      if !hasObject {
        ValidAccounted();
        return Failed;
      }
      o := RequestData(i, from);
      if o.Done? {
        ghost var ss0, es0 := ss, es;
        ReleaseObject(i);
        ValidShape();
        StaysSpent(ss0, es0, ss, es, i, 0, from);
      }
      ValidAccounted();
    }

    method RequestData(i: nat, ghost from: nat) returns (o: Outcome)
      requires from <= |es| && Valid() && At(i, ObjInc) && calls[i].kind.Reader?
      modifies this
      ensures Valid() && Onward() && !o.Failed?
      ensures o.Done? ==> At(i, ObjWait) && Spent(i, old(calls[i].len), from)
      ensures o.Aborted? ==> At(i, AbortTx) || At(i, AbortBoth)
      ensures o.Unfinished? ==> schedule == []
    {
      hide IsRun, CameTo, View, SpentIn;
      UpdateApiInProgress(i, 1, WantTx);
      o := AwaitCredit(i);
      if o.Done? {
        o := Transmit(i, from);
      }
    }

    /** The answer has come, or will not; the pool object is given back. */
    method ReleaseObject(i: nat)
      requires Valid() && At(i, ObjWait)
      modifies this
      ensures Valid() && Onward() && At(i, Idle)
    {
      hide IsRun, CameTo, View;
      Pass(i, ObjDec);
      UpdateApiInProgress(i, -1, Idle);
    }

    /** A read looks at the credit once. */
    method AwaitCredit(i: nat) returns (o: Outcome)
      requires Valid() && At(i, WantTx) && calls[i].kind.Reader?
      modifies this
      ensures Valid() && Onward() && !o.Failed?
      ensures o.Done? ==> At(i, ReqG) && SameCall(i)
      ensures o.Aborted? ==> At(i, AbortTx)
      ensures o.Unfinished? ==> schedule == []
    {
      hide IsRun, CameTo, View;
      var locked := LockTx(i);
      if !locked {
        return Unfinished;
      }
      ClearCredit(i);
      if txPoolCnt <= config.min {
        Pass(i, TxWait);
        o := WaitForCredit(i);
      } else {
        Pass(i, ReqG);
        o := Done;
      }
    }

    /** _SlDrvCmdOp with its read loop. */
    method CmdOp(i: nat) returns (o: Outcome)
      requires Valid() && At(i, Idle)
      modifies this
      ensures Valid() && Onward() && !o.Aborted?
      ensures !o.Unfinished? ==> At(i, Idle)
      ensures o.Unfinished? ==> schedule == []
      ensures Accounted()
    {
      hide IsRun, CameTo, View;
      Begin(i, Commander, 0, true);
      o := LockForApi(i);
      if !o.Done? {
        ValidAccounted();
        return;
      }
      o := WriteAndRead(i);
      if !o.Unfinished? {
        UnlockAndCount(i);
      }
      ValidAccounted();
    }

    /** The command is written and, unless that failed, messages are read until its answer. */
    method WriteAndRead(i: nat) returns (o: Outcome)
      requires Valid() && At(i, Write) && calls[i].kind.Commander?
      modifies this
      ensures Valid() && Onward() && !o.Aborted?
      ensures !o.Unfinished? ==> At(i, GUnlock) && calls[i].kind.Commander?
      ensures o.Unfinished? ==> schedule == []
    {
      hide IsRun, CameTo, View;
      if own.ok {
        Pass(i, Loop);
        o := ReadMessages(i);
      } else {
        Pass(i, GUnlock);
        o := Failed;
      }
    }

    method ReadMessages(i: nat) returns (o: Outcome)
      requires Valid() && At(i, Loop) && calls[i].kind.Commander?
      modifies this
      ensures Valid() && Onward() && !o.Aborted?
      ensures !o.Unfinished? ==> At(i, GUnlock) && calls[i].kind.Commander?
      ensures o.Unfinished? ==> schedule == []
    {
      hide IsRun, CameTo, View;
      while own.ok
        invariant Valid() && Onward() && At(i, Loop) && calls[i].kind.Commander?
        decreases |schedule|
      {
        if schedule == [] {
          return Unfinished;
        }
        o := ReadOne(i);
        if o.Failed? {
          return;
        }
      }
      Pass(i, GUnlock);
      o := Done;
    }

    method ReadOne(i: nat) returns (o: Outcome)
      requires Valid() && At(i, Loop) && calls[i].kind.Commander? && own.ok
      modifies this
      ensures Valid() && Onward() && SameCall(i) && (o.Done? || o.Failed?)
      ensures At(i, if o.Done? then Loop else GUnlock)
      ensures old(schedule) != [] ==> |schedule| < old(|schedule|)
    {
      hide IsRun, CameTo, View;
      Pass(i, RSet);
      MsgRead(i);
      o := if own.ok then Done else Failed;
      Pass(i, if own.ok then Loop else GUnlock);
    }

    /** The spawn thread's lock, and whether a message is pending. */
    method LockForSpawn(i: nat) returns (o: Outcome, pending: bool)
      requires Valid() && At(i, ReqG) && calls[i].kind.Spawner?
      modifies this
      ensures Valid() && Onward() && SameCall(i) && !o.Aborted?
      ensures o.Done? ==> At(i, if pending then RSet else GUnlock)
      ensures o.Failed? ==> At(i, Idle)
      ensures o.Unfinished? ==> schedule == []
    {
      hide IsRun, CameTo, View;
      o := RequestGlobal(i);
      pending := own.ok;
      if o.Done? {
        o := CheckAllowed(i);
      }
    }

    /** _SlDrvMsgReadSpawnCtx. A message for a socket nobody waits on takes the abort exit,
        which takes one off the count of calls. */
    method MsgReadSpawnCtx(i: nat) returns (o: Outcome)
      requires Valid() && At(i, Idle)
      modifies this
      ensures Valid() && Onward()
      ensures !o.Unfinished? ==> At(i, Idle)
      ensures o.Unfinished? ==> schedule == []
      ensures Accounted()
    {
      hide IsRun, CameTo, View;
      Begin(i, Spawner, 0, true);
      var pending;
      o, pending := LockForSpawn(i);
      if o.Done? {
        o := FinishSpawn(i, pending);
      }
      ValidAccounted();
    }

    method FinishSpawn(i: nat, pending: bool) returns (o: Outcome)
      requires Valid() && At(i, if pending then RSet else GUnlock) && calls[i].kind.Spawner?
      modifies this
      ensures Valid() && Onward() && At(i, Idle) && !o.Unfinished?
    {
      hide IsRun, CameTo, View;
      if pending {
        o := ReadForSpawn(i);
      } else {
        UnlockGlobal(i, Idle);
        o := Done;
      }
    }

    method ReadForSpawn(i: nat) returns (o: Outcome)
      requires Valid() && At(i, RSet) && calls[i].kind.Spawner?
      modifies this
      ensures Valid() && Onward() && At(i, Idle) && !o.Unfinished?
    {
      hide IsRun, CameTo, View;
      MsgRead(i);
      if own.ok {
        Pass(i, GUnlock);
        UnlockGlobal(i, Idle);
        o := Done;
      } else {
        Pass(i, Stray);
        UnlockGlobal(i, StrayDec);
        CountStray(i);
        o := Aborted;
      }
    }

    method CountStray(i: nat)
      requires Valid() && At(i, StrayDec)
      modifies this
      ensures Valid() && Onward() && At(i, Idle)
    {
      hide IsRun, Inv;
      ValidInv();
      ghost var was := View();
      apiInProgressCnt := apiInProgressCnt - 1;
      strays := strays + 1;
      Go(i, Idle, was);
    }
  }
}
