/**
 The control blocks of driver.c and spawn.c that the receive protocol shares, updated in
 place by the code that runs on them: the interrupt handler, a command with its read loop,
 and the spawn thread's wait with its two loops. Between two atomic actions of the code that
 runs, anything the protocol allows the others may happen. What is proved is that all of it
 together is a run of RxProtocol, so that what holds of every run holds of this code.
 */
module RxDriver {
  import opened RxProtocol
  import opened RxSafety
  import opened RxLedger

  /** What the other threads and the interrupt try to do until the running code's next
      action, and the class of the message if it reads one. */
  datatype Slice = Slice(others: seq<Step>, cls: MsgClass)

  /** A step of the thread that runs. */
  predicate Own(self: Owner, e: Step) {
    match e
    case Interrupt => false
    case Cmd(i, _, _) => self == ByCmd(i)
    case Spawn => self.BySpawn?
  }

  /** What comes of the others' attempts: those that are possible happen, in order. */
  function Mixed(self: Owner, s: Rx, batch: seq<Step>): Rx {
    if batch == [] then s
    else
      var t, e := Mixed(self, s, batch[..|batch| - 1]), batch[|batch| - 1];
      if Enabled(t, e) && !Own(self, e) then Apply(t, e) else t
  }

  /** The others leave a thread where it is, and do not touch the lock and the wait flag
      while it holds the lock. */
  ghost predicate Undisturbed(self: Owner, s: Rx, t: Rx) {
    && |t.cmd| == |s.cmd|
    && (self.ByCmd? && self.i < |s.cmd| ==> t.cmd[self.i] == s.cmd[self.i])
    && (self.BySpawn? ==> t.sp == s.sp && t.cur == s.cur)
    && (!self.Nobody? && s.lock == self ==> t.lock == s.lock && t.wait == s.wait)
  }

  lemma OthersDoNotDisturb(self: Owner, s: Rx, e: Step)
    requires Inv(s) && Enabled(s, e) && !Own(self, e)
    ensures Undisturbed(self, s, Apply(s, e))
  {
    match e
    case Interrupt =>
    case Cmd(i, data, cls) =>
      hide Effect, NextPc;
      ThreadFacts(s, i);
      LockMoves(s, i, s.cmd[i], data, cls);
      WaitMoves(s, i, s.cmd[i], data, cls);
      UnitMoves(s, i, s.cmd[i], cls);
    case Spawn =>
      hide SpawnEffect, SpawnNext;
      SpawnFacts(s);
      SpawnLockMoves(s, s.sp);
      SpawnWaits(s, s.sp);
      EffectKeepsPc(s, s.sp);
  }

  lemma SpawnWaits(s: Rx, pc: SpawnPc)
    requires SpawnReady(s, pc)
    ensures SpawnEffect(s, pc).cmd == s.cmd && SpawnEffect(s, pc).wait == s.wait
  {
  }

  lemma Extends(s: Rx, ss: seq<Rx>, es: seq<Step>, e: Step, t: Rx)
    requires RunFrom(s, ss, es) && Enabled(ss[|es|], e) && t == Apply(ss[|es|], e)
    ensures RunFrom(s, ss + [t], es + [e]) && |ss| == |es| + 1
  {
    hide Enabled, Apply;
    var ss', es' := ss + [t], es + [e];
    forall k | 0 <= k < |es'|
      ensures Enabled(ss'[k], es'[k]) && ss'[k + 1] == Apply(ss'[k], es'[k])
    {
      assert k < |es| ==> Enabled(ss[k], es[k]) && ss[k + 1] == Apply(ss[k], es[k]);
    }
  }

  class Driver {
    var irqMasked: bool
    var rxIrqCnt: nat
    var rxDoneCnt: nat
    var waitForCmdResp: bool
    var cmdSyncObj: bool
    var spawnSyncObj: bool
    var irqWriteCnt: nat
    var irqReadCnt: nat
    var msgList: nat
    var globalLock: Owner
    var cmd: seq<CmdPc>
    var spawn: SpawnPc
    var cursor: bool
    var unread: nat
    var units: nat

    /** The scheduler's choices to come, and the class of the next message. */
    var schedule: seq<Slice>
    var nextClass: MsgClass

    /** What has happened so far. */
    ghost var ss: seq<Rx>
    ghost var es: seq<Step>

    constructor (threads: nat, choices: seq<Slice>)
      ensures Valid() && View() == Start(threads) && schedule == choices && es == []
    {
      irqMasked, rxIrqCnt, rxDoneCnt, waitForCmdResp, cmdSyncObj := false, 0, 0, false, false;
      spawnSyncObj, irqWriteCnt, irqReadCnt, msgList, globalLock := false, 0, 0, 0, Nobody;
      cmd, spawn, cursor, unread, units := seq(threads, _ => Idle), SWait, false, 0, 0;
      schedule, nextClass := choices, OtherMsg;
      ss, es := [Start(threads)], [];
    }

    function View(): Rx
      reads this
    {
      Rx(irqMasked, rxIrqCnt, rxDoneCnt, waitForCmdResp, cmdSyncObj, spawnSyncObj, irqWriteCnt, irqReadCnt,
         msgList, globalLock, cmd, spawn, cursor, unread, units)
    }

    /** The history is a run of the protocol that has come to `s`. */
    ghost predicate CameTo(s: Rx)
      reads this
    {
      RunFrom(Start(|cmd|), ss, es) && ss[|es|] == s
    }

    ghost predicate Valid()
      reads this
    {
      CameTo(View())
    }

    lemma ValidInv()
      requires Valid()
      ensures Inv(View())
    {
      StartInv(|cmd|);
      RunInv(Start(|cmd|), ss, es, |es|);
    }

    /** So what holds of every run holds here: an unread message is seen to. */
    lemma UnreadIsSeenTo()
      requires Valid() && rxIrqCnt != rxDoneCnt && !Overslept(View())
      ensures SeenTo(View())
    {
      NoStrandedMessage(|cmd|, ss, es, |es|);
    }

    /** The books of what has happened balance: the events commands have read are those the
        spawn thread has handled and those in the list, and so on. */
    ghost predicate Accounted()
      reads this
    {
      |ss| == |es| + 1 && Balanced(View(), Books(ss, es, |es|))
    }

    lemma ValidAccounted()
      requires Valid()
      ensures Accounted()
    {
      BooksBalance(|cmd|, ss, es, |es|);
    }

    /** The run has gone on. */
    twostate predicate Onward()
      reads this
    {
      old(ss) <= ss && old(es) <= es && |cmd| == old(|cmd|) && |schedule| <= old(|schedule|)
    }

    // ---------------------------------------------------------------- the others

    method StoreCounters(t: Rx)
      modifies this`irqMasked, this`rxIrqCnt, this`rxDoneCnt, this`waitForCmdResp, this`cmdSyncObj, this`spawnSyncObj,
        this`irqWriteCnt, this`irqReadCnt
      ensures irqMasked == t.masked && rxIrqCnt == t.irq && rxDoneCnt == t.done && waitForCmdResp == t.wait
      ensures cmdSyncObj == t.cmdSync && spawnSyncObj == t.spawnSync && irqWriteCnt == t.wr && irqReadCnt == t.rd
    {
      irqMasked, rxIrqCnt, rxDoneCnt, waitForCmdResp := t.masked, t.irq, t.done, t.wait;
      cmdSyncObj, spawnSyncObj, irqWriteCnt, irqReadCnt := t.cmdSync, t.spawnSync, t.wr, t.rd;
    }

    method StoreThreads(t: Rx)
      modifies this`msgList, this`globalLock, this`cmd, this`spawn, this`cursor, this`unread, this`units
      ensures msgList == t.list && globalLock == t.lock && cmd == t.cmd && spawn == t.sp && cursor == t.cur
      ensures unread == t.pend && units == t.units
    {
      msgList, globalLock, cmd, spawn, cursor, unread, units := t.list, t.lock, t.cmd, t.sp, t.cur, t.pend, t.units;
    }

    method Store(t: Rx)
      modifies this
      ensures View() == t && ss == old(ss) && es == old(es) && schedule == old(schedule)
    {
      StoreCounters(t);
      StoreThreads(t);
    }

    /** A step of another thread or the interrupt. */
    method Take(self: Owner, e: Step)
      requires Valid() && Enabled(View(), e) && !Own(self, e)
      modifies this
      ensures Valid() && Onward() && schedule == old(schedule)
      ensures View() == Apply(old(View()), e) && Undisturbed(self, old(View()), View())
    {
      hide Enabled, Apply, RunFrom, Inv, Undisturbed;
      ValidInv();
      OthersDoNotDisturb(self, View(), e);
      ghost var was := View();
      var t := Apply(View(), e);
      assert |t.cmd| == |cmd| by {
        SameThreads(self, was, t);
      }
      Extends(Start(|cmd|), ss, es, e, t);
      Store(t);
      ss, es := ss + [t], es + [e];
    }

    /** Until the next action of `self`. */
    method Others(self: Owner)
      requires Valid()
      modifies this
      ensures Valid() && Onward() && (old(schedule) != [] ==> |schedule| < old(|schedule|))
      ensures View() == if old(schedule) == [] then old(View()) else Mixed(self, old(View()), old(schedule)[0].others)
      ensures Undisturbed(self, old(View()), View())
    {
      hide Enabled, Apply, RunFrom, Inv;
      if schedule == [] {
        return;
      }
      var batch := schedule[0].others;
      nextClass := schedule[0].cls;
      schedule := schedule[1..];
      for k := 0 to |batch|
        invariant Valid() && Onward() && schedule == old(schedule)[1..]
        invariant Undisturbed(self, old(View()), View())
        invariant View() == Mixed(self, old(View()), batch[..k])
      {
        assert batch[..k + 1][..k] == batch[..k];
        if Enabled(View(), batch[k]) && !Own(self, batch[k]) {
          Take(self, batch[k]);
        }
      }
      assert batch[..|batch|] == batch;
    }

    // ---------------------------------------------------------------- the interrupt

    /** What the handler does to the counters and sync objects. */
    method CountAndSignal()
      modifies this`irqMasked, this`rxIrqCnt, this`unread, this`cmdSyncObj, this`irqWriteCnt, this`units,
        this`spawnSyncObj
      ensures View() == DoInterrupt(old(View()))
    {
      irqMasked := true;
      rxIrqCnt := (rxIrqCnt + 1) % 256;
      unread := unread + 1;
      if waitForCmdResp {
        cmdSyncObj := true;
      } else {
        InternalSpawn();
      }
    }

    /** _SlDrvRxIrqHandler. */
    method RxIrqHandler()
      requires Valid() && !irqMasked
      modifies this
      ensures Valid() && Onward() && View() == DoInterrupt(old(View())) && es == old(es) + [Interrupt]
    {
      hide RunFrom, DoInterrupt;
      CountAndSignal();
      assert DoInterrupt(old(View())).cmd == old(cmd) by {
        InterruptKeepsThreads(old(View()));
      }
      ss, es := ss + [View()], es + [Interrupt];
      Extends(Start(|cmd|), old(ss), old(es), Interrupt, View());
    }

    /** _SlInternalSpawn, for a message. */
    method InternalSpawn()
      modifies this`irqWriteCnt, this`units, this`spawnSyncObj
      ensures irqWriteCnt == Inc(old(irqWriteCnt)) && units == old(units) + 1 && spawnSyncObj
    {
      irqWriteCnt := (irqWriteCnt + 1) % 256;
      units := units + 1;
      spawnSyncObj := true;
    }

    // ---------------------------------------------------------------- a command

    ghost predicate At(i: nat, pc: CmdPc)
      reads this
    {
      i < |cmd| && cmd[i] == pc
    }

    /** While it has the global lock, the flag is changed by nobody else. */
    twostate predicate FlagKept(i: nat)
      reads this
    {
      old(globalLock) == ByCmd(i) ==> globalLock == ByCmd(i) && waitForCmdResp == old(waitForCmdResp)
    }

    /** Records an action of command `i` that has been done. */
    method Record(i: nat, q: CmdPc, cls: MsgClass, ghost was: Rx)
      requires CameTo(was) && Enabled(was, Cmd(i, false, cls)) && cmd == was.cmd
      requires View() == Effect(was, i, cmd[i], cls) && q == NextPc(was, cmd[i], false, cls)
      modifies this`cmd, this`ss, this`es
      ensures Valid() && cmd == old(cmd)[i := q] && es == old(es) + [Cmd(i, false, cls)] && old(ss) <= ss
    {
      hide Effect, NextPc, RunFrom;
      cmd := cmd[i := q];
      ss, es := ss + [View()], es + [Cmd(i, false, cls)];
      Extends(Start(|cmd|), old(ss), old(es), Cmd(i, false, cls), View());
    }

    /** ... and lets the others go on. */
    method Acted(i: nat, q: CmdPc, cls: MsgClass, ghost was: Rx)
      requires i < |cmd|
      requires CameTo(was) && Enabled(was, Cmd(i, false, cls)) && cmd == was.cmd
      requires View() == Effect(was, i, cmd[i], cls) && q == NextPc(was, cmd[i], false, cls)
      modifies this
      ensures Valid() && Onward() && At(i, q) && FlagKept(i)
      ensures old(es) + [Cmd(i, false, cls)] <= es
      ensures old(schedule) != [] ==> |schedule| < old(|schedule|)
    {
      hide Effect, NextPc, RunFrom, Inv, Enabled;
      Record(i, q, cls, was);
      Others(ByCmd(i));
    }

    /** Where a test leads. */
    predicate Leads(pc: CmdPc, q: CmdPc)
      reads this
    {
      match pc
      case Idle => q == WantLock
      case Writing => q == LoopTop
      case LoopTop => q == if waitForCmdResp then CheckPending else ListCheck
      case CheckPending => q == if rxIrqCnt != rxDoneCnt then Reading else Waiting
      case ListCheck => q == if msgList > 0 then SignalList else Unlocking
      case FinalCheck => q == if rxIrqCnt != rxDoneCnt then PushUnit else Idle
      case _ => false
    }

    /** A test: nothing changes but the place. */
    method Pass(i: nat, q: CmdPc)
      requires Valid() && i < |cmd| && Leads(cmd[i], q)
      modifies this
      ensures Valid() && Onward() && At(i, q) && FlagKept(i)
      ensures old(schedule) != [] ==> |schedule| < old(|schedule|)
    {
      hide RunFrom;
      Acted(i, q, OtherMsg, View());
    }

    /** Takes the global lock, when it is free. */
    method LockGlobal(i: nat) returns (locked: bool)
      requires Valid() && At(i, WantLock)
      modifies this
      ensures Valid() && Onward() && (locked ==> At(i, Locked))
      ensures !locked ==> schedule == []
    {
      hide RunFrom;
      while !globalLock.Nobody?
        invariant Valid() && Onward() && At(i, WantLock)
        decreases |schedule|
      {
        if schedule == [] {
          return false;
        }
        Others(ByCmd(i));
      }
      ghost var was := View();
      globalLock := ByCmd(i);
      Acted(i, Locked, OtherMsg, was);
      locked := true;
    }

    /** Gives it back. */
    method UnlockGlobal(i: nat)
      requires Valid() && At(i, Unlocking)
      modifies this
      ensures Valid() && Onward() && At(i, FinalCheck)
    {
      hide RunFrom;
      ghost var was := View();
      globalLock := Nobody;
      Acted(i, FinalCheck, OtherMsg, was);
    }

    /** g_pCB->WaitForCmdResp = TRUE. */
    method RaiseFlag(i: nat)
      requires Valid() && At(i, Locked)
      modifies this
      ensures Valid() && Onward() && At(i, Writing) && globalLock == ByCmd(i) && waitForCmdResp
    {
      hide RunFrom;
      ValidInv();
      ghost var was := View();
      Owns(was, i);
      waitForCmdResp := true;
      Acted(i, Writing, OtherMsg, was);
    }

    /** _SlDrvMsgRead: the reader unmasks the interrupt before it takes the message. */
    method UnmaskAndRead(i: nat)
      requires Valid() && At(i, Reading)
      modifies this
      ensures Valid() && Onward() && At(i, Counting) && FlagKept(i)
    {
      hide RunFrom;
      ghost var was := View();
      irqMasked := false;
      Acted(i, Counting, OtherMsg, was);
    }

    method CountMessage(i: nat)
      requires Valid() && At(i, Counting)
      modifies this
      ensures Valid() && Onward() && At(i, Classify) && FlagKept(i)
    {
      hide RunFrom;
      ValidInv();
      ghost var was := View();
      CountsOne(was, i);
      rxDoneCnt := (rxDoneCnt + 1) % 256;
      unread := unread - 1;
      Acted(i, Classify, OtherMsg, was);
    }

    /** The response ends the wait. */
    method EndWait(i: nat)
      requires Valid() && At(i, Classify) && globalLock == ByCmd(i)
      modifies this
      ensures Valid() && Onward() && At(i, ClearSync) && globalLock == ByCmd(i) && Responded(i, |old(es)|)
    {
      hide RunFrom;
      ghost var was := View();
      waitForCmdResp := false;
      Acted(i, ClearSync, CmdResponse, was);
      assert es[|old(es)|] == Cmd(i, false, CmdResponse);
    }

    /** The response was read at or after step `from`. */
    ghost predicate Responded(i: nat, from: nat)
      reads this
    {
      exists k :: from <= k < |es| && es[k] == Cmd(i, false, CmdResponse)
    }

    /** Takes the signal of the command's sync object, or clears an old one. */
    method ClearSignal(i: nat)
      requires Valid() && (At(i, ClearSync) || (At(i, Waiting) && cmdSyncObj))
      modifies this
      ensures Valid() && Onward() && At(i, LoopTop) && FlagKept(i)
    {
      hide RunFrom;
      ghost var was := View();
      cmdSyncObj := false;
      Acted(i, LoopTop, OtherMsg, was);
    }

    /** An event is stored for the spawn thread; what else there is has been read. */
    method KeepMessage(i: nat, event: bool)
      requires Valid() && At(i, Classify)
      modifies this
      ensures Valid() && Onward() && At(i, LoopTop) && FlagKept(i)
    {
      hide RunFrom;
      ghost var was := View();
      if event {
        msgList := msgList + 1;
      }
      Acted(i, LoopTop, if event then AsyncEvent else OtherMsg, was);
    }

    /** sl_SyncObjWait on the command's sync object. */
    method WaitForSignal(i: nat) returns (signalled: bool)
      requires Valid() && At(i, Waiting) && globalLock == ByCmd(i)
      modifies this
      ensures Valid() && Onward() && FlagKept(i) && (signalled ==> At(i, LoopTop))
      ensures !signalled ==> schedule == []
    {
      hide RunFrom;
      while !cmdSyncObj
        invariant Valid() && Onward() && At(i, Waiting) && FlagKept(i)
        decreases |schedule|
      {
        if schedule == [] {
          return false;
        }
        Others(ByCmd(i));
      }
      ClearSignal(i);
      signalled := true;
    }

    /** sl_Spawn for a message counts a unit first; for the stored events it only signals. */
    method CountUnit(i: nat)
      requires Valid() && At(i, PushUnit)
      modifies this
      ensures Valid() && Onward() && At(i, SignalUnit)
    {
      hide RunFrom;
      ghost var was := View();
      irqWriteCnt := (irqWriteCnt + 1) % 256;
      units := units + 1;
      Acted(i, SignalUnit, OtherMsg, was);
    }

    method SignalSpawn(i: nat, q: CmdPc)
      requires Valid() && ((At(i, SignalList) && q.Unlocking?) || (At(i, SignalUnit) && q.Idle?))
      modifies this
      ensures Valid() && Onward() && At(i, q)
    {
      hide RunFrom;
      ghost var was := View();
      spawnSyncObj := true;
      Acted(i, q, OtherMsg, was);
    }

    /** One message, and what its class asks for. */
    method TakeMessage(i: nat)
      requires Valid() && At(i, CheckPending) && globalLock == ByCmd(i) && rxIrqCnt != rxDoneCnt
      modifies this
      ensures Valid() && Onward() && At(i, LoopTop) && globalLock == ByCmd(i)
      ensures waitForCmdResp == old(waitForCmdResp) || Responded(i, |old(es)|)
    {
      hide RunFrom, CameTo, View;
      Pass(i, Reading);
      UnmaskAndRead(i);
      CountMessage(i);
      if nextClass.CmdResponse? {
        EndWait(i);
        ClearSignal(i);
      } else {
        KeepMessage(i, nextClass.AsyncEvent?);
      }
    }

    /** The loop of _SlDrvMsgReadCmdCtx. It ends with the response, or the schedule ends. */
    method ReadUntilResponse(i: nat) returns (ended: bool)
      requires Valid() && At(i, LoopTop) && globalLock == ByCmd(i) && waitForCmdResp
      modifies this
      ensures Valid() && Onward()
      ensures ended ==> At(i, LoopTop) && !waitForCmdResp && Responded(i, |old(es)|)
      ensures !ended ==> schedule == []
      ensures Accounted()
    {
      hide RunFrom, CameTo, View;
      while waitForCmdResp
        invariant Valid() && Onward() && At(i, LoopTop)
        invariant globalLock == ByCmd(i)
        invariant waitForCmdResp || Responded(i, |old(es)|)
        decreases |schedule|
      {
        if schedule == [] {
          ValidAccounted();
          return false;
        }
        Pass(i, CheckPending);
        if rxIrqCnt != rxDoneCnt {
          TakeMessage(i);
        } else {
          Pass(i, Waiting);
          var signalled := WaitForSignal(i);
          if !signalled {
            ValidAccounted();
            return false;
          }
        }
      }
      ended := true;
      ValidAccounted();
    }

    /** The signal for stored events, if there are any, and the unlock. */
    method HandBack(i: nat)
      requires Valid() && At(i, LoopTop) && !waitForCmdResp
      modifies this
      ensures Valid() && Onward() && At(i, FinalCheck)
    {
      hide RunFrom, CameTo, View;
      Pass(i, ListCheck);
      if msgList > 0 {
        Pass(i, SignalList);
        SignalSpawn(i, Unlocking);
      } else {
        Pass(i, Unlocking);
      }
      UnlockGlobal(i);
    }

    /** The last test, after the unlock. */
    method CheckAgain(i: nat)
      requires Valid() && At(i, FinalCheck)
      modifies this
      ensures Valid() && Onward() && At(i, Idle)
    {
      hide RunFrom, CameTo, View;
      if rxIrqCnt != rxDoneCnt {
        Pass(i, PushUnit);
        CountUnit(i);
        SignalSpawn(i, Idle);
      } else {
        Pass(i, Idle);
      }
    }

    /** _SlDrvMsgReadCmdCtx. */
    method MsgReadCmdCtx(i: nat) returns (returned: bool)
      requires Valid() && At(i, LoopTop) && globalLock == ByCmd(i) && waitForCmdResp
      modifies this
      ensures Valid() && Onward()
      ensures returned ==> At(i, Idle) && Responded(i, |old(es)|)
      ensures !returned ==> schedule == []
    {
      hide RunFrom, CameTo, View;
      returned := ReadUntilResponse(i);
      if returned {
        HandBack(i);
        CheckAgain(i);
      }
    }

    /** _SlDrvCmdOp: a whole command. Whatever the schedule does to it, what happens is a run
        of the protocol; and it returns only after its own response has been read. */
    method CmdOp(i: nat) returns (returned: bool)
      requires Valid() && At(i, Idle)
      modifies this
      ensures Valid() && Onward()
      ensures returned ==> At(i, Idle) && Responded(i, |old(es)|)
      ensures !returned ==> schedule == []
      ensures Accounted()
    {
      hide RunFrom, CameTo, View;
      Pass(i, WantLock);
      returned := LockGlobal(i);
      if returned {
        RaiseFlag(i);
        Pass(i, LoopTop);
        returned := MsgReadCmdCtx(i);
      }
      ValidAccounted();
    }

    // ---------------------------------------------------------------- the spawn thread

    /** Records an action of the spawn thread that has been done. */
    method RecordSpawn(q: SpawnPc, ghost was: Rx)
      requires CameTo(was) && SpawnEnabled(was) && cmd == was.cmd && spawn == was.sp
      requires View() == SpawnEffect(was, spawn) && q == SpawnNext(was, spawn)
      modifies this`spawn, this`ss, this`es
      ensures Valid() && spawn == q && old(ss) <= ss && old(es) <= es
    {
      hide SpawnEffect, SpawnNext, RunFrom;
      spawn := q;
      ss, es := ss + [View()], es + [RxProtocol.Step.Spawn];
      Extends(Start(|cmd|), old(ss), old(es), RxProtocol.Step.Spawn, View());
    }

    /** ... and lets the others go on. */
    method ActedSpawn(q: SpawnPc, ghost was: Rx)
      requires CameTo(was) && SpawnEnabled(was) && cmd == was.cmd && spawn == was.sp
      requires View() == SpawnEffect(was, spawn) && q == SpawnNext(was, spawn)
      modifies this
      ensures Valid() && Onward() && spawn == q && cursor == old(cursor)
      ensures old(schedule) != [] ==> |schedule| < old(|schedule|)
    {
      hide SpawnEffect, SpawnNext, RunFrom, Inv, SpawnEnabled;
      RecordSpawn(q, was);
      Others(BySpawn);
    }

    /** Where a test of the spawn thread leads. */
    predicate SpawnLeads(pc: SpawnPc, q: SpawnPc)
      reads this
    {
      match pc
      case SListLoop => q == if cursor then SListWant else SCheck
      case SPendCheck => q == if rxIrqCnt != rxDoneCnt then SReading else SUnlock
      case SCheck => q == if irqWriteCnt != irqReadCnt then SWantLock else SWait
      case _ => false
    }

    /** A test: nothing changes but the place. */
    method PassSpawn(q: SpawnPc)
      requires Valid() && SpawnLeads(spawn, q)
      modifies this
      ensures Valid() && Onward() && spawn == q && cursor == old(cursor)
      ensures old(schedule) != [] ==> |schedule| < old(|schedule|)
    {
      hide RunFrom;
      ActedSpawn(q, View());
    }

    /** sl_SyncObjWait on the spawn thread's sync object. */
    method WaitForWork() returns (signalled: bool)
      requires Valid() && spawn.SWait?
      modifies this
      ensures Valid() && Onward() && (signalled ==> spawn.SListStart?)
      ensures !signalled ==> schedule == []
    {
      hide RunFrom;
      while !spawnSyncObj
        invariant Valid() && Onward() && spawn.SWait?
        decreases |schedule|
      {
        if schedule == [] {
          return false;
        }
        Others(BySpawn);
      }
      ghost var was := View();
      spawnSyncObj := false;
      ActedSpawn(SListStart, was);
      signalled := true;
    }

    /** Takes the global lock, for a stored event or for a unit. */
    method LockForSpawn(q: SpawnPc) returns (locked: bool)
      requires Valid() && ((spawn.SListWant? && q.SListHold?) || (spawn.SWantLock? && q.SPendCheck?))
      modifies this
      ensures Valid() && Onward() && (locked ==> spawn == q)
      ensures !locked ==> schedule == []
    {
      hide RunFrom;
      while !globalLock.Nobody?
        invariant Valid() && Onward() && spawn == old(spawn)
        decreases |schedule|
      {
        if schedule == [] {
          return false;
        }
        Others(BySpawn);
      }
      ghost var was := View();
      globalLock := BySpawn;
      ActedSpawn(q, was);
      locked := true;
    }

    method UnlockForSpawn(q: SpawnPc)
      requires Valid() && ((spawn.SListDone? && q.SListLoop?) || (spawn.SUnlock? && q.SAdvance?))
      modifies this
      ensures Valid() && Onward() && spawn == q
    {
      hide RunFrom;
      ghost var was := View();
      globalLock := Nobody;
      ActedSpawn(q, was);
    }

    /** The cursor is set to the head of the stored events. */
    method StartList()
      requires Valid() && spawn.SListStart?
      modifies this
      ensures Valid() && Onward() && spawn.SListLoop?
    {
      hide RunFrom;
      ghost var was := View();
      cursor := msgList > 0;
      ActedSpawn(SListLoop, was);
    }

    /** The first stored event is taken off the list, handled and freed. */
    method HandleFirst()
      requires Valid() && spawn.SListHold?
      modifies this
      ensures Valid() && Onward() && spawn.SListDone?
    {
      hide RunFrom;
      ValidInv();
      ghost var was := View();
      cursor := msgList > 1;
      msgList := msgList - 1;
      ActedSpawn(SListDone, was);
    }

    /** _SlSpawnMsgListProcess. */
    method MsgListProcess() returns (ended: bool)
      requires Valid() && spawn.SListStart?
      modifies this
      ensures Valid() && Onward() && (ended ==> spawn.SCheck?)
      ensures !ended ==> schedule == []
    {
      hide RunFrom, CameTo, View;
      StartList();
      while cursor
        invariant Valid() && Onward() && spawn.SListLoop?
        decreases |schedule|
      {
        if schedule == [] {
          return false;
        }
        PassSpawn(SListWant);
        var locked := LockForSpawn(SListHold);
        if !locked {
          return false;
        }
        HandleFirst();
        UnlockForSpawn(SListLoop);
      }
      PassSpawn(SCheck);
      ended := true;
    }

    method UnmaskForSpawn()
      requires Valid() && spawn.SReading?
      modifies this
      ensures Valid() && Onward() && spawn.SCounting?
    {
      hide RunFrom;
      ghost var was := View();
      irqMasked := false;
      ActedSpawn(SCounting, was);
    }

    method CountForSpawn()
      requires Valid() && spawn.SCounting?
      modifies this
      ensures Valid() && Onward() && spawn.SUnlock?
    {
      hide RunFrom;
      ValidInv();
      ghost var was := View();
      rxDoneCnt := (rxDoneCnt + 1) % 256;
      unread := unread - 1;
      ActedSpawn(SUnlock, was);
    }

    /** _SlDrvMsgReadSpawnCtx: a command may have read the message in the meantime. */
    method MsgReadSpawnCtx() returns (returned: bool)
      requires Valid() && spawn.SWantLock?
      modifies this
      ensures Valid() && Onward() && (returned ==> spawn.SAdvance?)
      ensures !returned ==> schedule == []
    {
      hide RunFrom, CameTo, View;
      returned := LockForSpawn(SPendCheck);
      if returned {
        if rxIrqCnt != rxDoneCnt {
          PassSpawn(SReading);
          UnmaskForSpawn();
          CountForSpawn();
        } else {
          PassSpawn(SUnlock);
        }
        UnlockForSpawn(SAdvance);
      }
    }

    method AdvanceReadCnt()
      requires Valid() && spawn.SAdvance?
      modifies this
      ensures Valid() && Onward() && spawn.SCheck?
    {
      hide RunFrom;
      ValidInv();
      ghost var was := View();
      irqReadCnt := (irqReadCnt + 1) % 256;
      units := units - 1;
      ActedSpawn(SCheck, was);
    }

    /** _SlInternalSpawnWaitForEvent. Whatever the schedule does to it, what happens is a run
        of the protocol. */
    method SpawnWaitForEvent() returns (returned: bool)
      requires Valid() && spawn.SWait?
      modifies this
      ensures Valid() && Onward() && (returned ==> spawn.SWait?)
      ensures !returned ==> schedule == []
      ensures Accounted()
    {
      hide RunFrom, CameTo, View;
      returned := WaitForWork();
      if returned {
        returned := MsgListProcess();
      }
      if returned {
        returned := HandleRequests();
      }
      ValidAccounted();
    }

    /** The loop over the units. */
    method HandleRequests() returns (returned: bool)
      requires Valid() && spawn.SCheck?
      modifies this
      ensures Valid() && Onward() && (returned ==> spawn.SWait?)
      ensures !returned ==> schedule == []
    {
      hide RunFrom, CameTo, View;
      while irqWriteCnt != irqReadCnt
        invariant Valid() && Onward() && spawn.SCheck?
        decreases |schedule|
      {
        if schedule == [] {
          return false;
        }
        PassSpawn(SWantLock);
        returned := MsgReadSpawnCtx();
        if !returned {
          return;
        }
        AdvanceReadCnt();
      }
      PassSpawn(SWait);
      returned := true;
    }
  }

  /** A thread inside its critical section is the lock's owner. */
  lemma Owns(s: Rx, i: nat)
    requires Inv(s) && i < |s.cmd| && HoldsLock(s.cmd[i])
    ensures s.lock == ByCmd(i)
  {
  }

  lemma CountsOne(s: Rx, i: nat)
    requires Inv(s) && i < |s.cmd| && s.cmd[i].Counting?
    ensures s.pend > 0
  {
    Owns(s, i);
  }

  lemma InterruptKeepsThreads(s: Rx)
    ensures DoInterrupt(s).cmd == s.cmd
  {
  }

  lemma SameThreads(self: Owner, s: Rx, t: Rx)
    requires Undisturbed(self, s, t)
    ensures |t.cmd| == |s.cmd|
  {
  }
}
