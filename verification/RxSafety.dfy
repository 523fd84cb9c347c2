/**
 No message is left unread without somebody bound to read it, no stored event without
 somebody bound to handle it, and a machine that has come to rest has nothing unread.
 */
module RxSafety {
  import opened RxProtocol

  /** A lock owner at one of these points will test for a pending message before it is done. */
  predicate WillCheck(pc: CmdPc) {
    HoldsLock(pc) && !pc.DataLocked? && !pc.Reading?
  }

  predicate OwnerWillCheck(s: Rx) {
    s.lock.ByCmd? && s.lock.i < |s.cmd| && WillCheck(s.cmd[s.lock.i])
  }

  ghost predicate SomeoneLeaving(s: Rx) {
    exists i :: 0 <= i < |s.cmd| && (s.cmd[i].FinalCheck? || s.cmd[i].PushUnit?)
  }

  ghost predicate SomeoneSignalling(s: Rx) {
    exists i :: 0 <= i < |s.cmd| && s.cmd[i].SignalUnit?
  }

  /** Outstanding units whose pending test is still to come. */
  function UnitsLeft(s: Rx): int {
    s.units - if UnitSpent(s.sp) then 1 else 0
  }

  /** Somebody will read the message that holds the interrupt mask. */
  ghost predicate Answered(s: Rx) {
    s.masked ==> SomeoneReading(s) || OwnerWillCheck(s) || SomeoneLeaving(s) || UnitsLeft(s) >= 1
  }

  /** A command asleep on its sync object has been signalled if a message came. */
  ghost predicate WaiterSignalled(s: Rx) {
    s.lock.ByCmd? && s.lock.i < |s.cmd| && s.cmd[s.lock.i].Waiting? && s.masked ==> s.cmdSync
  }

  /** The spawn thread sleeps and nobody is about to wake it. */
  ghost predicate Asleep(s: Rx) {
    s.sp.SWait? && !s.spawnSync && !SomeoneSignalling(s)
  }

  /** ... over outstanding units. */
  ghost predicate Overslept(s: Rx) {
    Asleep(s) && s.units > 0
  }

  /** The spawn thread's comparison of the 8-bit unit counters is about to miss the
      outstanding units, and no signal for it is on its way. */
  ghost predicate Misses(s: Rx) {
    s.sp.SCheck? && s.units > 0 && s.units % 256 == 0 && !s.spawnSync && !SomeoneSignalling(s)
  }

  /** What every step keeps, whatever the number of units. */
  ghost predicate Duty(s: Rx) {
    Answered(s) && WaiterSignalled(s) && EventsServed(s) && (Asleep(s) ==> s.units % 256 == 0)
  }

  /** Somebody will see to what is unread. */
  ghost predicate NoStranded(s: Rx) {
    Answered(s) && WaiterSignalled(s) && !Overslept(s)
  }

  /** A lock owner at one of these points will look at the event list before it is done. */
  predicate WillList(pc: CmdPc) {
    HoldsLock(pc) && !pc.DataLocked? && !pc.Unlocking?
  }

  /** A stored event is being processed, or the spawn thread is signalled, or the command
      that stores events has yet to signal it. */
  ghost predicate EventsServed(s: Rx) {
    s.list > 0 ==>
      || s.sp.SListStart? || s.sp.SListHold?
      || (s.cur && (s.sp.SListLoop? || s.sp.SListWant? || s.sp.SListDone?))
      || s.spawnSync
      || (s.lock.ByCmd? && s.lock.i < |s.cmd| && WillList(s.cmd[s.lock.i]))
  }

  // ------------------------------------------------------------------ one step

  lemma InterruptAnswers(s: Rx)
    requires Inv(s) && Duty(s) && !s.masked
    ensures Duty(DoInterrupt(s)) && (Overslept(DoInterrupt(s)) ==> Overslept(s))
  {
    var t := DoInterrupt(s);
    if SomeoneSignalling(s) {
      var i :| 0 <= i < |s.cmd| && s.cmd[i].SignalUnit?;
      assert t.cmd[i].SignalUnit?;
    }
  }

  /** What matters of a command step for who answers, seen from its own thread. */
  ghost predicate AnswerMove(s: Rx, i: nat, pc: CmdPc, t: Rx, q: CmdPc) {
    && t.sp == s.sp && t.masked == (s.masked && !pc.Reading?)
    && (s.masked && WillCheck(pc) ==> q.Reading? || q.FinalCheck? || WillCheck(q))
    && (s.masked && (pc.FinalCheck? || pc.PushUnit?) ==> q.PushUnit? || t.units > s.units)
    && t.units >= s.units
    && (t.units > s.units ==> q.SignalUnit?)
    && (s.spawnSync || pc.SignalUnit? ==> t.spawnSync)
    && (t.cmdSync != s.cmdSync ==> s.lock == ByCmd(i) && q.LoopTop?)
    && (q.Waiting? ==> !t.masked)
    && t.cur == s.cur
    && (t.list > s.list ==> q.LoopTop? && t.lock == ByCmd(i))
    && (WillList(pc) && t.list > 0 ==> WillList(q) || t.spawnSync)
  }

  lemma AnswerMoves(s: Rx, i: nat, pc: CmdPc, data: bool, cls: MsgClass)
    requires HoldsLock(pc) <==> s.lock == ByCmd(i)
    requires pc.Counting? ==> s.pend > 0
    requires pc.CheckPending? ==> (s.irq != s.done <==> s.masked)
    requires s.masked ==> s.irq != s.done
    requires pc.Reading? ==> s.masked
    ensures AnswerMove(s, i, pc, Effect(s, i, pc, cls), NextPc(s, pc, data, cls))
  {
  }

  lemma MaskedIsUnread(s: Rx)
    requires MaskInv(s) && s.masked
    ensures s.irq != s.done
  {
  }

  lemma CmdAnswered(s: Rx, i: nat, t: Rx, q: CmdPc)
    requires LockInv(s) && UnitInv(s) && Answered(s) && i < |s.cmd|
    requires LockMove(s, i, s.cmd[i], t, q) && AnswerMove(s, i, s.cmd[i], t, q)
    ensures Answered(Go(t, i, q))
  {
    var u := Go(t, i, q);
    assert HoldsLock(s.cmd[i]) <==> s.lock == ByCmd(i);
    if u.masked && !(SomeoneReading(u) || OwnerWillCheck(u)) {
      if SomeoneLeaving(s) {
        var j :| 0 <= j < |s.cmd| && (s.cmd[j].FinalCheck? || s.cmd[j].PushUnit?);
        if j != i {
          assert u.cmd[j].FinalCheck? || u.cmd[j].PushUnit?;
        }
      }
      assert SomeoneLeaving(u) || UnitsLeft(u) >= 1 by {
        if q.FinalCheck? || q.PushUnit? {
          assert u.cmd[i].FinalCheck? || u.cmd[i].PushUnit?;
        }
      }
    }
  }

  lemma CmdSignalled(s: Rx, i: nat, t: Rx, q: CmdPc)
    requires LockInv(s) && WaiterSignalled(s) && EventsServed(s) && i < |s.cmd|
    requires LockMove(s, i, s.cmd[i], t, q) && AnswerMove(s, i, s.cmd[i], t, q)
    ensures WaiterSignalled(Go(t, i, q)) && EventsServed(Go(t, i, q))
    ensures Asleep(Go(t, i, q)) ==> Asleep(s) && t.units == s.units
  {
    var u := Go(t, i, q);
    assert HoldsLock(s.cmd[i]) <==> s.lock == ByCmd(i);
    if t.units > s.units {
      assert u.cmd[i].SignalUnit?;
    } else if SomeoneSignalling(s) {
      var j :| 0 <= j < |s.cmd| && s.cmd[j].SignalUnit?;
      if j != i {
        assert u.cmd[j].SignalUnit?;
      }
    }
  }

  lemma CmdAnswers(s: Rx, i: nat, data: bool, cls: MsgClass)
    requires Inv(s) && Duty(s) && Enabled(s, Cmd(i, data, cls))
    ensures Duty(DoCmd(s, i, data, cls)) && (Overslept(DoCmd(s, i, data, cls)) ==> Overslept(s))
  {
    hide Effect, NextPc, LockMove, AnswerMove;
    ThreadFacts(s, i);
    if s.masked {
      MaskedIsUnread(s);
    }
    LockMoves(s, i, s.cmd[i], data, cls);
    AnswerMoves(s, i, s.cmd[i], data, cls);
    CmdAnswered(s, i, Effect(s, i, s.cmd[i], cls), NextPc(s, s.cmd[i], data, cls));
    CmdSignalled(s, i, Effect(s, i, s.cmd[i], cls), NextPc(s, s.cmd[i], data, cls));
  }

  /** A spawn step either reads the masked message, or keeps every unit that is left. It
      goes to sleep exactly when the 8-bit counters agree, and of the signals it takes only
      its own; and it stops processing the event list only when it is empty. */
  ghost predicate SpawnAnswerMove(s: Rx, pc: SpawnPc, t: Rx, q: SpawnPc) {
    && t.cmd == s.cmd && t.cmdSync == s.cmdSync && (t.masked ==> s.masked && !pc.SReading?)
    && (s.lock.ByCmd? || t.lock.ByCmd? ==> t.lock == s.lock)
    && (t.masked ==>
         q.SReading? || t.units - (if UnitSpent(q) then 1 else 0) == s.units - if UnitSpent(pc) then 1 else 0)
    && (q.SWait? <==> pc.SCheck? && s.units % 256 == 0) && (q.SWait? ==> t.units == s.units)
    && (t.list > 0 ==> s.list > 0)
    && (t.spawnSync == s.spawnSync || q.SListStart?)
    && (pc.SListStart? || pc.SListHold? || (s.cur && (pc.SListLoop? || pc.SListWant? || pc.SListDone?)) ==>
         t.list > 0 ==> q.SListStart? || q.SListHold? || (t.cur && (q.SListLoop? || q.SListWant? || q.SListDone?)))
  }

  lemma SpawnAnswerMoves(s: Rx, pc: SpawnPc)
    requires SpawnReady(s, pc) && (s.masked ==> s.irq != s.done) && (s.wr == s.rd <==> s.units % 256 == 0)
    requires SpawnHolds(pc) <==> s.lock.BySpawn?
    requires UnitTaken(pc) ==> s.units >= 1
    ensures SpawnAnswerMove(s, pc, SpawnEffect(s, pc), SpawnNext(s, pc))
  {
  }

  lemma SpawnAnswersFrom(s: Rx, t: Rx, q: SpawnPc)
    requires Duty(s) && t.sp == s.sp && SpawnAnswerMove(s, s.sp, t, q)
    ensures Duty(t.(sp := q)) && (Overslept(t.(sp := q)) <==> Misses(s))
  {
    var u := t.(sp := q);
    if SomeoneLeaving(s) {
      var i :| 0 <= i < |s.cmd| && (s.cmd[i].FinalCheck? || s.cmd[i].PushUnit?);
      assert u.cmd[i] == s.cmd[i];
    }
    assert SomeoneSignalling(u) <==> SomeoneSignalling(s);
  }

  lemma CountersAgree(s: Rx)
    requires UnitInv(s)
    ensures s.wr == s.rd <==> s.units % 256 == 0
  {
    var k := s.units / 256;
    SameModulo(s.rd, s.units % 256, k);
  }

  lemma SameModulo(a: nat, r: nat, k: nat)
    requires a < 256 && r < 256
    ensures (a + (256 * k + r)) % 256 == a <==> r == 0
  {
    assert (a + (256 * k + r)) % 256 == (a + r) % 256;
  }

  /** A spawn step hands every duty on, except that a comparison that misses puts the
      thread to sleep over outstanding units. */
  lemma SpawnAnswers(s: Rx)
    requires Inv(s) && Duty(s) && SpawnEnabled(s)
    ensures Duty(DoSpawn(s)) && (Overslept(DoSpawn(s)) <==> Misses(s))
  {
    hide SpawnEffect, SpawnNext, SpawnAnswerMove, Duty, Overslept, Misses;
    SpawnFacts(s);
    if s.masked {
      MaskedIsUnread(s);
    }
    CountersAgree(s);
    SpawnAnswerMoves(s, s.sp);
    EffectKeepsPc(s, s.sp);
    SpawnAnswersFrom(s, SpawnEffect(s, s.sp), SpawnNext(s, s.sp));
  }

  /** From a state in which nothing is stranded, an action strands something if and only if
      it is a spawn comparison that misses. */
  lemma StepAnswers(s: Rx, e: Step)
    requires Inv(s) && Duty(s) && Enabled(s, e)
    ensures Duty(Apply(s, e))
    ensures NoStranded(s) ==> (NoStranded(Apply(s, e)) <==> !(e.Spawn? && Misses(s)))
  {
    match e
    case Interrupt => InterruptAnswers(s);
    case Cmd(i, data, cls) => CmdAnswers(s, i, data, cls);
    case Spawn => SpawnAnswers(s);
  }

  // ------------------------------------------------------------------ runs

  lemma {:induction false} RunAnswers(n: nat, ss: seq<Rx>, es: seq<Step>, k: nat)
    requires RunFrom(Start(n), ss, es) && k < |ss|
    ensures Inv(ss[k]) && Duty(ss[k])
  {
    StartInv(n);
    RunInv(Start(n), ss, es, k);
    if k > 0 {
      RunAnswers(n, ss, es, k - 1);
      StepAnswers(ss[k - 1], es[k - 1]);
    }
  }

  /** None of the first `k` actions is a spawn comparison that misses. */
  ghost predicate NeverMisses(ss: seq<Rx>, es: seq<Step>, k: nat)
    requires k <= |es| < |ss|
  {
    forall j :: 0 <= j < k && es[j].Spawn? ==> !Misses(ss[j])
  }

  /** In every run: nothing was ever stranded if and only if no spawn comparison missed. */
  lemma {:induction false} NeverStrandedIff(n: nat, ss: seq<Rx>, es: seq<Step>, k: nat)
    requires RunFrom(Start(n), ss, es) && k <= |es|
    ensures (forall j :: 0 <= j <= k ==> NoStranded(ss[j])) <==> NeverMisses(ss, es, k)
  {
    hide NoStranded, Misses, Inv, Duty;
    if k == 0 {
      StartAnswers(n);
    } else {
      NeverStrandedIff(n, ss, es, k - 1);
      RunAnswers(n, ss, es, k - 1);
      StepAnswers(ss[k - 1], es[k - 1]);
      assert ss[k] == Apply(ss[k - 1], es[k - 1]);
      if NeverMisses(ss, es, k - 1) {
        assert NoStranded(ss[k - 1]);
        assert NoStranded(ss[k]) <==> NeverMisses(ss, es, k);
      } else {
        var j :| 0 <= j < k - 1 && es[j].Spawn? && Misses(ss[j]);
        assert !NeverMisses(ss, es, k);
      }
    }
  }

  lemma StartAnswers(n: nat)
    ensures NoStranded(Start(n))
  {
  }

  /** In the driver's own terms: a reader is in the middle of a read, or the lock's owner
      will test again (and if it sleeps it has been signalled), or a command is before its
      final test, or a spawn unit is outstanding that will be tried and the spawn thread is
      running or signalled. */
  ghost predicate SeenTo(s: Rx) {
    || SomeoneReading(s) || SomeoneCounting(s)
    || (OwnerWillCheck(s) && (s.cmd[s.lock.i].Waiting? ==> s.cmdSync))
    || SomeoneLeaving(s)
    || (UnitsLeft(s) >= 1 && (!s.sp.SWait? || s.spawnSync || SomeoneSignalling(s)))
  }

  /** No stranded message: in every interleaving, whenever the 8-bit counters say a message is
      unread and the spawn thread has not gone to sleep over its units, somebody is bound to
      read it. */
  lemma NoStrandedMessage(n: nat, ss: seq<Rx>, es: seq<Step>, k: nat)
    requires RunFrom(Start(n), ss, es) && k < |ss|
    requires ss[k].irq != ss[k].done && !Overslept(ss[k])
    ensures SeenTo(ss[k])
  {
    RunAnswers(n, ss, es, k);
    PendingTestIsExact(n, ss, es, k);
  }

  /** What it takes to sleep over units: 256 of them, or a multiple, and a comparison that
      missed. */
  lemma OversleptIsAWrap(n: nat, ss: seq<Rx>, es: seq<Step>, k: nat)
    requires RunFrom(Start(n), ss, es) && k <= |es| && Overslept(ss[k])
    ensures ss[k].units >= 256 && ss[k].units % 256 == 0
    ensures exists j :: 0 <= j < k && es[j].Spawn? && Misses(ss[j])
  {
    RunAnswers(n, ss, es, k);
    NeverStrandedIff(n, ss, es, k);
    assert !NoStranded(ss[k]);
  }

  // ------------------------------------------------------------------ at rest

  /** No thread inside the driver can move; only an interrupt or a new call could. */
  ghost predicate AtRest(s: Rx) {
    && !SpawnEnabled(s)
    && forall i :: 0 <= i < |s.cmd| && !s.cmd[i].Idle? ==> !CmdEnabled(s, i)
  }

  lemma RestingLock(s: Rx)
    requires Inv(s) && AtRest(s)
    ensures !s.lock.BySpawn?
    ensures s.lock.ByCmd? ==> s.lock.i < |s.cmd| && s.cmd[s.lock.i].Waiting? && !s.cmdSync
    ensures forall i :: 0 <= i < |s.cmd| ==>
      s.cmd[i].Idle? || s.cmd[i].Waiting? || s.cmd[i].WantLock? || s.cmd[i].WantData?
    ensures !s.sp.SWait? ==> (s.sp.SListWant? || s.sp.SWantLock?) && s.lock.ByCmd?
    ensures s.sp.SWait? ==> !s.spawnSync
  {
    forall i | 0 <= i < |s.cmd|
      ensures s.cmd[i].Idle? || s.cmd[i].Waiting? || s.cmd[i].WantLock? || s.cmd[i].WantData?
    {
      assert !s.cmd[i].Idle? ==> !CmdEnabled(s, i);
    }
    if s.lock.ByCmd? {
      assert HoldsLock(s.cmd[s.lock.i]);
      assert !CmdEnabled(s, s.lock.i);
    }
  }

  /** At rest nothing is unread, unless the spawn thread sleeps over its units; and if no
      command is still waiting for its response, nothing is stored, every thread is back
      where it started, and a unit is outstanding only then. */
  lemma {:induction false} RestIsDrained(n: nat, ss: seq<Rx>, es: seq<Step>, k: nat)
    requires RunFrom(Start(n), ss, es) && k < |ss| && AtRest(ss[k])
    ensures !Overslept(ss[k]) ==> ss[k].irq == ss[k].done && !ss[k].masked
    ensures (forall i :: 0 <= i < |ss[k].cmd| ==> !ss[k].cmd[i].Waiting?) ==>
      && ss[k].list == 0 && ss[k].sp.SWait? && ss[k].lock.Nobody? && (ss[k].units == 0 <==> !Overslept(ss[k]))
      && forall i :: 0 <= i < |ss[k].cmd| ==> ss[k].cmd[i].Idle?
  {
    var s := ss[k];
    RunAnswers(n, ss, es, k);
    RestingLock(s);
    assert !SomeoneLeaving(s) && !SomeoneSignalling(s);
    assert !SomeoneReading(s) && !SomeoneCounting(s);
    if forall i :: 0 <= i < |s.cmd| ==> !s.cmd[i].Waiting? {
      assert s.lock.Nobody?;
      forall i | 0 <= i < |s.cmd|
        ensures s.cmd[i].Idle?
      {
        assert !s.cmd[i].Idle? ==> !CmdEnabled(s, i);
      }
    }
  }
}
