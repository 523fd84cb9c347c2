/**
 Who reads the next message of the network processor? The receive interrupt, the command
 threads and the spawn thread share 8-bit counters, a wait flag, two binary sync objects
 and the global lock. This is their protocol, one atomic action per step, in any
 interleaving of the interrupt, any number of command threads and the spawn thread.
 */
module RxProtocol {

  /** Where a command thread stands in _SlDrvCmdOp / _SlDrvMsgReadCmdCtx. The Data states
      are a data operation, which holds the global lock only to write. */
  datatype CmdPc =
    | Idle | WantLock | Locked | Writing
    | LoopTop | CheckPending | Reading | Counting | Classify | ClearSync | Waiting
    | ListCheck | SignalList | Unlocking
    | FinalCheck | PushUnit | SignalUnit
    | WantData | DataLocked

  /** Where the spawn thread stands in _SlInternalSpawnWaitForEvent, _SlSpawnMsgListProcess
      and _SlDrvMsgReadSpawnCtx. */
  datatype SpawnPc =
    | SWait | SListStart | SListLoop | SListWant | SListHold | SListDone
    | SCheck | SWantLock | SPendCheck | SReading | SCounting | SUnlock | SAdvance

  datatype Owner = Nobody | ByCmd(i: nat) | BySpawn

  datatype MsgClass = CmdResponse | AsyncEvent | OtherMsg

  /** The counters are the 8-bit ones. `pend` and `units` are the true numbers of unread
      interrupts and of outstanding spawn units; no branch looks at them. */
  datatype Rx = Rx(
    masked: bool, irq: nat, done: nat, wait: bool, cmdSync: bool,
    spawnSync: bool, wr: nat, rd: nat, list: nat, lock: Owner,
    cmd: seq<CmdPc>, sp: SpawnPc, cur: bool,
    pend: nat, units: nat)

  datatype Step =
    | Interrupt
    | Cmd(i: nat, data: bool, cls: MsgClass)
    | Spawn

  function Inc(x: nat): nat {
    (x + 1) % 256
  }

  function Start(n: nat): Rx {
    Rx(false, 0, 0, false, false, false, 0, 0, 0, Nobody, seq(n, _ => Idle), SWait, false, 0, 0)
  }

  predicate CmdEnabled(s: Rx, i: nat) {
    && i < |s.cmd|
    && match s.cmd[i]
       case WantLock => s.lock.Nobody?
       case WantData => s.lock.Nobody?
       case Waiting => s.cmdSync
       case _ => true
  }

  predicate SpawnEnabled(s: Rx) {
    match s.sp
    case SWait => s.spawnSync
    case SListWant => s.lock.Nobody?
    case SWantLock => s.lock.Nobody?
    case SListHold => s.list > 0
    case SCounting => s.pend > 0
    case SAdvance => s.units > 0
    case _ => true
  }

  predicate Enabled(s: Rx, e: Step) {
    match e
    case Interrupt => !s.masked
    case Cmd(i, _, _) => CmdEnabled(s, i) && (s.cmd[i].Counting? ==> s.pend > 0)
    case Spawn => SpawnEnabled(s)
  }

  function Go(s: Rx, i: nat, pc: CmdPc): Rx
    requires i < |s.cmd|
  {
    s.(cmd := s.cmd[i := pc])
  }

  function DoInterrupt(s: Rx): Rx {
    var t := s.(masked := true, irq := Inc(s.irq), pend := s.pend + 1);
    if s.wait then t.(cmdSync := true)
    else t.(wr := Inc(s.wr), units := s.units + 1, spawnSync := true)
  }

  /** Where the command thread goes next. */
  function NextPc(s: Rx, pc: CmdPc, data: bool, cls: MsgClass): CmdPc {
    match pc
    case Idle => if data then WantData else WantLock
    case WantLock => Locked
    case Locked => Writing
    case Writing => LoopTop
    case LoopTop => if s.wait then CheckPending else ListCheck
    case CheckPending => if s.irq != s.done then Reading else Waiting
    case Reading => Counting
    case Counting => Classify
    case Classify => if cls.CmdResponse? then ClearSync else LoopTop
    case ClearSync => LoopTop
    case Waiting => LoopTop
    case ListCheck => if s.list > 0 then SignalList else Unlocking
    case SignalList => Unlocking
    case Unlocking => FinalCheck
    case FinalCheck => if s.irq != s.done then PushUnit else Idle
    case PushUnit => SignalUnit
    case SignalUnit => Idle
    case WantData => DataLocked
    case DataLocked => Idle
  }

  /** What its step does to the shared state. */
  function Effect(s: Rx, i: nat, pc: CmdPc, cls: MsgClass): Rx
    requires pc.Counting? ==> s.pend > 0
  {
    match pc
    case WantLock => s.(lock := ByCmd(i))
    case Locked => s.(wait := true)
    case Reading => s.(masked := false)
    case Counting => s.(done := Inc(s.done), pend := s.pend - 1)
    case Classify =>
      if cls.CmdResponse? then s.(wait := false) else if cls.AsyncEvent? then s.(list := s.list + 1) else s
    case ClearSync => s.(cmdSync := false)
    case Waiting => s.(cmdSync := false)
    case SignalList => s.(spawnSync := true)
    case Unlocking => s.(lock := Nobody)
    case PushUnit => s.(wr := Inc(s.wr), units := s.units + 1)
    case SignalUnit => s.(spawnSync := true)
    case WantData => s.(lock := ByCmd(i))
    case DataLocked => s.(lock := Nobody)
    case _ => s
  }

  function DoCmd(s: Rx, i: nat, data: bool, cls: MsgClass): Rx
    requires CmdEnabled(s, i) && (s.cmd[i].Counting? ==> s.pend > 0)
  {
    Go(Effect(s, i, s.cmd[i], cls), i, NextPc(s, s.cmd[i], data, cls))
  }

  function SpawnNext(s: Rx, pc: SpawnPc): SpawnPc {
    match pc
    case SWait => SListStart
    case SListStart => SListLoop
    case SListLoop => if s.cur then SListWant else SCheck
    case SListWant => SListHold
    case SListHold => SListDone
    case SListDone => SListLoop
    case SCheck => if s.wr != s.rd then SWantLock else SWait
    case SWantLock => SPendCheck
    case SPendCheck => if s.irq != s.done then SReading else SUnlock
    case SReading => SCounting
    case SCounting => SUnlock
    case SUnlock => SAdvance
    case SAdvance => SCheck
  }

  function SpawnEffect(s: Rx, pc: SpawnPc): Rx
    requires (pc.SListHold? ==> s.list > 0) && (pc.SCounting? ==> s.pend > 0) && (pc.SAdvance? ==> s.units > 0)
  {
    match pc
    case SWait => s.(spawnSync := false)
    case SListStart => s.(cur := s.list > 0)
    case SListWant => s.(lock := BySpawn)
    case SListHold => s.(list := s.list - 1, cur := s.list > 1)
    case SListDone => s.(lock := Nobody)
    case SWantLock => s.(lock := BySpawn)
    case SReading => s.(masked := false)
    case SCounting => s.(done := Inc(s.done), pend := s.pend - 1)
    case SUnlock => s.(lock := Nobody)
    case SAdvance => s.(rd := Inc(s.rd), units := s.units - 1)
    case _ => s
  }

  function DoSpawn(s: Rx): Rx
    requires SpawnEnabled(s)
  {
    SpawnEffect(s, s.sp).(sp := SpawnNext(s, s.sp))
  }

  function Apply(s: Rx, e: Step): Rx
    requires Enabled(s, e)
  {
    match e
    case Interrupt => DoInterrupt(s)
    case Cmd(i, data, cls) => DoCmd(s, i, data, cls)
    case Spawn => DoSpawn(s)
  }

  ghost predicate RunFrom(s: Rx, ss: seq<Rx>, es: seq<Step>) {
    && |ss| == |es| + 1 && ss[0] == s
    && forall k :: 0 <= k < |es| ==> Enabled(ss[k], es[k]) && ss[k + 1] == Apply(ss[k], es[k])
  }

  // ------------------------------------------------------------------ what every step keeps

  predicate HoldsLock(pc: CmdPc) {
    || pc.Locked? || pc.Writing? || pc.LoopTop? || pc.CheckPending? || pc.Reading? || pc.Counting? || pc.Classify?
    || pc.ClearSync? || pc.Waiting? || pc.ListCheck? || pc.SignalList? || pc.Unlocking? || pc.DataLocked?
  }

  predicate SpawnHolds(pc: SpawnPc) {
    (pc.SListHold? || pc.SListDone? || pc.SPendCheck? || pc.SReading? || pc.SCounting? || pc.SUnlock?)
  }

  /** The wait flag is up from the write until the response has been classified. */
  predicate WaitsInside(pc: CmdPc) {
    (pc.Writing? || pc.CheckPending? || pc.Reading? || pc.Counting? || pc.Classify? || pc.Waiting?)
  }

  predicate SomeoneCounting(s: Rx) {
    || (s.lock.ByCmd? && s.lock.i < |s.cmd| && s.cmd[s.lock.i].Counting?)
    || s.sp.SCounting?
  }

  predicate SomeoneReading(s: Rx) {
    || (s.lock.ByCmd? && s.lock.i < |s.cmd| && s.cmd[s.lock.i].Reading?)
    || s.sp.SReading?
  }

  ghost predicate LockInv(s: Rx) {
    && (forall i :: 0 <= i < |s.cmd| ==> (HoldsLock(s.cmd[i]) <==> s.lock == ByCmd(i)))
    && (SpawnHolds(s.sp) <==> s.lock.BySpawn?)
    && (s.lock.ByCmd? ==> s.lock.i < |s.cmd|)
  }

  ghost predicate WaitInv(s: Rx) {
    && (s.wait ==> s.lock.ByCmd? && s.lock.i < |s.cmd|)
    && (s.wait ==> WaitsInside(s.cmd[s.lock.i]) || s.cmd[s.lock.i].LoopTop?)
    && (forall i :: 0 <= i < |s.cmd| && WaitsInside(s.cmd[i]) ==> s.wait)
  }

  /** The interrupt stays masked until its message has been read and is unmasked before it
      is counted: so at most two interrupts are unread, and exactly the mask and the
      reader's position say how many. */
  ghost predicate MaskInv(s: Rx) {
    && s.pend == (if s.masked then 1 else 0) + (if SomeoneCounting(s) then 1 else 0)
    && s.irq == (s.done + s.pend) % 256 && s.done < 256
    && (SomeoneReading(s) ==> s.masked)
  }

  predicate UnitTaken(pc: SpawnPc) {
    (pc.SWantLock? || pc.SPendCheck? || pc.SReading? || pc.SCounting? || pc.SUnlock? || pc.SAdvance?)
  }

  /** The pending test of this unit is over: it answers for no later message. */
  predicate UnitSpent(pc: SpawnPc) {
    (pc.SReading? || pc.SCounting? || pc.SUnlock? || pc.SAdvance?)
  }

  ghost predicate UnitInv(s: Rx) {
    && s.wr == (s.rd + s.units) % 256 && s.rd < 256
    && (UnitTaken(s.sp) ==> s.units >= 1)
  }

  ghost predicate ListInv(s: Rx) {
    && (s.sp.SListHold? ==> s.list > 0)
    && (s.cur && (s.sp.SListLoop? || s.sp.SListWant? || s.sp.SListDone?) ==> s.list > 0)
    && (s.sp.SListWant? ==> s.cur)
  }

  /** The structural invariant; it needs no bound on the number of spawn units. */
  ghost predicate Inv(s: Rx) {
    LockInv(s) && WaitInv(s) && MaskInv(s) && UnitInv(s) && ListInv(s)
  }

  lemma StartInv(n: nat)
    ensures Inv(Start(n))
  {
  }

  lemma InterruptInv(s: Rx)
    requires Inv(s) && !s.masked
    ensures Inv(DoInterrupt(s))
  {
    InterruptMask(s);
    InterruptUnits(s);
  }

  lemma InterruptMask(s: Rx)
    requires LockInv(s) && WaitInv(s) && MaskInv(s) && !s.masked
    ensures LockInv(DoInterrupt(s)) && WaitInv(DoInterrupt(s)) && MaskInv(DoInterrupt(s))
  {
    IncMod(s.done, s.pend);
  }

  lemma InterruptUnits(s: Rx)
    requires UnitInv(s) && ListInv(s)
    ensures UnitInv(DoInterrupt(s)) && ListInv(DoInterrupt(s))
  {
    IncMod(s.rd, s.units);
  }

  lemma IncMod(a: nat, b: nat)
    requires a < 256
    ensures Inc((a + b) % 256) == (a + (b + 1)) % 256
    ensures b >= 1 ==> (Inc(a) + (b - 1)) % 256 == (a + b) % 256
  {
  }

  /** What one command step does to the lock, seen from its own thread `i` alone. */
  ghost predicate LockMove(s: Rx, i: nat, pc: CmdPc, t: Rx, q: CmdPc) {
    && t.cmd == s.cmd && t.sp == s.sp
    && (HoldsLock(q) <==> t.lock == ByCmd(i))
    && (|| t.lock == s.lock
        || (s.lock.Nobody? && t.lock == ByCmd(i))
        || (s.lock == ByCmd(i) && t.lock.Nobody?))
  }

  /** ... and to the wait flag, which only the lock's owner touches. */
  ghost predicate WaitMove(s: Rx, i: nat, t: Rx, q: CmdPc) {
    && (t.wait != s.wait ==> s.lock == ByCmd(i))
    && (t.wait && t.lock == ByCmd(i) ==> WaitsInside(q) || q.LoopTop?)
    && (t.wait && s.lock == ByCmd(i) ==> t.lock == ByCmd(i))
    && (WaitsInside(q) ==> t.wait)
  }

  /** ... and to the mask and the counters: 0 or 1 of the unread ones is being counted. */
  ghost predicate MaskMove(s: Rx, i: nat, pc: CmdPc, t: Rx, q: CmdPc) {
    && (q.Counting? || q.Reading? || pc.Counting? || pc.Reading? ==> s.lock == ByCmd(i) && t.lock == ByCmd(i))
    && t.pend - (if t.masked then 1 else 0) - (if q.Counting? then 1 else 0)
       == s.pend - (if s.masked then 1 else 0) - (if pc.Counting? then 1 else 0)
    && (q.Reading? ==> t.masked)
    && (t.masked != s.masked ==> s.lock == ByCmd(i))
  }

  /** Counting a message keeps RxDoneCnt plus the unread ones equal to RxIrqCnt. */
  ghost predicate CountMove(s: Rx, t: Rx) {
    t.irq == s.irq && (t.done + t.pend) % 256 == (s.done + s.pend) % 256 && t.done < 256
  }

  lemma LockMoves(s: Rx, i: nat, pc: CmdPc, data: bool, cls: MsgClass)
    requires HoldsLock(pc) <==> s.lock == ByCmd(i)
    requires pc.WantLock? || pc.WantData? ==> s.lock.Nobody?
    requires pc.Counting? ==> s.pend > 0
    ensures LockMove(s, i, pc, Effect(s, i, pc, cls), NextPc(s, pc, data, cls))
  {
  }

  lemma WaitMoves(s: Rx, i: nat, pc: CmdPc, data: bool, cls: MsgClass)
    requires HoldsLock(pc) <==> s.lock == ByCmd(i)
    requires pc.WantLock? || pc.WantData? ==> s.lock.Nobody?
    requires pc.Counting? ==> s.pend > 0
    requires WaitsInside(pc) ==> s.wait
    requires s.wait ==> s.lock.ByCmd? && (s.lock.i == i ==> WaitsInside(pc) || pc.LoopTop?)
    ensures WaitMove(s, i, Effect(s, i, pc, cls), NextPc(s, pc, data, cls))
  {
  }

  lemma MaskMoves(s: Rx, i: nat, pc: CmdPc, data: bool, cls: MsgClass)
    requires HoldsLock(pc) <==> s.lock == ByCmd(i)
    requires pc.Counting? ==> s.pend > 0
    requires pc.CheckPending? ==> (s.irq != s.done <==> s.masked)
    requires pc.Reading? ==> s.masked
    ensures MaskMove(s, i, pc, Effect(s, i, pc, cls), NextPc(s, pc, data, cls))
  {
  }

  lemma CountMoves(s: Rx, i: nat, pc: CmdPc, cls: MsgClass)
    requires pc.Counting? ==> s.pend > 0
    requires s.done < 256
    ensures CountMove(s, Effect(s, i, pc, cls))
  {
    if pc.Counting? {
      IncMod(s.done, s.pend);
    }
  }

  lemma LockInvFrom(s: Rx, i: nat, t: Rx, q: CmdPc)
    requires LockInv(s) && i < |s.cmd| && LockMove(s, i, s.cmd[i], t, q)
    ensures LockInv(Go(t, i, q))
  {
  }

  lemma WaitInvFrom(s: Rx, i: nat, t: Rx, q: CmdPc)
    requires LockInv(s) && WaitInv(s) && i < |s.cmd| && LockMove(s, i, s.cmd[i], t, q) && WaitMove(s, i, t, q)
    ensures WaitInv(Go(t, i, q))
  {
    assert forall j :: 0 <= j < |s.cmd| && WaitsInside(s.cmd[j]) ==> s.lock == ByCmd(j);
  }

  lemma MaskInvFrom(s: Rx, i: nat, t: Rx, q: CmdPc)
    requires LockInv(s) && MaskInv(s) && i < |s.cmd|
    requires LockMove(s, i, s.cmd[i], t, q) && MaskMove(s, i, s.cmd[i], t, q) && CountMove(s, t)
    ensures MaskInv(Go(t, i, q))
  {
    assert HoldsLock(s.cmd[i]) <==> s.lock == ByCmd(i);
    var u := Go(t, i, q);
    if s.lock.ByCmd? && s.lock.i != i {
      assert u.cmd[s.lock.i] == s.cmd[s.lock.i];
    }
  }

  /** A command step touches the units and the list only by adding to them. */
  lemma UnitMoves(s: Rx, i: nat, pc: CmdPc, cls: MsgClass)
    requires pc.Counting? ==> s.pend > 0
    requires s.wr == (s.rd + s.units) % 256 && s.rd < 256
    ensures var t := Effect(s, i, pc, cls);
      && t.rd == s.rd && t.units >= s.units && t.list >= s.list && t.sp == s.sp && t.cur == s.cur
      && t.wr == (t.rd + t.units) % 256
  {
    if pc.PushUnit? {
      IncMod(s.rd, s.units);
    }
  }

  lemma UnitInvFrom(s: Rx, i: nat, t: Rx, q: CmdPc)
    requires UnitInv(s) && ListInv(s) && i < |t.cmd|
    requires t.rd == s.rd && t.units >= s.units && t.list >= s.list && t.sp == s.sp && t.cur == s.cur
    requires t.wr == (t.rd + t.units) % 256
    ensures UnitInv(Go(t, i, q)) && ListInv(Go(t, i, q))
  {
  }

  lemma ThreadFacts(s: Rx, i: nat)
    requires Inv(s) && i < |s.cmd|
    ensures HoldsLock(s.cmd[i]) <==> s.lock == ByCmd(i)
    ensures WaitsInside(s.cmd[i]) ==> s.wait
    ensures s.wait ==> s.lock.ByCmd? && (s.lock.i == i ==> WaitsInside(s.cmd[i]) || s.cmd[i].LoopTop?)
    ensures s.cmd[i].CheckPending? ==> (s.irq != s.done <==> s.masked)
    ensures s.cmd[i].Reading? ==> s.masked
    ensures s.irq == (s.done + s.pend) % 256 && s.done < 256
    ensures s.wr == (s.rd + s.units) % 256 && s.rd < 256
  {
  }

  lemma CmdInvFrom(s: Rx, i: nat, t: Rx, q: CmdPc)
    requires Inv(s) && i < |s.cmd|
    requires LockMove(s, i, s.cmd[i], t, q) && WaitMove(s, i, t, q) && MaskMove(s, i, s.cmd[i], t, q)
    requires CountMove(s, t)
    requires t.rd == s.rd && t.units >= s.units && t.list >= s.list && t.cur == s.cur
    requires t.wr == (t.rd + t.units) % 256
    ensures Inv(Go(t, i, q))
  {
    LockInvFrom(s, i, t, q);
    WaitInvFrom(s, i, t, q);
    MaskInvFrom(s, i, t, q);
    UnitInvFrom(s, i, t, q);
  }

  lemma CmdInv(s: Rx, i: nat, data: bool, cls: MsgClass)
    requires Inv(s) && Enabled(s, Cmd(i, data, cls))
    ensures Inv(DoCmd(s, i, data, cls))
  {
    hide Effect, NextPc, Inv;
    ThreadFacts(s, i);
    LockMoves(s, i, s.cmd[i], data, cls);
    WaitMoves(s, i, s.cmd[i], data, cls);
    MaskMoves(s, i, s.cmd[i], data, cls);
    CountMoves(s, i, s.cmd[i], cls);
    UnitMoves(s, i, s.cmd[i], cls);
    CmdInvFrom(s, i, Effect(s, i, s.cmd[i], cls), NextPc(s, s.cmd[i], data, cls));
  }

  predicate SpawnReady(s: Rx, pc: SpawnPc) {
    && (pc.SListHold? ==> s.list > 0) && (pc.SCounting? ==> s.pend > 0) && (pc.SAdvance? ==> s.units > 0)
    && (pc.SListWant? || pc.SWantLock? ==> s.lock.Nobody?)
    && (pc.SWait? ==> s.spawnSync)
  }

  /** What a spawn step does to the lock, seen from the spawn thread alone. */
  ghost predicate SpawnLockMove(s: Rx, t: Rx, q: SpawnPc) {
    && t.cmd == s.cmd && t.wait == s.wait
    && (SpawnHolds(q) <==> t.lock.BySpawn?)
    && (|| t.lock == s.lock || (s.lock.Nobody? && t.lock.BySpawn?) || (s.lock.BySpawn? && t.lock.Nobody?))
  }

  /** ... and to the mask, which only the lock's owner touches. */
  ghost predicate SpawnMaskMove(s: Rx, pc: SpawnPc, t: Rx, q: SpawnPc) {
    && t.pend - (if t.masked then 1 else 0) - (if q.SCounting? then 1 else 0)
       == s.pend - (if s.masked then 1 else 0) - (if pc.SCounting? then 1 else 0)
    && (q.SReading? ==> t.masked)
    && (t.masked != s.masked ==> s.lock.BySpawn?)
    && (q.SCounting? != pc.SCounting? ==> s.lock.BySpawn?)
  }

  /** ... and to its units and the list. */
  ghost predicate SpawnUnitMove(s: Rx, pc: SpawnPc, t: Rx, q: SpawnPc) {
    && t.wr == s.wr && (t.rd + t.units) % 256 == (s.rd + s.units) % 256 && t.rd < 256
    && (UnitTaken(q) ==> t.units >= 1)
    && (q.SListHold? ==> t.list > 0)
    && (t.cur && (q.SListLoop? || q.SListWant? || q.SListDone?) ==> t.list > 0)
    && (q.SListWant? ==> t.cur)
  }

  lemma SpawnLockMoves(s: Rx, pc: SpawnPc)
    requires SpawnReady(s, pc)
    requires SpawnHolds(pc) <==> s.lock.BySpawn?
    ensures SpawnLockMove(s, SpawnEffect(s, pc), SpawnNext(s, pc))
  {
  }

  lemma SpawnMaskMoves(s: Rx, pc: SpawnPc)
    requires SpawnReady(s, pc)
    requires pc.SReading? || pc.SCounting? ==> s.lock.BySpawn?
    requires pc.SPendCheck? ==> (s.irq != s.done <==> s.masked)
    requires pc.SReading? ==> s.masked
    ensures SpawnMaskMove(s, pc, SpawnEffect(s, pc), SpawnNext(s, pc))
  {
  }

  lemma SpawnCountMoves(s: Rx, pc: SpawnPc)
    requires SpawnReady(s, pc) && s.done < 256
    ensures CountMove(s, SpawnEffect(s, pc))
  {
    if pc.SCounting? {
      IncMod(s.done, s.pend);
    }
  }

  lemma SpawnUnitMoves(s: Rx, pc: SpawnPc)
    requires SpawnReady(s, pc) && s.rd < 256 && (s.wr != s.rd ==> s.units >= 1)
    requires UnitTaken(pc) ==> s.units >= 1
    requires s.cur && (pc.SListLoop? || pc.SListWant? || pc.SListDone?) ==> s.list > 0
    requires pc.SListWant? ==> s.cur
    ensures SpawnUnitMove(s, pc, SpawnEffect(s, pc), SpawnNext(s, pc))
  {
    if pc.SAdvance? {
      IncMod(s.rd, s.units);
    }
  }

  lemma SpawnInvFrom(s: Rx, t: Rx, q: SpawnPc)
    requires Inv(s) && t.sp == s.sp
    requires SpawnLockMove(s, t, q) && SpawnMaskMove(s, s.sp, t, q) && CountMove(s, t) && SpawnUnitMove(s, s.sp, t, q)
    ensures Inv(t.(sp := q))
  {
  }

  lemma SpawnFacts(s: Rx)
    requires Inv(s)
    ensures SpawnHolds(s.sp) <==> s.lock.BySpawn?
    ensures s.sp.SPendCheck? ==> (s.irq != s.done <==> s.masked)
    ensures s.sp.SReading? ==> s.masked
    ensures s.done < 256 && s.rd < 256 && (s.wr != s.rd ==> s.units >= 1)
    ensures UnitTaken(s.sp) ==> s.units >= 1
    ensures s.cur && (s.sp.SListLoop? || s.sp.SListWant? || s.sp.SListDone?) ==> s.list > 0
    ensures s.sp.SListWant? ==> s.cur
  {
  }

  lemma SpawnInv(s: Rx)
    requires Inv(s) && SpawnEnabled(s)
    ensures Inv(DoSpawn(s))
  {
    hide SpawnEffect, SpawnNext, Inv, SpawnLockMove, SpawnMaskMove, SpawnUnitMove, CountMove;
    SpawnFacts(s);
    SpawnLockMoves(s, s.sp);
    SpawnMaskMoves(s, s.sp);
    SpawnCountMoves(s, s.sp);
    SpawnUnitMoves(s, s.sp);
    EffectKeepsPc(s, s.sp);
    SpawnInvFrom(s, SpawnEffect(s, s.sp), SpawnNext(s, s.sp));
  }

  lemma EffectKeepsPc(s: Rx, pc: SpawnPc)
    requires SpawnReady(s, pc)
    ensures SpawnEffect(s, pc).sp == s.sp
  {
  }

  lemma StepInv(s: Rx, e: Step)
    requires Inv(s) && Enabled(s, e)
    ensures Inv(Apply(s, e))
  {
    match e
    case Interrupt => InterruptInv(s);
    case Cmd(i, data, cls) => CmdInv(s, i, data, cls);
    case Spawn => SpawnInv(s);
  }

  lemma {:induction false} RunInv(s: Rx, ss: seq<Rx>, es: seq<Step>, k: nat)
    requires Inv(s) && RunFrom(s, ss, es) && k < |ss|
    ensures Inv(ss[k])
  {
    if k > 0 {
      RunInv(s, ss, es, k - 1);
      StepInv(ss[k - 1], es[k - 1]);
    }
  }

  /** In every run: at most two interrupts are unread, so the test RxIrqCnt != RxDoneCnt on
      8-bit counters answers exactly whether a message is unread; and once the reader has
      counted, at most one is, and it is the one that holds the mask. */
  lemma PendingTestIsExact(n: nat, ss: seq<Rx>, es: seq<Step>, k: nat)
    requires RunFrom(Start(n), ss, es) && k < |ss|
    ensures ss[k].pend <= 2
    ensures ss[k].irq != ss[k].done <==> ss[k].pend > 0
    ensures !SomeoneCounting(ss[k]) ==> (ss[k].pend == 1 <==> ss[k].masked)
  {
    StartInv(n);
    RunInv(Start(n), ss, es, k);
  }
}
