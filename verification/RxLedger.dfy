/**
 The accounts of the receive protocol, kept from what the steps are and where they are
 taken: over every run what came in is what went out and what is still there.
 */
module RxLedger {
  import opened RxProtocol
  import opened RxSafety

  /** A step of a command, or of the spawn thread, taken at a point of its code. */
  predicate ByCmdAt(s: Rx, e: Step, pc: CmdPc) {
    e.Cmd? && e.i < |s.cmd| && s.cmd[e.i] == pc
  }

  predicate BySpawnAt(s: Rx, e: Step, pc: SpawnPc) {
    e.Spawn? && s.sp == pc
  }

  /** A command has read an event it may not handle itself. */
  predicate ReadsEvent(s: Rx, e: Step) {
    ByCmdAt(s, e, Classify) && e.cls.AsyncEvent?
  }

  /** A command has read its response. */
  predicate ReadsResponse(s: Rx, e: Step) {
    ByCmdAt(s, e, Classify) && e.cls.CmdResponse?
  }

  /** The spawn thread handles a stored event. */
  predicate HandlesEvent(s: Rx, e: Step) {
    BySpawnAt(s, e, SListHold)
  }

  /** A message is counted as read. */
  predicate CountsMessage(s: Rx, e: Step) {
    ByCmdAt(s, e, Counting) || BySpawnAt(s, e, SCounting)
  }

  /** A unit of work for the spawn thread: an interrupt nobody waits for, or a command that
      leaves over an unread message. */
  predicate AddsUnit(s: Rx, e: Step) {
    (e.Interrupt? && !s.wait) || ByCmdAt(s, e, PushUnit)
  }

  datatype Ledger = Ledger(
    interrupts: nat, messages: nat, events: nat, handled: nat, started: nat, answered: nat, unitsIn: nat, unitsOut: nat)

  function One(b: bool): nat {
    if b then 1 else 0
  }

  /** What one step adds. */
  function Entry(s: Rx, e: Step): Ledger {
    Ledger(One(e.Interrupt?), One(CountsMessage(s, e)), One(ReadsEvent(s, e)), One(HandlesEvent(s, e)),
           One(ByCmdAt(s, e, Locked)), One(ReadsResponse(s, e)), One(AddsUnit(s, e)), One(BySpawnAt(s, e, SAdvance)))
  }

  function Plus(l: Ledger, m: Ledger): Ledger {
    Ledger(l.interrupts + m.interrupts, l.messages + m.messages, l.events + m.events, l.handled + m.handled,
           l.started + m.started, l.answered + m.answered, l.unitsIn + m.unitsIn, l.unitsOut + m.unitsOut)
  }

  /** What the first `k` steps add up to. */
  function Books(ss: seq<Rx>, es: seq<Step>, k: nat): Ledger
    requires k <= |es| < |ss|
  {
    if k == 0 then Ledger(0, 0, 0, 0, 0, 0, 0, 0) else Plus(Books(ss, es, k - 1), Entry(ss[k - 1], es[k - 1]))
  }

  /** The state shows the balance of every account, the 8-bit counters its remainder. */
  ghost predicate Balanced(s: Rx, l: Ledger) {
    && l.interrupts == s.pend + l.messages && s.irq == l.interrupts % 256 && s.done == l.messages % 256
    && l.unitsIn == s.units + l.unitsOut && s.wr == l.unitsIn % 256 && s.rd == l.unitsOut % 256
    && l.events == s.list + l.handled
    && l.started == One(s.wait) + l.answered
  }

  /** An 8-bit counter after `n` more, at most one. */
  function Stepped(x: nat, n: nat): nat {
    if n == 0 then x else Inc(x)
  }

  /** The state moves by what the step adds: the messages, */
  ghost predicate MessagesMoved(s: Rx, l: Ledger, t: Rx) {
    && t.pend == s.pend + l.interrupts - l.messages && l.interrupts <= 1 && l.messages <= 1
    && t.irq == Stepped(s.irq, l.interrupts) && t.done == Stepped(s.done, l.messages)
  }

  /** ... the units, */
  ghost predicate UnitsMoved(s: Rx, l: Ledger, t: Rx) {
    && t.units == s.units + l.unitsIn - l.unitsOut && l.unitsIn <= 1 && l.unitsOut <= 1
    && t.wr == Stepped(s.wr, l.unitsIn) && t.rd == Stepped(s.rd, l.unitsOut)
  }

  /** ... the stored events and the response waited for. */
  ghost predicate EventsMoved(s: Rx, l: Ledger, t: Rx) {
    t.list == s.list + l.events - l.handled && One(t.wait) == One(s.wait) + l.started - l.answered
  }

  ghost predicate Moved(s: Rx, l: Ledger, t: Rx) {
    MessagesMoved(s, l, t) && UnitsMoved(s, l, t) && EventsMoved(s, l, t)
  }

  lemma InterruptMoves(s: Rx)
    requires !s.masked
    ensures Moved(s, Entry(s, Interrupt), DoInterrupt(s))
  {
  }

  /** What a command's step adds, by its place. */
  function CmdEntry(pc: CmdPc, cls: MsgClass): Ledger {
    Ledger(0, One(pc.Counting?), One(pc.Classify? && cls.AsyncEvent?), 0,
           One(pc.Locked?), One(pc.Classify? && cls.CmdResponse?), One(pc.PushUnit?), 0)
  }

  lemma CmdMessages(s: Rx, i: nat, pc: CmdPc, cls: MsgClass)
    requires pc.Counting? ==> s.pend > 0
    ensures MessagesMoved(s, CmdEntry(pc, cls), Effect(s, i, pc, cls))
    ensures UnitsMoved(s, CmdEntry(pc, cls), Effect(s, i, pc, cls))
  {
    hide Inc;
  }

  lemma CmdEvents(s: Rx, i: nat, pc: CmdPc, cls: MsgClass)
    requires pc.Counting? ==> s.pend > 0
    requires (pc.Classify? ==> s.wait) && (pc.Locked? ==> !s.wait)
    ensures EventsMoved(s, CmdEntry(pc, cls), Effect(s, i, pc, cls))
  {
    hide Inc;
  }

  lemma CmdMoves(s: Rx, i: nat, data: bool, cls: MsgClass)
    requires Enabled(s, Cmd(i, data, cls))
    requires (s.cmd[i].Classify? ==> s.wait) && (s.cmd[i].Locked? ==> !s.wait)
    ensures Moved(s, Entry(s, Cmd(i, data, cls)), DoCmd(s, i, data, cls))
  {
    hide NextPc, Inc, Effect;
    CmdMessages(s, i, s.cmd[i], cls);
    CmdEvents(s, i, s.cmd[i], cls);
    assert Entry(s, Cmd(i, data, cls)) == CmdEntry(s.cmd[i], cls);
  }

  function SpawnEntry(pc: SpawnPc): Ledger {
    Ledger(0, One(pc.SCounting?), 0, One(pc.SListHold?), 0, 0, 0, One(pc.SAdvance?))
  }

  lemma SpawnEffectMoves(s: Rx, pc: SpawnPc)
    requires SpawnReady(s, pc)
    ensures Moved(s, SpawnEntry(pc), SpawnEffect(s, pc))
  {
    hide Inc;
  }

  lemma SpawnMoves(s: Rx)
    requires SpawnEnabled(s)
    ensures Moved(s, Entry(s, RxProtocol.Step.Spawn), DoSpawn(s))
  {
    hide SpawnNext, SpawnEffect, Inc;
    SpawnEffectMoves(s, s.sp);
    assert Entry(s, RxProtocol.Step.Spawn) == SpawnEntry(s.sp);
  }

  lemma FlagFacts(s: Rx, i: nat)
    requires Inv(s) && i < |s.cmd|
    ensures s.cmd[i].Classify? ==> s.wait
    ensures s.cmd[i].Locked? ==> !s.wait
  {
    ThreadFacts(s, i);
  }

  lemma StepMoves(s: Rx, e: Step)
    requires Inv(s) && Enabled(s, e)
    ensures Moved(s, Entry(s, e), Apply(s, e))
  {
    hide Moved, Entry, Inv;
    match e
    case Interrupt => InterruptMoves(s);
    case Cmd(i, data, cls) =>
      FlagFacts(s, i);
      CmdMoves(s, i, data, cls);
    case Spawn => SpawnMoves(s);
  }

  lemma IncCounts(a: nat)
    ensures Inc(a % 256) == (a + 1) % 256
  {
  }

  lemma BalanceMoves(s: Rx, l: Ledger, m: Ledger, t: Rx)
    requires Balanced(s, l) && Moved(s, m, t)
    ensures Balanced(t, Plus(l, m))
  {
    hide Inc;
    IncCounts(l.interrupts);
    IncCounts(l.messages);
    IncCounts(l.unitsIn);
    IncCounts(l.unitsOut);
  }

  /** In every run, whatever the interleaving: the interrupts are the messages read and those
      unread; the events the commands have read are those the spawn thread has handled and
      those stored; every command that has raised its flag has had its response, or waits
      for it now; the units given to the spawn thread are those it has finished and those
      outstanding; and the 8-bit counters are these sums modulo 256. */
  lemma {:induction false} BooksBalance(n: nat, ss: seq<Rx>, es: seq<Step>, k: nat)
    requires RunFrom(Start(n), ss, es) && k <= |es|
    ensures Balanced(ss[k], Books(ss, es, k))
  {
    hide Inv, Entry, Apply, Enabled;
    if k > 0 {
      BooksBalance(n, ss, es, k - 1);
      StartInv(n);
      RunInv(Start(n), ss, es, k - 1);
      StepMoves(ss[k - 1], es[k - 1]);
      assert ss[k] == Apply(ss[k - 1], es[k - 1]);
      BalanceMoves(ss[k - 1], Books(ss, es, k - 1), Entry(ss[k - 1], es[k - 1]), ss[k]);
    }
  }

  // ------------------------------------------------------------------ mask and signals

  /** The interrupt mask and the two sync objects, by what was last done to them. */
  datatype Flags = Flags(masked: bool, cmdSignal: bool, spawnSignal: bool)

  function Raised(f: Flags, s: Rx, e: Step): Flags {
    Flags(
      e.Interrupt? || (f.masked && !ByCmdAt(s, e, Reading) && !BySpawnAt(s, e, SReading)),
      (e.Interrupt? && s.wait) || (f.cmdSignal && !ByCmdAt(s, e, ClearSync) && !ByCmdAt(s, e, Waiting)),
      || (e.Interrupt? && !s.wait) || ByCmdAt(s, e, SignalList) || ByCmdAt(s, e, SignalUnit)
      || (f.spawnSignal && !BySpawnAt(s, e, SWait)))
  }

  /** What the first `k` steps leave of them. */
  function FlagsOf(ss: seq<Rx>, es: seq<Step>, k: nat): Flags
    requires k <= |es| < |ss|
  {
    if k == 0 then Flags(false, false, false) else Raised(FlagsOf(ss, es, k - 1), ss[k - 1], es[k - 1])
  }

  ghost predicate Shows(s: Rx, f: Flags) {
    s.masked == f.masked && s.cmdSync == f.cmdSignal && s.spawnSync == f.spawnSignal
  }

  lemma CmdFlags(s: Rx, i: nat, pc: CmdPc, cls: MsgClass)
    requires pc.Counting? ==> s.pend > 0
    ensures var t := Effect(s, i, pc, cls);
      && t.masked == (s.masked && !pc.Reading?)
      && t.cmdSync == (s.cmdSync && !pc.ClearSync? && !pc.Waiting?)
      && t.spawnSync == (s.spawnSync || pc.SignalList? || pc.SignalUnit?)
  {
  }

  lemma SpawnFlags(s: Rx, pc: SpawnPc)
    requires SpawnReady(s, pc)
    ensures var t := SpawnEffect(s, pc);
      && t.masked == (s.masked && !pc.SReading?) && t.cmdSync == s.cmdSync
      && t.spawnSync == (s.spawnSync && !pc.SWait?)
  {
  }

  lemma StepRaises(s: Rx, e: Step, f: Flags)
    requires Enabled(s, e) && Shows(s, f)
    ensures Shows(Apply(s, e), Raised(f, s, e))
  {
    hide Effect, NextPc, SpawnEffect, SpawnNext;
    match e
    case Interrupt =>
    case Cmd(i, data, cls) => CmdFlags(s, i, s.cmd[i], cls);
    case Spawn => SpawnFlags(s, s.sp);
  }

  /** In every run: the interrupt is masked exactly between an interrupt and the read that
      unmasks it; a command's sync object is signalled by interrupts while it waits, and its
      wait, or the response, takes the signal; the spawn thread's is signalled by the other
      interrupts and by commands, and its wait takes the signal. */
  lemma {:induction false} FlagsAreLast(n: nat, ss: seq<Rx>, es: seq<Step>, k: nat)
    requires RunFrom(Start(n), ss, es) && k <= |es|
    ensures Shows(ss[k], FlagsOf(ss, es, k))
  {
    hide Raised, Apply, Enabled;
    if k > 0 {
      FlagsAreLast(n, ss, es, k - 1);
      StepRaises(ss[k - 1], es[k - 1], FlagsOf(ss, es, k - 1));
      assert ss[k] == Apply(ss[k - 1], es[k - 1]);
    }
  }

  // ------------------------------------------------------------------ at rest

  /** Nothing is lost: at rest, with no command waiting for its response, every event a
      command has read has been handled and every command answered; and unless the spawn
      thread sleeps over its units, every interrupt's message has been read and every unit
      finished. */
  lemma RestIsSettled(n: nat, ss: seq<Rx>, es: seq<Step>, k: nat)
    requires RunFrom(Start(n), ss, es) && k <= |es| && AtRest(ss[k])
    requires forall i :: 0 <= i < |ss[k].cmd| ==> !ss[k].cmd[i].Waiting?
    ensures var l := Books(ss, es, k);
      && l.events == l.handled && l.started == l.answered
      && (!Overslept(ss[k]) ==> l.interrupts == l.messages && l.unitsIn == l.unitsOut)
  {
    BooksBalance(n, ss, es, k);
    RestIsDrained(n, ss, es, k);
    PendingTestIsExact(n, ss, es, k);
    StartInv(n);
    RunInv(Start(n), ss, es, k);
    assert forall i :: 0 <= i < |ss[k].cmd| ==> ss[k].cmd[i].Idle?;
  }
}
