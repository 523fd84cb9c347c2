/**
 The ways through a command and through the spawn thread's loop, told from the point that is
 reached.
 */
module RxPaths {
  import opened RxProtocol

  /** Where a step of a command leads, told from there. `unread` is what the 8-bit counters
      say when it is taken. */
  predicate CmdReaches(s: Rx, pc: CmdPc, data: bool, cls: MsgClass, q: CmdPc) {
    var unread := s.irq != s.done;
    match q
    case Idle => pc.SignalUnit? || pc.DataLocked? || (pc.FinalCheck? && !unread)
    case WantLock => pc.Idle? && !data
    case Locked => pc.WantLock?
    case Writing => pc.Locked?
    case LoopTop => pc.Writing? || pc.ClearSync? || pc.Waiting? || (pc.Classify? && !cls.CmdResponse?)
    case CheckPending => pc.LoopTop? && s.wait
    case Reading => pc.CheckPending? && unread
    case Counting => pc.Reading?
    case Classify => pc.Counting?
    case ClearSync => pc.Classify? && cls.CmdResponse?
    case Waiting => pc.CheckPending? && !unread
    case ListCheck => pc.LoopTop? && !s.wait
    case SignalList => pc.ListCheck? && s.list > 0
    case Unlocking => pc.SignalList? || (pc.ListCheck? && s.list == 0)
    case FinalCheck => pc.Unlocking?
    case PushUnit => pc.FinalCheck? && unread
    case SignalUnit => pc.PushUnit?
    case WantData => pc.Idle? && data
    case DataLocked => pc.WantData?
  }

  predicate SpawnReaches(s: Rx, pc: SpawnPc, q: SpawnPc) {
    var unread := s.irq != s.done;
    match q
    case SWait => pc.SCheck? && s.wr == s.rd
    case SListStart => pc.SWait?
    case SListLoop => pc.SListStart? || pc.SListDone?
    case SListWant => pc.SListLoop? && s.cur
    case SListHold => pc.SListWant?
    case SListDone => pc.SListHold?
    case SCheck => pc.SAdvance? || (pc.SListLoop? && !s.cur)
    case SWantLock => pc.SCheck? && s.wr != s.rd
    case SPendCheck => pc.SWantLock?
    case SReading => pc.SPendCheck? && unread
    case SCounting => pc.SReading?
    case SUnlock => pc.SCounting? || (pc.SPendCheck? && !unread)
    case SAdvance => pc.SUnlock?
  }

  lemma NextPcIff(s: Rx, pc: CmdPc, data: bool, cls: MsgClass, q: CmdPc)
    ensures NextPc(s, pc, data, cls) == q <==> CmdReaches(s, pc, data, cls, q)
  {
  }

  lemma SpawnNextIff(s: Rx, pc: SpawnPc, q: SpawnPc)
    ensures SpawnNext(s, pc) == q <==> SpawnReaches(s, pc, q)
  {
  }

  /** What a step does to the threads' places. */
  ghost predicate Placed(s: Rx, e: Step, t: Rx, i: nat) {
    && |s.cmd| == |t.cmd| && (e.Cmd? ==> e.i < |s.cmd|)
    && (i < |s.cmd| ==>
         if e.Cmd? && e.i == i then CmdReaches(s, s.cmd[i], e.data, e.cls, t.cmd[i]) else t.cmd[i] == s.cmd[i])
    && (if e.Spawn? then SpawnReaches(s, s.sp, t.sp) else t.sp == s.sp)
    && t.cur == if e.Spawn? && s.sp.SListStart? then s.list > 0
                else if e.Spawn? && s.sp.SListHold? then s.list > 1 else s.cur
  }

  lemma CmdPlaced(s: Rx, e: Step, i: nat)
    requires Enabled(s, e) && e.Cmd?
    ensures Placed(s, e, Apply(s, e), i)
  {
    hide NextPc, CmdReaches, Effect;
    NextPcIff(s, s.cmd[e.i], e.data, e.cls, NextPc(s, s.cmd[e.i], e.data, e.cls));
    EffectThreads(s, e.i, s.cmd[e.i], e.cls);
  }

  lemma SpawnPlaced(s: Rx, i: nat)
    requires SpawnEnabled(s)
    ensures Placed(s, RxProtocol.Step.Spawn, DoSpawn(s), i)
  {
    hide SpawnNext, SpawnReaches, SpawnEffect;
    SpawnNextIff(s, s.sp, SpawnNext(s, s.sp));
    SpawnThreads(s, s.sp);
  }

  lemma EffectThreads(s: Rx, i: nat, pc: CmdPc, cls: MsgClass)
    requires pc.Counting? ==> s.pend > 0
    ensures var t := Effect(s, i, pc, cls); t.cmd == s.cmd && t.sp == s.sp && t.cur == s.cur
  {
  }

  lemma SpawnThreads(s: Rx, pc: SpawnPc)
    requires SpawnReady(s, pc)
    ensures var t := SpawnEffect(s, pc);
      t.cmd == s.cmd && t.cur == if pc.SListStart? then s.list > 0 else if pc.SListHold? then s.list > 1 else s.cur
  {
  }

  /** In every run, a command comes to a point exactly as that says, and so does the spawn
      thread; no other step moves them; and the pass over the stored events goes on exactly
      while one is left behind the one handled. */
  lemma StepReachesIff(n: nat, ss: seq<Rx>, es: seq<Step>, k: nat, i: nat)
    requires RunFrom(Start(n), ss, es) && k < |es|
    ensures Placed(ss[k], es[k], ss[k + 1], i)
  {
    hide Placed, DoCmd, DoSpawn;
    var s, e := ss[k], es[k];
    assert Enabled(s, e) && ss[k + 1] == Apply(s, e);
    match e
    case Interrupt => InterruptPlaced(s, i);
    case Cmd(_, _, _) => CmdPlaced(s, e, i);
    case Spawn => SpawnPlaced(s, i);
  }

  lemma InterruptPlaced(s: Rx, i: nat)
    ensures Placed(s, Interrupt, DoInterrupt(s), i)
  {
  }
}
