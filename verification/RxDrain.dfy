/**
 The receive protocol always comes to rest: between interrupts and new calls every step
 lowers a measure, whichever thread the scheduler picks.
 */
module RxDrain {
  import opened RxProtocol
  import opened RxSafety

  /** How far a command thread is from being back outside the driver. */
  function CmdRank(pc: CmdPc): nat {
    match pc
    case Idle => 0
    case DataLocked => 1
    case WantData => 2
    case SignalUnit => 10
    case PushUnit => 18
    case FinalCheck => 19
    case Unlocking => 20
    case SignalList => 30
    case ListCheck => 31
    case Waiting => 30
    case Counting => 30
    case Reading => 31
    case CheckPending => 32
    case LoopTop => 33
    case ClearSync => 34
    case Writing => 34
    case Locked => 35
    case WantLock => 36
    case Classify => 38
  }

  function SpawnRank(pc: SpawnPc): nat {
    match pc
    case SWait => 0
    case SAdvance => 0
    case SUnlock => 1
    case SCounting => 2
    case SReading => 3
    case SPendCheck => 4
    case SWantLock => 5
    case SCheck => 6
    case SListHold => 5
    case SListWant => 6
    case SListLoop => 7
    case SListDone => 8
    case SListStart => 8
  }

  function Ranks(cmd: seq<CmdPc>): nat {
    if cmd == [] then 0 else Ranks(cmd[..|cmd| - 1]) + CmdRank(cmd[|cmd| - 1])
  }

  /** Work waiting in the shared state. */
  function Stock(s: Rx): nat {
    9 * s.pend + (if s.cmdSync then 4 else 0) + (if s.spawnSync then 9 else 0) + 7 * s.units + 4 * s.list
  }

  function Measure(s: Rx): nat {
    Stock(s) + SpawnRank(s.sp) + Ranks(s.cmd)
  }

  lemma {:induction false} RanksUpdate(cmd: seq<CmdPc>, i: nat, q: CmdPc)
    requires i < |cmd|
    ensures Ranks(cmd[i := q]) == Ranks(cmd) - CmdRank(cmd[i]) + CmdRank(q)
  {
    var m := |cmd| - 1;
    if i == m {
      assert cmd[i := q][..m] == cmd[..m];
    } else {
      assert cmd[i := q][..m] == cmd[..m][i := q];
      RanksUpdate(cmd[..m], i, q);
    }
  }

  /** Neither an interrupt nor a new call into the driver. */
  predicate Internal(s: Rx, e: Step) {
    match e
    case Interrupt => false
    case Cmd(i, _, _) => i < |s.cmd| && !s.cmd[i].Idle?
    case Spawn => true
  }

  lemma CmdDescends(s: Rx, i: nat, pc: CmdPc, data: bool, cls: MsgClass)
    requires !pc.Idle? && (pc.Counting? ==> s.pend > 0) && (pc.Waiting? ==> s.cmdSync)
    ensures var t := Effect(s, i, pc, cls);
      t.cmd == s.cmd && t.sp == s.sp && Stock(t) + CmdRank(NextPc(s, pc, data, cls)) < Stock(s) + CmdRank(pc)
  {
    if pc.Classify? || pc.Counting? || pc.PushUnit? || pc.Waiting? {
    } else if pc.SignalUnit? || pc.SignalList? || pc.ClearSync? {
    } else {
      assert Stock(Effect(s, i, pc, cls)) == Stock(s);
    }
  }

  lemma SpawnDescends(s: Rx, pc: SpawnPc)
    requires SpawnReady(s, pc)
    ensures var t := SpawnEffect(s, pc);
      t.cmd == s.cmd && Stock(t) + SpawnRank(SpawnNext(s, pc)) < Stock(s) + SpawnRank(pc)
  {
    if pc.SWait? || pc.SListHold? || pc.SCounting? || pc.SAdvance? {
    } else {
      assert Stock(SpawnEffect(s, pc)) == Stock(s);
    }
  }

  lemma StepDescends(s: Rx, e: Step)
    requires Enabled(s, e) && Internal(s, e)
    ensures Measure(Apply(s, e)) < Measure(s)
  {
    match e
    case Cmd(i, data, cls) =>
      CmdDescends(s, i, s.cmd[i], data, cls);
      RanksUpdate(s.cmd, i, NextPc(s, s.cmd[i], data, cls));
    case Spawn => SpawnDescends(s, s.sp);
  }

  lemma {:induction false} SpellDescends(s: Rx, ss: seq<Rx>, es: seq<Step>, k: nat)
    requires RunFrom(s, ss, es) && k < |ss|
    requires forall j :: 0 <= j < |es| ==> Internal(ss[j], es[j])
    ensures Measure(ss[k]) + k <= Measure(s)
  {
    if k > 0 {
      SpellDescends(s, ss, es, k - 1);
      StepDescends(ss[k - 1], es[k - 1]);
    }
  }

  /** Enabled threads really have a step, so being unable to continue is being at rest. */
  lemma StuckIsAtRest(s: Rx)
    requires Inv(s) && forall e :: Enabled(s, e) ==> !Internal(s, e)
    ensures AtRest(s)
  {
    assert !Enabled(s, Spawn);
    forall i | 0 <= i < |s.cmd| && !s.cmd[i].Idle?
      ensures !CmdEnabled(s, i)
    {
      assert Internal(s, Cmd(i, false, OtherMsg));
      assert !Enabled(s, Cmd(i, false, OtherMsg));
      if s.cmd[i].Counting? {
        assert HoldsLock(s.cmd[i]);
      }
    }
  }

  /** Every message is read, without any fairness assumption: after the last interrupt and
      the last call no scheduler can keep the driver busy for more than Measure steps, and
      when no thread can go on nothing is unread, unless the spawn thread sleeps over its
      units, after a comparison that missed them. */
  lemma EveryMessageIsRead(n: nat, ss: seq<Rx>, es: seq<Step>, from: nat)
    requires RunFrom(Start(n), ss, es) && from < |ss|
    requires forall j :: from <= j < |es| ==> Internal(ss[j], es[j])
    ensures |es| - from <= Measure(ss[from])
    ensures (forall e :: Enabled(ss[|es|], e) ==> !Internal(ss[|es|], e)) && NeverMisses(ss, es, |es|) ==>
      ss[|es|].irq == ss[|es|].done
  {
    var tail, steps := ss[from..], es[from..];
    assert forall j :: 0 <= j < |tail| ==> tail[j] == ss[from + j];
    assert forall j :: 0 <= j < |steps| ==> steps[j] == es[from + j];
    SpellDescends(ss[from], tail, steps, |steps|);
    if forall e :: Enabled(ss[|es|], e) ==> !Internal(ss[|es|], e) {
      RunAnswers(n, ss, es, |es|);
      StuckIsAtRest(ss[|es|]);
      RestIsDrained(n, ss, es, |es|);
      NeverStrandedIff(n, ss, es, |es|);
    }
  }
}
