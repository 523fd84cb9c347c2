/**
 The spawn comparison that misses its units does happen: the counters are 8 bits wide, and a
 reachable run with 256 outstanding units brings the driver to rest with a message unread.
 */
module RxWrap {
  import opened RxProtocol
  import opened RxSafety

  ghost predicate Reaches(s: Rx, t: Rx) {
    exists ss: seq<Rx>, es: seq<Step> :: RunFrom(s, ss, es) && ss[|es|] == t
  }

  lemma ReachesSelf(s: Rx)
    ensures Reaches(s, s)
  {
    assert RunFrom(s, [s], []);
  }

  lemma Then(s: Rx, t: Rx, e: Step)
    requires Reaches(s, t) && Enabled(t, e)
    ensures Reaches(s, Apply(t, e))
  {
    var ss, es :| RunFrom(s, ss, es) && ss[|es|] == t;
    assert RunFrom(s, ss + [Apply(t, e)], es + [e]);
  }

  function At(s: Rx, pc: CmdPc): Rx {
    s.(cmd := [pc])
  }

  /** The single command thread of `s` moves on from `pc`. */
  lemma ThenCmd(o: Rx, s: Rx, pc: CmdPc, cls: MsgClass)
    requires Reaches(o, s) && s.cmd == [pc]
    requires (pc.WantLock? || pc.WantData? ==> s.lock.Nobody?) && (pc.Waiting? ==> s.cmdSync)
    requires pc.Counting? ==> s.pend > 0
    ensures Reaches(o, At(Effect(s, 0, pc, cls), NextPc(s, pc, false, cls)))
  {
    hide Reaches, NextPc;
    assert Effect(s, 0, pc, cls).cmd == [pc];
    assert [pc][0 := NextPc(s, pc, false, cls)] == [NextPc(s, pc, false, cls)];
    Then(o, s, Cmd(0, false, cls));
  }

  /** One command thread, no traffic: `k` units were queued while the spawn thread, already
      signalled, did not get to run. */
  function Base(k: nat): Rx {
    Rx(false, 2 * k % 256, 2 * k % 256, false, false, k > 0, k % 256, 0, 0, Nobody, [Idle], SWait, false, 0, k)
  }

  /** The command of round `k` has read the event that queued the unit and awaits its response. */
  function Mid(k: nat): Rx {
    Rx(false, (2 * k + 1) % 256, (2 * k + 1) % 256, true, false, true, (k + 1) % 256, 0, 0,
       ByCmd(0), [Waiting], SWait, false, 0, k + 1)
  }

  /** A thread outside the driver takes the global lock. */
  lemma TakesLock(o: Rx, s: Rx)
    requires Reaches(o, s) && s.cmd == [Idle] && s.lock.Nobody?
    ensures Reaches(o, At(s, Locked).(lock := ByCmd(0)))
  {
    hide Reaches;
    ThenCmd(o, s, Idle, OtherMsg);
    ThenCmd(o, At(s, WantLock), WantLock, OtherMsg);
  }

  /** It writes its command and enters its read loop. */
  lemma Writes(o: Rx, s: Rx)
    requires Reaches(o, s) && s.cmd == [Locked]
    ensures Reaches(o, At(s, LoopTop).(wait := true))
  {
    hide Reaches;
    ThenCmd(o, s, Locked, OtherMsg);
    ThenCmd(o, At(s, Writing).(wait := true), Writing, OtherMsg);
  }

  /** In its loop it finds one unread message and reads it. */
  lemma Reads(o: Rx, s: Rx)
    requires Reaches(o, s) && s.cmd == [LoopTop] && s.wait && s.irq != s.done && s.pend == 1
    ensures Reaches(o, At(s, Classify).(masked := false, done := Inc(s.done), pend := 0))
  {
    hide Reaches;
    ThenCmd(o, s, LoopTop, OtherMsg);
    ThenCmd(o, At(s, CheckPending), CheckPending, OtherMsg);
    ThenCmd(o, At(s, Reading), Reading, OtherMsg);
    ThenCmd(o, At(s, Counting).(masked := false), Counting, OtherMsg);
  }

  /** With nothing unread it goes to sleep. */
  lemma Sleeps(o: Rx, s: Rx)
    requires Reaches(o, s) && s.cmd == [Classify] && s.wait && s.irq == s.done
    ensures Reaches(o, At(s, Waiting))
  {
    hide Reaches;
    ThenCmd(o, s, Classify, OtherMsg);
    ThenCmd(o, At(s, LoopTop), LoopTop, OtherMsg);
    ThenCmd(o, At(s, CheckPending), CheckPending, OtherMsg);
  }

  /** The response ends the wait. */
  lemma Responds(o: Rx, s: Rx)
    requires Reaches(o, s) && s.cmd == [Classify] && s.list == 0
    ensures Reaches(o, At(s, ListCheck).(wait := false, cmdSync := false))
  {
    hide Reaches;
    ThenCmd(o, s, Classify, CmdResponse);
    ThenCmd(o, At(s, ClearSync).(wait := false), ClearSync, OtherMsg);
    ThenCmd(o, At(s, LoopTop).(wait := false, cmdSync := false), LoopTop, OtherMsg);
  }

  /** It leaves the driver with nothing unread. */
  lemma Leaves(o: Rx, s: Rx)
    requires Reaches(o, s) && s.cmd == [ListCheck] && s.list == 0 && s.irq == s.done
    ensures Reaches(o, At(s, Idle).(lock := Nobody))
  {
    hide Reaches;
    ThenCmd(o, s, ListCheck, OtherMsg);
    ThenCmd(o, At(s, Unlocking), Unlocking, OtherMsg);
    ThenCmd(o, At(s, FinalCheck).(lock := Nobody), FinalCheck, OtherMsg);
  }

  lemma Queues(o: Rx, s: Rx, irq: nat, wr: nat)
    requires Reaches(o, s) && !s.masked && !s.wait && s.pend == 0 && irq == Inc(s.irq) && wr == Inc(s.wr)
    ensures Reaches(o, s.(masked := true, irq := irq, pend := 1, wr := wr, units := s.units + 1, spawnSync := true))
  {
    hide Reaches, Inc;
    Then(o, s, Interrupt);
  }

  lemma Signals(o: Rx, s: Rx, irq: nat)
    requires Reaches(o, s) && !s.masked && s.wait && s.pend == 0 && irq == Inc(s.irq)
    ensures Reaches(o, s.(masked := true, irq := irq, pend := 1, cmdSync := true))
  {
    hide Reaches, Inc;
    Then(o, s, Interrupt);
  }

  /** A message interrupts while nobody waits: the spawn thread gets a unit. Then a command
      starts, reads the message and sleeps. */
  lemma RoundMid(o: Rx, k: nat)
    requires Reaches(o, Base(k))
    ensures Reaches(o, Mid(k))
  {
    hide Reaches;
    var irq := (2 * k + 1) % 256;
    var s := Base(k).(masked := true, irq := irq, pend := 1, wr := (k + 1) % 256, units := k + 1, spawnSync := true);
    IncMod(0, 2 * k);
    IncMod(0, k);
    assert Reaches(o, s) by {
      Queues(o, Base(k), irq, (k + 1) % 256);
    }
    RoundMidFrom(o, s, irq);
  }

  lemma RoundMidFrom(o: Rx, s: Rx, irq: nat)
    requires Reaches(o, s) && s.cmd == [Idle] && s.lock.Nobody? && s.irq == irq == Inc(s.done) && irq != s.done
    requires s.pend == 1
    ensures Reaches(o, s.(cmd := [Waiting], lock := ByCmd(0), wait := true, masked := false, done := irq, pend := 0))
  {
    hide Reaches, Inc;
    TakesLock(o, s);
    var t := s.(cmd := [Locked], lock := ByCmd(0));
    Writes(o, t);
    t := t.(cmd := [LoopTop], wait := true);
    Reads(o, t);
    t := t.(cmd := [Classify], masked := false, done := irq, pend := 0);
    Sleeps(o, t);
  }

  /** The response interrupts, wakes the command and is read; the command returns. */
  lemma RoundEnds(o: Rx, k: nat)
    requires Reaches(o, Mid(k))
    ensures Reaches(o, Base(k + 1))
  {
    hide Reaches;
    var irq := (2 * k + 2) % 256;
    var s := Mid(k).(masked := true, irq := irq, pend := 1, cmdSync := true);
    IncMod(0, 2 * k + 1);
    assert Reaches(o, s) by {
      Signals(o, Mid(k), irq);
    }
    RoundEndsFrom(o, s, irq);
  }

  lemma RoundEndsFrom(o: Rx, s: Rx, irq: nat)
    requires Reaches(o, s) && s.cmd == [Waiting] && s.irq == irq == Inc(s.done) && irq != s.done
    requires s.wait && s.cmdSync && s.pend == 1 && s.list == 0
    ensures Reaches(o, s.(cmd := [Idle], lock := Nobody, wait := false, cmdSync := false,
                          masked := false, done := irq, pend := 0))
  {
    hide Reaches, Inc;
    ThenCmd(o, s, Waiting, OtherMsg);
    var t := s.(cmd := [LoopTop], cmdSync := false);
    Reads(o, t);
    t := t.(cmd := [Classify], masked := false, done := irq, pend := 0);
    Responds(o, t);
    t := t.(cmd := [ListCheck], wait := false);
    Leaves(o, t);
  }

  lemma {:induction false} Rounds(k: nat)
    ensures Reaches(Start(1), Base(k))
  {
    hide Reaches;
    if k == 0 {
      assert Start(1) == Base(0);
      ReachesSelf(Start(1));
    } else {
      Rounds(k - 1);
      RoundMid(Start(1), k - 1);
      RoundEnds(Start(1), k - 1);
    }
  }

  /** A signalled spawn thread with no stored event and equal counters goes back to sleep. */
  lemma SpawnSleeps(o: Rx, s: Rx)
    requires Reaches(o, s) && s.sp.SWait? && s.spawnSync && s.list == 0 && s.wr == s.rd && !s.cur
    ensures Reaches(o, s.(spawnSync := false))
  {
    hide Reaches;
    Then(o, s, Spawn);
    var t := s.(sp := SListStart, spawnSync := false);
    Then(o, t, Spawn);
    t := t.(sp := SListLoop);
    Then(o, t, Spawn);
    t := t.(sp := SCheck);
    Then(o, t, Spawn);
  }

  /** With 256 units outstanding the 8-bit counters look equal: the spawn thread takes its
      signal, finds nothing to do and sleeps. The message is unread, the interrupt masked,
      and no thread can move. */
  lemma WrapStrandsMessage() returns (s: Rx)
    ensures Reaches(Start(1), s) && s.units == 256
    ensures AtRest(s) && s.irq != s.done && s.masked
  {
    hide Reaches;
    var o := Start(1);
    Rounds(255);
    s := Base(255).(masked := true, irq := 255, pend := 1, wr := 0, units := 256, spawnSync := true);
    assert Reaches(o, s) by {
      Then(o, Base(255), Interrupt);
    }
    SpawnSleeps(o, s);
    s := s.(spawnSync := false);
  }
}
