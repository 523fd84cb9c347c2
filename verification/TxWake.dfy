/**
 A message that reports enough credit lets a sleeping writer go: from there the run can go
 on, with no other call's help, to where the writer takes its packets.
 */
module TxWake {
  import opened TxFlow
  import opened TxSafety

  /** A run can go on from `s` to `t`. */
  ghost predicate GoesOn(c: Config, s: State, t: State) {
    exists ss: seq<State>, es: seq<Step> :: Leads(c, s, ss, es) && ss[|es|] == t
  }

  ghost predicate Leads(c: Config, s: State, ss: seq<State>, es: seq<Step>) {
    && |ss| == |es| + 1 && ss[0] == s
    && forall k :: 0 <= k < |es| ==> Moves(c, ss[k], es[k], ss[k + 1])
  }

  lemma GoesNowhere(c: Config, s: State)
    ensures GoesOn(c, s, s)
  {
    assert Leads(c, s, [s], []);
  }

  /** Call `i` of `s` makes a step and is then `t`. */
  lemma ThenGoes(c: Config, o: State, s: State, i: nat, e: In, t: Thr) returns (s': State)
    requires GoesOn(c, o, s) && i < |s.thr| && InOk(e) && CanRun(s, s.thr[i].pc, e) && s.minSize >= 1
    requires t == OwnAfter(c, s, s.thr[i], e)
    ensures s' == SharedAfter(s, i, s.thr[i], e).(thr := s.thr[i := t])
    ensures GoesOn(c, o, s')
  {
    hide Own, Next;
    var ss, es :| Leads(c, o, ss, es) && ss[|es|] == s;
    assert SharedAfter(s, i, s.thr[i], e).thr == s.thr;
    s' := Apply(c, s, Run(i, e));
    var ss', es' := ss + [s'], es + [Run(i, e)];
    forall k | 0 <= k < |es'|
      ensures Moves(c, ss'[k], es'[k], ss'[k + 1])
    {
      assert k < |es| ==> Moves(c, ss[k], es[k], ss[k + 1]);
    }
    assert Leads(c, o, ss', es');
  }

  function Go(ok: bool): In {
    In(Writer, 0, 0, 1, false, false, false, ok, false)
  }

  /** The message read stores its report and signals. */
  lemma Reports(c: Config, o: State, s: State, j: nat, e: In) returns (u: State)
    requires GoesOn(c, o, s) && s.minSize >= 1 && j < |s.thr| && s.thr[j].pc.RSet? && InOk(e) && e.pool > c.min
    ensures GoesOn(c, o, u) && u.pool == e.pool && u.minSize == e.minSize && u.txSync && u.restart == s.restart
    ensures u.tx == s.tx && u.g == s.g && u.thr == s.thr[j := s.thr[j].(pc := RDone)]
  {
    hide GoesOn;
    var t := s.thr[j];
    u := ThenGoes(c, o, s, j, e, t.(pc := RCount));
    if u.txSync {
      u := ThenGoes(c, o, u, j, Go(true), t.(pc := RDone));
    } else {
      u := ThenGoes(c, o, u, j, Go(true), t.(pc := RSignal));
      u := ThenGoes(c, o, u, j, Go(true), t.(pc := RDone));
    }
    assert u.thr == s.thr[j := t.(pc := RDone)];
  }

  /** The reader gives the global lock back. */
  lemma Leaves(c: Config, o: State, s: State, j: nat) returns (u: State)
    requires GoesOn(c, o, s) && s.minSize >= 1 && j < |s.thr| && s.thr[j].pc.RDone?
    ensures GoesOn(c, o, u) && u.pool == s.pool && u.minSize == s.minSize && u.txSync == s.txSync
    ensures u.restart == s.restart && u.tx == s.tx && u.g.Nobody? && |u.thr| == |s.thr|
    ensures forall k: nat :: k < |s.thr| && k != j ==> u.thr[k] == s.thr[k]
  {
    hide GoesOn;
    var t := s.thr[j];
    u := ThenGoes(c, o, s, j, Go(t.kind.Spawner?), t.(pc := GUnlock));
    u := ThenGoes(c, o, u, j, Go(true), t.(pc := if t.kind.Spawner? then Idle else GDec));
  }

  /** The writer takes the signal and finds its credit. */
  lemma WakesUp(c: Config, o: State, s: State, i: nat) returns (u: State)
    requires GoesOn(c, o, s) && s.minSize >= 1 && i < |s.thr| && s.thr[i].pc.TxWait? && s.thr[i].kind.Writer?
    requires s.txSync && !s.restart && s.pool > c.min + s.thr[i].alloc
    ensures GoesOn(c, o, u) && u.pool == s.pool && u.minSize == s.minSize && !u.restart && u.tx == s.tx && u.g == s.g
    ensures u.thr == s.thr[i := s.thr[i].(pc := ReqG)]
  {
    hide GoesOn;
    var t := s.thr[i];
    u := ThenGoes(c, o, s, i, Go(true), t.(pc := TxRecheck));
    u := ThenGoes(c, o, u, i, Go(true), t.(pc := ReqG));
    assert u.thr == s.thr[i := t.(pc := ReqG)];
  }

  /** It takes the global lock. */
  lemma Locks(c: Config, o: State, s: State, i: nat) returns (u: State)
    requires GoesOn(c, o, s) && s.minSize >= 1 && i < |s.thr| && s.thr[i].pc.ReqG? && s.thr[i].kind.Writer?
    requires !s.restart && s.g.Nobody?
    ensures GoesOn(c, o, u) && u.pool == s.pool && u.minSize == s.minSize && !u.restart && u.tx == s.tx
    ensures u.g == By(i) && u.thr == s.thr[i := s.thr[i].(pc := GInc)]
  {
    hide GoesOn;
    var t := s.thr[i];
    u := ThenGoes(c, o, s, i, Go(true), t.(pc := WantG));
    u := ThenGoes(c, o, u, i, Go(true), t.(pc := GAllow));
    u := ThenGoes(c, o, u, i, Go(true), t.(pc := GInc));
    assert u.thr == s.thr[i := t.(pc := GInc)];
  }

  /** It verifies the credit and takes its packets. */
  lemma Spends(c: Config, o: State, s: State, i: nat) returns (u: State)
    requires GoesOn(c, o, s) && s.minSize >= 1 && i < |s.thr| && s.thr[i].pc.GInc? && s.thr[i].kind.Writer?
    requires !s.restart && s.pool > c.min + s.thr[i].alloc && s.thr[i].alloc < 256
    ensures GoesOn(c, o, u) && u.pool == s.pool - s.thr[i].alloc && u.tx == s.tx && u.g == s.g
    ensures u.thr == s.thr[i := s.thr[i].(pc := TxUnlock)]
  {
    hide GoesOn;
    var t := s.thr[i];
    u := ThenGoes(c, o, s, i, Go(true), t.(pc := GRestart));
    u := ThenGoes(c, o, u, i, Go(true), t.(pc := TxVerify));
    u := ThenGoes(c, o, u, i, Go(true), t.(pc := TxTake));
    u := ThenGoes(c, o, u, i, Go(true), t.(pc := TxUnlock));
    assert u.thr == s.thr[i := t.(pc := TxUnlock)];
  }

  /** In any state of any run without a fatal error: when the message read at call `j`
      reports more than the sleeping writer `i` needs, the run can go on, the reader leaving
      and the writer waking, to where the writer has taken its packets out of that report. */
  lemma ReportLetsWriterGo(c: Config, n: nat, ss: seq<State>, es: seq<Step>, k: nat, i: nat, j: nat, e: In)
    returns (u: State)
    requires ConfigOk(c) && c.min < 256 && IsRun(c, n, ss, es) && k < |ss|
    requires var s := ss[k];
      && i < |s.thr| && s.thr[i].pc.TxWait? && s.thr[i].kind.Writer? && j < |s.thr| && s.thr[j].pc.RSet?
      && !s.restart && InOk(e) && e.pool > c.min + s.thr[i].alloc
    ensures GoesOn(c, ss[k], u) && u.pool == e.pool - ss[k].thr[i].alloc
    ensures i < |u.thr| && u.thr[i] == ss[k].thr[i].(pc := TxUnlock)
  {
    hide GoesOn;
    RunInv(c, n, ss, es, k);
    var s := ss[k];
    GoesNowhere(c, s);
    u := Reports(c, s, s, j, e);
    u := Leaves(c, s, u, j);
    u := WakesUp(c, s, u, i);
    u := Locks(c, s, u, i);
    u := Spends(c, s, u, i);
  }
}
