/**
 What the transmit flow control promises over every run: credits never underflow, a blocked
 writer is woken, and where the locks and the call counter stand.
 */
module TxSafety {
  import opened TxFlow

  /** Step `k` of the run is call `i` taking its packets. */
  ghost predicate Takes(ss: seq<State>, es: seq<Step>, k: nat, i: nat) {
    k < |es| && k < |ss| && es[k].Run? && es[k].i == i && i < |ss[k].thr| && ss[k].thr[i].pc.TxTake?
  }

  /** In every interleaving a call that takes packets leaves the credit at the floor or above
      it, a write at FLOW_CONT_MIN and a read one below, although message reads may lower
      the credit between its check and its taking. A write takes as many packets as cover
      its payload, by the packet size it read. */
  lemma CreditNeverUnderflows(c: Config, n: nat, ss: seq<State>, es: seq<Step>, k: nat, i: nat)
    requires ConfigOk(c) && c.min < 256 && IsRun(c, n, ss, es) && Takes(ss, es, k, i)
    ensures var t := ss[k].thr[i];
      && (t.kind.Writer? ==>
           && ss[k + 1].pool == ss[k].pool - t.alloc && ss[k + 1].pool >= c.min
           && t.alloc * t.size >= t.len)
      && (t.kind.Reader? ==> ss[k + 1].pool == ss[k].pool - 1 && ss[k + 1].pool >= c.min - 1)
      && Transmits(t.kind)
  {
    RunInv(c, n, ss, es, k);
    var t := ss[k].thr[i];
    assert Moves(c, ss[k], es[k], ss[k + 1]);
    TakeFacts(c, ss[k], i);
    PacketsCover(t.len, t.size, t.alloc);
    TakeEffect(c, ss[k], i, es[k].e);
  }

  lemma TakeFacts(c: Config, s: State, i: nat)
    requires Inv(c, s) && i < |s.thr| && s.thr[i].pc.TxTake?
    ensures var t := s.thr[i];
      && Transmits(t.kind) && t.size >= 1 && s.pool > Floor(c, t) && s.pool < 256 && s.minSize >= 1
      && (t.kind.Writer? ==> t.alloc == Packets(t.len, t.size))
  {
    hide Packets;
  }

  lemma TakeEffect(c: Config, s: State, i: nat, e: In)
    requires Enabled(s, Run(i, e)) && s.minSize >= 1 && s.thr[i].pc.TxTake?
    ensures Apply(c, s, Run(i, e)).pool == s.pool - U8(Taken(s.thr[i]))
  {
  }

  /** A data call asleep over enough credit has been signalled, unless the message read that
      brought the credit is just about to signal. */
  lemma NoLostCredit(c: Config, n: nat, ss: seq<State>, es: seq<Step>, k: nat, i: nat)
    requires ConfigOk(c) && c.min < 256 && IsRun(c, n, ss, es) && k < |ss|
    requires i < |ss[k].thr| && ss[k].thr[i].pc.TxWait? && ss[k].pool > Enough(c, ss[k].thr[i])
    ensures ss[k].txSync || Signalling(ss[k])
    ensures ss[k].g.Nobody? ==> ss[k].txSync
  {
    RunInv(c, n, ss, es, k);
  }

  // ------------------------------------------------------------------ the transmit lock

  predicate Aborted(t: Thr) {
    t.pc.AbortTx? || t.pc.AbortBoth?
  }

  /** A call that has returned to its caller. */
  predicate Returned(t: Thr) {
    t.pc.Idle? || Aborted(t)
  }

  /** When every call has returned, the transmit lock is free exactly if none returned by an
      abort exit; the exits of every other kind give it back. */
  lemma TransmitLockAtRest(c: Config, n: nat, ss: seq<State>, es: seq<Step>, k: nat)
    requires ConfigOk(c) && c.min < 256 && IsRun(c, n, ss, es) && k < |ss|
    requires forall i: nat :: i < |ss[k].thr| ==> Returned(ss[k].thr[i])
    ensures ss[k].tx.Nobody? <==> forall i: nat :: i < |ss[k].thr| ==> ss[k].thr[i].pc.Idle?
  {
    RunInv(c, n, ss, es, k);
    if ss[k].tx.By? {
      assert HoldsTx(ss[k].thr[ss[k].tx.i]);
    } else {
      forall i: nat | i < |ss[k].thr|
        ensures ss[k].thr[i].pc.Idle?
      {
        assert !HoldsTx(ss[k].thr[i]);
      }
    }
  }

  /** After one abort exit no data call ever again passes the transmit lock. */
  lemma {:induction false} AbortBlocksData(c: Config, n: nat, ss: seq<State>, es: seq<Step>, k: nat, j: nat, i: nat)
    requires ConfigOk(c) && c.min < 256 && IsRun(c, n, ss, es) && k <= j < |ss|
    requires i < |ss[k].thr| && Aborted(ss[k].thr[i])
    ensures i < |ss[j].thr| && Aborted(ss[j].thr[i]) && ss[j].tx == By(i)
    ensures forall o: nat :: o < |ss[j].thr| && o != i ==> !HoldsTx(ss[j].thr[o])
  {
    RunInv(c, n, ss, es, j);
    if k < j {
      AbortBlocksData(c, n, ss, es, k, j - 1, i);
      assert Moves(c, ss[j - 1], es[j - 1], ss[j]);
      AbortedStays(c, ss[j - 1], es[j - 1], i);
    }
    assert HoldsTx(ss[j].thr[i]);
  }

  lemma AbortedStays(c: Config, s: State, a: Step, i: nat)
    requires Enabled(s, a) && s.minSize >= 1 && i < |s.thr| && Aborted(s.thr[i])
    ensures i < |Apply(c, s, a).thr| && Apply(c, s, a).thr[i] == s.thr[i]
  {
    hide Next, Own;
    match a
    case Fatal =>
    case Run(k, e) =>
      assert Shared(s, k, s.thr[k], e).thr == s.thr;
  }

  // ------------------------------------------------------------------ counting

  /** The API counter is the number of calls between their increments and decrements, less
      one for every spawn read that took the abort exit; every request of the global lock
      has been released once, is still open, or was refused. */
  lemma CallsAreCounted(c: Config, n: nat, ss: seq<State>, es: seq<Step>, k: nat)
    requires ConfigOk(c) && c.min < 256 && IsRun(c, n, ss, es) && k < |ss|
    ensures ss[k].api == SumCalls(ss[k].thr) - ss[k].strays
    ensures ss[k].req == ss[k].rel + ss[k].refused + SumOpen(ss[k].thr)
    ensures ss[k].strays == 0 ==>
      (ss[k].api > 0 <==> exists i: nat :: i < |ss[k].thr| && Calls(ss[k].thr[i]) > 0)
  {
    RunInv(c, n, ss, es, k);
    SumPositive(ss[k].thr);
  }

  lemma {:induction false} SumPositive(thr: seq<Thr>)
    ensures SumCalls(thr) > 0 <==> exists i: nat :: i < |thr| && Calls(thr[i]) > 0
  {
    hide Calls;
    if thr != [] {
      var m := |thr| - 1;
      SumPositive(thr[..m]);
      if SumCalls(thr[..m]) > 0 {
        var i: nat :| i < m && Calls(thr[..m][i]) > 0;
        assert thr[i] == thr[..m][i];
      }
      if i: nat :| i < |thr| && Calls(thr[i]) > 0 {
        if i < m {
          assert thr[..m][i] == thr[i];
        }
      }
    }
  }

  /** With every call back at its caller the counter is zero if and only if no spawn read
      took the abort exit, and the global lock is free and was released as often as taken. */
  lemma CountAtQuiescence(c: Config, n: nat, ss: seq<State>, es: seq<Step>, k: nat)
    requires ConfigOk(c) && c.min < 256 && IsRun(c, n, ss, es) && k < |ss|
    requires forall i: nat :: i < |ss[k].thr| ==> ss[k].thr[i].pc.Idle?
    ensures ss[k].api == 0 <==> ss[k].strays == 0
    ensures ss[k].g.Nobody? && ss[k].tx.Nobody? && ss[k].req == ss[k].rel + ss[k].refused
  {
    RunInv(c, n, ss, es, k);
    IdleSums(ss[k].thr);
    NobodyHolds(c, ss[k]);
  }

  lemma NobodyHolds(c: Config, s: State)
    requires Inv(c, s) && forall i: nat :: i < |s.thr| ==> s.thr[i].pc.Idle?
    ensures s.g.Nobody? && s.tx.Nobody?
  {
    assert forall i: nat :: i < |s.thr| ==> !HoldsG(s.thr[i].pc) && !HoldsTx(s.thr[i]);
  }

  lemma {:induction false} IdleSums(thr: seq<Thr>)
    requires forall i: nat :: i < |thr| ==> thr[i].pc.Idle?
    ensures SumCalls(thr) == 0 && SumOpen(thr) == 0
  {
    if thr != [] {
      IdleSums(thr[..|thr| - 1]);
    }
  }

  // ------------------------------------------------------------------ a stray decrement

  ghost predicate Reached(c: Config, n: nat, s: State) {
    exists ss: seq<State>, es: seq<Step> :: IsRun(c, n, ss, es) && ss[|es|] == s
  }

  lemma ReachedInit(c: Config, n: nat)
    ensures Reached(c, n, Init(c, n))
  {
    var ss: seq<State>, es: seq<Step> := [Init(c, n)], [];
    assert IsRun(c, n, ss, es) && ss[|es|] == Init(c, n);
  }

  lemma Then(c: Config, n: nat, s: State, a: Step)
    requires Reached(c, n, s) && Enabled(s, a) && s.minSize >= 1
    ensures Reached(c, n, Apply(c, s, a))
  {
    hide Apply, Enabled;
    var ss, es :| IsRun(c, n, ss, es) && ss[|es|] == s;
    var t := Apply(c, s, a);
    var ss', es' := ss + [t], es + [a];
    forall k | 0 <= k < |es'|
      ensures Moves(c, ss'[k], es'[k], ss'[k + 1])
    {
      assert k < |es| ==> Moves(c, ss[k], es[k], ss[k + 1]);
    }
    assert IsRun(c, n, ss', es');
  }

  /** The only call of `s` makes a step and is then at `pc`. */
  lemma ThenAt(c: Config, s: State, e: In, t: Thr) returns (s': State)
    requires Reached(c, 1, s) && |s.thr| == 1 && InOk(e) && CanRun(s, s.thr[0].pc, e) && s.minSize >= 1
    requires t == OwnAfter(c, s, s.thr[0], e)
    ensures s' == SharedAfter(s, 0, s.thr[0], e).(thr := [t])
    ensures Reached(c, 1, s')
  {
    hide Reached, Own, Next;
    Then(c, 1, s, Run(0, e));
    assert SharedAfter(s, 0, s.thr[0], e).thr == s.thr;
    s' := Apply(c, s, Run(0, e));
    assert s.thr[0 := t] == [t];
  }

  /** One message for a socket nobody receives on, read in the spawn context, is enough: all
      is quiet and the counter is -1. */
  lemma StrayCount(c: Config) returns (s: State)
    requires ConfigOk(c) && c.min < 256
    ensures Reached(c, 1, s) && s.thr == [Thr(Spawner, Idle, 0, 0, 1)]
    ensures s.api == -1 && s.strays == 1 && s.req == s.rel
  {
    hide Reached;
    var go := In(Spawner, 0, 0, 1, false, false, false, true, false);
    s := Init(c, 1);
    ReachedInit(c, 1);
    var t := Thr(Spawner, ReqG, 0, 0, 1);
    s := ThenAt(c, s, go, t);
    t := t.(pc := WantG);
    s := ThenAt(c, s, go, t);
    t := t.(pc := GAllow);
    s := ThenAt(c, s, go, t);
    t := t.(pc := RSet);
    s := ThenAt(c, s, go, t);
    s := StrayRead(c, s);
  }

  lemma StrayRead(c: Config, s: State) returns (s': State)
    requires Reached(c, 1, s) && s.thr == [Thr(Spawner, RSet, 0, 0, 1)] && s.minSize >= 1
    ensures Reached(c, 1, s') && s'.thr == [Thr(Spawner, Idle, 0, 0, 1)]
    ensures s'.api == s.api - 1 && s'.strays == s.strays + 1 && s'.rel == s.rel + 1 && s'.req == s.req
  {
    hide Reached;
    var none := In(Spawner, 0, 0, 1, false, false, false, false, false);
    var t := Thr(Spawner, RCount, 0, 0, 1);
    s' := ThenAt(c, s, none, t);
    t := t.(pc := RDone);
    s' := ThenAt(c, s', none, t);
    t := t.(pc := Stray);
    s' := ThenAt(c, s', none, t);
    t := t.(pc := StrayDec);
    s' := ThenAt(c, s', none, t);
    t := t.(pc := Idle);
    s' := ThenAt(c, s', none, t);
  }
}
