/**
 The ways through a data write, a data read, a command and the spawn thread's read, told from
 the point that is reached: when a call returns, waits, aborts, takes its packets and so on.
 */
module TxPaths {
  import opened TxFlow

  /** More credit than this lets a data call go on. */
  function Need(c: Config, t: Thr): nat {
    if t.kind.Writer? then c.min + t.alloc else c.min
  }

  predicate Enough(c: Config, s: State, t: Thr) {
    s.pool > Need(c, t)
  }

  /** The wait for credit was ended by its signal, and there was no fatal error. */
  predicate Signalled(s: State, t: Thr) {
    t.pc.TxWait? && s.txSync && !s.restart
  }

  /** The global lock is refused: before it is asked for, after a fatal error, or after it was
      taken, if the call is not allowed. */
  predicate Refused(s: State, t: Thr, e: In) {
    (t.pc.ReqG? && s.restart) || (t.pc.GAllow? && e.refuse)
  }

  /** The call returns to its caller, its locks given back. */
  predicate Returns(c: Config, s: State, t: Thr, e: In) {
    || t.pc.TxQuit? || t.pc.ObjDec? || t.pc.StrayDec?
    || (t.pc.GDec? && !t.kind.Reader?) || (t.pc.GUnlock? && t.kind.Spawner?)
    || (Refused(s, t, e) && !Transmits(t.kind))
    || (t.pc.Idle? && e.kind.Reader? && !e.ok)
  }

  /** It aborts and keeps the transmit lock. */
  predicate Aborts(s: State, t: Thr, e: In) {
    || t.pc.GQuitDec? || t.pc.AbortTx?
    || (t.pc.TxWait? && !Signalled(s, t))
    || (Refused(s, t, e) && Transmits(t.kind))
  }

  /** A data write gives up: its socket has failed, or it may not wait for credit. */
  predicate GivesUp(c: Config, s: State, t: Thr, e: In) {
    (t.pc.TxAlloc? && e.txFail) || (t.pc.TxCheck? && t.kind.Writer? && !Enough(c, s, t) && e.nonBlocking)
  }

  /** A message is read: by a command that has written, as long as one comes, and by the
      spawn thread if one is pending. */
  predicate Reads(s: State, t: Thr, e: In) {
    e.ok && (t.pc.Loop? || (t.pc.GAllow? && !e.refuse && t.kind.Spawner?))
  }

  /** The global lock is given back in good order. */
  predicate GivesBack(s: State, t: Thr, e: In) {
    || (t.pc.GAllow? && !e.refuse && t.kind.Spawner? && !e.ok)
    || (t.pc.GRestart? && s.restart && !Transmits(t.kind))
    || (t.pc.Write? && !(t.kind.Commander? && e.ok))
    || (t.pc.Loop? && !e.ok)
    || (t.pc.RDone? && e.ok == t.kind.Spawner?)
  }

  /** Where a step leads, told from there. */
  predicate Reaches(c: Config, s: State, t: Thr, e: In, q: Pc) {
    match q
    case Idle => Returns(c, s, t, e)
    case ObjInc => t.pc.Idle? && e.kind.Reader? && e.ok
    case WantTx => t.pc.ObjInc? || t.pc.TxBack? || (t.pc.Idle? && e.kind.Writer?)
    case TxClear => t.pc.WantTx?
    case TxAlloc => t.pc.TxClear? && t.kind.Writer?
    case TxCheck => (t.pc.TxAlloc? && !e.txFail) || (t.pc.TxClear? && !t.kind.Writer?)
    case TxQuit => GivesUp(c, s, t, e)
    case TxWait => t.pc.TxCheck? && !Enough(c, s, t) && !GivesUp(c, s, t, e)
    case TxRecheck => t.kind.Writer? && ((t.pc.TxCheck? && Enough(c, s, t)) || Signalled(s, t))
    case TxBack => t.pc.TxRecheck? && s.pool <= c.min + t.alloc
    case ReqG =>
      || (t.pc.Idle? && !Transmits(e.kind))
      || (t.pc.TxRecheck? && s.pool > c.min + t.alloc)
      || (!t.kind.Writer? && ((t.pc.TxCheck? && Enough(c, s, t)) || Signalled(s, t)))
    case WantG => t.pc.ReqG? && !s.restart
    case GAllow => t.pc.WantG?
    case GInc => t.pc.GAllow? && !e.refuse && !t.kind.Spawner?
    case GRestart => t.pc.GInc?
    case TxVerify => t.pc.GRestart? && !s.restart && Transmits(t.kind)
    case TxTake => t.pc.TxVerify? && s.pool >= Need(c, t)
    case TxUnlock => t.pc.TxTake?
    case Write => t.pc.TxUnlock? || (t.pc.GRestart? && !s.restart && !Transmits(t.kind))
    case Loop => e.ok && ((t.pc.Write? && t.kind.Commander?) || (t.pc.RDone? && !t.kind.Spawner?))
    case RSet => Reads(s, t, e)
    case RCount => t.pc.RSet?
    case RSignal => t.pc.RCount? && s.pool > c.min && !s.txSync
    case RDone => t.pc.RSignal? || (t.pc.RCount? && (s.pool <= c.min || s.txSync))
    case GUnlock => GivesBack(s, t, e)
    case GDec => t.pc.GUnlock? && !t.kind.Spawner?
    case GQuit => t.pc.GRestart? && s.restart && Transmits(t.kind)
    case GQuitDec => t.pc.GQuit?
    case Stray => t.pc.RDone? && t.kind.Spawner? && !e.ok
    case StrayDec => t.pc.Stray?
    case ObjWait => t.pc.GDec? && t.kind.Reader?
    case ObjDec => t.pc.ObjWait?
    case AbortTx => Aborts(s, t, e)
    case AbortBoth => t.pc.AbortBoth? || (t.pc.TxVerify? && s.pool < Need(c, t))
  }

  predicate Starting(pc: Pc) {
    pc.Idle? || pc.ObjInc? || pc.WantTx? || pc.TxClear? || pc.TxAlloc?
  }

  predicate Crediting(pc: Pc) {
    pc.TxCheck? || pc.TxWait? || pc.TxRecheck? || pc.TxBack? || pc.TxQuit?
  }

  predicate Locking(pc: Pc) {
    pc.ReqG? || pc.WantG? || pc.GAllow? || pc.GInc? || pc.GRestart?
  }

  predicate Sending(pc: Pc) {
    pc.TxVerify? || pc.TxTake? || pc.TxUnlock? || pc.Write? || pc.Loop?
  }

  lemma StartReaches(c: Config, s: State, t: Thr, e: In, q: Pc)
    requires Starting(t.pc)
    ensures Next(c, s, t, e) == q <==> Reaches(c, s, t, e, q)
  {
  }

  lemma CreditReaches(c: Config, s: State, t: Thr, e: In, q: Pc)
    requires Crediting(t.pc)
    ensures Next(c, s, t, e) == q <==> Reaches(c, s, t, e, q)
  {
  }

  lemma LockReaches(c: Config, s: State, t: Thr, e: In, q: Pc)
    requires Locking(t.pc)
    ensures Next(c, s, t, e) == q <==> Reaches(c, s, t, e, q)
  {
  }

  lemma SendReaches(c: Config, s: State, t: Thr, e: In, q: Pc)
    requires Sending(t.pc)
    ensures Next(c, s, t, e) == q <==> Reaches(c, s, t, e, q)
  {
  }

  lemma RestReaches(c: Config, s: State, t: Thr, e: In, q: Pc)
    requires !Starting(t.pc) && !Crediting(t.pc) && !Locking(t.pc) && !Sending(t.pc)
    ensures Next(c, s, t, e) == q <==> Reaches(c, s, t, e, q)
  {
  }

  /** In every run, a call comes to a point exactly as that says, keeps what it was called
      with, and moves no other call. */
  lemma StepReachesIff(c: Config, n: nat, ss: seq<State>, es: seq<Step>, k: nat, q: Pc)
    requires IsRun(c, n, ss, es) && k < |es| && es[k].Run?
    ensures es[k].i < |ss[k].thr| == |ss[k + 1].thr|
    ensures var t, t', e := ss[k].thr[es[k].i], ss[k + 1].thr[es[k].i], es[k].e;
      && (t'.pc == q <==> Reaches(c, ss[k], t, e, q))
      && (if t.pc.Idle? then t'.kind == e.kind && t'.len == e.len else t'.kind == t.kind && t'.len == t.len)
      && (!t.pc.TxAlloc? ==> t'.alloc == t.alloc && t'.size == t.size)
    ensures forall j: nat :: j < |ss[k].thr| && j != es[k].i ==> ss[k + 1].thr[j] == ss[k].thr[j]
  {
    hide Reaches, Next, Shared;
    var s, i, e := ss[k], es[k].i, es[k].e;
    assert Moves(c, s, es[k], ss[k + 1]);
    var t := s.thr[i];
    SharedThreads(s, i, t, e);
    NextIff(c, s, t, e, q);
  }

  lemma NextIff(c: Config, s: State, t: Thr, e: In, q: Pc)
    ensures Next(c, s, t, e) == q <==> Reaches(c, s, t, e, q)
  {
    hide Reaches, Next;
    if Starting(t.pc) {
      StartReaches(c, s, t, e, q);
    } else if Crediting(t.pc) {
      CreditReaches(c, s, t, e, q);
    } else if Locking(t.pc) {
      LockReaches(c, s, t, e, q);
    } else if Sending(t.pc) {
      SendReaches(c, s, t, e, q);
    } else {
      RestReaches(c, s, t, e, q);
    }
  }

  lemma SharedThreads(s: State, i: nat, t: Thr, e: In)
    ensures Shared(s, i, t, e).thr == s.thr
  {
  }
}
