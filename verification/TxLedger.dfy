/**
 The accounts of the transmit flow control, kept from what the steps are and where they are
 taken: the credit is what the processor last reported less the packets taken since, and a
 report that is enough for a sleeping writer lets it take its packets.
 */
module TxLedger {
  import opened TxFlow
  import opened TxSafety

  /** A step of a call that stands at `pc`. */
  predicate StepAt(s: State, a: Step, pc: Pc) {
    a.Run? && a.i < |s.thr| && s.thr[a.i].pc == pc
  }

  /** The packets a call has reserved. */
  function PacketsOf(t: Thr): nat {
    if t.kind.Writer? then t.alloc else 1
  }

  /** `last` and `size` are the credit and packet size last reported, `since` the packets
      taken since; `signal` whether the signal of credit is up; `broken` whether there has
      been a fatal error; `calls` the calls counted in less those counted out, `requests` and
      `releases` those of the global lock, and `refusals` and `strays` the exits that no
      counter of the driver shows. */
  datatype Ledger = Ledger(last: nat, size: nat, since: nat, signal: bool, broken: bool, calls: int,
                           requests: nat, releases: nat, refusals: nat, strays: nat)

  function One(b: bool): nat {
    if b then 1 else 0
  }

  /** What one step does to the accounts of the credit. */
  function CreditEntry(l: Ledger, s: State, a: Step): Ledger {
    if StepAt(s, a, RSet) then l.(last := a.e.pool, size := a.e.minSize, since := 0)
    else if StepAt(s, a, TxTake) then l.(since := l.since + PacketsOf(s.thr[a.i]))
    else l
  }

  /** ... to the signal and the flag. A wait that ends unsignalled has timed out, which is a
      fatal error. */
  function SignalEntry(l: Ledger, s: State, a: Step): Ledger {
    l.(signal := StepAt(s, a, RSignal) || (l.signal && !StepAt(s, a, TxClear) && !StepAt(s, a, TxWait)),
       broken := l.broken || a.Fatal? || (StepAt(s, a, TxWait) && !l.signal))
  }

  /** ... and to the counters. */
  function CountEntry(l: Ledger, s: State, a: Step): Ledger {
    l.(calls := l.calls + One(StepAt(s, a, ObjInc) || StepAt(s, a, GInc))
                - One(StepAt(s, a, GDec) || StepAt(s, a, GQuitDec) || StepAt(s, a, StrayDec) || StepAt(s, a, ObjDec)),
       requests := l.requests + One(StepAt(s, a, ReqG) && !l.broken),
       releases := l.releases + One(StepAt(s, a, GUnlock) || StepAt(s, a, GQuit) || StepAt(s, a, Stray)),
       refusals := l.refusals + One(StepAt(s, a, GAllow) && a.e.refuse),
       strays := l.strays + One(StepAt(s, a, StrayDec)))
  }

  function Entry(l: Ledger, s: State, a: Step): Ledger {
    SignalEntry(CountEntry(CreditEntry(l, s, a), s, a), s, a)
  }

  /** What the first `k` steps add up to. */
  function Books(c: Config, ss: seq<State>, es: seq<Step>, k: nat): Ledger
    requires k <= |es| < |ss|
  {
    if k == 0 then Ledger(c.min, 1536, 0, false, false, 0, 0, 0, 0, 0)
    else Entry(Books(c, ss, es, k - 1), ss[k - 1], es[k - 1])
  }

  ghost predicate CreditBalanced(s: State, l: Ledger) {
    s.pool == l.last - l.since && s.minSize == l.size && s.txSync == l.signal && s.restart == l.broken
  }

  ghost predicate CountsBalanced(s: State, l: Ledger) {
    s.api == l.calls && s.req == l.requests && s.rel == l.releases && s.refused == l.refusals && s.strays == l.strays
  }

  ghost predicate Balanced(s: State, l: Ledger) {
    CreditBalanced(s, l) && CountsBalanced(s, l)
  }

  /** A call's own packets fit an 8-bit number when it takes them. */
  predicate Fits(t: Thr) {
    t.pc.TxTake? ==> PacketsOf(t) < 256
  }

  lemma TakesFit(c: Config, s: State, i: nat)
    requires ConfigOk(c) && Inv(c, s) && i < |s.thr|
    ensures Fits(s.thr[i])
  {
  }

  lemma PoolMoves(s: State, i: nat, t: Thr, e: In)
    requires Fits(t)
    ensures Shared(s, i, t, e).pool ==
      if t.pc.RSet? then e.pool else if t.pc.TxTake? then s.pool - PacketsOf(t) else s.pool
    ensures Shared(s, i, t, e).minSize == if t.pc.RSet? then e.minSize else s.minSize
  {
  }

  lemma SignalMoves(s: State, i: nat, t: Thr, e: In)
    ensures Shared(s, i, t, e).txSync == (t.pc.RSignal? || (s.txSync && !t.pc.TxClear? && !t.pc.TxWait?))
    ensures Shared(s, i, t, e).restart == (s.restart || (t.pc.TxWait? && !s.txSync))
  {
  }

  lemma CreditMoves(s: State, i: nat, t: Thr, e: In, l: Ledger)
    requires i < |s.thr| && t == s.thr[i] && CreditBalanced(s, l) && Fits(t)
    ensures CreditBalanced(Shared(s, i, t, e), SignalEntry(CreditEntry(l, s, Run(i, e)), s, Run(i, e)))
  {
    hide Shared, Fits, PacketsOf;
    PoolMoves(s, i, t, e);
    SignalMoves(s, i, t, e);
  }

  lemma LockMoves(s: State, i: nat, t: Thr, e: In)
    ensures Shared(s, i, t, e).req == s.req + One(t.pc.ReqG? && !s.restart)
    ensures Shared(s, i, t, e).rel == s.rel + One(t.pc.GUnlock? || t.pc.GQuit? || t.pc.Stray?)
    ensures Shared(s, i, t, e).refused == s.refused + One(t.pc.GAllow? && e.refuse)
    ensures Shared(s, i, t, e).strays == s.strays + One(t.pc.StrayDec?)
  {
  }

  lemma CallMoves(s: State, i: nat, t: Thr, e: In)
    ensures Shared(s, i, t, e).api ==
      s.api + One(t.pc.ObjInc? || t.pc.GInc?) - One(t.pc.GDec? || t.pc.GQuitDec? || t.pc.StrayDec? || t.pc.ObjDec?)
  {
  }

  lemma CountMoves(s: State, i: nat, t: Thr, e: In, l: Ledger)
    requires i < |s.thr| && t == s.thr[i] && CountsBalanced(s, l) && s.restart == l.broken
    ensures CountsBalanced(Shared(s, i, t, e), CountEntry(l, s, Run(i, e)))
  {
    hide Shared;
    LockMoves(s, i, t, e);
    CallMoves(s, i, t, e);
  }

  lemma EntryIs(l: Ledger, s: State, a: Step)
    ensures var m, x, y := Entry(l, s, a), SignalEntry(CreditEntry(l, s, a), s, a), CountEntry(l, s, a);
      && m.last == x.last && m.size == x.size && m.since == x.since && m.signal == x.signal && m.broken == x.broken
      && m.calls == y.calls && m.requests == y.requests && m.releases == y.releases && m.refusals == y.refusals
      && m.strays == y.strays
  {
  }

  lemma StepBalances(c: Config, s: State, a: Step, l: Ledger)
    requires ConfigOk(c) && Inv(c, s) && Enabled(s, a) && s.minSize >= 1 && Balanced(s, l)
    ensures Balanced(Apply(c, s, a), Entry(l, s, a))
  {
    hide Shared, Own, Next, CreditEntry, CountEntry, SignalEntry, Entry, Inv;
    EntryIs(l, s, a);
    match a
    case Fatal => FatalBalances(s, l);
    case Run(i, e) =>
      TakesFit(c, s, i);
      CreditMoves(s, i, s.thr[i], e, l);
      CountMoves(s, i, s.thr[i], e, l);
  }

  lemma FatalBalances(s: State, l: Ledger)
    requires Balanced(s, l)
    ensures CreditBalanced(s.(restart := true), SignalEntry(CreditEntry(l, s, Fatal), s, Fatal))
    ensures CountsBalanced(s, CountEntry(l, s, Fatal))
  {
  }

  /** In every run, whatever the interleaving: the credit and the packet size are what the
      last message reported, FLOW_CONT_MIN and 1536 before the first, the credit less the
      packets taken since; the signal of credit is up exactly if it was given and not taken
      or cleared since; the restart flag is up exactly after a fatal error; and every
      counter is the number of its steps. */
  lemma {:induction false} BooksBalance(c: Config, n: nat, ss: seq<State>, es: seq<Step>, k: nat)
    requires ConfigOk(c) && c.min < 256 && IsRun(c, n, ss, es) && k <= |es|
    ensures Balanced(ss[k], Books(c, ss, es, k))
  {
    hide Inv, Entry, Moves;
    if k > 0 {
      BooksBalance(c, n, ss, es, k - 1);
      RunInv(c, n, ss, es, k - 1);
      assert Moves(c, ss[k - 1], es[k - 1], ss[k]);
      MovesBalance(c, ss[k - 1], es[k - 1], ss[k], Books(c, ss, es, k - 1));
    }
  }

  lemma MovesBalance(c: Config, s: State, a: Step, t: State, l: Ledger)
    requires ConfigOk(c) && Inv(c, s) && Moves(c, s, a, t) && Balanced(s, l)
    ensures Balanced(t, Entry(l, s, a))
  {
    hide Inv, Entry, Balanced;
    StepBalances(c, s, a, l);
  }

  /** `n` packets of `m` bytes are the fewest that hold `len`. */
  predicate Covers(n: nat, m: nat, len: nat) {
    len >= 1 ==> n >= 1 && (n - 1) * m < len <= n * m
  }

  lemma PacketsAreCovering(len: nat, m: nat)
    requires m >= 1
    ensures Covers(Packets(len, m), m, len)
  {
    PacketsCover(len, m, Packets(len, m));
  }

  /** A writer computes its packets with the packet size last reported, and reserves the
      fewest that hold its payload. */
  lemma ReservesByTheReport(c: Config, n: nat, ss: seq<State>, es: seq<Step>, k: nat)
    requires ConfigOk(c) && c.min < 256 && IsRun(c, n, ss, es) && k < |es| && StepAt(ss[k], es[k], TxAlloc)
    ensures es[k].i < |ss[k + 1].thr|
    ensures var t, m := ss[k + 1].thr[es[k].i], Books(c, ss, es, k).size; t.size == m && Covers(t.alloc, m, t.len)
  {
    hide Inv, Entry, Moves, Covers;
    BooksBalance(c, n, ss, es, k);
    assert Moves(c, ss[k], es[k], ss[k + 1]);
    AllocMoves(c, ss[k], es[k], ss[k + 1]);
  }

  lemma AllocMoves(c: Config, s: State, a: Step, s': State)
    requires Moves(c, s, a, s') && StepAt(s, a, TxAlloc)
    ensures a.i < |s'.thr| && s'.thr[a.i].size == s.minSize
    ensures Covers(s'.thr[a.i].alloc, s.minSize, s'.thr[a.i].len)
  {
    hide Covers, Packets, Next;
    PacketsAreCovering(s.thr[a.i].len, s.minSize);
  }
}
