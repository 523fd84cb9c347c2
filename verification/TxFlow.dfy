/**
 Transmit flow control, the two locks it takes and the count of API calls in progress, as a
 machine of threads: data writers, data readers, commands and the spawn thread. Message
 reads overwrite the credit counter; the transmit lock and the global lock guard it.
 */
module TxFlow {

  /** FLOW_CONT_MIN of the build. */
  datatype Config = Config(min: nat)

  predicate ConfigOk(c: Config) {
    1 <= c.min
  }

  datatype Kind = Writer | Reader | Commander | Spawner

  datatype Pc =
    | Idle | ObjInc
    | WantTx | TxClear | TxAlloc | TxCheck | TxWait | TxRecheck | TxBack | TxQuit
    | ReqG | WantG | GAllow | GInc | GRestart | TxVerify | TxTake | TxUnlock | Write
    | Loop | RSet | RCount | RSignal | RDone
    | GUnlock | GDec | GQuit | GQuitDec | Stray | StrayDec
    | ObjWait | ObjDec
    | AbortTx | AbortBoth

  /** A call: what it sends, the packets it reserves, and the packet size they were computed
      with. */
  datatype Thr = Thr(kind: Kind, pc: Pc, len: nat, alloc: nat, size: nat)

  datatype Owner = Nobody | By(i: nat)

  /** `strays` counts the spawn reads that ended in the abort exit of _SlDrvMsgRead, and
      `refused` the calls refused once they had the global lock; no branch looks at them. */
  datatype State = State(
    pool: int, minSize: nat, tx: Owner, txSync: bool, g: Owner, restart: bool,
    api: int, req: int, rel: int, refused: nat, strays: nat, thr: seq<Thr>)

  /** What the environment contributes to a step: the call made, what the device reports,
      and how waits end. */
  datatype In = In(kind: Kind, len: nat, pool: nat, minSize: nat, txFail: bool, nonBlocking: bool,
                   timeout: bool, ok: bool,
                   refuse: bool)

  predicate InOk(e: In) {
    e.pool < 256 && 1 <= e.minSize
  }

  datatype Step = Fatal | Run(i: nat, e: In)

  /** C's integer division of `a` by `m`: it truncates toward zero. */
  function TruncDiv(a: int, m: nat): int
    requires m >= 1
  {
    if a >= 0 then a / m else -(-a / m)
  }

  /** The transmit packets reserved for `len` bytes in packets of `m`. */
  function Packets(len: nat, m: nat): (n: nat)
    requires m >= 1
  {
    1 + TruncDiv(len - 1, m)
  }

  /** It is the least number of packets that covers the payload. An empty payload reserves
      one, except when packets are one byte. */
  lemma PacketsCover(len: nat, m: nat, n: nat)
    requires m >= 1
    ensures len >= 1 ==> (n == Packets(len, m) <==> n >= 1 && (n - 1) * m < len <= n * m)
    ensures Packets(0, m) == if m == 1 then 0 else 1
  {
    if len >= 1 {
      LeastMultiple(len, m, Packets(len, m), n);
    } else if m > 1 {
      assert -(1 / m) == 0;
    }
  }

  lemma LeastMultiple(len: nat, m: nat, p: nat, n: nat)
    requires m >= 1 && len >= 1 && p == 1 + (len - 1) / m
    ensures n == p <==> n >= 1 && (n - 1) * m < len <= n * m
  {
    assert (p - 1) * m < len <= p * m;
    if n < p {
      MulMono(n, p - 1, m);
    } else if n > p {
      MulMono(p, n - 1, m);
    }
  }

  lemma MulMono(a: int, b: int, m: nat)
    requires a <= b
    ensures a * m <= b * m
  {
  }

  /** The pool value a call must exceed when it finally takes its packets, and how many. */
  function Floor(c: Config, t: Thr): int {
    if t.kind.Writer? then c.min + t.alloc - 1 else c.min - 1
  }

  function Taken(t: Thr): nat {
    if t.kind.Writer? then t.alloc else 1
  }

  /** A cast to an unsigned 8-bit value. */
  function U8(n: nat): nat {
    n % 256
  }

  function Init(c: Config, n: nat): State {
    State(c.min, 1536, Nobody, false, Nobody, false, 0, 0, 0, 0, 0, seq(n, _ => Thr(Writer, Idle, 0, 0, 1)))
  }

  predicate Enabled(s: State, a: Step) {
    match a
    case Fatal => true
    case Run(i, e) =>
      && i < |s.thr| && InOk(e)
      && CanRun(s, s.thr[i].pc, e)
  }

  predicate CanRun(s: State, pc: Pc, e: In) {
    match pc
    case WantTx => s.tx.Nobody?
    case WantG => s.g.Nobody?
    case TxWait => s.txSync || e.timeout
    case AbortTx => false
    case AbortBoth => false
    case _ => true
  }

  predicate Transmits(k: Kind) {
    k.Writer? || k.Reader?
  }

  /** Where a call goes next. */
  function Next(c: Config, s: State, t: Thr, e: In): Pc {
    match t.pc
    case Idle =>
      if e.kind.Writer? then WantTx
      else if e.kind.Reader? then (if e.ok then ObjInc else Idle)
      else ReqG
    case ObjInc => WantTx
    case WantTx => TxClear
    case TxClear => if t.kind.Writer? then TxAlloc else TxCheck
    case TxAlloc => if e.txFail then TxQuit else TxCheck
    case TxCheck =>
      if t.kind.Writer? then
        if s.pool > c.min + t.alloc then TxRecheck else if e.nonBlocking then TxQuit else TxWait
      else if s.pool <= c.min then TxWait else ReqG
    case TxWait =>
      if !s.txSync || s.restart then AbortTx else if t.kind.Writer? then TxRecheck else ReqG
    case TxRecheck => if s.pool > c.min + t.alloc then ReqG else TxBack
    case TxBack => WantTx
    case TxQuit => Idle
    case ReqG => if !s.restart then WantG else if Transmits(t.kind) then AbortTx else Idle
    case WantG => GAllow
    case GAllow =>
      if e.refuse then (if Transmits(t.kind) then AbortTx else Idle)
      else if !t.kind.Spawner? then GInc else if e.ok then RSet else GUnlock
    case GInc => GRestart
    case GRestart =>
      if s.restart then (if Transmits(t.kind) then GQuit else GUnlock)
      else if Transmits(t.kind) then TxVerify else Write
    case TxVerify => if s.pool > Floor(c, t) then TxTake else AbortBoth
    case TxTake => TxUnlock
    case TxUnlock => Write
    case Write => if t.kind.Commander? && e.ok then Loop else GUnlock
    case Loop => if e.ok then RSet else GUnlock
    case RSet => RCount
    case RCount => if s.pool > c.min && !s.txSync then RSignal else RDone
    case RSignal => RDone
    case RDone => if t.kind.Spawner? then (if e.ok then GUnlock else Stray) else if e.ok then Loop else GUnlock
    case GUnlock => if t.kind.Spawner? then Idle else GDec
    case GDec => if t.kind.Reader? then ObjWait else Idle
    case GQuit => GQuitDec
    case GQuitDec => AbortTx
    case Stray => StrayDec
    case StrayDec => Idle
    case ObjWait => ObjDec
    case ObjDec => Idle
    case AbortTx => AbortTx
    case AbortBoth => AbortBoth
  }

  /** What its step does to the call's own variables. */
  function Own(s: State, t: Thr, e: In): Thr
    requires t.pc.TxAlloc? ==> s.minSize >= 1
  {
    match t.pc
    case Idle => t.(kind := e.kind, len := e.len)
    case TxAlloc => t.(alloc := Packets(t.len, s.minSize), size := s.minSize)
    case _ => t
  }

  /** ... and to what is shared. */
  function Shared(s: State, i: nat, t: Thr, e: In): State {
    match t.pc
    case ObjInc => s.(api := s.api + 1)
    case WantTx => s.(tx := By(i))
    case TxClear => s.(txSync := false)
    case TxWait => if s.txSync then s.(txSync := false) else s.(restart := true)
    case TxBack => s.(tx := Nobody)
    case TxQuit => s.(tx := Nobody)
    case ReqG => if s.restart then s else s.(req := s.req + 1)
    case WantG => s.(g := By(i))
    case GAllow => if e.refuse then s.(g := Nobody, refused := s.refused + 1) else s
    case GInc => s.(api := s.api + 1)
    case TxTake => s.(pool := s.pool - U8(Taken(t)))
    case TxUnlock => s.(tx := Nobody)
    case RSet => s.(pool := e.pool, minSize := e.minSize)
    case RSignal => s.(txSync := true)
    case GUnlock => s.(g := Nobody, rel := s.rel + 1)
    case GDec => s.(api := s.api - 1)
    case GQuit => s.(g := Nobody, rel := s.rel + 1)
    case GQuitDec => s.(api := s.api - 1)
    case Stray => s.(g := Nobody, rel := s.rel + 1)
    case StrayDec => s.(api := s.api - 1, strays := s.strays + 1)
    case ObjDec => s.(api := s.api - 1)
    case _ => s
  }

  function Put(s: State, i: nat, t: Thr): State
    requires i < |s.thr|
  {
    s.(thr := s.thr[i := t])
  }

  function Apply(c: Config, s: State, a: Step): State
    requires Enabled(s, a) && s.minSize >= 1
  {
    match a
    case Fatal => s.(restart := true)
    case Run(i, e) =>
      var t := s.thr[i];
      Put(Shared(s, i, t, e), i, Own(s, t, e).(pc := Next(c, s, t, e)))
  }

  // ------------------------------------------------------------------ the invariant

  /** The call holds the transmit lock; an aborted one never gives it back. */
  predicate HoldsTx(t: Thr) {
    || t.pc.TxClear? || t.pc.TxAlloc? || t.pc.TxCheck? || t.pc.TxWait? || t.pc.TxRecheck? || t.pc.TxBack? || t.pc.TxQuit?
    || (Transmits(t.kind) && (t.pc.ReqG? || t.pc.WantG? || t.pc.GAllow? || t.pc.GInc? || t.pc.GRestart?))
    || t.pc.TxVerify? || t.pc.TxTake? || t.pc.TxUnlock?
    || t.pc.GQuit? || t.pc.GQuitDec? || t.pc.AbortTx? || t.pc.AbortBoth?
  }

  predicate HoldsG(pc: Pc) {
    || pc.GAllow? || pc.GInc? || pc.GRestart? || pc.TxVerify? || pc.TxTake? || pc.TxUnlock? || pc.Write?
    || pc.Loop? || pc.RSet? || pc.RCount? || pc.RSignal? || pc.RDone? || pc.GUnlock? || pc.GQuit? || pc.Stray?
    || pc.AbortBoth?
  }

  /** Between its increment and its decrement of the API counter under the global lock. */
  predicate CountedG(t: Thr) {
    && !t.kind.Spawner?
    && ((HoldsG(t.pc) && !t.pc.GAllow? && !t.pc.GInc?) || t.pc.GDec? || t.pc.GQuitDec?)
  }

  /** ... and for its pool object. */
  predicate CountedObj(t: Thr) {
    t.kind.Reader? && !t.pc.Idle? && !t.pc.ObjInc?
  }

  function Calls(t: Thr): nat {
    (if CountedG(t) then 1 else 0) + if CountedObj(t) then 1 else 0
  }

  /** Requested the global lock and not yet released it. */
  function Open(t: Thr): nat {
    if t.pc.WantG? || HoldsG(t.pc) then 1 else 0
  }

  function SumCalls(thr: seq<Thr>): nat {
    if thr == [] then 0 else SumCalls(thr[..|thr| - 1]) + Calls(thr[|thr| - 1])
  }

  function SumOpen(thr: seq<Thr>): nat {
    if thr == [] then 0 else SumOpen(thr[..|thr| - 1]) + Open(thr[|thr| - 1])
  }

  /** Which calls can stand where. */
  predicate Placed(t: Thr) {
    && (t.pc.ObjInc? || t.pc.ObjWait? || t.pc.ObjDec? ==> t.kind.Reader?)
    && (t.pc.TxAlloc? || t.pc.TxRecheck? || t.pc.TxBack? || t.pc.TxQuit? ==> t.kind.Writer?)
    && (t.pc.WantTx? || HoldsTx(t) ==> Transmits(t.kind))
    && (t.pc.Loop? ==> t.kind.Commander?)
    && (t.pc.RSet? || t.pc.RCount? || t.pc.RSignal? || t.pc.RDone? ==> !Transmits(t.kind))
    && (t.pc.Stray? || t.pc.StrayDec? ==> t.kind.Spawner?)
    && (t.kind.Spawner? ==>
         || t.pc.Idle? || t.pc.ReqG? || t.pc.WantG? || t.pc.GAllow?
         || t.pc.RSet? || t.pc.RCount? || t.pc.RSignal? || t.pc.RDone? || t.pc.GUnlock? || t.pc.Stray? || t.pc.StrayDec?)
  }

  /** After a writer has computed its reservation it covers the payload. */
  predicate Reserved(t: Thr) {
    && t.size >= 1
    && (t.kind.Writer? && HoldsTx(t) && !t.pc.TxClear? && !t.pc.TxAlloc? ==> t.alloc == Packets(t.len, t.size))
  }

  ghost predicate Locks(s: State) {
    && (forall i: nat :: i < |s.thr| ==> (HoldsTx(s.thr[i]) <==> s.tx == By(i)))
    && (forall i: nat :: i < |s.thr| ==> (HoldsG(s.thr[i].pc) <==> s.g == By(i)))
    && (s.tx.By? ==> s.tx.i < |s.thr|) && (s.g.By? ==> s.g.i < |s.thr|)
  }

  /** The credit that was verified is still there when it is taken. */
  ghost predicate Credit(c: Config, s: State) {
    && 0 <= s.pool < 256 && s.minSize >= 1
    && (forall i: nat :: i < |s.thr| && s.thr[i].pc.TxTake? ==> s.pool > Floor(c, s.thr[i]))
  }

  /** A blocked call whose credit has come has been signalled, or is about to be. */
  ghost predicate Woken(c: Config, s: State) {
    forall i: nat :: i < |s.thr| && s.thr[i].pc.TxWait? && s.pool > Enough(c, s.thr[i]) ==>
      s.txSync || Signalling(s)
  }

  function Enough(c: Config, t: Thr): nat {
    if t.kind.Writer? then c.min + t.alloc else c.min
  }

  predicate Signalling(s: State) {
    s.g.By? && s.g.i < |s.thr| && (s.thr[s.g.i].pc.RCount? || s.thr[s.g.i].pc.RSignal?)
  }

  ghost predicate Counts(s: State) {
    s.api == SumCalls(s.thr) - s.strays && s.req == s.rel + s.refused + SumOpen(s.thr)
  }

  ghost predicate Inv(c: Config, s: State) {
    && (forall i: nat :: i < |s.thr| ==> Placed(s.thr[i]) && Reserved(s.thr[i]))
    && Locks(s) && Credit(c, s) && Woken(c, s) && Counts(s)
  }

  lemma InitInv(c: Config, n: nat)
    requires ConfigOk(c) && c.min < 256
    ensures Inv(c, Init(c, n))
  {
    var thr := Init(c, n).thr;
    SumsOfIdle(thr, n);
  }

  lemma {:induction false} SumsOfIdle(thr: seq<Thr>, n: nat)
    requires |thr| == n && forall i: nat :: i < n ==> thr[i] == Thr(Writer, Idle, 0, 0, 1)
    ensures SumCalls(thr) == 0 && SumOpen(thr) == 0
    decreases n
  {
    if n > 0 {
      SumsOfIdle(thr[..n - 1], n - 1);
    }
  }

  lemma {:induction false} SumsUpdate(thr: seq<Thr>, i: nat, t: Thr)
    requires i < |thr|
    ensures SumCalls(thr[i := t]) == SumCalls(thr) - Calls(thr[i]) + Calls(t)
    ensures SumOpen(thr[i := t]) == SumOpen(thr) - Open(thr[i]) + Open(t)
    decreases |thr|
  {
    hide Calls, Open;
    var m := |thr| - 1;
    if i == m {
      assert thr[i := t][..m] == thr[..m];
    } else {
      assert thr[i := t][..m] == thr[..m][i := t];
      SumsUpdate(thr[..m], i, t);
    }
  }

  // ------------------------------------------------------------------ one step, seen from its own call

  predicate LocalOk(s: State, i: nat, t: Thr) {
    && Placed(t) && Reserved(t) && s.minSize >= 1
    && (HoldsTx(t) <==> s.tx == By(i)) && (HoldsG(t.pc) <==> s.g == By(i))
  }

  function SharedAfter(s: State, i: nat, t: Thr, e: In): State {
    Shared(s, i, t, e)
  }

  function OwnAfter(c: Config, s: State, t: Thr, e: In): Thr
    requires s.minSize >= 1
  {
    Own(s, t, e).(pc := Next(c, s, t, e))
  }

  ghost predicate TxMove(s: State, i: nat, s': State, t': Thr) {
    && s'.thr == s.thr && (HoldsTx(t') <==> s'.tx == By(i))
    && (s'.tx == s.tx || (s.tx.Nobody? && s'.tx == By(i)) || (s.tx == By(i) && s'.tx.Nobody?))
  }

  ghost predicate GMove(s: State, i: nat, s': State, t': Thr) {
    && (HoldsG(t'.pc) <==> s'.g == By(i))
    && (s'.g == s.g || (s.g.Nobody? && s'.g == By(i)) || (s.g == By(i) && s'.g.Nobody?))
  }

  /** The credit changes under the global lock only, and who verified it holds that lock. */
  ghost predicate CreditMove(c: Config, s: State, i: nat, s': State, t': Thr) {
    && 0 <= s'.pool < 256 && s'.minSize >= 1
    && (s'.pool != s.pool ==> s.g == By(i))
    && (t'.pc.TxTake? ==> s'.pool > Floor(c, t') && s'.g == By(i))
  }

  /** Only the holder of the transmit lock takes the signal of credit. */
  ghost predicate WakeMove(c: Config, s: State, i: nat, t: Thr, s': State, t': Thr) {
    && (s'.pool > s.pool ==> t'.pc.RCount? && s'.g == By(i))
    && (s.txSync && !s'.txSync ==> s.tx == By(i))
    && (t.pc.RCount? && s.pool > c.min ==> s'.txSync || (t'.pc.RSignal? && s'.g == By(i)))
    && (t.pc.RSignal? ==> s'.txSync)
    && (t'.pc.TxWait? ==> s'.pool <= Enough(c, t') && s'.tx == By(i))
  }

  ghost predicate CountMove(s: State, t: Thr, s': State, t': Thr) {
    && s'.api + s'.strays - Calls(t') == s.api + s.strays - Calls(t)
    && s'.req - s'.rel - s'.refused - Open(t') == s.req - s.rel - s.refused - Open(t)
  }

  lemma TxMoves(c: Config, s: State, i: nat, t: Thr, e: In)
    requires LocalOk(s, i, t) && CanRun(s, t.pc, e)
    ensures TxMove(s, i, SharedAfter(s, i, t, e), OwnAfter(c, s, t, e))
  {
    hide Reserved, Packets, HoldsG;
  }

  lemma GMoves(c: Config, s: State, i: nat, t: Thr, e: In)
    requires LocalOk(s, i, t) && CanRun(s, t.pc, e)
    ensures GMove(s, i, SharedAfter(s, i, t, e), OwnAfter(c, s, t, e))
  {
    hide Reserved, Packets, HoldsTx, Placed;
    if t.pc.WantG? || t.pc.GAllow? {
    } else if t.pc.GUnlock? || t.pc.GQuit? || t.pc.Stray? {
    } else {
      assert SharedAfter(s, i, t, e).g == s.g;
      KeepsG(c, s, t, e);
    }
  }

  lemma KeepsG(c: Config, s: State, t: Thr, e: In)
    requires s.minSize >= 1
    requires !(t.pc.WantG? || t.pc.GAllow? || t.pc.GUnlock? || t.pc.GQuit? || t.pc.Stray?)
    ensures HoldsG(OwnAfter(c, s, t, e).pc) <==> HoldsG(t.pc)
    ensures OwnAfter(c, s, t, e).pc.WantG? ==> t.pc.ReqG?
  {
    hide Packets, Floor;
  }

  lemma PlaceMoves(c: Config, s: State, i: nat, t: Thr, e: In)
    requires LocalOk(s, i, t)
    ensures Placed(OwnAfter(c, s, t, e))
  {
    hide Reserved, Packets, HoldsG, Floor;
  }

  lemma ReserveMoves(c: Config, s: State, i: nat, t: Thr, e: In)
    requires LocalOk(s, i, t)
    ensures Reserved(OwnAfter(c, s, t, e))
  {
    hide Packets, HoldsG, Floor;
  }

  lemma CreditMoves(c: Config, s: State, i: nat, t: Thr, e: In)
    requires ConfigOk(c) && LocalOk(s, i, t) && InOk(e)
    requires 0 <= s.pool < 256 && (t.pc.TxTake? ==> s.pool > Floor(c, t))
    ensures CreditMove(c, s, i, SharedAfter(s, i, t, e), OwnAfter(c, s, t, e))
  {
    hide Packets, HoldsTx, Reserved;
  }

  lemma WakeMoves(c: Config, s: State, i: nat, t: Thr, e: In)
    requires LocalOk(s, i, t)
    ensures WakeMove(c, s, i, t, SharedAfter(s, i, t, e), OwnAfter(c, s, t, e))
  {
    hide Packets, Floor, Reserved;
  }

  lemma CountMoves(c: Config, s: State, i: nat, t: Thr, e: In)
    requires LocalOk(s, i, t)
    ensures CountMove(s, t, SharedAfter(s, i, t, e), OwnAfter(c, s, t, e))
  {
    hide Packets, Reserved, HoldsTx, Floor, Placed;
    OpenMoves(c, s, i, t, e);
    CallMoves(c, s, i, t, e);
  }

  lemma OpenMoves(c: Config, s: State, i: nat, t: Thr, e: In)
    requires s.minSize >= 1
    ensures var s' := SharedAfter(s, i, t, e);
      s'.req - s'.rel - s'.refused - Open(OwnAfter(c, s, t, e)) == s.req - s.rel - s.refused - Open(t)
  {
    hide Packets, Floor;
    var s', t' := SharedAfter(s, i, t, e), OwnAfter(c, s, t, e);
    if t.pc.ReqG? {
    } else if t.pc.GAllow? {
    } else if t.pc.GUnlock? || t.pc.GQuit? || t.pc.Stray? {
    } else {
      assert s'.req == s.req && s'.rel == s.rel && s'.refused == s.refused;
      if !t.pc.WantG? {
        KeepsG(c, s, t, e);
      }
    }
  }

  lemma CallMoves(c: Config, s: State, i: nat, t: Thr, e: In)
    requires Placed(t) && s.minSize >= 1
    ensures var s' := SharedAfter(s, i, t, e);
      s'.api + s'.strays - Calls(OwnAfter(c, s, t, e)) == s.api + s.strays - Calls(t)
  {
    hide Packets, Floor;
    var s', t' := SharedAfter(s, i, t, e), OwnAfter(c, s, t, e);
    if t.pc.ObjInc? || t.pc.GInc? || t.pc.ObjDec? {
    } else if t.pc.GDec? || t.pc.GQuitDec? || t.pc.StrayDec? {
    } else {
      assert s'.api == s.api && s'.strays == s.strays;
      KeepsCountedG(c, s, t, e);
      KeepsCountedObj(c, s, t, e);
    }
  }

  lemma KeepsCountedG(c: Config, s: State, t: Thr, e: In)
    requires Placed(t) && s.minSize >= 1
    requires !(t.pc.GInc? || t.pc.GDec? || t.pc.GQuitDec? || t.pc.StrayDec?)
    ensures CountedG(OwnAfter(c, s, t, e)) <==> CountedG(t)
  {
    hide Packets, Floor;
    if t.kind.Spawner? {
      assert !t.pc.Idle? ==> OwnAfter(c, s, t, e).kind.Spawner?;
    }
  }

  lemma KeepsCountedObj(c: Config, s: State, t: Thr, e: In)
    requires Placed(t) && s.minSize >= 1
    requires !(t.pc.ObjInc? || t.pc.ObjDec? || t.pc.GDec?)
    ensures CountedObj(OwnAfter(c, s, t, e)) <==> CountedObj(t)
  {
    hide Packets, Floor;
  }

  // ------------------------------------------------------------------ what every step keeps

  lemma LocksFrom(s: State, i: nat, s': State, t': Thr)
    requires Locks(s) && i < |s.thr| && TxMove(s, i, s', t') && GMove(s, i, s', t')
    ensures Locks(Put(s', i, t'))
  {
    hide HoldsTx, HoldsG;
    var u := Put(s', i, t');
    forall j: nat | j < |s.thr|
      ensures HoldsTx(u.thr[j]) <==> u.tx == By(j)
      ensures HoldsG(u.thr[j].pc) <==> u.g == By(j)
    {
      assert HoldsTx(s.thr[j]) <==> s.tx == By(j);
      assert HoldsG(s.thr[j].pc) <==> s.g == By(j);
    }
  }

  lemma CreditFrom(c: Config, s: State, i: nat, s': State, t': Thr)
    requires Locks(s) && Credit(c, s) && i < |s.thr| && s'.thr == s.thr && CreditMove(c, s, i, s', t')
    ensures Credit(c, Put(s', i, t'))
  {
    hide HoldsTx, Floor;
    var u := Put(s', i, t');
    forall j: nat | j < |s.thr| && u.thr[j].pc.TxTake?
      ensures u.pool > Floor(c, u.thr[j])
    {
      if j != i {
        assert HoldsG(s.thr[j].pc) && u.thr[j] == s.thr[j];
      }
    }
  }

  lemma WokenFrom(c: Config, s: State, i: nat, s': State, t': Thr)
    requires Locks(s) && Woken(c, s) && i < |s.thr|
    requires TxMove(s, i, s', t') && GMove(s, i, s', t') && WakeMove(c, s, i, s.thr[i], s', t')
    ensures Woken(c, Put(s', i, t'))
  {
    var u := Put(s', i, t');
    forall j: nat | j < |s.thr| && u.thr[j].pc.TxWait? && u.pool > Enough(c, u.thr[j])
      ensures u.txSync || Signalling(u)
    {
      assert j != i && u.thr[j] == s.thr[j];
      assert HoldsTx(s.thr[j]) <==> s.tx == By(j);
      OtherWaits(c, s, i, s', t', j);
    }
  }

  /** Another call waits, so this one does not hold the transmit lock and takes no signal. */
  lemma OtherWaits(c: Config, s: State, i: nat, s': State, t': Thr, j: nat)
    requires Locks(s) && Woken(c, s) && i < |s.thr| && j < |s.thr| && i != j
    requires TxMove(s, i, s', t') && GMove(s, i, s', t') && WakeMove(c, s, i, s.thr[i], s', t')
    requires s.thr[j].pc.TxWait? && s.tx == By(j) && s'.pool > Enough(c, s.thr[j])
    ensures s'.txSync || Signalling(Put(s', i, t'))
  {
    hide HoldsTx;
    assert HoldsG(s.thr[i].pc) <==> s.g == By(i);
    if s'.pool <= s.pool {
      assert s.txSync || Signalling(s);
      if !s.txSync && s.g != By(i) {
        assert Put(s', i, t').thr[s.g.i] == s.thr[s.g.i];
      }
    }
  }

  lemma CountsFrom(s: State, i: nat, s': State, t': Thr)
    requires Counts(s) && i < |s.thr| && s'.thr == s.thr && CountMove(s, s.thr[i], s', t')
    ensures Counts(Put(s', i, t'))
  {
    hide Calls, Open;
    SumsUpdate(s.thr, i, t');
  }

  lemma OwnFacts(c: Config, s: State, i: nat)
    requires Inv(c, s) && i < |s.thr|
    ensures LocalOk(s, i, s.thr[i]) && 0 <= s.pool < 256
    ensures s.thr[i].pc.TxTake? ==> s.pool > Floor(c, s.thr[i])
  {
  }

  lemma RunKeeps(c: Config, s: State, i: nat, e: In)
    requires ConfigOk(c) && Inv(c, s) && Enabled(s, Run(i, e))
    ensures s.minSize >= 1 && Inv(c, Apply(c, s, Run(i, e)))
  {
    hide Shared, Own, Next, HoldsTx, HoldsG, Placed, Reserved, Calls, Open, Floor, Enough;
    hide TxMove, GMove, CreditMove, WakeMove, CountMove, Locks, Credit, Woken, Counts;
    OwnFacts(c, s, i);
    var t := s.thr[i];
    TxMoves(c, s, i, t, e);
    GMoves(c, s, i, t, e);
    PlaceMoves(c, s, i, t, e);
    ReserveMoves(c, s, i, t, e);
    CreditMoves(c, s, i, t, e);
    WakeMoves(c, s, i, t, e);
    CountMoves(c, s, i, t, e);
    InvFrom(c, s, i, SharedAfter(s, i, t, e), OwnAfter(c, s, t, e));
  }

  lemma InvFrom(c: Config, s: State, i: nat, s': State, t': Thr)
    requires Inv(c, s) && i < |s.thr| && Placed(t') && Reserved(t')
    requires TxMove(s, i, s', t') && GMove(s, i, s', t') && CreditMove(c, s, i, s', t')
    requires WakeMove(c, s, i, s.thr[i], s', t') && CountMove(s, s.thr[i], s', t')
    ensures Inv(c, Put(s', i, t'))
  {
    hide GMove, CreditMove, WakeMove, CountMove, Locks, Credit, Woken, Counts, Placed, Reserved;
    LocksFrom(s, i, s', t');
    CreditFrom(c, s, i, s', t');
    WokenFrom(c, s, i, s', t');
    CountsFrom(s, i, s', t');
  }

  lemma StepKeeps(c: Config, s: State, a: Step)
    requires ConfigOk(c) && Inv(c, s) && Enabled(s, a)
    ensures s.minSize >= 1 && Inv(c, Apply(c, s, a))
  {
    match a
    case Fatal =>
    case Run(i, e) => RunKeeps(c, s, i, e);
  }

  // ------------------------------------------------------------------ runs

  ghost predicate IsRun(c: Config, n: nat, ss: seq<State>, es: seq<Step>) {
    && |ss| == |es| + 1 && ss[0] == Init(c, n)
    && forall k :: 0 <= k < |es| ==> Moves(c, ss[k], es[k], ss[k + 1])
  }

  ghost predicate Moves(c: Config, s: State, a: Step, s': State) {
    Enabled(s, a) && s.minSize >= 1 && s' == Apply(c, s, a)
  }

  lemma {:induction false} RunInv(c: Config, n: nat, ss: seq<State>, es: seq<Step>, k: nat)
    requires ConfigOk(c) && c.min < 256 && IsRun(c, n, ss, es) && k < |ss|
    ensures Inv(c, ss[k])
  {
    hide Inv;
    if k == 0 {
      InitInv(c, n);
    } else {
      RunInv(c, n, ss, es, k - 1);
      assert Moves(c, ss[k - 1], es[k - 1], ss[k]);
      StepKeeps(c, ss[k - 1], es[k - 1]);
    }
  }
}
