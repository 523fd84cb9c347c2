/**
 The action pool of driver.c as values: which objects are free, active, pending or
 woken-in-hand, what each was requested for, and the active-actions bitmap.

 One operation is one critical section of the protection lock. A waiter that was
 woken holds its object "in hand" until it re-enters the lock and contends again.
 */
module PoolSpec {

  /** MAX_CONCURRENT_ACTIONS, SL_MAX_SOCKETS and SELECT_ID of the build. */
  datatype Config = Config(n: nat, maxSockets: nat, selectId: nat)

  /** Socket bits and action bits of the bitmap are disjoint. */
  predicate ConfigOk(c: Config) {
    c.maxSockets <= c.selectId
  }

  /** `locked` is true when an operation returned without releasing the protection lock. */
  datatype Pool = Pool(
    free: seq<nat>, active: seq<nat>, pending: seq<nat>, woken: set<nat>,
    act: seq<nat>, sock: seq<nat>, bits: set<nat>, locked: bool)

  datatype Op =
    | Alloc(action: nat, socket: nat, spawn: bool)
    | Resume(i: nat)
    | Release(i: nat)

  /** The bitmap position an object contends for: its socket, or else its action. */
  function Key(c: Config, action: nat, socket: nat): nat {
    if socket < c.maxSockets then socket else action
  }

  function KeyOf(c: Config, p: Pool, i: nat): nat
    requires i < |p.act| && i < |p.sock|
  {
    Key(c, p.act[i], p.sock[i])
  }

  /** A request has to wait while its bit is on, except a select, which never waits. */
  predicate Busy(c: Config, bits: set<nat>, action: nat, socket: nat) {
    || (socket < c.maxSockets && socket in bits)
    || (socket == c.maxSockets && action in bits && action != c.selectId)
  }

  function Init(c: Config): Pool {
    Pool(seq(c.n, i => i), [], [], {}, seq(c.n, _ => 0), seq(c.n, _ => c.maxSockets), {}, false)
  }

  function Take(c: Config, p: Pool, action: nat, socket: nat): Pool
    requires p.free != [] && p.free[0] < |p.act| && p.free[0] < |p.sock|
  {
    var i := p.free[0];
    p.(free := p.free[1..], act := p.act[i := action],
       sock := if socket < c.maxSockets then p.sock[i := socket] else p.sock)
  }

  /** Become active when the key is idle, otherwise go to the head of the pending list. */
  function Settle(c: Config, p: Pool, i: nat, action: nat, socket: nat): Pool {
    if Busy(c, p.bits, action, socket) then
      p.(pending := [i] + p.pending)
    else
      p.(bits := p.bits + {Key(c, action, socket)}, active := [i] + p.active)
  }

  function DoAlloc(c: Config, p: Pool, action: nat, socket: nat, spawn: bool): Pool
    requires p.free != [] ==> p.free[0] < |p.act| && p.free[0] < |p.sock|
  {
    if p.free == [] then p
    else
      var i := p.free[0];
      var t := Take(c, p, action, socket);
      if Busy(c, p.bits, action, socket) && spawn then
        t.(free := [i] + t.free, act := t.act[i := 0], sock := t.sock[i := c.maxSockets])
      else
        Settle(c, t, i, action, socket)
  }

  function DoResume(c: Config, p: Pool, i: nat): Pool
    requires i < |p.act| && i < |p.sock|
  {
    Settle(c, p.(woken := p.woken - {i}), i, p.act[i], p.sock[i])
  }

  /** The test by which a releasing object `i` picks the waiter `j` to wake. */
  predicate Match(c: Config, p: Pool, j: nat, i: nat)
    requires i < |p.act| == |p.sock| && j < |p.act|
  {
    && p.act[j] == p.act[i]
    && (|| p.sock[j] == c.maxSockets
        || (p.sock[i] < c.maxSockets && p.sock[j] == p.sock[i]))
  }

  predicate InRange(p: Pool, l: seq<nat>) {
    && |p.act| == |p.sock|
    && forall m :: 0 <= m < |l| ==> l[m] < |p.act|
  }

  /** Position of the first waiter of `l` that matches `i`, or |l|. */
  function FirstMatch(c: Config, p: Pool, l: seq<nat>, i: nat): (k: nat)
    requires InRange(p, l) && i < |p.act|
    ensures k <= |l|
    ensures k < |l| ==> Match(c, p, l[k], i)
    ensures forall m :: 0 <= m < k ==> !Match(c, p, l[m], i)
  {
    FirstMatchFrom(c, p, l, i, 0)
  }

  function FirstMatchFrom(c: Config, p: Pool, l: seq<nat>, i: nat, from: nat): (k: nat)
    requires InRange(p, l) && i < |p.act| && from <= |l|
    ensures from <= k <= |l|
    ensures k < |l| ==> Match(c, p, l[k], i)
    ensures forall m :: from <= m < k ==> !Match(c, p, l[m], i)
    decreases |l| - from
  {
    if from == |l| || Match(c, p, l[from], i) then from else FirstMatchFrom(c, p, l, i, from + 1)
  }

  function Without(l: seq<nat>, k: nat): seq<nat>
    requires k < |l|
  {
    l[..k] + l[k + 1..]
  }

  /** Position of `x` in `l`, or |l|. */
  function IndexOf(l: seq<nat>, x: nat): (k: nat)
    ensures k <= |l|
    ensures k < |l| ==> l[k] == x
    ensures x in l ==> k < |l|
    ensures forall m :: 0 <= m < k ==> l[m] != x
  {
    IndexFrom(l, x, 0)
  }

  function IndexFrom(l: seq<nat>, x: nat, from: nat): (k: nat)
    requires from <= |l|
    ensures from <= k <= |l|
    ensures k < |l| ==> l[k] == x
    ensures forall m :: from <= m < k ==> l[m] != x
    decreases |l| - from
  {
    if from == |l| || l[from] == x then from else IndexFrom(l, x, from + 1)
  }

  function Minus(l: seq<nat>, x: nat): seq<nat> {
    var k := IndexOf(l, x);
    if k < |l| then Without(l, k) else l
  }

  function Wake(c: Config, p: Pool, i: nat): Pool
    requires InRange(p, p.pending) && i < |p.act|
  {
    var k := FirstMatch(c, p, p.pending, i);
    if k < |p.pending| then
      p.(pending := Without(p.pending, k), woken := p.woken + {p.pending[k]})
    else p
  }

  /** The releasing object finds its own bit off (a second select is let through). */
  predicate BitMissing(c: Config, p: Pool, i: nat)
    requires i < |p.act| == |p.sock|
  {
    && KeyOf(c, p, i) !in p.bits
    && (p.sock[i] < c.maxSockets || p.act[i] != c.selectId)
  }

  function DoRelease(c: Config, p: Pool, i: nat): Pool
    requires InRange(p, p.pending) && i < |p.act|
  {
    var w := Wake(c, p, i);
    if BitMissing(c, p, i) then
      w.(locked := true)
    else
      w.(bits := w.bits - {KeyOf(c, p, i)},
         act := w.act[i := 0], sock := w.sock[i := c.maxSockets],
         active := Minus(w.active, i), free := [i] + w.free)
  }

  // ------------------------------------------------------------------ the invariant

  /** How many places hold object `i`. */
  ghost function Copies(p: Pool, i: nat): nat {
    multiset(p.free)[i] + multiset(p.active)[i] + multiset(p.pending)[i] + multiset(p.woken)[i]
  }

  predicate Occupied(p: Pool, i: nat) {
    i in p.active || i in p.pending || i in p.woken
  }

  /** Every object is in exactly one place, once; `except` is in nobody's list. */
  ghost predicate PartitionBut(c: Config, p: Pool, except: set<nat>) {
    && |p.act| == |p.sock| == c.n
    && forall i: nat :: Copies(p, i) == if i < c.n && i !in except then 1 else 0
  }

  ghost predicate Partition(c: Config, p: Pool) {
    PartitionBut(c, p, {})
  }

  ghost predicate Labels(c: Config, p: Pool)
    requires |p.act| == |p.sock| == c.n
  {
    && (forall i: nat :: i < c.n ==> p.sock[i] <= c.maxSockets)
    && (forall i: nat :: i < c.n && i in p.free ==> p.sock[i] == c.maxSockets)
    && (forall i: nat :: i < c.n && Occupied(p, i) ==> c.maxSockets <= p.act[i])
  }

  /** The bitmap is exactly the keys of the active objects; only selects share a key. */
  ghost predicate Bitmap(c: Config, p: Pool)
    requires |p.act| == |p.sock| == c.n
  {
    && (forall b :: b in p.bits ==> exists i: nat :: i < c.n && i in p.active && KeyOf(c, p, i) == b)
    && (forall i: nat :: i < c.n && i in p.active && KeyOf(c, p, i) != c.selectId ==> KeyOf(c, p, i) in p.bits)
    && (forall i: nat, j: nat ::
          i < c.n && j < c.n && i in p.active && j in p.active && i != j && KeyOf(c, p, i) == KeyOf(c, p, j)
          ==> KeyOf(c, p, i) == c.selectId)
  }

  ghost predicate Inv(c: Config, p: Pool) {
    && Partition(c, p)
    && Labels(c, p)
    && Bitmap(c, p)
    && !p.locked
  }

  /** What callers may do: real action ids, sockets in range, resume only when woken,
      release only what is active. */
  predicate Enabled(c: Config, p: Pool, op: Op) {
    match op
    case Alloc(action, socket, _) => c.maxSockets <= action && socket <= c.maxSockets
    case Resume(i) => i in p.woken
    case Release(i) => i in p.active
  }

  function Apply(c: Config, p: Pool, op: Op): Pool
    requires |p.act| == |p.sock| == c.n
    requires forall i: nat :: i in p.free || Occupied(p, i) ==> i < c.n
    requires Enabled(c, p, op)
  {
    assert forall i: nat :: Occupied(p, i) ==> i < c.n;
    match op
    case Alloc(action, socket, spawn) =>
      assert p.free != [] ==> p.free[0] in p.free;
      DoAlloc(c, p, action, socket, spawn)
    case Resume(i) => assert Occupied(p, i); DoResume(c, p, i)
    case Release(i) =>
      assert Occupied(p, i);
      assert forall m :: 0 <= m < |p.pending| ==> Occupied(p, p.pending[m]);
      DoRelease(c, p, i)
  }

  // ------------------------------------------------------------------ partition lemmas

  lemma PlacesBound(c: Config, p: Pool)
    requires Partition(c, p)
    ensures forall i: nat :: i in p.free || Occupied(p, i) ==> i < c.n
    ensures forall i: nat :: i < c.n ==> i in p.free || Occupied(p, i)
  {
    forall i: nat
      ensures i in p.free || Occupied(p, i) <==> i < c.n
    {
      assert Copies(p, i) == if i < c.n then 1 else 0;
    }
  }

  /** An object in one place is in no other, and no list repeats an object. */
  lemma PlacesDistinct(c: Config, p: Pool, except: set<nat>)
    requires PartitionBut(c, p, except)
    ensures forall i: nat :: i in p.free ==> !Occupied(p, i)
    ensures forall i: nat :: i in p.active ==> i !in p.pending && i !in p.woken
    ensures forall i: nat :: i in p.pending ==> i !in p.woken
    ensures forall i: nat :: i in except ==> i !in p.free && !Occupied(p, i)
    ensures NoDup(p.free) && NoDup(p.active) && NoDup(p.pending)
  {
    forall i: nat
      ensures Copies(p, i) <= 1 && (i in except ==> Copies(p, i) == 0)
      ensures multiset(p.free)[i] <= 1 && multiset(p.active)[i] <= 1 && multiset(p.pending)[i] <= 1
      ensures i in p.free ==> !Occupied(p, i)
      ensures i in p.active ==> i !in p.pending && i !in p.woken
      ensures i in p.pending ==> i !in p.woken
      ensures i in except ==> i !in p.free && !Occupied(p, i)
    {
      assert Copies(p, i) <= 1;
    }
    NoDupFromCount(p.free);
    NoDupFromCount(p.active);
    NoDupFromCount(p.pending);
  }

  ghost predicate NoDup(l: seq<nat>) {
    forall i, j :: 0 <= i < j < |l| ==> l[i] != l[j]
  }

  lemma NoDupFromCount(l: seq<nat>)
    requires forall x: nat :: multiset(l)[x] <= 1
    ensures NoDup(l)
  {
    forall i, j | 0 <= i < j < |l|
      ensures l[i] != l[j]
    {
      assert l == l[..j] + [l[j]] + l[j + 1..];
      assert multiset(l) == multiset(l[..j]) + multiset{l[j]} + multiset(l[j + 1..]);
      assert l[i] in l[..j];
      assert multiset(l)[l[i]] <= 1;
    }
  }

  lemma WithoutMultiset(l: seq<nat>, k: nat)
    requires k < |l|
    ensures multiset(l) == multiset(Without(l, k)) + multiset{l[k]}
    ensures forall x: nat :: x in Without(l, k) ==> x in l
  {
    assert l == l[..k] + [l[k]] + l[k + 1..];
    assert multiset(l) == multiset(l[..k]) + multiset{l[k]} + multiset(l[k + 1..]);
  }

  // ------------------------------------------------------------------ each operation keeps the invariant

  lemma InitInv(c: Config)
    ensures Inv(c, Init(c))
  {
    var s := seq(c.n, i => i);
    assert forall i :: 0 <= i < |s| ==> s[i] == i;
    forall i: nat
      ensures multiset(s)[i] == if i < c.n then 1 else 0
    {
      CountUpTo(c.n, i);
    }
    assert forall i: nat :: Copies(Init(c), i) == multiset(s)[i];
  }

  lemma CountUpTo(n: nat, i: nat)
    ensures multiset(seq(n, x => x))[i] == if i < n then 1 else 0
  {
    if n > 0 {
      CountUpTo(n - 1, i);
      assert seq(n, x => x) == seq(n - 1, x => x) + [n - 1];
    }
  }

  /** Putting a loose object on a list makes the partition whole again. */
  lemma PutBack(c: Config, p: Pool, q: Pool, i: nat)
    requires PartitionBut(c, p, {i}) && i < c.n
    requires |q.act| == |q.sock| == c.n && q.woken == p.woken
    requires || (q.free == [i] + p.free && q.active == p.active && q.pending == p.pending)
             || (q.free == p.free && q.active == [i] + p.active && q.pending == p.pending)
             || (q.free == p.free && q.active == p.active && q.pending == [i] + p.pending)
    ensures Partition(c, q)
  {
    forall x: nat
      ensures Copies(q, x) == if x < c.n then 1 else 0
    {
      assert Copies(p, x) == if x < c.n && x !in {i} then 1 else 0;
      assert Copies(q, x) == Copies(p, x) + if x == i then 1 else 0;
    }
  }

  lemma SettleBitmap(c: Config, p: Pool, i: nat)
    requires ConfigOk(c) && PartitionBut(c, p, {i}) && i < c.n
    requires Labels(c, p) && Bitmap(c, p)
    requires c.maxSockets <= p.act[i]
    requires !Busy(c, p.bits, p.act[i], p.sock[i])
    ensures Bitmap(c, Settle(c, p, i, p.act[i], p.sock[i]))
  {
    var q := Settle(c, p, i, p.act[i], p.sock[i]);
    PlacesDistinct(c, p, {i});
    assert i in q.active;
    forall b | b in q.bits
      ensures exists j: nat :: j < c.n && j in q.active && KeyOf(c, q, j) == b
    {
      if b in p.bits {
        var j: nat :| j < c.n && j in p.active && KeyOf(c, p, j) == b;
        assert j in q.active && KeyOf(c, q, j) == b;
      } else {
        assert KeyOf(c, q, i) == b;
      }
    }
    forall j: nat | j < c.n && j in q.active && j != i && KeyOf(c, q, j) == KeyOf(c, q, i)
      ensures KeyOf(c, q, i) == c.selectId
    {
      assert j in p.active;
      assert KeyOf(c, p, j) == KeyOf(c, q, j);
    }
  }

  lemma SettleInv(c: Config, p: Pool, i: nat)
    requires ConfigOk(c) && !p.locked && i < c.n
    requires PartitionBut(c, p, {i}) && Labels(c, p) && Bitmap(c, p)
    requires c.maxSockets <= p.act[i]
    ensures Inv(c, Settle(c, p, i, p.act[i], p.sock[i]))
  {
    var q := Settle(c, p, i, p.act[i], p.sock[i]);
    PutBack(c, p, q, i);
    assert Labels(c, q) by {
      assert forall j: nat :: Occupied(q, j) ==> Occupied(p, j) || j == i;
    }
    if Busy(c, p.bits, p.act[i], p.sock[i]) {
      SameBitmap(c, p, q);
    } else {
      SettleBitmap(c, p, i);
    }
  }

  /** The bitmap invariant only looks at the active objects and their keys. */
  lemma SameBitmap(c: Config, p: Pool, q: Pool)
    requires |p.act| == |p.sock| == |q.act| == |q.sock| == c.n
    requires Bitmap(c, p) && q.active == p.active && q.bits == p.bits
    requires forall j: nat :: j < c.n && j in p.active ==> KeyOf(c, q, j) == KeyOf(c, p, j)
    ensures Bitmap(c, q)
  {
    forall b | b in q.bits
      ensures exists j: nat :: j < c.n && j in q.active && KeyOf(c, q, j) == b
    {
      var j: nat :| j < c.n && j in p.active && KeyOf(c, p, j) == b;
      assert KeyOf(c, q, j) == b;
    }
  }

  lemma TakePartition(c: Config, p: Pool, action: nat, socket: nat)
    requires Partition(c, p) && p.free != [] && p.free[0] < c.n
    ensures PartitionBut(c, Take(c, p, action, socket), {p.free[0]})
  {
    var t := Take(c, p, action, socket);
    var i := p.free[0];
    PlacesDistinct(c, p, {});
    forall x: nat
      ensures Copies(t, x) == if x < c.n && x !in {i} then 1 else 0
    {
      assert p.free == [i] + t.free;
      assert Copies(p, x) == Copies(t, x) + if x == i then 1 else 0;
    }
  }

  lemma TakeFacts(c: Config, p: Pool, action: nat, socket: nat)
    requires ConfigOk(c) && Inv(c, p) && p.free != [] && p.free[0] < c.n
    requires socket <= c.maxSockets <= action
    ensures var t := Take(c, p, action, socket); var i := p.free[0];
      && PartitionBut(c, t, {i}) && Labels(c, t) && Bitmap(c, t)
      && t.act[i] == action && t.sock[i] == socket
  {
    var t := Take(c, p, action, socket);
    var i := p.free[0];
    PlacesDistinct(c, p, {});
    TakePartition(c, p, action, socket);
    assert i in p.free;
    SameBitmap(c, p, t);
    PlacesDistinct(c, t, {i});
    assert forall j: nat :: j in t.free ==> j in p.free && j != i;
  }

  /** The spawn context may not wait: it puts the object it took straight back. */
  lemma GiveBackInv(c: Config, t: Pool, i: nat)
    requires ConfigOk(c) && !t.locked && i < c.n
    requires PartitionBut(c, t, {i}) && Labels(c, t) && Bitmap(c, t)
    ensures Inv(c, t.(free := [i] + t.free, act := t.act[i := 0], sock := t.sock[i := c.maxSockets]))
  {
    var q := t.(free := [i] + t.free, act := t.act[i := 0], sock := t.sock[i := c.maxSockets]);
    PutBack(c, t, q, i);
    PlacesDistinct(c, t, {i});
    assert i !in t.active;
    SameBitmap(c, t, q);
    assert forall j: nat :: Occupied(q, j) ==> Occupied(t, j) && j != i;
  }

  lemma AllocInv(c: Config, p: Pool, action: nat, socket: nat, spawn: bool)
    requires ConfigOk(c) && Inv(c, p) && socket <= c.maxSockets <= action
    requires p.free != [] ==> p.free[0] < c.n
    ensures Inv(c, DoAlloc(c, p, action, socket, spawn))
  {
    hide Inv, PartitionBut, Labels, Bitmap, Settle;
    if p.free != [] {
      assert |p.act| == |p.sock| == c.n && !p.locked by {
        PoolShape(c, p);
      }
      var t := Take(c, p, action, socket);
      TakeFacts(c, p, action, socket);
      if Busy(c, p.bits, action, socket) && spawn {
        GiveBackInv(c, t, p.free[0]);
      } else {
        SettleInv(c, t, p.free[0]);
      }
    }
  }

  lemma PoolShape(c: Config, p: Pool)
    requires Inv(c, p)
    ensures |p.act| == |p.sock| == c.n && !p.locked
  {
  }

  lemma InHandPartition(c: Config, p: Pool, i: nat)
    requires Partition(c, p) && i in p.woken
    ensures PartitionBut(c, p.(woken := p.woken - {i}), {i})
  {
    var q := p.(woken := p.woken - {i});
    forall x: nat
      ensures Copies(q, x) == if x < c.n && x !in {i} then 1 else 0
    {
      assert Copies(p, x) == Copies(q, x) + if x == i then 1 else 0;
    }
  }

  lemma ResumeInv(c: Config, p: Pool, i: nat)
    requires ConfigOk(c) && Inv(c, p) && i in p.woken && i < c.n
    ensures Inv(c, DoResume(c, p, i))
  {
    var q := p.(woken := p.woken - {i});
    InHandPartition(c, p, i);
    assert forall j: nat :: Occupied(q, j) ==> Occupied(p, j);
    SameBitmap(c, p, q);
    assert Occupied(p, i);
    SettleInv(c, q, i);
  }

  lemma WakePartition(c: Config, p: Pool, i: nat)
    requires Partition(c, p) && i < c.n && InRange(p, p.pending)
    ensures Partition(c, Wake(c, p, i))
    ensures forall x: nat :: Occupied(Wake(c, p, i), x) ==> Occupied(p, x)
  {
    var w := Wake(c, p, i);
    var k := FirstMatch(c, p, p.pending, i);
    if k < |p.pending| {
      WithoutMultiset(p.pending, k);
      PlacesDistinct(c, p, {});
      assert p.pending[k] in p.pending;
      forall x: nat
        ensures Copies(w, x) == if x < c.n then 1 else 0
      {
        assert Copies(w, x) == Copies(p, x);
      }
    }
  }

  lemma WakeInv(c: Config, p: Pool, i: nat)
    requires Inv(c, p) && i < c.n && InRange(p, p.pending)
    ensures Inv(c, Wake(c, p, i))
  {
    WakePartition(c, p, i);
    SameBitmap(c, p, Wake(c, p, i));
  }

  /** An active object always finds its own bit on (or is a select), so the two early
      returns of the release, which keep the protection lock, are never taken. */
  lemma ActiveHasBit(c: Config, p: Pool, i: nat)
    requires ConfigOk(c) && Inv(c, p) && i in p.active && i < c.n
    ensures !BitMissing(c, p, i)
  {
    assert Occupied(p, i);
    if KeyOf(c, p, i) == c.selectId {
      assert p.sock[i] >= c.maxSockets;
    }
  }

  lemma {:induction false} MinusFacts(l: seq<nat>, x: nat)
    requires NoDup(l) && x in l
    ensures forall y: nat :: y in Minus(l, x) <==> y in l && y != x
    ensures multiset(l) == multiset(Minus(l, x)) + multiset{x}
  {
    var k := IndexOf(l, x);
    WithoutMultiset(l, k);
    forall y: nat | y in l && y != x
      ensures y in Minus(l, x)
    {
      assert multiset(l)[y] == multiset(Minus(l, x))[y];
    }
  }

  lemma ReleaseBitmap(c: Config, w: Pool, q: Pool, i: nat)
    requires |q.act| == |q.sock| == c.n && i < c.n
    requires Partition(c, w) && Bitmap(c, w) && i in w.active
    requires q.active == Minus(w.active, i) && q.bits == w.bits - {KeyOf(c, w, i)}
    requires q.act == w.act[i := 0] && q.sock == w.sock[i := c.maxSockets]
    ensures Bitmap(c, q)
  {
    PlacesDistinct(c, w, {});
    MinusFacts(w.active, i);
    forall b | b in q.bits
      ensures exists j: nat :: j < c.n && j in q.active && KeyOf(c, q, j) == b
    {
      var j: nat :| j < c.n && j in w.active && KeyOf(c, w, j) == b;
      assert j in q.active && KeyOf(c, q, j) == b;
    }
    assert forall j: nat :: j < c.n && j in q.active ==> KeyOf(c, q, j) == KeyOf(c, w, j);
  }

  lemma ReleasePartition(c: Config, p: Pool, i: nat)
    requires Partition(c, p) && i in p.active && i < c.n && InRange(p, p.pending)
    ensures Partition(c, DoRelease(c, p, i))
  {
    var w := Wake(c, p, i);
    var q := DoRelease(c, p, i);
    WakePartition(c, p, i);
    if BitMissing(c, p, i) {
      assert forall x: nat :: Copies(q, x) == Copies(w, x);
    } else {
      PlacesDistinct(c, w, {});
      MinusFacts(w.active, i);
      forall x: nat
        ensures Copies(q, x) == if x < c.n then 1 else 0
      {
        assert Copies(q, x) == Copies(w, x);
      }
    }
  }

  lemma ReleaseInv(c: Config, p: Pool, i: nat)
    requires ConfigOk(c) && Inv(c, p) && i in p.active && i < c.n && InRange(p, p.pending)
    ensures Inv(c, DoRelease(c, p, i))
  {
    hide Bitmap, FirstMatch;
    var w := Wake(c, p, i);
    var q := DoRelease(c, p, i);
    WakeInv(c, p, i);
    ActiveHasBit(c, p, i);
    ReleasePartition(c, p, i);
    PlacesDistinct(c, w, {});
    MinusFacts(w.active, i);
    ReleaseBitmap(c, w, q, i);
    assert forall x: nat :: Occupied(q, x) ==> Occupied(w, x) && x != i;
  }

  lemma ApplyInv(c: Config, p: Pool, op: Op)
    requires ConfigOk(c) && Inv(c, p) && Enabled(c, p, op)
    requires forall i: nat :: i in p.free || Occupied(p, i) ==> i < c.n
    ensures Inv(c, Apply(c, p, op))
  {
    match op
    case Alloc(action, socket, spawn) =>
      assert p.free != [] ==> p.free[0] in p.free;
      AllocInv(c, p, action, socket, spawn);
    case Resume(i) =>
      assert Occupied(p, i);
      ResumeInv(c, p, i);
    case Release(i) =>
      assert forall m :: 0 <= m < |p.pending| ==> Occupied(p, p.pending[m]);
      assert Occupied(p, i);
      ReleaseInv(c, p, i);
  }

  // ------------------------------------------------------------------ runs

  /** `ps` is the sequence of states of a run of `ops` from the initial pool. */
  ghost predicate IsRun(c: Config, ops: seq<Op>, ps: seq<Pool>) {
    && |ps| == |ops| + 1
    && ps[0] == Init(c)
    && forall k :: 0 <= k < |ops| ==> Moves(c, ps[k], ops[k], ps[k + 1])
  }

  ghost predicate Moves(c: Config, p: Pool, op: Op, q: Pool) {
    && |p.act| == |p.sock| == c.n
    && (forall i: nat :: i in p.free || Occupied(p, i) ==> i < c.n)
    && Enabled(c, p, op)
    && q == Apply(c, p, op)
  }

  /** An operation that its caller may do is always possible: runs never get stuck for
      another reason than having nothing to do. */
  lemma EnabledMoves(c: Config, p: Pool, op: Op) returns (q: Pool)
    requires Inv(c, p) && Enabled(c, p, op)
    ensures Moves(c, p, op, q)
  {
    PlacesBound(c, p);
    q := Apply(c, p, op);
  }

  lemma {:induction false} RunInv(c: Config, ops: seq<Op>, ps: seq<Pool>, k: nat)
    requires ConfigOk(c) && IsRun(c, ops, ps) && k < |ps|
    ensures Inv(c, ps[k])
  {
    if k == 0 {
      InitInv(c);
    } else {
      RunInv(c, ops, ps, k - 1);
      assert Moves(c, ps[k - 1], ops[k - 1], ps[k]);
      ApplyInv(c, ps[k - 1], ops[k - 1]);
    }
  }

  /** Mutual exclusion over every run: a bit other than the select bit is on exactly when
      one active object holds that key, and then only one; a select bit that is on has an
      active select; the protection lock is never left held. */
  lemma MutualExclusion(c: Config, ops: seq<Op>, ps: seq<Pool>, k: nat, b: nat)
    requires ConfigOk(c) && IsRun(c, ops, ps) && k < |ps|
    ensures Partition(c, ps[k]) && !ps[k].locked
    ensures b != c.selectId ==>
      (b in ps[k].bits <==> exists i: nat :: i < c.n && i in ps[k].active && KeyOf(c, ps[k], i) == b)
    ensures b != c.selectId ==>
      forall i: nat, j: nat ::
        i < c.n && j < c.n && i in ps[k].active && j in ps[k].active && KeyOf(c, ps[k], i) == b && KeyOf(c, ps[k], j) == b
        ==> i == j
    ensures c.selectId in ps[k].bits ==>
      exists i: nat :: i < c.n && i in ps[k].active && KeyOf(c, ps[k], i) == c.selectId
  {
    RunInv(c, ops, ps, k);
  }
}
