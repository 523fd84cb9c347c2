/**
 Does a waiter of the action pool always get woken? Waiters block on a bitmap key but are
 woken by ActionID, so the answer depends on how callers pair the two.
 */
module PoolWake {
  import opened PoolSpec

  /** A waiter is served when its key is still on (its holder will release it) or another
      waiter for the same key is already awake. */
  ghost predicate Served(c: Config, p: Pool, j: nat)
    requires |p.act| == |p.sock| == c.n && j < c.n
  {
    || KeyOf(c, p, j) in p.bits
    || exists w: nat :: w < c.n && w in p.woken && KeyOf(c, p, w) == KeyOf(c, p, j)
  }

  ghost predicate NoLostWaiter(c: Config, p: Pool)
    requires |p.act| == |p.sock| == c.n
  {
    forall j: nat :: j < c.n && j in p.pending ==> Served(c, p, j)
  }

  /** `home` names the one action each socket is used with; an action that is some socket's
      home is never requested without a socket. */
  predicate Obeys(c: Config, home: map<nat, nat>, action: nat, socket: nat) {
    if socket < c.maxSockets then socket in home && home[socket] == action
    else action !in home.Values
  }

  ghost predicate Disciplined(c: Config, home: map<nat, nat>, p: Pool)
    requires |p.act| == |p.sock| == c.n
  {
    forall j: nat :: j < c.n && Occupied(p, j) ==> Obeys(c, home, p.act[j], p.sock[j])
  }

  predicate OpObeys(c: Config, home: map<nat, nat>, op: Op) {
    match op
    case Alloc(action, socket, _) => Obeys(c, home, action, socket)
    case _ => true
  }

  /** Under the discipline, matching by ActionID is the same as waiting on the same key. */
  lemma MatchIsSameKey(c: Config, home: map<nat, nat>, p: Pool, j: nat, i: nat)
    requires |p.act| == |p.sock| == c.n && i < c.n && j < c.n
    requires Obeys(c, home, p.act[i], p.sock[i]) && Obeys(c, home, p.act[j], p.sock[j])
    requires p.sock[i] <= c.maxSockets <= p.act[i] && p.sock[j] <= c.maxSockets <= p.act[j]
    ensures Match(c, p, j, i) <==> KeyOf(c, p, j) == KeyOf(c, p, i)
  {
    if p.sock[i] < c.maxSockets {
      assert home[p.sock[i]] in home.Values;
    }
    if p.sock[j] < c.maxSockets {
      assert home[p.sock[j]] in home.Values;
    }
  }

  lemma SettleServes(c: Config, p: Pool, i: nat)
    requires ConfigOk(c) && i < c.n && PartitionBut(c, p, {i}) && Labels(c, p)
    requires c.maxSockets <= p.act[i]
    requires forall j: nat :: j < c.n && j in p.pending ==>
      Served(c, p, j) || KeyOf(c, p, j) == KeyOf(c, p, i)
    ensures NoLostWaiter(c, Settle(c, p, i, p.act[i], p.sock[i]))
  {
    var q := Settle(c, p, i, p.act[i], p.sock[i]);
    PlacesDistinct(c, p, {i});
    assert KeyOf(c, p, i) in q.bits;
    forall j: nat | j < c.n && j in q.pending
      ensures Served(c, q, j)
    {
      if j != i && KeyOf(c, p, j) !in q.bits {
        var w: nat :| w < c.n && w in p.woken && KeyOf(c, p, w) == KeyOf(c, p, j);
        assert KeyOf(c, q, w) == KeyOf(c, q, j);
      }
    }
  }

  lemma AllocServes(c: Config, p: Pool, action: nat, socket: nat, spawn: bool)
    requires ConfigOk(c) && Inv(c, p) && socket <= c.maxSockets <= action
    requires p.free != [] ==> p.free[0] < c.n
    requires NoLostWaiter(c, p)
    ensures |DoAlloc(c, p, action, socket, spawn).act| == |DoAlloc(c, p, action, socket, spawn).sock| == c.n
    ensures NoLostWaiter(c, DoAlloc(c, p, action, socket, spawn))
  {
    if p.free != [] {
      var i := p.free[0];
      var t := Take(c, p, action, socket);
      TakeFacts(c, p, action, socket);
      PlacesDistinct(c, t, {i});
      assert i !in t.pending && i !in t.woken;
      forall j: nat | j < c.n && j in t.pending
        ensures Served(c, t, j)
      {
        assert Served(c, p, j);
        if KeyOf(c, p, j) !in p.bits {
          var w: nat :| w < c.n && w in p.woken && KeyOf(c, p, w) == KeyOf(c, p, j);
          assert KeyOf(c, t, w) == KeyOf(c, t, j);
        }
      }
      if Busy(c, p.bits, action, socket) && spawn {
        var q := DoAlloc(c, p, action, socket, spawn);
        forall j: nat | j < c.n && j in q.pending
          ensures Served(c, q, j)
        {
          assert Served(c, t, j);
          if KeyOf(c, t, j) !in t.bits {
            var w: nat :| w < c.n && w in t.woken && KeyOf(c, t, w) == KeyOf(c, t, j);
            assert KeyOf(c, q, w) == KeyOf(c, q, j);
          }
        }
      } else {
        SettleServes(c, t, i);
      }
    }
  }

  lemma ResumeServes(c: Config, p: Pool, i: nat)
    requires ConfigOk(c) && Inv(c, p) && i in p.woken && i < c.n && NoLostWaiter(c, p)
    ensures NoLostWaiter(c, DoResume(c, p, i))
  {
    var q := p.(woken := p.woken - {i});
    InHandPartition(c, p, i);
    assert Occupied(p, i);
    assert Labels(c, q) by {
      assert forall j: nat :: Occupied(q, j) ==> Occupied(p, j);
    }
    forall j: nat | j < c.n && j in q.pending
      ensures Served(c, q, j) || KeyOf(c, q, j) == KeyOf(c, q, i)
    {
      assert Served(c, p, j);
      if KeyOf(c, p, j) !in p.bits {
        var w: nat :| w < c.n && w in p.woken && KeyOf(c, p, w) == KeyOf(c, p, j);
        if w != i {
          assert w in q.woken && KeyOf(c, q, w) == KeyOf(c, q, j);
        }
      }
    }
    SettleServes(c, q, i);
  }

  /** What decides whether a release strands someone, read before the release: nobody but
      the waiter it picks wants the key, or the one it picks wants it, or one is awake. */
  ghost predicate ReleaseCovers(c: Config, p: Pool, i: nat)
    requires |p.act| == |p.sock| == c.n && i < c.n && InRange(p, p.pending)
  {
    var k := FirstMatch(c, p, p.pending, i);
    || (forall m :: 0 <= m < |p.pending| && m != k ==> KeyOf(c, p, p.pending[m]) != KeyOf(c, p, i))
    || (k < |p.pending| && KeyOf(c, p, p.pending[k]) == KeyOf(c, p, i))
    || (exists w: nat :: w < c.n && w in p.woken && KeyOf(c, p, w) == KeyOf(c, p, i))
  }

  lemma WithoutMembers(l: seq<nat>, k: nat)
    requires NoDup(l) && k < |l|
    ensures forall m :: 0 <= m < |l| && m != k ==> l[m] in Without(l, k)
    ensures forall x: nat :: x in Without(l, k) ==> exists m :: 0 <= m < |l| && m != k && l[m] == x
  {
    forall m | 0 <= m < |l| && m != k
      ensures l[m] in Without(l, k)
    {
      if m < k {
        assert Without(l, k)[m] == l[m];
      } else {
        assert Without(l, k)[m - 1] == l[m];
      }
    }
    forall x: nat | x in Without(l, k)
      ensures exists m :: 0 <= m < |l| && m != k && l[m] == x
    {
      var t :| 0 <= t < |Without(l, k)| && Without(l, k)[t] == x;
      assert l[if t < k then t else t + 1] == x;
    }
  }

  /** Keys of the waiters are untouched by a release, which only relabels `i` itself. */
  lemma ReleaseKeys(c: Config, p: Pool, i: nat)
    requires ConfigOk(c) && Inv(c, p) && i in p.active && i < c.n && InRange(p, p.pending)
    ensures var q := DoRelease(c, p, i); var k := FirstMatch(c, p, p.pending, i);
      && |q.act| == |q.sock| == c.n
      && q.bits == p.bits - {KeyOf(c, p, i)}
      && q.pending == (if k < |p.pending| then Without(p.pending, k) else p.pending)
      && q.woken == (if k < |p.pending| then p.woken + {p.pending[k]} else p.woken)
      && forall j: nat :: j < c.n && (j in p.pending || j in p.woken) ==> KeyOf(c, q, j) == KeyOf(c, p, j)
  {
    ActiveHasBit(c, p, i);
    PlacesDistinct(c, p, {});
  }

  lemma {:induction false} ReleaseServesIf(c: Config, p: Pool, i: nat)
    requires ConfigOk(c) && Inv(c, p) && i in p.active && i < c.n && InRange(p, p.pending)
    requires NoLostWaiter(c, p) && ReleaseCovers(c, p, i)
    ensures |DoRelease(c, p, i).act| == |DoRelease(c, p, i).sock| == c.n
    ensures NoLostWaiter(c, DoRelease(c, p, i))
  {
    var q := DoRelease(c, p, i);
    ReleaseKeys(c, p, i);
    forall j: nat | j < c.n && j in q.pending
      ensures Served(c, q, j)
    {
      StillServed(c, p, i, j);
    }
  }

  lemma StillServed(c: Config, p: Pool, i: nat, j: nat)
    requires ConfigOk(c) && Inv(c, p) && i in p.active && i < c.n && InRange(p, p.pending)
    requires NoLostWaiter(c, p) && ReleaseCovers(c, p, i)
    requires |DoRelease(c, p, i).act| == |DoRelease(c, p, i).sock| == c.n
    requires j < c.n && j in DoRelease(c, p, i).pending
    ensures Served(c, DoRelease(c, p, i), j)
  {
    var q := DoRelease(c, p, i);
    var k := FirstMatch(c, p, p.pending, i);
    ReleaseKeys(c, p, i);
    var m :| 0 <= m < |p.pending| && m != k && p.pending[m] == j by {
      if k < |p.pending| {
        assert NoDup(p.pending) by {
          PlacesDistinct(c, p, {});
        }
        WithoutMembers(p.pending, k);
      }
    }
    assert j in p.pending && Served(c, p, j) && KeyOf(c, q, j) == KeyOf(c, p, j);
    if KeyOf(c, p, j) !in q.bits {
      if w: nat :| w < c.n && w in p.woken && KeyOf(c, p, w) == KeyOf(c, p, j) {
        assert w in q.woken && KeyOf(c, q, w) == KeyOf(c, q, j);
      } else {
        assert KeyOf(c, p, j) == KeyOf(c, p, i);
        var x := p.pending[k];
        assert x in p.pending && x in q.woken && KeyOf(c, q, x) == KeyOf(c, q, j);
      }
    }
  }

  lemma {:induction false} ReleaseServesOnlyIf(c: Config, p: Pool, i: nat)
    requires ConfigOk(c) && Inv(c, p) && i in p.active && i < c.n && InRange(p, p.pending)
    requires !ReleaseCovers(c, p, i)
    ensures |DoRelease(c, p, i).act| == |DoRelease(c, p, i).sock| == c.n
    ensures !NoLostWaiter(c, DoRelease(c, p, i))
  {
    hide Bitmap, FirstMatch;
    var q := DoRelease(c, p, i);
    var k := FirstMatch(c, p, p.pending, i);
    ReleaseKeys(c, p, i);
    var m :| 0 <= m < |p.pending| && m != k && KeyOf(c, p, p.pending[m]) == KeyOf(c, p, i);
    var j := p.pending[m];
    if k < |p.pending| {
      assert NoDup(p.pending) by {
        PlacesDistinct(c, p, {});
      }
      WithoutMembers(p.pending, k);
    }
    assert j in p.pending && j in q.pending;
    assert !Served(c, q, j);
  }

  /** The exact condition under which a release leaves no waiter stranded. */
  lemma ReleaseStrandsIff(c: Config, p: Pool, i: nat)
    requires ConfigOk(c) && Inv(c, p) && i in p.active && i < c.n && InRange(p, p.pending)
    requires NoLostWaiter(c, p)
    ensures |DoRelease(c, p, i).act| == |DoRelease(c, p, i).sock| == c.n
    ensures NoLostWaiter(c, DoRelease(c, p, i)) <==> ReleaseCovers(c, p, i)
  {
    if ReleaseCovers(c, p, i) {
      ReleaseServesIf(c, p, i);
    } else {
      ReleaseServesOnlyIf(c, p, i);
    }
  }

  lemma DisciplineCovers(c: Config, home: map<nat, nat>, p: Pool, i: nat)
    requires ConfigOk(c) && Inv(c, p) && Disciplined(c, home, p)
    requires i in p.active && i < c.n && InRange(p, p.pending)
    ensures ReleaseCovers(c, p, i)
  {
    var k := FirstMatch(c, p, p.pending, i);
    assert Occupied(p, i);
    forall m | 0 <= m < |p.pending|
      ensures Match(c, p, p.pending[m], i) <==> KeyOf(c, p, p.pending[m]) == KeyOf(c, p, i)
    {
      assert p.pending[m] in p.pending && Occupied(p, p.pending[m]);
      MatchIsSameKey(c, home, p, p.pending[m], i);
    }
  }

  lemma ApplyDisciplined(c: Config, home: map<nat, nat>, p: Pool, op: Op)
    requires ConfigOk(c) && Inv(c, p) && Enabled(c, p, op)
    requires forall i: nat :: i in p.free || Occupied(p, i) ==> i < c.n
    requires Disciplined(c, home, p) && OpObeys(c, home, op)
    ensures |Apply(c, p, op).act| == |Apply(c, p, op).sock| == c.n
    ensures Disciplined(c, home, Apply(c, p, op))
  {
    match op {
      case Alloc(action, socket, spawn) =>
        if p.free != [] {
          assert p.free[0] in p.free;
          AllocDisciplined(c, home, p, action, socket, spawn);
        }
      case Resume(i) =>
        assert forall j: nat :: Occupied(Apply(c, p, op), j) ==> Occupied(p, j);
      case Release(i) =>
        assert Occupied(p, i);
        assert forall m :: 0 <= m < |p.pending| ==> Occupied(p, p.pending[m]);
        ReleaseDisciplined(c, home, p, i);
    }
  }

  lemma AllocDisciplined(c: Config, home: map<nat, nat>, p: Pool, action: nat, socket: nat, spawn: bool)
    requires ConfigOk(c) && Inv(c, p) && p.free != [] && p.free[0] < c.n
    requires Disciplined(c, home, p) && Obeys(c, home, action, socket) && socket <= c.maxSockets
    ensures |DoAlloc(c, p, action, socket, spawn).act| == |DoAlloc(c, p, action, socket, spawn).sock| == c.n
    ensures Disciplined(c, home, DoAlloc(c, p, action, socket, spawn))
  {
    var q := DoAlloc(c, p, action, socket, spawn);
    var i := p.free[0];
    assert i in p.free && !Occupied(p, i) by {
      PlacesDistinct(c, p, {});
    }
    forall j: nat | j < c.n && Occupied(q, j)
      ensures Obeys(c, home, q.act[j], q.sock[j])
    {
      if j != i {
        assert Occupied(p, j);
      }
    }
  }

  lemma ReleaseDisciplined(c: Config, home: map<nat, nat>, p: Pool, i: nat)
    requires ConfigOk(c) && Inv(c, p) && i in p.active && i < c.n && InRange(p, p.pending)
    requires Disciplined(c, home, p)
    ensures |DoRelease(c, p, i).act| == |DoRelease(c, p, i).sock| == c.n
    ensures Disciplined(c, home, DoRelease(c, p, i))
  {
    var w := Wake(c, p, i);
    var q := DoRelease(c, p, i);
    ActiveHasBit(c, p, i);
    WakePartition(c, p, i);
    forall j: nat | j < c.n && Occupied(q, j)
      ensures Obeys(c, home, q.act[j], q.sock[j])
    {
      assert j != i && Occupied(w, j) by {
        PlacesDistinct(c, w, {});
        MinusFacts(w.active, i);
      }
      assert Occupied(p, j);
    }
  }

  ghost predicate RunObeys(c: Config, home: map<nat, nat>, ops: seq<Op>) {
    forall k :: 0 <= k < |ops| ==> OpObeys(c, home, ops[k])
  }

  /** No lost wake-up, in every run whose callers keep the pairing discipline, whatever
      threads barge in between a wake-up and the woken thread's return to the lock. */
  lemma {:induction false} NoLostWakeUp(c: Config, home: map<nat, nat>, ops: seq<Op>, ps: seq<Pool>, k: nat)
    requires ConfigOk(c) && IsRun(c, ops, ps) && k < |ps| && RunObeys(c, home, ops)
    ensures |ps[k].act| == |ps[k].sock| == c.n
    ensures Disciplined(c, home, ps[k])
    ensures NoLostWaiter(c, ps[k])
  {
    if k > 0 {
      var p, op, q := ps[k - 1], ops[k - 1], ps[k];
      NoLostWakeUp(c, home, ops, ps, k - 1);
      RunInv(c, ops, ps, k - 1);
      assert Moves(c, p, op, q);
      ApplyDisciplined(c, home, p, op);
      match op {
        case Alloc(action, socket, spawn) =>
          assert p.free != [] ==> p.free[0] in p.free;
          AllocServes(c, p, action, socket, spawn);
        case Resume(i) =>
          assert Occupied(p, i);
          ResumeServes(c, p, i);
        case Release(i) =>
          assert Occupied(p, i);
          assert forall m :: 0 <= m < |p.pending| ==> Occupied(p, p.pending[m]);
          DisciplineCovers(c, home, p, i);
          ReleaseServesIf(c, p, i);
      }
    }
  }

  lemma StrandTaken(c: Config, a: nat)
    requires ConfigOk(c) && c.n >= 2 && 1 <= c.maxSockets <= a
    ensures Moves(c, Init(c), Alloc(a, 0, false), DoAlloc(c, Init(c), a, 0, false))
    ensures var p := DoAlloc(c, Init(c), a, 0, false);
      && Inv(c, p) && p.free != [] && p.free[0] == 1 && p.active == [0] && p.pending == [] && p.woken == {}
      && p.bits == {0} && p.act[0] == a && p.sock[0] == 0
  {
    InitInv(c);
    PlacesBound(c, Init(c));
    assert Init(c).free[0] == 0 && Init(c).free[1] == 1;
    ApplyInv(c, Init(c), Alloc(a, 0, false));
  }

  lemma StrandPended(c: Config, p: Pool, b: nat)
    requires ConfigOk(c) && Inv(c, p) && c.n >= 2 && 1 <= c.maxSockets <= b
    requires p.free != [] && p.free[0] == 1 && p.active == [0] && p.pending == [] && p.woken == {} && p.bits == {0}
    requires p.act[0] != b && p.sock[0] == 0
    ensures Moves(c, p, Alloc(b, 0, false), DoAlloc(c, p, b, 0, false))
    ensures var q := DoAlloc(c, p, b, 0, false);
      && Inv(c, q) && q.active == [0] && q.pending == [1] && q.woken == {} && q.bits == {0}
      && q.act[0] != q.act[1] && q.sock[0] == q.sock[1] == 0
  {
    PlacesBound(c, p);
    assert 1 in p.free && 0 in p.active;
    assert Occupied(p, 0);
    ApplyInv(c, p, Alloc(b, 0, false));
  }

  lemma StrandReleased(c: Config, p: Pool)
    requires ConfigOk(c) && Inv(c, p) && 1 <= c.maxSockets && c.n >= 2
    requires p.active == [0] && p.pending == [1] && p.woken == {} && p.bits == {0}
    requires p.act[0] != p.act[1] && p.sock[0] == p.sock[1] == 0
    ensures Moves(c, p, Release(0), DoRelease(c, p, 0))
    ensures var q := DoRelease(c, p, 0);
      && |q.act| == |q.sock| == c.n
      && q.active == [] && q.pending == [1] && q.woken == {} && q.bits == {} && !NoLostWaiter(c, q)
  {
    PlacesBound(c, p);
    assert FirstMatch(c, p, p.pending, 0) == 1;
    ReleaseKeys(c, p, 0);
    assert IndexOf(p.active, 0) == 0;
    var q := DoRelease(c, p, 0);
    assert 1 in q.pending && !Served(c, q, 1);
  }

  /** Without the discipline a reachable run strands a waiter: two different actions on
      socket 0, and the release of the first leaves the second asleep with no bit on, no
      active object and nobody awake. */
  lemma MixedActionsStrand(c: Config, a: nat, b: nat) returns (ops: seq<Op>, ps: seq<Pool>)
    requires ConfigOk(c) && c.n >= 2 && c.maxSockets >= 1
    requires a >= c.maxSockets && b >= c.maxSockets && a != b
    ensures IsRun(c, ops, ps) && |ops| == 3
    ensures var p := ps[3]; p.pending == [1] && p.bits == {} && p.active == [] && p.woken == {}
    ensures |ps[3].act| == |ps[3].sock| == c.n && !NoLostWaiter(c, ps[3])
  {
    var p1 := DoAlloc(c, Init(c), a, 0, false);
    StrandTaken(c, a);
    var p2 := DoAlloc(c, p1, b, 0, false);
    StrandPended(c, p1, b);
    var p3 := DoRelease(c, p2, 0);
    StrandReleased(c, p2);
    ops := [Alloc(a, 0, false), Alloc(b, 0, false), Release(0)];
    ps := [Init(c), p1, p2, p3];
  }

  // ------------------------------------------------------------------ who is granted, who is woken

  /** Some active object holds the key the request is for. */
  ghost predicate Held(c: Config, p: Pool, action: nat, socket: nat)
    requires |p.act| == |p.sock| == c.n
  {
    exists i: nat :: i < c.n && i in p.active && KeyOf(c, p, i) == Key(c, action, socket)
  }

  /** A request that finds a free object becomes active if and only if nobody active holds
      its key, or it is a select without a socket; otherwise it waits, unless it comes from
      the spawn thread, which gets nothing and changes nothing. */
  lemma RequestGrantedIff(c: Config, p: Pool, action: nat, socket: nat, spawn: bool)
    requires ConfigOk(c) && Inv(c, p) && socket <= c.maxSockets <= action && p.free != [] && p.free[0] < c.n
    ensures var q, i := DoAlloc(c, p, action, socket, spawn), p.free[0];
      var granted := !Held(c, p, action, socket) || (socket == c.maxSockets && action == c.selectId);
      && q.active == (if granted then [i] + p.active else p.active)
      && q.pending == (if !granted && !spawn then [i] + p.pending else p.pending)
      && q.free == (if !granted && spawn then p.free else p.free[1..])
      && q.woken == p.woken
      && (granted || !spawn ==> |q.act| == |q.sock| == c.n && q.act[i] == action && q.sock[i] == socket)
  {
    BusyIsHeld(c, p, action, socket);
    assert p.free[0] in p.free;
    assert [p.free[0]] + p.free[1..] == p.free;
  }

  lemma BusyIsHeld(c: Config, p: Pool, action: nat, socket: nat)
    requires ConfigOk(c) && Inv(c, p) && socket <= c.maxSockets <= action
    ensures Busy(c, p.bits, action, socket) <==>
      Held(c, p, action, socket) && !(socket == c.maxSockets && action == c.selectId)
  {
    if Held(c, p, action, socket) {
      var i: nat :| i < c.n && i in p.active && KeyOf(c, p, i) == Key(c, action, socket);
      assert Occupied(p, i);
    }
  }

  /** The waiter `j` is one that a release of `i` may wake: the same action, and no socket or
      the same one. */
  predicate Wakes(c: Config, p: Pool, i: nat, j: nat)
    requires i < |p.act| == |p.sock| && j < |p.act|
  {
    p.act[j] == p.act[i] && (p.sock[j] == c.maxSockets || p.sock[j] == p.sock[i])
  }

  /** A release wakes exactly the first such waiter from the head of the pending list, that
      is the last to have come, if there is one, and moves no other. */
  lemma WokenIs(c: Config, p: Pool, i: nat, k: nat)
    requires ConfigOk(c) && Inv(c, p) && i in p.active && i < c.n && InRange(p, p.pending) && k <= |p.pending|
    requires forall m :: 0 <= m < k ==> !Wakes(c, p, i, p.pending[m])
    requires k < |p.pending| ==> Wakes(c, p, i, p.pending[k])
    ensures var q := DoRelease(c, p, i);
      if k == |p.pending| then q.pending == p.pending && q.woken == p.woken
      else q.pending == Without(p.pending, k) && q.woken == p.woken + {p.pending[k]}
  {
    forall m | 0 <= m < |p.pending|
      ensures p.sock[p.pending[m]] <= c.maxSockets
      ensures Match(c, p, p.pending[m], i) <==> Wakes(c, p, i, p.pending[m])
    {
      assert Occupied(p, p.pending[m]) && Occupied(p, i);
    }
    ReleaseKeys(c, p, i);
  }
}
