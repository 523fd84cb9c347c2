/**
 The action pool as driver.c keeps it: one array of objects whose free, active and pending
 lists are threaded through NextIndex, updated in place. Every method is one critical
 section of the protection lock and is proved to be the step of PoolSpec it stands for.
 */
module PoolHeap {
  import opened PoolSpec

  /** Element `k` of the list, or the end marker MAX_CONCURRENT_ACTIONS. */
  function At(l: seq<nat>, k: nat, n: nat): nat {
    if k < |l| then l[k] else n
  }

  /** Following `next` from `head` visits exactly `l` and then reaches the end marker. */
  ghost predicate Chain(next: seq<nat>, head: nat, l: seq<nat>) {
    && head == At(l, 0, |next|)
    && (forall k :: 0 <= k < |l| ==> l[k] < |next|)
    && (forall k {:trigger next[l[k]]} :: 0 <= k < |l| ==> next[l[k]] == At(l, k + 1, |next|))
  }

  lemma ChainFrame(next: seq<nat>, next': seq<nat>, head: nat, l: seq<nat>)
    requires Chain(next, head, l) && |next'| == |next|
    requires forall x: nat :: x in l && x < |next| ==> next'[x] == next[x]
    ensures Chain(next', head, l)
  {
    forall k | 0 <= k < |l|
      ensures next'[l[k]] == At(l, k + 1, |next'|)
    {
      assert l[k] in l;
    }
  }

  lemma ChainPush(next: seq<nat>, next': seq<nat>, head: nat, l: seq<nat>, x: nat)
    requires Chain(next, head, l) && |next'| == |next| && x < |next|
    requires x !in l && next' == next[x := head]
    ensures Chain(next', x, [x] + l)
  {
    ChainFrame(next, next', head, l);
    var m := [x] + l;
    forall k | 0 <= k < |m|
      ensures m[k] < |next'| && next'[m[k]] == At(m, k + 1, |next'|)
    {
      if k > 0 {
        assert m[k] == l[k - 1] && next'[l[k - 1]] == At(l, k, |next'|);
      }
    }
  }

  lemma ChainPop(next: seq<nat>, head: nat, l: seq<nat>)
    requires Chain(next, head, l) && l != []
    ensures Chain(next, next[head], l[1..])
  {
    assert next[l[0]] == At(l, 1, |next|);
    var t := l[1..];
    forall k | 0 <= k < |t|
      ensures t[k] < |next| && next[t[k]] == At(t, k + 1, |next|)
    {
      assert t[k] == l[k + 1] && next[l[k + 1]] == At(l, k + 2, |next|);
    }
  }

  lemma UnlinkAt(next: seq<nat>, next': seq<nat>, head: nat, l: seq<nat>, k: nat, t: nat)
    requires Chain(next, head, l) && NoDup(l) && 0 < k < |l| && t < |l| - 1
    requires next' == next[l[k - 1] := next[l[k]]]
    ensures Without(l, k)[t] < |next'|
    ensures next'[Without(l, k)[t]] == At(Without(l, k), t + 1, |next'|)
  {
    var m := Without(l, k);
    if t == k - 1 {
      assert next[l[k]] == At(l, k + 1, |next|);
    } else {
      var u := if t < k then t else t + 1;
      assert m[t] == l[u];
      assert l[u] != l[k - 1];
      assert next[l[u]] == At(l, u + 1, |next|);
    }
  }

  /** Unlinking element k > 0: its predecessor takes over its successor. */
  lemma ChainUnlink(next: seq<nat>, next': seq<nat>, head: nat, l: seq<nat>, k: nat)
    requires Chain(next, head, l) && NoDup(l) && 0 < k < |l|
    requires next' == next[l[k - 1] := next[l[k]]]
    ensures Chain(next', head, Without(l, k))
  {
    forall t | 0 <= t < |l| - 1
      ensures Without(l, k)[t] < |next'|
      ensures next'[Without(l, k)[t]] == At(Without(l, k), t + 1, |next'|)
    {
      UnlinkAt(next, next', head, l, k, t);
    }
  }

  ghost predicate Disjoint(l: seq<nat>, l': seq<nat>) {
    forall x: nat :: x in l ==> x !in l'
  }

  // ------------------------------------------------------------------ waiters still linked

  /** The links a waiter's turn touches, and the bitmap. */
  datatype Links = Links(next: seq<nat>, active: nat, pending: nat, bits: set<nat>)

  /** The links describe an active and a pending list without a common object. */
  ghost predicate Intact(L: Links) {
    exists la: seq<nat>, lp: seq<nat> :: Lists(L, la, lp)
  }

  ghost predicate Lists(L: Links, la: seq<nat>, lp: seq<nat>) {
    Chain(L.next, L.active, la) && Chain(L.next, L.pending, lp) && Disjoint(la, lp)
  }

  /** One turn of a waiter's loop: it goes to the head of the pending list if its key is on,
      and otherwise to the head of the active list. */
  function Turn(c: Config, L: Links, i: nat, action: nat, socket: nat): Links
    requires i < |L.next|
  {
    if Busy(c, L.bits, action, socket) then
      L.(next := L.next[i := L.pending], pending := i)
    else
      L.(next := L.next[i := L.active], active := i, bits := L.bits + {Key(c, action, socket)})
  }

  /** The turns of the waiters `ws`, one after the other. */
  function Turns(c: Config, L: Links, ws: seq<nat>, act: seq<nat>, sock: seq<nat>): (M: Links)
    requires |act| == |sock| == |L.next| && forall k :: 0 <= k < |ws| ==> ws[k] < |L.next|
    ensures |M.next| == |L.next|
  {
    if ws == [] then L
    else
      var m := |ws| - 1;
      Turn(c, Turns(c, L, ws[..m], act, sock), ws[m], act[ws[m]], sock[ws[m]])
  }

  /** A walk meets the same objects in the same order: there is at most one list. */
  lemma {:induction false} ChainUnique(next: seq<nat>, head: nat, l: seq<nat>, l': seq<nat>)
    requires Chain(next, head, l) && Chain(next, head, l')
    ensures l == l'
    decreases |l|
  {
    if l != [] && l' != [] {
      ChainPop(next, head, l);
      ChainPop(next, head, l');
      ChainUnique(next, next[head], l[1..], l'[1..]);
      assert l == [l[0]] + l[1..] && l' == [l'[0]] + l'[1..];
    }
  }

  /** An object is on a list once. */
  lemma {:induction false} ChainNoDup(next: seq<nat>, head: nat, l: seq<nat>)
    requires Chain(next, head, l)
    ensures NoDup(l)
  {
    forall i, j | 0 <= i < j < |l|
      ensures l[i] != l[j]
    {
      if l[i] == l[j] {
        ChainDrop(next, head, l, i);
        ChainDrop(next, head, l, j);
        ChainUnique(next, l[i], l[i..], l[j..]);
      }
    }
  }

  lemma ChainDrop(next: seq<nat>, head: nat, l: seq<nat>, k: nat)
    requires Chain(next, head, l) && k <= |l|
    ensures Chain(next, At(l, k, |next|), l[k..])
  {
    var t := l[k..];
    forall m | 0 <= m < |t|
      ensures t[m] < |next| && next[t[m]] == At(t, m + 1, |next|)
    {
      assert t[m] == l[k + m] && next[l[k + m]] == At(l, k + m + 1, |next|);
    }
  }

  /** A link changed at an object the list does not hold. */
  lemma ChainSame(next: seq<nat>, x: nat, y: nat, head: nat, l: seq<nat>)
    requires x < |next| && x !in l
    ensures Chain(next[x := y], head, l) <==> Chain(next, head, l)
  {
    if Chain(next, head, l) {
      ChainFrame(next, next[x := y], head, l);
    }
    if Chain(next[x := y], head, l) {
      assert next[x := y][x := next[x]] == next;
      ChainFrame(next[x := y], next, head, l);
    }
  }

  /** However the links were: an object linked to the head of a walk that meets it is on no
      list. */
  lemma NoListThroughLoop(next: seq<nat>, head: nat, x: nat, l: seq<nat>)
    requires x < |next| && Chain(next, x, l) && next[x] == head
    ensures Chain(next, head, l[1..]) && x !in l[1..] && l != []
  {
    ChainPop(next, x, l);
    ChainNoDup(next, x, l);
  }

  /** The links from `head` on are a list. */
  ghost predicate Walkable(next: seq<nat>, head: nat) {
    exists l: seq<nat> :: Chain(next, head, l)
  }

  /** Pushing a waiter onto a list it is still on leaves nothing that can be walked to an
      end, at whatever position it was. */
  lemma PushLinkedMakesCycle(next: seq<nat>, head: nat, l: seq<nat>, k: nat)
    requires Chain(next, head, l) && k < |l|
    ensures l[k] < |next| && !Walkable(next[l[k] := head], l[k])
  {
    var x := l[k];
    var next' := next[x := head];
    forall l': seq<nat>
      ensures !Chain(next', x, l')
    {
      if Chain(next', x, l') {
        NoListThroughLoop(next', head, x, l');
        ChainSame(next, x, head, head, l'[1..]);
        ChainUnique(next, head, l, l'[1..]);
      }
    }
  }

  /** The active list of `L` is `la`, and whatever the pending links lead to meets it. */
  ghost predicate Tangled(L: Links, la: seq<nat>) {
    && Chain(L.next, L.active, la)
    && forall lp: seq<nat> :: Chain(L.next, L.pending, lp) ==> !Disjoint(la, lp)
  }

  lemma TangledIsBroken(L: Links, la: seq<nat>)
    requires Tangled(L, la)
    ensures !Intact(L)
  {
    forall la': seq<nat>, lp: seq<nat>
      ensures !Lists(L, la', lp)
    {
      if Lists(L, la', lp) {
        ChainUnique(L.next, L.active, la, la');
      }
    }
  }

  /** The turn of a waiter that is still linked tangles the lists; and it leaves tangled
      ones tangled. */
  lemma TurnTangles(c: Config, L: Links, la: seq<nat>, lp: seq<nat>, i: nat, action: nat, socket: nat)
    requires Chain(L.next, L.active, la) && i < |L.next| && i !in la
    requires Tangled(L, la) || (Chain(L.next, L.pending, lp) && i in lp)
    ensures Tangled(Turn(c, L, i, action, socket), if Busy(c, L.bits, action, socket) then la else [i] + la)
  {
    var M := Turn(c, L, i, action, socket);
    if Busy(c, L.bits, action, socket) {
      ChainSame(L.next, i, L.pending, L.active, la);
      forall l: seq<nat> | Chain(M.next, M.pending, l)
        ensures !Disjoint(la, l)
      {
        NoListThroughLoop(M.next, L.pending, i, l);
        SameOrLinked(L, la, lp, i, L.pending, l[1..]);
        assert forall x: nat :: x in l[1..] ==> x in l;
      }
    } else {
      ChainPush(L.next, M.next, L.active, la, i);
      forall l: seq<nat> | Chain(M.next, M.pending, l)
        ensures !Disjoint([i] + la, l)
      {
        if i !in l {
          SameOrLinked(L, la, lp, i, L.active, l);
        }
        assert i in [i] + la && forall x: nat :: x in la ==> x in [i] + la;
      }
    }
  }

  /** A pending walk that does not meet the waiter was there before its turn. */
  lemma SameOrLinked(L: Links, la: seq<nat>, lp: seq<nat>, i: nat, y: nat, l: seq<nat>)
    requires i < |L.next| && i !in l && Chain(L.next[i := y], L.pending, l)
    requires Tangled(L, la) || (Chain(L.next, L.pending, lp) && i in lp)
    ensures !Disjoint(la, l)
  {
    ChainSame(L.next, i, y, L.pending, l);
    if Chain(L.next, L.pending, lp) && i in lp {
      ChainUnique(L.next, L.pending, lp, l);
    }
  }

  lemma {:induction false} TurnsTangle(c: Config, L: Links, la: seq<nat>, lp: seq<nat>, ws: seq<nat>,
                                       act: seq<nat>, sock: seq<nat>) returns (la': seq<nat>)
    requires Lists(L, la, lp) && NoDup(ws) && ws != [] && |act| == |sock| == |L.next|
    requires forall k :: 0 <= k < |ws| ==> ws[k] < |L.next| && ws[k] in lp
    ensures Tangled(Turns(c, L, ws, act, sock), la')
    ensures forall x: nat :: x in la' ==> x in la || x in ws
  {
    var m := |ws| - 1;
    var i := ws[m];
    var M := Turns(c, L, ws[..m], act, sock);
    la' := la;
    if m > 0 {
      la' := TurnsTangle(c, L, la, lp, ws[..m], act, sock);
    }
    assert i !in ws[..m];
    TurnTangles(c, M, la', lp, i, act[i], sock[i]);
    la' := if Busy(c, M.bits, act[i], sock[i]) then la' else [i] + la';
  }

  /** The lists survive the wake-ups of the broadcast, in whatever order the waiters take
      their turns, if and only if nobody was waiting. */
  lemma ListsSurviveIff(c: Config, L: Links, la: seq<nat>, lp: seq<nat>, ws: seq<nat>, act: seq<nat>, sock: seq<nat>)
    requires Lists(L, la, lp) && NoDup(ws) && |act| == |sock| == |L.next|
    requires forall k :: 0 <= k < |ws| ==> ws[k] < |L.next| && ws[k] in lp
    requires ws == [] <==> lp == []
    ensures Intact(Turns(c, L, ws, act, sock)) <==> lp == []
  {
    if lp == [] {
      assert Lists(L, la, lp);
    } else {
      var la' := TurnsTangle(c, L, la, lp, ws, act, sock);
      TangledIsBroken(Turns(c, L, ws, act, sock), la');
    }
  }

  class ActionPool {
    const c: Config
    var freeIdx: nat
    var activeIdx: nat
    var pendingIdx: nat
    const next: array<nat>
    const act: array<nat>
    const sock: array<nat>
    var bits: set<nat>
    var locked: bool

    // The sync objects: which hold a signal not yet taken, and every deletion so far.
    var signalled: set<nat>
    var deleted: multiset<nat>
    var numDeleted: nat

    // The pool this structure stands for.
    ghost var view: Pool

    ghost predicate Valid()
      reads this, next, act, sock
    {
      && next.Length == act.Length == sock.Length == c.n
      && next != act && next != sock && act != sock
      && act[..] == view.act && sock[..] == view.sock && bits == view.bits && locked == view.locked
      && Partition(c, view)
      && Chain(next[..], freeIdx, view.free)
      && Chain(next[..], activeIdx, view.active)
      && Chain(next[..], pendingIdx, view.pending)
    }

    constructor (c: Config)
      ensures this.c == c && Valid() && view == Init(c) && fresh(next) && fresh(act) && fresh(sock)
      ensures signalled == {} && deleted == multiset{} && numDeleted == 0
    {
      this.c := c;
      freeIdx, activeIdx, pendingIdx := 0, c.n, c.n;
      next := new nat[c.n];
      act := new nat[c.n];
      sock := new nat[c.n];
      signalled, deleted, numDeleted := {}, multiset{}, 0;
      bits, locked := {}, false;
      view := Init(c);
      new;
      var idx := 0;
      while idx < c.n
        invariant 0 <= idx <= c.n
        invariant forall k :: 0 <= k < idx ==> next[k] == k + 1 && act[k] == 0 && sock[k] == c.maxSockets
        modifies next, act, sock
      {
        next[idx] := idx + 1;
        act[idx] := 0;
        sock[idx] := c.maxSockets;
        idx := idx + 1;
      }
      assert act[..] == view.act && sock[..] == view.sock;
      assert Partition(c, view) by {
        InitInv(c);
      }
      assert forall k :: 0 <= k < c.n ==> view.free[k] == k;
    }

    /** _SlDrvRemoveFromList: the new value of the list's head index is returned. */
    method RemoveFromList(head: nat, item: nat, ghost l: seq<nat>) returns (head': nat)
      requires Chain(next[..], head, l) && NoDup(l) && item in l
      modifies next
      ensures Chain(next[..], head', Minus(l, item))
      ensures forall x: nat :: x < next.Length && x !in l ==> next[x] == old(next[x])
    {
      ghost var k := IndexOf(l, item);
      ghost var before := next[..];
      assert next[l[0]] == At(l, 1, next.Length);
      if next[head] == next.Length {
        head' := next.Length;
        assert Minus(l, item) == [];
      } else if head == item {
        ChainPop(next[..], head, l);
        assert Minus(l, item) == l[1..];
        head' := next[item];
      } else {
        head' := head;
        var idx := head;
        ghost var m := 0;
        while idx < next.Length
          invariant m < k && idx == l[m] && next[..] == before
          decreases k - m
        {
          assert next[l[m]] == At(l, m + 1, next.Length);
          if next[idx] == item {
            assert m + 1 == k;
            assert next[l[k]] == before[l[k]];
            next[idx] := next[item];
            assert next[..] == before[l[k - 1] := before[l[k]]];
            ChainUnlink(before, next[..], head, l, k);
            return;
          }
          idx := next[idx];
          m := m + 1;
        }
      }
    }

    /** `i` is linked nowhere: it was just taken from the free list, or is in hand. */
    ghost predicate Loose(i: nat)
      reads this, next, act, sock
    {
      && next.Length == act.Length == sock.Length == c.n && i < c.n
      && next != act && next != sock && act != sock
      && act[..] == view.act && sock[..] == view.sock && bits == view.bits && locked == view.locked
      && PartitionBut(c, view, {i})
      && Chain(next[..], freeIdx, view.free)
      && Chain(next[..], activeIdx, view.active)
      && Chain(next[..], pendingIdx, view.pending)
    }

    /** The links as they are, whether or not they are lists. */
    function RawLinks(): Links
      reads this, next
    {
      Links(next[..], activeIdx, pendingIdx, bits)
    }

    /** The tail of _SlDrvWaitForPoolObj: join the pending list or become active. */
    method Link(i: nat, action: nat, socket: nat) returns (waits: bool)
      requires i < next.Length
      modifies this`bits, this`activeIdx, this`pendingIdx, next
      ensures RawLinks() == Turn(c, old(RawLinks()), i, action, socket)
      ensures waits == Busy(c, old(bits), action, socket)
    {
      waits := (socket < c.maxSockets && socket in bits)
        || (action in bits && action != c.selectId && socket == c.maxSockets);
      if waits {
        next[i] := pendingIdx;
        pendingIdx := i;
      } else {
        if socket < c.maxSockets {
          bits := bits + {socket};
        } else {
          bits := bits + {action};
        }
        next[i] := activeIdx;
        activeIdx := i;
      }
    }

    /** ... for an object that is linked nowhere. */
    method Contend(i: nat, action: nat, socket: nat) returns (waits: bool)
      requires Loose(i) && locked
      modifies this`bits, this`locked, this`activeIdx, this`pendingIdx, this`view, next
      ensures Valid()
      ensures view == Settle(c, old(view), i, action, socket).(locked := false)
      ensures waits == Busy(c, old(bits), action, socket)
    {
      ghost var before, active, pending := next[..], activeIdx, pendingIdx;
      assert i !in view.free && i !in view.active && i !in view.pending by {
        PlacesDistinct(c, view, {i});
      }
      waits := Link(i, action, socket);
      if waits {
        ChainPush(before, next[..], pending, view.pending, i);
        ChainFrame(before, next[..], activeIdx, view.active);
      } else {
        ChainPush(before, next[..], active, view.active, i);
        ChainFrame(before, next[..], pendingIdx, view.pending);
      }
      ChainFrame(before, next[..], freeIdx, view.free);
      locked := false;
      view := Settle(c, view, i, action, socket).(locked := false);
      assert Partition(c, view) by {
        PutBack(c, old(view), view, i);
      }
    }

    /** Unlink the head of the free list and label it with the request. */
    method TakeFree(action: nat, socket: nat) returns (i: nat)
      requires Valid() && freeIdx < c.n && locked
      modifies this`freeIdx, this`view, act, sock
      ensures old(view.free) != [] && i == old(view.free)[0] && Loose(i)
      ensures view == Take(c, old(view), action, socket)
    {
      i := freeIdx;
      ChainPop(next[..], freeIdx, view.free);
      if c.n > next[i] {
        freeIdx := next[i];
      } else {
        freeIdx := c.n;
        assert next[view.free[0]] == At(view.free, 1, c.n);
      }
      act[i] := action;
      if socket < c.maxSockets {
        sock[i] := socket;
      }
      view := Take(c, view, action, socket);
      assert PartitionBut(c, view, {i}) by {
        TakePartition(c, old(view), action, socket);
      }
    }

    /** _SlDrvWaitForPoolObj up to the wait, or to success. The result is the end marker
        when the pool is empty or when the spawn thread would have to wait. */
    method Acquire(action: nat, socket: nat, fromSpawn: bool) returns (i: nat, waits: bool)
      requires Valid() && !locked
      modifies this`freeIdx, this`bits, this`locked, this`activeIdx, this`pendingIdx, this`view, next, act, sock
      ensures Valid()
      ensures old(view.free) != [] ==> old(view.free)[0] < c.n
      ensures view == DoAlloc(c, old(view), action, socket, fromSpawn)
      ensures i == c.n <==> old(view.free) == [] || (fromSpawn && Busy(c, old(bits), action, socket))
      ensures i != c.n ==> i == old(view.free)[0] && waits == Busy(c, old(bits), action, socket)
    {
      locked := true;
      view := view.(locked := true);
      assert Partition(c, view) by {
        assert forall x: nat :: Copies(view, x) == Copies(old(view), x);
      }
      if !(c.n > freeIdx) {
        locked := false;
        view := view.(locked := false);
        return c.n, false;
      }
      i := TakeFree(action, socket);
      if (socket < c.maxSockets && socket in bits) || (action in bits && action != c.selectId && socket == c.maxSockets) {
        if fromSpawn {
          GiveBack(i);
          return c.n, false;
        }
      }
      waits := Contend(i, action, socket);
    }

    /** The spawn thread cannot wait: the object goes back where it came from. */
    method GiveBack(i: nat)
      requires Loose(i) && locked && next[i] == freeIdx
      modifies this`freeIdx, this`locked, this`view, act, sock
      ensures Valid()
      ensures view == old(view).(free := [i] + old(view).free, act := old(view).act[i := 0],
                                 sock := old(view).sock[i := c.maxSockets], locked := false)
    {
      assert i !in view.free by {
        PlacesDistinct(c, view, {i});
      }
      act[i] := 0;
      sock[i] := c.maxSockets;
      ChainPush(next[..], next[..], freeIdx, view.free, i);
      freeIdx := i;
      locked := false;
      view := view.(free := [i] + view.free, act := view.act[i := 0], sock := view.sock[i := c.maxSockets],
                    locked := false);
      assert Partition(c, view) by {
        PutBack(c, old(view), view, i);
      }
    }

    /** The loop iteration of _SlDrvWaitForPoolObj that a woken waiter runs. */
    method Recontend(i: nat, action: nat, socket: nat) returns (waits: bool)
      requires Valid() && !locked && i in view.woken && i < c.n
      requires action == act[i] && socket == sock[i]
      modifies this`bits, this`locked, this`activeIdx, this`pendingIdx, this`view, next
      ensures Valid()
      ensures view == DoResume(c, old(view), i)
      ensures waits == Busy(c, old(bits), action, socket)
    {
      locked := true;
      view := view.(woken := view.woken - {i}, locked := true);
      assert PartitionBut(c, view, {i}) by {
        InHandPartition(c, old(view), i);
        assert forall x: nat :: Copies(view, x) == Copies(old(view).(woken := old(view).woken - {i}), x);
      }
      waits := Contend(i, action, socket);
    }

    /** The broadcast of _SlDrvHandleFatalError: every sync object is signalled. */
    method Broadcast()
      requires Valid()
      modifies this`signalled
      ensures Valid() && view == old(view)
      ensures forall x: nat :: x in signalled <==> x in old(signalled) || x < c.n
    {
      for i := 0 to c.n
        invariant forall x: nat :: x in signalled <==> x in old(signalled) || x < i
      {
        signalled := signalled + {i};
      }
    }

    /** The waiters it wakes take their turns in some order. They are still linked: the lists
        survive if and only if there are none. */
    method WakeUps(order: seq<nat>)
      requires Valid() && NoDup(order) && forall x: nat :: x in order <==> x in view.pending
      modifies this`bits, this`activeIdx, this`pendingIdx, this`signalled, next
      ensures Intact(RawLinks()) <==> view.pending == []
    {
      ghost var L := RawLinks();
      Waiters(order);
      for k := 0 to |order|
        invariant next.Length == act.Length == sock.Length && act[..] == view.act && sock[..] == view.sock
        invariant RawLinks() == Turns(c, L, order[..k], view.act, view.sock)
      {
        var i := order[k];
        signalled := signalled - {i};
        var waits := Link(i, act[i], sock[i]);
        assert order[..k + 1][..k] == order[..k];
      }
      assert order[..|order|] == order;
      ListsSurviveIff(c, L, view.active, view.pending, order, view.act, view.sock);
    }

    lemma Waiters(order: seq<nat>)
      requires Valid() && forall x: nat :: x in order <==> x in view.pending
      ensures |view.act| == |view.sock| == |RawLinks().next|
      ensures forall k :: 0 <= k < |order| ==> order[k] < next.Length && order[k] in view.pending
      ensures Lists(RawLinks(), view.active, view.pending)
      ensures order == [] <==> view.pending == []
    {
      PlacesDistinct(c, view, {});
      forall k | 0 <= k < |order|
        ensures order[k] < next.Length && order[k] in view.pending
      {
        assert order[k] in order;
        var m :| 0 <= m < |view.pending| && view.pending[m] == order[k];
      }
      assert order != [] ==> order[0] in view.pending;
      assert view.pending != [] ==> view.pending[0] in order;
    }

    /** Search of _SlDrvReleasePoolObj: the first waiter that matches, or the end marker. */
    method FindWaiter(i: nat, ghost p: Pool) returns (idx: nat)
      requires next.Length == act.Length == sock.Length == c.n && i < c.n
      requires act[..] == p.act && sock[..] == p.sock && Chain(next[..], pendingIdx, p.pending)
      ensures InRange(p, p.pending)
      ensures idx == At(p.pending, FirstMatch(c, p, p.pending, i), c.n)
    {
      ghost var m := 0;
      idx := pendingIdx;
      while idx < c.n
        invariant m <= FirstMatch(c, p, p.pending, i) && idx == At(p.pending, m, c.n)
        decreases |p.pending| - m
      {
        assert p.act[idx] == act[idx] && p.sock[idx] == sock[idx];
        if act[idx] == act[i]
          && (sock[idx] == c.maxSockets || (sock[i] < c.maxSockets && sock[idx] == sock[i]))
        {
          return;
        }
        assert next[p.pending[m]] == At(p.pending, m + 1, c.n);
        idx := next[idx];
        m := m + 1;
      }
    }

    /** Search and wake of _SlDrvReleasePoolObj. */
    method WakeOne(i: nat)
      requires Valid() && i < c.n
      modifies this`pendingIdx, this`view, this`signalled, next
      ensures Valid() && InRange(old(view), old(view).pending)
      ensures view == Wake(c, old(view), i)
      ensures signalled == old(signalled) + (view.woken - old(view).woken)
    {
      var idx := FindWaiter(i, view);
      ghost var k := FirstMatch(c, view, view.pending, i);
      if idx < c.n {
        assert idx !in view.woken by {
          PlacesDistinct(c, view, {});
        }
        TakeWaiter(idx, k);
        signalled := signalled + {idx};
        view := view.(pending := Without(view.pending, k), woken := view.woken + {idx});
      }
      assert Partition(c, view) by {
        WakePartition(c, old(view), i);
      }
    }

    /** Take waiter number `k` off the pending list. */
    method TakeWaiter(item: nat, ghost k: nat)
      requires Valid() && k < |view.pending| && item == view.pending[k]
      modifies this`pendingIdx, next
      ensures Chain(next[..], freeIdx, view.free)
      ensures Chain(next[..], activeIdx, view.active)
      ensures Chain(next[..], pendingIdx, Without(view.pending, k))
    {
      ghost var before := next[..];
      assert NoDup(view.pending) && Disjoint(view.pending, view.free) && Disjoint(view.pending, view.active) by {
        PlacesDistinct(c, view, {});
      }
      UniqueIndex(view.pending, k);
      pendingIdx := RemoveFromList(pendingIdx, item, view.pending);
      ChainFrame(before, next[..], freeIdx, view.free);
      ChainFrame(before, next[..], activeIdx, view.active);
    }

    /** Move `i` from the active list of `p` to the head of its free list. */
    method ActiveToFree(i: nat, ghost p: Pool)
      requires i in p.active && i < next.Length
      requires NoDup(p.active) && Disjoint(p.active, p.free) && Disjoint(p.active, p.pending)
      requires Chain(next[..], freeIdx, p.free)
      requires Chain(next[..], activeIdx, p.active)
      requires Chain(next[..], pendingIdx, p.pending)
      modifies this`activeIdx, this`freeIdx, next
      ensures Chain(next[..], freeIdx, [i] + p.free)
      ensures Chain(next[..], activeIdx, Minus(p.active, i))
      ensures Chain(next[..], pendingIdx, p.pending)
    {
      ghost var before := next[..];
      assert i !in Minus(p.active, i) by {
        MinusFacts(p.active, i);
      }
      activeIdx := RemoveFromList(activeIdx, i, p.active);
      ghost var mid := next[..];
      ChainFrame(before, mid, freeIdx, p.free);
      ChainFrame(before, mid, pendingIdx, p.pending);
      next[i] := freeIdx;
      ChainPush(mid, next[..], freeIdx, p.free, i);
      ChainFrame(mid, next[..], activeIdx, Minus(p.active, i));
      ChainFrame(mid, next[..], pendingIdx, p.pending);
      freeIdx := i;
    }

    /** _SlDrvReleasePoolObj. While the device is stopping only the sync object goes. */
    method Release(i: nat, stopping: bool)
      requires Valid() && !locked && i in view.active && i < c.n
      modifies this, next, act, sock
      ensures Valid() && InRange(old(view), old(view).pending)
      ensures !stopping ==> view == DoRelease(c, old(view), i)
      ensures !stopping ==> signalled == old(signalled) + (view.woken - old(view).woken)
      ensures !stopping ==> numDeleted == old(numDeleted) && deleted == old(deleted)
      ensures stopping ==> view == old(view) && signalled == old(signalled)
      ensures stopping ==> numDeleted == old(numDeleted) + 1 && deleted == old(deleted) + multiset{i}
    {
      if stopping {
        deleted := deleted + multiset{i};
        numDeleted := numDeleted + 1;
      } else {
        ReleaseNow(i);
      }
    }

    method ReleaseNow(i: nat)
      requires Valid() && !locked && i in view.active && i < c.n
      modifies this`pendingIdx, this`signalled, this`activeIdx, this`freeIdx, this`bits, this`locked, this`view
      modifies next, act, sock
      ensures Valid() && InRange(old(view), old(view).pending)
      ensures view == DoRelease(c, old(view), i)
      ensures signalled == old(signalled) + (view.woken - old(view).woken)
    {
      locked := true;
      view := view.(locked := true);
      assert Partition(c, view) by {
        assert forall x: nat :: Copies(view, x) == Copies(old(view), x);
      }
      WakeOne(i);
      WakeIgnoresLock(c, old(view), i);
      if sock[i] < c.maxSockets {
        if sock[i] !in bits {
          return;
        }
      } else if act[i] !in bits && act[i] != c.selectId {
        return;
      }
      Retire(i);
    }

    /** The rest of a release: clear the bit, forget the request, become free. */
    method Retire(i: nat)
      requires Valid() && i in view.active && i < c.n && locked
      modifies this`activeIdx, this`freeIdx, this`bits, this`locked, this`view, next, act, sock
      ensures Valid() && i < |old(view).act| && i < |old(view).sock|
      ensures view == Retired(c, old(view), i)
    {
      assert NoDup(view.active) && Disjoint(view.active, view.free) && Disjoint(view.active, view.pending) by {
        PlacesDistinct(c, view, {});
      }
      if sock[i] < c.maxSockets {
        bits := bits - {sock[i]};
      } else {
        bits := bits - {act[i]};
      }
      act[i] := 0;
      sock[i] := c.maxSockets;
      ghost var acts, socks := act[..], sock[..];
      ActiveToFree(i, view);
      assert act[..] == acts && sock[..] == socks;
      locked := false;
      view := Retired(c, view, i);
      assert Partition(c, view) by {
        RetirePartition(c, old(view), i);
      }
    }

    /** One pass of _SlDrvReleaseAllActivePendingPoolObj over a list to be signalled. */
    method SignalList(head: nat, ghost l: seq<nat>)
      requires next.Length == c.n && Chain(next[..], head, l)
      modifies this`signalled
      ensures signalled == old(signalled) + set x | x in l
    {
      var idx := head;
      ghost var m := 0;
      while idx < c.n
        invariant m <= |l| && idx == At(l, m, c.n)
        invariant signalled == old(signalled) + set x | x in l[..m]
        decreases |l| - m
      {
        assert next[l[m]] == At(l, m + 1, c.n);
        assert l[..m + 1] == l[..m] + [l[m]];
        SetPush(l[..m], l[m]);
        signalled := signalled + {idx};
        idx := next[idx];
        m := m + 1;
      }
      assert l[..m] == l;
    }

    /** The last pass: the sync objects of the free list are deleted. */
    method DeleteFree()
      requires next.Length == c.n && Chain(next[..], freeIdx, view.free)
      modifies this`deleted, this`numDeleted
      ensures deleted == old(deleted) + multiset(view.free)
      ensures numDeleted == old(numDeleted) + |view.free|
    {
      var idx := freeIdx;
      ghost var m := 0;
      while idx < c.n
        invariant m <= |view.free| && idx == At(view.free, m, c.n)
        invariant numDeleted == old(numDeleted) + m
        invariant deleted == old(deleted) + multiset(view.free[..m])
        decreases |view.free| - m
      {
        assert next[view.free[m]] == At(view.free, m + 1, c.n);
        deleted := deleted + multiset{idx};
        numDeleted := numDeleted + 1;
        idx := next[idx];
        assert view.free[..m + 1] == view.free[..m] + [view.free[m]];
        m := m + 1;
      }
      assert view.free[..m] == view.free;
    }

    /** _SlDrvReleaseAllActivePendingPoolObj: everyone in use is signalled, and the sync
        objects of exactly the free ones are deleted, each once. */
    method ReleaseAll()
      requires Valid() && !locked
      modifies this`signalled, this`deleted, this`numDeleted
      ensures Valid()
      ensures signalled == old(signalled) + (set x | x in view.active) + (set x | x in view.pending)
      ensures deleted == old(deleted) + multiset(view.free)
      ensures numDeleted == old(numDeleted) + |view.free|
    {
      SignalList(activeIdx, view.active);
      SignalList(pendingIdx, view.pending);
      DeleteFree();
    }
  }

  function Retired(c: Config, w: Pool, i: nat): Pool
    requires i < |w.act| && i < |w.sock|
  {
    w.(bits := w.bits - {KeyOf(c, w, i)}, act := w.act[i := 0], sock := w.sock[i := c.maxSockets],
       active := Minus(w.active, i), free := [i] + w.free, locked := false)
  }

  lemma RetirePartition(c: Config, w: Pool, i: nat)
    requires Partition(c, w) && i in w.active && i < c.n
    ensures Partition(c, Retired(c, w, i))
  {
    var q := Retired(c, w, i);
    PlacesDistinct(c, w, {});
    MinusFacts(w.active, i);
    forall x: nat
      ensures Copies(q, x) == if x < c.n then 1 else 0
    {
      assert Copies(q, x) == Copies(w, x);
    }
  }

  lemma WakeIgnoresLock(c: Config, p: Pool, i: nat)
    requires InRange(p, p.pending) && i < |p.act|
    ensures Wake(c, p.(locked := true), i) == Wake(c, p, i).(locked := true)
  {
    SameFirstMatch(c, p, p.(locked := true), p.pending, i, 0);
  }

  lemma SameFirstMatch(c: Config, p: Pool, q: Pool, l: seq<nat>, i: nat, from: nat)
    requires InRange(p, l) && i < |p.act| && q.act == p.act && q.sock == p.sock && from <= |l|
    ensures FirstMatchFrom(c, q, l, i, from) == FirstMatchFrom(c, p, l, i, from)
    decreases |l| - from
  {
  }

  lemma SetPush(s: seq<nat>, y: nat)
    ensures (set x | x in s + [y]) == (set x | x in s) + {y}
  {
  }

  lemma UniqueIndex(l: seq<nat>, k: nat)
    requires NoDup(l) && k < |l|
    ensures IndexOf(l, l[k]) == k
  {
    assert l[k] in l;
  }

  /** Two requests for one action: the second waits. */
  method TwoRequests(c: Config, action: nat) returns (p: ActionPool)
    requires c.n == 2 && c.maxSockets <= action && action != c.selectId
    ensures fresh(p) && fresh(p.next) && p.c == c && p.Valid() && p.view.pending == [1]
  {
    p := new ActionPool(c);
    var i, waits := p.Acquire(action, c.maxSockets, false);
    assert p.view.free == [1] && p.view.pending == [];
    i, waits := p.Acquire(action, c.maxSockets, false);
  }

  /** It happens: a fatal error then leaves links that are no lists. */
  method BroadcastRun(c: Config, action: nat) returns (p: ActionPool)
    requires c.n == 2 && c.maxSockets <= action && action != c.selectId
    ensures fresh(p) && !Intact(p.RawLinks())
  {
    p := TwoRequests(c, action);
    p.Broadcast();
    p.WakeUps([1]);
  }
}
