/**
 Stopping the device, on the action pool itself: who deletes the sync object of each pool
 object, and when the count the stop command waits for is reached.

 A thread is followed on top of its object's place in the pool. `tested` are the woken
 waiters that have found the stop flag down and are about to re-enter the protection lock;
 `releasing` the owners that have found it down in the release and go on to free. A deleted
 object stays wherever it is linked; it is `gone`.
 */
module PoolStop {
  import opened PoolSpec

  /** `signalled`: the sync object of an active or pending object has been signalled and its
      thread has not gone on yet. */
  datatype Stop = Stop(
    pool: Pool, tested: set<nat>, releasing: set<nat>, signalled: set<nat>, gone: set<nat>,
    stopping: bool, swept: bool, deletions: seq<nat>, numDeleted: nat)

  /** The build, and whether the operation of an active object that the sweep did not signal
      still ends by itself once the device is stopping. */
  datatype Setting = Setting(c: Config, answers: bool)

  datatype Step =
    | Request(action: nat, socket: nat, spawn: bool)
    | Complete(i: nat)
    | TestAfterWake(i: nat)
    | TestAfterSweep(i: nat)
    | Contend(i: nat)
    | TestInRelease(i: nat)
    | FinishRelease(i: nat)
    | SetStopping
    | Sweep

  function Start(c: Config): Stop {
    Stop(Init(c), {}, {}, {}, {}, false, false, seq(c.n, _ => 0), 0)
  }

  predicate Shaped(c: Config, p: Pool) {
    && |p.act| == |p.sock| == c.n
    && (forall m :: 0 <= m < |p.free| ==> p.free[m] < c.n)
    && (forall m :: 0 <= m < |p.active| ==> p.active[m] < c.n)
    && (forall m :: 0 <= m < |p.pending| ==> p.pending[m] < c.n)
    && (forall i :: i in p.woken ==> i < c.n)
  }

  /** What may happen next. Nothing is requested any more once the sweep has run. */
  predicate Enabled(g: Setting, s: Stop, e: Step) {
    match e
    case Request(action, socket, _) => !s.swept && socket <= g.c.maxSockets <= action
    case Complete(i) => i in s.pool.active && i !in s.releasing && i !in s.gone && (!s.swept || g.answers)
    case TestAfterWake(i) => i in s.pool.woken && i !in s.tested && i !in s.gone
    case TestAfterSweep(i) => i in s.pool.pending && i in s.signalled && i !in s.gone
    case Contend(i) => i in s.tested
    case TestInRelease(i) => i in s.pool.active && i in s.signalled && i !in s.releasing && i !in s.gone
    case FinishRelease(i) => i in s.releasing
    case SetStopping => !s.stopping
    case Sweep => s.stopping && !s.swept
  }

  /** The threads behind `tested` and `releasing` are where the pool says. */
  predicate Threads(s: Stop) {
    && (forall i :: i in s.tested ==> i in s.pool.woken && i !in s.gone)
    && (forall i :: i in s.releasing ==> i in s.pool.active && i !in s.gone)
  }

  predicate Ready(c: Config, s: Stop) {
    Shaped(c, s.pool) && Threads(s) && |s.deletions| == c.n
  }

  function Delete(s: Stop, i: nat): Stop
    requires i < |s.deletions|
  {
    s.(gone := s.gone + {i}, deletions := s.deletions[i := s.deletions[i] + 1], numDeleted := s.numDeleted + 1)
  }

  function Members(l: seq<nat>): set<nat> {
    set i | i in l
  }

  function Apply(g: Setting, s: Stop, e: Step): Stop
    requires Ready(g.c, s) && Enabled(g, s, e)
  {
    match e
    case Request(action, socket, spawn) => s.(pool := DoAlloc(g.c, s.pool, action, socket, spawn))
    case Complete(i) => s.(signalled := s.signalled + {i})
    case TestAfterWake(i) => if s.stopping then Delete(s, i) else s.(tested := s.tested + {i})
    case TestAfterSweep(i) => Delete(s, i)
    case Contend(i) => s.(pool := DoResume(g.c, s.pool, i), tested := s.tested - {i})
    case TestInRelease(i) =>
      if s.stopping then Delete(s, i) else s.(releasing := s.releasing + {i}, signalled := s.signalled - {i})
    case FinishRelease(i) => s.(pool := DoRelease(g.c, s.pool, i), releasing := s.releasing - {i})
    case SetStopping => s.(stopping := true)
    case Sweep =>
      var free := s.pool.free;
      s.(swept := true,
         signalled := s.signalled + Members(s.pool.active) + Members(s.pool.pending),
         gone := s.gone + Members(free),
         deletions := seq(|s.deletions|, i requires 0 <= i < |s.deletions| =>
                            s.deletions[i] + if i in free then 1 else 0),
         numDeleted := s.numDeleted + |free|)
  }

  /** `es` are steps that lead from `s`, the first of `ss`, to its last. */
  ghost predicate RunFrom(g: Setting, s: Stop, ss: seq<Stop>, es: seq<Step>) {
    && |ss| == |es| + 1 && ss[0] == s
    && forall k :: 0 <= k < |es| ==> Moves(g, ss[k], es[k], ss[k + 1])
  }

  ghost predicate Moves(g: Setting, s: Stop, e: Step, t: Stop) {
    Ready(g.c, s) && Enabled(g, s, e) && t == Apply(g, s, e)
  }

  // ------------------------------------------------------------------ the invariant

  /** Deletions are exact: an object was deleted once if it is gone and never otherwise. */
  ghost predicate Exact(c: Config, s: Stop) {
    && |s.deletions| == c.n
    && (forall i :: i in s.gone ==> i < c.n)
    && (forall i :: 0 <= i < c.n ==> s.deletions[i] == if i in s.gone then 1 else 0)
    && s.numDeleted == |s.gone|
  }

  ghost predicate Marks(s: Stop) {
    && (s.swept ==> s.stopping)
    && (!s.swept ==>
         && (forall i :: i in s.pool.free ==> i !in s.gone)
         && (forall i :: i in s.signalled ==> i in s.pool.active && i !in s.releasing))
    && (forall i :: i in s.tested ==> i !in s.signalled)
  }

  ghost predicate StopInv(c: Config, s: Stop) {
    Inv(c, s.pool) && Threads(s) && Exact(c, s) && Marks(s)
  }

  lemma InvShape(c: Config, p: Pool)
    requires Inv(c, p)
    ensures Shaped(c, p)
    ensures forall i: nat :: i < c.n ==> i in p.free || i in p.active || i in p.pending || i in p.woken
    ensures forall i: nat :: i in p.free ==> i !in p.active && i !in p.pending && i !in p.woken
    ensures forall i: nat :: i in p.active ==> i !in p.pending && i !in p.woken
    ensures forall i: nat :: i in p.pending ==> i !in p.woken
    ensures NoDup(p.free) && !p.locked
  {
    PlacesBound(c, p);
    PlacesDistinct(c, p, {});
    forall i: nat
      ensures Occupied(p, i) <==> i in p.active || i in p.pending || i in p.woken
    {
    }
    assert forall m :: 0 <= m < |p.free| ==> p.free[m] in p.free;
    assert forall m :: 0 <= m < |p.active| ==> Occupied(p, p.active[m]);
    assert forall m :: 0 <= m < |p.pending| ==> Occupied(p, p.pending[m]);
    assert forall i :: i in p.woken ==> Occupied(p, i);
  }

  lemma StartInv(c: Config)
    ensures StopInv(c, Start(c))
  {
    InitInv(c);
  }

  /** What an allocation leaves alone. */
  lemma AllocMoves(c: Config, p: Pool, action: nat, socket: nat, spawn: bool)
    requires ConfigOk(c) && Inv(c, p) && Shaped(c, p) && socket <= c.maxSockets <= action
    ensures var q := DoAlloc(c, p, action, socket, spawn);
      && Inv(c, q) && q.woken == p.woken
      && (forall i :: i in p.active ==> i in q.active) && (forall i :: i in q.free ==> i in p.free)
  {
    AllocInv(c, p, action, socket, spawn);
  }

  /** What a woken waiter's turn does. */
  lemma ContendMoves(c: Config, p: Pool, i: nat)
    requires ConfigOk(c) && Inv(c, p) && Shaped(c, p) && i in p.woken
    ensures var q := DoResume(c, p, i);
      && Inv(c, q) && q.woken == p.woken - {i} && q.free == p.free && q.act == p.act && q.sock == p.sock
      && if Busy(c, p.bits, p.act[i], p.sock[i]) then
           q.pending == [i] + p.pending && q.active == p.active && q.bits == p.bits
         else
           q.active == [i] + p.active && q.pending == p.pending && q.bits == p.bits + {KeyOf(c, p, i)}
  {
    ResumeInv(c, p, i);
  }

  /** What a release leaves alone. */
  lemma ReleaseMoves(c: Config, p: Pool, i: nat)
    requires ConfigOk(c) && Inv(c, p) && Shaped(c, p) && i in p.active
    ensures var q := DoRelease(c, p, i);
      && Inv(c, q) && q.free == [i] + p.free && p.woken <= q.woken
      && (forall j: nat :: j in p.active && j != i ==> j in q.active)
  {
    ReleaseInv(c, p, i);
    ActiveHasBit(c, p, i);
    PlacesDistinct(c, p, {});
    MinusFacts(p.active, i);
  }

  // ------------------------------------------------------------------ every step keeps it

  lemma DeleteExact(c: Config, s: Stop, i: nat)
    requires Exact(c, s) && i < c.n && i !in s.gone
    ensures Exact(c, Delete(s, i))
  {
  }

  lemma {:induction false} CardOfMembers(l: seq<nat>)
    requires NoDup(l)
    ensures |Members(l)| == |l|
  {
    if l == [] {
      assert Members(l) == {};
    } else {
      var m := |l| - 1;
      CardOfMembers(l[..m]);
      assert Members(l) == Members(l[..m]) + {l[m]};
    }
  }

  lemma SweepExact(g: Setting, s: Stop)
    requires StopInv(g.c, s) && Ready(g.c, s) && Enabled(g, s, Sweep)
    ensures Exact(g.c, Apply(g, s, Sweep))
  {
    InvShape(g.c, s.pool);
    SweptCounts(g, s);
  }

  lemma SweptCounts(g: Setting, s: Stop)
    requires Exact(g.c, s) && Ready(g.c, s) && Enabled(g, s, Sweep)
    requires NoDup(s.pool.free) && forall i :: i in s.pool.free ==> i !in s.gone
    ensures Exact(g.c, Apply(g, s, Sweep))
  {
    hide NoDup;
    var t, free := Apply(g, s, Sweep), Members(s.pool.free);
    CardOfMembers(s.pool.free);
    DisjointCard(s.gone, free);
    assert forall i :: i in free ==> i < g.c.n;
    assert forall i :: 0 <= i < g.c.n ==> t.deletions[i] == if i in t.gone then 1 else 0;
  }

  lemma DisjointCard(a: set<nat>, b: set<nat>)
    requires forall i :: i in b ==> i !in a
    ensures |a + b| == |a| + |b|
  {
    assert a * b == {};
  }

  /** A deletion touches neither the pool nor the threads of other objects. */
  lemma DeleteKeeps(c: Config, s: Stop, i: nat)
    requires StopInv(c, s) && i < c.n && i !in s.gone && i !in s.tested && i !in s.releasing
    requires s.swept || i !in s.pool.free
    ensures StopInv(c, Delete(s, i))
  {
    hide Inv;
    DeleteExact(c, s, i);
  }

  lemma ReleaseKeeps(c: Config, s: Stop, i: nat)
    requires ConfigOk(c) && StopInv(c, s) && Shaped(c, s.pool) && i in s.releasing
    ensures StopInv(c, s.(pool := DoRelease(c, s.pool, i), releasing := s.releasing - {i}))
  {
    hide Inv, DoRelease;
    ReleaseMoves(c, s.pool, i);
  }

  lemma ContendKeeps(c: Config, s: Stop, i: nat)
    requires ConfigOk(c) && StopInv(c, s) && Shaped(c, s.pool) && i in s.tested
    ensures StopInv(c, s.(pool := DoResume(c, s.pool, i), tested := s.tested - {i}))
  {
    hide Inv, DoResume;
    ContendMoves(c, s.pool, i);
  }

  lemma RequestKeeps(c: Config, s: Stop, action: nat, socket: nat, spawn: bool)
    requires ConfigOk(c) && StopInv(c, s) && Shaped(c, s.pool) && !s.swept && socket <= c.maxSockets <= action
    ensures StopInv(c, s.(pool := DoAlloc(c, s.pool, action, socket, spawn)))
  {
    hide Inv, DoAlloc;
    AllocMoves(c, s.pool, action, socket, spawn);
  }

  /** A test passed, a signal given, the flag set. */
  lemma MarkKeeps(g: Setting, s: Stop, e: Step)
    requires StopInv(g.c, s) && Ready(g.c, s) && Enabled(g, s, e)
    requires e.Complete? || e.SetStopping? || (!s.stopping && (e.TestAfterWake? || e.TestInRelease?))
    ensures StopInv(g.c, Apply(g, s, e))
  {
    hide Inv, Exact;
    InvShape(g.c, s.pool);
    ExactSame(g.c, s, Apply(g, s, e));
  }

  lemma ExactSame(c: Config, s: Stop, t: Stop)
    requires Exact(c, s) && t.gone == s.gone && t.deletions == s.deletions && t.numDeleted == s.numDeleted
    ensures Exact(c, t)
  {
  }

  lemma StepKeeps(g: Setting, s: Stop, e: Step)
    requires ConfigOk(g.c) && StopInv(g.c, s) && Ready(g.c, s) && Enabled(g, s, e)
    ensures StopInv(g.c, Apply(g, s, e))
  {
    hide Inv, DoAlloc, DoResume, DoRelease, Exact;
    if e.Complete? || e.SetStopping? || (!s.stopping && (e.TestAfterWake? || e.TestInRelease?)) {
      MarkKeeps(g, s, e);
      return;
    }
    InvShape(g.c, s.pool);
    match e
    case Request(action, socket, spawn) => RequestKeeps(g.c, s, action, socket, spawn);
    case Contend(i) => ContendKeeps(g.c, s, i);
    case FinishRelease(i) => ReleaseKeeps(g.c, s, i);
    case Sweep => SweepExact(g, s);
    case TestAfterWake(i) => DeleteKeeps(g.c, s, i);
    case TestAfterSweep(i) => DeleteKeeps(g.c, s, i);
    case TestInRelease(i) => DeleteKeeps(g.c, s, i);
  }

  lemma InvReady(c: Config, s: Stop)
    requires StopInv(c, s)
    ensures Ready(c, s)
  {
    InvShape(c, s.pool);
  }

  lemma {:induction false} RunKeeps(g: Setting, s: Stop, ss: seq<Stop>, es: seq<Step>, k: nat)
    requires ConfigOk(g.c) && StopInv(g.c, s) && RunFrom(g, s, ss, es) && k < |ss|
    ensures StopInv(g.c, ss[k])
  {
    hide StopInv;
    if k > 0 {
      RunKeeps(g, s, ss, es, k - 1);
      assert Moves(g, ss[k - 1], es[k - 1], ss[k]);
      StepKeeps(g, ss[k - 1], es[k - 1]);
    }
  }

  /** In every run no sync object is ever deleted twice, and the counter is the number
      deleted. */
  lemma DeletedOnce(g: Setting, ss: seq<Stop>, es: seq<Step>, k: nat)
    requires ConfigOk(g.c) && RunFrom(g, Start(g.c), ss, es) && k < |ss|
    ensures |ss[k].deletions| == g.c.n && ss[k].numDeleted == |ss[k].gone| <= g.c.n
    ensures forall i :: 0 <= i < g.c.n ==> ss[k].deletions[i] == if i in ss[k].gone then 1 else 0
  {
    StartInv(g.c);
    RunKeeps(g, Start(g.c), ss, es, k);
    GoneBound(g.c, ss[k]);
  }

  lemma GoneBound(c: Config, s: Stop)
    requires Exact(c, s)
    ensures s.numDeleted <= c.n
    ensures s.numDeleted == c.n <==> forall i: nat :: i < c.n ==> i in s.gone
  {
    SubsetCard(s.gone, UpTo(c.n));
  }

  function UpTo(n: nat): (all: set<nat>)
    ensures |all| == n && forall i: nat :: i in all <==> i < n
  {
    if n == 0 then {} else UpTo(n - 1) + {n - 1}
  }

  lemma SubsetCard(a: set<nat>, b: set<nat>)
    requires a <= b
    ensures |a| <= |b| && (|a| == |b| <==> a == b)
  {
    assert b == a + (b - a);
    assert |b| == |a| + |b - a|;
  }

  // ------------------------------------------------------------------ a clean sweep

  ghost predicate ContendsAlone(c: Config, s: Stop, i: nat)
    requires Shaped(c, s.pool) && i < c.n
  {
    && !Busy(c, s.pool.bits, s.pool.act[i], s.pool.sock[i])
    && forall j: nat :: j in s.tested && j != i && j < c.n && KeyOf(c, s.pool, j) == KeyOf(c, s.pool, i) ==>
         !Blocks(c, s.pool, i)
  }

  /** While the object is active, its key is denied to others. */
  predicate Blocks(c: Config, p: Pool, i: nat)
    requires i < |p.act| && i < |p.sock|
  {
    p.sock[i] < c.maxSockets || p.act[i] != c.selectId
  }

  /** No thread is between its test of the flag in a release and the protection lock; and
      those between their test after a wake-up and the lock, if the operations they go on to
      end by themselves, find their keys free, each its own. */
  ghost predicate Clean(g: Setting, s: Stop)
    requires Shaped(g.c, s.pool)
  {
    && s.releasing == {}
    && forall i: nat :: i in s.tested && i < g.c.n ==> g.answers && ContendsAlone(g.c, s, i)
  }

  /** After a clean sweep every object that is left is on its way to its own deletion. */
  ghost predicate Leaving(g: Setting, s: Stop) {
    && s.swept && s.stopping && Shaped(g.c, s.pool) && Clean(g, s)
    && forall i: nat :: i < g.c.n && i !in s.gone ==> OnItsWay(g, s, i)
  }

  predicate OnItsWay(g: Setting, s: Stop, i: nat) {
    || i in s.pool.woken
    || (i in s.pool.active && (g.answers || i in s.signalled))
    || (i in s.pool.pending && i in s.signalled)
  }

  lemma CleanSweepLeaves(g: Setting, s: Stop)
    requires ConfigOk(g.c) && StopInv(g.c, s) && Ready(g.c, s) && Enabled(g, s, Sweep) && Clean(g, s)
    ensures Leaving(g, Apply(g, s, Sweep))
  {
    hide Inv;
    InvShape(g.c, s.pool);
  }

  lemma ContendLeaves(g: Setting, s: Stop, i: nat)
    requires ConfigOk(g.c) && StopInv(g.c, s) && Ready(g.c, s) && Leaving(g, s) && i in s.tested
    ensures Leaving(g, Apply(g, s, Contend(i)))
  {
    hide Inv, DoResume;
    var p, t := s.pool, Apply(g, s, Contend(i));
    ContendMoves(g.c, p, i);
    assert ContendsAlone(g.c, s, i);
    StepKeeps(g, s, Contend(i));
    InvReady(g.c, t);
    forall j: nat | j in t.tested && j < g.c.n
      ensures ContendsAlone(g.c, t, j)
    {
      assert ContendsAlone(g.c, s, j);
    }
  }

  lemma StepLeaves(g: Setting, s: Stop, e: Step)
    requires ConfigOk(g.c) && StopInv(g.c, s) && Ready(g.c, s) && Leaving(g, s) && Enabled(g, s, e)
    ensures Leaving(g, Apply(g, s, e))
  {
    hide Inv, DoResume, DoAlloc, DoRelease;
    if e.Contend? {
      ContendLeaves(g, s, e.i);
    } else {
      var t := Apply(g, s, e);
      assert forall j: nat :: j in s.tested && j < g.c.n ==> ContendsAlone(g.c, s, j);
    }
  }

  lemma {:induction false} RunLeaves(g: Setting, s: Stop, ss: seq<Stop>, es: seq<Step>, k: nat)
    requires ConfigOk(g.c) && StopInv(g.c, s) && Leaving(g, s) && RunFrom(g, s, ss, es) && k < |ss|
    ensures StopInv(g.c, ss[k]) && Leaving(g, ss[k])
  {
    hide StopInv, Leaving;
    if k > 0 {
      RunLeaves(g, s, ss, es, k - 1);
      assert Moves(g, ss[k - 1], es[k - 1], ss[k]);
      StepKeeps(g, ss[k - 1], es[k - 1]);
      StepLeaves(g, ss[k - 1], es[k - 1]);
    }
  }

  /** Every thread inside the driver has run as far as it can. */
  ghost predicate Finished(g: Setting, s: Stop) {
    forall e: Step :: Enabled(g, s, e) ==>
      e.Request? || e.SetStopping? || e.Sweep? || (e.Complete? && e.i in s.signalled)
  }

  /** Somebody on the way can take a step. */
  lemma LeaversGoOn(g: Setting, s: Stop, i: nat)
    requires StopInv(g.c, s) && Leaving(g, s) && i < g.c.n && i !in s.gone
    ensures !Finished(g, s)
  {
    hide Inv;
    if i in s.pool.woken {
      assert Enabled(g, s, if i in s.tested then Contend(i) else TestAfterWake(i));
    } else if i in s.pool.active {
      assert Enabled(g, s, if i in s.signalled then TestInRelease(i) else Complete(i));
    } else {
      assert Enabled(g, s, TestAfterSweep(i));
    }
  }

  /** Conservation: after a clean sweep, once all threads have finished every one of the
      pool's sync objects was deleted exactly once and the counter is the pool size. */
  lemma StopCompletes(g: Setting, ss: seq<Stop>, es: seq<Step>, k: nat, m: nat)
    requires ConfigOk(g.c) && RunFrom(g, Start(g.c), ss, es) && k < m < |ss| && es[k] == Sweep
    requires Shaped(g.c, ss[k].pool) && Clean(g, ss[k]) && Finished(g, ss[m])
    ensures ss[m].numDeleted == g.c.n && |ss[m].deletions| == g.c.n
    ensures forall i :: 0 <= i < g.c.n ==> ss[m].deletions[i] == 1
  {
    hide StopInv, Leaving, Clean, Finished;
    StartInv(g.c);
    RunKeeps(g, Start(g.c), ss, es, k);
    assert Moves(g, ss[k], es[k], ss[k + 1]);
    CleanSweepLeaves(g, ss[k]);
    StepKeeps(g, ss[k], es[k]);
    var tail, steps := ss[k + 1..], es[k + 1..];
    assert RunFrom(g, ss[k + 1], tail, steps);
    RunLeaves(g, ss[k + 1], tail, steps, m - k - 1);
    assert tail[m - k - 1] == ss[m];
    DeletedOnce(g, ss, es, m);
    forall i: nat | i < g.c.n
      ensures i in ss[m].gone
    {
      if i !in ss[m].gone {
        LeaversGoOn(g, ss[m], i);
      }
    }
    AllGone(g.c, ss[m]);
  }

  lemma AllGone(c: Config, s: Stop)
    requires StopInv(c, s) && forall i: nat :: i < c.n ==> i in s.gone
    ensures s.numDeleted == c.n
  {
    GoneBound(c, s);
  }

  // ------------------------------------------------------------------ when a stop fails

  /** The counter never gets to the pool size, however the run goes on. */
  ghost predicate Doomed(g: Setting, s: Stop) {
    forall ss: seq<Stop>, es: seq<Step> :: RunFrom(g, s, ss, es) ==> ss[|es|].numDeleted < g.c.n
  }

  /** Object `i` will never be deleted: it was freed behind the sweep's back, or its thread
      waits for a signal that does not come any more. */
  ghost predicate Lost(g: Setting, s: Stop, i: nat) {
    && i < g.c.n && s.swept && s.stopping && i !in s.gone && Shaped(g.c, s.pool)
    && (Missed(s, i) || (s.releasing == {} && i !in s.signalled && (Unanswered(g, s, i) || Blocked(g.c, s, i))))
  }

  predicate Missed(s: Stop, i: nat) {
    i in s.releasing || i in s.pool.free
  }

  predicate Unanswered(g: Setting, s: Stop, i: nat) {
    !g.answers && (i in s.tested || i in s.pool.active || i in s.pool.pending)
  }

  predicate Blocked(c: Config, s: Stop, i: nat)
    requires i < |s.pool.act| == |s.pool.sock|
  {
    i in s.pool.pending || (i in s.tested && Busy(c, s.pool.bits, s.pool.act[i], s.pool.sock[i]))
  }

  /** Two waiters contend for one key: one of them will be lost. */
  ghost predicate Rivals(g: Setting, s: Stop, i: nat, j: nat) {
    && i < g.c.n && j < g.c.n && i != j && s.swept && s.stopping && s.releasing == {} && Shaped(g.c, s.pool)
    && i in s.tested && j in s.tested
    && KeyOf(g.c, s.pool, i) == KeyOf(g.c, s.pool, j) && Blocks(g.c, s.pool, i)
  }

  lemma LostByContend(g: Setting, s: Stop, j: nat, i: nat)
    requires ConfigOk(g.c) && StopInv(g.c, s) && Ready(g.c, s) && Lost(g, s, i) && j in s.tested
    ensures Lost(g, Apply(g, s, Contend(j)), i)
  {
    hide Inv, DoResume;
    InvShape(g.c, s.pool);
    ContendMoves(g.c, s.pool, j);
    InvShape(g.c, DoResume(g.c, s.pool, j));
  }

  lemma LostByRelease(g: Setting, s: Stop, j: nat, i: nat)
    requires ConfigOk(g.c) && StopInv(g.c, s) && Ready(g.c, s) && Lost(g, s, i) && j in s.releasing
    ensures Lost(g, Apply(g, s, FinishRelease(j)), i)
  {
    hide Inv, DoRelease;
    InvShape(g.c, s.pool);
    ReleaseMoves(g.c, s.pool, j);
    InvShape(g.c, DoRelease(g.c, s.pool, j));
  }

  lemma StepLoses(g: Setting, s: Stop, e: Step, i: nat)
    requires ConfigOk(g.c) && StopInv(g.c, s) && Ready(g.c, s) && Enabled(g, s, e) && Lost(g, s, i)
    ensures Lost(g, Apply(g, s, e), i)
  {
    hide Inv, DoResume, DoAlloc, DoRelease;
    if e.Contend? {
      LostByContend(g, s, e.i, i);
    } else if e.FinishRelease? {
      LostByRelease(g, s, e.i, i);
    } else {
      InvShape(g.c, s.pool);
    }
  }

  lemma RivalsContend(g: Setting, s: Stop, k: nat, i: nat, j: nat)
    requires ConfigOk(g.c) && StopInv(g.c, s) && Ready(g.c, s) && Rivals(g, s, i, j) && k in s.tested
    ensures var t := Apply(g, s, Contend(k)); Rivals(g, t, i, j) || Lost(g, t, i) || Lost(g, t, j)
  {
    hide Inv, DoResume;
    InvShape(g.c, s.pool);
    ContendMoves(g.c, s.pool, k);
    InvShape(g.c, DoResume(g.c, s.pool, k));
    LabelsOfWoken(g.c, s.pool, i);
    LabelsOfWoken(g.c, s.pool, j);
  }

  lemma LabelsOfWoken(c: Config, p: Pool, i: nat)
    requires Inv(c, p) && i in p.woken && i < c.n
    ensures p.sock[i] <= c.maxSockets <= p.act[i]
  {
    assert Occupied(p, i);
  }

  lemma StepRivals(g: Setting, s: Stop, e: Step, i: nat, j: nat)
    requires ConfigOk(g.c) && StopInv(g.c, s) && Ready(g.c, s) && Enabled(g, s, e)
    requires Rivals(g, s, i, j) || Lost(g, s, i) || Lost(g, s, j)
    ensures var t := Apply(g, s, e); Rivals(g, t, i, j) || Lost(g, t, i) || Lost(g, t, j)
  {
    hide Inv, DoResume, DoAlloc, DoRelease, Lost;
    if Lost(g, s, i) {
      StepLoses(g, s, e, i);
    } else if Lost(g, s, j) {
      StepLoses(g, s, e, j);
    } else if e.Contend? {
      RivalsContend(g, s, e.i, i, j);
    }
  }

  lemma {:induction false} RunRivals(g: Setting, s: Stop, ss: seq<Stop>, es: seq<Step>, i: nat, j: nat, k: nat)
    requires ConfigOk(g.c) && StopInv(g.c, s) && RunFrom(g, s, ss, es) && k < |ss|
    requires Rivals(g, s, i, j) || Lost(g, s, i) || Lost(g, s, j)
    ensures StopInv(g.c, ss[k]) && (Rivals(g, ss[k], i, j) || Lost(g, ss[k], i) || Lost(g, ss[k], j))
  {
    hide StopInv, Lost, Rivals;
    if k > 0 {
      RunRivals(g, s, ss, es, i, j, k - 1);
      assert Moves(g, ss[k - 1], es[k - 1], ss[k]);
      StepKeeps(g, ss[k - 1], es[k - 1]);
      StepRivals(g, ss[k - 1], es[k - 1], i, j);
    }
  }

  lemma RivalsDoom(g: Setting, s: Stop, i: nat, j: nat)
    requires ConfigOk(g.c) && StopInv(g.c, s)
    requires Rivals(g, s, i, j) || Lost(g, s, i) || Lost(g, s, j)
    ensures Doomed(g, s)
  {
    forall ss: seq<Stop>, es: seq<Step> | RunFrom(g, s, ss, es)
      ensures ss[|es|].numDeleted < g.c.n
    {
      RunRivals(g, s, ss, es, i, j, |es|);
      NotAllGone(g, ss[|es|], i, j);
    }
  }

  lemma NotAllGone(g: Setting, s: Stop, i: nat, j: nat)
    requires StopInv(g.c, s) && (Rivals(g, s, i, j) || Lost(g, s, i) || Lost(g, s, j))
    ensures s.numDeleted < g.c.n
  {
    hide Inv;
    GoneBound(g.c, s);
    assert (i !in s.gone && i < g.c.n) || (j !in s.gone && j < g.c.n);
  }

  // ------------------------------------------------------------------ exactly when

  ghost predicate Reaches(g: Setting, s: Stop, t: Stop) {
    exists ss: seq<Stop>, es: seq<Step> :: RunFrom(g, s, ss, es) && ss[|es|] == t
  }

  lemma ReachesSelf(g: Setting, s: Stop)
    ensures Reaches(g, s, s)
  {
    assert RunFrom(g, s, [s], []);
  }

  lemma Then(g: Setting, s: Stop, t: Stop, e: Step)
    requires Reaches(g, s, t) && Ready(g.c, t) && Enabled(g, t, e)
    ensures Reaches(g, s, Apply(g, t, e))
  {
    hide Apply, Enabled, Ready;
    var ss, es :| RunFrom(g, s, ss, es) && ss[|es|] == t;
    var ss', es' := ss + [Apply(g, t, e)], es + [e];
    forall k | 0 <= k < |es'|
      ensures Moves(g, ss'[k], es'[k], ss'[k + 1])
    {
      assert k < |es| ==> Moves(g, ss[k], es[k], ss[k + 1]);
    }
    assert RunFrom(g, s, ss', es');
  }

  /** A step of a thread on its way out. */
  lemma ThenLeaves(g: Setting, o: Stop, s: Stop, e: Step) returns (t: Stop)
    requires ConfigOk(g.c) && StopInv(g.c, s) && Leaving(g, s) && Reaches(g, o, s)
    requires Ready(g.c, s) && Enabled(g, s, e)
    ensures t == Apply(g, s, e) && Reaches(g, o, t) && StopInv(g.c, t) && Ready(g.c, t) && Leaving(g, t)
  {
    hide StopInv, Leaving, Ready, Enabled, Apply, Reaches;
    t := Apply(g, s, e);
    Then(g, o, s, e);
    StepKeeps(g, s, e);
    StepLeaves(g, s, e);
    InvReady(g.c, t);
  }

  /** One object further: a thread on its way out can reach its deletion. */
  lemma OneMoreGone(g: Setting, o: Stop, s: Stop, i: nat) returns (t: Stop)
    requires ConfigOk(g.c) && StopInv(g.c, s) && Leaving(g, s) && Reaches(g, o, s) && i < g.c.n && i !in s.gone
    ensures Reaches(g, o, t) && StopInv(g.c, t) && Leaving(g, t) && t.numDeleted > s.numDeleted
  {
    hide Inv, DoResume, Reaches;
    InvReady(g.c, s);
    assert OnItsWay(g, s, i);
    if i in s.pool.woken && i !in s.tested {
      t := ThenLeaves(g, o, s, TestAfterWake(i));
    } else if i in s.pool.woken {
      assert ContendsAlone(g.c, s, i);
      ContendMoves(g.c, s.pool, i);
      t := ThenLeaves(g, o, s, Contend(i));
      t := ActiveLeaves(g, o, t, i);
    } else if i in s.pool.active {
      t := ActiveLeaves(g, o, s, i);
    } else {
      t := ThenLeaves(g, o, s, TestAfterSweep(i));
    }
  }

  lemma ActiveLeaves(g: Setting, o: Stop, s: Stop, i: nat) returns (t: Stop)
    requires ConfigOk(g.c) && StopInv(g.c, s) && Leaving(g, s) && Reaches(g, o, s)
    requires i < g.c.n && i in s.pool.active && i !in s.gone
    ensures Reaches(g, o, t) && StopInv(g.c, t) && Leaving(g, t) && t.numDeleted > s.numDeleted
  {
    hide Inv, Reaches;
    InvReady(g.c, s);
    InvShape(g.c, s.pool);
    t := s;
    if i !in s.signalled {
      t := ThenLeaves(g, o, s, Complete(i));
    }
    t := ThenLeaves(g, o, t, TestInRelease(i));
  }

  lemma {:induction false} CanFinish(g: Setting, o: Stop, s: Stop)
    requires ConfigOk(g.c) && StopInv(g.c, s) && Leaving(g, s) && Reaches(g, o, s)
    ensures exists t :: Reaches(g, o, t) && t.numDeleted == g.c.n
    decreases g.c.n - s.numDeleted
  {
    hide Inv, Leaving, Reaches;
    GoneBound(g.c, s);
    if i: nat :| i < g.c.n && i !in s.gone {
      var t := OneMoreGone(g, o, s, i);
      GoneBound(g.c, t);
      CanFinish(g, o, t);
    }
  }

  lemma UncleanIsLost(g: Setting, s: Stop)
    requires ConfigOk(g.c) && StopInv(g.c, s) && Ready(g.c, s) && Enabled(g, s, Sweep) && !Clean(g, s)
    ensures Doomed(g, Apply(g, s, Sweep))
  {
    hide Inv, Doomed;
    InvShape(g.c, s.pool);
    var t := Apply(g, s, Sweep);
    StepKeeps(g, s, Sweep);
    if i: nat :| i in s.releasing {
      assert Lost(g, t, i);
      RivalsDoom(g, t, i, i);
    } else {
      assert s.releasing == {};
      var i: nat :| i in s.tested && i < g.c.n && !(g.answers && ContendsAlone(g.c, s, i));
      if !g.answers || Busy(g.c, s.pool.bits, s.pool.act[i], s.pool.sock[i]) {
        assert Lost(g, t, i);
        RivalsDoom(g, t, i, i);
      } else {
        var j: nat :| && j in s.tested && j != i && j < g.c.n
                      && KeyOf(g.c, s.pool, j) == KeyOf(g.c, s.pool, i) && Blocks(g.c, s.pool, i);
        assert Rivals(g, t, i, j);
        RivalsDoom(g, t, i, j);
      }
    }
  }

  /** The exact condition, read off at the moment of the sweep. If the sweep is clean every
      continuation can still be completed; if it is not, none ever is. */
  lemma StopFailsIff(g: Setting, s: Stop)
    requires ConfigOk(g.c) && StopInv(g.c, s) && Ready(g.c, s) && Enabled(g, s, Sweep)
    ensures Doomed(g, Apply(g, s, Sweep)) <==> !Clean(g, s)
    ensures Clean(g, s) ==> forall t :: Reaches(g, Apply(g, s, Sweep), t) ==> !Doomed(g, t)
  {
    hide StopInv, Enabled, Clean, Leaving, Doomed, Reaches, Apply;
    if Clean(g, s) {
      var t := Apply(g, s, Sweep);
      CleanSweepLeaves(g, s);
      StepKeeps(g, s, Sweep);
      forall u | Reaches(g, t, u)
        ensures !Doomed(g, u)
      {
        ReachedLeaves(g, t, u);
        ReachesSelf(g, u);
        CanFinish(g, u, u);
        NotDoomed(g, u);
      }
      ReachesSelf(g, t);
    } else {
      UncleanIsLost(g, s);
    }
  }

  lemma ReachedLeaves(g: Setting, s: Stop, t: Stop)
    requires ConfigOk(g.c) && StopInv(g.c, s) && Leaving(g, s) && Reaches(g, s, t)
    ensures StopInv(g.c, t) && Leaving(g, t)
  {
    hide StopInv, Leaving;
    var ss, es :| RunFrom(g, s, ss, es) && ss[|es|] == t;
    RunLeaves(g, s, ss, es, |es|);
  }

  lemma NotDoomed(g: Setting, s: Stop)
    requires exists t :: Reaches(g, s, t) && t.numDeleted == g.c.n
    ensures !Doomed(g, s)
  {
    var t :| Reaches(g, s, t) && t.numDeleted == g.c.n;
    var ss, es :| RunFrom(g, s, ss, es) && ss[|es|] == t;
  }

  // ------------------------------------------------------------------ a stop that fails

  /** Two objects: `a` is active and `b` waits for the same action. */
  function Waiting(g: Setting, a: nat): Stop {
    Start(g.c).(pool := Pool([], [0], [1], {}, [a, a], seq(2, _ => g.c.maxSockets), {a}, false))
  }

  lemma WaitingReached(g: Setting, a: nat)
    requires g.c.n == 2 && g.c.maxSockets <= a && a != g.c.selectId
    ensures Reaches(g, Start(g.c), Waiting(g, a))
  {
    hide Reaches;
    var s := Start(g.c);
    ReachesSelf(g, s);
    Then(g, s, s, Request(a, g.c.maxSockets, false));
    var p := s.pool;
    assert p.free == [0, 1];
    var q := p.(free := [1], active := [0], act := [a, 0], bits := {a});
    assert p.free[1..] == [1] && p.act[0 := a] == [a, 0] && [0] + p.active == [0] && p.bits + {a} == {a};
    assert DoAlloc(g.c, p, a, g.c.maxSockets, false) == q;
    var t := s.(pool := q);
    Then(g, s, t, Request(a, g.c.maxSockets, false));
    assert q.free[1..] == [] && q.act[1 := a] == [a, a] && [1] + q.pending == [1];
    assert DoAlloc(g.c, q, a, g.c.maxSockets, false) == Waiting(g, a).pool;
    assert Apply(g, t, Request(a, g.c.maxSockets, false)) == Waiting(g, a);
  }

  /** The owner has released it and `b` has been woken. */
  function HandedOver(g: Setting, a: nat): Stop {
    Start(g.c).(pool := Pool([0], [], [], {1}, [0, a], seq(2, _ => g.c.maxSockets), {}, false))
  }

  lemma HandedOverReached(g: Setting, a: nat)
    requires g.c.n == 2 && g.c.maxSockets <= a && a != g.c.selectId
    ensures Reaches(g, Start(g.c), HandedOver(g, a))
  {
    hide Reaches, DoRelease;
    var s, t := Start(g.c), Waiting(g, a);
    WaitingReached(g, a);
    Then(g, s, t, Complete(0));
    t := t.(signalled := {0});
    assert {} + {0} == {0};
    Then(g, s, t, TestInRelease(0));
    t := t.(signalled := {}, releasing := {0});
    assert {0} - {0} == {};
    Then(g, s, t, FinishRelease(0));
    ReleasesTo(g, a);
    assert Apply(g, t, FinishRelease(0)) == HandedOver(g, a);
  }

  lemma ReleasesTo(g: Setting, a: nat)
    requires g.c.n == 2 && g.c.maxSockets <= a && a != g.c.selectId
    ensures DoRelease(g.c, Waiting(g, a).pool, 0) == HandedOver(g, a).pool
  {
    var p := Waiting(g, a).pool;
    assert FirstMatch(g.c, p, p.pending, 0) == 0;
    assert Without(p.pending, 0) == [] && {} + {1} == {1};
    assert IndexOf([0], 0) == 0 && Minus([0], 0) == [];
    assert p.act[0 := 0] == [0, a] && p.sock[0 := g.c.maxSockets] == p.sock && [0] + p.free == [0] && {a} - {a} == {};
  }

  /** `b` finds the flag down; then the device is stopped. */
  lemma ThenStops(g: Setting, s: Stop)
    requires Reaches(g, Start(g.c), s) && Ready(g.c, s) && s.pool.woken == {1}
    requires s.tested == {} && s.gone == {} && !s.stopping
    ensures Reaches(g, Start(g.c), s.(tested := {1}, stopping := true))
  {
    hide Reaches;
    Then(g, Start(g.c), s, TestAfterWake(1));
    assert {} + {1} == {1};
    var t := s.(tested := {1});
    Then(g, Start(g.c), t, SetStopping);
  }

  /** The waiter alone, with the object it waited for free: the sweep is clean exactly if the
      operation it goes on to ends by itself. */
  lemma LoneWaiter(g: Setting, a: nat) returns (s: Stop)
    requires ConfigOk(g.c) && g.c.n == 2 && g.c.maxSockets <= a && a != g.c.selectId
    ensures Reaches(g, Start(g.c), s) && Enabled(g, s, Sweep) && Ready(g.c, s) && s.tested == {1} && s.pool.free == [0]
    ensures Doomed(g, Apply(g, s, Sweep)) <==> !g.answers
  {
    hide Reaches, Doomed;
    HandedOverReached(g, a);
    ThenStops(g, HandedOver(g, a));
    s := HandedOver(g, a).(tested := {1}, stopping := true);
    ReachedInv(g, s);
    StopFailsIff(g, s);
    assert Clean(g, s) <==> g.answers by {
      assert g.answers ==> ContendsAlone(g.c, s, 1);
    }
  }

  /** Another request takes the action in between. */
  function BargedIn(g: Setting, a: nat): Stop {
    Start(g.c).(pool := Pool([], [0], [], {1}, [a, a], seq(2, _ => g.c.maxSockets), {a}, false))
  }

  lemma BargedInReached(g: Setting, a: nat)
    requires g.c.n == 2 && g.c.maxSockets <= a && a != g.c.selectId
    ensures Reaches(g, Start(g.c), BargedIn(g, a))
  {
    hide Reaches;
    HandedOverReached(g, a);
    var t := HandedOver(g, a);
    Then(g, Start(g.c), t, Request(a, g.c.maxSockets, false));
    var p := t.pool;
    assert p.free[1..] == [] && p.act[0 := a] == [a, a] && [0] + p.active == [0] && p.bits + {a} == {a};
    assert Apply(g, t, Request(a, g.c.maxSockets, false)) == BargedIn(g, a);
  }

  /** Then the waiter passes its test of the flag, the sweep passes, the waiter goes to sleep
      unsignalled, and the stop command waits for ever. */
  lemma BargedStop(g: Setting, a: nat) returns (s: Stop)
    requires ConfigOk(g.c) && g.c.n == 2 && g.c.maxSockets <= a && a != g.c.selectId
    ensures Reaches(g, Start(g.c), s) && Enabled(g, s, Sweep) && Ready(g.c, s) && s.releasing == {}
    ensures Doomed(g, Apply(g, s, Sweep))
    ensures var t := Apply(g, s, Sweep); 1 in t.tested && Ready(g.c, t) && PendsUnsignalled(g, t, 1)
  {
    hide Reaches, Doomed, PendsUnsignalled;
    BargedInReached(g, a);
    ThenStops(g, BargedIn(g, a));
    s := BargedIn(g, a).(tested := {1}, stopping := true);
    ReachedInv(g, s);
    assert !ContendsAlone(g.c, s, 1);
    StopFailsIff(g, s);
    BusyPends(g, Apply(g, s, Sweep), 1);
  }

  predicate PendsUnsignalled(g: Setting, t: Stop, i: nat)
    requires Ready(g.c, t) && i in t.tested
  {
    var u := Apply(g, t, Contend(i));
    i in u.pool.pending && i !in u.signalled
  }

  lemma BusyPends(g: Setting, t: Stop, i: nat)
    requires Ready(g.c, t) && i in t.tested && i !in t.signalled
    requires Busy(g.c, t.pool.bits, t.pool.act[i], t.pool.sock[i])
    ensures PendsUnsignalled(g, t, i)
  {
  }

  lemma ReachedInv(g: Setting, s: Stop)
    requires ConfigOk(g.c) && Reaches(g, Start(g.c), s)
    ensures StopInv(g.c, s)
  {
    hide StopInv;
    StartInv(g.c);
    var ss, es :| RunFrom(g, Start(g.c), ss, es) && ss[|es|] == s;
    RunKeeps(g, Start(g.c), ss, es, |es|);
  }
}
