/**
 How one step carries the invariant over: what the other threads keep, the lock words, the
 counter equation, and the lemma that puts a step together.
 */
module LockSafety {
  import opened Base
  import opened MetaWord
  import opened Slots
  import opened Hashing
  import opened Stores
  import opened Views
  import opened LockSys
  import opened LockSteps
  import Cells
  import N = RawRuns

  // ---------------------------------------------------------------------
  // Other threads
  // ---------------------------------------------------------------------

  /** Outside bucket `b` words, slots, stamps and the pairs of live slots are unchanged. */
  ghost predicate KeptMem(st: Store, dirty: set<Loc>, st': Store, dirty': set<Loc>, b: nat)
    requires Shape(st) && Shape(st')
  {
    && |st'.buckets| == |st.buckets| && st'.bits == st.bits
    && (forall x :: 0 <= x < |st.buckets| && x != b ==> st'.buckets[x] == st.buckets[x])
    && (forall m :: InRange(st, m) && m.b != b ==> TtlAt(st', m) == TtlAt(st, m))
    && (forall m :: InRange(st, m) && m.b != b ==> (m in dirty <==> m in dirty'))
    && (forall m :: Live(st, dirty, m) && m.b != b ==> KvAt(st', m) == KvAt(st, m))
  }

  lemma KeptHolding(st: Store, dirty: set<Loc>, st': Store, dirty': set<Loc>, b: nat, m: Loc, key: Bytes)
    requires Shape(st) && Shape(st') && KeptMem(st, dirty, st', dirty', b) && m.b != b
    ensures Live(st', dirty', m) <==> Live(st, dirty, m)
    ensures Holding(st', dirty', m, key) <==> Holding(st, dirty, m, key)
  {
    hide RecAt, KvAt;
  }

  lemma KeptNone(st: Store, dirty: set<Loc>, st': Store, dirty': set<Loc>, b: nat, x: nat, n: nat, key: Bytes)
    requires Shape(st) && Shape(st') && KeptMem(st, dirty, st', dirty', b) && x != b
    ensures NoneBelow(st, dirty, x, n, key) ==> NoneBelow(st', dirty', x, n, key)
  {
    hide Holding, KeptMem;
    forall j: nat | j < n ensures Holding(st', dirty', Loc(x, j), key) <==> Holding(st, dirty, Loc(x, j), key) {
      KeptHolding(st, dirty, st', dirty', b, Loc(x, j), key);
    }
  }

  /** A thread in another bucket section, or in none, still has what it relies on. */
  lemma KeptThread(st: Store, dirty: set<Loc>, st': Store, dirty': set<Loc>, layout: nat, c: Config, b: nat, th: Thread)
    requires Shape(st) && Shape(st') && KeptMem(st, dirty, st', dirty', b)
    requires ThreadOk(st, dirty, layout, c, th) && (InBucket(th.pc) ==> th.b != b)
    ensures ThreadOk(st', dirty', layout, c, th)
  {
    hide RecAt, KvAt, Holding, NoneBelow, Live, IndexOf, H2Of, Mode, CeilBits, Pow2;
    if InBucket(th.pc) {
      var key := KeyOf(th.op);
      forall n: nat ensures NoneBelow(st, dirty, th.b, n, key) ==> NoneBelow(st', dirty', th.b, n, key) {
        KeptNone(st, dirty, st', dirty', b, th.b, n, key);
      }
      forall i: nat
        ensures Live(st', dirty', Loc(th.b, i)) <==> Live(st, dirty, Loc(th.b, i))
        ensures Holding(st', dirty', Loc(th.b, i), key) <==> Holding(st, dirty, Loc(th.b, i), key)
      {
        KeptHolding(st, dirty, st', dirty', b, Loc(th.b, i), key);
      }
      LiveRange(st, dirty);
    }
  }

  lemma LiveRange(st: Store, dirty: set<Loc>)
    ensures forall m :: Live(st, dirty, m) ==> InRange(st, m)
  {
    hide RecAt;
  }

  // ---------------------------------------------------------------------
  // Putting a step together
  // ---------------------------------------------------------------------

  function One(p: bool): int { if p then 1 else 0 }

  lemma AddsMove(threads: map<nat, Thread>, t: nat, th': Thread)
    ensures var was := t in threads && AddPending(threads[t]);
            |Adds(threads[t := th'])| == |Adds(threads)| - One(was) + One(AddPending(th'))
  {
    hide AddPending;
    var a, a' := Adds(threads), Adds(threads[t := th']);
    assert a' - {t} == a - {t};
    assert t in a' <==> AddPending(th');
    if t in a { assert a == (a - {t}) + {t}; }
    if t in a' { assert a' == (a' - {t}) + {t}; }
  }

  lemma SubsMove(threads: map<nat, Thread>, t: nat, th': Thread)
    ensures var was := t in threads && SubPending(threads[t]);
            |Subs(threads[t := th'])| == |Subs(threads)| - One(was) + One(SubPending(th'))
  {
    hide SubPending;
    var a, a' := Subs(threads), Subs(threads[t := th']);
    assert a' - {t} == a - {t};
    assert t in a' <==> SubPending(th');
    if t in a { assert a == (a - {t}) + {t}; }
    if t in a' { assert a' == (a' - {t}) + {t}; }
  }

  /** Same locks, threads and layout. */
  predicate SameFrame(s: Sys, s1: Sys) {
    && s1.readers == s.readers && s1.writer == s.writer && s1.locks == s.locks && s1.slab == s.slab && s1.epochs == s.epochs
    && s1.threads == s.threads
  }

  function RewritingSet(th: Thread): set<Loc> { if Rewriting(th).Some? then {Rewriting(th).value} else {} }

  lemma RelockedElsewhere(s: Sys, t: nat, h: Holds, h': Holds, x: nat)
    requires BucketsOk(s) && h == HoldsOf(Th(s, t)) && CanTake(s, h, h') && x in s.locks && s.locks[x] != t
    ensures x in Relocked(s.locks, t, h.bucket, h'.bucket) && Relocked(s.locks, t, h.bucket, h'.bucket)[x] == s.locks[x]
  {
    hide HoldsOf;
  }

  lemma DirtyKept(s: Sys, s1: Sys, t: nat, th': Thread)
    requires LockOk(s) && DirtyOk(s) && SameFrame(s, s1) && CanTake(s, HoldsOf(Th(s, t)), HoldsOf(th'))
    requires s1.dirty == (s.dirty - RewritingSet(Th(s, t))) + RewritingSet(th')
    ensures DirtyOk(Relock(s1, t, th'))
  {
    var s' := Relock(s1, t, th');
    var h, h' := HoldsOf(Th(s, t)), HoldsOf(th');
    DirtyKeptAt(s, s1, t, th', h, h');
  }

  lemma DirtyKeptAt(s: Sys, s1: Sys, t: nat, th': Thread, h: Holds, h': Holds)
    requires LockOk(s) && DirtyOk(s) && SameFrame(s, s1) && h == HoldsOf(Th(s, t)) && h' == HoldsOf(th') && CanTake(s, h, h')
    requires s1.dirty == (s.dirty - RewritingSet(Th(s, t))) + RewritingSet(th')
    requires Rewriting(th').Some? ==> h'.bucket == Some(th'.b) && Rewriting(th').value.b == th'.b
    ensures DirtyOk(Relock(s1, t, th'))
  {
    hide HoldsOf, Rewriting, Mutex;
    var s' := Relock(s1, t, th');
    RelockTh(s1, t, th');
    forall l | l in s1.dirty ensures l.b in s'.locks && Rewriting(Th(s', s'.locks[l.b])) == Some(l) {
      if l !in RewritingSet(th') {
        assert l in s.dirty && s.locks[l.b] != t;
        RelockedElsewhere(s, t, h, h', l.b);
      }
    }
  }

  lemma ThreadsKept(env: Env, s: Sys, s1: Sys, t: nat, th': Thread, b: nat)
    requires Shape(s.st) && Shape(s1.st) && BucketsOk(s) && AllThreadsOk(env, s) && SameFrame(s, s1) && s1.layout == s.layout
    requires KeptMem(s.st, s.dirty, s1.st, s1.dirty, b)
    requires (s1.st == s.st && s1.dirty == s.dirty) || HoldsOf(Th(s, t)).bucket == Some(b)
    requires ThreadOk(s1.st, s1.dirty, s1.layout, env.c, th')
    ensures AllThreadsOk(env, Relock(s1, t, th'))
  {
    hide ThreadOk, KeptMem, Relocked, Mutex;
    RelockTh(s1, t, th');
    forall u: nat ensures ThreadOk(s1.st, s1.dirty, s1.layout, env.c, Th(Relock(s1, t, th'), u)) {
      assert ThreadOk(s.st, s.dirty, s.layout, env.c, Th(s, u));
      if u != t && !(s1.st == s.st && s1.dirty == s.dirty) {
        assert HoldsOf(Th(s, u)).bucket != Some(b);
        KeptThread(s.st, s.dirty, s1.st, s1.dirty, s.layout, env.c, b, Th(s, u));
      }
    }
  }

  /** The count equation after a step, from how the step changed each side. */
  lemma CountKept(s: Sys, s1: Sys, t: nat, th': Thread)
    requires Shape(s.st) && Shape(s1.st) && CountOk(s) && SameFrame(s, s1)
    requires s1.count - s.count + One(AddPending(th')) - One(AddPending(Th(s, t))) ==
             N.Occupied(View(s1.st)) - N.Occupied(View(s.st)) + One(SubPending(th')) - One(SubPending(Th(s, t)))
    ensures CountOk(Relock(s1, t, th'))
  {
    hide View, N.Occupied, Adds, Subs, HoldsOf;
    AddsMove(s.threads, t, th');
    SubsMove(s.threads, t, th');
  }

  lemma Assemble(env: Env, s: Sys, s1: Sys, t: nat, th': Thread, b: nat)
    requires Inv(env, s) && SameFrame(s, s1) && s1.layout == s.layout && CanTake(s, HoldsOf(Th(s, t)), HoldsOf(th'))
    requires Good(s1.st, env.c, s1.dirty) && KeptMem(s.st, s.dirty, s1.st, s1.dirty, b)
    requires (s1.st == s.st && s1.dirty == s.dirty) || HoldsOf(Th(s, t)).bucket == Some(b)
    requires ThreadOk(s1.st, s1.dirty, s1.layout, env.c, th')
    requires QueueOk(s1.st, s1.layout, s1.queue) && LogOk(s1)
    requires s1.dirty == (s.dirty - RewritingSet(Th(s, t))) + RewritingSet(th')
    requires s1.count - s.count + One(AddPending(th')) - One(AddPending(Th(s, t))) ==
             N.Occupied(View(s1.st)) - N.Occupied(View(s.st)) + One(SubPending(th')) - One(SubPending(Th(s, t)))
    ensures Inv(env, Relock(s1, t, th'))
  {
    hide LockOk, Good, AllThreadsOk, ThreadOk, KeptMem, QueueOk, LogOk, CountOk, DirtyOk, View, N.Occupied, RewritingSet,
         AddPending, SubPending, HoldsOf, CanTake;
    FrameLocks(s, s1);
    GoodShape(s.st, env.c, s.dirty);
    GoodShape(s1.st, env.c, s1.dirty);
    RelockOk(s1, t, th') by { FrameCanTake(s, s1, t, th'); }
    assert BucketsOk(s) by { LocksSplit(s); }
    ThreadsKept(env, s, s1, t, th', b);
    DirtyKept(s, s1, t, th');
    CountKept(s, s1, t, th');
    RelockRest(s1, t, th');
  }

  lemma LocksSplit(s: Sys)
    requires LockOk(s)
    ensures RwOk(s) && BucketsOk(s) && MutexesOk(s)
  {}

  lemma FrameLocks(s: Sys, s1: Sys)
    requires LockOk(s) && SameFrame(s, s1)
    ensures LockOk(s1) && forall t: nat :: Th(s1, t) == Th(s, t)
  {
    hide HoldsOf;
    assert forall t: nat :: Th(s1, t) == Th(s, t);
  }

  lemma FrameCanTake(s: Sys, s1: Sys, t: nat, th': Thread)
    requires SameFrame(s, s1) && CanTake(s, HoldsOf(Th(s, t)), HoldsOf(th'))
    ensures CanTake(s1, HoldsOf(Th(s1, t)), HoldsOf(th'))
  {
    hide HoldsOf;
  }

  /** Moving locks and threads leaves the rest of the state alone. */
  lemma RelockRest(s1: Sys, t: nat, th': Thread)
    ensures var s' := Relock(s1, t, th');
            && s'.st == s1.st && s'.dirty == s1.dirty && s'.layout == s1.layout && s'.queue == s1.queue && s'.log == s1.log
            && (Shape(s1.st) ==> (LogOk(s') <==> LogOk(s1)))
  {
    hide HoldsOf, Current, HitsOk;
  }

  lemma KeptSame(st: Store, dirty: set<Loc>, b: nat)
    requires Shape(st)
    ensures KeptMem(st, dirty, st, dirty, b)
  {
    hide RecAt, KvAt;
  }

  /** Steps that touch nothing but locks, program counters, the epoch and statistics. */
  lemma QuietStep(env: Env, s: Sys, s1: Sys, t: nat, th': Thread)
    requires Inv(env, s) && SameFrame(s, s1) && s1.layout == s.layout && CanTake(s, HoldsOf(Th(s, t)), HoldsOf(th'))
    requires s1.st == s.st && s1.dirty == s.dirty && s1.log == s.log && s1.queue == s.queue
    requires ThreadOk(s.st, s.dirty, s.layout, env.c, th') && Rewriting(th') == Rewriting(Th(s, t))
    requires RewritingSet(th') <= s.dirty
    requires s1.count - s.count + One(AddPending(th')) - One(AddPending(Th(s, t))) == One(SubPending(th')) - One(SubPending(Th(s, t)))
    ensures Inv(env, Relock(s1, t, th'))
  {
    hide LockOk, Good, AllThreadsOk, ThreadOk, KeptMem, QueueOk, CountOk, DirtyOk, View, N.Occupied,
         AddPending, SubPending, HoldsOf, CanTake, Current, HitsOk;
    GoodShape(s.st, env.c, s.dirty);
    KeptSame(s.st, s.dirty, 0);
    Assemble(env, s, s1, t, th', 0);
  }

  // ---------------------------------------------------------------------
  // Occupied slots
  // ---------------------------------------------------------------------

  /** Buckets other than `b` hold as many entries as before. */
  lemma {:induction false} OccupiedBut(cells: seq<Cells.Bucket>, cells': seq<Cells.Bucket>, b: nat)
    requires |cells'| == |cells| && forall x :: 0 <= x < |cells| && x != b ==> N.Ones(cells'[x]) == N.Ones(cells[x])
    ensures b >= |cells| ==> N.Occupied(cells') == N.Occupied(cells)
    ensures b < |cells| ==> N.Occupied(cells') == N.Occupied(cells) + N.Ones(cells'[b]) - N.Ones(cells[b])
    decreases |cells|
  {
    hide N.Ones;
    if cells != [] { OccupiedBut(cells[..|cells| - 1], cells'[..|cells| - 1], b); }
  }

  lemma OnesAt(st: Store, b: nat)
    requires Shape(st) && b < |st.buckets|
    ensures N.Ones(View(st)[b]) ==
            One(IsFull(st, Loc(b, 0))) + One(IsFull(st, Loc(b, 1))) + One(IsFull(st, Loc(b, 2))) + One(IsFull(st, Loc(b, 3)))
  {
    hide KvAt, RecAt;
    var v := View(st);
    assert v[b] == BucketAt(st, b);
  }

  /** Slots other than `l` are as full as before. */
  ghost predicate FullBut(st: Store, st': Store, l: Loc)
    requires Shape(st) && Shape(st') && |st'.buckets| == |st.buckets|
  {
    forall m :: InRange(st, m) && m != l ==> IsFull(st', m) == IsFull(st, m)
  }

  lemma FullCount(st: Store, st': Store, l: Loc)
    requires Shape(st) && Shape(st') && |st'.buckets| == |st.buckets| && InRange(st, l) && FullBut(st, st', l)
    ensures N.Occupied(View(st')) == N.Occupied(View(st)) + One(IsFull(st', l)) - One(IsFull(st, l))
  {
    hide View, N.Ones, RecAt, IsFull;
    forall x | 0 <= x < |st.buckets|
      ensures x != l.b ==> N.Ones(View(st')[x]) == N.Ones(View(st)[x])
      ensures x == l.b ==> N.Ones(View(st')[x]) - N.Ones(View(st)[x]) == One(IsFull(st', l)) - One(IsFull(st, l))
    {
      OnesAt(st, x);
      OnesAt(st', x);
      forall i: nat | i < 4 && Loc(x, i) != l ensures IsFull(st', Loc(x, i)) == IsFull(st, Loc(x, i)) {
        assert InRange(st, Loc(x, i));
      }
      assert x == l.b ==> l == Loc(x, l.i);
    }
    OccupiedBut(View(st), View(st'), l.b);
  }
}
