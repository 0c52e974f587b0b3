/** `resize` in the lock-granularity system: stop-the-world, nothing lost. */
module LockGrow {
  import opened Base
  import opened MetaWord
  import opened Slots
  import opened Hashing
  import opened Stores
  import opened Views
  import opened LockSys
  import opened LockSteps
  import opened LockSafety
  import opened LockCases
  import N = RawRuns
  import R = RawSpec
  import H = Rehash
  import G = StoreGrow

  lemma LockFree(s: Sys)
    requires BucketsOk(s) && forall u: nat :: HoldsOf(Th(s, u)).bucket == None
    ensures forall b: nat :: b !in s.locks
  {
    hide HoldsOf;
  }

  /** While a thread rehashes, every thread is outside its read-locked part and nothing is half written. */
  lemma Alone(env: Env, s: Sys, t: nat)
    requires Inv(env, s) && Th(s, t).pc.GrowWork?
    ensures forall u: nat :: Outside(Th(s, u).pc)
    ensures s.dirty == {}
  {
    hide Good, AllThreadsOk, QueueOk, LogOk, CountOk;
    assert HoldsOf(Th(s, t)).write;
    forall u: nat ensures Outside(Th(s, u).pc) && HoldsOf(Th(s, u)).bucket == None {
      assert u !in s.readers;
    }
    LockFree(s);
    assert forall l :: l in s.dirty ==> l.b in s.locks;
  }

  /** With everyone outside no operation is between filling a slot and counting it. */
  lemma NobodyPending(s: Sys)
    requires forall u: nat :: Outside(Th(s, u).pc)
    ensures Adds(s.threads) == {} && Subs(s.threads) == {}
  {
    forall u | u in s.threads ensures !AddPending(s.threads[u]) && !SubPending(s.threads[u]) { assert Outside(Th(s, u).pc); }
  }

  lemma SameItemsCurrent(st: Store, st': Store, log: seq<Logged>)
    requires Shape(st) && Shape(st') && Current(st, {}, log)
    requires forall it :: H.Has(View(st'), it) ==> H.Has(View(st), it)
    ensures Current(st', {}, log)
  {
    hide RecAt, KvAt, View, Latest, TtlAt;
    forall m | Live(st', {}, m) ensures Gave(Latest(log, KvAt(st', m).key), KvAt(st', m).value) {
      ViewAt(st', m);
      var it := H.ItemOf(View(st')[m.b][m.i].e);
      assert H.Present(View(st'), m.b, it);
      assert H.Has(View(st'), it);
      ItemLive(st, it, log);
    }
  }

  /** An item of the view is the pair of a live slot. */
  lemma ItemLive(st: Store, it: H.Item, log: seq<Logged>)
    requires Shape(st) && Current(st, {}, log) && H.Has(View(st), it)
    ensures Gave(Latest(log, it.kv.key), it.kv.value)
  {
    hide RecAt, KvAt, View, Latest, TtlAt;
    var b: nat :| H.Present(View(st), b, it);
    var i :| 0 <= i < 4 && View(st)[b][i].Held? && H.ItemOf(View(st)[b][i].e) == it;
    ViewAt(st, Loc(b, i));
    assert Live(st, {}, Loc(b, i));
  }

  /** The rebuilt table: good, with the same items, and as many as were counted. */
  lemma GrownStore(st: Store, c: Config, bits: nat)
    requires Good(st, c, {}) && Pow2(st.bits) < Pow2(bits) <= MAX_BUCKETS
    ensures var r := G.Fill(c, bits, H.Items(View(st)));
            && r.Some? && Good(r.value, c, {}) && r.value.bits == bits
            && (forall it :: H.Has(View(r.value), it) <==> H.Has(View(st), it))
            && H.PlaceAll(c, bits, H.Items(View(st))) == Some(View(r.value))
            && |H.Items(View(st))| == N.Occupied(View(st)) == N.Occupied(View(r.value))
  {
    hide Good, View, H.PlaceAll, H.Items, N.Occupied, IndexOf, G.Fill, H.Has;
    GoodShape(st, c, {});
    G.GoodCells(st, c);
    SmallerBits(st.bits, bits);
    var cells := View(st);
    H.GrowthFits(c, st.bits, bits, cells);
    H.ItemsDistinct(cells);
    G.FillIsPlaceAll(c, bits, H.Items(cells));
    var m := R.Map(st.bits, cells, 0, 0, N.Occupied(cells), 0);
    H.GrowthKeepsItems(c, m, bits);
    H.ItemsCount(cells);
  }

  /** Threads outside the read-locked part rely on nothing of the table. */
  lemma OutsideOk(st: Store, dirty: set<Loc>, layout: nat, st': Store, dirty': set<Loc>, layout': nat, c: Config, th: Thread)
    requires Shape(st) && Shape(st') && Outside(th.pc) && ThreadOk(st, dirty, layout, c, th)
    ensures ThreadOk(st', dirty', layout', c, th)
  {
    hide CeilBits, Pow2, IndexOf;
  }

  lemma GrowThreads(env: Env, s: Sys, s1: Sys, t: nat, th': Thread)
    requires Shape(s.st) && Shape(s1.st) && AllThreadsOk(env, s) && SameFrame(s, s1)
    requires forall u: nat :: Outside(Th(s, u).pc)
    requires ThreadOk(s1.st, s1.dirty, s1.layout, env.c, th')
    ensures AllThreadsOk(env, Relock(s1, t, th'))
  {
    hide ThreadOk, Relocked, Mutex;
    RelockTh(s1, t, th');
    forall u: nat ensures ThreadOk(s1.st, s1.dirty, s1.layout, env.c, Th(Relock(s1, t, th'), u)) {
      OutsideOk(s.st, s.dirty, s.layout, s1.st, s1.dirty, s1.layout, env.c, Th(s, u));
    }
  }

  lemma GrowCount(s: Sys, s1: Sys, t: nat, th': Thread)
    requires Shape(s1.st) && SameFrame(s, s1) && s1.count == N.Occupied(View(s1.st))
    requires Adds(s.threads) == {} && Subs(s.threads) == {} && !AddPending(th') && !SubPending(th')
    ensures CountOk(Relock(s1, t, th'))
  {
    hide View, N.Occupied, HoldsOf, AddPending, SubPending;
    assert Adds(s.threads[t := th']) == {} by {
      forall u | u in s.threads ensures !AddPending(s.threads[u]) { assert u !in Adds(s.threads); }
    }
    assert Subs(s.threads[t := th']) == {} by {
      forall u | u in s.threads ensures !SubPending(s.threads[u]) { assert u !in Subs(s.threads); }
    }
  }

  /** The counter `resize` stores is the one already there. */
  lemma GrowStoresCount(env: Env, s: Sys, t: nat)
    requires Inv(env, s) && Th(s, t).pc.GrowWork?
    ensures Good(s.st, env.c, {}) && s.count == N.Occupied(View(s.st))
  {
    hide Good, LockOk, AllThreadsOk, QueueOk, LogOk, DirtyOk, N.Occupied, View, Adds, Subs;
    Alone(env, s, t);
    NobodyPending(s);
  }

  /** A rehash that grows the table. */
  lemma GrowNow(env: Env, s: Sys, t: nat, n: nat, th': Thread)
    requires Inv(env, s) && Th(s, t).pc == GrowWork(n) && Pow2(CeilBits(n)) <= MAX_BUCKETS
    requires Shape(s.st) && Pow2(s.st.bits) < Pow2(CeilBits(n))
    requires th' == Th(s, t).(pc := th'.pc) && (th'.pc.Idle? || th'.pc.Advance?) && CanTake(s, HoldsOf(Th(s, t)), HoldsOf(th'))
    requires Shape(GrowStep(env, s, n).st) && ThreadOk(GrowStep(env, s, n).st, {}, s.layout + 1, env.c, th')
    ensures Inv(env, Relock(GrowStep(env, s, n), t, th'))
  {
    hide Good, LockOk, AllThreadsOk, ThreadOk, QueueOk, CountOk, DirtyOk, HitsOk, Current, N.Occupied, View, Adds, Subs, HoldsOf, CanTake,
         G.Fill, H.Items, H.Has, CeilBits, Pow2, RewritingSet;
    Alone(env, s, t);
    NobodyPending(s);
    GrowStoresCount(env, s, t);
    GrownStore(s.st, env.c, CeilBits(n));
    var s1 := GrowStep(env, s, n);
    SameItemsCurrent(s.st, s1.st, s.log);
    FrameLocks(s, s1);
    RelockOk(s1, t, th') by { FrameCanTake(s, s1, t, th'); }
    GrowThreads(env, s, s1, t, th');
    GrowCount(s, s1, t, th');
    RelockRest(s1, t, th');
    assert DirtyOk(Relock(s1, t, th')) by { NothingDirty(Relock(s1, t, th')); }
    assert QueueOk(s1.st, s1.layout, []) by { NoQueue(s1.st, s1.layout); }
  }

  lemma NothingDirty(s: Sys)
    requires s.dirty == {}
    ensures DirtyOk(s)
  {}

  lemma NoQueue(st: Store, layout: nat)
    ensures QueueOk(st, layout, [])
  {}

  lemma GrowWorkStep(env: Env, s: Sys, t: nat, lossy: bool)
    requires Inv(env, s) && Th(s, t).pc.GrowWork?
    requires ThreadOk(s.st, s.dirty, s.layout, env.c, Th(s, t))
    requires CanTake(s, HoldsOf(Th(s, t)), HoldsOf(Next(env, s, t, lossy).1))
    ensures Inv(env, Relock(Next(env, s, t, lossy).0, t, Next(env, s, t, lossy).1))
  {
    hide Good, LockOk, AllThreadsOk, QueueOk, CountOk, DirtyOk, LogOk, HoldsOf, CanTake, G.Fill, H.Items, CeilBits, Pow2, Relock,
         IndexOf;
    GoodShape(s.st, env.c, s.dirty);
    var (s1, th') := Next(env, s, t, lossy);
    var n := Th(s, t).pc.n;
    if Pow2(s.st.bits) < Pow2(CeilBits(n)) {
      Alone(env, s, t);
      GrownStore(s.st, env.c, CeilBits(n));
      GoodShape(s1.st, env.c, {});
      GrowNow(env, s, t, n, th');
    } else {
      QuietStep(env, s, s1, t, th');
    }
  }

  /**
   Wherever a resize happens in a run: the map gets exactly the requested power of two (or
   stays, if it is already that large), keeps every item with its stamp, and stores the
   counter already there.  A new bucket has its items in its first cells in the order of the
   old slots, each as if fresh.
   */
  lemma GrowStepLosesNothing(env: Env, s: Sys, t: nat)
    requires Inv(env, s) && Th(s, t).pc.GrowWork? && Pow2(CeilBits(Th(s, t).pc.n)) <= MAX_BUCKETS
    ensures Shape(s.st) && Good(GrowStep(env, s, Th(s, t).pc.n).st, env.c, {})
    ensures var bits, s' := CeilBits(Th(s, t).pc.n), GrowStep(env, s, Th(s, t).pc.n);
            && (if Pow2(bits) > Pow2(s.st.bits) then s'.st.bits == bits && s'.queue == [] && s'.layout == s.layout + 1 else s' == s)
            && s'.count == s.count
            && (forall it :: H.Has(View(s'.st), it) <==> H.Has(View(s.st), it))
            && (Pow2(bits) > Pow2(s.st.bits) ==> forall b: nat :: b < Pow2(bits) ==>
                  H.Packed(View(s'.st)[b], H.Wanting(env.c, bits, H.Items(View(s.st)), b)))
  {
    hide Inv, Good, G.Fill, H.Items, H.Has, View, N.Occupied, CeilBits, Pow2, Th, H.PlaceAll, H.Packed, H.Wanting;
    GrowStoresCount(env, s, t);
    assert s.dirty == {} by { Alone(env, s, t); }
    GoodShape(s.st, env.c, {});
    if Pow2(CeilBits(Th(s, t).pc.n)) > Pow2(s.st.bits) {
      GrownStore(s.st, env.c, CeilBits(Th(s, t).pc.n));
      var bits, cells := CeilBits(Th(s, t).pc.n), View(s.st);
      forall b: nat | b < Pow2(bits) ensures H.Packed(H.PlaceAll(env.c, bits, H.Items(cells)).value[b], H.Wanting(env.c, bits, H.Items(cells), b)) {
        H.PlacedInOrder(env.c, bits, H.Items(cells), b);
      }
    }
  }
}
