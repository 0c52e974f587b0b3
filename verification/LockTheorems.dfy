/**
 What every reachable state of the lock-granularity system has: current hits, owned slab
 entries, an exact counter and events in range.
 */
module LockTheorems {
  import opened Base
  import opened MetaWord
  import opened Slots
  import opened Hashing
  import opened Stores
  import opened Views
  import opened LockSys
  import opened LockSteps
  import opened LockSafety
  import opened LockCases
  import opened LockRuns
  import Cells
  import N = RawRuns
  import E = LockEffects
  import W = LockWrites
  import H = Rehash
  import G = StoreGrow

  // ---------------------------------------------------------------------
  // Hits are current
  // ---------------------------------------------------------------------

  /**
   In any interleaving of insert, get, peek, remove and resize, a hit returns the value of
   the latest insert of its key with no later remove: never another key's, never an older one.
   */
  lemma HitsAreCurrent(env: Env, bits: nat, acts: seq<Action>)
    requires Pow2(bits) <= MAX_BUCKETS
    ensures var log := Run(env, bits, acts).log;
            forall p :: 0 <= p < |log| && log[p].Hit? ==> Gave(Latest(log[..p], log[p].key), log[p].value)
  {
    hide Run, Good, LockOk, AllThreadsOk, QueueOk, CountOk, DirtyOk, Current, Latest, Pow2;
    var s := Run(env, bits, acts);
    GoodShape(s.st, env.c, s.dirty);
    assert HitsOk(s.log);
  }

  /** A scan that came to the end of the key's bucket missed nothing there, and the key is nowhere else. */
  ghost predicate TrueMiss(s: Sys, t: nat)
    requires Shape(s.st)
  {
    var th := Th(s, t);
    && (forall i: nat :: i < 4 ==> Loc(th.b, i) !in s.dirty)
    && (forall m :: Live(s.st, s.dirty, m) ==> KvAt(s.st, m).key != KeyOf(th.op))
  }

  /** A lookup, insert or remove takes the "not found" path only when no slot holds the key. */
  lemma MissesAreTrue(env: Env, bits: nat, acts: seq<Action>)
    requires Pow2(bits) <= MAX_BUCKETS
    ensures var s := Run(env, bits, acts);
            Shape(s.st) && forall t: nat :: Th(s, t).pc == Scan(4) ==> TrueMiss(s, t)
  {
    hide Run, Inv, Good, NoneBelow, Live, KvAt, IndexOf, Pow2;
    var s := Run(env, bits, acts);
    InvGood(env, s);
    GoodShape(s.st, env.c, s.dirty);
    forall t: nat | Th(s, t).pc == Scan(4) ensures TrueMiss(s, t) {
      InvParts(env, s, t);
      W.NowhereLive(s.st, env.c, s.dirty, Th(s, t).b, KeyOf(Th(s, t).op));
      forall i: nat | i < 4 ensures Loc(Th(s, t).b, i) !in s.dirty { OwnBucketClean(env, s, t, Loc(Th(s, t).b, i)); }
    }
  }

  /** `log'` is `log`, perhaps with one entry of the key added. */
  predicate OneMore(log: seq<Logged>, log': seq<Logged>, key: Bytes) {
    log' == log || (|log'| == |log| + 1 && log'[..|log|] == log && log'[|log|].key == key)
  }

  lemma AppendOne(log: seq<Logged>, e: Logged)
    ensures OneMore(log, log + [e], e.key)
  {
    assert (log + [e])[..|log|] == log;
  }

  lemma NextLogs(env: Env, s: Sys, t: nat, lossy: bool)
    requires Good(s.st, env.c, s.dirty) && ThreadOk(s.st, s.dirty, s.layout, env.c, Th(s, t))
    ensures var s1 := Next(env, s, t, lossy).0;
            && OneMore(s.log, s1.log, KeyOf(Th(s, t).op))
            && (!InBucket(Th(s, t).pc) ==> s1.log == s.log)
  {
    hide Good, NoneBelow, Holding, Live, IndexOf, Mode, KvAt, RecAt, H2Of, OneMore,
         AfterMiss, ScanSlot, AfterMatch, Matches, Wrap64, Pushed, Release, ClearStore, PutStore, TouchStore, SetTtl,
         G.Fill, H.Items, StoringOk, FreeingOk, StampOk, EvOk, CeilBits, Pow2, FitsInline;
    GoodShape(s.st, env.c, s.dirty);
    var th := Th(s, t);
    assert OneMore(s.log, s.log, KeyOf(th.op)) by { SameLog(s.log, KeyOf(th.op)); }
    if th.pc.Storing? || th.pc.Allocating? {
      E.StoringThread(s.st, s.dirty, s.layout, env.c, th);
      AppendOne(s.log, Inserted(th.op.kv.key, th.op.kv.value, th.op.ttl));
    } else if th.pc.Stamping? {
      AppendOne(s.log, Stamped(KeyOf(th.op), th.pc.at));
    } else if InBucket(th.pc) {
      AppendOne(s.log, Removed(KeyOf(th.op)));
      forall v: Bytes ensures OneMore(s.log, s.log + [Hit(KeyOf(th.op), v)], KeyOf(th.op)) {
        AppendOne(s.log, Hit(KeyOf(th.op), v));
      }
    }
  }

  lemma SameLog(log: seq<Logged>, key: Bytes)
    ensures OneMore(log, log, key)
  {}

  /** Every log entry is of the acting thread's key and is written while it holds that key's bucket lock. */
  lemma LogsUnderLock(env: Env, s: Sys, t: nat, lossy: bool)
    requires Inv(env, s)
    ensures var s', key := Step(env, s, Go(t, lossy)), KeyOf(Th(s, t).op);
            && OneMore(s.log, s'.log, key)
            && (s'.log != s.log ==> var b := IndexOf(env.c, key, s.st.bits); b in s.locks && s.locks[b] == t)
  {
    hide Good, QueueOk, LogOk, CountOk, DirtyOk, RwOk, MutexesOk, PcOk, CanTake, IndexOf, Next, Relocked, Mutex, OneMore;
    InvParts(env, s, t);
    NextLogs(env, s, t, lossy);
    SameLog(s.log, KeyOf(Th(s, t).op));
    assert InBucket(Th(s, t).pc) ==> HoldsOf(Th(s, t)).bucket == Some(Th(s, t).b);
  }

  // ---------------------------------------------------------------------
  // Slab ownership
  // ---------------------------------------------------------------------

  /** A Full slot that keeps its pair in slab entry `x`. */
  predicate Uses(st: Store, dirty: set<Loc>, l: Loc, x: nat)
    requires Shape(st)
  {
    Live(st, dirty, l) && Mode(SlotAt(st, l)) != 0 && SlabIdx(SlotAt(st, l)) == x
  }

  /**
   Slots outside a rewrite use different entries, none of them free; every other entry is
   free, once; the pool never outgrows four entries a bucket; and only the holder of a
   bucket's lock is rewriting a slot there.
   */
  ghost predicate Owned(s: Sys) {
    && Shape(s.st)
    && (forall l, m, x: nat :: Uses(s.st, s.dirty, l, x) && Uses(s.st, s.dirty, m, x) ==> l == m)
    && (forall x: nat :: x < |s.st.entries| ==> (x in s.st.free <==> !exists l :: Uses(s.st, s.dirty, l, x)))
    && (forall l, x: nat :: Uses(s.st, s.dirty, l, x) ==> x < |s.st.entries|)
    && (forall x :: x in s.st.free ==> x < |s.st.entries|)
    && (forall i, j :: 0 <= i < j < |s.st.free| ==> s.st.free[i] != s.st.free[j])
    && |s.st.entries| <= 4 * |s.st.buckets|
    && (forall l :: l in s.dirty ==> l.b in s.locks && Rewriting(Th(s, s.locks[l.b])) == Some(l))
  }

  lemma UserOwns(st: Store, c: Config, dirty: set<Loc>, l: Loc, x: nat)
    requires Good(st, c, dirty) && Uses(st, dirty, l, x)
    ensures x < |st.owner| == |st.entries| && st.owner[x] == Some(l) && x !in st.free
  {
    hide Mode, SlabIdx, KvAt, RecAt, IndexOf, H2Of, ExtHi, ExtFp;
    assert SlotGood(st, c, l);
    assert OwnerGood(st, dirty, x);
  }

  lemma OwnedOf(s: Sys, c: Config)
    requires Good(s.st, c, s.dirty) && DirtyOk(s)
    ensures Owned(s)
  {
    hide Mode, SlabIdx, KvAt, RecAt, SlotGood, Rewriting, Uses;
    forall l, x: nat | Uses(s.st, s.dirty, l, x) ensures x < |s.st.entries| && s.st.owner[x] == Some(l) && x !in s.st.free {
      UserOwns(s.st, c, s.dirty, l, x);
    }
    forall x: nat | x < |s.st.entries| && x !in s.st.free ensures exists l :: Uses(s.st, s.dirty, l, x) {
      EntryUsed(s.st, s.dirty, x);
    }
  }

  lemma EntryUsed(st: Store, dirty: set<Loc>, x: nat)
    requires Shape(st) && PoolGood(st, dirty) && x < |st.entries| && x !in st.free
    ensures exists l :: Uses(st, dirty, l, x)
  {
    hide Mode, SlabIdx, KvAt, RecAt;
    assert OwnerGood(st, dirty, x);
    assert Uses(st, dirty, st.owner[x].value, x);
  }

  /** Slab ownership holds in every reachable state. */
  lemma SlabOwnership(env: Env, bits: nat, acts: seq<Action>)
    requires Pow2(bits) <= MAX_BUCKETS
    ensures Owned(Run(env, bits, acts))
  {
    hide Run, Good, LockOk, AllThreadsOk, QueueOk, CountOk, LogOk, DirtyOk, Owned, Pow2;
    OwnedOf(Run(env, bits, acts), env.c);
  }

  // ---------------------------------------------------------------------
  // Deferred events
  // ---------------------------------------------------------------------

  /** `st'` differs from `st` at most in access counters. */
  ghost predicate OnlyCounters(st: Store, st': Store)
    requires Shape(st) && Shape(st')
  {
    && |st'.buckets| == |st.buckets| && st'.entries == st.entries && st'.free == st.free
    && forall m :: InRange(st, m) ==>
         && SlotAt(st', m) == SlotAt(st, m) && KvAt(st', m) == KvAt(st, m) && TtlAt(st', m) == TtlAt(st, m)
         && RecOfLoc(st', m).state == RecOfLoc(st, m).state && RecOfLoc(st', m).h2 == RecOfLoc(st, m).h2
  }

  /** The event a drain callback is applying names a slot of the current table and is harmless. */
  ghost predicate EventsCurrent(s: Sys) {
    && Shape(s.st)
    && forall t: nat :: Th(s, t).pc.DrainApply? ==>
         var ev := Th(s, t).pc.ev;
         && ev.loc.b < |s.st.buckets| && ev.loc.i < 4
         && ev.layout == s.layout
         && OnlyCounters(s.st, TouchStore(s.st, ev.loc))
  }

  /**
   Every event reaching the drain callback names a slot of the current table, was recorded
   after the last resize, and changes no state, fingerprint, key, value or TTL.
   */
  lemma EventsAreCurrent(env: Env, bits: nat, acts: seq<Action>)
    requires Pow2(bits) <= MAX_BUCKETS
    ensures EventsCurrent(Run(env, bits, acts))
  {
    hide Run, Good, LockOk, QueueOk, CountOk, LogOk, DirtyOk, Pow2, IndexOf, TouchStore, OnlyCounters;
    var s := Run(env, bits, acts);
    GoodShape(s.st, env.c, s.dirty);
    forall t: nat | Th(s, t).pc.DrainApply?
      ensures InRange(s.st, Th(s, t).pc.ev.loc) && Th(s, t).pc.ev.layout == s.layout
      ensures OnlyCounters(s.st, TouchStore(s.st, Th(s, t).pc.ev.loc))
    {
      assert ThreadOk(s.st, s.dirty, s.layout, env.c, Th(s, t));
      TouchCounters(s.st, env.c, s.dirty, Th(s, t).pc.ev.loc);
    }
  }

  lemma TouchCounters(st: Store, c: Config, dirty: set<Loc>, l: Loc)
    requires Good(st, c, dirty) && InRange(st, l)
    ensures OnlyCounters(st, TouchStore(st, l))
  {
    hide KvAt, RecAt, TtlAt, Good, KeptMem, FullBut, Live, OnAccess;
    GoodShape(st, c, dirty);
    TouchOne(st, c, dirty, l);
  }

  // ---------------------------------------------------------------------
  // The counter
  // ---------------------------------------------------------------------

  /** Members of `a` sit in different occupied buckets, so there are at least that many entries. */
  lemma {:induction false} ManyOccupied(cells: seq<Cells.Bucket>, a: set<nat>, at: map<nat, nat>)
    requires forall t :: t in a ==> t in at && at[t] < |cells| && N.Ones(cells[at[t]]) >= 1
    requires forall t, u :: t in a && u in a && t != u ==> at[t] != at[u]
    ensures |a| <= N.Occupied(cells)
    decreases |cells|
  {
    hide N.Ones;
    if cells == [] {
      assert a == {};
    } else {
      var n := |cells| - 1;
      if t :| t in a && at[t] == n {
        ManyOccupied(cells[..n], a - {t}, at);
        assert a == (a - {t}) + {t};
      } else {
        ManyOccupied(cells[..n], a, at);
      }
    }
  }

  lemma PendingFull(env: Env, s: Sys, t: nat)
    requires Inv(env, s) && t in Adds(s.threads)
    ensures Shape(s.st) && Th(s, t).b < |s.st.buckets| && N.Ones(View(s.st)[Th(s, t).b]) >= 1
    ensures HoldsOf(Th(s, t)).bucket == Some(Th(s, t).b)
  {
    hide Good, LockOk, DirtyOk, QueueOk, LogOk, CountOk, View, N.Ones, RecAt, IndexOf, NoneBelow, IsFull;
    GoodShape(s.st, env.c, s.dirty);
    var th := Th(s, t);
    assert ThreadOk(s.st, s.dirty, s.layout, env.c, th);
    OnesAt(s.st, th.b);
  }

  /** Inserts that have filled a slot but not counted it are no more than the occupied slots. */
  lemma PendingBelow(env: Env, s: Sys)
    requires Inv(env, s)
    ensures Shape(s.st) && |Adds(s.threads)| <= N.Occupied(View(s.st))
  {
    hide Good, AllThreadsOk, DirtyOk, QueueOk, LogOk, View, N.Ones, N.Occupied, HoldsOf, Adds, CountOk, RwOk, MutexesOk;
    GoodShape(s.st, env.c, s.dirty);
    var a := Adds(s.threads);
    var at := map t | t in a :: Th(s, t).b;
    forall t | t in a ensures at[t] < |s.st.buckets| && N.Ones(View(s.st)[at[t]]) >= 1 && HoldsOf(Th(s, t)).bucket == Some(at[t]) {
      PendingFull(env, s, t);
    }
    ManyOccupied(View(s.st), a, at);
  }

  /**
   The counter is the number of occupied slots, up to inserts that have filled a slot but
   not counted it and removes that have vacated one but not counted it; it never
   underflows, and equals the occupied slots whenever nobody is inside an operation.
   */
  ghost predicate CounterOk(s: Sys) {
    && Shape(s.st)
    && s.count + |Adds(s.threads)| == N.Occupied(View(s.st)) + |Subs(s.threads)|
    && s.count >= 0
    && (forall t: nat :: Th(s, t).pc.CountDown? ==> s.count >= 1)
    && ((forall t: nat :: Th(s, t).pc.Idle?) ==> s.count == N.Occupied(View(s.st)))
    && (forall t: nat :: t in Adds(s.threads) + Subs(s.threads) ==> HoldsOf(Th(s, t)).bucket.Some?)
  }

  lemma PendingHold(s: Sys, t: nat)
    requires t in Adds(s.threads) + Subs(s.threads)
    ensures HoldsOf(Th(s, t)).bucket.Some?
  {}

  lemma IdleNonePending(s: Sys)
    requires forall t: nat :: Th(s, t).pc.Idle?
    ensures Adds(s.threads) == {} && Subs(s.threads) == {}
  {
    assert forall t :: t in s.threads ==> Th(s, t).pc.Idle?;
  }

  lemma CountDownPending(s: Sys, t: nat)
    requires Th(s, t).pc.CountDown?
    ensures |Subs(s.threads)| >= 1
  {
    assert t in Subs(s.threads);
  }

  lemma CounterExact(env: Env, bits: nat, acts: seq<Action>)
    requires Pow2(bits) <= MAX_BUCKETS
    ensures CounterOk(Run(env, bits, acts))
  {
    hide Run, Good, LockOk, AllThreadsOk, DirtyOk, QueueOk, LogOk, View, N.Ones, N.Occupied, Pow2, HoldsOf, Adds, Subs;
    var s := Run(env, bits, acts);
    GoodShape(s.st, env.c, s.dirty);
    PendingBelow(env, s);
    forall t: nat | Th(s, t).pc.CountDown? ensures |Subs(s.threads)| >= 1 { CountDownPending(s, t); }
    forall t: nat | t in Adds(s.threads) + Subs(s.threads) ensures HoldsOf(Th(s, t)).bucket.Some? { PendingHold(s, t); }
    if forall t: nat :: Th(s, t).pc.Idle? { IdleNonePending(s); }
  }
}
