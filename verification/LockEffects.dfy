/** Preservation of the lock-protocol invariant by the steps at which operations take effect. */
module LockEffects {
  import opened Base
  import opened MetaWord
  import opened Slots
  import opened Slab
  import opened Hashing
  import opened Stores
  import opened Views
  import opened LockSys
  import opened LockSteps
  import opened LockSafety
  import opened LockCases
  import opened LockWrites
  import Cells
  import N = RawRuns

  // ---------------------------------------------------------------------
  // Hits
  // ---------------------------------------------------------------------

  /** A hit reads the value of a live slot, which is the latest one. */
  lemma HitOk(st: Store, dirty: set<Loc>, log: seq<Logged>, l: Loc, key: Bytes)
    requires Shape(st) && Current(st, dirty, log) && HitsOk(log) && Holding(st, dirty, l, key)
    ensures Current(st, dirty, log + [Hit(key, KvAt(st, l).value)]) && HitsOk(log + [Hit(key, KvAt(st, l).value)])
  {
    hide RecAt, KvAt, Latest, HitsOk;
    var e := Hit(key, KvAt(st, l).value);
    HitsAppend(log, e);
    forall m | Live(st, dirty, m) ensures Gave(Latest(log + [e], KvAt(st, m).key), KvAt(st, m).value) {
      LatestAppend(log, e, KvAt(st, m).key);
    }
  }

  lemma PushedOk(st: Store, layout: nat, queue: seq<Tagged>, ev: Tagged, lossy: bool)
    requires QueueOk(st, layout, queue) && EvOk(st, layout, ev)
    ensures QueueOk(st, layout, Pushed(queue, ev, lossy))
  {
    hide EvOk;
  }

  lemma JudgeThread(st: Store, dirty: set<Loc>, layout: nat, c: Config, th: Thread)
    requires Shape(st) && ThreadOk(st, dirty, layout, c, th) && th.pc.Judge?
    ensures th.pc.i < 4 && Holding(st, dirty, Loc(th.b, th.pc.i), KeyOf(th.op))
    ensures ThreadOk(st, dirty, layout, c, th.(pc := Unlock))
    ensures th.op.Get? ==> ThreadOk(st, dirty, layout, c, th.(pc := WantValue(th.pc.i)))
    ensures th.op.Get? || th.op.Peek?
  {
    hide Holding, IndexOf;
  }

  lemma JudgeStep(env: Env, s: Sys, t: nat, lossy: bool)
    requires Inv(env, s) && Th(s, t).pc.Judge?
    requires ThreadOk(s.st, s.dirty, s.layout, env.c, Th(s, t))
    requires CanTake(s, HoldsOf(Th(s, t)), HoldsOf(Next(env, s, t, lossy).1))
    ensures Inv(env, Relock(Next(env, s, t, lossy).0, t, Next(env, s, t, lossy).1))
  {
    hide Good, NoneBelow, LockOk, DirtyOk, CountOk, AllThreadsOk, CanTake, HoldsOf, QueueOk, Current, HitsOk, IndexOf,
         RecAt, KvAt, Mode, H2Of, Relock, Pushed, Cells.Expired, ThreadOk;
    InvParts(env, s, t);
    var th := Th(s, t);
    JudgeThread(s.st, s.dirty, s.layout, env.c, th);
    var l := Loc(th.b, th.pc.i);
    HitOk(s.st, s.dirty, s.log, l, KeyOf(th.op));
    PushedOk(s.st, s.layout, s.queue, Tagged(l, s.layout), lossy);
    var (s1, th') := Next(env, s, t, lossy);
    NoteStep(env, s, s1, t, th');
  }

  lemma ReadValueStep(env: Env, s: Sys, t: nat, lossy: bool)
    requires Inv(env, s) && Th(s, t).pc.ReadValue?
    requires ThreadOk(s.st, s.dirty, s.layout, env.c, Th(s, t))
    requires CanTake(s, HoldsOf(Th(s, t)), HoldsOf(Next(env, s, t, lossy).1))
    ensures Inv(env, Relock(Next(env, s, t, lossy).0, t, Next(env, s, t, lossy).1))
  {
    hide Good, NoneBelow, LockOk, DirtyOk, CountOk, AllThreadsOk, CanTake, HoldsOf, QueueOk, Current, HitsOk, IndexOf,
         RecAt, KvAt, Mode, H2Of, Relock;
    InvParts(env, s, t);
    var th := Th(s, t);
    HitOk(s.st, s.dirty, s.log, Loc(th.b, th.pc.i), KeyOf(th.op));
    var (s1, th') := Next(env, s, t, lossy);
    NoteStep(env, s, s1, t, th');
  }

  // ---------------------------------------------------------------------
  // Storing a pair
  // ---------------------------------------------------------------------

  /** The word a store leaves announces the key. */
  lemma PutMayPlace(st: Store, c: Config, dirty: set<Loc>, th: Thread, i: nat, kind: Kind)
    requires Good(st, c, dirty) && StoringOk(st, dirty, c, th, i, kind) && th.b == IndexOf(c, KeyOf(th.op), st.bits)
    ensures MayPlace(st, c, dirty, Loc(th.b, i), KeyOf(th.op), PutWord(st, c, Loc(th.b, i), KeyOf(th.op), kind))
    ensures SameBut(st.buckets[th.b].meta, PutWord(st, c, Loc(th.b, i), KeyOf(th.op), kind), i)
  {
    hide RecAt, KvAt, OnAccess, FreshWord, Good, H2Of, IndexOf, NoneBelow;
    var key := KeyOf(th.op);
    NowhereLive(st, c, dirty, th.b, key);
    OnAccessRecs(st.buckets[th.b].meta, i);
    FreshWordRecs(st.buckets[th.b].meta, i, c.hash(key));
  }

  lemma PlaceSlots(st: Store, c: Config, l: Loc, kv: KV, w: bv64)
    requires Shape(st) && InRange(st, l) && FreeListInRange(st)
    ensures var st' := SetMeta(Place(st, c, l, kv), l.b, w);
            && |st'.buckets| == |st.buckets| && st'.bits == st.bits && st'.buckets[l.b].meta == w
            && (forall m :: InRange(st, m) && m != l ==> SlotAt(st', m) == SlotAt(st, m))
            && (forall x :: 0 <= x < |st.buckets| && x != l.b ==> st'.buckets[x] == st.buckets[x]) && st'.ttls == st.ttls
  {
    hide RecAt, AllocIdx, AllocEntries, AllocFree, AllocOwner, SetInline, SetSlab;
  }

  lemma PutFacts(st: Store, c: Config, dirty: set<Loc>, l: Loc, kv: KV, w: bv64)
    requires Good(st, c, dirty) && MayPlace(st, c, dirty, l, kv.key, w)
    requires SameBut(st.buckets[l.b].meta, w, l.i)
    ensures var st', dirty' := SetMeta(Place(st, c, l, kv), l.b, w), dirty - {l};
            && Good(st', c, dirty') && KeptMem(st, dirty, st', dirty', l.b) && |st'.buckets| == |st.buckets| && st'.bits == st.bits
            && Live(st', dirty', l) && KvAt(st', l) == kv && IsFull(st', l) && FullBut(st, st', l)
            && (forall m :: Live(st', dirty', m) && m != l ==> Live(st, dirty, m) && KvAt(st', m) == KvAt(st, m))
  {
    hide RecAt, KvAt, Place, Good;
    GoodShape(st, c, dirty);
    PlaceGood(st, c, dirty, l, kv, w);
    PlaceSlots(st, c, l, kv, w);
    var st' := SetMeta(Place(st, c, l, kv), l.b, w);
    GoodShape(st', c, dirty - {l});
    forall m | InRange(st, m) && m != l ensures IsFull(st', m) == IsFull(st, m) {
      assert m.b == l.b ==> m.i != l.i;
    }
  }

  /** The pair just stored is the latest of its key; other live slots hold other keys. */
  lemma CurrentPut(st: Store, dirty: set<Loc>, st': Store, dirty': set<Loc>, log: seq<Logged>, l: Loc, kv: KV, ttl: nat)
    requires Shape(st) && Shape(st') && Current(st, dirty, log)
    requires forall m :: Live(st', dirty', m) && m != l ==> Live(st, dirty, m) && KvAt(st', m) == KvAt(st, m)
    requires forall m :: Live(st, dirty, m) ==> KvAt(st, m).key != kv.key
    requires Live(st', dirty', l) ==> KvAt(st', l) == kv
    ensures Current(st', dirty', log + [Inserted(kv.key, kv.value, ttl)])
  {
    hide RecAt, KvAt, Latest;
    var e := Inserted(kv.key, kv.value, ttl);
    forall m | Live(st', dirty', m) ensures Gave(Latest(log + [e], KvAt(st', m).key), KvAt(st', m).value) {
      LatestAppend(log, e, KvAt(st', m).key);
    }
  }

  lemma QueueKept(st: Store, st': Store, layout: nat, queue: seq<Tagged>)
    requires QueueOk(st, layout, queue) && |st'.buckets| == |st.buckets|
    ensures QueueOk(st', layout, queue)
  {
    assert forall k :: 0 <= k < |queue| ==> EvOk(st, layout, queue[k]);
  }

  /** The insert takes effect: the pair, the word and the log change together. */
  lemma PutStepOk(env: Env, s: Sys, t: nat, i: nat, kind: Kind)
    requires Inv(env, s) && (Th(s, t).pc == Storing(i, kind) || Th(s, t).pc == Allocating(i, kind))
    requires Good(s.st, env.c, s.dirty) && InRange(s.st, Loc(Th(s, t).b, i)) && Th(s, t).op.Insert?
    requires CanTake(s, HoldsOf(Th(s, t)), HoldsOf(Th(s, t).(pc := LoadEpoch(i, kind))))
    ensures var r := PutStep(env, s, Th(s, t), i, kind); Inv(env, Relock(r.0, t, r.1))
  {
    hide Good, NoneBelow, LockOk, DirtyOk, CountOk, AllThreadsOk, CanTake, HoldsOf, QueueOk, Current, HitsOk, IndexOf, Live, IsFull,
         RecAt, KvAt, Mode, H2Of, Relock, Place, PutWord, SetMeta, KeptMem, FullBut, MayPlace, SameBut, View, N.Occupied;
    InvParts(env, s, t);
    var th := Th(s, t);
    var l, kv := Loc(th.b, i), th.op.kv;
    var (s1, th') := PutStep(env, s, th, i, kind);
    SectionBucket(th);
    NowhereLive(s.st, env.c, s.dirty, th.b, kv.key);
    PutMayPlace(s.st, env.c, s.dirty, th, i, kind);
    PutFacts(s.st, env.c, s.dirty, l, kv, PutWord(s.st, env.c, l, kv.key, kind));
    GoodShape(s1.st, env.c, s1.dirty);
    CurrentPut(s.st, s.dirty, s1.st, s1.dirty, s.log, l, kv, th.op.ttl);
    HitsAppend(s.log, Inserted(kv.key, kv.value, th.op.ttl));
    FullCount(s.st, s1.st, l);
    QueueKept(s.st, s1.st, s.layout, s.queue);
    Assemble(env, s, s1, t, th', l.b);
  }

  /** What a storing thread relies on, in the terms of PutStepOk. */
  lemma StoringThread(st: Store, dirty: set<Loc>, layout: nat, c: Config, th: Thread)
    requires Shape(st) && ThreadOk(st, dirty, layout, c, th) && (th.pc.Storing? || th.pc.Allocating?)
    ensures InRange(st, Loc(th.b, th.pc.i)) && th.op.Insert? && KeyOf(th.op) == th.op.kv.key
    ensures th.pc.Storing? ==> ThreadOk(st, dirty, layout, c, th.(pc := WantAlloc(th.pc.i, th.pc.kind)))
    ensures Loc(th.b, th.pc.i) in dirty
  {
    hide NoneBelow, IndexOf, RecAt, H2Of;
  }

  /** Storing in place, or going for the slab lock. */
  lemma StoreStep(env: Env, s: Sys, t: nat, lossy: bool)
    requires Inv(env, s) && (Th(s, t).pc.Storing? || Th(s, t).pc.Allocating?)
    requires ThreadOk(s.st, s.dirty, s.layout, env.c, Th(s, t))
    requires CanTake(s, HoldsOf(Th(s, t)), HoldsOf(Next(env, s, t, lossy).1))
    ensures Inv(env, Relock(Next(env, s, t, lossy).0, t, Next(env, s, t, lossy).1))
  {
    hide Good, LockOk, DirtyOk, CountOk, AllThreadsOk, CanTake, HoldsOf, QueueOk, LogOk, ThreadOk, PutStep, FitsInline, Relock;
    GoodShape(s.st, env.c, s.dirty);
    var th := Th(s, t);
    StoringThread(s.st, s.dirty, s.layout, env.c, th);
    var (s1, th') := Next(env, s, t, lossy);
    if th.pc.Storing? && !FitsInline(KeyOf(th.op), th.op.kv.value) {
      QuietStep(env, s, s1, t, th');
    } else {
      assert Next(env, s, t, lossy) == PutStep(env, s, th, th.pc.i, th.pc.kind);
      PutMoves(env, s, th, th.pc.i, th.pc.kind);
      PutStepOk(env, s, t, th.pc.i, th.pc.kind);
    }
  }

  lemma PutMoves(env: Env, s: Sys, th: Thread, i: nat, kind: Kind)
    requires Good(s.st, env.c, s.dirty) && InRange(s.st, Loc(th.b, i)) && th.op.Insert?
    ensures PutStep(env, s, th, i, kind).1 == th.(pc := LoadEpoch(i, kind))
  {
    hide Good, PutStore;
    GoodShape(s.st, env.c, s.dirty);
  }

  // ---------------------------------------------------------------------
  // Stamps
  // ---------------------------------------------------------------------

  lemma StampFacts(st: Store, c: Config, dirty: set<Loc>, l: Loc, tt: Ttl)
    requires Good(st, c, dirty) && InRange(st, l)
    ensures var st' := SetTtl(st, l, tt);
            && Good(st', c, dirty) && KeptMem(st, dirty, st', dirty, l.b) && st'.buckets == st.buckets && st'.bits == st.bits
            && FullBut(st, st', l) && IsFull(st', l) == IsFull(st, l)
            && (forall m :: Live(st', dirty, m) ==> Live(st, dirty, m) && KvAt(st', m) == KvAt(st, m))
  {
    hide RecAt, KvAt, Good;
    GoodShape(st, c, dirty);
    StampGood(st, c, dirty, l, tt);
  }

  lemma StampThread(st: Store, dirty: set<Loc>, layout: nat, c: Config, th: Thread)
    requires Shape(st) && ThreadOk(st, dirty, layout, c, th) && th.pc.Stamping?
    ensures InRange(st, Loc(th.b, th.pc.i)) && th.op.Insert?
    ensures var st' := SetTtl(st, Loc(th.b, th.pc.i), Ttl(th.pc.e, th.op.ttl));
            && ThreadOk(st', dirty, layout, c, th.(pc := CountUp(th.pc.i)))
            && ThreadOk(st', dirty, layout, c, th.(pc := Unlock))
  {
    hide NoneBelow, IndexOf, RecAt, H2Of;
  }

  /** A stamp changes no value. */
  lemma CurrentStamp(st: Store, dirty: set<Loc>, log: seq<Logged>, key: Bytes, at: nat)
    requires Shape(st) && Current(st, dirty, log)
    ensures Current(st, dirty, log + [Stamped(key, at)])
  {
    hide RecAt, KvAt, Latest;
    var e := Stamped(key, at);
    forall m | Live(st, dirty, m) ensures Gave(Latest(log + [e], KvAt(st, m).key), KvAt(st, m).value) {
      LatestAppend(log, e, KvAt(st, m).key);
    }
  }

  /** Writing the epoch and TTL of the slot under the epochs lock. */
  lemma StampStep(env: Env, s: Sys, t: nat, lossy: bool)
    requires Inv(env, s) && Th(s, t).pc.Stamping?
    requires ThreadOk(s.st, s.dirty, s.layout, env.c, Th(s, t))
    requires CanTake(s, HoldsOf(Th(s, t)), HoldsOf(Next(env, s, t, lossy).1))
    ensures Inv(env, Relock(Next(env, s, t, lossy).0, t, Next(env, s, t, lossy).1))
  {
    hide Good, LockOk, DirtyOk, CountOk, AllThreadsOk, CanTake, HoldsOf, QueueOk, ThreadOk, Current, HitsOk, SetTtl, KeptMem, FullBut,
         IsFull, Live, KvAt, View, N.Occupied, Relock;
    InvParts(env, s, t);
    var th := Th(s, t);
    SectionBucket(th);
    StampThread(s.st, s.dirty, s.layout, env.c, th);
    var l, tt := Loc(th.b, th.pc.i), Ttl(th.pc.e, th.op.ttl);
    StampFacts(s.st, env.c, s.dirty, l, tt);
    var (s1, th') := Next(env, s, t, lossy);
    CurrentKept(s.st, s.dirty, s1.st, s.dirty, s.log);
    LiveRange(s1.st, s1.dirty);
    CurrentStamp(s1.st, s1.dirty, s.log, KeyOf(th.op), th.pc.at);
    HitsAppend(s.log, Stamped(KeyOf(th.op), th.pc.at));
    FullCount(s.st, s1.st, l);
    QueueKept(s.st, s1.st, s.layout, s.queue);
    Assemble(env, s, s1, t, th', l.b);
  }

  // ---------------------------------------------------------------------
  // Removal
  // ---------------------------------------------------------------------

  lemma ClearFacts(st: Store, c: Config, dirty: set<Loc>, l: Loc)
    requires Good(st, c, dirty) && InRange(st, l) && l in dirty
    ensures var st', dirty' := ClearStore(st, l), dirty - {l};
            && Good(st', c, dirty') && KeptMem(st, dirty, st', dirty', l.b) && |st'.buckets| == |st.buckets| && st'.bits == st.bits
            && FullBut(st, st', l) && !IsFull(st', l)
            && (forall m :: Live(st', dirty', m) ==> Live(st, dirty, m) && KvAt(st', m) == KvAt(st, m))
  {
    hide RecAt, KvAt, Good, WithState;
    GoodShape(st, c, dirty);
    var w := WithState(st.buckets[l.b].meta, l.i, Tombstone);
    WithStateRecs(st.buckets[l.b].meta, l.i, Tombstone);
    VacateGood(st, c, dirty, l, EmptySlot(), w);
    WriteKeepsOthers(st, l, EmptySlot(), w);
    assert forall m :: Live(st, dirty, m) ==> m != l;
  }

  lemma ClearThread(st: Store, dirty: set<Loc>, layout: nat, c: Config, th: Thread, st': Store, dirty': set<Loc>)
    requires Shape(st) && Shape(st') && |st'.buckets| == |st.buckets| && st'.bits == st.bits
    requires ThreadOk(st, dirty, layout, c, th) && th.pc.Clearing?
    ensures var l := Loc(th.b, th.pc.i);
            && InRange(st, l) && l in dirty && IsFull(st, l) && NoneBelow(st, dirty, th.b, 4, KeyOf(th.op))
            && th.b == IndexOf(c, KeyOf(th.op), st.bits)
    ensures ThreadOk(st', dirty', layout, c, th.(pc := CountDown))
  {
    hide NoneBelow, IndexOf, RecAt;
  }

  /** The slot becomes a tombstone; the key is gone. */
  lemma ClearStep(env: Env, s: Sys, t: nat, lossy: bool)
    requires Inv(env, s) && Th(s, t).pc.Clearing?
    requires ThreadOk(s.st, s.dirty, s.layout, env.c, Th(s, t))
    requires CanTake(s, HoldsOf(Th(s, t)), HoldsOf(Next(env, s, t, lossy).1))
    ensures Inv(env, Relock(Next(env, s, t, lossy).0, t, Next(env, s, t, lossy).1))
  {
    hide Good, LockOk, DirtyOk, CountOk, AllThreadsOk, CanTake, HoldsOf, QueueOk, ThreadOk, Current, HitsOk, ClearStore, KeptMem, FullBut,
         IsFull, Live, KvAt, View, N.Occupied, Relock, NoneBelow, IndexOf;
    InvParts(env, s, t);
    var th := Th(s, t);
    var l, key := Loc(th.b, th.pc.i), KeyOf(th.op);
    SectionBucket(th);
    ClearThread(s.st, s.dirty, s.layout, env.c, th, s.st, s.dirty);
    NowhereLive(s.st, env.c, s.dirty, th.b, key);
    ClearFacts(s.st, env.c, s.dirty, l);
    var (s1, th') := Next(env, s, t, lossy);
    ClearThread(s.st, s.dirty, s.layout, env.c, th, s1.st, s1.dirty);
    CurrentKept(s.st, s.dirty, s1.st, s1.dirty, s.log);
    LiveRange(s1.st, s1.dirty);
    CurrentElse(s1.st, s1.dirty, s.log, Removed(key));
    HitsAppend(s.log, Removed(key));
    FullCount(s.st, s1.st, l);
    QueueKept(s.st, s1.st, s.layout, s.queue);
    Assemble(env, s, s1, t, th', l.b);
  }
}
