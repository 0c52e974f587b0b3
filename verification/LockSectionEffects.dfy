/** `History` is kept where operations take effect, by the drain and by `resize`. */
module LockSectionEffects {
  import opened Base
  import opened MetaWord
  import opened Slots
  import opened Hashing
  import opened Stores
  import opened Views
  import opened LockSys
  import opened LockSteps
  import opened LockSafety
  import opened LockCases
  import opened LockWrites
  import opened LockEffects
  import opened LockGrow
  import opened LockSections
  import opened LockSectionSteps
  import Cells
  import H = Rehash
  import G = StoreGrow

  // ---------------------------------------------------------------------
  // Storing
  // ---------------------------------------------------------------------

  /** The counters the new word gives the cells. */
  lemma PutWordRecs(st: Store, c: Config, l: Loc, key: Bytes, kind: Kind)
    requires Shape(st) && InRange(st, l)
    ensures forall j: nat :: j < 4 ==>
              var w, v := PutWord(st, c, l, key, kind), st.buckets[l.b].meta;
              RecAt(w, j) == if kind == Update then TouchedRec(RecAt(v, j), j == l.i)
                             else if j == l.i then Rec(Full, H2Of(c.hash(key)), 0, 1) else RecAt(v, j)
  {
    hide RecAt, OnAccess, FreshWord, H2Of, TouchedRec;
    OnAccessRecs(st.buckets[l.b].meta, l.i);
    FreshWordRecs(st.buckets[l.b].meta, l.i, c.hash(key));
  }

  /** A neighbour keeps its pair and stamp; an update ages it. */
  lemma PutNeighbour(st: Store, c: Config, dirty: set<Loc>, l: Loc, kv: KV, kind: Kind, j: nat, cell: Cells.Cell)
    requires Good(st, c, dirty) && InRange(st, l) && j < 4 && j != l.i && CellSeen(st, dirty, Loc(l.b, j), cell)
    requires MayPlace(st, c, dirty, l, kv.key, PutWord(st, c, l, kv.key, kind))
    requires SameBut(st.buckets[l.b].meta, PutWord(st, c, l, kv.key, kind), l.i)
    ensures FreeListInRange(st)
    ensures CellSeen(PutStore(st, c, l, kv, kind), dirty - {l}, Loc(l.b, j), if kind == Update then Cells.TouchCell(cell, false) else cell)
  {
    hide RecAt, KvAt, Place, PutWord, H2Of, MayPlace, SameBut, KeptMem, FullBut, Good;
    GoodShape(st, c, dirty);
    var w, m := PutWord(st, c, l, kv.key, kind), Loc(l.b, j);
    PutFacts(st, c, dirty, l, kv, w);
    PlaceSlots(st, c, l, kv, w);
    PutWordRecs(st, c, l, kv.key, kind);
    if IsFull(st, m) { assert Live(PutStore(st, c, l, kv, kind), dirty - {l}, m); }
  }

  /** The slot itself: the new pair, the counters of an access or of a fresh entry, the old stamp. */
  lemma PutSelf(st: Store, c: Config, dirty: set<Loc>, l: Loc, kv: KV, kind: Kind, seen: Cells.Bucket)
    requires Good(st, c, dirty) && InRange(st, l) && WordSeen(st, l, seen[l.i]) && (kind == Update ==> seen[l.i].Held?)
    requires MayPlace(st, c, dirty, l, kv.key, PutWord(st, c, l, kv.key, kind))
    requires SameBut(st.buckets[l.b].meta, PutWord(st, c, l, kv.key, kind), l.i)
    ensures FreeListInRange(st)
    ensures var st' := PutStore(st, c, l, kv, kind);
            && TtlAt(st', l) == TtlAt(st, l)
            && CellSeen(st', dirty - {l}, l, Written(seen, l.i, kind, kv, TtlAt(st, l))[l.i])
  {
    hide RecAt, KvAt, Place, PutWord, H2Of, MayPlace, SameBut, KeptMem, FullBut, Good;
    GoodShape(st, c, dirty);
    var w := PutWord(st, c, l, kv.key, kind);
    PutFacts(st, c, dirty, l, kv, w);
    PlaceSlots(st, c, l, kv, w);
    PutWordRecs(st, c, l, kv.key, kind);
    TouchAt(seen, l.i, l.i);
  }

  lemma WrittenOther(seen: Cells.Bucket, i: nat, kind: Kind, kv: KV, t: Ttl, j: nat)
    requires i < 4 && j < 4 && j != i
    ensures Written(seen, i, kind, kv, t)[j] == if kind == Update then Cells.TouchCell(seen[j], false) else seen[j]
  {}

  lemma PutSeen(st: Store, c: Config, dirty: set<Loc>, th: Thread, i: nat, kind: Kind)
    requires Good(st, c, dirty) && StoringOk(st, dirty, c, th, i, kind) && th.b == IndexOf(c, KeyOf(th.op), st.bits)
    requires Shape(st) && th.b < |st.buckets| && MidWrite(st, dirty, th, i, kind)
    ensures FreeListInRange(st) && InRange(st, Loc(th.b, i))
    ensures var st' := PutStore(st, c, Loc(th.b, i), th.op.kv, kind);
            th.b < |st'.buckets| &&
            BucketSeen(st', dirty - {Loc(th.b, i)}, th.b, Written(th.seen, i, kind, th.op.kv, TtlAt(st', Loc(th.b, i))), 4)
  {
    hide RecAt, KvAt, TtlAt, Place, PutWord, H2Of, IndexOf, MayPlace, SameBut, Good, NoneBelow, CellSeen, WordSeen, Written,
         PutStore, Cells.TouchCell;
    GoodShape(st, c, dirty);
    var l, kv := Loc(th.b, i), th.op.kv;
    PutMayPlace(st, c, dirty, th, i, kind);
    FoundHeld(th.seen, th.op, i, kind);
    PutSelf(st, c, dirty, l, kv, kind, th.seen);
    var st' := PutStore(st, c, l, kv, kind);
    PutLength(st, c, l, kv, kind);
    forall j: nat | j < 4 ensures CellSeen(st', dirty - {l}, Loc(th.b, j), Written(th.seen, i, kind, kv, TtlAt(st', l))[j]) {
      if j != i {
        assert CellSeen(st, dirty, Loc(th.b, j), th.seen[j]);
        PutNeighbour(st, c, dirty, l, kv, kind, j, th.seen[j]);
        WrittenOther(th.seen, i, kind, kv, TtlAt(st', l), j);
      }
    }
  }

  lemma PutLength(st: Store, c: Config, l: Loc, kv: KV, kind: Kind)
    requires Shape(st) && InRange(st, l) && FreeListInRange(st)
    ensures |PutStore(st, c, l, kv, kind).buckets| == |st.buckets|
  {
    hide Place, PutWord, RecAt;
    PlaceFrame(st, c, l, kv);
  }

  lemma FoundHeld(seen: Cells.Bucket, op: Op, i: nat, kind: Kind)
    requires i < 4 && Chosen(seen, op, i, kind)
    ensures kind == Update ==> seen[i].Held?
  {
    Cells.FindHolds(seen, KeyOf(op));
  }

  /** What a storing thread relies on. */
  lemma StoringNow(env: Env, s: Sys, t: nat)
    requires Inv(env, s) && History(s) && (Th(s, t).pc.Storing? || Th(s, t).pc.Allocating?)
    ensures var th := Th(s, t);
            && Good(s.st, env.c, s.dirty) && Shape(s.st) && th.b < |s.st.buckets| && th.b == IndexOf(env.c, KeyOf(th.op), s.st.bits)
            && StoringOk(s.st, s.dirty, env.c, th, th.pc.i, th.pc.kind) && MidWrite(s.st, s.dirty, th, th.pc.i, th.pc.kind)
            && HoldsOf(th).bucket == Some(th.b) && Chosen(th.seen, th.op, th.pc.i, th.pc.kind)
  {
    hide Good, LockOk, DirtyOk, QueueOk, LogOk, CountOk, AllThreadsOk, AllSections, TimeOk, IndexOf, NoneBelow, RecAt, H2Of, Chosen, BucketSeen;
    InvParts(env, s, t);
    AllOf(s, t);
    SectionHolds(env, s, t);
  }

  lemma PutHistory(env: Env, s: Sys, t: nat, i: nat, kind: Kind)
    requires Inv(env, s) && History(s) && (Th(s, t).pc == Storing(i, kind) || Th(s, t).pc == Allocating(i, kind))
    requires Good(s.st, env.c, s.dirty) && InRange(s.st, Loc(Th(s, t).b, i)) && Th(s, t).op.Insert?
    requires CanTake(s, HoldsOf(Th(s, t)), HoldsOf(Th(s, t).(pc := LoadEpoch(i, kind))))
    requires var r := PutStep(env, s, Th(s, t), i, kind); Inv(env, Relock(r.0, t, r.1))
    ensures var r := PutStep(env, s, Th(s, t), i, kind); History(Relock(r.0, t, r.1))
  {
    hide Inv, Good, CanTake, HoldsOf, Relock, AllSections, StampedOk, StampsOk, BucketSeen, MidWrite, Chosen, Written, RecAt, KvAt, TtlAt,
         PutWord, Place, SetMeta, KeptMem, FullBut, MayPlace, SameBut, Live, IsFull, NoneBelow, IndexOf, H2Of, Latest, LogKept, SlotStamped, Wrap64;
    StoringNow(env, s, t);
    var th := Th(s, t);
    var l, kv := Loc(th.b, i), th.op.kv;
    var (s1, th') := PutStep(env, s, th, i, kind);
    NowhereLive(s.st, env.c, s.dirty, th.b, kv.key);
    PutMayPlace(s.st, env.c, s.dirty, th, i, kind);
    PutFacts(s.st, env.c, s.dirty, l, kv, PutWord(s.st, env.c, l, kv.key, kind));
    PutSeen(s.st, env.c, s.dirty, th, i, kind);
    PlaceSlots(s.st, env.c, l, kv, PutWord(s.st, env.c, l, kv.key, kind));
    GoodShape(s1.st, env.c, s1.dirty);
    var e := Inserted(kv.key, kv.value, th.op.ttl);
    LatestAppend(s.log, e, kv.key);
    LogOne(env.c, s.st.bits, s.log, e, th.b);
    StampsAppend(s.log, e);
    PutPoint(s1.st, s1.dirty, s1.log, s1.advances, th, i, kind);
    PutStamps(env, s, s1, t, l, kv, e);
    Carry(env, s, s1, t, th', th.b);
  }

  lemma PutPoint(st: Store, dirty: set<Loc>, log: seq<Logged>, advances: nat, th: Thread, i: nat, kind: Kind)
    requires Shape(st) && th.b < |st.buckets| && i < 4 && th.op.Insert? && kind != Drop && Chosen(th.seen, th.op, i, kind)
    requires BucketSeen(st, dirty, th.b, Written(th.seen, i, kind, th.op.kv, TtlAt(st, Loc(th.b, i))), 4)
    requires Latest(log, th.op.kv.key) == Some(Entered(th.op.kv.value, th.op.ttl, None))
    ensures SectionOk(st, dirty, log, advances, th.(pc := LoadEpoch(i, kind)))
  {
    hide BucketSeen, Written, Latest, TtlAt, Cells.Find, Cells.SyncTarget;
  }

  /** Stamps of the other slots of the bucket stand; the slot just stored is due. */
  lemma PutStamps(env: Env, s: Sys, s1: Sys, t: nat, l: Loc, kv: KV, e: Logged)
    requires Inv(env, s) && Shape(s.st) && Shape(s1.st) && StampedOk(s) && HoldsOf(Th(s, t)).bucket == Some(l.b) && StampDue(Th(s, t)) == None
    requires |s1.st.buckets| == |s.st.buckets| && s1.st.ttls == s.st.ttls && s1.advances == s.advances
    requires s1.log == s.log + [e] && e.key == kv.key
    requires forall m :: Live(s.st, s.dirty, m) ==> KvAt(s.st, m).key != kv.key
    requires forall m :: Live(s1.st, s1.dirty, m) && m != l ==> Live(s.st, s.dirty, m) && KvAt(s1.st, m) == KvAt(s.st, m)
    ensures forall m :: Live(s1.st, s1.dirty, m) && m.b == l.b && m != l ==> SlotStamped(s1.st, s1.log, s1.advances, m)
  {
    hide Good, AllThreadsOk, DirtyOk, QueueOk, LogOk, CountOk, RwOk, MutexesOk, HoldsOf, StampDue, Latest, RecAt, KvAt, Due, Wrap64;
    assert BucketsOk(s) by { LocksSplit(s); }
    forall m | Live(s1.st, s1.dirty, m) && m.b == l.b && m != l ensures SlotStamped(s1.st, s1.log, s1.advances, m) {
      NotDue(s, t, m);
      LatestAppend(s.log, e, KvAt(s.st, m).key);
      assert TtlAt(s1.st, m) == TtlAt(s.st, m);
    }
  }

  lemma PutOn(env: Env, s: Sys, t: nat, lossy: bool)
    requires Fires(env, s, t, lossy) && (Th(s, t).pc.Storing? || Th(s, t).pc.Allocating?) && Next(env, s, t, lossy).1.pc.LoadEpoch?
    ensures Carried(env, s, t, lossy)
  {
    hide Good, LockOk, DirtyOk, CountOk, AllThreadsOk, CanTake, HoldsOf, QueueOk, LogOk, ThreadOk, PutStep, FitsInline, Relock, History, Inv;
    GoodShape(s.st, env.c, s.dirty);
    var th := Th(s, t);
    StoringThread(s.st, s.dirty, s.layout, env.c, th);
    assert Next(env, s, t, lossy) == PutStep(env, s, th, th.pc.i, th.pc.kind);
    PutMoves(env, s, th, th.pc.i, th.pc.kind);
    PutHistory(env, s, t, th.pc.i, th.pc.kind);
  }

  // ---------------------------------------------------------------------
  // Stamping
  // ---------------------------------------------------------------------

  lemma StampCells(st: Store, l: Loc, t: Ttl, m: Loc)
    requires Shape(st) && InRange(st, l) && InRange(st, m)
    ensures TtlAt(SetTtl(st, l, t), m) == if m == l then t else TtlAt(st, m)
    ensures m != l ==> CellAt(SetTtl(st, l, t), m) == CellAt(st, m)
    ensures m == l && CellAt(st, m).Held? ==> CellAt(SetTtl(st, l, t), m) == Cells.Held(CellAt(st, m).e.(epoch := t.epoch, ttl := t.ttl))
  {
    hide RecAt, Mode, SlabIdx, InlineKey, InlineValue;
    assert SetTtl(st, l, t).buckets == st.buckets && SetTtl(st, l, t).entries == st.entries;
    assert KvAt(SetTtl(st, l, t), m) == KvAt(st, m);
  }

  lemma WrittenStamp(seen: Cells.Bucket, i: nat, kind: Kind, kv: KV, t: Ttl, u: Ttl, j: nat)
    requires i < 4 && j < 4 && (kind == Update ==> seen[i].Held?)
    ensures var x, y := Written(seen, i, kind, kv, t)[j], Written(seen, i, kind, kv, u)[j];
            && (j != i ==> x == y)
            && (j == i ==> x.Held? && x.e.key == kv.key && y == Cells.Held(x.e.(epoch := u.epoch, ttl := u.ttl)))
  {}

  lemma StampSeen(st: Store, dirty: set<Loc>, log: seq<Logged>, th: Thread, i: nat, kind: Kind, t: Ttl)
    requires Shape(st) && th.b < |st.buckets| && Unstamped(st, dirty, log, th, i, kind)
    ensures InRange(st, Loc(th.b, i)) && Live(st, dirty, Loc(th.b, i)) && KvAt(st, Loc(th.b, i)).key == th.op.kv.key
    ensures BucketSeen(SetTtl(st, Loc(th.b, i), t), dirty, th.b, Written(th.seen, i, kind, th.op.kv, t), 4)
  {
    hide CellAt, TtlAt, Written, Chosen, Latest;
    var l, kv := Loc(th.b, i), th.op.kv;
    FoundHeld(th.seen, th.op, i, kind);
    forall j: nat | j < 4 ensures CellSeen(SetTtl(st, l, t), dirty, Loc(th.b, j), Written(th.seen, i, kind, kv, t)[j]) {
      assert CellSeen(st, dirty, Loc(th.b, j), Written(th.seen, i, kind, kv, TtlAt(st, l))[j]);
      StampCells(st, l, t, Loc(th.b, j));
      WrittenStamp(th.seen, i, kind, kv, TtlAt(st, l), t, j);
    }
    assert CellSeen(st, dirty, l, Written(th.seen, i, kind, kv, TtlAt(st, l))[i]);
    WrittenStamp(th.seen, i, kind, kv, TtlAt(st, l), t, i);
    HeldLive(st, dirty, l);
  }

  lemma HeldLive(st: Store, dirty: set<Loc>, l: Loc)
    requires Shape(st) && InRange(st, l) && l !in dirty && CellAt(st, l).Held?
    ensures Live(st, dirty, l) && KvAt(st, l).key == CellAt(st, l).e.key
  {
    hide RecAt, KvAt, TtlAt;
  }

  lemma StampEnded(st: Store, dirty: set<Loc>, log: seq<Logged>, advances: nat, th: Thread, i: nat, kind: Kind, epoch: nat, pc: Pc)
    requires Shape(st) && th.b < |st.buckets| && i < 4 && th.op.Insert? && kind != Drop && Chosen(th.seen, th.op, i, kind)
    requires BucketSeen(st, dirty, th.b, Written(th.seen, i, kind, th.op.kv, Ttl(epoch, th.op.ttl)), 4)
    requires pc.CountUp? || pc.Unlock?
    ensures SectionOk(st, dirty, log, advances, th.(pc := pc))
  {
    hide BucketSeen, Chosen, Written, CellAt, BucketAt, Cells.SyncStored;
    SeenBucket(st, dirty, th.b, Written(th.seen, i, kind, th.op.kv, Ttl(epoch, th.op.ttl)));
    WrittenIsStored(th.seen, th.op, i, kind, Ttl(epoch, th.op.ttl));
  }

  /** What a stamping thread relies on. */
  lemma StampingNow(env: Env, s: Sys, t: nat)
    requires Inv(env, s) && History(s) && Th(s, t).pc.Stamping?
    ensures var th := Th(s, t);
            && Shape(s.st) && th.b < |s.st.buckets| && th.b == IndexOf(env.c, KeyOf(th.op), s.st.bits)
            && Unstamped(s.st, s.dirty, s.log, th, th.pc.i, th.pc.kind) && th.pc.e == Wrap64(th.pc.at) && th.pc.at <= s.advances
            && HoldsOf(th).bucket == Some(th.b)
  {
    hide Good, LockOk, DirtyOk, QueueOk, LogOk, CountOk, AllThreadsOk, AllSections, TimeOk, IndexOf, Unstamped, Wrap64;
    InvParts(env, s, t);
    AllOf(s, t);
    SectionHolds(env, s, t);
  }

  lemma StampOn(env: Env, s: Sys, t: nat, lossy: bool)
    requires Fires(env, s, t, lossy) && Th(s, t).pc.Stamping?
    ensures Carried(env, s, t, lossy)
  {
    hide Inv, ThreadOk, Good, CanTake, HoldsOf, Relock, IndexOf, AllSections, StampedOk, StampsOk, SectionOk, BucketSeen, Chosen, Written,
         KvAt, TtlAt, SetTtl, KeptMem, FullBut, Live, IsFull, Latest, LogKept, SlotStamped, Wrap64, OwnStamps;
    StampingNow(env, s, t);
    GoodShape(s.st, env.c, s.dirty);
    var th := Th(s, t);
    var l, tt := Loc(th.b, th.pc.i), Ttl(th.pc.e, th.op.ttl);
    StampSeen(s.st, s.dirty, s.log, th, th.pc.i, th.pc.kind, tt);
    StampFacts(s.st, env.c, s.dirty, l, tt);
    var (s1, th') := Next(env, s, t, lossy);
    StampEnded(s1.st, s.dirty, s1.log, s.advances, th, th.pc.i, th.pc.kind, th.pc.e, th'.pc);
    var e := Stamped(KeyOf(th.op), th.pc.at);
    LogOne(env.c, s.st.bits, s.log, e, th.b);
    StampsAppend(s.log, e);
    StampStamps(env, s, s1, t, l, e, tt);
    Carry(env, s, s1, t, th', th.b);
  }

  /** The slot gets the stamp of its insert; the other stamps stand. */
  lemma StampStamps(env: Env, s: Sys, s1: Sys, t: nat, l: Loc, e: Logged, tt: Ttl)
    requires Inv(env, s) && Shape(s.st) && StampedOk(s) && HoldsOf(Th(s, t)).bucket == Some(l.b) && StampDue(Th(s, t)) == Some(l)
    requires Live(s.st, s.dirty, l) && e.Stamped? && KvAt(s.st, l).key == e.key && Good(s.st, env.c, s.dirty)
    requires s1.st == SetTtl(s.st, l, tt) && s1.dirty == s.dirty && s1.log == s.log + [e] && s1.advances == s.advances
    requires Latest(s.log, e.key).Some? && tt == Ttl(Wrap64(e.at), Latest(s.log, e.key).value.ttl) && e.at <= s.advances
    ensures OwnStamps(s1, Th(s, t).(pc := Unlock), l.b) && OwnStamps(s1, Th(s, t).(pc := CountUp(l.i)), l.b)
  {
    hide AllThreadsOk, DirtyOk, QueueOk, LogOk, CountOk, RwOk, MutexesOk, HoldsOf, Latest, RecAt, KvAt, TtlAt, Due, Wrap64, PoolGood, SlotGood;
    assert BucketsOk(s) by { LocksSplit(s); }
    StampGood(s.st, env.c, s.dirty, l, tt);
    forall m | Live(s1.st, s1.dirty, m) && m.b == l.b ensures SlotStamped(s1.st, s1.log, s1.advances, m) {
      StampCells(s.st, l, tt, m);
      LatestAppend(s.log, e, KvAt(s.st, m).key);
      assert Live(s.st, s.dirty, m) && KvAt(s1.st, m) == KvAt(s.st, m);
      if m != l {
        assert KvAt(s.st, m).key != KvAt(s.st, l).key;
        NotDue(s, t, m);
      }
    }
  }

  // ---------------------------------------------------------------------
  // Clearing
  // ---------------------------------------------------------------------

  lemma ClearCells(st: Store, c: Config, dirty: set<Loc>, l: Loc, j: nat, cell: Cells.Cell)
    requires Good(st, c, dirty) && InRange(st, l) && l in dirty && j < 4
    requires j != l.i ==> CellSeen(st, dirty, Loc(l.b, j), cell)
    ensures CellSeen(ClearStore(st, l), dirty - {l}, Loc(l.b, j), if j == l.i then Cells.Vacant else cell)
  {
    hide RecAt, KvAt, WithState, Good, KeptMem, FullBut;
    GoodShape(st, c, dirty);
    var m := Loc(l.b, j);
    ClearFacts(st, c, dirty, l);
    WithStateRecs(st.buckets[l.b].meta, l.i, Tombstone);
    if j != l.i && IsFull(st, m) {
      assert Live(ClearStore(st, l), dirty - {l}, m);
      assert TtlAt(ClearStore(st, l), m) == TtlAt(st, m);
    }
  }

  lemma ClearSeen(st: Store, c: Config, dirty: set<Loc>, log: seq<Logged>, advances: nat, th: Thread, i: nat)
    requires Good(st, c, dirty) && Shape(st) && th.b < |st.buckets| && MidWrite(st, dirty, th, i, Drop) && Loc(th.b, i) in dirty
    ensures SectionOk(ClearStore(st, Loc(th.b, i)), dirty - {Loc(th.b, i)}, log, advances, th.(pc := CountDown))
  {
    hide CellSeen, Good, CellAt, BucketAt, WordSeen, Cells.Find;
    var l := Loc(th.b, i);
    var st', now := ClearStore(st, l), th.seen[i := Cells.Vacant];
    forall j: nat | j < 4 ensures CellSeen(st', dirty - {l}, Loc(th.b, j), now[j]) {
      if j != i { assert CellSeen(st, dirty, Loc(th.b, j), th.seen[j]); }
      ClearCells(st, c, dirty, l, j, th.seen[j]);
    }
    SeenBucket(st', dirty - {l}, th.b, now);
  }

  lemma ClearingNow(env: Env, s: Sys, t: nat)
    requires Inv(env, s) && History(s) && Th(s, t).pc.Clearing?
    ensures var th := Th(s, t);
            && Shape(s.st) && th.b < |s.st.buckets| && th.b == IndexOf(env.c, KeyOf(th.op), s.st.bits)
            && MidWrite(s.st, s.dirty, th, th.pc.i, Drop) && Loc(th.b, th.pc.i) in s.dirty && th.pc.i < 4
            && NoneBelow(s.st, s.dirty, th.b, 4, KeyOf(th.op)) && HoldsOf(th).bucket == Some(th.b)
  {
    hide Good, LockOk, DirtyOk, QueueOk, LogOk, CountOk, AllThreadsOk, AllSections, TimeOk, IndexOf, NoneBelow, MidWrite, RecAt;
    InvParts(env, s, t);
    AllOf(s, t);
    SectionHolds(env, s, t);
  }

  lemma ClearOn(env: Env, s: Sys, t: nat, lossy: bool)
    requires Fires(env, s, t, lossy) && Th(s, t).pc.Clearing?
    ensures Carried(env, s, t, lossy)
  {
    hide Inv, ThreadOk, Good, CanTake, HoldsOf, Relock, IndexOf, AllSections, StampedOk, StampsOk, SectionOk, BucketSeen, Chosen, MidWrite,
         KvAt, TtlAt, ClearStore, KeptMem, FullBut, Live, IsFull, Latest, LogKept, SlotStamped, Wrap64, NoneBelow;
    ClearingNow(env, s, t);
    GoodShape(s.st, env.c, s.dirty);
    var th := Th(s, t);
    var l, key := Loc(th.b, th.pc.i), KeyOf(th.op);
    var (s1, th') := Next(env, s, t, lossy);
    NowhereLive(s.st, env.c, s.dirty, th.b, key);
    ClearFacts(s.st, env.c, s.dirty, l);
    ClearSeen(s.st, env.c, s.dirty, s1.log, s.advances, th, th.pc.i);
    ClearTtls(s.st, l);
    LogOne(env.c, s.st.bits, s.log, Removed(key), th.b);
    StampsAppend(s.log, Removed(key));
    LiveRange(s1.st, s1.dirty);
    NotLive(s1.st, s1.dirty, l);
    PutStamps(env, s, s1, t, l, KV(key, []), Removed(key));
    Carry(env, s, s1, t, th', th.b);
  }

  lemma ClearTtls(st: Store, l: Loc)
    requires Shape(st) && InRange(st, l)
    ensures ClearStore(st, l).ttls == st.ttls
  {}

  lemma NotLive(st: Store, dirty: set<Loc>, l: Loc)
    requires InRange(st, l) && !IsFull(st, l)
    ensures !Live(st, dirty, l)
  {}

  // ---------------------------------------------------------------------
  // The drain
  // ---------------------------------------------------------------------

  /** Applying an event is one access of the bucket; nothing else about it changes. */
  lemma TouchBucket(st: Store, l: Loc)
    requires Shape(st) && InRange(st, l)
    ensures BucketAt(TouchStore(st, l), l.b) == Cells.Touch(BucketAt(st, l.b), l.i)
  {
    hide RecAt, OnAccess, Mode, SlabIdx, InlineKey, InlineValue;
    OnAccessRecs(st.buckets[l.b].meta, l.i);
    forall j: nat | j < 4
      ensures CellAt(TouchStore(st, l), Loc(l.b, j)) == Cells.TouchCell(CellAt(st, Loc(l.b, j)), l.i == j)
    {
      assert KvAt(TouchStore(st, l), Loc(l.b, j)) == KvAt(st, Loc(l.b, j));
    }
  }

  lemma DrainOn(env: Env, s: Sys, t: nat, lossy: bool)
    requires Fires(env, s, t, lossy) && Th(s, t).pc.DrainApply?
    ensures Carried(env, s, t, lossy)
  {
    hide Inv, Good, CanTake, HoldsOf, Relock, IndexOf, AllSections, StampedOk, StampsOk, BucketSeen,
         KvAt, TtlAt, TouchStore, KeptMem, FullBut, Live, IsFull, Latest, LogKept, SlotStamped, Wrap64, OwnStamps;
    GoodShape(s.st, env.c, s.dirty);
    var th := Th(s, t);
    var l := th.pc.ev.loc;
    TouchOne(s.st, env.c, s.dirty, l);
    var (s1, th') := Next(env, s, t, lossy);
    LogSame(env.c, s.st.bits, s.log, l.b);
    DrainHolds(th);
    TouchStamps(env, s, s1, t, th', l);
    Carry(env, s, s1, t, th', l.b) by { hide ThreadOk; }
  }

  lemma DrainHolds(th: Thread)
    requires th.pc.DrainApply?
    ensures HoldsOf(th).bucket == Some(th.pc.ev.loc.b)
  {}

  lemma TouchStamps(env: Env, s: Sys, s1: Sys, t: nat, th': Thread, l: Loc)
    requires Inv(env, s) && Shape(s.st) && Shape(s1.st) && StampedOk(s) && HoldsOf(Th(s, t)).bucket == Some(l.b) && StampDue(Th(s, t)) == None
    requires |s1.st.buckets| == |s.st.buckets| && s1.dirty == s.dirty && s1.log == s.log && s1.advances == s.advances
    requires forall m :: Live(s1.st, s.dirty, m) <==> Live(s.st, s.dirty, m)
    requires forall m :: InRange(s.st, m) ==> KvAt(s1.st, m) == KvAt(s.st, m) && TtlAt(s1.st, m) == TtlAt(s.st, m)
    ensures OwnStamps(s1, th', l.b)
  {
    hide Good, AllThreadsOk, DirtyOk, QueueOk, LogOk, CountOk, RwOk, MutexesOk, HoldsOf, StampDue, Latest, RecAt, KvAt, Due, Wrap64, TtlAt;
    assert BucketsOk(s) by { LocksSplit(s); }
    forall m | Live(s1.st, s1.dirty, m) && m.b == l.b ensures SlotStamped(s1.st, s1.log, s1.advances, m) {
      assert Live(s.st, s.dirty, m);
      NotDue(s, t, m);
    }
  }

  // ---------------------------------------------------------------------
  // resize
  // ---------------------------------------------------------------------

  lemma NobodyDue(s: Sys)
    requires forall u: nat :: Outside(Th(s, u).pc)
    ensures forall l :: !Due(s, l)
  {
    forall l ensures !Due(s, l) {
      if l.b in s.locks { assert Outside(Th(s, s.locks[l.b]).pc); }
    }
  }

  lemma OutsideSection(st: Store, dirty: set<Loc>, log: seq<Logged>, advances: nat, th: Thread)
    requires Shape(st) && Outside(th.pc)
    ensures SectionOk(st, dirty, log, advances, th)
  {}

  /** An item of the view is a stamped slot's pair. */
  lemma ItemStamped(s: Sys, it: H.Item)
    requires Shape(s.st) && s.dirty == {} && StampedOk(s) && (forall l :: !Due(s, l)) && H.Has(View(s.st), it)
    ensures StampIs(Latest(s.log, it.kv.key), s.advances, it.t)
  {
    hide RecAt, KvAt, View, Latest, TtlAt, Due, Wrap64;
    var b: nat :| H.Present(View(s.st), b, it);
    var i :| 0 <= i < 4 && View(s.st)[b][i].Held? && H.ItemOf(View(s.st)[b][i].e) == it;
    ViewAt(s.st, Loc(b, i));
    assert Live(s.st, {}, Loc(b, i));
    assert SlotStamped(s.st, s.log, s.advances, Loc(b, i));
  }

  lemma SameItemsStamped(s: Sys, st': Store)
    requires Shape(s.st) && Shape(st') && s.dirty == {} && StampedOk(s) && (forall l :: !Due(s, l))
    requires forall it :: H.Has(View(st'), it) ==> H.Has(View(s.st), it)
    ensures forall m :: Live(st', {}, m) ==> SlotStamped(st', s.log, s.advances, m)
  {
    hide RecAt, KvAt, View, Latest, TtlAt, StampIs, StampedOk, Due;
    forall m | Live(st', {}, m) ensures SlotStamped(st', s.log, s.advances, m) {
      ViewAt(st', m);
      var it := H.ItemOf(View(st')[m.b][m.i].e);
      assert H.Present(View(st'), m.b, it);
      assert H.Has(View(st'), it);
      ItemStamped(s, it);
    }
  }

  lemma GrowHistory(env: Env, s: Sys, s1: Sys, t: nat, th': Thread)
    requires Inv(env, s) && History(s) && Inv(env, Relock(s1, t, th')) && (forall u: nat :: Outside(Th(s, u).pc)) && s.dirty == {}
    requires SameFrame(s, s1) && s1.log == s.log && s1.advances == s.advances && s1.epoch == s.epoch && s1.dirty == {}
    requires Shape(s.st) && Shape(s1.st) && (forall it :: H.Has(View(s1.st), it) ==> H.Has(View(s.st), it)) && Outside(th'.pc)
    ensures History(Relock(s1, t, th'))
  {
    hide Inv, HoldsOf, SectionOk, StampsOk, Wrap64, Due, Relock, View, H.Has, SlotStamped;
    var s' := Relock(s1, t, th');
    RelockRest(s1, t, th');
    RelockClock(s1, t, th');
    RelockTh(s1, t, th');
    SameTh(s, s1);
    forall u: nat ensures SectionOk(s'.st, s'.dirty, s'.log, s'.advances, Th(s', u)) {
      OutsideSection(s'.st, s'.dirty, s'.log, s'.advances, Th(s', u));
    }
    NobodyDue(s);
    SameItemsStamped(s, s1.st);
    assert StampedOk(s');
  }

  lemma SameTh(s: Sys, s1: Sys)
    requires SameFrame(s, s1)
    ensures forall u: nat :: Th(s1, u) == Th(s, u)
  {}

  lemma GrowOn(env: Env, s: Sys, t: nat, lossy: bool)
    requires Fires(env, s, t, lossy) && Th(s, t).pc.GrowWork?
    ensures Carried(env, s, t, lossy)
  {
    hide Inv, Good, CanTake, HoldsOf, Relock, AllSections, StampedOk, StampsOk, History, CeilBits, Pow2, Wrap64, View, H.Has, GrowStep;
    GoodShape(s.st, env.c, s.dirty);
    var (s1, th') := Next(env, s, t, lossy);
    Alone(env, s, t);
    GrowStepLosesNothing(env, s, t);
    GrowFrame(env, s, Th(s, t).pc.n);
    GrowHistory(env, s, s1, t, th') by { hide ThreadOk; }
  }

  lemma GrowFrame(env: Env, s: Sys, n: nat)
    requires Shape(s.st) && Pow2(CeilBits(n)) <= MAX_BUCKETS
    ensures var s1 := GrowStep(env, s, n);
            && SameFrame(s, s1) && s1.log == s.log && s1.advances == s.advances && s1.epoch == s.epoch && s1.dirty == s.dirty
            && Shape(s1.st)
  {
    hide G.Fill, H.Items, CeilBits, Pow2;
  }
}
