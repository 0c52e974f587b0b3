/**
 What happens to a bucket between taking and freeing its lock, and what the TTL stamps mean.

 `SectionOk` ties each program point of a bucket section to the bucket as the thread saw it
 when it took the lock; at the end of the section the bucket is the result of the whole
 operation on the bucket seen, whatever other threads did meanwhile.  `TimeOk` ties the stamp
 of every slot to the number of epoch advances before its insert loaded the epoch.
 */
module LockSections {
  import opened Base
  import opened MetaWord
  import opened Slots
  import opened Hashing
  import opened Stores
  import opened Views
  import opened LockSys
  import opened LockSteps
  import opened LockSafety
  import Cells

  // ---------------------------------------------------------------------
  // Whole operations on a bucket
  // ---------------------------------------------------------------------

  /** What an operation leaves of the bucket it found; the epoch of an insert is the one it loaded. */
  ghost predicate Finished(seen: Cells.Bucket, now: Cells.Bucket, op: Op) {
    match op
    case Insert(kv, ttl) => exists epoch: nat :: now == Cells.SyncStored(seen, kv, Ttl(epoch, ttl))
    case Remove(key) => now == Cells.Without(seen, key)
    case _ => now == seen
  }

  /** The slot an operation rewrites, and why, follow from the bucket it found. */
  predicate Chosen(seen: Cells.Bucket, op: Op, i: nat, kind: Kind) {
    var f := Cells.Find(seen, KeyOf(op));
    match kind
    case Update => op.Insert? && f == Some(i)
    case Drop => op.Remove? && f == Some(i)
    case _ => op.Insert? && f == None && i == Cells.SyncTarget(seen) && (kind == Fresh <==> seen[i].Vacant?)
  }

  function Written(seen: Cells.Bucket, i: nat, kind: Kind, kv: KV, t: Ttl): Cells.Bucket
    requires i < 4
  {
    if kind == Update then Cells.UpdateAt(seen, i, kv, t) else Cells.FreshAt(seen, i, kv, t)
  }

  lemma WrittenIsStored(seen: Cells.Bucket, op: Op, i: nat, kind: Kind, t: Ttl)
    requires i < 4 && op.Insert? && kind != Drop && Chosen(seen, op, i, kind)
    ensures Written(seen, i, kind, op.kv, t) == Cells.SyncStored(seen, op.kv, t)
  {
    hide Cells.UpdateAt, Cells.FreshAt, Cells.SyncTarget, Cells.Find;
  }

  // ---------------------------------------------------------------------
  // Inside a section
  // ---------------------------------------------------------------------

  predicate CellSeen(st: Store, dirty: set<Loc>, l: Loc, cell: Cells.Cell)
    requires Shape(st) && InRange(st, l)
  {
    l !in dirty && CellAt(st, l) == cell
  }

  /** Every cell of the bucket but `skip` is settled and as it was seen. */
  predicate BucketSeen(st: Store, dirty: set<Loc>, b: nat, seen: Cells.Bucket, skip: nat)
    requires Shape(st) && b < |st.buckets|
  {
    forall j: nat :: j < 4 && j != skip ==> CellSeen(st, dirty, Loc(b, j), seen[j])
  }

  /** The word still describes the slot being rewritten as it was seen. */
  predicate WordSeen(st: Store, l: Loc, cell: Cells.Cell)
    requires InRange(st, l)
  {
    && (IsFull(st, l) <==> cell.Held?)
    && (cell.Held? ==> RecOfLoc(st, l).freq == cell.e.freq && RecOfLoc(st, l).rec == cell.e.rec)
  }

  /** Stored, but not yet stamped. */
  predicate Unstamped(st: Store, dirty: set<Loc>, log: seq<Logged>, th: Thread, i: nat, kind: Kind)
    requires Shape(st) && th.b < |st.buckets|
  {
    && i < 4 && th.op.Insert? && kind != Drop && Chosen(th.seen, th.op, i, kind)
    && BucketSeen(st, dirty, th.b, Written(th.seen, i, kind, th.op.kv, TtlAt(st, Loc(th.b, i))), 4)
    && Latest(log, th.op.kv.key) == Some(Entered(th.op.kv.value, th.op.ttl, None))
  }

  ghost predicate Ended(st: Store, dirty: set<Loc>, th: Thread)
    requires Shape(st) && th.b < |st.buckets|
  {
    BucketSeen(st, dirty, th.b, BucketAt(st, th.b), 4) && Finished(th.seen, BucketAt(st, th.b), th.op)
  }

  predicate MidWrite(st: Store, dirty: set<Loc>, th: Thread, i: nat, kind: Kind)
    requires Shape(st) && th.b < |st.buckets|
  {
    i < 4 && BucketSeen(st, dirty, th.b, th.seen, i) && WordSeen(st, Loc(th.b, i), th.seen[i]) && Chosen(th.seen, th.op, i, kind)
  }

  ghost predicate PointOk(st: Store, dirty: set<Loc>, log: seq<Logged>, advances: nat, th: Thread)
    requires Shape(st) && th.b < |st.buckets|
  {
    match th.pc
    case WantFree(i, kind) => BucketSeen(st, dirty, th.b, th.seen, 4) && Chosen(th.seen, th.op, i, kind)
    case Freeing(i, kind) => BucketSeen(st, dirty, th.b, th.seen, 4) && Chosen(th.seen, th.op, i, kind)
    case Storing(i, kind) => MidWrite(st, dirty, th, i, kind)
    case WantAlloc(i, kind) => MidWrite(st, dirty, th, i, kind)
    case Allocating(i, kind) => MidWrite(st, dirty, th, i, kind)
    case Clearing(i) => MidWrite(st, dirty, th, i, Drop)
    case LoadEpoch(i, kind) => Unstamped(st, dirty, log, th, i, kind)
    case WantStamp(i, kind, e, at) => Unstamped(st, dirty, log, th, i, kind) && e == Wrap64(at) && at <= advances
    case Stamping(i, kind, e, at) => Unstamped(st, dirty, log, th, i, kind) && e == Wrap64(at) && at <= advances
    case CountUp(_) => Ended(st, dirty, th)
    case CountDown => Ended(st, dirty, th)
    case Unlock => Ended(st, dirty, th)
    case Judge(i, t) => i < 4 && BucketSeen(st, dirty, th.b, th.seen, 4) && t == TtlAt(st, Loc(th.b, i))
    case _ => BucketSeen(st, dirty, th.b, th.seen, 4)
  }

  ghost predicate SectionOk(st: Store, dirty: set<Loc>, log: seq<Logged>, advances: nat, th: Thread)
    requires Shape(st)
  {
    InBucket(th.pc) ==> th.b < |st.buckets| && PointOk(st, dirty, log, advances, th)
  }

  // ---------------------------------------------------------------------
  // Stamps
  // ---------------------------------------------------------------------

  /** The slot a thread has stored but not stamped. */
  function StampDue(th: Thread): Option<Loc> {
    if th.pc.LoadEpoch? || th.pc.WantStamp? || th.pc.Stamping? then Some(Loc(th.b, th.pc.i)) else None
  }

  predicate Due(s: Sys, l: Loc) { l.b in s.locks && StampDue(Th(s, s.locks[l.b])) == Some(l) }

  /** A slot's stamp is the TTL of an insert and the epoch after `at` advances. */
  predicate StampIs(x: Option<Entered>, advances: nat, t: Ttl) {
    && x.Some? && x.value.at.Some? && x.value.at.value <= advances
    && t == Ttl(Wrap64(x.value.at.value), x.value.ttl)
  }

  ghost predicate SlotStamped(st: Store, log: seq<Logged>, advances: nat, l: Loc)
    requires Shape(st) && InRange(st, l)
  {
    StampIs(Latest(log, KvAt(st, l).key), advances, TtlAt(st, l))
  }

  ghost predicate StampedOk(s: Sys)
    requires Shape(s.st)
  {
    forall l :: Live(s.st, s.dirty, l) && !Due(s, l) ==> SlotStamped(s.st, s.log, s.advances, l)
  }

  /** A stamp belongs to an insert that has none yet. */
  predicate StampAt(log: seq<Logged>, p: nat)
    requires p < |log|
  {
    log[p].Stamped? ==> Latest(log[..p], log[p].key).Some? && Latest(log[..p], log[p].key).value.at.None?
  }

  ghost predicate StampsOk(log: seq<Logged>) { forall p: nat :: p < |log| ==> StampAt(log, p) }

  ghost predicate AllSections(s: Sys)
    requires Shape(s.st)
  {
    forall t: nat :: SectionOk(s.st, s.dirty, s.log, s.advances, Th(s, t))
  }

  ghost predicate TimeOk(s: Sys)
    requires Shape(s.st)
  {
    s.epoch == Wrap64(s.advances) && StampsOk(s.log) && StampedOk(s)
  }

  ghost predicate History(s: Sys) { Shape(s.st) && AllSections(s) && TimeOk(s) }

  lemma StampsAppend(log: seq<Logged>, e: Logged)
    requires StampsOk(log)
    requires e.Stamped? ==> Latest(log, e.key).Some? && Latest(log, e.key).value.at.None?
    ensures StampsOk(log + [e])
  {
    hide Latest;
    forall p: nat | p < |log + [e]| ensures StampAt(log + [e], p) {
      assert p < |log| ==> StampAt(log, p) && (log + [e])[..p] == log[..p];
      assert p == |log| ==> (log + [e])[..p] == log;
    }
  }

  // ---------------------------------------------------------------------
  // What a step in bucket `b` leaves to the others
  // ---------------------------------------------------------------------

  /** At most one entry more, of a key of bucket `b`. */
  ghost predicate LogKept(c: Config, bits: nat, log: seq<Logged>, log': seq<Logged>, b: nat) {
    forall key :: IndexOf(c, key, bits) != b ==> Latest(log', key) == Latest(log, key)
  }

  lemma LogSame(c: Config, bits: nat, log: seq<Logged>, b: nat)
    ensures LogKept(c, bits, log, log, b)
  {}

  lemma LogOne(c: Config, bits: nat, log: seq<Logged>, e: Logged, b: nat)
    requires IndexOf(c, e.key, bits) == b
    ensures LogKept(c, bits, log, log + [e], b)
  {
    hide Latest, IndexOf;
    forall key | IndexOf(c, key, bits) != b ensures Latest(log + [e], key) == Latest(log, key) { LatestAppend(log, e, key); }
  }

  lemma CellKept(st: Store, dirty: set<Loc>, st': Store, dirty': set<Loc>, b: nat, m: Loc)
    requires Shape(st) && Shape(st') && KeptMem(st, dirty, st', dirty', b) && InRange(st, m) && m.b != b
    ensures InRange(st', m) && TtlAt(st', m) == TtlAt(st, m) && RecOfLoc(st', m) == RecOfLoc(st, m)
    ensures m !in dirty ==> m !in dirty' && CellAt(st', m) == CellAt(st, m)
  {
    hide RecAt, KvAt, TtlAt;
    assert st'.buckets[m.b] == st.buckets[m.b];
    assert IsFull(st, m) && m !in dirty ==> Live(st, dirty, m);
  }

  lemma SeenKept(st: Store, dirty: set<Loc>, st': Store, dirty': set<Loc>, b: nat, x: nat, seen: Cells.Bucket, skip: nat)
    requires Shape(st) && Shape(st') && KeptMem(st, dirty, st', dirty', b) && x < |st.buckets| == |st'.buckets| && x != b
    requires BucketSeen(st, dirty, x, seen, skip)
    ensures BucketSeen(st', dirty', x, seen, skip)
  {
    hide CellAt, KeptMem, RecAt, TtlAt;
    forall j: nat | j < 4 && j != skip ensures CellSeen(st', dirty', Loc(x, j), seen[j]) {
      assert CellSeen(st, dirty, Loc(x, j), seen[j]);
      CellKept(st, dirty, st', dirty', b, Loc(x, j));
    }
  }

  /** BucketAt of a settled bucket is kept. */
  lemma AtKept(st: Store, dirty: set<Loc>, st': Store, dirty': set<Loc>, b: nat, x: nat)
    requires Shape(st) && Shape(st') && KeptMem(st, dirty, st', dirty', b) && x < |st.buckets| == |st'.buckets| && x != b
    requires BucketSeen(st, dirty, x, BucketAt(st, x), 4)
    ensures BucketAt(st', x) == BucketAt(st, x)
  {
    hide CellAt, KeptMem, RecAt, TtlAt;
    forall j: nat | j < 4 ensures CellAt(st', Loc(x, j)) == CellAt(st, Loc(x, j)) {
      assert CellSeen(st, dirty, Loc(x, j), BucketAt(st, x)[j]);
      CellKept(st, dirty, st', dirty', b, Loc(x, j));
    }
  }

  lemma PointKept(st: Store, dirty: set<Loc>, st': Store, dirty': set<Loc>, log: seq<Logged>, log': seq<Logged>, advances: nat,
                  advances': nat, b: nat, th: Thread)
    requires Shape(st) && Shape(st') && KeptMem(st, dirty, st', dirty', b) && th.b < |st.buckets| == |st'.buckets| && th.b != b
    requires Latest(log', KeyOf(th.op)) == Latest(log, KeyOf(th.op)) && advances <= advances'
    requires PointOk(st, dirty, log, advances, th)
    ensures PointOk(st', dirty', log', advances', th)
  {
    hide BucketAt, CellAt, KeptMem, BucketSeen, Chosen, Written, Finished, Latest, TtlAt, RecAt, Wrap64, WordSeen;
    forall seen: Cells.Bucket, skip: nat | BucketSeen(st, dirty, th.b, seen, skip) ensures BucketSeen(st', dirty', th.b, seen, skip) {
      SeenKept(st, dirty, st', dirty', b, th.b, seen, skip);
    }
    if BucketSeen(st, dirty, th.b, BucketAt(st, th.b), 4) { AtKept(st, dirty, st', dirty', b, th.b); }
    forall i: nat | i < 4
      ensures TtlAt(st', Loc(th.b, i)) == TtlAt(st, Loc(th.b, i))
      ensures forall cell :: WordSeen(st, Loc(th.b, i), cell) ==> WordSeen(st', Loc(th.b, i), cell)
    {
      CellKept(st, dirty, st', dirty', b, Loc(th.b, i));
      assert forall cell :: WordSeen(st, Loc(th.b, i), cell) ==> WordSeen(st', Loc(th.b, i), cell) by {
        WordKept(st, st', Loc(th.b, i));
      }
    }
  }

  lemma WordKept(st: Store, st': Store, l: Loc)
    requires InRange(st, l) && InRange(st', l) && RecOfLoc(st', l) == RecOfLoc(st, l)
    ensures forall cell :: WordSeen(st, l, cell) ==> WordSeen(st', l, cell)
  {
    hide RecAt;
  }

  // ---------------------------------------------------------------------
  // Putting a step together
  // ---------------------------------------------------------------------

  lemma PointSame(st: Store, dirty: set<Loc>, log: seq<Logged>, advances: nat, advances': nat, th: Thread)
    requires Shape(st) && th.b < |st.buckets| && advances <= advances' && PointOk(st, dirty, log, advances, th)
    ensures PointOk(st, dirty, log, advances', th)
  {
    hide PointOk, KeptMem;
    KeptSame(st, dirty, th.b + 1);
    PointKept(st, dirty, st, dirty, log, log, advances, advances', th.b + 1, th);
  }

  /** What the step of `t` is allowed to have changed. */
  ghost predicate Within(env: Env, s: Sys, s1: Sys, t: nat, b: nat)
    requires Shape(s.st) && Shape(s1.st)
  {
    && KeptMem(s.st, s.dirty, s1.st, s1.dirty, b)
    && ((s1.st == s.st && s1.dirty == s.dirty && s1.log == s.log) || HoldsOf(Th(s, t)).bucket == Some(b))
    && LogKept(env.c, s.st.bits, s.log, s1.log, b) && s.advances <= s1.advances
  }

  lemma SectionHolds(env: Env, s: Sys, u: nat)
    requires Inv(env, s) && InBucket(Th(s, u).pc)
    ensures Shape(s.st) && HoldsOf(Th(s, u)).bucket == Some(Th(s, u).b) && Th(s, u).b < |s.st.buckets|
    ensures IndexOf(env.c, KeyOf(Th(s, u).op), s.st.bits) == Th(s, u).b
  {
    hide Good, LockOk, DirtyOk, QueueOk, LogOk, CountOk, PcOk, IndexOf;
    GoodShape(s.st, env.c, s.dirty);
    assert ThreadOk(s.st, s.dirty, s.layout, env.c, Th(s, u));
  }

  lemma OtherSections(env: Env, s: Sys, s1: Sys, t: nat, b: nat, u: nat)
    requires Inv(env, s) && Shape(s.st) && Shape(s1.st) && Within(env, s, s1, t, b) && u != t
    requires SectionOk(s.st, s.dirty, s.log, s.advances, Th(s, u)) && |s1.st.buckets| == |s.st.buckets|
    ensures SectionOk(s1.st, s1.dirty, s1.log, s1.advances, Th(s, u))
  {
    hide Good, AllThreadsOk, DirtyOk, QueueOk, LogOk, CountOk, RwOk, MutexesOk, PointOk, KeptMem, HoldsOf, IndexOf, Latest;
    if InBucket(Th(s, u).pc) {
      SectionHolds(env, s, u);
      if s1.st == s.st && s1.dirty == s.dirty && s1.log == s.log {
        PointSame(s.st, s.dirty, s.log, s.advances, s1.advances, Th(s, u));
      } else {
        PointKept(s.st, s.dirty, s1.st, s1.dirty, s.log, s1.log, s.advances, s1.advances, b, Th(s, u));
      }
    }
  }

  lemma StampLater(x: Option<Entered>, advances: nat, advances': nat, t: Ttl)
    requires StampIs(x, advances, t) && advances <= advances'
    ensures StampIs(x, advances', t)
  {}

  /** Slots of other buckets keep their stamps, and stay due or not. */
  lemma OtherStamps(env: Env, s: Sys, s1: Sys, t: nat, th': Thread, b: nat, l: Loc)
    requires Inv(env, s) && Shape(s.st) && Shape(s1.st) && SameFrame(s, s1) && Within(env, s, s1, t, b)
    requires CanTake(s, HoldsOf(Th(s, t)), HoldsOf(th')) && StampedOk(s)
    requires Live(s1.st, s1.dirty, l) && !Due(Relock(s1, t, th'), l)
    requires if HoldsOf(Th(s, t)).bucket == Some(b) then l.b != b else StampDue(Th(s, t)) == None
    requires forall m :: StampDue(Th(s, t)) == Some(m) ==> HoldsOf(Th(s, t)).bucket == Some(m.b)
    ensures SlotStamped(s1.st, s1.log, s1.advances, l)
  {
    hide Good, AllThreadsOk, DirtyOk, QueueOk, LogOk, CountOk, RwOk, MutexesOk, HoldsOf, StampDue, Latest, Wrap64, RecAt, KvAt, TtlAt,
         IndexOf, StampIs, Mutex;
    assert BucketsOk(s) by { LocksSplit(s); }
    RelockTh(s1, t, th');
    assert Th(s1, t) == Th(s, t);
    if Due(s, l) {
      assert s.locks[l.b] != t;
      RelockedElsewhere(s, t, HoldsOf(Th(s, t)), HoldsOf(th'), l.b);
      assert false;
    }
    if !(s1.st == s.st && s1.dirty == s.dirty && s1.log == s.log) {
      LiveKept(s.st, s.dirty, s1.st, s1.dirty, b, l);
      GoodIndex(s.st, env.c, s.dirty, l);
    }
    StampLater(Latest(s.log, KvAt(s.st, l).key), s.advances, s1.advances, TtlAt(s.st, l));
  }

  lemma LiveKept(st: Store, dirty: set<Loc>, st': Store, dirty': set<Loc>, b: nat, l: Loc)
    requires Shape(st) && Shape(st') && KeptMem(st, dirty, st', dirty', b) && Live(st', dirty', l) && l.b != b
    ensures Live(st, dirty, l) && KvAt(st', l) == KvAt(st, l) && TtlAt(st', l) == TtlAt(st, l)
  {
    hide RecAt, KvAt, TtlAt;
    assert st'.buckets[l.b] == st.buckets[l.b];
  }

  lemma GoodIndex(st: Store, c: Config, dirty: set<Loc>, l: Loc)
    requires Good(st, c, dirty) && Live(st, dirty, l)
    ensures Shape(st) && InRange(st, l) && IndexOf(c, KvAt(st, l).key, st.bits) == l.b
  {
    hide RecAt, KvAt, PoolGood, IndexOf, H2Of;
    assert SlotGood(st, c, l);
  }

  /** The own bucket's stamps after the step. */
  ghost predicate OwnStamps(s1: Sys, th': Thread, b: nat)
    requires Shape(s1.st)
  {
    forall l :: Live(s1.st, s1.dirty, l) && l.b == b && StampDue(th') != Some(l) ==> SlotStamped(s1.st, s1.log, s1.advances, l)
  }

  lemma DueOwn(s: Sys, t: nat, l: Loc)
    requires BucketsOk(s) && StampDue(Th(s, t)) == Some(l)
    ensures HoldsOf(Th(s, t)).bucket == Some(l.b) && Due(s, l)
  {}

  lemma Carry(env: Env, s: Sys, s1: Sys, t: nat, th': Thread, b: nat)
    requires Inv(env, s) && Inv(env, Relock(s1, t, th')) && History(s) && SameFrame(s, s1)
    requires CanTake(s, HoldsOf(Th(s, t)), HoldsOf(th'))
    requires Shape(s1.st) && |s1.st.buckets| == |s.st.buckets| && Within(env, s, s1, t, b)
    requires SectionOk(s1.st, s1.dirty, s1.log, s1.advances, th')
    requires s1.epoch == Wrap64(s1.advances) && StampsOk(s1.log)
    requires if HoldsOf(Th(s, t)).bucket == Some(b) then OwnStamps(s1, th', b) else StampDue(th') == None && StampDue(Th(s, t)) == None
    ensures History(Relock(s1, t, th'))
  {
    hide Good, AllThreadsOk, DirtyOk, QueueOk, LogOk, CountOk, RwOk, MutexesOk, HoldsOf, StampDue, SectionOk, SlotStamped, CanTake, StampsOk,
         Wrap64, Live, Within, Due, Relock, SameFrame;
    var s' := Relock(s1, t, th');
    RelockRest(s1, t, th');
    RelockClock(s1, t, th');
    RelockTh(s1, t, th');
    FrameLocks(s, s1);
    assert BucketsOk(s) by { LocksSplit(s); }
    assert BucketsOk(s') by { LocksSplit(s'); }
    forall u: nat ensures SectionOk(s'.st, s'.dirty, s'.log, s'.advances, Th(s', u)) {
      if u != t { OtherSections(env, s, s1, t, b, u); }
    }
    forall m | StampDue(Th(s, t)) == Some(m) ensures HoldsOf(Th(s, t)).bucket == Some(m.b) { DueOwn(s, t, m); }
    LiveRange(s1.st, s1.dirty);
    forall l | Live(s1.st, s1.dirty, l) && !Due(s', l) ensures SlotStamped(s1.st, s1.log, s1.advances, l) {
      if HoldsOf(Th(s, t)).bucket == Some(b) && l.b == b {
        if StampDue(Th(s', t)) == Some(l) { DueOwn(s', t, l); }
      } else {
        OtherStamps(env, s, s1, t, th', b, l);
      }
    }
    assert StampedOk(s');
  }

  lemma RelockClock(s1: Sys, t: nat, th': Thread)
    ensures Relock(s1, t, th').advances == s1.advances && Relock(s1, t, th').epoch == s1.epoch
  {
    hide HoldsOf;
  }

  /** Steps that change neither table nor log. */
  lemma CarryQuiet(env: Env, s: Sys, s1: Sys, t: nat, th': Thread)
    requires Inv(env, s) && Inv(env, Relock(s1, t, th')) && History(s) && SameFrame(s, s1)
    requires CanTake(s, HoldsOf(Th(s, t)), HoldsOf(th'))
    requires s1.st == s.st && s1.dirty == s.dirty && s1.log == s.log && s.advances <= s1.advances && s1.epoch == Wrap64(s1.advances)
    requires Shape(s.st) && SectionOk(s.st, s.dirty, s.log, s1.advances, th')
    requires StampDue(th') == StampDue(Th(s, t))
    ensures History(Relock(s1, t, th'))
  {
    hide Good, AllThreadsOk, DirtyOk, QueueOk, LogOk, CountOk, RwOk, MutexesOk, HoldsOf, StampDue, SectionOk, CanTake, StampsOk,
         Wrap64, Live, Relock, SameFrame, KeptMem, LogKept, AllSections, Latest, KvAt, TtlAt;
    assert BucketsOk(s) by { LocksSplit(s); }
    var h := HoldsOf(Th(s, t)).bucket;
    var b := if h.Some? then h.value else 0;
    KeptSame(s.st, s.dirty, b);
    LogSame(env.c, s.st.bits, s.log, b);
    LiveRange(s.st, s.dirty);
    if h == Some(b) {
      forall l | Live(s.st, s.dirty, l) && l.b == b && StampDue(th') != Some(l) ensures SlotStamped(s.st, s.log, s1.advances, l) {
        NotDue(s, t, l);
        StampLater(Latest(s.log, KvAt(s.st, l).key), s.advances, s1.advances, TtlAt(s.st, l));
      }
    } else if StampDue(Th(s, t)).Some? {
      DueOwn(s, t, StampDue(Th(s, t)).value);
    }
    Carry(env, s, s1, t, th', b);
  }

  lemma NotDue(s: Sys, t: nat, l: Loc)
    requires BucketsOk(s) && HoldsOf(Th(s, t)).bucket == Some(l.b) && StampDue(Th(s, t)) != Some(l)
    ensures !Due(s, l)
  {
    hide HoldsOf, StampDue;
  }
}
