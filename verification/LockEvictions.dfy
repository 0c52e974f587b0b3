/** The eviction counter in every interleaving: one for each victim given up, and nothing else. */
module LockEvictions {
  import opened Base
  import opened MetaWord
  import opened Slots
  import opened Hashing
  import opened Stores
  import opened Views
  import opened LockSys
  import opened LockSteps
  import opened LockSafety
  import opened LockCases
  import opened LockSections
  import opened LockSectionSteps
  import opened LockRuns
  import E = LockEffects
  import Cells
  import G = StoreGrow
  import H = Rehash

  /** An insert of this key into this bucket has to push an entry out: four other keys are there. */
  predicate NoRoom(bk: Cells.Bucket, key: Bytes) {
    forall j :: 0 <= j < 4 ==> bk[j].Held? && bk[j].e.key != key
  }

  /** The action claims a slot to rewrite, for an insert whose bucket had no room when it was locked. */
  ghost predicate GivesUp(env: Env, s: Sys, a: Action)
    requires Inv(env, s)
  {
    && a.Go? && Moves(env, s, a, a.t)
    && var th' := Th(Step(env, s, a), a.t); th'.pc.Storing? && NoRoom(th'.seen, KeyOf(th'.op))
  }

  /** Entries given up in a run. */
  ghost function GivenUp(env: Env, bits: nat, acts: seq<Action>): nat
    requires Pow2(bits) <= MAX_BUCKETS
    decreases |acts|
  {
    hide Inv, History, Pow2, GivesUp;
    if acts == [] then 0
    else
      GivenUp(env, bits, acts[..|acts| - 1])
      + if GivesUp(env, Run(env, bits, acts[..|acts| - 1]), acts[|acts| - 1]) then 1 else 0
  }

  lemma NextEvicts(env: Env, s: Sys, t: nat, lossy: bool)
    requires Good(s.st, env.c, s.dirty) && ThreadOk(s.st, s.dirty, s.layout, env.c, Th(s, t))
    ensures var (s1, th') := Next(env, s, t, lossy);
            s1.evictions == s.evictions + if th'.pc.Storing? && th'.pc.kind == Evict then 1 else 0
  {
    hide Good, NoneBelow, Holding, Live, IndexOf, Mode, KvAt, RecAt, H2Of, Cells.SyncTarget, Cells.Expired, BucketAt,
         ExtHi, ExtFp, InlineKey, Matches, Wrap64, Pushed, Release, ClearStore, PutStore, TouchStore, SetTtl,
         EvOk, CeilBits, Pow2, FitsInline, StoringOk, FreeingOk, StampOk, G.Fill, H.Items;
    GoodShape(s.st, env.c, s.dirty);
    var th := Th(s, t);
    if th.pc.Storing? || th.pc.Allocating? { E.StoringThread(s.st, s.dirty, s.layout, env.c, th); }
  }

  /** What a claimed slot is for follows from the bucket as it was locked. */
  lemma ClaimIs(env: Env, s: Sys, t: nat)
    requires Inv(env, s) && History(s) && Th(s, t).pc.Storing?
    ensures var th := Th(s, t); th.pc.kind == Evict <==> NoRoom(th.seen, KeyOf(th.op))
  {
    hide Inv, AllSections, TimeOk, BucketSeen, WordSeen, Cells.Find, Cells.SyncTarget, Cells.IsVictim;
    AllOf(s, t);
    var th := Th(s, t);
    StoringKind(env, s, t);
    ClaimedKind(th.seen, th.op, th.pc.i, th.pc.kind);
  }

  lemma StoringKind(env: Env, s: Sys, t: nat)
    requires Inv(env, s) && Th(s, t).pc.Storing?
    ensures Th(s, t).pc.kind != Drop
  {
    hide Good, LockOk, DirtyOk, QueueOk, LogOk, CountOk, NoneBelow, IndexOf, RecAt, H2Of;
    GoodShape(s.st, env.c, s.dirty);
    assert ThreadOk(s.st, s.dirty, s.layout, env.c, Th(s, t));
  }

  lemma ClaimedKind(seen: Cells.Bucket, op: Op, i: nat, kind: Kind)
    requires i < 4 && Chosen(seen, op, i, kind) && kind != Drop
    ensures kind == Evict <==> NoRoom(seen, KeyOf(op))
  {
    hide Cells.IsVictim, Cells.SyncTarget;
    Cells.FindHolds(seen, KeyOf(op));
    Cells.SyncTargetIs(seen);
  }

  lemma StepEvicts(env: Env, s: Sys, a: Action)
    requires Inv(env, s) && History(s)
    ensures Step(env, s, a).evictions == s.evictions + if GivesUp(env, s, a) then 1 else 0
  {
    hide Inv, History, Good, ThreadOk, Next, CanTake, HoldsOf, NoRoom, CeilBits, Pow2, Relocked, Mutex, Entry;
    StepKeeps(env, s, a);
    if a.Go? {
      InvGood(env, s);
      InvParts(env, s, a.t);
      NextEvicts(env, s, a.t, a.lossy);
      ThreadAfter(env, s, a, a.t);
      if Th(Step(env, s, a), a.t).pc.Storing? { ClaimIs(env, Step(env, s, a), a.t); }
    }
  }

  /** In every interleaving the eviction counter is the number of entries given up to make room. */
  lemma {:induction false} EvictionsExact(env: Env, bits: nat, acts: seq<Action>)
    requires Pow2(bits) <= MAX_BUCKETS
    ensures Run(env, bits, acts).evictions == GivenUp(env, bits, acts)
    decreases |acts|
  {
    hide Inv, History, Step, Pow2, GivesUp;
    if acts != [] {
      EvictionsExact(env, bits, acts[..|acts| - 1]);
      StepEvicts(env, Run(env, bits, acts[..|acts| - 1]), acts[|acts| - 1]);
    } else {
      StartEvictions(bits);
    }
  }

  lemma StartEvictions(bits: nat)
    requires Pow2(bits) <= MAX_BUCKETS
    ensures Start(bits).evictions == 0
  {
    hide EmptyStore;
  }
}
