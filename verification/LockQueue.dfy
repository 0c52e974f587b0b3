/**
 The queue of deferred events in every interleaving: which steps change it and how, and
 that every event ever applied was recorded by a hit on the slot it names.
 */
module LockQueue {
  import opened Base
  import opened MetaWord
  import opened Slots
  import opened Hashing
  import opened Stores
  import opened Views
  import opened LockSys
  import opened LockSteps
  import opened LockSafety
  import opened LockCases
  import opened LockSections
  import opened LockRuns
  import E = LockEffects
  import W = LockGrow
  import A = LockAtomic
  import T = LockTime
  import Cells
  import G = StoreGrow
  import H = Rehash
  import S = SyncSpec

  // ---------------------------------------------------------------------
  // One step
  // ---------------------------------------------------------------------

  /** The action is a `get` finding its key's entry, and the entry is not expired. */
  ghost predicate HitNow(env: Env, s: Sys, a: Action)
    requires Inv(env, s)
  {
    && a.Go? && Th(s, a.t).pc.Judge? && Th(s, a.t).op.Get?
    && (InvGood(env, s); InvParts(env, s, a.t); !T.Hides(env, s, a.t, a.lossy))
  }

  /** A live slot holding the key. */
  ghost predicate NamesKey(s: Sys, l: Loc, key: Bytes) {
    Shape(s.st) && Live(s.st, s.dirty, l) && KvAt(s.st, l).key == key
  }

  /** One event was added, for a live slot holding the key, under the current layout. */
  ghost predicate Records(s: Sys, s': Sys, key: Bytes) {
    exists l :: NamesKey(s, l, key) && s'.queue == s.queue + [Tagged(l, s.layout)]
  }

  predicate Pops(s: Sys, a: Action) {
    a.Go? && Th(s, a.t).pc.Draining? && Th(s, a.t).pc.j < 64 && s.queue != [] && !a.lossy
  }

  /**
   What one action does to the queue.  A hit of `get`, and nothing else, adds an event, unless
   the ring refuses it, as it must from 4096 on.  A drain that has had fewer than 64 events
   takes the oldest.  Enlarging the table empties the queue.
   */
  ghost predicate QueueStep(env: Env, s: Sys, a: Action)
    requires Inv(env, s)
  {
    var s' := Step(env, s, a);
    if HitNow(env, s, a) then
      if a.lossy || |s.queue| >= 4096 then s'.queue == s.queue else Records(s, s', KeyOf(Th(s, a.t).op))
    else if Pops(s, a) then
      s'.queue == s.queue[1..] && Th(s', a.t).pc == DrainLock(Th(s, a.t).pc.j, s.queue[0])
    else if |s'.st.buckets| != |s.st.buckets| then
      s'.queue == [] && s'.layout == s.layout + 1
    else
      s'.queue == s.queue && s'.layout == s.layout
  }

  lemma NextQueue(env: Env, s: Sys, t: nat, lossy: bool)
    requires Good(s.st, env.c, s.dirty) && ThreadOk(s.st, s.dirty, s.layout, env.c, Th(s, t)) && !Th(s, t).pc.GrowWork?
    ensures var th := Th(s, t);
            var (s1, th') := Next(env, s, t, lossy);
            && s1.layout == s.layout
            && s1.queue == if th.pc.Judge? && th.op.Get? && !T.Hides(env, s, t, lossy) && !lossy && |s.queue| < 4096
                           then s.queue + [Tagged(Loc(th.b, th.pc.i), s.layout)]
                           else if th.pc.Draining? && th.pc.j < 64 && s.queue != [] && !lossy then s.queue[1..]
                           else s.queue
  {
    hide Good, NoneBelow, Holding, Live, IndexOf, Mode, KvAt, RecAt, H2Of, Cells.SyncTarget, Cells.Expired, BucketAt,
         ExtHi, ExtFp, InlineKey, Matches, Wrap64, Release, ClearStore, PutStore, TouchStore, SetTtl,
         EvOk, CeilBits, Pow2, FitsInline, StoringOk, FreeingOk, StampOk, ScanSlot, AfterMiss, AfterMatch, G.Fill, H.Items;
    GoodShape(s.st, env.c, s.dirty);
    var th := Th(s, t);
    if th.pc.Storing? || th.pc.Allocating? { E.StoringThread(s.st, s.dirty, s.layout, env.c, th); }
    if th.pc.Judge? { JudgeLogs(env, s, t, lossy); }
  }

  lemma JudgeLogs(env: Env, s: Sys, t: nat, lossy: bool)
    requires Good(s.st, env.c, s.dirty) && ThreadOk(s.st, s.dirty, s.layout, env.c, Th(s, t)) && Th(s, t).pc.Judge?
    ensures Th(s, t).op.Get? || Th(s, t).op.Peek?
    ensures var tt := Th(s, t).pc.t; T.Hides(env, s, t, lossy) <==> Cells.Expired(tt.epoch, tt.ttl, s.epoch, s.dflt)
  {
    hide Good, ThreadOk, T.Hides, Cells.Expired;
    GoodShape(s.st, env.c, s.dirty);
    E.JudgeThread(s.st, s.dirty, s.layout, env.c, Th(s, t));
    T.HidesIsExpired(env, s, t, lossy);
  }

  /** Neither recording nor taking an event waits for a lock. */
  lemma NextFree(env: Env, s: Sys, t: nat, lossy: bool)
    requires Good(s.st, env.c, s.dirty) && ThreadOk(s.st, s.dirty, s.layout, env.c, Th(s, t))
    requires Th(s, t).pc.Draining? || (Th(s, t).pc.Judge? && Th(s, t).op.Get?)
    ensures CanTake(s, HoldsOf(Th(s, t)), HoldsOf(Next(env, s, t, lossy).1))
    ensures Pops(s, Go(t, lossy)) ==> Next(env, s, t, lossy).1.pc == DrainLock(Th(s, t).pc.j, s.queue[0])
  {
    hide Good, Holding, IndexOf, Mode, KvAt, Cells.Expired, EvOk;
    GoodShape(s.st, env.c, s.dirty);
  }

  lemma GoQueue(env: Env, bits: nat, acts: seq<Action>, a: Action)
    requires Pow2(bits) <= MAX_BUCKETS && a.Go? && !Th(Run(env, bits, acts), a.t).pc.GrowWork?
    ensures QueueStep(env, Run(env, bits, acts), a)
  {
    hide Run, Inv, History, Pow2, Good, ThreadOk, Next, CanTake, HoldsOf, Relock, NamesKey, T.Hides;
    var s, t := Run(env, bits, acts), a.t;
    InvGood(env, s);
    InvParts(env, s, t);
    A.OthersUntouched(env, bits, acts, a);
    var (s1, th') := Next(env, s, t, a.lossy);
    NextQueue(env, s, t, a.lossy);
    RelockRest(s1, t, th');
    RelockTh(s1, t, th');
    if HitNow(env, s, a) {
      NextFree(env, s, t, a.lossy);
      E.JudgeThread(s.st, s.dirty, s.layout, env.c, Th(s, t));
      assert NamesKey(s, Loc(Th(s, t).b, Th(s, t).pc.i), KeyOf(Th(s, t).op)) by { HoldingNames(s, Loc(Th(s, t).b, Th(s, t).pc.i), KeyOf(Th(s, t).op)); }
    } else if Pops(s, a) {
      NextFree(env, s, t, a.lossy);
    }
  }

  lemma HoldingNames(s: Sys, l: Loc, key: Bytes)
    requires Shape(s.st) && Holding(s.st, s.dirty, l, key)
    ensures NamesKey(s, l, key)
  {}

  lemma GrowQueue(env: Env, s: Sys, a: Action)
    requires Inv(env, s) && a.Go? && Th(s, a.t).pc.GrowWork?
    ensures QueueStep(env, s, a)
  {
    hide Inv, Good, ThreadOk, CanTake, HoldsOf, Relock, CeilBits, H.Has, H.Items, G.Fill;
    InvGood(env, s);
    InvParts(env, s, a.t);
    GrowRange(s, env.c, a.t);
    W.GrowStepLosesNothing(env, s, a.t);
    GoodShape(GrowStep(env, s, Th(s, a.t).pc.n).st, env.c, {});
    var (s1, th') := Next(env, s, a.t, a.lossy);
    RelockRest(s1, a.t, th');
  }

  lemma GrowRange(s: Sys, c: Config, t: nat)
    requires Shape(s.st) && ThreadOk(s.st, s.dirty, s.layout, c, Th(s, t)) && (Th(s, t).pc.GrowWork? || Th(s, t).pc.GrowWait?)
    ensures Pow2(CeilBits(Th(s, t).pc.n)) <= MAX_BUCKETS
  {}

  /** In every run every action treats the queue this way. */
  lemma QueueSteps(env: Env, bits: nat, acts: seq<Action>, a: Action)
    requires Pow2(bits) <= MAX_BUCKETS
    ensures QueueStep(env, Run(env, bits, acts), a)
  {
    hide Run, Inv, Pow2, CeilBits;
    var s := Run(env, bits, acts);
    match a
    case Begin(t, op) => RelockRest(s, t, Thread(op, 0, Entry(env, op), NOBODY.seen));
    case SetDefault(_) =>
    case Go(t, _) => if Th(s, t).pc.GrowWork? { GrowQueue(env, s, a); } else { GoQueue(env, bits, acts, a); }
  }

  // ---------------------------------------------------------------------
  // Where events come from
  // ---------------------------------------------------------------------

  /** The thread has taken this event and not yet applied it. */
  predicate InHand(th: Thread, ev: Tagged) {
    (th.pc.DrainLock? || th.pc.DrainApply?) && th.pc.ev == ev
  }

  ghost predicate Pending(s: Sys, ev: Tagged) {
    ev in s.queue || exists t: nat :: InHand(Th(s, t), ev)
  }

  /** Action `n` was a hit of a `get`, in the slot the event names, under the layout it carries. */
  ghost predicate HitAt(env: Env, bits: nat, acts: seq<Action>, n: nat, ev: Tagged)
    requires Pow2(bits) <= MAX_BUCKETS && n < |acts|
  {
    var q, a := Run(env, bits, acts[..n]), acts[n];
    HitNow(env, q, a) && NamesKey(q, ev.loc, KeyOf(Th(q, a.t).op)) && ev.layout == q.layout
  }

  /** A drain keeps hold of the very event it took, and takes at most 64. */
  lemma NextHand(env: Env, s: Sys, t: nat, lossy: bool)
    requires Good(s.st, env.c, s.dirty) && ThreadOk(s.st, s.dirty, s.layout, env.c, Th(s, t))
    ensures var pc, next := Th(s, t).pc, Next(env, s, t, lossy).1.pc;
            && (next.DrainLock? ==> pc == Draining(next.j) && next.j < 64 && s.queue != [] && next.ev == s.queue[0])
            && (next.DrainApply? ==> pc == DrainLock(next.j, next.ev))
  {
    hide Good, NoneBelow, Holding, Live, IndexOf, Mode, KvAt, RecAt, H2Of, Cells.SyncTarget, Cells.Expired, BucketAt,
         ExtHi, ExtFp, InlineKey, Matches, Wrap64, Pushed, Release, ClearStore, PutStore, TouchStore, SetTtl,
         EvOk, CeilBits, Pow2, FitsInline, StoringOk, FreeingOk, StampOk, GrowStep;
    GoodShape(s.st, env.c, s.dirty);
    var th := Th(s, t);
    if th.pc.Storing? || th.pc.Allocating? {
      E.StoringThread(s.st, s.dirty, s.layout, env.c, th);
      E.PutMoves(env, s, th, th.pc.i, th.pc.kind);
    }
  }

  lemma StartEmpty(bits: nat, ev: Tagged)
    requires Pow2(bits) <= MAX_BUCKETS
    ensures !Pending(Start(bits), ev)
  {
    hide EmptyStore;
    assert forall t: nat :: Th(Start(bits), t) == NOBODY;
  }

  /** An event in somebody's hand after an action was pending before it. */
  lemma HandBefore(env: Env, s: Sys, a: Action, t: nat, ev: Tagged)
    requires Inv(env, s) && InHand(Th(Step(env, s, a), t), ev)
    ensures Pending(s, ev)
  {
    hide Inv, Step, Good, ThreadOk, Next, Moves;
    ThreadAfter(env, s, a, t);
    if Moves(env, s, a, t) {
      T.MovesIs(env, s, a, t);
      NextHand(env, s, t, a.lossy);
    }
    assert InHand(Th(s, t), ev) || ev in s.queue;
  }

  /**
   In every interleaving an event that is queued, or in the hands of a draining thread, was
   recorded by a hit in the slot it names, under the layout it carries.
   */
  lemma {:induction false} EventsWereHits(env: Env, bits: nat, acts: seq<Action>, ev: Tagged)
    requires Pow2(bits) <= MAX_BUCKETS && Pending(Run(env, bits, acts), ev)
    ensures exists n :: 0 <= n < |acts| && HitAt(env, bits, acts, n, ev)
    decreases |acts|
  {
    hide Inv, History, Step, Pow2, NamesKey, HitNow, Pops, InHand;
    if acts == [] {
      StartEmpty(bits, ev);
    } else {
      var m := |acts| - 1;
      var s, s' := Run(env, bits, acts[..m]), Run(env, bits, acts);
      QueueSteps(env, bits, acts[..m], acts[m]);
      if ev in s'.queue && ev !in s.queue {
        assert HitAt(env, bits, acts, m, ev);
      } else {
        if ev !in s.queue {
          var t: nat :| InHand(Th(s', t), ev);
          HandBefore(env, s, acts[m], t, ev);
        }
        EventsWereHits(env, bits, acts[..m], ev);
        var n :| 0 <= n < m && HitAt(env, bits, acts[..m], n, ev);
        assert acts[..m][..n] == acts[..n];
        assert HitAt(env, bits, acts, n, ev);
      }
    }
  }

  /** In every interleaving a drain takes at most 64 events: they are numbered 0 to 63. */
  lemma {:induction false} DrainBounded(env: Env, bits: nat, acts: seq<Action>, t: nat)
    requires Pow2(bits) <= MAX_BUCKETS
    ensures var pc := Th(Run(env, bits, acts), t).pc; pc.DrainLock? || pc.DrainApply? ==> pc.j < 64
    decreases |acts|
  {
    hide Inv, History, Step, Pow2, Good, ThreadOk, Next, Moves;
    if acts != [] {
      var m := |acts| - 1;
      var s := Run(env, bits, acts[..m]);
      DrainBounded(env, bits, acts[..m], t);
      ThreadAfter(env, s, acts[m], t);
      if Moves(env, s, acts[m], t) {
        T.MovesIs(env, s, acts[m], t);
        NextHand(env, s, t, acts[m].lossy);
      }
    } else {
      StartIdle(bits, t);
    }
  }

  lemma StartIdle(bits: nat, t: nat)
    requires Pow2(bits) <= MAX_BUCKETS
    ensures Th(Start(bits), t).pc.Idle?
  {
    hide EmptyStore;
  }

  /** The ring never holds more than 4096 events. */
  lemma {:induction false} QueueBounded(env: Env, bits: nat, acts: seq<Action>)
    requires Pow2(bits) <= MAX_BUCKETS
    ensures |Run(env, bits, acts).queue| <= 4096
    decreases |acts|
  {
    hide Inv, History, Step, Pow2, NamesKey, HitNow;
    if acts != [] {
      var m := |acts| - 1;
      QueueBounded(env, bits, acts[..m]);
      QueueSteps(env, bits, acts[..m], acts[m]);
    }
  }
}
