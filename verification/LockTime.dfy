/** Epoch TTL in every interleaving: an entry is hidden exactly when it is too old. */
module LockTime {
  import opened Base
  import opened MetaWord
  import opened Slots
  import opened Hashing
  import opened Stores
  import opened Views
  import opened LockSys
  import opened LockSteps
  import opened LockSafety
  import opened LockCases
  import opened LockSections
  import opened LockSectionSteps
  import opened LockRuns
  import E = LockEffects
  import Cells
  import G = StoreGrow
  import H = Rehash
  import N = RawRuns

  /** The expiry check of `t` answers "no entry": it ends the lookup without a hit. */
  ghost predicate Hides(env: Env, s: Sys, t: nat, lossy: bool)
    requires Good(s.st, env.c, s.dirty) && ThreadOk(s.st, s.dirty, s.layout, env.c, Th(s, t))
  {
    var (s1, th') := Next(env, s, t, lossy);
    th'.pc.Unlock? && s1.log == s.log
  }

  /** The argument of the last `set_ttl` of the run, 0 before any. */
  function LastDefault(acts: seq<Action>): nat
    decreases |acts|
  {
    if acts == [] then 0
    else if acts[|acts| - 1].SetDefault? then acts[|acts| - 1].ttl
    else LastDefault(acts[..|acts| - 1])
  }

  /** The TTL the key's latest insert was given, or `dflt` if it asked for the default. */
  function Limit(s: Sys, key: Bytes, dflt: nat): nat
    requires Latest(s.log, key).Some?
  {
    var ttl := Latest(s.log, key).value.ttl;
    if ttl == 0 then dflt else ttl
  }

  /** The key's latest insert is stamped. */
  predicate Aged(s: Sys, key: Bytes) {
    var x := Latest(s.log, key);
    x.Some? && x.value.at.Some? && x.value.at.value <= s.advances
  }

  /** Epoch advances since the key's stamp. */
  function Age(s: Sys, key: Bytes): nat
    requires Aged(s, key)
  {
    s.advances - Latest(s.log, key).value.at.value
  }

  /** Its TTL is finite and more advances than that came after its stamp. */
  predicate TooOld(s: Sys, key: Bytes, dflt: nat) {
    Aged(s, key) && var n := Limit(s, key, dflt); n != 0 && n != U64 - 1 && Age(s, key) > n
  }

  ghost predicate JudgedExactly(env: Env, s: Sys, t: nat, lossy: bool, dflt: nat)
    requires Good(s.st, env.c, s.dirty) && ThreadOk(s.st, s.dirty, s.layout, env.c, Th(s, t))
  {
    var key := KeyOf(Th(s, t).op);
    && Aged(s, key)
    && (Age(s, key) < U64 ==> (Hides(env, s, t, lossy) <==> TooOld(s, key, dflt)))
  }

  /** At the expiry check a thread looks at the slot of its key, stamped by its latest insert. */
  lemma JudgedStamp(env: Env, s: Sys, t: nat)
    requires Inv(env, s) && History(s) && Th(s, t).pc.Judge?
    ensures var th := Th(s, t);
            StampIs(Latest(s.log, KeyOf(th.op)), s.advances, th.pc.t) && (th.op.Get? || th.op.Peek?)
  {
    hide Good, AllThreadsOk, DirtyOk, QueueOk, LogOk, CountOk, RwOk, MutexesOk, HoldsOf, StampsOk, AllSections, BucketSeen, Latest, KvAt, TtlAt,
         RecAt, IndexOf, Due, StampIs, ThreadOk, Wrap64;
    InvParts(env, s, t);
    AllOf(s, t);
    SectionHolds(env, s, t);
    var th := Th(s, t);
    E.JudgeThread(s.st, s.dirty, s.layout, env.c, th);
    var l := Loc(th.b, th.pc.i);
    NotDue(s, t, l);
    assert SlotStamped(s.st, s.log, s.advances, l);
  }

  lemma ExpiredIsOld(s: Sys, key: Bytes, t: Ttl)
    requires s.epoch == Wrap64(s.advances) && StampIs(Latest(s.log, key), s.advances, t)
    ensures Aged(s, key) && (Age(s, key) < U64 ==> (Cells.Expired(t.epoch, t.ttl, s.epoch, s.dflt) <==> TooOld(s, key, s.dflt)))
  {
    hide Latest, Wrap64, Cells.WrappingSub;
    var at := Latest(s.log, key).value.at.value;
    if Age(s, key) < U64 { N.WrappedAge(at, s.advances - at); }
  }

  lemma HidesIsExpired(env: Env, s: Sys, t: nat, lossy: bool)
    requires Good(s.st, env.c, s.dirty) && ThreadOk(s.st, s.dirty, s.layout, env.c, Th(s, t))
    requires Th(s, t).pc.Judge? && (Th(s, t).op.Get? || Th(s, t).op.Peek?)
    ensures var tt := Th(s, t).pc.t; Hides(env, s, t, lossy) <==> Cells.Expired(tt.epoch, tt.ttl, s.epoch, s.dflt)
  {
    hide Good, Cells.Expired, Holding, IndexOf, KvAt, Mode, Pushed, RecAt;
    GoodShape(s.st, env.c, s.dirty);
    var (s1, th') := Next(env, s, t, lossy);
    assert s1.log == s.log || |s1.log| == |s.log| + 1;
  }

  /** A step adds at most one log entry, never takes time back, and only SetDefault changes the default. */
  lemma StepForward(env: Env, s: Sys, a: Action)
    requires Inv(env, s) && History(s)
    ensures var s' := Step(env, s, a);
            s.log <= s'.log && s.advances <= s'.advances && (!a.SetDefault? ==> s'.dflt == s.dflt)
  {
    hide Good, AllThreadsOk, DirtyOk, QueueOk, LogOk, CountOk, LockOk, CanTake, HoldsOf, Next, AllSections, TimeOk, PcOk, CeilBits, Pow2,
         Relocked, Mutex, Entry;
    if a.Go? {
      InvParts(env, s, a.t);
      InvGood(env, s);
      NextForward(env, s, a.t, a.lossy);
    }
  }

  lemma NextForward(env: Env, s: Sys, t: nat, lossy: bool)
    requires Good(s.st, env.c, s.dirty) && ThreadOk(s.st, s.dirty, s.layout, env.c, Th(s, t))
    ensures var s1 := Next(env, s, t, lossy).0; s.log <= s1.log && s.advances <= s1.advances && s1.dflt == s.dflt
  {
    hide Good, NoneBelow, Holding, Live, IndexOf, Mode, KvAt, RecAt, H2Of, Cells.SyncTarget, Cells.Expired, BucketAt,
         ExtHi, ExtFp, InlineKey, Matches, Wrap64, Pushed, Release, ClearStore, PutStore, TouchStore, SetTtl,
         EvOk, CeilBits, Pow2, FitsInline, StoringOk, FreeingOk, StampOk, ScanSlot, AfterMiss, AfterMatch, G.Fill, H.Items;
    GoodShape(s.st, env.c, s.dirty);
    var th := Th(s, t);
    if th.pc.Storing? || th.pc.Allocating? { E.StoringThread(s.st, s.dirty, s.layout, env.c, th); }
  }

  lemma SetDefaultSets(env: Env, s: Sys, d: nat)
    requires Inv(env, s)
    ensures Step(env, s, SetDefault(d)).dflt == d
  {
    hide Inv;
  }

  /** In every run the default TTL is the argument of the last `set_ttl`. */
  lemma {:induction false} DefaultIsLast(env: Env, bits: nat, acts: seq<Action>)
    requires Pow2(bits) <= MAX_BUCKETS
    ensures Run(env, bits, acts).dflt == LastDefault(acts)
    decreases |acts|
  {
    hide Inv, History, Step, Pow2;
    if acts != [] {
      var n := |acts| - 1;
      DefaultIsLast(env, bits, acts[..n]);
      StepForward(env, Run(env, bits, acts[..n]), acts[n]);
      if acts[n].SetDefault? { SetDefaultSets(env, Run(env, bits, acts[..n]), acts[n].ttl); }
    }
  }

  /**
   In every interleaving a lookup that found its key is hidden if and only if the key's TTL
   (or that of the last `set_ttl`) is finite and more epoch advances than that came after its
   stamp, as long as fewer than 2^64 did.
   */
  lemma ExpiryIsExact(env: Env, bits: nat, acts: seq<Action>, t: nat, lossy: bool)
    requires Pow2(bits) <= MAX_BUCKETS
    ensures var s := Run(env, bits, acts);
            && Good(s.st, env.c, s.dirty) && ThreadOk(s.st, s.dirty, s.layout, env.c, Th(s, t))
            && (Th(s, t).pc.Judge? ==> JudgedExactly(env, s, t, lossy, LastDefault(acts)))
  {
    hide Run, Inv, Pow2, Good, ThreadOk, Hides, StampIs, AllSections, StampsOk, StampedOk, Aged, TooOld, Cells.Expired, Wrap64;
    var s := Run(env, bits, acts);
    InvGood(env, s);
    InvParts(env, s, t);
    DefaultIsLast(env, bits, acts);
    if Th(s, t).pc.Judge? {
      JudgedStamp(env, s, t);
      ExpiredIsOld(s, KeyOf(Th(s, t).op), Th(s, t).pc.t);
      HidesIsExpired(env, s, t, lossy);
    }
  }

  // ---------------------------------------------------------------------
  // Hidden stays hidden
  // ---------------------------------------------------------------------

  /** Without a new insert a stamped key keeps its stamp, or is removed. */
  lemma {:induction false} LatestStays(log: seq<Logged>, log': seq<Logged>, key: Bytes)
    requires log <= log' && StampsOk(log') && Latest(log, key).Some? && Latest(log, key).value.at.Some?
    requires forall p :: |log| <= p < |log'| ==> !(log'[p].Inserted? && log'[p].key == key)
    ensures Latest(log', key) == Latest(log, key) || Latest(log', key) == None
    decreases |log'|
  {
    if |log'| > |log| {
      var n := |log'| - 1;
      var init := log'[..n];
      assert StampsOk(init) by {
        forall p: nat | p < n ensures StampAt(init, p) { assert StampAt(log', p) && init[..p] == log'[..p]; }
      }
      LatestStays(log, init, key);
      assert StampAt(log', n);
    } else {
      assert log' == log;
    }
  }

  lemma {:induction false} RunForward(env: Env, bits: nat, acts: seq<Action>, more: seq<Action>)
    requires Pow2(bits) <= MAX_BUCKETS && forall k :: 0 <= k < |more| ==> !more[k].SetDefault?
    ensures var s, s' := Run(env, bits, acts), Run(env, bits, acts + more);
            s.log <= s'.log && s.advances <= s'.advances && s'.dflt == s.dflt
    decreases |more|
  {
    hide Inv, History, Step, Pow2;
    if more == [] {
      assert acts + more == acts;
    } else {
      var n := |more| - 1;
      RunForward(env, bits, acts, more[..n]);
      assert (acts + more)[..|acts + more| - 1] == acts + more[..n];
      StepForward(env, Run(env, bits, acts + more[..n]), more[n]);
    }
  }

  /** Under a fixed default TTL an expired key stays hidden until it is inserted again, in every interleaving. */
  lemma HiddenUntilReinserted(env: Env, bits: nat, acts: seq<Action>, more: seq<Action>, key: Bytes, t: nat, lossy: bool)
    requires Pow2(bits) <= MAX_BUCKETS && TooOld(Run(env, bits, acts), key, LastDefault(acts))
    requires forall k :: 0 <= k < |more| ==> !more[k].SetDefault?
    requires var s, s' := Run(env, bits, acts), Run(env, bits, acts + more);
             && (forall p :: |s.log| <= p < |s'.log| ==> !(s'.log[p].Inserted? && s'.log[p].key == key))
             && s'.advances - s.advances + Age(s, key) < U64
    ensures var s' := Run(env, bits, acts + more);
            && Good(s'.st, env.c, s'.dirty) && ThreadOk(s'.st, s'.dirty, s'.layout, env.c, Th(s', t))
            && (Th(s', t).pc.Judge? && KeyOf(Th(s', t).op) == key ==> Hides(env, s', t, lossy))
  {
    hide Run, Inv, Pow2, Good, ThreadOk, Hides, AllSections, StampsOk, StampedOk, Latest, Wrap64;
    var s, s' := Run(env, bits, acts), Run(env, bits, acts + more);
    RunForward(env, bits, acts, more);
    DefaultIsLast(env, bits, acts);
    DefaultIsLast(env, bits, acts + more);
    LatestStays(s.log, s'.log, key);
    ExpiryIsExact(env, bits, acts + more, t, lossy);
  }

  // ---------------------------------------------------------------------
  // What the counts in the log are
  // ---------------------------------------------------------------------

  /** Inserts of the run that have advanced the epoch. */
  ghost function Advanced(env: Env, bits: nat, acts: seq<Action>): nat
    requires Pow2(bits) <= MAX_BUCKETS
    decreases |acts|
  {
    hide Inv, History, Pow2;
    if acts == [] then 0
    else
      var a := acts[|acts| - 1];
      Advanced(env, bits, acts[..|acts| - 1])
      + if a.Go? && Th(Run(env, bits, acts[..|acts| - 1]), a.t).pc.Advance? then 1 else 0
  }

  lemma StepAdvances(env: Env, s: Sys, a: Action)
    requires Inv(env, s)
    ensures Step(env, s, a).advances == s.advances + if a.Go? && Th(s, a.t).pc.Advance? then 1 else 0
  {
    hide Good, AllThreadsOk, DirtyOk, QueueOk, LogOk, CountOk, LockOk, Next, Relock, CeilBits, Pow2, ThreadOk, CanTake, HoldsOf;
    match a
    case Begin(t, op) => RelockClock(s, t, Thread(op, 0, Entry(env, op), NOBODY.seen));
    case SetDefault(_) =>
    case Go(t, lossy) =>
      InvParts(env, s, t);
      InvGood(env, s);
      var (s1, th') := Next(env, s, t, lossy);
      NextAdvances(env, s, t, lossy);
      RelockClock(s1, t, th');
  }

  lemma NextAdvances(env: Env, s: Sys, t: nat, lossy: bool)
    requires Good(s.st, env.c, s.dirty) && ThreadOk(s.st, s.dirty, s.layout, env.c, Th(s, t))
    ensures Next(env, s, t, lossy).0.advances == s.advances + if Th(s, t).pc.Advance? then 1 else 0
    ensures Th(s, t).pc.Advance? ==> CanTake(s, HoldsOf(Th(s, t)), HoldsOf(Next(env, s, t, lossy).1))
  {
    hide Good, NoneBelow, Holding, Live, IndexOf, Mode, KvAt, RecAt, H2Of, Cells.SyncTarget, Cells.Expired, BucketAt,
         ExtHi, ExtFp, InlineKey, Matches, Wrap64, Pushed, Release, ClearStore, PutStore, TouchStore, SetTtl,
         EvOk, CeilBits, Pow2, FitsInline, StoringOk, FreeingOk, StampOk, ScanSlot, AfterMiss, AfterMatch, G.Fill, H.Items;
    GoodShape(s.st, env.c, s.dirty);
    var th := Th(s, t);
    if th.pc.Storing? || th.pc.Allocating? { E.StoringThread(s.st, s.dirty, s.layout, env.c, th); }
  }

  /** `advances` counts exactly the inserts that advanced the epoch, and the 64-bit epoch is that count modulo 2^64. */
  lemma {:induction false} EpochCountsInserts(env: Env, bits: nat, acts: seq<Action>)
    requires Pow2(bits) <= MAX_BUCKETS
    ensures var s := Run(env, bits, acts); s.advances == Advanced(env, bits, acts) && s.epoch == Wrap64(Advanced(env, bits, acts))
    decreases |acts|
  {
    hide Inv, Step, Pow2, Wrap64, AllSections, StampsOk, StampedOk;
    if acts != [] {
      EpochCountsInserts(env, bits, acts[..|acts| - 1]);
      StepAdvances(env, Run(env, bits, acts[..|acts| - 1]), acts[|acts| - 1]);
    }
    assert TimeOk(Run(env, bits, acts));
  }

  /** At action `n` thread `t` was about to load the epoch, for the insert `op`, when `at` advances had happened. */
  ghost predicate LoadedAt(env: Env, bits: nat, acts: seq<Action>, t: nat, n: nat, op: Op, at: nat)
    requires Pow2(bits) <= MAX_BUCKETS && n < |acts|
  {
    var q := Run(env, bits, acts[..n]);
    Th(q, t).pc.LoadEpoch? && Th(q, t).op == op && q.advances == at
  }

  lemma NextLoads(env: Env, s: Sys, t: nat, lossy: bool)
    requires Good(s.st, env.c, s.dirty) && ThreadOk(s.st, s.dirty, s.layout, env.c, Th(s, t))
    ensures var th, th' := Th(s, t), Next(env, s, t, lossy).1;
            && (th'.pc.WantStamp? ==> th.pc.LoadEpoch? && th'.pc.at == s.advances && th'.op == th.op)
            && (th'.pc.Stamping? ==> th.pc.WantStamp? && th'.pc.at == th.pc.at && th'.op == th.op)
  {
    hide Good, NoneBelow, Holding, Live, IndexOf, Mode, KvAt, RecAt, H2Of, Cells.SyncTarget, Cells.Expired, BucketAt,
         ExtHi, ExtFp, InlineKey, Matches, Wrap64, Pushed, Release, ClearStore, PutStore, TouchStore, SetTtl,
         EvOk, CeilBits, Pow2, FitsInline, StoringOk, FreeingOk, StampOk, GrowStep;
    GoodShape(s.st, env.c, s.dirty);
    var th := Th(s, t);
    if th.pc.Storing? || th.pc.Allocating? {
      E.StoringThread(s.st, s.dirty, s.layout, env.c, th);
      E.PutMoves(env, s, th, th.pc.i, th.pc.kind);
    }
  }

  lemma {:induction false} Loading(env: Env, bits: nat, acts: seq<Action>, t: nat)
    requires Pow2(bits) <= MAX_BUCKETS
    requires Th(Run(env, bits, acts), t).pc.WantStamp? || Th(Run(env, bits, acts), t).pc.Stamping?
    ensures var th := Th(Run(env, bits, acts), t); exists n :: 0 <= n < |acts| && LoadedAt(env, bits, acts, t, n, th.op, th.pc.at)
    decreases |acts|
  {
    hide Inv, History, Step, Pow2, Good, ThreadOk, Next, Moves, CanTake;
    if acts != [] {
      var m := |acts| - 1;
      var s, a, th := Run(env, bits, acts[..m]), acts[m], Th(Run(env, bits, acts), t);
      ThreadAfter(env, s, a, t);
      if Moves(env, s, a, t) {
        MovesIs(env, s, a, t);
        NextLoads(env, s, t, a.lossy);
      }
      if Th(s, t).pc.LoadEpoch? && Moves(env, s, a, t) {
        assert LoadedAt(env, bits, acts, t, m, th.op, th.pc.at);
      } else {
        Loading(env, bits, acts[..m], t);
        var n :| 0 <= n < m && LoadedAt(env, bits, acts[..m], t, n, Th(s, t).op, Th(s, t).pc.at);
        assert acts[..m][..n] == acts[..n];
        assert LoadedAt(env, bits, acts, t, n, th.op, th.pc.at);
      }
    }
  }

  lemma MovesIs(env: Env, s: Sys, a: Action, t: nat)
    requires Inv(env, s) && Moves(env, s, a, t)
    ensures a.Go? && a.t == t && Good(s.st, env.c, s.dirty) && ThreadOk(s.st, s.dirty, s.layout, env.c, Th(s, t))
  {
    hide Inv, Good, ThreadOk, Next, CanTake, HoldsOf;
    InvGood(env, s);
    InvParts(env, s, t);
  }

  /** A logged stamp is the advance count at the moment its insert loaded the epoch, after storing its pair. */
  ghost predicate StampLoaded(env: Env, bits: nat, acts: seq<Action>, log: seq<Logged>, p: nat)
    requires Pow2(bits) <= MAX_BUCKETS && p < |log|
  {
    log[p].Stamped? ==>
      exists n, t: nat, op :: 0 <= n < |acts| && LoadedAt(env, bits, acts, t, n, op, log[p].at) && KeyOf(op) == log[p].key &&
                         Latest(Run(env, bits, acts[..n]).log, log[p].key) == Latest(log[..p], log[p].key)
  }

  lemma {:induction false} StampsAreLoaded(env: Env, bits: nat, acts: seq<Action>, p: nat)
    requires Pow2(bits) <= MAX_BUCKETS && p < |Run(env, bits, acts).log|
    ensures StampLoaded(env, bits, acts, Run(env, bits, acts).log, p)
    decreases |acts|
  {
    hide Inv, History, Step, Pow2, Latest;
    if acts != [] {
      var m := |acts| - 1;
      var s, a := Run(env, bits, acts[..m]), acts[m];
      var log := Run(env, bits, acts).log;
      StepForward(env, s, a);
      if p < |s.log| {
        StampsAreLoaded(env, bits, acts[..m], p);
        assert log[..p] == s.log[..p];
        if log[p].Stamped? {
          var n, t: nat, op :| 0 <= n < m && LoadedAt(env, bits, acts[..m], t, n, op, log[p].at) && KeyOf(op) == log[p].key &&
                          Latest(Run(env, bits, acts[..m][..n]).log, log[p].key) == Latest(log[..p], log[p].key);
          assert acts[..m][..n] == acts[..n];
          assert LoadedAt(env, bits, acts, t, n, op, log[p].at);
        }
      } else {
        StampedNow(env, bits, acts, p);
      }
    }
  }

  lemma StampedNow(env: Env, bits: nat, acts: seq<Action>, p: nat)
    requires Pow2(bits) <= MAX_BUCKETS && |acts| > 0
    requires |Run(env, bits, acts[..|acts| - 1]).log| <= p < |Run(env, bits, acts).log|
    ensures StampLoaded(env, bits, acts, Run(env, bits, acts).log, p)
  {
    hide Inv, History, Step, Pow2, Latest, Good, ThreadOk, Next, CanTake, HoldsOf;
    var m := |acts| - 1;
    var s, a := Run(env, bits, acts[..m]), acts[m];
    var log := Run(env, bits, acts).log;
    StepStamps(env, s, a);
    if log[p].Stamped? {
      var t, th := a.t, Th(s, a.t);
      Loading(env, bits, acts[..m], t);
      var n :| 0 <= n < m && LoadedAt(env, bits, acts[..m], t, n, th.op, th.pc.at);
      assert acts[..m][..n] == acts[..n];
      var q := Run(env, bits, acts[..n]);
      UnstampedNow(env, s, t);
      UnstampedNow(env, q, t);
      assert log[..p] == s.log;
      assert LoadedAt(env, bits, acts, t, n, th.op, log[p].at);
    }
  }

  /** A thread between storing and stamping: its key's latest insert is its own, unstamped. */
  lemma UnstampedNow(env: Env, s: Sys, t: nat)
    requires Inv(env, s) && History(s) && (Th(s, t).pc.LoadEpoch? || Th(s, t).pc.Stamping?)
    ensures var op := Th(s, t).op;
            op.Insert? && Latest(s.log, op.kv.key) == Some(Entered(op.kv.value, op.ttl, None))
  {
    hide Inv, AllSections, TimeOk, BucketSeen, Chosen, Written, Latest;
    AllOf(s, t);
  }

  /** Only a stamping step logs a stamp, and it logs one entry. */
  lemma StepStamps(env: Env, s: Sys, a: Action)
    requires Inv(env, s) && History(s)
    ensures var s' := Step(env, s, a);
            && s.log <= s'.log && |s'.log| <= |s.log| + 1
            && (s'.log != s.log && s'.log[|s.log|].Stamped? ==>
                  && a.Go? && Th(s, a.t).pc.Stamping?
                  && s'.log[|s.log|] == Stamped(KeyOf(Th(s, a.t).op), Th(s, a.t).pc.at))
  {
    hide Good, AllThreadsOk, DirtyOk, QueueOk, LogOk, CountOk, LockOk, Next, Relock, CeilBits, Pow2, ThreadOk, CanTake, HoldsOf,
         AllSections, TimeOk;
    InvGood(env, s);
    GoodShape(s.st, env.c, s.dirty);
    match a
    case Begin(t, op) => RelockRest(s, t, Thread(op, 0, Entry(env, op), NOBODY.seen));
    case SetDefault(_) =>
    case Go(t, lossy) =>
      InvParts(env, s, t);
      var (s1, th') := Next(env, s, t, lossy);
      NextStamps(env, s, t, lossy);
      RelockRest(s1, t, th');
  }

  lemma NextStamps(env: Env, s: Sys, t: nat, lossy: bool)
    requires Good(s.st, env.c, s.dirty) && ThreadOk(s.st, s.dirty, s.layout, env.c, Th(s, t))
    ensures var s1 := Next(env, s, t, lossy).0;
            && s.log <= s1.log && |s1.log| <= |s.log| + 1
            && (s1.log != s.log && s1.log[|s.log|].Stamped? ==>
                  Th(s, t).pc.Stamping? && s1.log[|s.log|] == Stamped(KeyOf(Th(s, t).op), Th(s, t).pc.at))
  {
    hide Good, NoneBelow, Holding, Live, IndexOf, Mode, KvAt, RecAt, H2Of, Cells.SyncTarget, Cells.Expired, BucketAt,
         ExtHi, ExtFp, InlineKey, Matches, Wrap64, Pushed, Release, ClearStore, PutStore, TouchStore, SetTtl,
         EvOk, CeilBits, Pow2, FitsInline, StoringOk, FreeingOk, StampOk, ScanSlot, AfterMiss, AfterMatch, G.Fill, H.Items;
    GoodShape(s.st, env.c, s.dirty);
    var th := Th(s, t);
    if th.pc.Storing? || th.pc.Allocating? { E.StoringThread(s.st, s.dirty, s.layout, env.c, th); }
  }
}
