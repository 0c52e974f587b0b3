/**
 What the access counters mean over a whole history of a bucket (src/engine/meta.rs,
 on_access and on_insert), and what that says about victims.
 */
module History {
  import opened Base
  import opened Hashing
  import opened Cells
  import opened RawSpec

  /** Everything that can happen to a bucket. */
  datatype Event =
    | Access(i: nat)
    | Write(i: nat, kv: KV, t: Ttl)   // new content for an entry, counters untouched
    | Fill(i: nat, kv: KV, t: Ttl)
    | Clear(i: nat)

  predicate Proper(evs: seq<Event>) { forall k :: 0 <= k < |evs| ==> evs[k].i < 4 }

  function Apply(b: Bucket, ev: Event): Bucket
    requires ev.i < 4
  {
    match ev
    case Access(i) => Touch(b, i)
    case Write(i, kv, t) =>
      if b[i].Held? then b[i := Held(b[i].e.(key := kv.key, value := kv.value, epoch := t.epoch, ttl := t.ttl))] else b
    case Fill(i, kv, t) => FreshAt(b, i, kv, t)
    case Clear(i) => b[i := Vacant]
  }

  function Play(evs: seq<Event>): Bucket
    requires Proper(evs)
    decreases |evs|
  {
    if evs == [] then [Vacant, Vacant, Vacant, Vacant] else Apply(Play(evs[..|evs| - 1]), evs[|evs| - 1])
  }

  /** Accesses to slot `i` since its last fill. */
  function Hits(evs: seq<Event>, i: nat): nat
    decreases |evs|
  {
    if evs == [] then 0
    else
      var n := |evs| - 1;
      if evs[n].Fill? && evs[n].i == i then 0
      else Hits(evs[..n], i) + if evs[n].Access? && evs[n].i == i then 1 else 0
  }

  /** Accesses to other slots since slot `i` was last accessed or filled. */
  function Others(evs: seq<Event>, i: nat): nat
    decreases |evs|
  {
    if evs == [] then 0
    else
      var n := |evs| - 1;
      if (evs[n].Fill? || evs[n].Access?) && evs[n].i == i then 0
      else Others(evs[..n], i) + if evs[n].Access? then 1 else 0
  }

  function Decayed(start: nat, n: nat): nat { if n < start then start - n else 0 }

  /** Frequency counts hits up to 15; recency starts at 7 on a hit, at 1 on a fill, and counts down. */
  lemma {:induction false} ClosedForm(evs: seq<Event>, i: nat)
    requires Proper(evs) && i < 4 && Play(evs)[i].Held?
    ensures Play(evs)[i].e.freq == Min15(Hits(evs, i))
    ensures Play(evs)[i].e.rec == Decayed(if Hits(evs, i) == 0 then 1 else 7, Others(evs, i))
    decreases |evs|
  {
    if evs != [] {
      var n := |evs| - 1;
      if !(evs[n].Fill? && evs[n].i == i) { ClosedForm(evs[..n], i); }
    }
  }

  /** When slot `i` was last hit, if it was since its last fill. */
  function LastHit(evs: seq<Event>, i: nat): (r: Option<nat>)
    ensures r.Some? ==> r.value < |evs|
    decreases |evs|
  {
    if evs == [] then None
    else
      var n := |evs| - 1;
      if evs[n].i == i && evs[n].Fill? then None
      else if evs[n].i == i && evs[n].Access? then Some(n)
      else LastHit(evs[..n], i)
  }

  /** The slot hit more recently has seen fewer accesses to others. */
  lemma {:induction false} RecentSeesFewer(evs: seq<Event>, i: nat, j: nat)
    requires LastHit(evs, i).Some? && LastHit(evs, j).Some? && LastHit(evs, i).value > LastHit(evs, j).value
    ensures Others(evs, i) < Others(evs, j) && Hits(evs, i) > 0 && Hits(evs, j) > 0
    decreases |evs|
  {
    var n := |evs| - 1;
    if evs[n].Access? && evs[n].i == i {
      HitCounted(evs[..n], j);
    } else {
      RecentSeesFewer(evs[..n], i, j);
    }
  }

  lemma {:induction false} HitCounted(evs: seq<Event>, i: nat)
    requires LastHit(evs, i).Some?
    ensures Hits(evs, i) > 0
    decreases |evs|
  {
    var n := |evs| - 1;
    if !(evs[n].Access? && evs[n].i == i) { HitCounted(evs[..n], i); }
  }

  /** Among hit slots of equal frequency the victim is never the more recently hit one, unless both recencies are 0. */
  lemma VictimIsNotRecent(evs: seq<Event>, i: nat, j: nat)
    requires Proper(evs) && i < 4 && j < 4
    requires Play(evs)[i].Held? && Play(evs)[j].Held? && Play(evs)[i].e.freq == Play(evs)[j].e.freq
    requires LastHit(evs, i).Some? && LastHit(evs, j).Some? && LastHit(evs, i).value > LastHit(evs, j).value
    requires IsVictim(Play(evs), i)
    ensures Play(evs)[i].e.rec == 0 && Play(evs)[j].e.rec == 0
  {
    hide Play, Others, Hits, LastHit;
    ClosedForm(evs, i);
    ClosedForm(evs, j);
    RecentSeesFewer(evs, i, j);
  }

  // ---------------------------------------------------------------------
  // Runs of the raw map are such histories
  // ---------------------------------------------------------------------

  function StepEvents(c: Config, m: Map, op: Op, b: nat): (evs: seq<Event>)
    requires Sized(m) && b < |m.cells|
    ensures Proper(evs)
  {
    match op
    case OpInsert(kv, ttl) =>
      var f, t := FindIn(c, m, kv.key), Ttl(Next(m.epoch), ttl);
      if At(c, m, kv.key) != b then []
      else if f.Some? then [Access(f.value), Write(f.value, kv, t)]
      else [Fill(RawTarget(m.cells[b], Next(m.epoch), m.dflt), kv, t)]
    case OpGet(key) =>
      if At(c, m, key) != b || Peek(c, m, key).None? then [] else [Access(FindIn(c, m, key).value)]
    case OpRemove(key) =>
      if At(c, m, key) != b || FindIn(c, m, key).None? then [] else [Clear(FindIn(c, m, key).value)]
    case _ => []
  }

  function Trace(c: Config, m: Map, ops: seq<Op>, b: nat): (evs: seq<Event>)
    requires Sized(m) && b < |m.cells|
    ensures Proper(evs)
    decreases |ops|
  {
    if ops == [] then []
    else
      var n := |ops| - 1;
      RunSize(c, m, ops[..n]);
      Trace(c, m, ops[..n], b) + StepEvents(c, Run(c, m, ops[..n]), ops[n], b)
  }

  lemma {:induction false} RunSize(c: Config, m: Map, ops: seq<Op>)
    requires Sized(m)
    ensures |Run(c, m, ops).cells| == |m.cells| && Run(c, m, ops).bits == m.bits
    decreases |ops|
  {
    hide Find, RawTarget, Touch, IndexOf, Peek;
    if ops != [] { RunSize(c, m, ops[..|ops| - 1]); }
  }

  function PlayFrom(b: Bucket, evs: seq<Event>): Bucket
    requires Proper(evs)
    decreases |evs|
  {
    if evs == [] then b else Apply(PlayFrom(b, evs[..|evs| - 1]), evs[|evs| - 1])
  }

  lemma {:induction false} PlaySplit(evs: seq<Event>, more: seq<Event>)
    requires Proper(evs) && Proper(more)
    ensures Proper(evs + more) && Play(evs + more) == PlayFrom(Play(evs), more)
    decreases |more|
  {
    hide Apply;
    if more == [] {
      assert evs + more == evs;
    } else {
      PlaySplit(evs, more[..|more| - 1]);
      assert (evs + more)[..|evs + more| - 1] == evs + more[..|more| - 1];
    }
  }

  lemma StepIsEvents(c: Config, m: Map, op: Op, b: nat)
    requires Sized(m) && b < |m.cells|
    ensures b < |Step(c, m, op).cells| && Step(c, m, op).cells[b] == PlayFrom(m.cells[b], StepEvents(c, m, op, b))
  {
    hide Find, RawTarget, Touch, IndexOf, Peek;
    var evs := StepEvents(c, m, op, b);
    if |evs| == 2 {
      assert evs[..1] == [evs[0]] && evs[..1][..0] == [];
      assert PlayFrom(m.cells[b], evs[..1]) == Apply(m.cells[b], evs[0]);
    } else if |evs| == 1 {
      assert evs[..0] == [];
    }
    FindInRange(c, m, op);
  }

  lemma FindInRange(c: Config, m: Map, op: Op)
    requires Sized(m)
    ensures op.OpInsert? && FindIn(c, m, op.kv.key).Some? ==> FindIn(c, m, op.kv.key).value < 4
    ensures op.OpGet? && Peek(c, m, op.key).Some? ==> FindIn(c, m, op.key).Some?
    ensures op.OpInsert? && FindIn(c, m, op.kv.key).Some? ==>
              Touch(m.cells[At(c, m, op.kv.key)], FindIn(c, m, op.kv.key).value)[FindIn(c, m, op.kv.key).value].Held?
  {
    hide IndexOf;
  }

  /** Every bucket of every run of the raw map is the play of its own trace. */
  lemma {:induction false} RunIsTrace(c: Config, bits: nat, ops: seq<Op>, b: nat)
    requires b < Pow2(bits)
    ensures b < |Run(c, NewMap(bits), ops).cells|
    ensures Run(c, NewMap(bits), ops).cells[b] == Play(Trace(c, NewMap(bits), ops, b))
    decreases |ops|
  {
    hide Step, StepEvents, PlayFrom, Apply, Play;
    RunSize(c, NewMap(bits), ops);
    if ops == [] {
      assert Play([]) == [Vacant, Vacant, Vacant, Vacant] by { PlayNothing(); }
    } else {
      var n := |ops| - 1;
      var m := Run(c, NewMap(bits), ops[..n]);
      RunSize(c, NewMap(bits), ops[..n]);
      RunIsTrace(c, bits, ops[..n], b);
      StepIsEvents(c, m, ops[n], b);
      PlaySplit(Trace(c, NewMap(bits), ops[..n], b), StepEvents(c, m, ops[n], b));
    }
  }

  lemma PlayNothing()
    ensures Play([]) == [Vacant, Vacant, Vacant, Vacant]
  {}

  /** The closed form for every entry of every run of the raw map. */
  lemma RunCounters(c: Config, bits: nat, ops: seq<Op>, b: nat, i: nat)
    requires b < Pow2(bits) && i < 4
    ensures var m, evs := Run(c, NewMap(bits), ops), Trace(c, NewMap(bits), ops, b);
            b < |m.cells| && (m.cells[b][i].Held? ==>
              && m.cells[b][i].e.freq == Min15(Hits(evs, i))
              && m.cells[b][i].e.rec == Decayed(if Hits(evs, i) == 0 then 1 else 7, Others(evs, i)))
  {
    hide Run, Trace, Play, Hits, Others;
    RunIsTrace(c, bits, ops, b);
    var evs := Trace(c, NewMap(bits), ops, b);
    if Play(evs)[i].Held? { ClosedForm(evs, i); }
  }
}
