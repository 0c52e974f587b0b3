/**
 Concurrent `on_access` calls on one metadata word (src/engine/meta.rs): each thread loads
 the word, computes the new one and tries to install it, retrying on failure.  Whatever the
 interleaving, the word is the result of the completed accesses in some order, and none is
 lost.
 */
module MetaCas {
  import opened MetaWord

  datatype Pc = Idle | Loading(slot: nat) | Trying(slot: nat, seen: bv64)

  datatype Call = Call(tid: nat, slot: nat)

  /** `calls` are the on_access calls made, `done` those that installed their word, in that order. */
  datatype Sys = Sys(word: bv64, threads: map<nat, Pc>, calls: seq<Call>, done: seq<Call>)

  datatype Action =
    | Start(tid: nat, slot: nat)
    | Load(tid: nat)
    | Cas(tid: nat, spurious: bool)   // a weak compare-exchange may fail for no reason

  function PcOf(s: Sys, tid: nat): Pc { if tid in s.threads then s.threads[tid] else Idle }

  function Step(s: Sys, a: Action): Sys {
    match a
    case Start(tid, slot) =>
      if PcOf(s, tid).Idle? && slot < 4 then
        s.(threads := s.threads[tid := Loading(slot)], calls := s.calls + [Call(tid, slot)])
      else s
    case Load(tid) =>
      if PcOf(s, tid).Loading? then s.(threads := s.threads[tid := Trying(PcOf(s, tid).slot, s.word)]) else s
    case Cas(tid, spurious) =>
      var p := PcOf(s, tid);
      if !p.Trying? || p.slot >= 4 then s
      else if !spurious && s.word == p.seen then
        s.(word := OnAccess(p.seen, p.slot), threads := s.threads[tid := Idle], done := s.done + [Call(tid, p.slot)])
      else s.(threads := s.threads[tid := Loading(p.slot)])
  }

  function Run(s: Sys, acts: seq<Action>): Sys
    decreases |acts|
  {
    if acts == [] then s else Step(Run(s, acts[..|acts| - 1]), acts[|acts| - 1])
  }

  /** Records after the given accesses, one after another. */
  function Sequential(rs: seq<Rec>, cs: seq<Call>): (out: seq<Rec>)
    requires |rs| == 4
    ensures |out| == 4
    decreases |cs|
  {
    if cs == [] then rs else Touched(Sequential(rs, cs[..|cs| - 1]), cs[|cs| - 1].slot)
  }

  /** One thread's calls, in order. */
  function By(cs: seq<Call>, tid: nat): seq<Call>
    decreases |cs|
  {
    if cs == [] then []
    else By(cs[..|cs| - 1], tid) + if cs[|cs| - 1].tid == tid then [cs[|cs| - 1]] else []
  }

  /** A thread's calls are those done plus the one it is working on. */
  ghost predicate ThreadOk(s: Sys, tid: nat) {
    var p := PcOf(s, tid);
    && (!p.Idle? ==> p.slot < 4)
    && By(s.calls, tid) == By(s.done, tid) + if p.Idle? then [] else [Call(tid, p.slot)]
  }

  ghost predicate Inv(w0: bv64, s: Sys) {
    && Unpack(s.word) == Sequential(Unpack(w0), s.done)
    && (forall tid :: ThreadOk(s, tid))
  }

  lemma ByAppend(cs: seq<Call>, x: Call, tid: nat)
    ensures By(cs + [x], tid) == By(cs, tid) + if x.tid == tid then [x] else []
  {
    assert (cs + [x])[..|cs|] == cs;
  }

  lemma StepThread(s: Sys, a: Action, tid: nat)
    requires ThreadOk(s, a.tid) && ThreadOk(s, tid)
    ensures ThreadOk(Step(s, a), tid)
  {
    hide OnAccess, By;
    var p := PcOf(s, a.tid);
    ByAppend(s.done, Call(a.tid, if p.Trying? then p.slot else 0), tid);
    if a.Start? { ByAppend(s.calls, Call(a.tid, a.slot), tid); }
  }

  /** A successful exchange applies one more access; every other action leaves the word alone. */
  lemma StepWord(w0: bv64, s: Sys, a: Action)
    requires Unpack(s.word) == Sequential(Unpack(w0), s.done) && ThreadOk(s, a.tid)
    ensures Unpack(Step(s, a).word) == Sequential(Unpack(w0), Step(s, a).done)
  {
    hide Unpack, OnAccess, Touched, By;
    var p := PcOf(s, a.tid);
    if p.Trying? && p.slot < 4 {
      OnAccessRefines(p.seen, p.slot);
      assert (s.done + [Call(a.tid, p.slot)])[..|s.done|] == s.done;
    }
  }

  lemma StepInv(w0: bv64, s: Sys, a: Action)
    requires Inv(w0, s)
    ensures Inv(w0, Step(s, a))
  {
    hide Unpack, Step, ThreadOk, Sequential;
    assert ThreadOk(s, a.tid);
    StepWord(w0, s, a);
    forall tid ensures ThreadOk(Step(s, a), tid) { StepThread(s, a, tid); }
  }

  /**
   In every interleaving, spurious failures included: the word is the completed accesses
   applied one after another, and each thread's calls are completed exactly once each, in
   its own order, apart from the one it is still trying.
   */
  lemma {:induction false} NoLostUpdate(w0: bv64, acts: seq<Action>)
    ensures var s := Run(Sys(w0, map[], [], []), acts);
            && Unpack(s.word) == Sequential(Unpack(w0), s.done)
            && forall tid :: By(s.calls, tid) ==
                             By(s.done, tid) + if PcOf(s, tid).Idle? then [] else [Call(tid, PcOf(s, tid).slot)]
  {
    hide Unpack, Run, By;
    RunInv(w0, acts);
    var s := Run(Sys(w0, map[], [], []), acts);
    forall tid
      ensures By(s.calls, tid) == By(s.done, tid) + if PcOf(s, tid).Idle? then [] else [Call(tid, PcOf(s, tid).slot)]
    {
      assert ThreadOk(s, tid);
    }
  }

  lemma {:induction false} RunInv(w0: bv64, acts: seq<Action>)
    ensures Inv(w0, Run(Sys(w0, map[], [], []), acts))
    decreases |acts|
  {
    hide Step, Unpack;
    if acts != [] {
      RunInv(w0, acts[..|acts| - 1]);
      StepInv(w0, Run(Sys(w0, map[], [], []), acts[..|acts| - 1]), acts[|acts| - 1]);
    }
  }
}
