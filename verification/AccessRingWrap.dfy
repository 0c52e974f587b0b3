/**
 The 64-bit counters of the access ring.  The same step function run modulo `w`
 (2^64 in the program, any multiple of the capacity here) stays in step with the
 unbounded system as long as no thread sleeps, between loading a counter and its
 compare-exchange, while nearly `w` tickets pass.
 */
module AccessRingWrap {
  import opened Base
  import opened AccessRing

  predicate Fits(cap: nat, w: nat) {
    cap >= 2 && w >= 2 * cap && w % cap == 0
  }

  /** No thread has slept across the counter range. */
  ghost predicate Awake(r: Ring, w: nat) {
    forall tid ::
      match PcOf(r, tid)
      case PushSeq(e, h) => r.head + |r.seqs| < h + w
      case PushCas(e, h) => r.head < h + w
      case PopSeq(t) => r.tail + |r.seqs| < t + w
      case PopCas(t) => r.tail < t + w
      case _ => true
  }

  function WrapPc(p: Pc, w: nat): Pc
    requires w > 0
  {
    match p
    case Idle => Idle
    case PushSeq(e, h) => PushSeq(e, h % w)
    case PushCas(e, h) => PushCas(e, h % w)
    case PushData(e, h) => PushData(e, h % w)
    case PushPublish(e, h) => PushPublish(e, h % w)
    case PopSeq(t) => PopSeq(t % w)
    case PopCas(t) => PopCas(t % w)
    case PopData(t) => PopData(t % w)
    case PopRelease(t, d) => PopRelease(t % w, d)
  }

  /** Everything the program stores, and everything it hands out, agrees; program counters apart. */
  ghost predicate StoreAgrees(r: Ring, c: Ring, w: nat)
    requires w > 0
  {
    && Shaped(r) && Shaped(c) && |c.seqs| == |r.seqs|
    && c.head == r.head % w && c.tail == r.tail % w
    && (forall i :: 0 <= i < |r.seqs| ==> c.seqs[i] == r.seqs[i] % w)
    && c.data == r.data
    && c.accepted == r.accepted
    && |c.delivered| == |r.delivered|
    && (forall i :: 0 <= i < |r.delivered| ==> c.delivered[i].event == r.delivered[i].event)
  }

  ghost predicate Agrees(r: Ring, c: Ring, w: nat)
    requires w > 0
  {
    StoreAgrees(r, c, w) && (forall tid :: PcOf(c, tid) == WrapPc(PcOf(r, tid), w))
  }

  lemma {:induction false} SlotAfter(x: nat, d: nat, cap: nat)
    requires cap > 0 && d < cap
    ensures Slot(x + d, cap) == if Slot(x, cap) + d < cap then Slot(x, cap) + d else Slot(x, cap) + d - cap
    decreases x
  {
    if x >= cap {
      SlotAfter(x - cap, d, cap);
      assert Slot(x + d, cap) == Slot(x - cap + d, cap);
    } else if x + d >= cap {
      assert Slot(x + d, cap) == Slot(x + d - cap, cap) == x + d - cap;
    }
  }

  /** Every sequence number lies within one round of the tail. */
  lemma SequenceRange(r: Ring, i: nat)
    requires Shaped(r) && Window(r) && i < |r.seqs|
    ensures r.tail < r.seqs[i] + |r.seqs| && r.seqs[i] <= r.tail + |r.seqs|
  {
    var j := Slot(r.tail, |r.seqs|);
    var d := if i >= j then i - j else i + |r.seqs| - j;
    var x := r.tail + d;
    SlotAfter(r.tail, d, |r.seqs|);
    assert Cell(r.seqs, x) == r.seqs[i];
    if x < r.head { assert Claimed(r, x); } else { assert Open(r, x); }
  }

  /** Equality modulo `w` is equality for numbers less than `w` apart. */
  lemma SameResidue(x: nat, y: nat, w: nat)
    requires w > 0 && x < y + w && y < x + w
    ensures x % w == y % w <==> x == y
  {
    if x < y { SlotsDistinct(x, y, w); } else if y < x { SlotsDistinct(y, x, w); }
    SlotIsRemainder(x, w);
    SlotIsRemainder(y, w);
  }

  lemma ResiduePlus(x: nat, y: nat, w: nat)
    requires w > 0
    ensures (x % w + y) % w == (x + y) % w
  {
    var q := x / w;
    var s := x % w + y;
    assert x == q * w + x % w;
    assert x + y == (q + s / w) * w + s % w by { assert (q + s / w) * w == q * w + (s / w) * w; }
    ModUnique(x + y, q + s / w, s % w, w);
  }

  lemma WrapSlot(x: nat, cap: nat, w: nat)
    requires Fits(cap, w)
    ensures Slot(x % w, cap) == Slot(x, cap)
  {
    SlotIsRemainder(x % w, cap);
    SlotIsRemainder(x, cap);
    var k := w / cap;
    assert w == k * cap;
    MultipleResidue(x, k, cap);
  }

  lemma MultipleResidue(x: nat, k: nat, cap: nat)
    requires cap > 0 && k > 0 && k * cap > 0
    ensures x % (k * cap) % cap == x % cap
  {
    var w := k * cap;
    var q, m := x / w, x % w;
    var j := m / cap;
    assert x == q * w + m;
    assert m == j * cap + m % cap;
    Regroup(q, k, j, cap);
    ModUnique(x, q * k + j, m % cap, cap);
  }

  lemma Regroup(q: nat, k: nat, j: nat, cap: nat)
    ensures (q * k + j) * cap == q * (k * cap) + j * cap
  {
    assert (q * k) * cap == q * (k * cap);
  }

  // ---------------------------------------------------------------------
  // The simulation, one lemma per kind of step.
  // ---------------------------------------------------------------------

  lemma AgreesAt(r: Ring, c: Ring, r': Ring, c': Ring, tid: nat, p: Pc, w: nat)
    requires w > 0 && Agrees(r, c, w) && StoreAgrees(r', c', w)
    requires r'.threads == r.threads[tid := p] && c'.threads == c.threads[tid := WrapPc(p, w)]
    ensures Agrees(r', c', w)
  {
    forall u ensures PcOf(c', u) == WrapPc(PcOf(r', u), w) { assert PcOf(c, u) == WrapPc(PcOf(r, u), w); }
  }

  /** The sequence tests of push and pop come out the same. */
  lemma TestsAgree(r: Ring, c: Ring, x: nat, w: nat)
    requires Fits(|r.seqs|, w) && Shaped(r) && Window(r) && Agrees(r, c, w)
    ensures x <= r.head && r.head + |r.seqs| < x + w ==>
              (Cell(c.seqs, x % w) == x % w <==> Cell(r.seqs, x) == x)
    ensures x <= r.tail && r.tail + |r.seqs| < x + w ==>
              (Cell(c.seqs, x % w) == Plus(x % w, 1, w) <==> Cell(r.seqs, x) == x + 1)
  {
    WrapSlot(x, |r.seqs|, w);
    var i := Slot(x, |r.seqs|);
    SequenceRange(r, i);
    ResiduePlus(x, 1, w);
    if x <= r.head && r.head + |r.seqs| < x + w { SameResidue(r.seqs[i], x, w); }
    if x <= r.tail && r.tail + |r.seqs| < x + w { SameResidue(r.seqs[i], x + 1, w); }
  }

  lemma TestSteps(r: Ring, c: Ring, tid: nat, w: nat)
    requires Fits(|r.seqs|, w) && Local(r, tid) && Awake(r, w) && Agrees(r, c, w)
    requires PcOf(r, tid).PushSeq? || PcOf(r, tid).PopSeq?
    ensures Agrees(Step(r, Go(tid), 0), Step(c, Go(tid), w), w)
  {
    hide Slot, Pack, Unpack;
    var r', c' := Step(r, Go(tid), 0), Step(c, Go(tid), w);
    assert PcOf(c, tid) == WrapPc(PcOf(r, tid), w);
    var x := if PcOf(r, tid).PushSeq? then PcOf(r, tid).h else PcOf(r, tid).t;
    TestsAgree(r, c, x, w);
    assert StoreAgrees(r', c', w);
    AgreesAt(r, c, r', c', tid, PcOf(r', tid), w);
  }

  lemma PushCasStep(r: Ring, c: Ring, tid: nat, w: nat)
    requires Fits(|r.seqs|, w) && Local(r, tid) && Awake(r, w) && Agrees(r, c, w)
    requires PcOf(r, tid).PushCas?
    ensures Agrees(Step(r, Go(tid), 0), Step(c, Go(tid), w), w)
  {
    hide Slot, Pack, Unpack;
    var r', c' := Step(r, Go(tid), 0), Step(c, Go(tid), w);
    assert PcOf(c, tid) == WrapPc(PcOf(r, tid), w);
    var x := PcOf(r, tid).h;
    SameResidue(r.head, x, w);
    ResiduePlus(x, 1, w);
    assert StoreAgrees(r', c', w);
    AgreesAt(r, c, r', c', tid, PcOf(r', tid), w);
  }

  lemma PopCasStep(r: Ring, c: Ring, tid: nat, w: nat)
    requires Fits(|r.seqs|, w) && Local(r, tid) && Awake(r, w) && Agrees(r, c, w)
    requires PcOf(r, tid).PopCas?
    ensures Agrees(Step(r, Go(tid), 0), Step(c, Go(tid), w), w)
  {
    hide Slot, Pack, Unpack;
    var r', c' := Step(r, Go(tid), 0), Step(c, Go(tid), w);
    assert PcOf(c, tid) == WrapPc(PcOf(r, tid), w);
    var x := PcOf(r, tid).t;
    SameResidue(r.tail, x, w);
    ResiduePlus(x, 1, w);
    assert StoreAgrees(r', c', w);
    AgreesAt(r, c, r', c', tid, PcOf(r', tid), w);
  }

  lemma PushStores(r: Ring, c: Ring, tid: nat, w: nat)
    requires Fits(|r.seqs|, w) && Local(r, tid) && Awake(r, w) && Agrees(r, c, w)
    requires PcOf(r, tid).PushData? || PcOf(r, tid).PushPublish?
    ensures Agrees(Step(r, Go(tid), 0), Step(c, Go(tid), w), w)
  {
    hide Slot, Pack, Unpack, Window, Holders, PcOk, Awake;
    var r', c' := Step(r, Go(tid), 0), Step(c, Go(tid), w);
    assert PcOf(c, tid) == WrapPc(PcOf(r, tid), w);
    var x := PcOf(r, tid).h;
    WrapSlot(x, |r.seqs|, w);
    ResiduePlus(x, 1, w);
    assert StoreAgrees(r', c', w);
    AgreesAt(r, c, r', c', tid, PcOf(r', tid), w);
  }

  lemma PopStores(r: Ring, c: Ring, tid: nat, w: nat)
    requires Fits(|r.seqs|, w) && Local(r, tid) && Awake(r, w) && Agrees(r, c, w)
    requires PcOf(r, tid).PopData? || PcOf(r, tid).PopRelease?
    ensures Agrees(Step(r, Go(tid), 0), Step(c, Go(tid), w), w)
  {
    hide Slot, Pack, Unpack, Window, Holders, PcOk, Awake;
    var r', c' := Step(r, Go(tid), 0), Step(c, Go(tid), w);
    assert PcOf(c, tid) == WrapPc(PcOf(r, tid), w);
    var x := PcOf(r, tid).t;
    WrapSlot(x, |r.seqs|, w);
    ResiduePlus(x, |r.seqs|, w);
    assert StoreAgrees(r', c', w);
    AgreesAt(r, c, r', c', tid, PcOf(r', tid), w);
  }

  lemma WrapStep(r: Ring, c: Ring, a: Action, w: nat)
    requires Fits(|r.seqs|, w) && Inv(r) && Awake(r, w) && Agrees(r, c, w)
    ensures Agrees(Step(r, a, 0), Step(c, a, w), w)
  {
    assert PcOk(r, a.tid);
    assert PcOf(c, a.tid) == WrapPc(PcOf(r, a.tid), w);
    match a
    case StartPush(tid, e) =>
      if PcOf(r, tid).Idle? && Valid(e) {
        AgreesAt(r, c, Step(r, a, 0), Step(c, a, w), tid, PushSeq(e, r.head), w);
      }
    case StartPop(tid) =>
      if PcOf(r, tid).Idle? {
        AgreesAt(r, c, Step(r, a, 0), Step(c, a, w), tid, PopSeq(r.tail), w);
      }
    case Go(tid) =>
      match PcOf(r, tid)
      case Idle =>
      case PushSeq(_, _) => TestSteps(r, c, tid, w);
      case PushCas(_, _) => PushCasStep(r, c, tid, w);
      case PushData(_, _) => PushStores(r, c, tid, w);
      case PushPublish(_, _) => PushStores(r, c, tid, w);
      case PopSeq(_) => TestSteps(r, c, tid, w);
      case PopCas(_) => PopCasStep(r, c, tid, w);
      case PopData(_) => PopStores(r, c, tid, w);
      case PopRelease(_, _) => PopStores(r, c, tid, w);
  }

  lemma InitAgrees(cap: nat, w: nat)
    requires Fits(cap, w)
    ensures Agrees(Init(cap), Init(cap), w)
  {
    forall i | 0 <= i < cap ensures i % w == i { SlotIsRemainder(i, w); }
  }

  /** Counters of any width that is a multiple of the capacity run in step with unbounded ones. */
  lemma {:induction false} WrapRun(cap: nat, acts: seq<Action>, w: nat)
    requires Fits(cap, w)
    requires forall n :: 0 <= n < |acts| ==> Awake(Run(Init(cap), acts[..n], 0), w)
    ensures Agrees(Run(Init(cap), acts, 0), Run(Init(cap), acts, w), w)
    decreases |acts|
  {
    hide Inv, Awake, Step, Agrees, StoreAgrees;
    if acts == [] { InitAgrees(cap, w); }
    if acts != [] {
      var n := |acts| - 1;
      forall k | 0 <= k < n ensures Awake(Run(Init(cap), acts[..n][..k], 0), w) {
        assert acts[..n][..k] == acts[..k];
      }
      WrapRun(cap, acts[..n], w);
      InitInv(cap);
      RunInv(Init(cap), acts[..n]);
      WrapStep(Run(Init(cap), acts[..n], 0), Run(Init(cap), acts[..n], w), acts[n], w);
    }
  }

  lemma {:induction false} PowDivides(j: nat, k: nat)
    requires j <= k
    ensures Pow2(k) % Pow2(j) == 0 && Pow2(k) >= Pow2(j)
    decreases k
  {
    if j < k {
      PowDivides(j, k - 1);
      var m := Pow2(k - 1) / Pow2(j);
      assert Pow2(k - 1) == m * Pow2(j);
      assert Pow2(k) == (2 * m) * Pow2(j);
      ModUnique(Pow2(k), 2 * m, 0, Pow2(j));
    } else {
      ModUnique(Pow2(k), 1, 0, Pow2(k));
    }
  }

  /**
   The program's ring: 64-bit counters, capacity 2^k.  Each event it delivers is the
   payload of the push whose ticket that pop claimed, and no push is delivered twice.
   */
  lemma {:induction false} SixtyFourBitSafety(k: nat, acts: seq<Action>)
    requires 1 <= k < 64
    requires forall n :: 0 <= n < |acts| ==> Awake(Run(Init(CapacityOf(k)), acts[..n], 0), Pow2(64))
    ensures var c := Run(Init(CapacityOf(k)), acts, Pow2(64));
            var r := Run(Init(CapacityOf(k)), acts, 0);
            && c.accepted == r.accepted && |c.delivered| == |r.delivered|
            && (forall i :: 0 <= i < |c.delivered| ==>
                  r.delivered[i].ticket < |c.accepted| && c.delivered[i].event == c.accepted[r.delivered[i].ticket])
            && (forall i, j :: 0 <= i < j < |c.delivered| ==> r.delivered[i].ticket != r.delivered[j].ticket)
  {
    var cap := CapacityOf(k);
    PowDivides(k + 1, 64);
    PowDivides(k, 64);
    WrapRun(cap, acts, Pow2(64));
    RunSafety(cap, acts);
  }

  function CapacityOf(k: nat): (c: nat)
    requires k >= 1
    ensures c >= 2 && c == Pow2(k)
  {
    Pow2(k)
  }
}
