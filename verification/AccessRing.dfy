/**
 The access ring of src/engine/access_buffer.rs as a step system.

 Every atomic load, compare-exchange and store of `push` and `pop` is one step
 of one thread; any number of threads interleave in any order, because a run is
 an arbitrary sequence of actions.  Head, tail and slot sequence numbers are
 counters modulo `w`; `w == 0` stands for unbounded tickets.  The unbounded
 system carries the safety argument, and AccessRingWrap shows that the 64-bit
 counters of the program compute the same thing.

 Auxiliary state, never read by a guard: `accepted` (payload of each claimed
 ticket), `delivered` (what `pop` handed out, in order), and the maps `writer`
 and `reader` from tickets to the thread that is still working on them.
 */
module AccessRing {
  import Base

  datatype Event = Event(bucket: nat, slot: nat)

  /** What `push` accepts at all: a slot below four and a bucket that survives the shift. */
  predicate Valid(e: Event) {
    e.slot < 4 && e.bucket < Base.U64 / 4
  }

  function Pack(e: Event): nat {
    e.bucket * 4 + e.slot
  }

  function Unpack(d: nat): Event {
    Event(d / 4, d % 4)
  }

  datatype Delivery = Delivery(ticket: nat, event: Event)

  datatype Pc =
    | Idle
    | PushSeq(e: Event, h: nat)      // head loaded; next: load the slot's sequence
    | PushCas(e: Event, h: nat)      // sequence matched; next: CAS head
    | PushData(e: Event, h: nat)     // ticket claimed; next: store the payload
    | PushPublish(e: Event, h: nat)  // payload stored; next: store the sequence
    | PopSeq(t: nat)                 // tail loaded; next: load the slot's sequence
    | PopCas(t: nat)                 // sequence matched; next: CAS tail
    | PopData(t: nat)                // ticket claimed; next: load the payload
    | PopRelease(t: nat, d: nat)     // payload loaded; next: store the sequence

  datatype Ring = Ring(
    head: nat,
    tail: nat,
    seqs: seq<nat>,
    data: seq<nat>,
    threads: map<nat, Pc>,
    accepted: seq<Event>,
    delivered: seq<Delivery>,
    writer: map<nat, nat>,
    reader: map<nat, nat>)

  datatype Action =
    | StartPush(tid: nat, e: Event)
    | StartPop(tid: nat)
    | Go(tid: nat)

  function PcOf(r: Ring, tid: nat): Pc {
    if tid in r.threads then r.threads[tid] else Idle
  }

  /** Counter addition: modulo `w`, or unbounded when `w` is zero. */
  function Plus(x: nat, y: nat, w: nat): nat {
    if w == 0 then x + y else (x + y) % w
  }

  predicate Shaped(r: Ring) {
    |r.seqs| == |r.data| && |r.seqs| >= 2
  }

  function Init(cap: nat): Ring
    requires cap >= 2
  {
    Ring(0, 0, seq(cap, i => i), seq(cap, i => 0), map[], [], [], map[], map[])
  }

  /** The slot of a ticket, `x & mask`; SlotIsRemainder gives the closed form. */
  function Slot(x: nat, cap: nat): (i: nat)
    requires cap > 0
    ensures i < cap
    decreases x
  {
    if x < cap then x else Slot(x - cap, cap)
  }

  /** The entry of a per-slot array that a ticket uses. */
  function Cell(s: seq<nat>, x: nat): nat
    requires |s| > 0
  {
    s[Slot(x, |s|)]
  }

  function At(r: Ring, tid: nat, pc: Pc): Ring {
    r.(threads := r.threads[tid := pc])
  }

  /** One atomic step; an action that does not apply to its thread changes nothing. */
  function Step(r: Ring, a: Action, w: nat): (r': Ring)
    requires Shaped(r)
    ensures Shaped(r') && |r'.seqs| == |r.seqs|
  {
    match a
    case StartPush(tid, e) =>
      if PcOf(r, tid).Idle? && Valid(e) then At(r, tid, PushSeq(e, r.head)) else r
    case StartPop(tid) =>
      if PcOf(r, tid).Idle? then At(r, tid, PopSeq(r.tail)) else r
    case Go(tid) =>
      var cap := |r.seqs|;
      match PcOf(r, tid)
      case Idle => r
      case PushSeq(e, h) =>
        At(r, tid, if Cell(r.seqs, h) == h then PushCas(e, h) else Idle)
      case PushCas(e, h) =>
        if r.head == h then
          At(r, tid, PushData(e, h)).(
            head := Plus(h, 1, w), accepted := r.accepted + [e], writer := r.writer[h := tid])
        else At(r, tid, Idle)
      case PushData(e, h) =>
        At(r, tid, PushPublish(e, h)).(data := r.data[Slot(h, cap) := Pack(e)])
      case PushPublish(e, h) =>
        At(r, tid, Idle).(seqs := r.seqs[Slot(h, cap) := Plus(h, 1, w)], writer := r.writer - {h})
      case PopSeq(t) =>
        At(r, tid, if Cell(r.seqs, t) == Plus(t, 1, w) then PopCas(t) else Idle)
      case PopCas(t) =>
        if r.tail == t then
          At(r, tid, PopData(t)).(tail := Plus(t, 1, w), reader := r.reader[t := tid])
        else At(r, tid, Idle)
      case PopData(t) =>
        At(r, tid, PopRelease(t, Cell(r.data, t)))
      case PopRelease(t, d) =>
        At(r, tid, Idle).(
          seqs := r.seqs[Slot(t, cap) := Plus(t, cap, w)],
          reader := r.reader - {t},
          delivered := r.delivered + [Delivery(t, Unpack(d))])
  }

  function Run(r: Ring, acts: seq<Action>, w: nat): (r': Ring)
    requires Shaped(r)
    ensures Shaped(r') && |r'.seqs| == |r.seqs|
    decreases |acts|
  {
    if acts == [] then r else Step(Run(r, acts[..|acts| - 1], w), acts[|acts| - 1], w)
  }

  // ---------------------------------------------------------------------
  // The invariant of the unbounded system.
  // ---------------------------------------------------------------------

  /** A ticket in tail..head: its push is still writing, or its payload is published. */
  ghost predicate Claimed(r: Ring, x: nat)
    requires Shaped(r) && x < |r.accepted|
  {
    if x in r.writer then Cell(r.seqs, x) == x
    else Cell(r.seqs, x) == x + 1 && Cell(r.data, x) == Pack(r.accepted[x])
  }

  /** A ticket in head..tail + capacity: its slot is free, or the previous round is still being read. */
  ghost predicate Open(r: Ring, x: nat)
    requires Shaped(r)
  {
    if x >= |r.seqs| && x - |r.seqs| in r.reader then Cell(r.seqs, x) == x - |r.seqs| + 1 else Cell(r.seqs, x) == x
  }

  ghost predicate Window(r: Ring)
    requires Shaped(r)
  {
    && r.tail <= r.head <= r.tail + |r.seqs|
    && |r.accepted| == r.head
    && (forall x :: r.tail <= x < r.head ==> Claimed(r, x))
    && (forall x :: r.head <= x < r.tail + |r.seqs| ==> Open(r, x))
  }

  ghost predicate Holders(r: Ring)
    requires Shaped(r)
  {
    && (forall x :: x in r.writer ==>
          r.tail <= x < r.head && x < |r.accepted| &&
          (var p := PcOf(r, r.writer[x]); (p.PushData? || p.PushPublish?) && p.h == x && p.e == r.accepted[x]))
    && (forall x :: x in r.reader ==>
          x < r.tail && r.head <= x + |r.seqs| &&
          (var p := PcOf(r, r.reader[x]); (p.PopData? || p.PopRelease?) && p.t == x))
  }

  ghost predicate PcOk(r: Ring, tid: nat)
    requires Shaped(r)
  {
    match PcOf(r, tid)
    case Idle => true
    case PushSeq(e, h) => Valid(e) && h <= r.head
    case PushCas(e, h) => Valid(e) && h <= r.head && (h == r.head ==> Cell(r.seqs, h) == h)
    case PushData(e, h) => Valid(e) && h in r.writer && r.writer[h] == tid
    case PushPublish(e, h) => Valid(e) && h in r.writer && r.writer[h] == tid && Cell(r.data, h) == Pack(e)
    case PopSeq(t) => t <= r.tail
    case PopCas(t) => t <= r.tail && (t == r.tail ==> Cell(r.seqs, t) == t + 1)
    case PopData(t) =>
      t in r.reader && r.reader[t] == tid && t < |r.accepted| && Cell(r.data, t) == Pack(r.accepted[t])
    case PopRelease(t, d) =>
      t in r.reader && r.reader[t] == tid && t < |r.accepted| && d == Pack(r.accepted[t])
  }

  /** Delivery log: right payloads, distinct tickets, and no consumed ticket unaccounted for. */
  ghost predicate Logged(r: Ring) {
    && (forall i :: 0 <= i < |r.delivered| ==>
          var d := r.delivered[i];
          d.ticket < r.tail && d.ticket < |r.accepted| && d.ticket !in r.reader && d.event == r.accepted[d.ticket])
    && (forall i, j :: 0 <= i < j < |r.delivered| ==> r.delivered[i].ticket != r.delivered[j].ticket)
    && |r.delivered| + |r.reader| == r.tail
    && (forall i :: 0 <= i < |r.accepted| ==> Valid(r.accepted[i]))
  }

  ghost predicate Inv(r: Ring) {
    && Shaped(r)
    && Window(r)
    && Holders(r)
    && (forall tid :: PcOk(r, tid))
    && Logged(r)
  }

  lemma PackRoundTrip(e: Event)
    requires e.slot < 4
    ensures Unpack(Pack(e)) == e
  {}

  /** Two tickets of one window use different slots. */
  lemma {:induction false} SlotsDistinct(x: nat, y: nat, cap: nat)
    requires cap > 0 && x < y < x + cap
    ensures Slot(x, cap) != Slot(y, cap)
    decreases x
  {
    if x >= cap {
      SlotsDistinct(x - cap, y - cap, cap);
    } else if y >= cap {
      assert Slot(y, cap) == Slot(y - cap, cap) == y - cap;
    }
  }

  /** The slot is the remainder of the ticket, which for a power of two is its low bits. */
  lemma {:induction false} SlotIsRemainder(x: nat, cap: nat)
    requires cap > 0
    ensures Slot(x, cap) == x % cap
    decreases x
  {
    if x >= cap {
      SlotIsRemainder(x - cap, cap);
      var q := (x - cap) / cap;
      assert x == (q + 1) * cap + (x - cap) % cap;
      ModUnique(x, q + 1, (x - cap) % cap, cap);
    }
  }

  lemma ModUnique(x: nat, q: nat, m: nat, cap: nat)
    requires cap > 0 && m < cap && x == q * cap + m
    ensures x % cap == m
  {
    var p := x / cap;
    assert x == p * cap + x % cap;
    assert (p - q) * cap == m - x % cap;
    if p > q { MulGrows(p - q, cap); } else if p < q { assert (q - p) * cap == x % cap - m; MulGrows(q - p, cap); }
  }

  lemma MulGrows(k: nat, cap: nat)
    requires k >= 1
    ensures k * cap >= cap
  {}

  lemma CellPeriod(s: seq<nat>, x: nat)
    requires |s| > 0
    ensures Cell(s, x + |s|) == Cell(s, x)
  {}

  /** Writing one slot leaves every other ticket of a window alone. */
  lemma SlotElsewhere(s: seq<nat>, x: nat, y: nat, v: nat)
    requires |s| > 0
    requires x < y < x + |s| || y < x < y + |s|
    ensures s[Slot(x, |s|) := v][Slot(y, |s|)] == s[Slot(y, |s|)]
  {
    if x < y { SlotsDistinct(x, y, |s|); } else { SlotsDistinct(y, x, |s|); }
  }

  lemma {:induction false} InitInv(cap: nat)
    requires cap >= 2
    ensures Inv(Init(cap))
  {
    var r := Init(cap);
    forall x | 0 <= x < cap ensures Open(r, x) {}
  }

  // ---------------------------------------------------------------------
  // Preservation, one lemma per kind of atomic step.
  // ---------------------------------------------------------------------

  /** Steps that only move one thread's program counter, not into or out of a claim. */
  lemma PcOnlyStep(r: Ring, tid: nat, pc: Pc)
    requires Inv(r)
    requires var p := PcOf(r, tid); !p.PushData? && !p.PushPublish? && !p.PopData? && !p.PopRelease?
    requires PcOk(At(r, tid, pc), tid)
    ensures Inv(At(r, tid, pc))
  {
    hide Slot, Cell, Pack;
    var r' := At(r, tid, pc);
    forall u ensures PcOk(r', u) { assert PcOk(r, u); }
    forall x | x in r.writer ensures r.writer[x] != tid { assert PcOk(r, r.writer[x]); }
    forall x | x in r.reader ensures r.reader[x] != tid { assert PcOk(r, r.reader[x]); }
    forall x | r'.tail <= x < r'.head ensures Claimed(r', x) { assert Claimed(r, x); }
    forall x | r'.head <= x < r'.tail + |r.seqs| ensures Open(r', x) { assert Open(r, x); }
  }

  /** What one thread relies on when it steps. */
  ghost predicate Local(r: Ring, tid: nat) {
    Shaped(r) && Window(r) && Holders(r) && PcOk(r, tid)
  }

  /** A push that passed its checks owns a free slot: the ring was not full. */
  lemma ClaimHasRoom(r: Ring)
    requires Shaped(r) && Window(r) && Cell(r.seqs, r.head) == r.head
    ensures r.head < r.tail + |r.seqs|
    ensures r.head >= |r.seqs| ==> r.head - |r.seqs| !in r.reader
  {
    assert r.tail < r.head ==> Claimed(r, r.tail);
    assert r.head < r.tail + |r.seqs| ==> Open(r, r.head);
  }

  /** A pop that passed its checks takes a published ticket: the ring was not empty. */
  lemma ClaimHasEvent(r: Ring)
    requires Shaped(r) && Window(r) && Cell(r.seqs, r.tail) == r.tail + 1
    ensures r.tail < r.head && r.tail !in r.writer
    ensures Cell(r.data, r.tail) == Pack(r.accepted[r.tail])
  {
    assert r.tail == r.head ==> Open(r, r.tail);
    assert r.tail < r.head ==> Claimed(r, r.tail);
  }

  /** What a step of `tid` may not disturb for the other threads. */
  ghost predicate Undisturbed(r: Ring, r': Ring, tid: nat)
    requires Shaped(r) && Shaped(r')
  {
    && |r'.seqs| == |r.seqs|
    && r.head <= r'.head && r.tail <= r'.tail && r.accepted <= r'.accepted
    && (forall u :: u != tid ==> PcOf(r', u) == PcOf(r, u))
    && (forall x :: x in r.writer && r.writer[x] != tid ==>
          x in r'.writer && r'.writer[x] == r.writer[x] && Cell(r'.data, x) == Cell(r.data, x))
    && (forall x :: x in r.reader && r.reader[x] != tid ==>
          x in r'.reader && r'.reader[x] == r.reader[x] && Cell(r'.data, x) == Cell(r.data, x))
    && (Cell(r.seqs, r.head) == r.head == r'.head ==> Cell(r'.seqs, r.head) == r.head)
    && (Cell(r.seqs, r.tail) == r.tail + 1 && r.tail == r'.tail ==> Cell(r'.seqs, r.tail) == r.tail + 1)
  }

  lemma OtherThreads(r: Ring, r': Ring, tid: nat)
    requires Inv(r) && Shaped(r') && Undisturbed(r, r', tid)
    ensures forall u :: u != tid ==> PcOk(r', u)
  {
    forall u | u != tid ensures PcOk(r', u) { assert PcOk(r, u); }
  }

  lemma OwnTicket(r: Ring, tid: nat)
    requires Local(r, tid)
    ensures var p := PcOf(r, tid);
            && (forall x :: x in r.writer && r.writer[x] == tid ==> (p.PushData? || p.PushPublish?) && p.h == x)
            && (forall x :: x in r.reader && r.reader[x] == tid ==> (p.PopData? || p.PopRelease?) && p.t == x)
  {}

  lemma PushClaimWindow(r: Ring, r': Ring, tid: nat)
    requires Local(r, tid) && PcOf(r, tid).PushCas? && PcOf(r, tid).h == r.head && r' == Step(r, Go(tid), 0)
    ensures Window(r')
  {
    hide Slot, Cell;
    ClaimHasRoom(r);
    forall x | r'.tail <= x < r'.head ensures Claimed(r', x) { if x < r.head { assert Claimed(r, x); } }
    forall x | r'.head <= x < r'.tail + |r.seqs| ensures Open(r', x) { assert Open(r, x); }
  }

  lemma PushClaimHolders(r: Ring, r': Ring, tid: nat)
    requires Local(r, tid) && PcOf(r, tid).PushCas? && PcOf(r, tid).h == r.head && r' == Step(r, Go(tid), 0)
    ensures PcOk(r', tid) && Holders(r')
  {
    ClaimHasRoom(r);
    OwnTicket(r, tid);
  }

  lemma PushClaimThreads(r: Ring, r': Ring, tid: nat)
    requires Local(r, tid) && PcOf(r, tid).PushCas? && PcOf(r, tid).h == r.head && r' == Step(r, Go(tid), 0)
    ensures Undisturbed(r, r', tid)
  {
    hide Slot, Cell, Pack;
    ClaimHasRoom(r);
    OwnTicket(r, tid);
  }

  lemma PushClaimLogged(r: Ring, r': Ring, tid: nat)
    requires Local(r, tid) && PcOf(r, tid).PushCas? && PcOf(r, tid).h == r.head && r' == Step(r, Go(tid), 0)
    requires Logged(r)
    ensures Logged(r')
  {
  }

  lemma PopClaimWindow(r: Ring, r': Ring, tid: nat)
    requires Local(r, tid) && PcOf(r, tid).PopCas? && PcOf(r, tid).t == r.tail && r' == Step(r, Go(tid), 0)
    ensures Window(r')
  {
    hide Slot, Cell;
    ClaimHasEvent(r);
    CellPeriod(r.seqs, r.tail);
    forall x | r'.tail <= x < r'.head ensures Claimed(r', x) { assert Claimed(r, x); }
    forall x | r'.head <= x < r'.tail + |r.seqs| ensures Open(r', x) { if x < r.tail + |r.seqs| { assert Open(r, x); } }
  }

  lemma PopClaimHolders(r: Ring, r': Ring, tid: nat)
    requires Local(r, tid) && PcOf(r, tid).PopCas? && PcOf(r, tid).t == r.tail && r' == Step(r, Go(tid), 0)
    ensures PcOk(r', tid) && Holders(r')
  {
    ClaimHasEvent(r);
    OwnTicket(r, tid);
  }

  lemma PopClaimThreads(r: Ring, r': Ring, tid: nat)
    requires Local(r, tid) && PcOf(r, tid).PopCas? && PcOf(r, tid).t == r.tail && r' == Step(r, Go(tid), 0)
    ensures Undisturbed(r, r', tid)
  {
    hide Slot, Cell, Pack;
    ClaimHasEvent(r);
    OwnTicket(r, tid);
  }

  lemma PopClaimLogged(r: Ring, r': Ring, tid: nat)
    requires Local(r, tid) && PcOf(r, tid).PopCas? && PcOf(r, tid).t == r.tail && r' == Step(r, Go(tid), 0)
    requires Logged(r)
    ensures Logged(r')
  {
    assert |r'.reader| == |r.reader| + 1;
  }

  /** Storing a payload reaches no ticket that another thread may still read. */
  lemma PayloadElsewhere(r: Ring, tid: nat, x: nat)
    requires Local(r, tid) && PcOf(r, tid).PushData?
    requires (r.tail <= x < r.head && x != PcOf(r, tid).h) || x in r.reader
    ensures Cell(Step(r, Go(tid), 0).data, x) == Cell(r.data, x)
  {
    SlotElsewhere(r.data, PcOf(r, tid).h, x, Pack(PcOf(r, tid).e));
  }

  /** Storing a payload changes nothing but the payload and the program counter. */
  lemma PushStoreOnly(r: Ring, r': Ring, tid: nat)
    requires Shaped(r) && PcOf(r, tid).PushData? && r' == Step(r, Go(tid), 0)
    ensures r' == r.(data := r'.data, threads := r'.threads) && |r'.data| == |r.data|
  {
    hide Slot, Cell;
  }

  lemma PushStoreWindow(r: Ring, r': Ring, tid: nat)
    requires Local(r, tid) && PcOf(r, tid).PushData? && r' == Step(r, Go(tid), 0)
    ensures Window(r')
  {
    hide Slot, Cell, Step, Holders;
    PushStoreOnly(r, r', tid);
    forall x | r'.tail <= x < r'.head ensures Claimed(r', x) { assert Claimed(r, x); if x != PcOf(r, tid).h { PayloadElsewhere(r, tid, x); } }
    forall x | r'.head <= x < r'.tail + |r.seqs| ensures Open(r', x) { assert Open(r, x); }
  }

  lemma PushStoreThreads(r: Ring, r': Ring, tid: nat)
    requires Local(r, tid) && PcOf(r, tid).PushData? && r' == Step(r, Go(tid), 0)
    ensures Undisturbed(r, r', tid) && PcOk(r', tid) && Holders(r')
  {
    hide Slot, Pack;
    forall x | (r.tail <= x < r.head && x != PcOf(r, tid).h) || x in r.reader
      ensures Cell(r'.data, x) == Cell(r.data, x)
    {
      PayloadElsewhere(r, tid, x);
    }
    OwnTicket(r, tid);
  }

  lemma PushStoreLogged(r: Ring, r': Ring, tid: nat)
    requires Local(r, tid) && PcOf(r, tid).PushData? && r' == Step(r, Go(tid), 0)
    requires Logged(r)
    ensures Logged(r')
  {
  }

  lemma PublishSeqs(r: Ring, r': Ring, tid: nat)
    requires Local(r, tid) && PcOf(r, tid).PushPublish? && r' == Step(r, Go(tid), 0)
    ensures var h := PcOf(r, tid).h;
            && Cell(r.seqs, h) == h && Cell(r'.seqs, h) == h + 1
            && forall x :: r.tail <= x < r.tail + |r.seqs| && x != h ==> Cell(r'.seqs, x) == Cell(r.seqs, x)
  {
    var h := PcOf(r, tid).h;
    assert Claimed(r, h);
    forall x | r.tail <= x < r.tail + |r.seqs| && x != h
      ensures Cell(r'.seqs, x) == Cell(r.seqs, x)
    {
      SlotElsewhere(r.seqs, h, x, h + 1);
    }
  }

  /** Only the slot of ticket `z` of the window got a new sequence number. */
  ghost predicate OnlySeq(r: Ring, r': Ring, z: nat) {
    && Shaped(r) && Shaped(r') && |r'.seqs| == |r.seqs|
    && r'.head == r.head && r'.tail == r.tail && r'.accepted == r.accepted && r'.data == r.data
    && (forall x :: r.tail <= x < r.tail + |r.seqs| && x != z ==> Cell(r'.seqs, x) == Cell(r.seqs, x))
  }

  lemma PublishKeepsWindow(r: Ring, r': Ring, h: nat)
    requires OnlySeq(r, r', h) && Window(r)
    requires r.tail <= h < r.head && r'.writer == r.writer - {h} && r'.reader == r.reader
    requires Cell(r'.seqs, h) == h + 1 && Cell(r.data, h) == Pack(r.accepted[h])
    ensures Window(r')
  {
    hide Cell, Pack;
    forall x | r'.tail <= x < r'.head ensures Claimed(r', x) { assert Claimed(r, x); }
    forall x | r'.head <= x < r'.tail + |r.seqs| ensures Open(r', x) { assert Open(r, x); }
  }

  lemma PublishWindow(r: Ring, r': Ring, tid: nat)
    requires Local(r, tid) && PcOf(r, tid).PushPublish? && r' == Step(r, Go(tid), 0)
    ensures Window(r')
  {
    hide Cell, Slot, Claimed, Open, Pack;
    PublishSeqs(r, r', tid);
    PublishKeepsWindow(r, r', PcOf(r, tid).h);
  }

  lemma PublishThreads(r: Ring, r': Ring, tid: nat)
    requires Local(r, tid) && PcOf(r, tid).PushPublish? && r' == Step(r, Go(tid), 0)
    ensures Undisturbed(r, r', tid) && PcOk(r', tid) && Holders(r')
  {
    hide Slot, Cell, Pack;
    OwnTicket(r, tid);
    PublishSeqs(r, r', tid);
    if Cell(r.seqs, r.head) == r.head { ClaimHasRoom(r); }
  }

  lemma PublishLogged(r: Ring, r': Ring, tid: nat)
    requires Local(r, tid) && PcOf(r, tid).PushPublish? && r' == Step(r, Go(tid), 0)
    requires Logged(r)
    ensures Logged(r')
  {
  }

  lemma PopLoadWindow(r: Ring, r': Ring, tid: nat)
    requires Local(r, tid) && PcOf(r, tid).PopData? && r' == Step(r, Go(tid), 0)
    ensures Window(r')
  {
    hide Slot, Cell;
    forall x | r'.tail <= x < r'.head ensures Claimed(r', x) { assert Claimed(r, x); }
    forall x | r'.head <= x < r'.tail + |r.seqs| ensures Open(r', x) { assert Open(r, x); }
  }

  lemma PopLoadThreads(r: Ring, r': Ring, tid: nat)
    requires Local(r, tid) && PcOf(r, tid).PopData? && r' == Step(r, Go(tid), 0)
    ensures Undisturbed(r, r', tid) && PcOk(r', tid) && Holders(r')
  {
    hide Slot, Cell, Pack;
    OwnTicket(r, tid);
  }

  lemma PopLoadLogged(r: Ring, r': Ring, tid: nat)
    requires Local(r, tid) && PcOf(r, tid).PopData? && r' == Step(r, Go(tid), 0)
    requires Logged(r)
    ensures Logged(r')
  {
  }

  lemma ReleaseSeqs(r: Ring, r': Ring, tid: nat)
    requires Local(r, tid) && PcOf(r, tid).PopRelease? && r' == Step(r, Go(tid), 0)
    ensures var z := PcOf(r, tid).t + |r.seqs|;
            && r.head <= z < r.tail + |r.seqs|
            && Cell(r.seqs, z) == z - |r.seqs| + 1 && Cell(r'.seqs, z) == z
            && forall x :: r.tail <= x < r.tail + |r.seqs| && x != z ==> Cell(r'.seqs, x) == Cell(r.seqs, x)
  {
    var z := PcOf(r, tid).t + |r.seqs|;
    assert Slot(z, |r.seqs|) == Slot(PcOf(r, tid).t, |r.seqs|);
    assert Open(r, z);
    forall x | r.tail <= x < r.tail + |r.seqs| && x != z
      ensures Cell(r'.seqs, x) == Cell(r.seqs, x)
    {
      SlotElsewhere(r.seqs, z, x, z);
    }
  }

  lemma ReleaseKeepsWindow(r: Ring, r': Ring, t: nat)
    requires Shaped(r) && OnlySeq(r, r', t + |r.seqs|) && Window(r)
    requires t < r.tail && r.head <= t + |r.seqs| && r'.writer == r.writer && r'.reader == r.reader - {t}
    requires Cell(r'.seqs, t + |r.seqs|) == t + |r.seqs|
    ensures Window(r')
  {
    hide Cell, Pack;
    forall x | r'.tail <= x < r'.head ensures Claimed(r', x) { assert Claimed(r, x); }
    forall x | r'.head <= x < r'.tail + |r.seqs| ensures Open(r', x) { assert Open(r, x); }
  }

  lemma ReleaseWindow(r: Ring, r': Ring, tid: nat)
    requires Local(r, tid) && PcOf(r, tid).PopRelease? && r' == Step(r, Go(tid), 0)
    ensures Window(r')
  {
    hide Cell, Slot, Claimed, Open, Pack;
    ReleaseSeqs(r, r', tid);
    ReleaseKeepsWindow(r, r', PcOf(r, tid).t);
  }

  lemma ReleaseThreads(r: Ring, r': Ring, tid: nat)
    requires Local(r, tid) && PcOf(r, tid).PopRelease? && r' == Step(r, Go(tid), 0)
    ensures Undisturbed(r, r', tid) && PcOk(r', tid) && Holders(r')
  {
    hide Slot, Cell, Pack;
    OwnTicket(r, tid);
    ReleaseSeqs(r, r', tid);
    if Cell(r.seqs, r.head) == r.head { ClaimHasRoom(r); }
    if Cell(r.seqs, r.tail) == r.tail + 1 { ClaimHasEvent(r); }
  }

  lemma ReleaseLogged(r: Ring, r': Ring, tid: nat)
    requires Local(r, tid) && PcOf(r, tid).PopRelease? && r' == Step(r, Go(tid), 0)
    requires Logged(r)
    ensures Logged(r')
  {
    PackRoundTrip(r.accepted[PcOf(r, tid).t]);
    assert r'.reader.Keys == r.reader.Keys - {PcOf(r, tid).t};
  }

  /** A step of a thread that holds, or is about to take, a ticket. */
  lemma TicketStep(r: Ring, tid: nat)
    requires Inv(r)
    requires var p := PcOf(r, tid);
             p.PushData? || p.PushPublish? || p.PopData? || p.PopRelease? ||
             (p.PushCas? && p.h == r.head) || (p.PopCas? && p.t == r.tail)
    ensures Inv(Step(r, Go(tid), 0))
  {
    var r' := Step(r, Go(tid), 0);
    assert PcOk(r, tid);
    match PcOf(r, tid) {
      case PushCas(e, h) => PushClaimWindow(r, r', tid); PushClaimThreads(r, r', tid); PushClaimHolders(r, r', tid); PushClaimLogged(r, r', tid);
      case PushData(e, h) => PushStoreWindow(r, r', tid); PushStoreThreads(r, r', tid); PushStoreLogged(r, r', tid);
      case PushPublish(e, h) => PublishWindow(r, r', tid); PublishThreads(r, r', tid); PublishLogged(r, r', tid);
      case PopCas(t) => PopClaimWindow(r, r', tid); PopClaimThreads(r, r', tid); PopClaimHolders(r, r', tid); PopClaimLogged(r, r', tid);
      case PopData(t) => PopLoadWindow(r, r', tid); PopLoadThreads(r, r', tid); PopLoadLogged(r, r', tid);
      case PopRelease(t, d) => ReleaseWindow(r, r', tid); ReleaseThreads(r, r', tid); ReleaseLogged(r, r', tid);
    }
    OtherThreads(r, r', tid);
  }

  lemma StepInv(r: Ring, a: Action)
    requires Inv(r)
    ensures Inv(Step(r, a, 0))
  {
    match a
    case StartPush(tid, e) =>
      if PcOf(r, tid).Idle? && Valid(e) { PcOnlyStep(r, tid, PushSeq(e, r.head)); }
    case StartPop(tid) =>
      if PcOf(r, tid).Idle? { PcOnlyStep(r, tid, PopSeq(r.tail)); }
    case Go(tid) =>
      assert PcOk(r, tid);
      match PcOf(r, tid)
      case Idle =>
      case PushSeq(e, h) => PcOnlyStep(r, tid, if Cell(r.seqs, h) == h then PushCas(e, h) else Idle);
      case PushCas(e, h) => if r.head == h { TicketStep(r, tid); } else { PcOnlyStep(r, tid, Idle); }
      case PopSeq(t) => PcOnlyStep(r, tid, if Cell(r.seqs, t) == t + 1 then PopCas(t) else Idle);
      case PopCas(t) => if r.tail == t { TicketStep(r, tid); } else { PcOnlyStep(r, tid, Idle); }
      case _ => TicketStep(r, tid);
  }

  lemma {:induction false} RunInv(r: Ring, acts: seq<Action>)
    requires Inv(r)
    ensures Inv(Run(r, acts, 0))
    decreases |acts|
  {
    if acts != [] {
      RunInv(r, acts[..|acts| - 1]);
      StepInv(Run(r, acts[..|acts| - 1], 0), acts[|acts| - 1]);
    }
  }

  // ---------------------------------------------------------------------
  // Main results over whole runs.
  // ---------------------------------------------------------------------

  /**
   In every interleaving, over any number of ring rounds: what `pop` delivers under a
   ticket is the payload of the push that claimed that ticket, no ticket is delivered
   twice, a consumed ticket is delivered or in the hands of exactly one pop, and the
   ring never holds more than its capacity.
   */
  lemma {:induction false} RunSafety(cap: nat, acts: seq<Action>)
    requires cap >= 2
    ensures var r := Run(Init(cap), acts, 0);
            && r.tail <= r.head == |r.accepted| <= r.tail + cap
            && (forall i :: 0 <= i < |r.delivered| ==>
                  r.delivered[i].ticket < r.tail && r.delivered[i].event == r.accepted[r.delivered[i].ticket])
            && (forall i, j :: 0 <= i < j < |r.delivered| ==> r.delivered[i].ticket != r.delivered[j].ticket)
            && |r.delivered| + |r.reader| == r.tail
            && (forall x :: x in r.reader ==>
                  (PcOf(r, r.reader[x]).PopData? || PcOf(r, r.reader[x]).PopRelease?) && PcOf(r, r.reader[x]).t == x)
  {
    InitInv(cap);
    RunInv(Init(cap), acts);
  }

  /** A pop that holds a ticket will report that ticket's payload, whatever the others do. */
  lemma {:induction false} ClaimedPopReturnsItsPayload(cap: nat, acts: seq<Action>, tid: nat)
    requires cap >= 2
    requires PcOf(Run(Init(cap), acts, 0), tid).PopRelease?
    ensures var r := Run(Init(cap), acts, 0);
            var p := PcOf(r, tid);
            p.t < |r.accepted| && Unpack(p.d) == r.accepted[p.t]
  {
    InitInv(cap);
    RunInv(Init(cap), acts);
    var r := Run(Init(cap), acts, 0);
    assert PcOk(r, tid);
    PackRoundTrip(r.accepted[PcOf(r, tid).t]);
  }

  /** The thread is working on a push of `e`. */
  predicate Pushing(p: Pc, e: Event) {
    (p.PushSeq? || p.PushCas? || p.PushData? || p.PushPublish?) && p.e == e
  }

  ghost predicate Started(acts: seq<Action>, e: Event) {
    exists n, tid: nat :: 0 <= n < |acts| && acts[n] == StartPush(tid, e)
  }

  lemma StartedOn(acts: seq<Action>, e: Event)
    requires |acts| > 0 && Started(acts[..|acts| - 1], e)
    ensures Started(acts, e)
  {
    var n, tid: nat :| 0 <= n < |acts| - 1 && acts[..|acts| - 1][n] == StartPush(tid, e);
    assert acts[n] == StartPush(tid, e);
  }

  /** A thread comes to push `e` only by starting to. */
  lemma PushingBefore(r: Ring, a: Action, tid: nat, e: Event)
    requires Shaped(r) && Pushing(PcOf(Step(r, a, 0), tid), e) && !(a.StartPush? && a.e == e)
    ensures Pushing(PcOf(r, tid), e)
  {
    hide Slot, Cell, Plus;
    if a.tid != tid { assert PcOf(Step(r, a, 0), tid) == PcOf(r, tid); }
  }

  lemma AcceptedBefore(r: Ring, a: Action, e: Event)
    requires Shaped(r) && e in Step(r, a, 0).accepted
    ensures e in r.accepted || (a.Go? && Pushing(PcOf(r, a.tid), e))
  {
    hide Slot, Cell, Plus;
  }

  /** In every interleaving an event in the ring, or on its way there, is the argument of some push. */
  lemma {:induction false} EventsWerePushed(cap: nat, acts: seq<Action>, e: Event)
    requires cap >= 2
    requires var r := Run(Init(cap), acts, 0); e in r.accepted || exists tid: nat :: Pushing(PcOf(r, tid), e)
    ensures Started(acts, e)
    decreases |acts|
  {
    hide Started, Step, Pushing, PcOf;
    if acts == [] {
      assert e in Init(cap).accepted || exists tid: nat :: Pushing(PcOf(Init(cap), tid), e);
      NobodyPushes(cap, e);
    } else {
      var m := |acts| - 1;
      var q, r, a := Run(Init(cap), acts[..m], 0), Run(Init(cap), acts, 0), acts[m];
      if a.StartPush? && a.e == e {
        StartedNow(acts, a.tid, e);
      } else {
        if e in r.accepted {
          AcceptedBefore(q, a, e);
        } else {
          var tid: nat :| Pushing(PcOf(r, tid), e);
          PushingBefore(q, a, tid, e);
        }
        EventsWerePushed(cap, acts[..m], e);
        StartedOn(acts, e);
      }
    }
  }

  lemma NobodyPushes(cap: nat, e: Event)
    requires cap >= 2
    ensures forall tid: nat :: !Pushing(PcOf(Init(cap), tid), e)
  {}

  lemma StartedNow(acts: seq<Action>, tid: nat, e: Event)
    requires |acts| > 0 && acts[|acts| - 1] == StartPush(tid, e)
    ensures Started(acts, e)
  {}

  /**
   In every interleaving a push or pop gives up only for a reason: its ticket went to another
   call since it loaded the counter, the ring is full or empty, or the call that has the slot
   from the round before (the push that claimed the ticket) has not finished with it.
   */
  lemma RefusalHasReason(cap: nat, acts: seq<Action>, tid: nat)
    requires cap >= 2
    ensures var r := Run(Init(cap), acts, 0);
            var p, q := PcOf(r, tid), PcOf(Step(r, Go(tid), 0), tid);
            && (p.PushSeq? && q.Idle? ==> p.h < r.head || r.head == r.tail + cap || (p.h >= cap && p.h - cap in r.reader))
            && (p.PushCas? && q.Idle? ==> p.h < r.head)
            && (p.PopSeq? && q.Idle? ==> p.t < r.tail || r.head == r.tail || p.t in r.writer)
            && (p.PopCas? && q.Idle? ==> p.t < r.tail)
            && (q.Idle? && !p.Idle? ==> p.PushSeq? || p.PushCas? || p.PopSeq? || p.PopCas? || p.PushPublish? || p.PopRelease?)
  {
    hide Inv, Run, Init;
    InitInv(cap);
    RunInv(Init(cap), acts);
    var r := Run(Init(cap), acts, 0);
    assert |Init(cap).seqs| == cap by { InitCap(cap); }
    TestFails(r, tid);
    GivesUpAt(r, tid);
  }

  /**
   At any moment an idle thread may start: a push of a slot below 4 and a bucket below 2^62
   loads the head, any other push is refused at once, and a pop loads the tail.
   */
  lemma CallsStart(r: Ring, tid: nat, e: Event)
    requires Shaped(r) && PcOf(r, tid).Idle?
    ensures PcOf(Step(r, StartPush(tid, e), 0), tid) == if e.slot < 4 && e.bucket < 0x4000_0000_0000_0000 then PushSeq(e, r.head) else Idle
    ensures PcOf(Step(r, StartPop(tid), 0), tid) == PopSeq(r.tail)
  {
    hide Slot, Cell;
  }

  lemma InitCap(cap: nat)
    requires cap >= 2
    ensures |Init(cap).seqs| == cap
  {}

  /** What a loaded counter and a failed sequence test say of the ring. */
  lemma TestFails(r: Ring, tid: nat)
    requires Inv(r)
    ensures var p, cap := PcOf(r, tid), |r.seqs|;
            && (p.PushSeq? || p.PushCas? ==> p.h <= r.head)
            && (p.PopSeq? || p.PopCas? ==> p.t <= r.tail)
            && (p.PushSeq? && Cell(r.seqs, p.h) != p.h ==> p.h < r.head || r.head == r.tail + cap || (p.h >= cap && p.h - cap in r.reader))
            && (p.PopSeq? && Cell(r.seqs, p.t) != p.t + 1 ==> p.t < r.tail || r.head == r.tail || p.t in r.writer)
  {
    hide Slot, Cell, Holders, Logged;
    assert PcOk(r, tid);
    var p := PcOf(r, tid);
    if p.PushSeq? && p.h == r.head && r.head < r.tail + |r.seqs| { assert Open(r, p.h); }
    if p.PopSeq? && p.t == r.tail && r.tail < r.head { assert Claimed(r, p.t); }
  }

  lemma GivesUpAt(r: Ring, tid: nat)
    requires Shaped(r)
    ensures var p, q := PcOf(r, tid), PcOf(Step(r, Go(tid), 0), tid);
            && (p.PushSeq? && q.Idle? ==> Cell(r.seqs, p.h) != p.h)
            && (p.PushCas? && q.Idle? ==> p.h != r.head)
            && (p.PopSeq? && q.Idle? ==> Cell(r.seqs, p.t) != p.t + 1)
            && (p.PopCas? && q.Idle? ==> p.t != r.tail)
            && (q.Idle? && !p.Idle? ==> p.PushSeq? || p.PushCas? || p.PopSeq? || p.PopCas? || p.PushPublish? || p.PopRelease?)
  {
    hide Slot, Cell;
  }

  // ---------------------------------------------------------------------
  // Calls that run alone: push, pop, drain and clear as whole operations.
  // ---------------------------------------------------------------------

  ghost predicate Quiet(r: Ring) {
    forall tid :: PcOf(r, tid).Idle?
  }

  function PopActions(tid: nat): seq<Action> {
    [StartPop(tid), Go(tid), Go(tid), Go(tid), Go(tid)]
  }

  function PushActions(tid: nat, e: Event): seq<Action> {
    [StartPush(tid, e), Go(tid), Go(tid), Go(tid), Go(tid)]
  }

  /** `pop` by one thread with nobody in between; an early return leaves the last actions without effect. */
  function PopCall(r: Ring, tid: nat, w: nat): (r': Ring)
    requires Shaped(r)
    ensures Shaped(r') && |r'.seqs| == |r.seqs|
  {
    Run(r, PopActions(tid), w)
  }

  function PushCall(r: Ring, tid: nat, e: Event, w: nat): (r': Ring)
    requires Shaped(r)
    ensures Shaped(r') && |r'.seqs| == |r.seqs|
  {
    Run(r, PushActions(tid, e), w)
  }

  /** `drain`: up to `n` pops, stopping at the first that delivers nothing. */
  function Drain(r: Ring, tid: nat, n: nat, w: nat): (r': Ring)
    requires Shaped(r)
    ensures Shaped(r') && |r'.seqs| == |r.seqs|
    decreases n
  {
    if n == 0 then r
    else
      var p := PopCall(r, tid, w);
      if |p.delivered| == |r.delivered| then p else Drain(p, tid, n - 1, w)
  }

  lemma QuietHoldsNothing(r: Ring)
    requires Inv(r) && Quiet(r)
    ensures r.writer == map[] && r.reader == map[]
  {
    assert forall x :: x in r.writer ==> PcOf(r, r.writer[x]).Idle?;
    assert forall x :: x in r.reader ==> PcOf(r, r.reader[x]).Idle?;
  }

  lemma FiveSteps(r: Ring, s: seq<Action>, w: nat)
    requires Shaped(r) && |s| == 5
    ensures Run(r, s, w) == Step(Step(Step(Step(Step(r, s[0], w), s[1], w), s[2], w), s[3], w), s[4], w)
  {
    assert s[..4][..3] == s[..3] && s[..3][..2] == s[..2] && s[..2][..1] == s[..1] && s[..1][..0] == [];
    assert Run(r, s[..1], w) == Step(r, s[0], w);
    assert Run(r, s[..2], w) == Step(Run(r, s[..1], w), s[1], w);
    assert Run(r, s[..3], w) == Step(Run(r, s[..2], w), s[2], w);
    assert Run(r, s[..4], w) == Step(Run(r, s[..3], w), s[3], w);
  }

  lemma AtTwice(r: Ring, tid: nat, p: Pc, q: Pc)
    ensures At(At(r, tid, p), tid, q) == At(r, tid, q)
  {
    assert r.threads[tid := p][tid := q] == r.threads[tid := q];
  }

  /** A lone pop that finds its ticket published takes it. */
  lemma LonePop(r: Ring, tid: nat)
    requires Shaped(r) && PcOf(r, tid).Idle? && Cell(r.seqs, r.tail) == r.tail + 1
    ensures var r' := PopCall(r, tid, 0);
            && r'.threads == r.threads[tid := Idle] && r'.head == r.head && r'.accepted == r.accepted
            && r'.tail == r.tail + 1
            && r'.delivered == r.delivered + [Delivery(r.tail, Unpack(Cell(r.data, r.tail)))]
  {
    hide Unpack, Slot;
    LonePopState(r, tid);
  }

  lemma LonePopClaim(r: Ring, tid: nat)
    requires Shaped(r) && PcOf(r, tid).Idle? && Cell(r.seqs, r.tail) == r.tail + 1
    ensures Step(Step(Step(r, StartPop(tid), 0), Go(tid), 0), Go(tid), 0) ==
            At(r.(tail := r.tail + 1, reader := r.reader[r.tail := tid]), tid, PopData(r.tail))
  {
    var t := r.tail;
    var r1 := Step(r, StartPop(tid), 0);
    assert r1 == At(r, tid, PopSeq(t));
    var r2 := Step(r1, Go(tid), 0);
    assert r2 == At(r, tid, PopCas(t)) by { AtTwice(r, tid, PopSeq(t), PopCas(t)); }
    AtTwice(r, tid, PopCas(t), PopData(t));
  }

  /** The whole state a lone pop leaves. */
  lemma LonePopState(r: Ring, tid: nat)
    requires Shaped(r) && PcOf(r, tid).Idle? && Cell(r.seqs, r.tail) == r.tail + 1
    ensures PopCall(r, tid, 0) ==
            Ring(r.head, r.tail + 1, r.seqs[Slot(r.tail, |r.seqs|) := r.tail + |r.seqs|], r.data,
                 r.threads[tid := Idle], r.accepted,
                 r.delivered + [Delivery(r.tail, Unpack(Cell(r.data, r.tail)))],
                 r.writer, r.reader[r.tail := tid] - {r.tail})
  {
    hide Unpack, Slot, Step;
    FiveSteps(r, PopActions(tid), 0);
    LonePopClaim(r, tid);
    LonePopFinish(r.(tail := r.tail + 1, reader := r.reader[r.tail := tid]), tid, r.tail);
  }

  lemma LonePopFinish(q: Ring, tid: nat, t: nat)
    requires Shaped(q)
    ensures Step(Step(At(q, tid, PopData(t)), Go(tid), 0), Go(tid), 0) ==
            Ring(q.head, q.tail, q.seqs[Slot(t, |q.seqs|) := t + |q.seqs|], q.data, q.threads[tid := Idle], q.accepted,
                 q.delivered + [Delivery(t, Unpack(Cell(q.data, t)))], q.writer, q.reader - {t})
  {
    hide Unpack, Slot;
    var d := Cell(q.data, t);
    var r4 := Step(At(q, tid, PopData(t)), Go(tid), 0);
    assert r4 == At(q, tid, PopRelease(t, d)) by { AtTwice(q, tid, PopData(t), PopRelease(t, d)); }
    AtTwice(q, tid, PopRelease(t, d), Idle);
  }

  lemma LonePopNothing(r: Ring, tid: nat)
    requires Shaped(r) && PcOf(r, tid).Idle? && Cell(r.seqs, r.tail) != r.tail + 1
    ensures PopCall(r, tid, 0) == At(r, tid, Idle)
  {
    FiveSteps(r, PopActions(tid), 0);
    AtTwice(r, tid, PopSeq(r.tail), Idle);
    assert Step(At(r, tid, PopSeq(r.tail)), Go(tid), 0) == At(r, tid, Idle);
  }

  lemma StaysQuiet(r: Ring, tid: nat)
    requires Quiet(r)
    ensures forall r': Ring :: r'.threads == r.threads[tid := Idle] ==> Quiet(r')
  {
    forall r': Ring, u: nat | r'.threads == r.threads[tid := Idle] ensures PcOf(r', u).Idle? { assert PcOf(r, u).Idle?; }
  }

  lemma QuietPop(r: Ring, tid: nat)
    requires Inv(r) && Quiet(r)
    ensures var r' := PopCall(r, tid, 0);
            && Inv(r') && Quiet(r')
            && Handed(r, r', Least(1, r.head - r.tail))
  {
    RunInv(r, PopActions(tid));
    QuietHoldsNothing(r);
    StaysQuiet(r, tid);
    if r.tail < r.head {
      assert Claimed(r, r.tail);
      PackRoundTrip(r.accepted[r.tail]);
      LonePop(r, tid);
      assert Queued(r, 1) == [Delivery(r.tail, r.accepted[r.tail])];
    } else {
      assert Open(r, r.tail);
      LonePopNothing(r, tid);
    }
  }

  lemma LonePush(r: Ring, tid: nat, e: Event)
    requires Shaped(r) && PcOf(r, tid).Idle? && Valid(e) && Cell(r.seqs, r.head) == r.head
    ensures PushCall(r, tid, e, 0) ==
            At(r, tid, Idle).(
              head := r.head + 1,
              accepted := r.accepted + [e],
              writer := r.writer[r.head := tid] - {r.head},
              data := r.data[Slot(r.head, |r.seqs|) := Pack(e)],
              seqs := r.seqs[Slot(r.head, |r.seqs|) := r.head + 1])
  {
    hide Slot, Pack;
    FiveSteps(r, PushActions(tid, e), 0);
    var h := r.head;
    var r1 := Step(r, StartPush(tid, e), 0);
    assert r1 == At(r, tid, PushSeq(e, h));
    var r2 := Step(r1, Go(tid), 0);
    assert r2 == At(r, tid, PushCas(e, h)) by { AtTwice(r, tid, PushSeq(e, h), PushCas(e, h)); }
    var r3 := Step(r2, Go(tid), 0);
    var q := r.(head := h + 1, accepted := r.accepted + [e], writer := r.writer[h := tid]);
    assert r3 == At(q, tid, PushData(e, h)) by { AtTwice(r, tid, PushCas(e, h), PushData(e, h)); }
    var r4 := Step(r3, Go(tid), 0);
    var q' := q.(data := r.data[Slot(h, |r.seqs|) := Pack(e)]);
    assert r4 == At(q', tid, PushPublish(e, h)) by { AtTwice(q', tid, PushData(e, h), PushPublish(e, h)); }
    AtTwice(q', tid, PushPublish(e, h), Idle);
  }

  lemma LonePushNothing(r: Ring, tid: nat, e: Event)
    requires Shaped(r) && PcOf(r, tid).Idle? && Valid(e) && Cell(r.seqs, r.head) != r.head
    ensures PushCall(r, tid, e, 0) == At(r, tid, Idle)
  {
    FiveSteps(r, PushActions(tid, e), 0);
    AtTwice(r, tid, PushSeq(e, r.head), Idle);
    assert Step(At(r, tid, PushSeq(e, r.head)), Go(tid), 0) == At(r, tid, Idle);
  }

  /** With no call in flight a push of a valid event succeeds exactly when the ring has room. */
  lemma QuietPush(r: Ring, tid: nat, e: Event)
    requires Inv(r) && Quiet(r)
    ensures var r' := PushCall(r, tid, e, 0);
            && Inv(r') && Quiet(r')
            && r'.tail == r.tail && r'.delivered == r.delivered
            && r'.accepted == if Valid(e) && r.head < r.tail + |r.seqs| then r.accepted + [e] else r.accepted
  {
    RunInv(r, PushActions(tid, e));
    QuietHoldsNothing(r);
    StaysQuiet(r, tid);
    if !Valid(e) {
      FiveSteps(r, PushActions(tid, e), 0);
    } else if r.head < r.tail + |r.seqs| {
      assert Open(r, r.head);
      LonePush(r, tid, e);
    } else {
      assert Claimed(r, r.tail);
      LonePushNothing(r, tid, e);
    }
  }

  /** The deliveries a lone drain makes: the queued events, oldest ticket first. */
  function Queued(r: Ring, n: nat): (s: seq<Delivery>)
    requires r.tail + n <= |r.accepted|
    ensures |s| == n
  {
    seq(n, i requires 0 <= i < n => Delivery(r.tail + i, r.accepted[r.tail + i]))
  }

  function Least(a: nat, b: nat): nat { if a < b then a else b }

  /** `r'` is `r` after its `k` oldest events were handed out. */
  ghost predicate Handed(r: Ring, r': Ring, k: nat) {
    && r'.head == r.head && r'.tail == r.tail + k && r'.accepted == r.accepted
    && r.tail + k <= |r.accepted| && r'.delivered == r.delivered + Queued(r, k)
  }

  lemma HandedMore(r: Ring, p: Ring, r': Ring, k: nat)
    requires Handed(r, p, 1) && Handed(p, r', k)
    ensures Handed(r, r', k + 1)
  {
    assert Queued(r, k + 1) == Queued(r, 1) + Queued(p, k);
  }

  lemma {:induction false} DrainInv(r: Ring, tid: nat, n: nat)
    requires Inv(r)
    ensures Inv(Drain(r, tid, n, 0))
    decreases n
  {
    if n > 0 {
      RunInv(r, PopActions(tid));
      DrainInv(PopCall(r, tid, 0), tid, n - 1);
    }
  }

  /** A lone drain hands out the queued events in ticket order, up to its limit. */
  lemma {:induction false} QuietDrain(r: Ring, tid: nat, n: nat)
    requires Inv(r) && Quiet(r)
    ensures var r' := Drain(r, tid, n, 0);
            Quiet(r') && Handed(r, r', Least(n, r.head - r.tail))
    decreases n
  {
    if n > 0 {
      QuietPop(r, tid);
      var p := PopCall(r, tid, 0);
      if r.tail < r.head {
        var r' := Drain(p, tid, n - 1, 0);
        assert Drain(r, tid, n, 0) == r';
        QuietDrain(p, tid, n - 1);
        HandedMore(r, p, r', Least(n - 1, p.head - p.tail));
      }
    }
  }

  /** `clear` under the exclusive lock, after any run that left no call in flight, empties the ring. */
  lemma {:induction false} ClearEmpties(cap: nat, acts: seq<Action>, tid: nat)
    requires cap >= 2 && Quiet(Run(Init(cap), acts, 0))
    ensures var r := Run(Init(cap), acts, 0);
            var r' := Drain(r, tid, cap, 0);
            && r'.head == r'.tail && Quiet(r')
            && r.tail <= r.head == |r.accepted| && r'.delivered == r.delivered + Queued(r, r.head - r.tail)
  {
    InitInv(cap);
    RunInv(Init(cap), acts);
    QuietDrain(Run(Init(cap), acts, 0), tid, cap);
  }
}
