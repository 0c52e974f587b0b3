/**
 `AccessBuffer` of src/engine/access_buffer.rs as an object used by one thread at a time
 (under the map's exclusive lock, or in a single-threaded run).  Its state is a ring of
 the step system with no call in flight; its methods compute what a lone push or pop of
 that system computes.
 */
module AccessBuffers {
  import opened Base
  import opened AccessRing

  class AccessBuffer {
    const cap: nat
    var head: nat
    var tail: nat
    var seqs: seq<nat>
    var data: seq<nat>
    ghost var accepted: seq<Event>
    ghost var delivered: seq<Delivery>

    ghost function AsRing(): Ring
      reads this
    {
      Ring(head, tail, seqs, data, map[0 := Idle], accepted, delivered, map[], map[])
    }

    ghost predicate Valid()
      reads this
    {
      Inv(AsRing()) && |seqs| == cap
    }

    /** Events waiting, oldest first. */
    ghost function Queue(): (q: seq<Event>)
      reads this
      requires Valid()
      ensures |q| == head - tail <= cap
    {
      accepted[tail..head]
    }

    /** The program rounds the requested capacity up to a power of two, at least 64. */
    constructor (capacity: nat)
      requires capacity >= 2
      ensures Valid() && cap == capacity && Queue() == []
    {
      cap := capacity;
      head, tail, accepted, delivered := 0, 0, [], [];
      seqs := seq(capacity, i => i);
      data := seq(capacity, i => 0);
      new;
      InitInv(capacity);
      assert AsRing() == At(Init(capacity), 0, Idle);
      PcOnlyStep(Init(capacity), 0, Idle);
    }

    method Push(e: Event) returns (ok: bool)
      requires Valid()
      modifies this
      ensures Valid()
      ensures ok <==> AccessRing.Valid(e) && |old(Queue())| < cap
      ensures Queue() == if ok then old(Queue()) + [e] else old(Queue())
    {
      hide Inv, Slot, Pack, PushCall;
      ghost var r := AsRing();
      InvShape(r);
      AllIdle(r);
      QuietPush(r, 0, e);
      if !AccessRing.Valid(e) { return false; }
      var h := head;
      var at := Slot(h, |seqs|);
      RoomIsFree(r);
      if seqs[at] != h {
        return false;
      }
      head := h + 1;
      data := data[at := Pack(e)];
      seqs := seqs[at := h + 1];
      accepted := accepted + [e];
      LonePush(r, 0, e);
      assert AsRing() == PushCall(r, 0, e, 0) by { SoleThread(r, h); }
      return true;
    }

    method Pop() returns (r: Option<Event>)
      requires Valid()
      modifies this
      ensures Valid()
      ensures |old(Queue())| == 0 ==> r.None? && Queue() == old(Queue())
      ensures |old(Queue())| > 0 ==> r == Some(old(Queue())[0]) && Queue() == old(Queue())[1..]
    {
      hide Inv, Slot, Unpack, PopCall, Pack;
      ghost var g := AsRing();
      InvShape(g);
      AllIdle(g);
      QuietPop(g, 0);
      var t := tail;
      var at := Slot(t, |seqs|);
      EventIsPublished(g);
      if seqs[at] != t + 1 { return None; }
      tail := t + 1;
      var d := data[at];
      seqs := seqs[at := t + |seqs|];
      delivered := delivered + [Delivery(t, Unpack(d))];
      LonePopState(g, 0);
      assert AsRing() == PopCall(g, 0, 0) by { SoleThread(g, t); }
      InvShape(PopCall(g, 0, 0));
      PackRoundTrip(g.accepted[t]);
      return Some(Unpack(d));
    }

    /** `clear`: a drain of the whole capacity that ignores the events. */
    method Clear()
      requires Valid()
      modifies this
      ensures Valid() && Queue() == []
    {
      hide Inv;
      ghost var n := |Queue()|;
      for k := 0 to cap
        invariant Valid() && |Queue()| == if k < n then n - k else 0
      {
        var e := Pop();
        if e.None? { break; }
      }
    }
  }

  lemma InvShape(r: Ring)
    requires Inv(r)
    ensures Shaped(r) && r.tail <= r.head == |r.accepted| <= r.tail + |r.seqs|
    ensures forall i :: 0 <= i < |r.accepted| ==> AccessRing.Valid(r.accepted[i])
  {}

  lemma AllIdle(r: Ring)
    requires r.threads == map[0 := Idle]
    ensures Quiet(r)
  {}

  lemma SoleThread(r: Ring, x: nat)
    requires r.threads == map[0 := Idle] && r.writer == map[] && r.reader == map[]
    ensures r.threads[0 := Idle] == r.threads
    ensures r.writer[x := 0] - {x} == map[] && r.reader[x := 0] - {x} == map[]
  {}

  /** With no call in flight the sequence tests say exactly whether there is room, or an event. */
  lemma RoomIsFree(r: Ring)
    requires Inv(r) && Quiet(r)
    ensures Shaped(r) && (Cell(r.seqs, r.head) == r.head <==> r.head < r.tail + |r.seqs|)
  {
    QuietHoldsNothing(r);
    assert r.head < r.tail + |r.seqs| ==> Open(r, r.head);
    assert r.head == r.tail + |r.seqs| ==> Claimed(r, r.tail);
    CellPeriod(r.seqs, r.tail);
  }

  lemma EventIsPublished(r: Ring)
    requires Inv(r) && Quiet(r)
    ensures Shaped(r) && (Cell(r.seqs, r.tail) == r.tail + 1 <==> r.tail < r.head)
    ensures r.tail < r.head ==> r.tail < |r.accepted| && Cell(r.data, r.tail) == Pack(r.accepted[r.tail])
  {
    QuietHoldsNothing(r);
    assert r.tail < r.head ==> Claimed(r, r.tail);
    assert r.tail == r.head ==> Open(r, r.tail);
  }
}
