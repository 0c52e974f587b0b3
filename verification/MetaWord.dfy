/**
 The packed metadata word of src/engine/meta.rs: state, fingerprint and priority of
 four slots in 64 bits.  The word operations are the program's shifts and masks; they
 are proved to act on a sequence of four records, one field at a time.
 */
module MetaWord {
  import opened Base

  datatype SlotState = Empty | Full | Tombstone

  /** The record a word holds for one slot: priority is frequency (4 bits) over recency (3 bits). */
  datatype Rec = Rec(state: SlotState, h2: bv64, freq: nat, rec: nat) {
    function Priority(): nat { 8 * freq + rec }
  }

  function FromBits(b: bv64): SlotState {
    if b & 3 == 1 then Full else if b & 3 == 2 then Tombstone else Empty
  }

  function StateBits(s: SlotState): bv64 {
    match s case Empty => 0 case Full => 1 case Tombstone => 2
  }

  // The word is eight seven-bit fields (priorities 0..3, fingerprints 4..7) below four
  // two-bit states: field q starts at bit 7q, state i at bit 56 + 2i.

  function Shift7(q: nat): (k: bv64)
    requires q < 8
    ensures k <= 49
  {
    match q case 0 => 0 case 1 => 7 case 2 => 14 case 3 => 21 case 4 => 28 case 5 => 35 case 6 => 42 case _ => 49
  }

  function Shift2(i: nat): (k: bv64)
    requires i < 4
    ensures k <= 62
  {
    match i case 0 => 56 case 1 => 58 case 2 => 60 case _ => 62
  }

  function Mask7(q: nat): bv64
    requires q < 8
  {
    match q
    case 0 => 0x7F case 1 => 0x7F << 7 case 2 => 0x7F << 14 case 3 => 0x7F << 21
    case 4 => 0x7F << 28 case 5 => 0x7F << 35 case 6 => 0x7F << 42 case _ => 0x7F << 49
  }

  function Mask2(i: nat): bv64
    requires i < 4
  {
    match i case 0 => 0x03 << 56 case 1 => 0x03 << 58 case 2 => 0x03 << 60 case _ => 0x03 << 62
  }

  /** Replace the bits under a mask. */
  function Merge(v: bv64, m: bv64, y: bv64): bv64 {
    (v & !m) | y
  }

  function Get7(v: bv64, q: nat): bv64
    requires q < 8
  {
    (v >> Shift7(q)) & 0x7F
  }

  function Place7(q: nat, x: bv64): bv64
    requires q < 8
  {
    (x & 0x7F) << Shift7(q)
  }

  function Put7(v: bv64, q: nat, x: bv64): bv64
    requires q < 8
  {
    Merge(v, Mask7(q), Place7(q, x))
  }

  function Get2(v: bv64, i: nat): bv64
    requires i < 4
  {
    (v >> Shift2(i)) & 0x03
  }

  function Place2(i: nat, x: bv64): bv64
    requires i < 4
  {
    (x & 0x03) << Shift2(i)
  }

  function Put2(v: bv64, i: nat, x: bv64): bv64
    requires i < 4
  {
    Merge(v, Mask2(i), Place2(i, x))
  }

  function State(v: bv64, i: nat): SlotState
    requires i < 4
  {
    FromBits(Get2(v, i))
  }

  function H2(v: bv64, i: nat): bv64
    requires i < 4
  {
    Get7(v, 4 + i)
  }

  function Prio(v: bv64, i: nat): bv64
    requires i < 4
  {
    Get7(v, i)
  }

  function WithState(v: bv64, i: nat, s: SlotState): bv64
    requires i < 4
  {
    Put2(v, i, StateBits(s))
  }

  function WithH2(v: bv64, i: nat, h2: bv64): bv64
    requires i < 4
  {
    Put7(v, 4 + i, h2)
  }

  function WithPrio(v: bv64, i: nat, p: bv64): bv64
    requires i < 4
  {
    Put7(v, i, p)
  }

  /** `on_insert`: frequency zero, recency one. */
  function OnInsert(v: bv64, i: nat): bv64
    requires i < 4
  {
    WithPrio(v, i, 0x01)
  }

  function FreqOf(p: bv64): (f: nat)
    ensures f <= 15
  {
    ((p >> 3) & 0x0F) as nat
  }

  function RecOf(p: bv64): (r: nat)
    ensures r <= 7
  {
    (p & 0x07) as nat
  }

  function RecAt(v: bv64, i: nat): Rec
    requires i < 4
  {
    Rec(State(v, i), H2(v, i), FreqOf(Prio(v, i)), RecOf(Prio(v, i)))
  }

  /** The four records of a word. */
  function Unpack(v: bv64): (rs: seq<Rec>)
    ensures |rs| == 4
  {
    [RecAt(v, 0), RecAt(v, 1), RecAt(v, 2), RecAt(v, 3)]
  }

  // ---------------------------------------------------------------------
  // Setters change their own field of their own slot and nothing else.
  // ---------------------------------------------------------------------

  predicate AgreeIn(v: bv64, w: bv64, m: bv64) { v & m == w & m }

  predicate AgreeOut(v: bv64, w: bv64, m: bv64) { v & !m == w & !m }

  predicate Under(y: bv64, m: bv64) { y & !m == 0 }

  predicate Apart(m: bv64, n: bv64) { m & n == 0 }

  lemma OrOutside(v: bv64, y: bv64, m: bv64)
    requires Under(y, m)
    ensures AgreeOut(Merge(v, m, y), v, m)
  {}

  lemma Get7Inside(v: bv64, w: bv64, q: nat)
    requires q < 8 && AgreeIn(v, w, Mask7(q))
    ensures Get7(v, q) == Get7(w, q)
  {
    match q {
      case 0 => assert (v >> 0) & 0x7F == (v & (0x7F << 0)) >> 0 && (w >> 0) & 0x7F == (w & (0x7F << 0)) >> 0;
      case 1 => assert (v >> 7) & 0x7F == (v & (0x7F << 7)) >> 7 && (w >> 7) & 0x7F == (w & (0x7F << 7)) >> 7;
      case 2 => assert (v >> 14) & 0x7F == (v & (0x7F << 14)) >> 14 && (w >> 14) & 0x7F == (w & (0x7F << 14)) >> 14;
      case 3 => assert (v >> 21) & 0x7F == (v & (0x7F << 21)) >> 21 && (w >> 21) & 0x7F == (w & (0x7F << 21)) >> 21;
      case 4 => assert (v >> 28) & 0x7F == (v & (0x7F << 28)) >> 28 && (w >> 28) & 0x7F == (w & (0x7F << 28)) >> 28;
      case 5 => assert (v >> 35) & 0x7F == (v & (0x7F << 35)) >> 35 && (w >> 35) & 0x7F == (w & (0x7F << 35)) >> 35;
      case 6 => assert (v >> 42) & 0x7F == (v & (0x7F << 42)) >> 42 && (w >> 42) & 0x7F == (w & (0x7F << 42)) >> 42;
      case _ => assert (v >> 49) & 0x7F == (v & (0x7F << 49)) >> 49 && (w >> 49) & 0x7F == (w & (0x7F << 49)) >> 49;
    }
  }

  lemma Get2Inside(v: bv64, w: bv64, q: nat)
    requires q < 4 && AgreeIn(v, w, Mask2(q))
    ensures Get2(v, q) == Get2(w, q)
  {
    match q {
      case 0 => assert (v >> 56) & 0x03 == (v & (0x03 << 56)) >> 56 && (w >> 56) & 0x03 == (w & (0x03 << 56)) >> 56;
      case 1 => assert (v >> 58) & 0x03 == (v & (0x03 << 58)) >> 58 && (w >> 58) & 0x03 == (w & (0x03 << 58)) >> 58;
      case 2 => assert (v >> 60) & 0x03 == (v & (0x03 << 60)) >> 60 && (w >> 60) & 0x03 == (w & (0x03 << 60)) >> 60;
      case _ => assert (v >> 62) & 0x03 == (v & (0x03 << 62)) >> 62 && (w >> 62) & 0x03 == (w & (0x03 << 62)) >> 62;
    }
  }

  lemma Put7Inside(v: bv64, q: nat, x: bv64)
    requires q < 8
    ensures Get7(Put7(v, q, x), q) == x & 0x7F
  {
    match q {
      case 0 => assert (((v & !(0x7F << 0)) | ((x & 0x7F) << 0)) >> 0) & 0x7F == x & 0x7F;
      case 1 => assert (((v & !(0x7F << 7)) | ((x & 0x7F) << 7)) >> 7) & 0x7F == x & 0x7F;
      case 2 => assert (((v & !(0x7F << 14)) | ((x & 0x7F) << 14)) >> 14) & 0x7F == x & 0x7F;
      case 3 => assert (((v & !(0x7F << 21)) | ((x & 0x7F) << 21)) >> 21) & 0x7F == x & 0x7F;
      case 4 => assert (((v & !(0x7F << 28)) | ((x & 0x7F) << 28)) >> 28) & 0x7F == x & 0x7F;
      case 5 => assert (((v & !(0x7F << 35)) | ((x & 0x7F) << 35)) >> 35) & 0x7F == x & 0x7F;
      case 6 => assert (((v & !(0x7F << 42)) | ((x & 0x7F) << 42)) >> 42) & 0x7F == x & 0x7F;
      case _ => assert (((v & !(0x7F << 49)) | ((x & 0x7F) << 49)) >> 49) & 0x7F == x & 0x7F;
    }
  }

  lemma Put2Inside(v: bv64, q: nat, x: bv64)
    requires q < 4
    ensures Get2(Put2(v, q, x), q) == x & 0x03
  {
    match q {
      case 0 => assert (((v & !(0x03 << 56)) | ((x & 0x03) << 56)) >> 56) & 0x03 == x & 0x03;
      case 1 => assert (((v & !(0x03 << 58)) | ((x & 0x03) << 58)) >> 58) & 0x03 == x & 0x03;
      case 2 => assert (((v & !(0x03 << 60)) | ((x & 0x03) << 60)) >> 60) & 0x03 == x & 0x03;
      case _ => assert (((v & !(0x03 << 62)) | ((x & 0x03) << 62)) >> 62) & 0x03 == x & 0x03;
    }
  }

  lemma Place7Inside(q: nat, x: bv64)
    requires q < 8
    ensures Under(Place7(q, x), Mask7(q))
  {
    match q {
      case 0 => assert ((x & 0x7F) << 0) & !(0x7F << 0) == 0;
      case 1 => assert ((x & 0x7F) << 7) & !(0x7F << 7) == 0;
      case 2 => assert ((x & 0x7F) << 14) & !(0x7F << 14) == 0;
      case 3 => assert ((x & 0x7F) << 21) & !(0x7F << 21) == 0;
      case 4 => assert ((x & 0x7F) << 28) & !(0x7F << 28) == 0;
      case 5 => assert ((x & 0x7F) << 35) & !(0x7F << 35) == 0;
      case 6 => assert ((x & 0x7F) << 42) & !(0x7F << 42) == 0;
      case _ => assert ((x & 0x7F) << 49) & !(0x7F << 49) == 0;
    }
  }

  lemma Place2Inside(q: nat, x: bv64)
    requires q < 4
    ensures Under(Place2(q, x), Mask2(q))
  {
    match q {
      case 0 => assert ((x & 0x03) << 56) & !(0x03 << 56) == 0;
      case 1 => assert ((x & 0x03) << 58) & !(0x03 << 58) == 0;
      case 2 => assert ((x & 0x03) << 60) & !(0x03 << 60) == 0;
      case _ => assert ((x & 0x03) << 62) & !(0x03 << 62) == 0;
    }
  }

  lemma Put7Outside(v: bv64, q: nat, x: bv64)
    requires q < 8
    ensures AgreeOut(Put7(v, q, x), v, Mask7(q))
  {
    hide Mask7, Place7, AgreeOut, Under, Merge;
    Place7Inside(q, x);
    OrOutside(v, Place7(q, x), Mask7(q));
  }

  lemma Put2Outside(v: bv64, q: nat, x: bv64)
    requires q < 4
    ensures AgreeOut(Put2(v, q, x), v, Mask2(q))
  {
    hide Mask2, Place2, AgreeOut, Under, Merge;
    Place2Inside(q, x);
    OrOutside(v, Place2(q, x), Mask2(q));
  }

  lemma MasksApart(p: nat, q: nat, i: nat, j: nat)
    requires p < 8 && q < 8 && i < 4 && j < 4
    ensures p != q ==> Apart(Mask7(p), Mask7(q))
    ensures Apart(Mask7(p), Mask2(i)) && Apart(Mask2(i), Mask7(p))
    ensures i != j ==> Apart(Mask2(i), Mask2(j))
  {}

  /** Words that agree outside one mask agree inside any disjoint one. */
  lemma AgreeInside(v: bv64, w: bv64, m: bv64, n: bv64)
    requires AgreeOut(v, w, m) && Apart(m, n)
    ensures AgreeIn(v, w, n)
  {}

  /** A seven-bit store reads back in its own field and is invisible in every other. */
  lemma Put7Reads(v: bv64, q: nat, x: bv64, t: nat, i: nat)
    requires q < 8 && t < 8 && i < 4
    ensures Get7(Put7(v, q, x), t) == if t == q then x & 0x7F else Get7(v, t)
    ensures Get2(Put7(v, q, x), i) == Get2(v, i)
  {
    hide Get7, Put7, Get2, Mask7, Mask2, Shift7, Shift2, AgreeIn, AgreeOut, Apart;
    var w := Put7(v, q, x);
    Put7Outside(v, q, x);
    MasksApart(q, t, i, i);
    AgreeInside(w, v, Mask7(q), Mask2(i));
    Get2Inside(w, v, i);
    if t == q {
      Put7Inside(v, q, x);
    } else {
      AgreeInside(w, v, Mask7(q), Mask7(t));
      Get7Inside(w, v, t);
    }
  }

  /** A two-bit store reads back in its own field and is invisible in every other. */
  lemma Put2Reads(v: bv64, q: nat, x: bv64, t: nat, i: nat)
    requires q < 4 && t < 8 && i < 4
    ensures Get2(Put2(v, q, x), i) == if i == q then x & 0x03 else Get2(v, i)
    ensures Get7(Put2(v, q, x), t) == Get7(v, t)
  {
    hide Get7, Put2, Get2, Mask7, Mask2, Shift7, Shift2, AgreeIn, AgreeOut, Apart;
    var w := Put2(v, q, x);
    Put2Outside(v, q, x);
    MasksApart(t, t, q, i);
    AgreeInside(w, v, Mask2(q), Mask7(t));
    Get7Inside(w, v, t);
    if i == q {
      Put2Inside(v, q, x);
    } else {
      AgreeInside(w, v, Mask2(q), Mask2(i));
      Get2Inside(w, v, i);
    }
  }

  lemma StateBitsSmall(s: SlotState)
    ensures FromBits(StateBits(s) & 0x03) == s
  {}

  lemma UnpackAt(v: bv64, i: nat)
    requires i < 4
    ensures Unpack(v)[i] == RecAt(v, i)
  {
    hide RecAt;
  }

  /** Two words whose records agree slot by slot have the same records. */
  lemma UnpackIs(v: bv64, rs: seq<Rec>)
    requires |rs| == 4 && forall j :: 0 <= j < 4 ==> RecAt(v, j) == rs[j]
    ensures Unpack(v) == rs
  {
    hide RecAt;
  }

  lemma SetStateRefines(v: bv64, i: nat, s: SlotState)
    requires i < 4
    ensures Unpack(WithState(v, i, s)) == Unpack(v)[i := Unpack(v)[i].(state := s)]
  {
    hide Unpack, Get2, Put2, Get7, FromBits, StateBits, Shift2, Shift7, FreqOf, RecOf;
    var rs := Unpack(v)[i := Unpack(v)[i].(state := s)];
    StateBitsSmall(s);
    forall j | 0 <= j < 4 ensures RecAt(WithState(v, i, s), j) == rs[j] {
      UnpackAt(v, j);
      Put2Reads(v, i, StateBits(s), j, j);
      Put2Reads(v, i, StateBits(s), 4 + j, j);
    }
    UnpackIs(WithState(v, i, s), rs);
  }

  lemma SetH2Refines(v: bv64, i: nat, h2: bv64)
    requires i < 4
    ensures Unpack(WithH2(v, i, h2)) == Unpack(v)[i := Unpack(v)[i].(h2 := h2 & 0x7F)]
  {
    hide Unpack, Get2, Get7, Put7, FromBits, Shift2, Shift7, FreqOf, RecOf;
    var rs := Unpack(v)[i := Unpack(v)[i].(h2 := h2 & 0x7F)];
    forall j | 0 <= j < 4 ensures RecAt(WithH2(v, i, h2), j) == rs[j] {
      UnpackAt(v, j);
      Put7Reads(v, 4 + i, h2, j, j);
      Put7Reads(v, 4 + i, h2, 4 + j, j);
    }
    UnpackIs(WithH2(v, i, h2), rs);
  }

  /** Setting a priority replaces the two counters of one slot. */
  lemma SetPrioRefines(v: bv64, i: nat, p: bv64)
    requires i < 4
    ensures Unpack(WithPrio(v, i, p)) ==
            Unpack(v)[i := Unpack(v)[i].(freq := FreqOf(p & 0x7F), rec := RecOf(p & 0x7F))]
  {
    hide Unpack, Get2, Get7, Put7, FromBits, Shift2, Shift7, FreqOf, RecOf;
    var rs := Unpack(v)[i := Unpack(v)[i].(freq := FreqOf(p & 0x7F), rec := RecOf(p & 0x7F))];
    forall j | 0 <= j < 4 ensures RecAt(WithPrio(v, i, p), j) == rs[j] {
      UnpackAt(v, j);
      Put7Reads(v, i, p, j, j);
      Put7Reads(v, i, p, 4 + j, j);
    }
    UnpackIs(WithPrio(v, i, p), rs);
  }

  lemma OnInsertRefines(v: bv64, i: nat)
    requires i < 4
    ensures Unpack(OnInsert(v, i)) == Unpack(v)[i := Unpack(v)[i].(freq := 0, rec := 1)]
  {
    hide Unpack, WithPrio;
    SetPrioRefines(v, i, 0x01);
  }

  /** The setters, record by record. */
  lemma WithStateRecs(v: bv64, i: nat, s: SlotState)
    requires i < 4
    ensures forall j: nat :: j < 4 ==>
              RecAt(WithState(v, i, s), j) == if j == i then RecAt(v, j).(state := s) else RecAt(v, j)
  {
    hide Unpack, RecAt, WithState;
    SetStateRefines(v, i, s);
    forall j: nat | j < 4 ensures Unpack(v)[j] == RecAt(v, j) && Unpack(WithState(v, i, s))[j] == RecAt(WithState(v, i, s), j) {
      UnpackAt(v, j);
      UnpackAt(WithState(v, i, s), j);
    }
  }

  lemma WithH2Recs(v: bv64, i: nat, h2: bv64)
    requires i < 4
    ensures forall j: nat :: j < 4 ==>
              RecAt(WithH2(v, i, h2), j) == if j == i then RecAt(v, j).(h2 := h2 & 0x7F) else RecAt(v, j)
  {
    hide Unpack, RecAt, WithH2;
    SetH2Refines(v, i, h2);
    forall j: nat | j < 4 ensures Unpack(v)[j] == RecAt(v, j) && Unpack(WithH2(v, i, h2))[j] == RecAt(WithH2(v, i, h2), j) {
      UnpackAt(v, j);
      UnpackAt(WithH2(v, i, h2), j);
    }
  }

  lemma OnInsertRecs(v: bv64, i: nat)
    requires i < 4
    ensures forall j: nat :: j < 4 ==>
              RecAt(OnInsert(v, i), j) == if j == i then RecAt(v, j).(freq := 0, rec := 1) else RecAt(v, j)
  {
    hide Unpack, RecAt, OnInsert;
    OnInsertRefines(v, i);
    forall j: nat | j < 4 ensures Unpack(v)[j] == RecAt(v, j) && Unpack(OnInsert(v, i))[j] == RecAt(OnInsert(v, i), j) {
      UnpackAt(v, j);
      UnpackAt(OnInsert(v, i), j);
    }
  }

  // ---------------------------------------------------------------------
  // on_access
  // ---------------------------------------------------------------------

  /** One iteration of the decay loop. */
  function DecayOne(v: bv64, slot: nat, i: nat): bv64
    requires i < 4
  {
    if i != slot && State(v, i) == Full && (Prio(v, i) & 0x07) > 0 then
      WithPrio(v, i, (Prio(v, i) & 0x78) | ((Prio(v, i) & 0x07) - 1))
    else v
  }

  function BoostedPrio(p: bv64): bv64 {
    var freq := (p >> 3) & 0x0F;
    ((if freq < 15 then freq + 1 else 15) << 3) | 0x07
  }

  /** The word `on_access` computes from the word it loaded. */
  function OnAccess(v: bv64, slot: nat): bv64
    requires slot < 4
  {
    DecayTo(WithPrio(v, slot, BoostedPrio(Prio(v, slot))), slot, 4)
  }

  function DecayTo(v: bv64, slot: nat, n: nat): bv64
    requires n <= 4
  {
    if n == 0 then v else DecayOne(DecayTo(v, slot, n - 1), slot, n - 1)
  }

  /** What an access means for the records: boost the slot, age every other occupied slot. */
  function Touched(rs: seq<Rec>, slot: nat): (out: seq<Rec>)
    requires |rs| == 4
    ensures |out| == 4
  {
    seq(4, i requires 0 <= i < 4 => TouchedRec(rs[i], i == slot))
  }

  function TouchedRec(r: Rec, hit: bool): Rec {
    if hit then r.(freq := if r.freq < 15 then r.freq + 1 else 15, rec := 7)
    else if r.state == Full && r.rec > 0 then r.(rec := r.rec - 1)
    else r
  }

  lemma BoostMeaning(p: bv64)
    ensures var q := BoostedPrio(p) & 0x7F;
            FreqOf(q) == (if FreqOf(p) < 15 then FreqOf(p) + 1 else 15) && RecOf(q) == 7
  {}

  lemma DecayMeaning(p: bv64)
    requires p <= 0x7F
    ensures (p & 0x07) > 0 ==>
              var q := ((p & 0x78) | ((p & 0x07) - 1)) & 0x7F; FreqOf(q) == FreqOf(p) && RecOf(q) == RecOf(p) - 1
    ensures (p & 0x07) > 0 <==> RecOf(p) > 0
  {}

  lemma PrioSmall(v: bv64, i: nat)
    requires i < 4
    ensures Prio(v, i) <= 0x7F && H2(v, i) <= 0x7F
  {}

  lemma DecayOneRefines(v: bv64, slot: nat, i: nat)
    requires i < 4 && slot < 4
    ensures Unpack(DecayOne(v, slot, i)) ==
            Unpack(v)[i := if i == slot then Unpack(v)[i] else TouchedRec(Unpack(v)[i], false)]
  {
    hide Unpack, State, H2, Prio, WithPrio, FreqOf, RecOf;
    PrioSmall(v, i);
    UnpackAt(v, i);
    DecayMeaning(Prio(v, i));
    SetPrioRefines(v, i, (Prio(v, i) & 0x78) | ((Prio(v, i) & 0x07) - 1));
  }

  lemma {:induction false} DecayToRefines(v: bv64, slot: nat, n: nat)
    requires slot < 4 && n <= 4
    ensures forall i :: 0 <= i < 4 ==>
              Unpack(DecayTo(v, slot, n))[i] ==
              if i < n && i != slot then TouchedRec(Unpack(v)[i], false) else Unpack(v)[i]
    decreases n
  {
    hide Unpack, DecayOne;
    if n > 0 {
      DecayToRefines(v, slot, n - 1);
      DecayOneRefines(DecayTo(v, slot, n - 1), slot, n - 1);
    }
  }

  /** The packed `on_access` does exactly what the records say. */
  lemma OnAccessRefines(v: bv64, slot: nat)
    requires slot < 4
    ensures Unpack(OnAccess(v, slot)) == Touched(Unpack(v), slot)
  {
    hide Unpack, State, H2, Prio, WithPrio, FreqOf, RecOf, BoostedPrio;
    var p := BoostedPrio(Prio(v, slot));
    UnpackAt(v, slot);
    BoostMeaning(Prio(v, slot));
    SetPrioRefines(v, slot, p);
    DecayToRefines(WithPrio(v, slot, p), slot, 4);
  }

  lemma OnAccessRecs(v: bv64, slot: nat)
    requires slot < 4
    ensures forall j: nat :: j < 4 ==> RecAt(OnAccess(v, slot), j) == TouchedRec(RecAt(v, j), j == slot)
  {
    hide Unpack, RecAt, OnAccess, TouchedRec;
    OnAccessRefines(v, slot);
    forall j: nat | j < 4 ensures Unpack(v)[j] == RecAt(v, j) && Unpack(OnAccess(v, slot))[j] == RecAt(OnAccess(v, slot), j) {
      UnpackAt(v, j);
      UnpackAt(OnAccess(v, slot), j);
    }
  }

  /** The body of the compare-exchange loop, as the program iterates it. */
  method ComputeOnAccess(v: bv64, slot: nat) returns (w: bv64)
    requires slot < 4
    ensures w == OnAccess(v, slot) && Unpack(w) == Touched(Unpack(v), slot)
  {
    hide Unpack, State, Prio, WithPrio, BoostedPrio;
    w := WithPrio(v, slot, BoostedPrio(Prio(v, slot)));
    ghost var b := w;
    for i := 0 to 4
      invariant w == DecayTo(b, slot, i)
    {
      if i != slot {
        if State(w, i) == Full {
          var p := Prio(w, i);
          var r := p & 0x07;
          if r > 0 {
            w := WithPrio(w, i, (p & 0x78) | (r - 1));
          }
        }
      }
    }
    OnAccessRefines(v, slot);
  }

  // ---------------------------------------------------------------------
  // Scans
  // ---------------------------------------------------------------------

  /** First slot that is not Full. */
  method FindFreeSlot(v: bv64) returns (r: Option<nat>)
    ensures r.Some? ==> r.value < 4 && Unpack(v)[r.value].state != Full &&
                        forall j :: 0 <= j < r.value ==> Unpack(v)[j].state == Full
    ensures r.None? ==> forall j :: 0 <= j < 4 ==> Unpack(v)[j].state == Full
  {
    hide State, H2, Prio, FreqOf, RecOf;
    for i := 0 to 4
      invariant forall j :: 0 <= j < i ==> Unpack(v)[j].state == Full
    {
      if State(v, i) != Full { return Some(i); }
    }
    return None;
  }

  lemma PrioOrder(p: bv64, q: bv64)
    requires p <= 0x7F && q <= 0x7F
    ensures p < q <==> 8 * FreqOf(p) + RecOf(p) < 8 * FreqOf(q) + RecOf(q)
  {}

  /** The occupied slot of least priority, the first one on ties. */
  ghost predicate IsVictim(rs: seq<Rec>, i: nat)
    requires |rs| == 4
  {
    && i < 4 && rs[i].state == Full
    && (forall j :: 0 <= j < 4 && rs[j].state == Full ==> rs[i].Priority() <= rs[j].Priority())
    && (forall j :: 0 <= j < i && rs[j].state == Full ==> rs[i].Priority() < rs[j].Priority())
  }

  lemma PriorityOrder(v: bv64, i: nat, j: nat)
    requires i < 4 && j < 4
    ensures Prio(v, i) < Prio(v, j) <==> Unpack(v)[i].Priority() < Unpack(v)[j].Priority()
  {
    hide Unpack, State, H2, Prio, FreqOf, RecOf;
    UnpackAt(v, i);
    UnpackAt(v, j);
    PrioSmall(v, i);
    PrioSmall(v, j);
    PrioOrder(Prio(v, i), Prio(v, j));
  }

  method FindEvictTarget(v: bv64) returns (r: Option<nat>)
    ensures r.Some? ==> IsVictim(Unpack(v), r.value)
    ensures r.None? ==> forall j :: 0 <= j < 4 ==> Unpack(v)[j].state != Full
  {
    hide H2, Prio, FreqOf, RecOf, State;
    var minPrio: bv64 := 0xFF;
    r := None;
    ghost var rs := Unpack(v);
    for i := 0 to 4
      invariant r.None? ==> forall j :: 0 <= j < i ==> rs[j].state != Full
      invariant r.Some? ==> r.value < i && rs[r.value].state == Full && minPrio == Prio(v, r.value)
      invariant r.Some? ==> forall j :: 0 <= j < i && rs[j].state == Full ==>
                  rs[r.value].Priority() <= rs[j].Priority() &&
                  (j < r.value ==> rs[r.value].Priority() < rs[j].Priority())
    {
      if State(v, i) == Full {
        var p := Prio(v, i);
        if r.Some? { PriorityOrder(v, i, r.value); }
        if r.None? || p < minPrio {
          minPrio := p;
          r := Some(i);
        }
      }
    }
  }

  // ---------------------------------------------------------------------
  // Fingerprint match masks, scalar and SSE2, and the scan over their bits
  // ---------------------------------------------------------------------

  function Flag(b: bool): bv64 { if b then 1 else 0 }

  function FullBits(v: bv64, i: nat): bool
    requires i < 4
  {
    Get2(v, i) == 1
  }

  /** Four one-bit results side by side. */
  function Nibble(a: bool, b: bool, c: bool, d: bool): bv64 {
    Flag(a) | (Flag(b) << 1) | (Flag(c) << 2) | (Flag(d) << 3)
  }

  function Low7(x: bv64): bv64 { x & 0x7F }

  /** `match_mask_branchless_raw`. */
  function ScalarMask(v: bv64, h2: bv64): bv64 {
    var h := Low7(h2);
    Nibble(FullBits(v, 0) && H2(v, 0) == h, FullBits(v, 1) && H2(v, 1) == h,
           FullBits(v, 2) && H2(v, 2) == h, FullBits(v, 3) && H2(v, 3) == h)
  }

  /** Sixteen byte lanes, lane 0 first. */
  type Lanes = s: seq<bv64> | |s| == 16 witness seq(16, i => 0)

  function CmpEq(a: Lanes, b: Lanes): Lanes {
    seq(16, i requires 0 <= i < 16 => if a[i] == b[i] then 0xFF else 0)
  }

  /** Bit i of the result is the top bit of lane i. */
  function MoveMask(a: Lanes, n: nat): bv64
    requires n <= 16
  {
    if n == 0 then 0 else MoveMask(a, n - 1) | (((a[n - 1] >> 7) & 1) << (n - 1))
  }

  /** The comparison's low four bits, masked by the occupied slots. */
  function LowFour(cmp: bv64, full: bv64): bv64 { LowNibble(cmp) & full }

  function LowNibble(m: bv64): bv64 { m & 0x0F }

  /** `match_mask_simd`: compare all lanes at once, keep the low four, mask by state. */
  function SimdMask(v: bv64, h2: bv64): bv64 {
    LowFour(MoveMask(CmpEq(H2Lanes(v), Splat(Low7(h2))), 16), FullMask(v))
  }

  function H2Lanes(v: bv64): Lanes {
    [H2(v, 0), H2(v, 1), H2(v, 2), H2(v, 3), 0, 0, 0, 0, 0, 0, 0, 0, 0, 0, 0, 0]
  }

  function Splat(x: bv64): Lanes {
    seq(16, i => x)
  }

  function FullMask(v: bv64): bv64 {
    Nibble(FullBits(v, 0), FullBits(v, 1), FullBits(v, 2), FullBits(v, 3))
  }

  /** The slots a mask names. */
  function MaskSlots(m: bv64): set<nat> {
    set i: nat | i < 4 && Bit(m, i)
  }

  predicate Bit(m: bv64, i: nat)
    requires i < 4
  {
    (m >> i) & 1 == 1
  }

  function Candidates(v: bv64, h2: bv64): set<nat> {
    set i: nat | i < 4 && Unpack(v)[i].state == Full && Unpack(v)[i].h2 == Low7(h2)
  }

  lemma FullBitsIsFull(v: bv64, i: nat)
    requires i < 4
    ensures FullBits(v, i) <==> State(v, i) == Full
  {}

  /** Four flags packed into a nibble come back bit by bit. */
  lemma NibbleBits(a: bool, b: bool, c: bool, d: bool, m: bv64)
    requires m == Nibble(a, b, c, d)
    ensures Bit(m, 0) == a && Bit(m, 1) == b && Bit(m, 2) == c && Bit(m, 3) == d && m <= 0x0F
  {}

  /** What both masks test of slot `i`. */
  predicate Hit(v: bv64, h: bv64, i: nat)
    requires i < 4
  {
    FullBits(v, i) && H2(v, i) == h
  }

  lemma HitMeans(v: bv64, h: bv64, i: nat)
    requires i < 4
    ensures Hit(v, h, i) <==> Unpack(v)[i].state == Full && Unpack(v)[i].h2 == h
  {
    hide Unpack, FullBits, State, H2, FreqOf, RecOf, Prio;
    FullBitsIsFull(v, i);
    UnpackAt(v, i);
  }

  /** The scalar mask names exactly the occupied slots with this fingerprint. */
  lemma ScalarMaskIsCandidates(v: bv64, h2: bv64)
    ensures MaskSlots(ScalarMask(v, h2)) == Candidates(v, h2) && ScalarMask(v, h2) <= 0x0F
  {
    hide Unpack, FullBits, State, H2, Bit, FreqOf, RecOf, Prio, Low7, Flag, Nibble;
    var h := Low7(h2);
    var m := ScalarMask(v, h2);
    NibbleBits(Hit(v, h, 0), Hit(v, h, 1), Hit(v, h, 2), Hit(v, h, 3), m);
    forall i: nat | i < 4 ensures i in MaskSlots(m) <==> i in Candidates(v, h2) {
      HitMeans(v, h, i);
    }
  }

  function Lane(b: bool): bv64 { if b then 0xFF else 0 }

  /** The low nibble of a byte-lane comparison mask. */
  lemma MoveMaskNibble(a: Lanes, b0: bool, b1: bool, b2: bool, b3: bool)
    requires a[0] == Lane(b0) && a[1] == Lane(b1) && a[2] == Lane(b2) && a[3] == Lane(b3)
    ensures LowNibble(MoveMask(a, 16)) == Nibble(b0, b1, b2, b3)
  {
    MoveMaskLow(a, 16);
    assert MoveMask(a, 1) == (a[0] >> 7) & 1;
    assert MoveMask(a, 2) == MoveMask(a, 1) | (((a[1] >> 7) & 1) << 1);
    assert MoveMask(a, 3) == MoveMask(a, 2) | (((a[2] >> 7) & 1) << 2);
    assert MoveMask(a, 4) == MoveMask(a, 3) | (((a[3] >> 7) & 1) << 3);
  }

  lemma {:induction false} MoveMaskLow(a: Lanes, n: nat)
    requires 4 <= n <= 16
    ensures MoveMask(a, n) & 0x0F == MoveMask(a, 4) & 0x0F
    decreases n
  {
    if n > 4 {
      MoveMaskLow(a, n - 1);
      HighBit(((a[n - 1] >> 7) & 1), n - 1);
    }
  }

  lemma HighBit(b: bv64, n: nat)
    requires 4 <= n < 16
    ensures (b << n) & 0x0F == 0
  {}

  lemma NibbleAnd(m: bv64, a: bool, b: bool, c: bool, d: bool, a': bool, b': bool, c': bool, d': bool)
    requires LowNibble(m) == Nibble(a, b, c, d)
    ensures LowFour(m, Nibble(a', b', c', d'))
            == Nibble(a' && a, b' && b, c' && c, d' && d)
  {}

  lemma LanesCompare(v: bv64, h: bv64)
    ensures var c := CmpEq(H2Lanes(v), Splat(h));
            && c[0] == Lane(H2(v, 0) == h) && c[1] == Lane(H2(v, 1) == h)
            && c[2] == Lane(H2(v, 2) == h) && c[3] == Lane(H2(v, 3) == h)
  {
    hide H2;
  }

  /** The SSE2 mask and the scalar mask are the same mask. */
  lemma SimdEqualsScalar(v: bv64, h2: bv64)
    ensures SimdMask(v, h2) == ScalarMask(v, h2)
  {
    hide H2, FullBits, Flag, Nibble, LowFour, LowNibble, Low7, MoveMask, H2Lanes, Splat, CmpEq, Lane;
    var h := Low7(h2);
    var c := CmpEq(H2Lanes(v), Splat(h));
    LanesCompare(v, h);
    MoveMaskNibble(c, H2(v, 0) == h, H2(v, 1) == h, H2(v, 2) == h, H2(v, 3) == h);
    NibbleAnd(MoveMask(c, 16), H2(v, 0) == h, H2(v, 1) == h, H2(v, 2) == h, H2(v, 3) == h,
              FullBits(v, 0), FullBits(v, 1), FullBits(v, 2), FullBits(v, 3));
  }

  // ---------------------------------------------------------------------
  // `m &= m - 1` with `trailing_zeros`
  // ---------------------------------------------------------------------

  /** `trailing_zeros` of a non-zero nibble. */
  function LowestBit(m: bv64): (i: nat)
    requires 0 < m <= 0x0F
    ensures i < 4
  {
    if m & 1 == 1 then 0 else if m & 2 == 2 then 1 else if m & 4 == 4 then 2 else 3
  }

  /** Clearing the lowest set bit removes exactly the slot `trailing_zeros` names, which is the least one. */
  lemma ClearLowest(m: bv64)
    requires 0 < m <= 0x0F
    ensures var i := LowestBit(m); var m' := m & (m - 1);
            && m' < m && m' <= 0x0F && Bit(m, i) && !Bit(m', i)
            && (forall j: nat :: j < 4 && j != i ==> Bit(m', j) == Bit(m, j))
            && (forall j: nat :: j < i ==> !Bit(m, j))
  {
    var m' := m & (m - 1);
    var i := LowestBit(m);
    assert Bit(m', 0) == (i != 0 && Bit(m, 0));
    assert Bit(m', 1) == (i != 1 && Bit(m, 1));
    assert Bit(m', 2) == (i != 2 && Bit(m, 2));
    assert Bit(m', 3) == (i != 3 && Bit(m, 3));
  }

  /** Walking a mask visits its slots once each, in ascending order. */
  method Walk(mask: bv64) returns (visited: seq<nat>)
    requires mask <= 0x0F
    ensures forall a, b :: 0 <= a < b < |visited| ==> visited[a] < visited[b]
    ensures forall i: nat :: i in visited <==> i in MaskSlots(mask)
  {
    hide Bit;
    visited := [];
    var m := mask;
    while m != 0
      invariant m <= 0x0F
      invariant forall a, b :: 0 <= a < b < |visited| ==> visited[a] < visited[b]
      invariant forall i: nat :: i in visited ==> i < 4 && Bit(mask, i) && !Bit(m, i)
      invariant forall i: nat :: i < 4 && Bit(m, i) ==> Bit(mask, i)
      invariant forall i: nat :: i < 4 && Bit(mask, i) && !Bit(m, i) ==> i in visited
      invariant forall a: nat, j: nat :: a < |visited| && j < 4 && Bit(m, j) ==> visited[a] < j
      decreases m
    {
      var i := LowestBit(m);
      ClearLowest(m);
      visited := visited + [i];
      m := m & (m - 1);
    }
    ZeroHasNoBits();
  }

  lemma ZeroHasNoBits()
    ensures forall i: nat :: i < 4 ==> !Bit(0, i)
  {}
}
