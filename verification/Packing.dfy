/** How deals and fillers are laid out in a sector. */
module Packing {
  import opened Options
  import opened PowersOfTwo
  import opened SectorFsm

  // ---------- padded and unpadded sizes ----------

  function Padded(u: nat): nat { u + u / 127 }

  function Unpadded(s: nat): nat { s - s / 128 }

  lemma UnpaddedRoundTrip(s: nat)
    requires Multiple(s, 128)
    ensures Padded(Unpadded(s)) == s && Unpadded(s) == s / 128 * 127
  {
    MultipleMod(s, 128);
  }

  lemma UnpaddedSum(a: nat, b: nat)
    requires Multiple(a, 128) && Multiple(b, 128)
    ensures Unpadded(a + b) == Unpadded(a) + Unpadded(b)
  {
    MultipleMod(a, 128);
    MultipleMod(b, 128);
  }

  // ---------- layouts ----------

  /** A size a piece may have. */
  predicate PieceSize(s: nat) { IsPow2(s) && s >= 128 }

  predicate PieceSizes(s: seq<nat>) { forall i :: 0 <= i < |s| ==> PieceSize(s[i]) }

  lemma PieceSizeMultiple(s: nat)
    requires PieceSize(s)
    ensures Multiple(s, 128)
  {
    assert IsPow2(128);
    Pow2Divides(128, s);
  }

  function Sizes(pieces: seq<Piece>): (s: seq<nat>)
    ensures |s| == |pieces| && forall i :: 0 <= i < |s| ==> s[i] == pieces[i].size
  {
    seq(|pieces|, i requires 0 <= i < |pieces| => pieces[i].size)
  }

  lemma SizesAppend(a: seq<Piece>, b: seq<Piece>)
    ensures Sizes(a + b) == Sizes(a) + Sizes(b)
  {
  }

  function Space(pieces: seq<Piece>): nat { Sum(Sizes(pieces)) }

  /** Pieces of proper sizes, each starting at a multiple of its size, that fit in the sector. */
  ghost predicate LayoutOk(pieces: seq<Piece>, ssize: nat) {
    && (forall i :: 0 <= i < |pieces| ==> PieceSize(pieces[i].size))
    && Aligned(0, Sizes(pieces))
    && Space(pieces) <= ssize
  }

  ghost predicate SectorSize(ssize: nat) { PieceSize(ssize) && ssize < WORD }

  lemma {:induction false} SumMultiple(s: seq<nat>)
    requires forall i :: 0 <= i < |s| ==> PieceSize(s[i])
    ensures Multiple(Sum(s), 128)
    decreases |s|
  {
    if s == [] {
      MultipleOf(0, 128);
    } else {
      PieceSizeMultiple(s[0]);
      SumMultiple(s[1..]);
      MultipleSum(s[0], Sum(s[1..]), 128);
    }
  }

  /** The unpadded sizes of the pieces, added up one by one. */
  method UnpaddedTotal(pieces: seq<Piece>) returns (total: nat)
    requires forall i :: 0 <= i < |pieces| ==> PieceSize(pieces[i].size)
    ensures total == Unpadded(Space(pieces)) && Padded(total) == Space(pieces)
  {
    total := 0;
    for i := 0 to |pieces|
      invariant total == Unpadded(Space(pieces[..i]))
    {
      assert pieces[..i + 1] == pieces[..i] + [pieces[i]];
      SizesAppend(pieces[..i], [pieces[i]]);
      SumAppend(Sizes(pieces[..i]), Sizes([pieces[i]]));
      assert Sizes([pieces[i]]) == [pieces[i].size];
      SumMultiple(Sizes(pieces[..i]));
      PieceSizeMultiple(pieces[i].size);
      UnpaddedSum(Space(pieces[..i]), pieces[i].size);
      total := total + Unpadded(pieces[i].size);
    }
    assert pieces[..|pieces|] == pieces;
    SumMultiple(Sizes(pieces));
    UnpaddedRoundTrip(Space(pieces));
  }

  function FillerPieces(sizes: seq<nat>): (f: seq<Piece>)
    ensures Sizes(f) == sizes
  {
    var f := seq(|sizes|, i requires 0 <= i < |sizes| => Piece(sizes[i], None));
    assert Sizes(f) == sizes;
    f
  }

  // ---------- padding before a piece ----------

  /** Negation in machine words. */
  function Negated(n: nat): (r: nat)
    ensures n < WORD ==> n + r == 0 || n + r == WORD
  {
    (WORD - n % WORD) % WORD
  }

  /** The negated length modulo the size of the new piece. */
  function ToFill(oldLength: nat, newLength: nat): nat
    requires newLength > 0
  {
    Negated(oldLength) % newLength
  }

  lemma DropRemainder(x: nat, p: nat)
    requires p > 0
    ensures Multiple(x - x % p, p) && x % p < p
  {
    assert x - x % p == x / p * p;
  }

  /** For a power of two the padding leads to the next multiple, and is shorter than the piece. */
  lemma ToFillAligns(oldLength: nat, newLength: nat)
    requires oldLength < WORD && IsPow2(newLength) && newLength < WORD
    ensures Multiple(oldLength + ToFill(oldLength, newLength), newLength) && ToFill(oldLength, newLength) < newLength
  {
    var x := Negated(oldLength);
    WordIsPow2();
    Pow2Divides(newLength, WORD);
    MultipleOf(0, newLength);
    DropRemainder(x, newLength);
    MultipleSum(oldLength + x, x - x % newLength, newLength);
  }

  /** The padding pieces and their total length. */
  method GetRequiredPadding(oldLength: nat, newLength: nat) returns (pads: seq<nat>, length: nat)
    requires newLength > 0
    ensures pads == Bits(ToFill(oldLength, newLength)) && length == Sum(pads)
  {
    pads, length := SplitBits(ToFill(oldLength, newLength));
  }

  /** Take the lowest bit away until none is left. */
  method SplitBits(all: nat) returns (pads: seq<nat>, length: nat)
    ensures pads == Bits(all) && length == Sum(pads)
  {
    var toFill := all;
    ghost var bits := Bits(all);
    BitsCount(all);
    pads, length := [], 0;
    for i := 0 to Ones(all)
      invariant Bits(toFill) == bits[i..] && pads == bits[..i]
      invariant length == Sum(pads)
    {
      var psize := LowBit(toFill);
      assert bits[i..][0] == psize && bits[i..][1..] == bits[i + 1..];
      SumAppend(pads, [psize]);
      toFill := toFill - psize;
      pads := pads + [psize];
      length := length + psize;
    }
  }

  // ---------- fillers ----------

  /** The pieces that fill the rest of a sector, given and returned in unpadded sizes. */
  method FillersFromRem(rem: nat) returns (out: array<nat>)
    ensures fresh(out)
    ensures out.Length == |Bits(Padded(rem))|
    ensures forall i :: 0 <= i < out.Length ==> out[i] == Unpadded(Bits(Padded(rem))[i])
  {
    var toFill := Padded(rem);
    ghost var bits := Bits(toFill);
    BitsCount(toFill);
    out := new nat[Ones(toFill)];
    for i := 0 to out.Length
      invariant Bits(toFill) == bits[i..]
      invariant forall j :: 0 <= j < i ==> out[j] == Unpadded(bits[j])
    {
      var psize := LowBit(toFill);
      assert bits[i..][0] == psize && bits[i..][1..] == bits[i + 1..];
      toFill := toFill - psize;
      out[i] := Unpadded(psize);
    }
  }

  /** What packing makes of a sector; None if it holds too much already. */
  function Pack(pieces: seq<Piece>, ssize: nat): Option<seq<Piece>> {
    if Space(pieces) > ssize then None else Some(pieces + FillerPieces(Bits(ssize - Space(pieces))))
  }

  lemma PackAligned(pieces: seq<Piece>, ssize: nat)
    requires SectorSize(ssize) && LayoutOk(pieces, ssize)
    ensures Pack(pieces, ssize).Some? && LayoutOk(Pack(pieces, ssize).value, ssize)
    ensures Space(Pack(pieces, ssize).value) == ssize
  {
    var rem := ssize - Space(pieces);
    var fillers := FillerPieces(Bits(rem));
    SizesAppend(pieces, fillers);
    SumAppend(Sizes(pieces), Sizes(fillers));
    MultipleOf(1, ssize);
    BitsAligned(Space(pieces), rem, ssize);
    AlignedAppend(0, Sizes(pieces), Sizes(fillers));
    SumMultiple(Sizes(pieces));
    PieceSizeMultiple(ssize);
    MultipleSum(ssize, Space(pieces), 128);
    assert IsPow2(128);
    BitsMultiple(rem, 128);
    forall i | 0 <= i < |pieces + fillers| ensures PieceSize((pieces + fillers)[i].size) {
      if i >= |pieces| { assert fillers[i - |pieces|].size == Sizes(fillers)[i - |pieces|]; }
    }
  }

  /** A packed sector is full to the last byte, and no shorter list of fillers would have filled it. */
  lemma PackedSectorIsFull(pieces: seq<Piece>, ssize: nat, other: seq<nat>)
    requires SectorSize(ssize) && LayoutOk(pieces, ssize)
    requires forall i :: 0 <= i < |other| ==> IsPow2(other[i])
    requires Space(pieces) + Sum(other) == ssize
    ensures var packed := Pack(pieces, ssize);
      && packed.Some? && LayoutOk(packed.value, ssize) && Space(packed.value) == ssize
      && packed.value[..|pieces|] == pieces
      && (forall i :: |pieces| <= i < |packed.value| ==> packed.value[i].deal.None?)
      && |packed.value| - |pieces| <= |other|
  {
    PackAligned(pieces, ssize);
    BitsShortest(other);
  }

  // ---------- adding deals ----------

  /** A deal on its way into a sector, with its padded size. */
  datatype Deal = Deal(id: nat, size: Positive)

  type Positive = n: nat | n > 0 witness 1

  predicate DealOk(d: Deal) { d.size >= 128 && IsPow2(d.size) && d.size < WORD }

  ghost predicate DealsOk(pending: seq<Deal>) { forall i :: 0 <= i < |pending| ==> DealOk(pending[i]) }

  /** What the client of a deal is told: the unpadded offset, and whether the deal was taken. */
  datatype Reply = Reply(offset: nat, accepted: bool)

  datatype Placed = Placed(pieces: seq<Piece>, replies: seq<Reply>)

  /** A deal with the padding before it. */
  function DealPieces(pad: nat, d: Deal): seq<Piece> { FillerPieces(Bits(pad)) + [Piece(d.size, Some(d.id))] }

  lemma PadThenDeal(pieces: seq<Piece>, pad: nat, d: Deal)
    ensures pieces + DealPieces(pad, d) == pieces + FillerPieces(Bits(pad)) + [Piece(d.size, Some(d.id))]
  {
  }

  /** Where a deal goes: padding up to a multiple of its size, then the deal, if there is room. */
  function PlaceDeal(p: Placed, d: Deal, tooMany: bool, ssize: nat): Placed {
    var at := Space(p.pieces);
    var pad := ToFill(at, d.size);
    if tooMany || at + pad + d.size > ssize then p.(replies := p.replies + [Reply(Unpadded(at), false)])
    else Placed(p.pieces + DealPieces(pad, d), p.replies + [Reply(Unpadded(at + pad), true)])
  }

  lemma PlaceDealKeeps(p: Placed, d: Deal, tooMany: bool, ssize: nat)
    requires SectorSize(ssize) && LayoutOk(p.pieces, ssize) && DealOk(d)
    ensures LayoutOk(PlaceDeal(p, d, tooMany, ssize).pieces, ssize)
  {
    var at := Space(p.pieces);
    var size := d.size;
    var pad := ToFill(at, size);
    if !tooMany && at + pad + size <= ssize {
      ToFillAligns(at, size);
      PadKeeps(p.pieces, pad, size, ssize);
      DealKeeps(p.pieces + FillerPieces(Bits(pad)), Piece(size, Some(d.id)), ssize);
      PadThenDeal(p.pieces, pad, d);
    }
  }

  lemma PadKeeps(pieces: seq<Piece>, pad: nat, size: nat, ssize: nat)
    requires LayoutOk(pieces, ssize) && PieceSize(size) && pad < size && Multiple(Space(pieces) + pad, size)
    requires Space(pieces) + pad <= ssize
    ensures LayoutOk(pieces + FillerPieces(Bits(pad)), ssize)
    ensures Space(pieces + FillerPieces(Bits(pad))) == Space(pieces) + pad
  {
    var fillers := FillerPieces(Bits(pad));
    SizesAppend(pieces, fillers);
    SumAppend(Sizes(pieces), Sizes(fillers));
    BitsAligned(Space(pieces), pad, size);
    AlignedAppend(0, Sizes(pieces), Sizes(fillers));
    SumMultiple(Sizes(pieces));
    PieceSizeMultiple(size);
    MultipleTrans(Space(pieces) + pad, size, 128);
    MultipleSum(Space(pieces) + pad, Space(pieces), 128);
    assert IsPow2(128);
    BitsMultiple(pad, 128);
    forall i | 0 <= i < |pieces + fillers| ensures PieceSize((pieces + fillers)[i].size) {
      if i >= |pieces| { assert fillers[i - |pieces|].size == Sizes(fillers)[i - |pieces|]; }
    }
  }

  lemma DealKeeps(pieces: seq<Piece>, piece: Piece, ssize: nat)
    requires LayoutOk(pieces, ssize) && PieceSize(piece.size) && Multiple(Space(pieces), piece.size)
    requires Space(pieces) + piece.size <= ssize
    ensures LayoutOk(pieces + [piece], ssize) && Space(pieces + [piece]) == Space(pieces) + piece.size
  {
    SizesAppend(pieces, [piece]);
    assert Sizes([piece]) == [piece.size];
    SumAppend(Sizes(pieces), [piece.size]);
    AlignedAppend(0, Sizes(pieces), [piece.size]);
  }

  /**
   The sector before, between and after its pending deals; deal i is one too many if the sector would then hold more
   than maxDeals.
   */
  ghost predicate Steps(states: seq<Placed>, deals: nat, pending: seq<Deal>, maxDeals: nat, ssize: nat) {
    && |states| == |pending| + 1
    && states[0].replies == []
    && forall i :: 0 <= i < |pending| ==>
      states[i + 1] == PlaceDeal(states[i], pending[i], deals + i + 1 > maxDeals, ssize)
  }

  lemma PlaceDealAppends(p: Placed, d: Deal, tooMany: bool, ssize: nat)
    ensures var q := PlaceDeal(p, d, tooMany, ssize);
      p.pieces <= q.pieces && p.replies <= q.replies && |q.replies| == |p.replies| + 1
  {
  }

  lemma {:induction false} StepsAppend(states: seq<Placed>, deals: nat, pending: seq<Deal>, maxDeals: nat, ssize: nat,
                                       i: nat, k: nat)
    requires Steps(states, deals, pending, maxDeals, ssize) && i <= k <= |pending|
    ensures states[i].pieces <= states[k].pieces && states[i].replies <= states[k].replies && |states[k].replies| == k
    decreases k
  {
    if k > 0 {
      PlaceDealAppends(states[k - 1], pending[k - 1], deals + k > maxDeals, ssize);
      StepsAppend(states, deals, pending, maxDeals, ssize, if i < k then i else k - 1, k - 1);
    }
  }

  /** Adding deals keeps the layout proper. */
  lemma {:induction false} StepsKeep(states: seq<Placed>, deals: nat, pending: seq<Deal>, maxDeals: nat, ssize: nat,
                                     k: nat)
    requires Steps(states, deals, pending, maxDeals, ssize) && k <= |pending|
    requires SectorSize(ssize) && LayoutOk(states[0].pieces, ssize) && DealsOk(pending)
    ensures LayoutOk(states[k].pieces, ssize)
    decreases k
  {
    if k > 0 {
      StepsKeep(states, deals, pending, maxDeals, ssize, k - 1);
      PlaceDealKeeps(states[k - 1], pending[k - 1], deals + k > maxDeals, ssize);
    }
  }

  /** The deal was placed at the offset its client was told. */
  ghost predicate PlacedAt(pieces: seq<Piece>, j: nat, d: Deal, r: Reply) {
    && j < |pieces|
    && pieces[j] == Piece(d.size, Some(d.id))
    && r.offset == Unpadded(Space(pieces[..j])) && Padded(r.offset) == Space(pieces[..j])
    && Multiple(Space(pieces[..j]), pieces[j].size)
  }

  lemma PlacedAtExtends(pieces: seq<Piece>, more: seq<Piece>, j: nat, d: Deal, r: Reply)
    requires pieces <= more && PlacedAt(pieces, j, d, r)
    ensures PlacedAt(more, j, d, r)
  {
    assert more[..j] == pieces[..j];
  }

  lemma NewDealPlacedAt(p: Placed, d: Deal, ssize: nat)
    requires SectorSize(ssize) && LayoutOk(p.pieces, ssize) && DealOk(d)
    requires Space(p.pieces) + ToFill(Space(p.pieces), d.size) + d.size <= ssize
    ensures var q := PlaceDeal(p, d, false, ssize); PlacedAt(q.pieces, |q.pieces| - 1, d, q.replies[|q.replies| - 1])
  {
    var at := Space(p.pieces);
    var size := d.size;
    var pad := ToFill(at, size);
    ToFillAligns(at, size);
    PadKeeps(p.pieces, pad, size, ssize);
    var padded := p.pieces + FillerPieces(Bits(pad));
    SumMultiple(Sizes(padded));
    UnpaddedRoundTrip(at + pad);
    var q := PlaceDeal(p, d, false, ssize);
    PadThenDeal(p.pieces, pad, d);
    assert q.pieces[..|q.pieces| - 1] == padded;
  }

  /** Every accepted deal lies in the sector where its client was told, at a multiple of its own size. */
  lemma AcceptedDealsAreThere(states: seq<Placed>, deals: nat, pending: seq<Deal>, maxDeals: nat, ssize: nat, k: nat)
    requires Steps(states, deals, pending, maxDeals, ssize) && k < |pending|
    requires SectorSize(ssize) && LayoutOk(states[0].pieces, ssize) && DealsOk(pending)
    ensures var p := states[|pending|];
      && |p.replies| == |pending|
      && (p.replies[k].accepted ==> exists j: nat :: PlacedAt(p.pieces, j, pending[k], p.replies[k]))
  {
    var p, q := states[|pending|], states[k + 1];
    StepsAppend(states, deals, pending, maxDeals, ssize, k + 1, |pending|);
    StepsAppend(states, deals, pending, maxDeals, ssize, k + 1, k + 1);
    StepsAppend(states, deals, pending, maxDeals, ssize, k, k);
    StepsKeep(states, deals, pending, maxDeals, ssize, k);
    if p.replies[k].accepted {
      NewDealPlacedAt(states[k], pending[k], ssize);
      PlacedAtExtends(q.pieces, p.pieces, |q.pieces| - 1, pending[k], q.replies[k]);
    }
  }

  /** The deals of a list of pieces, in order. */
  function DealIds(pieces: seq<Piece>): seq<nat> {
    if pieces == [] then []
    else if pieces[|pieces| - 1].deal.None? then DealIds(pieces[..|pieces| - 1])
    else DealIds(pieces[..|pieces| - 1]) + [pieces[|pieces| - 1].deal.value]
  }

  function AcceptedIds(pending: seq<Deal>, replies: seq<Reply>): seq<nat>
    requires |pending| == |replies|
  {
    if pending == [] then []
    else
      var n := |pending| - 1;
      var before := AcceptedIds(pending[..n], replies[..n]);
      if replies[n].accepted then before + [pending[n].id] else before
  }

  lemma AcceptedIdsStep(pending: seq<Deal>, replies: seq<Reply>, k: nat)
    requires 0 < k <= |pending| && |replies| == k
    ensures var before := AcceptedIds(pending[..k - 1], replies[..k - 1]);
      AcceptedIds(pending[..k], replies) == if replies[k - 1].accepted then before + [pending[k - 1].id] else before
  {
    assert pending[..k][..k - 1] == pending[..k - 1];
  }

  lemma {:induction false} FillersHoldNoDeals(pieces: seq<Piece>, sizes: seq<nat>)
    ensures DealIds(pieces + FillerPieces(sizes)) == DealIds(pieces)
    decreases |sizes|
  {
    var all := pieces + FillerPieces(sizes);
    if sizes == [] {
      assert all == pieces;
    } else {
      var n := |sizes| - 1;
      assert all[..|all| - 1] == pieces + FillerPieces(sizes[..n]);
      FillersHoldNoDeals(pieces, sizes[..n]);
    }
  }

  /** The sector gains exactly the accepted deals, in the order they were pending. */
  lemma {:induction false} OnlyAcceptedDealsAreThere(states: seq<Placed>, deals: nat, pending: seq<Deal>,
                                                     maxDeals: nat, ssize: nat, k: nat)
    requires Steps(states, deals, pending, maxDeals, ssize) && k <= |pending|
    ensures |states[k].replies| == k
    ensures DealIds(states[k].pieces) == DealIds(states[0].pieces) + AcceptedIds(pending[..k], states[k].replies)
    decreases k
  {
    StepsAppend(states, deals, pending, maxDeals, ssize, k, k);
    if k > 0 {
      OnlyAcceptedDealsAreThere(states, deals, pending, maxDeals, ssize, k - 1);
      StepsAppend(states, deals, pending, maxDeals, ssize, k - 1, k);
      NewDealIds(states[k - 1], pending[k - 1], deals + k > maxDeals, ssize);
      OneMoreId(pending, k, states[0].pieces, states[k - 1], states[k]);
    }
  }

  lemma OneMoreId(pending: seq<Deal>, k: nat, start: seq<Piece>, p: Placed, q: Placed)
    requires 0 < k <= |pending| && |p.replies| == k - 1 && |q.replies| == k && p.replies <= q.replies
    requires DealIds(p.pieces) == DealIds(start) + AcceptedIds(pending[..k - 1], p.replies)
    requires DealIds(q.pieces) ==
      if q.replies[k - 1].accepted then DealIds(p.pieces) + [pending[k - 1].id] else DealIds(p.pieces)
    ensures DealIds(q.pieces) == DealIds(start) + AcceptedIds(pending[..k], q.replies)
  {
    AcceptedIdsStep(pending, q.replies, k);
    assert q.replies[..k - 1] == p.replies;
  }

  lemma NewDealIds(p: Placed, d: Deal, tooMany: bool, ssize: nat)
    ensures var q := PlaceDeal(p, d, tooMany, ssize);
      DealIds(q.pieces) == if q.replies[|q.replies| - 1].accepted then DealIds(p.pieces) + [d.id] else DealIds(p.pieces)
  {
    var q := PlaceDeal(p, d, tooMany, ssize);
    if q.replies[|q.replies| - 1].accepted {
      var pads := Bits(ToFill(Space(p.pieces), d.size));
      FillersHoldNoDeals(p.pieces, pads);
      PadThenDeal(p.pieces, ToFill(Space(p.pieces), d.size), d);
      assert q.pieces[..|q.pieces| - 1] == p.pieces + FillerPieces(pads);
    }
  }

  /** In a proper layout every piece, deal or filler, starts at a multiple of its own padded size. */
  lemma EveryPieceIsAligned(pieces: seq<Piece>, ssize: nat, i: nat)
    requires LayoutOk(pieces, ssize) && i < |pieces|
    ensures pieces[i].size > 0 && Space(pieces[..i]) % pieces[i].size == 0
  {
    AlignedAt(0, Sizes(pieces), i);
    assert Sizes(pieces)[..i] == Sizes(pieces[..i]);
    MultipleMod(Space(pieces[..i]), pieces[i].size);
  }

  /** Deals added in any number, then packing: the sector is exactly full and every piece is aligned. */
  lemma DealsThenPacking(states: seq<Placed>, deals: nat, pending: seq<Deal>, maxDeals: nat, ssize: nat)
    requires Steps(states, deals, pending, maxDeals, ssize)
    requires SectorSize(ssize) && LayoutOk(states[0].pieces, ssize) && DealsOk(pending)
    ensures var packed := Pack(states[|pending|].pieces, ssize);
      && packed.Some? && Space(packed.value) == ssize
      && forall i :: 0 <= i < |packed.value| ==>
        packed.value[i].size > 0 && Space(packed.value[..i]) % packed.value[i].size == 0
  {
    StepsKeep(states, deals, pending, maxDeals, ssize, |pending|);
    PackAligned(states[|pending|].pieces, ssize);
    var packed := Pack(states[|pending|].pieces, ssize).value;
    forall i | 0 <= i < |packed| ensures packed[i].size > 0 && Space(packed[..i]) % packed[i].size == 0 {
      EveryPieceIsAligned(packed, ssize, i);
    }
  }

  // ---------- the handlers ----------

  datatype AddResult = AddFailed(replies: seq<Reply>) | AddDone(newPieces: seq<Piece>, replies: seq<Reply>)

  method AppendFillers(pieces: seq<Piece>, pads: seq<nat>) returns (r: seq<Piece>)
    ensures r == pieces + FillerPieces(pads)
  {
    r := pieces;
    for j := 0 to |pads|
      invariant r == pieces + FillerPieces(pads[..j])
    {
      r := r + [Piece(pads[j], None)];
    }
    assert pads[..|pads|] == pads;
  }

  /** The running offset is that of the pieces so far. */
  ghost predicate OffsetOf(offset: nat, pieces: seq<Piece>) {
    offset == Unpadded(Space(pieces)) && Padded(offset) == Space(pieces)
  }

  /** What an accepted deal adds. */
  lemma AcceptedAdds(pieces: seq<Piece>, pad: nat, d: Deal, ssize: nat)
    requires SectorSize(ssize) && LayoutOk(pieces, ssize) && DealOk(d) && pad == ToFill(Space(pieces), d.size)
    requires Space(pieces) + pad + d.size <= ssize
    ensures var told := Unpadded(Space(pieces)) + Unpadded(pad);
      && PlaceDeal(Placed(pieces, []), d, false, ssize) == Placed(pieces + DealPieces(pad, d), [Reply(told, true)])
      && OffsetOf(told + Unpadded(d.size), pieces + DealPieces(pad, d))
  {
    OffsetsAdvance(pieces, pad, d, ssize);
  }

  /** One assigned piece: room and padding, then the writes; works says whether the sealer can do them. */
  method AddDeal(ghost pieces: seq<Piece>, offset: nat, deal: Deal, tooMany: bool, ssize: nat, works: bool)
    returns (failed: bool, more: seq<Piece>, reply: Reply, next: nat)
    requires SectorSize(ssize) && LayoutOk(pieces, ssize) && DealOk(deal) && OffsetOf(offset, pieces)
    ensures failed ==> !works && !reply.accepted
    ensures failed ==> PlaceDeal(Placed(pieces, []), deal, tooMany, ssize).replies == [reply.(accepted := true)]
    ensures !failed && reply.accepted ==> works
    ensures !failed ==> PlaceDeal(Placed(pieces, []), deal, tooMany, ssize) == Placed(pieces + more, [reply])
    ensures !failed ==> OffsetOf(next, pieces + more)
  {
    failed, more, reply, next := false, [], Reply(offset, false), offset;
    assert pieces + [] == pieces;
    if tooMany {
      return;
    }
    var usize := Unpadded(deal.size);
    PieceSizeMultiple(deal.size);
    UnpaddedRoundTrip(deal.size);
    var pads, padLength := GetRequiredPadding(Padded(offset), Padded(usize));
    if Padded(offset) + padLength + Padded(usize) > ssize {
      return;
    }
    AcceptedAdds(pieces, padLength, deal, ssize);
    next := offset + Unpadded(padLength);
    reply := Reply(next, works);
    failed := !works;
    if works {
      more := AppendFillers([], pads);
      more := more + [Piece(Padded(usize), Some(deal.id))];
      next := next + usize;
      assert more == DealPieces(padLength, deal);
    }
  }

  /** The deals assigned to a sector that holds some pieces. */
  datatype Intake = Intake(pieces: seq<Piece>, pending: seq<Deal>, maxDeals: nat, ssize: nat) {
    ghost predicate Valid() { SectorSize(ssize) && LayoutOk(pieces, ssize) && DealsOk(pending) }
  }

  /** The sector after its first k deals, when everything can be written. */
  function After(t: Intake, k: nat): (p: Placed)
    requires k <= |t.pending|
    ensures |p.replies| == k
  {
    if k == 0 then Placed(t.pieces, [])
    else PlaceDeal(After(t, k - 1), t.pending[k - 1], |DealIds(t.pieces)| + k > t.maxDeals, t.ssize)
  }

  lemma AfterSteps(t: Intake) returns (states: seq<Placed>)
    ensures Steps(states, |DealIds(t.pieces)|, t.pending, t.maxDeals, t.ssize)
    ensures forall k :: 0 <= k <= |t.pending| ==> states[k] == After(t, k)
  {
    states := seq(|t.pending| + 1, k requires 0 <= k <= |t.pending| => After(t, k));
    forall i | 0 <= i < |t.pending|
      ensures states[i + 1]
        == PlaceDeal(states[i], t.pending[i], |DealIds(t.pieces)| + i + 1 > t.maxDeals, t.ssize) {}
  }

  lemma AfterKeeps(t: Intake, k: nat)
    requires t.Valid() && k <= |t.pending|
    ensures LayoutOk(After(t, k).pieces, t.ssize)
  {
    var states := AfterSteps(t);
    StepsKeep(states, |DealIds(t.pieces)|, t.pending, t.maxDeals, t.ssize, k);
  }

  /** There is room for deal k, and it is not one too many. */
  predicate Fits(t: Intake, k: nat)
    requires k < |t.pending|
  {
    After(t, k + 1).replies[k].accepted
  }

  /** The first deal there is room for and that cannot be written. */
  ghost predicate FailsFirst(t: Intake, works: nat -> bool, i: nat) {
    i < |t.pending| && Fits(t, i) && !works(i) && forall j :: 0 <= j < i && Fits(t, j) ==> works(j)
  }

  /**
   What comes of the deals: all are placed, or the first that cannot be written ends it, and then the replies before it
   are out but no piece reaches the sector.
   */
  ghost predicate AddedAs(t: Intake, works: nat -> bool, r: AddResult) {
    match r
    case AddDone(newPieces, replies) =>
      && Placed(t.pieces + newPieces, replies) == After(t, |t.pending|)
      && forall j :: 0 <= j < |t.pending| && Fits(t, j) ==> works(j)
    case AddFailed(replies) =>
      replies != [] && FailsFirst(t, works, |replies| - 1) && FailsAt(t, |replies| - 1, replies)
  }

  /** The pieces the sector gets. */
  function Gained(r: AddResult): seq<Piece> { if r.AddDone? then r.newPieces else [] }

  /** The sector holds the deals it had and those whose clients were told that they were taken. */
  predicate ToldTheTruth(t: Intake, r: AddResult) {
    && |r.replies| <= |t.pending|
    && DealIds(t.pieces + Gained(r)) == DealIds(t.pieces) + AcceptedIds(t.pending[..|r.replies|], r.replies)
  }

  lemma {:induction false} NoneAccepted(pending: seq<Deal>, replies: seq<Reply>)
    requires |pending| == |replies|
    ensures AcceptedIds(pending, replies) == [] <==> forall k :: 0 <= k < |replies| ==> !replies[k].accepted
  {
    if pending != [] {
      var n := |pending| - 1;
      NoneAccepted(pending[..n], replies[..n]);
      assert replies == replies[..n] + [replies[n]];
    }
  }

  /** The replies of a prefix. */
  lemma EarlierReplies(t: Intake, k: nat, i: nat)
    requires k < i <= |t.pending|
    ensures After(t, i).replies[k] == After(t, k + 1).replies[k]
  {
    var states := AfterSteps(t);
    StepsAppend(states, |DealIds(t.pieces)|, t.pending, t.maxDeals, t.ssize, k + 1, i);
  }

  lemma DoneTellsTheTruth(t: Intake, works: nat -> bool, r: AddResult)
    requires AddedAs(t, works, r) && r.AddDone?
    ensures ToldTheTruth(t, r)
  {
    var states := AfterSteps(t);
    OnlyAcceptedDealsAreThere(states, |DealIds(t.pieces)|, t.pending, t.maxDeals, t.ssize, |t.pending|);
  }

  lemma FailureTellsTheTruthIff(t: Intake, works: nat -> bool, r: AddResult)
    requires AddedAs(t, works, r) && r.AddFailed?
    ensures ToldTheTruth(t, r) <==> forall k :: 0 <= k < |r.replies| - 1 ==> !Fits(t, k)
  {
    var i := |r.replies| - 1;
    assert t.pieces + [] == t.pieces;
    NoneAccepted(t.pending[..i + 1], r.replies);
    forall k | 0 <= k < i ensures r.replies[k].accepted <==> Fits(t, k) { EarlierReplies(t, k, i); }
  }

  /**
   A client was told that its deal was taken, and the sector does not have it, if and only if a later deal that there
   was room for could not be written.
   */
  lemma AcceptedIsLostIff(t: Intake, works: nat -> bool, r: AddResult)
    requires AddedAs(t, works, r)
    ensures !ToldTheTruth(t, r) <==> exists k, i :: 0 <= k < i && FailsFirst(t, works, i) && Fits(t, k)
  {
    if r.AddDone? {
      DoneTellsTheTruth(t, works, r);
    } else {
      FailureTellsTheTruthIff(t, works, r);
    }
  }

  /** Where the loop stands after i deals. */
  ghost predicate Standing(t: Intake, i: nat, added: seq<Piece>, replies: seq<Reply>, offset: nat)
    requires i <= |t.pending|
  {
    Placed(t.pieces + added, replies) == After(t, i) && OffsetOf(offset, t.pieces + added)
  }

  lemma StandsOn(t: Intake, i: nat, added: seq<Piece>, replies: seq<Reply>, offset: nat, more: seq<Piece>,
                 reply: Reply, next: nat)
    requires i < |t.pending| && Standing(t, i, added, replies, offset)
    requires PlaceDeal(Placed(t.pieces + added, []), t.pending[i], |DealIds(t.pieces)| + i + 1 > t.maxDeals, t.ssize)
      == Placed(t.pieces + added + more, [reply])
    requires OffsetOf(next, t.pieces + added + more)
    ensures Standing(t, i + 1, added + more, replies + [reply], next) && Fits(t, i) == reply.accepted
  {
    assert t.pieces + (added + more) == t.pieces + added + more;
    PlaceDealFrom(After(t, i), t.pending[i], |DealIds(t.pieces)| + i + 1 > t.maxDeals, t.ssize, more, reply);
  }

  lemma PlaceDealFrom(p: Placed, d: Deal, tooMany: bool, ssize: nat, more: seq<Piece>, reply: Reply)
    requires PlaceDeal(Placed(p.pieces, []), d, tooMany, ssize) == Placed(p.pieces + more, [reply])
    ensures PlaceDeal(p, d, tooMany, ssize) == Placed(p.pieces + more, p.replies + [reply])
  {
  }

  lemma PlaceDealReplies(p: Placed, d: Deal, tooMany: bool, ssize: nat)
    ensures PlaceDeal(p, d, tooMany, ssize).replies
      == p.replies + PlaceDeal(Placed(p.pieces, []), d, tooMany, ssize).replies
  {
  }

  /** A deal that fails would have been accepted at the offset its client is told. */
  ghost predicate FailsAt(t: Intake, i: nat, replies: seq<Reply>) {
    i < |t.pending| && Fits(t, i)
    && replies == After(t, i).replies + [After(t, i + 1).replies[i].(accepted := false)]
  }

  lemma DealFails(t: Intake, i: nat, pieces: seq<Piece>, replies: seq<Reply>, reply: Reply)
    requires i < |t.pending| && Placed(pieces, replies) == After(t, i) && !reply.accepted
    requires PlaceDeal(Placed(pieces, []), t.pending[i], |DealIds(t.pieces)| + i + 1 > t.maxDeals, t.ssize).replies
      == [reply.(accepted := true)]
    ensures FailsAt(t, i, replies + [reply])
  {
    PlaceDealReplies(After(t, i), t.pending[i], |DealIds(t.pieces)| + i + 1 > t.maxDeals, t.ssize);
    assert After(t, i + 1).replies == replies + [reply.(accepted := true)];
  }

  /** One round of the loop. */
  method AddNext(t: Intake, i: nat, added: seq<Piece>, replies: seq<Reply>, offset: nat, works: bool)
    returns (failed: bool, added': seq<Piece>, replies': seq<Reply>, offset': nat)
    requires t.Valid() && i < |t.pending| && Standing(t, i, added, replies, offset)
    ensures failed == (Fits(t, i) && !works)
    ensures failed ==> FailsAt(t, i, replies')
    ensures !failed ==> Standing(t, i + 1, added', replies', offset')
  {
    ghost var all := t.pieces + added;
    AfterKeeps(t, i);
    var tooMany := |DealIds(t.pieces)| + (i + 1) > t.maxDeals;
    var more, reply, next;
    failed, more, reply, next := AddDeal(all, offset, t.pending[i], tooMany, t.ssize, works);
    added', replies', offset' := added + more, replies + [reply], next;
    if failed {
      DealFails(t, i, all, replies, reply);
    } else {
      StandsOn(t, i, added, replies, offset, more, reply, next);
    }
  }

  method StartOffset(t: Intake) returns (offset: nat)
    requires t.Valid()
    ensures Standing(t, 0, [], [], offset)
  {
    offset := UnpaddedTotal(t.pieces);
    assert t.pieces + [] == t.pieces;
  }

  /** The loop over the pieces assigned to a sector; works(i) says whether the sealer can write those of deal i. */
  method AddPieces(t: Intake, works: nat -> bool) returns (r: AddResult)
    requires t.Valid()
    ensures AddedAs(t, works, r)
    ensures r.AddFailed? <==> exists i :: 0 <= i < |t.pending| && Fits(t, i) && !works(i)
  {
    var offset := StartOffset(t);
    var added: seq<Piece>, replies: seq<Reply> := [], [];
    for i := 0 to |t.pending|
      invariant Standing(t, i, added, replies, offset)
      invariant forall j :: 0 <= j < i && Fits(t, j) ==> works(j)
    {
      var failed;
      failed, added, replies, offset := AddNext(t, i, added, replies, offset, works(i));
      if failed {
        return AddFailed(replies);
      }
    }
    r := AddDone(added, replies);
  }

  lemma UnpaddedSum3(at: nat, pad: nat, size: nat)
    requires Multiple(at, 128) && Multiple(at + pad, 128) && Multiple(size, 128)
    ensures Unpadded(at + pad) == Unpadded(at) + Unpadded(pad)
    ensures Unpadded(at + pad + size) == Unpadded(at) + Unpadded(pad) + Unpadded(size)
    ensures Padded(Unpadded(at + pad + size)) == at + pad + size
  {
    MultipleSum(at + pad, at, 128);
    UnpaddedSum(at, pad);
    UnpaddedSum(at + pad, size);
    MultipleSum(at + pad, size, 128);
    UnpaddedRoundTrip(at + pad + size);
  }

  /** The running unpadded offset follows the space taken. */
  lemma OffsetsAdvance(pieces: seq<Piece>, pad: nat, d: Deal, ssize: nat)
    requires SectorSize(ssize) && LayoutOk(pieces, ssize) && DealOk(d) && pad == ToFill(Space(pieces), d.size)
    requires Space(pieces) + pad + d.size <= ssize
    ensures Unpadded(Space(pieces) + pad) == Unpadded(Space(pieces)) + Unpadded(pad)
    ensures var all := pieces + DealPieces(pad, d);
      && Space(all) == Space(pieces) + pad + d.size
      && Unpadded(Space(all)) == Unpadded(Space(pieces)) + Unpadded(pad) + Unpadded(d.size)
      && Padded(Unpadded(Space(all))) == Space(all)
  {
    ToFillAligns(Space(pieces), d.size);
    PadKeeps(pieces, pad, d.size, ssize);
    DealKeeps(pieces + FillerPieces(Bits(pad)), Piece(d.size, Some(d.id)), ssize);
    SumMultiple(Sizes(pieces));
    SumMultiple(Sizes(pieces + FillerPieces(Bits(pad))));
    PieceSizeMultiple(d.size);
    UnpaddedSum3(Space(pieces), pad, d.size);
    PadThenDeal(pieces, pad, d);
  }

  /** What is left to fill, in padded and in unpadded sizes. */
  lemma RemainderToFill(pieces: seq<Piece>, ssize: nat)
    requires SectorSize(ssize) && forall i :: 0 <= i < |pieces| ==> PieceSize(pieces[i].size)
    ensures Unpadded(Space(pieces)) > Unpadded(ssize) <==> Space(pieces) > ssize
    ensures Space(pieces) <= ssize ==>
      && Padded(Unpadded(ssize) - Unpadded(Space(pieces))) == ssize - Space(pieces)
      && PieceSizes(Bits(ssize - Space(pieces)))
  {
    SumMultiple(Sizes(pieces));
    PieceSizeMultiple(ssize);
    UnpaddedRoundTrip(Space(pieces));
    UnpaddedRoundTrip(ssize);
    if Space(pieces) <= ssize {
      var rem := ssize - Space(pieces);
      MultipleSum(ssize, Space(pieces), 128);
      UnpaddedSum(Space(pieces), rem);
      UnpaddedRoundTrip(rem);
      assert IsPow2(128);
      BitsMultiple(rem, 128);
    }
  }

  /** Packing as the handler does it, in unpadded sizes. */
  method HandlePacking(pieces: seq<Piece>, ssize: nat) returns (r: Option<seq<Piece>>)
    requires SectorSize(ssize) && forall i :: 0 <= i < |pieces| ==> PieceSize(pieces[i].size)
    ensures r == Pack(pieces, ssize)
  {
    var taken := UnpaddedTotal(pieces);
    var ubytes := Unpadded(ssize);
    RemainderToFill(pieces, ssize);
    if taken > ubytes {
      return None;
    }
    var packed := FillUp(pieces, ubytes - taken, ssize - Space(pieces));
    r := Some(packed);
  }

  /** Fill a given number of unpadded bytes. */
  method FillUp(pieces: seq<Piece>, urem: nat, ghost rem: nat) returns (r: seq<Piece>)
    requires Padded(urem) == rem && PieceSizes(Bits(rem))
    ensures r == pieces + FillerPieces(Bits(rem))
  {
    var fillers := FillersFromRem(urem);
    r := PadSector(pieces, fillers, Bits(rem));
  }

  /** Write the fillers one by one. */
  method PadSector(pieces: seq<Piece>, fillers: array<nat>, ghost bits: seq<nat>) returns (r: seq<Piece>)
    requires PieceSizes(bits) && |bits| == fillers.Length && forall i :: 0 <= i < |bits| ==>
      fillers[i] == Unpadded(bits[i])
    ensures r == pieces + FillerPieces(bits)
  {
    r := pieces;
    for i := 0 to fillers.Length
      invariant r == pieces + FillerPieces(bits[..i])
    {
      PieceSizeMultiple(bits[i]);
      UnpaddedRoundTrip(bits[i]);
      r := r + [Piece(Padded(fillers[i]), None)];
    }
    assert bits[..|bits|] == bits;
  }
}
