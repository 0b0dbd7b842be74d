/**
  What a C compiler makes of an emitted struct, and that it is what the layout computed.
  The algorithm is that of the Rust Reference, "Type Layout", section "The C Representation";
  it knows nothing of sorting or of explicit padding.
 */
module ReprC {
  import opened Prelude
  import opened MsgModel
  import opened Parser
  import opened Flatten
  import opened Layout
  import Arith

  /** Size and alignment of a type, and how many of its bytes the compiler put in as padding, at any depth. */
  datatype Extent = Extent(size: nat, align: nat, implicitBytes: nat)

  function RoundUp(pos: nat, align: nat): (up: nat)
    requires align > 0
    ensures pos <= up < pos + align && up % align == 0
  {
    Arith.GapCloses(pos, align);
    if pos % align == 0 then pos else pos + (align - pos % align)
  }

  function Max(a: nat, b: nat): nat { if a < b then b else a }

  function Repeat(elem: Extent, n: nat): Extent {
    Arith.MulNonNegative(elem.size, n);
    Arith.MulNonNegative(elem.implicitBytes, n);
    Extent(elem.size * n, elem.align, elem.implicitBytes * n)
  }

  /** The extent of a field's type, or `None` if a struct it names is not defined. */
  ghost function TypeExtent(dir: Dir, rank: Rank, f: Field, bound: nat): (e: Option<Extent>)
    requires Acyclic(dir, rank) && RefersBelow(dir, rank, f, bound)
    ensures e.Some? ==> e.value.align > 0
    decreases bound, 1, 0
  {
    match f.ty
    case ScalarType(s) => Some(Extent(s.Size(), s.Size(), 0))
    case ScalarArray(s, n) => Some(Repeat(Extent(s.Size(), s.Size(), 0), n))
    case Nested(msg) => NamedExtent(dir, rank, f, bound)
    case NestedArray(msg, n) =>
      var elem := NamedExtent(dir, rank, f, bound);
      if elem.None? then None else Some(Repeat(elem.value, n))
  }

  /** The struct emitted for the message that `f` nests. */
  ghost function NamedExtent(dir: Dir, rank: Rank, f: Field, bound: nat): (e: Option<Extent>)
    requires Acyclic(dir, rank) && RefersBelow(dir, rank, f, bound) && f.ty.IsNested()
    ensures e.Some? ==> e.value.align > 0
    decreases bound, 0, 0
  {
    match Lookup(dir, f.ty.msg)
    case Err(_) => None
    case Ok(def) =>
      match LayoutOf(dir, rank, def, RankOf(rank, f.ty.msg))
      case Err(_) => None
      case Ok(laid) =>
        LaidOutBelow(dir, rank, def, RankOf(rank, f.ty.msg));
        StructExtent(dir, rank, laid.fields, RankOf(rank, f.ty.msg), 0, 1)
  }

  /**
    The rest of a struct whose first fields end at `pos` and need alignment `align`: every
    field goes to the next multiple of its alignment, the struct takes the largest
    alignment, and its size is rounded up to that.
   */
  ghost function StructExtent(dir: Dir, rank: Rank, fields: seq<LaidOutField>, bound: nat, pos: nat, align: nat)
    : (e: Option<Extent>)
    requires Acyclic(dir, rank) && Below(dir, rank, Reals(fields), bound) && align > 0
    ensures e.Some? ==> e.value.align > 0
    decreases bound, 2, |fields|
  {
    if fields == [] then
      Some(Extent(RoundUp(pos, align), align, RoundUp(pos, align) - pos))
    else
      RestBelow(dir, rank, fields, bound);
      var field := if fields[0].Real? then TypeExtent(dir, rank, fields[0].field, bound)
                   else Some(Extent(fields[0].size, 1, 0));
      if field.None? then None
      else
        var offset := RoundUp(pos, field.value.align);
        var more := StructExtent(dir, rank, fields[1..], bound, offset + field.value.size, Max(align, field.value.align));
        if more.None? then None
        else Some(more.value.(implicitBytes := more.value.implicitBytes + field.value.implicitBytes + (offset - pos)))
  }

  lemma RestBelow(dir: Dir, rank: Rank, fields: seq<LaidOutField>, bound: nat)
    requires Below(dir, rank, Reals(fields), bound) && fields != []
    ensures Below(dir, rank, Reals(fields[1..]), bound)
    ensures fields[0].Real? ==> RefersBelow(dir, rank, fields[0].field, bound)
  {
    hide RefersBelow;
    var all, more := Reals(fields), Reals(fields[1..]);
    var n := |all| - |more|;
    assert fields[0].Real? ==> all[0] == fields[0].field;
    forall i | 0 <= i < |more|
      ensures RefersBelow(dir, rank, more[i], bound)
    {
      assert all[n + i] == more[i];
    }
  }

  /** The emitted fields refer to what the declared ones refer to. */
  lemma LaidOutBelow(dir: Dir, rank: Rank, def: MsgDef, bound: nat)
    requires Acyclic(dir, rank) && Below(dir, rank, def.fields, bound)
    requires LayoutOf(dir, rank, def, bound).Ok?
    ensures Below(dir, rank, Reals(LayoutOf(dir, rank, def, bound).value.fields), bound)
  {
    hide RefersBelow, Place, StableSort, MessageHash;
    SortedBelow(dir, rank, def.fields, bound);
    PlacedFields(dir, rank, StableSort(def.fields), bound, 0, 0);
  }

  // ------------------------------------------------------------------ the two layouts agree

  predicate Alignment(a: nat) { a == 1 || a == 2 || a == 4 || a == 8 }

  /** A defined extent of `size` bytes, none of them put in by the compiler. */
  ghost predicate IsTight(e: Option<Extent>, size: nat) {
    e.Some? && Alignment(e.value.align) && e.value.size == size && e.value.implicitBytes == 0
  }

  /** The next multiple of an alignment is the position itself on every multiple of 8. */
  lemma AlignedAtEight(pos: nat, a: nat)
    requires Alignment(a) && pos % ALIGN_TO == 0
    ensures pos % a == 0 && RoundUp(pos, a) == pos
  {
    SmallerDivides(pos, ALIGN_TO, a);
  }

  /** Smaller scalar alignments divide larger ones. */
  lemma SmallerDivides(pos: nat, a: nat, b: nat)
    requires Alignment(a) && Alignment(b) && b <= a && pos % a == 0
    ensures pos % b == 0
  {
    assert a % b == 0;
    Arith.MultipleOf(a, pos / a, b);
  }

  /** A position at which every scalar still to come is aligned. */
  ghost predicate ReadyFor(rest: seq<Field>, pos: nat) {
    forall i :: 0 <= i < |rest| && !rest[i].ty.IsNested() ==> pos % rest[i].ty.scalar.Size() == 0
  }

  /** Where the layout puts a field, everything after it is still aligned. */
  lemma StaysReady(dir: Dir, rank: Rank, rest: seq<Field>, bound: nat, pos: nat)
    requires Acyclic(dir, rank) && Below(dir, rank, rest, bound) && rest != [] && Descending(rest) && ReadyFor(rest, pos)
    requires RefersBelow(dir, rank, rest[0], bound) && FieldSize(dir, rank, rest[0], bound).Ok?
    ensures ReadyFor(rest[1..], pos + GapBefore(rest[0], pos) + FieldSize(dir, rank, rest[0], bound).value)
    ensures Descending(rest[1..])
  {
    hide RefersBelow, Place, LayoutOf, Lookup;
    var more := rest[1..];
    if rest[0].ty.IsNested() {
      NestedComeLast(rest);
      assert forall i :: 0 <= i < |more| ==> more[i] == rest[i + 1];
    } else {
      var unit := rest[0].ty.scalar.Size();
      var size := FieldSize(dir, rank, rest[0], bound).value;
      if rest[0].ty.ScalarArray? { Arith.MultipleOf(unit, rest[0].ty.count, unit); }
      assert size % unit == 0;
      Arith.SumOfMultiples(pos, size, unit);
      forall i | 0 <= i < |more| && !more[i].ty.IsNested()
        ensures (pos + size) % more[i].ty.scalar.Size() == 0
      {
        assert SortSize(rest[0].ty) >= SortSize(rest[i + 1].ty);
        SmallerDivides(pos + size, unit, more[i].ty.scalar.Size());
      }
    }
  }

  /** The extent of a field that the layout sized: that size, no implicit padding, a scalar's alignment is its size. */
  lemma {:induction false} FieldAgrees(dir: Dir, rank: Rank, f: Field, bound: nat)
    requires Acyclic(dir, rank) && RefersBelow(dir, rank, f, bound)
    requires FieldSize(dir, rank, f, bound).Ok?
    ensures var e := TypeExtent(dir, rank, f, bound);
            && IsTight(e, FieldSize(dir, rank, f, bound).value)
            && (!f.ty.IsNested() ==> e.value.align == f.ty.scalar.Size())
    decreases bound, 0
  {
    hide ParseStr, Place, LayoutOf, StructExtent;
    if f.ty.IsNested() {
      var def := Lookup(dir, f.ty.msg).value;
      LayoutMatchesC(dir, rank, def, RankOf(rank, f.ty.msg));
    }
  }

  lemma RealsOfFront(field: LaidOutField, rest: seq<LaidOutField>)
    ensures ([field] + rest)[1..] == rest
    ensures Reals([field] + rest) == (if field.Real? then [field.field] else []) + Reals(rest)
  {
    assert ([field] + rest)[1..] == rest;
  }

  lemma ExtentOfPadding(dir: Dir, rank: Rank, index: nat, gap: nat, rest: seq<LaidOutField>, bound: nat, pos: nat, align: nat)
    requires Acyclic(dir, rank) && Below(dir, rank, Reals(rest), bound) && align > 0
    ensures Below(dir, rank, Reals(PadIf(index, gap) + rest), bound)
    ensures StructExtent(dir, rank, PadIf(index, gap) + rest, bound, pos, align)
         == StructExtent(dir, rank, rest, bound, pos + gap, align)
  {
    hide RefersBelow, TypeExtent, Reals, Acyclic, Below, RoundUp;
    if gap == 0 {
      hide StructExtent;
      assert PadIf(index, gap) + rest == rest;
    } else {
      RealsOfFront(Padding(index, gap), rest);
      assert [] + Reals(rest) == Reals(rest);
      OneDivides(pos);
      FirstField(dir, rank, Padding(index, gap), rest, bound, pos, align);
    }
  }

  lemma OneDivides(pos: nat)
    ensures RoundUp(pos, 1) == pos
  {
  }

  /** One turn of the compiler's walk. */
  lemma FirstField(dir: Dir, rank: Rank, field: LaidOutField, rest: seq<LaidOutField>, bound: nat, pos: nat, align: nat)
    requires Acyclic(dir, rank) && Below(dir, rank, Reals(rest), bound) && align > 0
    requires Below(dir, rank, Reals([field] + rest), bound)
    requires field.Real? ==> RefersBelow(dir, rank, field.field, bound) && TypeExtent(dir, rank, field.field, bound).Some?
    ensures var e := if field.Real? then TypeExtent(dir, rank, field.field, bound).value else Extent(field.size, 1, 0);
            RoundUp(pos, e.align) == pos && e.implicitBytes == 0 ==>
              StructExtent(dir, rank, [field] + rest, bound, pos, align)
              == StructExtent(dir, rank, rest, bound, pos + e.size, Max(align, e.align))
  {
    hide RefersBelow, TypeExtent, Reals, Acyclic, Below, RoundUp;
    RealsOfFront(field, rest);
  }

  /** A field at an aligned position adds its size and nothing else. */
  lemma ExtentOfField(dir: Dir, rank: Rank, f: Field, rest: seq<LaidOutField>, bound: nat, pos: nat, align: nat)
    requires Acyclic(dir, rank) && Below(dir, rank, Reals(rest), bound) && RefersBelow(dir, rank, f, bound) && align > 0
    requires TypeExtent(dir, rank, f, bound).Some?
    requires TypeExtent(dir, rank, f, bound).value.implicitBytes == 0
    requires pos % TypeExtent(dir, rank, f, bound).value.align == 0
    ensures Below(dir, rank, Reals([Real(f)] + rest), bound)
    ensures var e := TypeExtent(dir, rank, f, bound).value;
            StructExtent(dir, rank, [Real(f)] + rest, bound, pos, align)
            == StructExtent(dir, rank, rest, bound, pos + e.size, Max(align, e.align))
  {
    hide RefersBelow, TypeExtent, StructExtent, Reals;
    RealsOfFront(Real(f), rest);
    forall i | 0 <= i < |Reals([Real(f)] + rest)|
      ensures RefersBelow(dir, rank, Reals([Real(f)] + rest)[i], bound)
    {
      if i > 0 { assert Reals([Real(f)] + rest)[i] == Reals(rest)[i - 1]; }
    }
    FirstField(dir, rank, Real(f), rest, bound, pos, align);
  }

  /** The position that the layout gives a field is a multiple of the field's alignment. */
  lemma FieldStaysPut(rest: seq<Field>, pos: nat, a: nat)
    requires rest != [] && ReadyFor(rest, pos) && Alignment(a)
    requires !rest[0].ty.IsNested() ==> a == rest[0].ty.scalar.Size()
    ensures (pos + GapBefore(rest[0], pos)) % a == 0
  {
    if rest[0].ty.IsNested() { AlignedAtEight(pos + GapBefore(rest[0], pos), a); }
  }

  lemma ExtentOfNothing(dir: Dir, rank: Rank, index: nat, bound: nat, pos: nat, align: nat)
    requires Acyclic(dir, rank) && Alignment(align)
    ensures Reals(PadIf(index, AlignGap(pos, ALIGN_TO))) == []
    ensures StructExtent(dir, rank, PadIf(index, AlignGap(pos, ALIGN_TO)), bound, pos, align)
         == Some(Extent(pos + AlignGap(pos, ALIGN_TO), align, 0))
  {
    hide AlignGap, RoundUp, Acyclic;
    var gap := AlignGap(pos, ALIGN_TO);
    assert PadIf(index, gap) + [] == PadIf(index, gap);
    ExtentOfPadding(dir, rank, index, gap, [], bound, pos, align);
    AlignedAtEight(pos + gap, align);
  }

  /** Walking over what the placing loop emits, the compiler never moves a field. */
  lemma {:induction false} PlacedMatchesC(dir: Dir, rank: Rank, rest: seq<Field>, bound: nat, pos: nat, pads: nat, align: nat)
    requires Acyclic(dir, rank) && Below(dir, rank, rest, bound) && Descending(rest) && ReadyFor(rest, pos) && Alignment(align)
    requires Place(dir, rank, rest, bound, pos, pads).Ok?
    ensures var placed := Place(dir, rank, rest, bound, pos, pads).value;
            && Below(dir, rank, Reals(placed.fields), bound)
            && IsTight(StructExtent(dir, rank, placed.fields, bound, pos, align), placed.end)
    decreases bound, 1, |rest|
  {
    hide FieldSize, Place, GapBefore, PadIf, AlignGap, Acyclic, RefersBelow, Below, Descending, ReadyFor;
    hide Reals, Pads, StructExtent, TypeExtent;
    if rest == [] {
      PlaceNone(dir, rank, bound, pos, pads);
      ExtentOfNothing(dir, rank, pads, bound, pos, align);
    } else {
      var f := rest[0];
      var size, gap, pads', more := PlaceTurn(dir, rank, rest, bound, pos, pads);
      FieldAgrees(dir, rank, f, bound);
      var a := TypeExtent(dir, rank, f, bound).value.align;
      FieldStaysPut(rest, pos, a);
      StaysReady(dir, rank, rest, bound, pos);
      PlacedMatchesC(dir, rank, rest[1..], bound, pos + gap + size, pads', Max(align, a));
      ExtentOfField(dir, rank, f, more.fields, bound, pos + gap, align);
      ExtentOfPadding(dir, rank, pads, gap, [Real(f)] + more.fields, bound, pos, align);
    }
  }

  /**
    The explicit layout is the C layout.  For every message over an acyclic directory that can
    be laid out, the compiler gives the emitted struct exactly the computed size, and puts in
    not one byte of padding of its own, neither in the struct nor in any nested one: every
    running offset is already a multiple of the field's alignment.  So the emitted size
    assertion always holds.
   */
  lemma {:induction false} LayoutMatchesC(dir: Dir, rank: Rank, def: MsgDef, bound: nat)
    requires Acyclic(dir, rank) && Below(dir, rank, def.fields, bound)
    requires LayoutOf(dir, rank, def, bound).Ok?
    ensures var laid := LayoutOf(dir, rank, def, bound).value;
            && Below(dir, rank, Reals(laid.fields), bound)
            && IsTight(StructExtent(dir, rank, laid.fields, bound, 0, 1), laid.size)
    decreases bound, 2
  {
    hide RefersBelow, Place, StableSort, MessageHash, StructExtent;
    SortIsStable(def.fields);
    SortedBelow(dir, rank, def.fields, bound);
    PlacedMatchesC(dir, rank, StableSort(def.fields), bound, 0, 0, 1);
  }
}
