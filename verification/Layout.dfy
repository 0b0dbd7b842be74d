/**
  The struct layout of a message: fields stably sorted by element size, nested messages
  last and 8-byte aligned, the tail padded to 8 bytes.
 */
module Layout {
  import opened Prelude
  import opened MsgModel
  import opened Parser
  import opened Flatten
  import Arith

  const ALIGN_TO: nat := 8

  datatype LaidOutField = Real(field: Field) | Padding(index: nat, size: nat)

  datatype LaidOutMsg = LaidOutMsg(
    name: string,
    snakeName: string,
    fields: seq<LaidOutField>,
    constants: seq<Constant>,
    topics: seq<string>,
    size: nat,
    messageHash: nat)

  /** Bytes from `pos` to the next multiple of `align`. */
  function AlignGap(pos: nat, align: nat): (gap: nat)
    requires align > 0
    ensures gap < align && (pos + gap) % align == 0
  {
    var rem := pos % align;
    Arith.GapCloses(pos, align);
    if rem == 0 then 0 else align - rem
  }

  /** The key of the sort: element size for scalars and their arrays, 0 for nested messages. */
  function SortSize(ty: FieldType): nat {
    match ty
    case ScalarType(s) => s.Size()
    case ScalarArray(s, _) => s.Size()
    case _ => 0
  }

  // ------------------------------------------------------------------ the stable sort

  function Insert(f: Field, sorted: seq<Field>): seq<Field> {
    if sorted == [] || SortSize(f.ty) >= SortSize(sorted[0].ty) then [f] + sorted
    else [sorted[0]] + Insert(f, sorted[1..])
  }

  /** `sort_by` on the keys in descending order; equal keys keep their order. */
  function StableSort(fields: seq<Field>): (sorted: seq<Field>)
    ensures |sorted| == |fields|
  {
    if fields == [] then []
    else
      InsertKeepsLength(fields[0], StableSort(fields[1..]));
      Insert(fields[0], StableSort(fields[1..]))
  }

  lemma InsertKeepsLength(f: Field, sorted: seq<Field>)
    ensures |Insert(f, sorted)| == |sorted| + 1
  {
  }

  ghost predicate Descending(fields: seq<Field>) {
    forall i, j :: 0 <= i < j < |fields| ==> SortSize(fields[i].ty) >= SortSize(fields[j].ty)
  }

  /** The fields with key `k`, in order. */
  function OfKey(fields: seq<Field>, k: nat): seq<Field> {
    if fields == [] then []
    else (if SortSize(fields[0].ty) == k then [fields[0]] else []) + OfKey(fields[1..], k)
  }

  lemma {:induction false} InsertKeepsElements(f: Field, sorted: seq<Field>)
    ensures forall x :: x in Insert(f, sorted) <==> x == f || x in sorted
    decreases |sorted|
  {
    if sorted != [] && SortSize(f.ty) < SortSize(sorted[0].ty) {
      InsertKeepsElements(f, sorted[1..]);
      assert sorted == [sorted[0]] + sorted[1..];
    }
  }

  lemma {:induction false} InsertKeepsOrder(f: Field, sorted: seq<Field>)
    requires Descending(sorted)
    ensures Descending(Insert(f, sorted))
    decreases |sorted|
  {
    if sorted != [] && SortSize(f.ty) < SortSize(sorted[0].ty) {
      var head, rest := sorted[0], sorted[1..];
      InsertKeepsOrder(f, rest);
      InsertKeepsElements(f, rest);
      forall x | x in Insert(f, rest)
        ensures SortSize(x.ty) <= SortSize(head.ty)
      {
      }
    }
  }

  /** Inserting before the first field that is not larger keeps the order within every key. */
  lemma {:induction false} InsertIsStable(f: Field, sorted: seq<Field>, k: nat)
    ensures OfKey(Insert(f, sorted), k) == (if SortSize(f.ty) == k then [f] else []) + OfKey(sorted, k)
    decreases |sorted|
  {
    hide SortSize;
    if sorted == [] || SortSize(f.ty) >= SortSize(sorted[0].ty) {
      assert ([f] + sorted)[1..] == sorted;
    } else {
      InsertIsStable(f, sorted[1..], k);
      assert Insert(f, sorted)[1..] == Insert(f, sorted[1..]);
    }
  }

  /** The sort is a stable permutation into descending key order. */
  lemma {:induction false} SortIsStable(fields: seq<Field>)
    ensures Descending(StableSort(fields))
    ensures forall k :: OfKey(StableSort(fields), k) == OfKey(fields, k)
    ensures forall x :: x in StableSort(fields) <==> x in fields
    decreases |fields|
  {
    if fields != [] {
      var f, rest := fields[0], StableSort(fields[1..]);
      SortIsStable(fields[1..]);
      InsertKeepsOrder(f, rest);
      InsertKeepsElements(f, rest);
      assert fields == [f] + fields[1..];
      forall k
        ensures OfKey(StableSort(fields), k) == OfKey(fields, k)
      {
        InsertIsStable(f, rest, k);
      }
    }
  }

  /** There is only one such permutation, so any stable sort gives this one. */
  lemma {:induction false} StableOrderIsUnique(a: seq<Field>, b: seq<Field>)
    requires Descending(a) && Descending(b) && forall k :: OfKey(a, k) == OfKey(b, k)
    ensures a == b
    decreases |a|
  {
    var kb := if b == [] then 0 else SortSize(b[0].ty);
    assert OfKey(a, kb) == OfKey(b, kb);
    if a != [] {
      var k := SortSize(a[0].ty);
      assert OfKey(a, k) == OfKey(b, k) && OfKey(a, k)[0] == a[0];
      FirstOfKeyIsInside(b, k);
      assert OfKey(b, kb)[0] == b[0];
      FirstOfKeyIsInside(a, kb);
      assert k == kb;
      forall j
        ensures OfKey(a[1..], j) == OfKey(b[1..], j)
      {
        assert OfKey(a, j) == OfKey(b, j);
        assert [] + OfKey(a[1..], j) == OfKey(a[1..], j) && [] + OfKey(b[1..], j) == OfKey(b[1..], j);
        if j == k { assert OfKey(a, j)[1..] == OfKey(a[1..], j) && OfKey(b, j)[1..] == OfKey(b[1..], j); }
      }
      StableOrderIsUnique(a[1..], b[1..]);
    }
  }

  lemma {:induction false} FirstOfKeyIsInside(fields: seq<Field>, k: nat)
    requires OfKey(fields, k) != []
    ensures OfKey(fields, k)[0] in fields && SortSize(OfKey(fields, k)[0].ty) == k
    decreases |fields|
  {
    if SortSize(fields[0].ty) != k { FirstOfKeyIsInside(fields[1..], k); }
  }

  // ------------------------------------------------------------------ the layout, without a cache

  function PadIf(index: nat, gap: nat): seq<LaidOutField> {
    if gap > 0 then [Padding(index, gap)] else []
  }

  /** The gap the layout leaves before a field at `pos`: only nested messages are aligned. */
  function GapBefore(f: Field, pos: nat): (gap: nat)
    ensures gap < ALIGN_TO
    ensures f.ty.IsNested() ==> (pos + gap) % ALIGN_TO == 0
  {
    if f.ty.IsNested() then AlignGap(pos, ALIGN_TO) else 0
  }

  /** The fields and the end position, from `pos` on and with `pads` paddings placed so far. */
  datatype Placed = Placed(fields: seq<LaidOutField>, end: nat)

  ghost function Place(dir: Dir, rank: Rank, rest: seq<Field>, bound: nat, pos: nat, pads: nat): Result<Placed, ParseError>
    requires Acyclic(dir, rank) && Below(dir, rank, rest, bound)
    decreases bound, 2, |rest|
  {
    if rest == [] then
      var tail := AlignGap(pos, ALIGN_TO);
      Ok(Placed(PadIf(pads, tail), pos + tail))
    else
      match FieldSize(dir, rank, rest[0], bound)
      case Err(e) => Err(e)
      case Ok(size) =>
        var gap := GapBefore(rest[0], pos);
        match Place(dir, rank, rest[1..], bound, pos + gap + size, if gap > 0 then pads + 1 else pads)
        case Err(e) => Err(e)
        case Ok(more) => Ok(Placed(PadIf(pads, gap) + ([Real(rest[0])] + more.fields), more.end))
  }

  /** Size of a field whose element takes `size` bytes. */
  function Scaled(ty: FieldType, size: nat): nat {
    match ty
    case ScalarArray(_, n) => Arith.MulNonNegative(size, n); size * n
    case NestedArray(_, n) => Arith.MulNonNegative(size, n); size * n
    case _ => size
  }

  /** `field_total_size`: element size times array length. */
  ghost function FieldSize(dir: Dir, rank: Rank, f: Field, bound: nat): Result<nat, ParseError>
    requires Acyclic(dir, rank) && RefersBelow(dir, rank, f, bound)
    decreases bound, 1, 0
  {
    if !f.ty.IsNested() then Ok(Scaled(f.ty, f.ty.scalar.Size()))
    else
      match Lookup(dir, f.ty.msg)
      case Err(e) => Err(e)
      case Ok(def) =>
        match LayoutOf(dir, rank, def, RankOf(rank, f.ty.msg))
        case Err(e) => Err(e)
        case Ok(laid) => Ok(Scaled(f.ty, laid.size))
  }

  lemma SortedBelow(dir: Dir, rank: Rank, fields: seq<Field>, bound: nat)
    requires Below(dir, rank, fields, bound)
    ensures Below(dir, rank, StableSort(fields), bound)
  {
    hide RefersBelow;
    SortIsStable(fields);
    var sorted := StableSort(fields);
    forall i | 0 <= i < |sorted|
      ensures RefersBelow(dir, rank, sorted[i], bound)
    {
      assert sorted[i] in fields;
    }
  }

  /** `layout`, resolving nested messages by plain recursion. */
  ghost function LayoutOf(dir: Dir, rank: Rank, def: MsgDef, bound: nat): Result<LaidOutMsg, ParseError>
    requires Acyclic(dir, rank) && Below(dir, rank, def.fields, bound)
    decreases bound, 3, 0
  {
    SortedBelow(dir, rank, def.fields, bound);
    match Place(dir, rank, StableSort(def.fields), bound, 0, 0)
    case Err(e) => Err(e)
    case Ok(placed) =>
      match MessageHash(dir, rank, def.fields, bound)
      case Err(e) => Err(e)
      case Ok(hash) =>
        Ok(LaidOutMsg(def.name, def.snakeName, placed.fields, def.constants, def.topics, placed.end, hash))
  }

  /** `layout_by_name`, without a cache. */
  ghost function LayoutNamed(dir: Dir, rank: Rank, name: string): Result<LaidOutMsg, ParseError>
    requires Acyclic(dir, rank)
  {
    match Lookup(dir, name)
    case Err(e) => Err(e)
    case Ok(def) => LayoutOf(dir, rank, def, RankOf(rank, name))
  }

  // ------------------------------------------------------------------ shape

  function Reals(fields: seq<LaidOutField>): seq<Field> {
    if fields == [] then []
    else (if fields[0].Real? then [fields[0].field] else []) + Reals(fields[1..])
  }

  /** Index and size of every padding. */
  function Pads(fields: seq<LaidOutField>): seq<(nat, nat)> {
    if fields == [] then []
    else (if fields[0].Padding? then [(fields[0].index, fields[0].size)] else []) + Pads(fields[1..])
  }

  lemma ShapeOfFront(index: nat, gap: nat, f: Field, more: seq<LaidOutField>)
    ensures Reals(PadIf(index, gap) + ([Real(f)] + more)) == [f] + Reals(more)
    ensures Pads(PadIf(index, gap) + ([Real(f)] + more)) == (if gap > 0 then [(index, gap)] else []) + Pads(more)
  {
    var tail := [Real(f)] + more;
    assert tail[1..] == more;
    assert (PadIf(index, gap) + tail)[|PadIf(index, gap)|..] == tail;
    assert [] + tail == tail && [] + Pads(more) == Pads(more);
  }

  ghost predicate AllNested(fields: seq<Field>) {
    forall i :: 0 <= i < |fields| ==> fields[i].ty.IsNested()
  }

  /** A nested message occupies a multiple of 8 bytes, alone or as an array. */
  lemma NestedSizeIsAligned(dir: Dir, rank: Rank, f: Field, bound: nat)
    requires Acyclic(dir, rank) && RefersBelow(dir, rank, f, bound) && f.ty.IsNested()
    requires FieldSize(dir, rank, f, bound).Ok?
    ensures FieldSize(dir, rank, f, bound).value % ALIGN_TO == 0
  {
    hide ParseStr, Place, MessageHash;
    var def := Lookup(dir, f.ty.msg).value;
    var bound' := RankOf(rank, f.ty.msg);
    SortedBelow(dir, rank, def.fields, bound');
    PlacedFields(dir, rank, StableSort(def.fields), bound', 0, 0);
    if f.ty.NestedArray? {
      var size := LayoutOf(dir, rank, def, bound').value.size;
      Arith.MultipleOf(size, f.ty.count, ALIGN_TO);
    }
  }

  lemma PlaceNone(dir: Dir, rank: Rank, bound: nat, pos: nat, pads: nat)
    requires Acyclic(dir, rank)
    ensures Place(dir, rank, [], bound, pos, pads)
         == Ok(Placed(PadIf(pads, AlignGap(pos, ALIGN_TO)), pos + AlignGap(pos, ALIGN_TO)))
    ensures Pads(PadIf(pads, AlignGap(pos, ALIGN_TO))) == if pos % ALIGN_TO == 0 then [] else [(pads, AlignGap(pos, ALIGN_TO))]
    ensures Reals(PadIf(pads, AlignGap(pos, ALIGN_TO))) == []
  {
  }

  /** One turn of the placing loop. */
  lemma PlaceTurn(dir: Dir, rank: Rank, rest: seq<Field>, bound: nat, pos: nat, pads: nat)
    returns (size: nat, gap: nat, pads': nat, more: Placed)
    requires Acyclic(dir, rank) && Below(dir, rank, rest, bound) && rest != []
    requires Place(dir, rank, rest, bound, pos, pads).Ok?
    ensures RefersBelow(dir, rank, rest[0], bound) && Below(dir, rank, rest[1..], bound)
    ensures FieldSize(dir, rank, rest[0], bound) == Ok(size)
    ensures gap == GapBefore(rest[0], pos) && pads' == (if gap > 0 then pads + 1 else pads)
    ensures Place(dir, rank, rest[1..], bound, pos + gap + size, pads') == Ok(more)
    ensures Place(dir, rank, rest, bound, pos, pads)
         == Ok(Placed(PadIf(pads, gap) + ([Real(rest[0])] + more.fields), more.end))
    ensures Reals(Place(dir, rank, rest, bound, pos, pads).value.fields) == [rest[0]] + Reals(more.fields)
    ensures Pads(Place(dir, rank, rest, bound, pos, pads).value.fields)
         == (if gap > 0 then [(pads, gap)] else []) + Pads(more.fields)
  {
    hide FieldSize, GapBefore, PadIf, AlignGap, RefersBelow, Reals, Pads;
    assert RefersBelow(dir, rank, rest[0], bound);
    size := FieldSize(dir, rank, rest[0], bound).value;
    gap := GapBefore(rest[0], pos);
    pads' := if gap > 0 then pads + 1 else pads;
    more := Place(dir, rank, rest[1..], bound, pos + gap + size, pads').value;
    ShapeOfFront(pads, gap, rest[0], more.fields);
  }

  /** Placing emits the given fields in order and ends on a multiple of 8. */
  lemma {:induction false} PlacedFields(dir: Dir, rank: Rank, rest: seq<Field>, bound: nat, pos: nat, pads: nat)
    requires Acyclic(dir, rank) && Below(dir, rank, rest, bound)
    requires Place(dir, rank, rest, bound, pos, pads).Ok?
    ensures var p := Place(dir, rank, rest, bound, pos, pads).value;
            Reals(p.fields) == rest && p.end % ALIGN_TO == 0
    decreases |rest|
  {
    hide FieldSize, Place, GapBefore, PadIf, AlignGap, RefersBelow, Reals, Pads;
    if rest == [] {
      PlaceNone(dir, rank, bound, pos, pads);
    } else {
      var size, gap, pads', more := PlaceTurn(dir, rank, rest, bound, pos, pads);
      PlacedFields(dir, rank, rest[1..], bound, pos + gap + size, pads');
    }
  }

  /** After a nested message come only nested messages. */
  lemma NestedComeLast(rest: seq<Field>)
    requires Descending(rest) && rest != [] && rest[0].ty.IsNested()
    ensures AllNested(rest)
  {
    forall i | 0 <= i < |rest|
      ensures rest[i].ty.IsNested()
    {
      assert i > 0 ==> SortSize(rest[0].ty) >= SortSize(rest[i].ty);
    }
  }

  ghost predicate PadsOk(placed: seq<(nat, nat)>, pads: nat, none: bool) {
    |placed| <= 1 && (placed != [] ==> placed[0].0 == pads && 0 < placed[0].1 < ALIGN_TO) && (none ==> placed == [])
  }

  /** At most one padding is placed, and none once an 8-byte boundary is reached with only nested messages left. */
  lemma {:induction false} PlacedPads(dir: Dir, rank: Rank, rest: seq<Field>, bound: nat, pos: nat, pads: nat)
    requires Acyclic(dir, rank) && Below(dir, rank, rest, bound) && Descending(rest)
    requires Place(dir, rank, rest, bound, pos, pads).Ok?
    ensures PadsOk(Pads(Place(dir, rank, rest, bound, pos, pads).value.fields), pads,
                   AllNested(rest) && pos % ALIGN_TO == 0)
    decreases |rest|
  {
    hide FieldSize, Place, GapBefore, PadIf, AlignGap, RefersBelow, Reals, Pads;
    if rest == [] {
      PlaceNone(dir, rank, bound, pos, pads);
    } else {
      var size, gap, pads', more := PlaceTurn(dir, rank, rest, bound, pos, pads);
      PlacedPads(dir, rank, rest[1..], bound, pos + gap + size, pads');
      GapsOnlyBeforeNested(rest[0], pos);
      if rest[0].ty.IsNested() {
        NestedComeLast(rest);
        NestedSizeIsAligned(dir, rank, rest[0], bound);
        Arith.SumOfMultiples(pos + gap, size, ALIGN_TO);
      }
    }
  }

  lemma GapsOnlyBeforeNested(f: Field, pos: nat)
    ensures GapBefore(f, pos) > 0 ==> f.ty.IsNested() && pos % ALIGN_TO != 0
  {
  }

  /**
    The shape of a layout.  The emitted fields are the declared ones, in the one stable order
    of non-increasing element size with nested messages last; the size is a multiple of 8; and
    at most one padding, shorter than 8 bytes, is inserted, however many messages are nested.
   */
  lemma LayoutShape(dir: Dir, rank: Rank, def: MsgDef, bound: nat)
    requires Acyclic(dir, rank) && Below(dir, rank, def.fields, bound)
    requires LayoutOf(dir, rank, def, bound).Ok?
    ensures var laid := LayoutOf(dir, rank, def, bound).value;
            && Descending(Reals(laid.fields))
            && (forall k :: OfKey(Reals(laid.fields), k) == OfKey(def.fields, k))
            && laid.size % ALIGN_TO == 0
            && (Pads(laid.fields) == []
                || exists size: nat :: Pads(laid.fields) == [(0, size)] && 0 < size < ALIGN_TO)
  {
    hide Place, StableSort;
    SortIsStable(def.fields);
    SortedBelow(dir, rank, def.fields, bound);
    PlacedFields(dir, rank, StableSort(def.fields), bound, 0, 0);
    PlacedPads(dir, rank, StableSort(def.fields), bound, 0, 0);
    var placed := Pads(LayoutOf(dir, rank, def, bound).value.fields);
    if placed != [] {
      assert placed == [(0, placed[0].1)];
    }
  }
}
