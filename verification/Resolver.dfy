/**
  The resolver: `layout` and `layout_by_name` with their memoising cache, proved to return
  what the cache-free recursion of module Layout returns.
 */
module Resolvers {
  import opened Prelude
  import opened MsgModel
  import opened Parser
  import opened Flatten
  import opened Layout
  import Fnv
  import Arith

  class Resolver {
    const dir: Dir
    ghost const rank: Rank
    var cache: map<string, LaidOutMsg>

    constructor (dir: Dir, ghost rank: Rank)
      requires Acyclic(dir, rank)
      ensures this.dir == dir && this.rank == rank && cache == map[] && CacheOk()
    {
      this.dir := dir;
      this.rank := rank;
      cache := map[];
    }

    /** An entry is what resolving its name without a cache gives. */
    ghost predicate EntryOk(name: string)
      requires Acyclic(dir, rank) && name in cache
      reads this
    {
      LayoutNamed(dir, rank, name) == Ok(cache[name])
    }

    ghost predicate CacheOk()
      reads this
    {
      && Acyclic(dir, rank)
      && forall name :: name in cache ==> EntryOk(name)
    }

    /**
      `layout_by_name`.  A cached name gives what is cached.  From a correct cache the result is
      that of the cache-free layout, and the cache is correct afterwards even when it is an error.
     */
    method LayoutByName(name: string, ghost bound: nat) returns (result: Result<LaidOutMsg, ParseError>)
      requires Acyclic(dir, rank) && (name in dir ==> RankOf(rank, name) < bound)
      modifies this`cache
      ensures old(cache.Keys) <= cache.Keys
      ensures name in old(cache) ==> result == Ok(old(cache)[name]) && cache == old(cache)
      ensures old(CacheOk()) ==> CacheOk() && result == LayoutNamed(dir, rank, name)
      ensures result.Ok? ==> name in cache && cache[name] == result.value
      ensures old(CacheOk()) ==> (result.Ok? <==> name in cache)
      decreases bound, 0
    {
      hide ParseStr, LayoutOf, Below, Agrees;
      if name in cache {
        assert CacheOk() ==> EntryOk(name);
        return Ok(cache[name]);
      }
      match Lookup(dir, name) {
        case Err(e) => return Err(e);
        case Ok(def) =>
          LookedUpName(dir, name);
          assert Below(dir, rank, def.fields, RankOf(rank, name)) by { assert name in dir; }
          RootResolvesToItself(dir, rank, def, RankOf(rank, name));
          result := Layout(def, RankOf(rank, name));
          assert CacheOk() && name in cache ==> EntryOk(name);
      }
    }

    /** `field_total_size`. */
    method FieldTotalSize(f: Field, ghost bound: nat) returns (result: Result<nat, ParseError>)
      requires Acyclic(dir, rank) && RefersBelow(dir, rank, f, bound)
      modifies this`cache
      ensures old(cache.Keys) <= cache.Keys
      ensures old(CacheOk()) ==> CacheOk() && result == FieldSize(dir, rank, f, bound)
      decreases bound, 1
    {
      hide ParseStr, LayoutOf, Lookup, CacheOk, Acyclic;
      match f.ty {
        case ScalarType(s) => return Ok(s.Size());
        case ScalarArray(s, n) =>
          Arith.MulNonNegative(s.Size(), n);
          return Ok(s.Size() * n);
        case Nested(msg) =>
          var laid := LayoutByName(msg, bound);
          return match laid case Err(e) => Err(e) case Ok(m) => Ok(m.size);
        case NestedArray(msg, n) =>
          var laid := LayoutByName(msg, bound);
          match laid {
            case Err(e) => return Err(e);
            case Ok(m) =>
              Arith.MulNonNegative(m.size, n);
              return Ok(m.size * n);
          }
      }
    }

    /**
      `layout`, for any definition.  From a correct cache the result is that of the cache-free
      layout; afterwards the cache is correct if and only if there was an error or the definition
      agreed beforehand with the one its name resolves to.
     */
    method Layout(def: MsgDef, ghost bound: nat) returns (result: Result<LaidOutMsg, ParseError>)
      requires Acyclic(dir, rank) && Below(dir, rank, def.fields, bound)
      modifies this`cache
      ensures old(cache.Keys) <= cache.Keys
      ensures old(CacheOk()) ==> result == LayoutOf(dir, rank, def, bound)
      ensures result.Ok? ==> def.name in cache && cache[def.name] == result.value
      ensures old(CacheOk()) ==> (CacheOk() <==> LayoutOf(dir, rank, def, bound).Err? || Agrees(dir, rank, def, bound))
      decreases bound, 2
    {
      hide ParseStr, Place, Lookup, StableSort, MessageHash, Below, Acyclic, LayoutNamed, FieldSize, AlignGap, Agrees;
      ghost var ok := CacheOk();
      SortedBelow(dir, rank, def.fields, bound);
      var sorted := StableSort(def.fields);
      var out: seq<LaidOutField> := [];
      var sizeAccum, paddingIdx, i := 0, 0, 0;
      ghost var whole := Place(dir, rank, sorted, bound, 0, 0);
      assert sorted[0..] == sorted;
      BeforeNothing(whole);
      while i < |sorted|
        invariant i <= |sorted| && (ok ==> CacheOk()) && old(cache.Keys) <= cache.Keys
        invariant Below(dir, rank, sorted[i..], bound)
        invariant ok ==> whole == Before(out, Place(dir, rank, sorted[i..], bound, sizeAccum, paddingIdx))
      {
        var field := sorted[i];
        PlaceTurnBefore(dir, rank, sorted[i..], bound, sizeAccum, paddingIdx, out);
        assert sorted[i..][1..] == sorted[i + 1..];
        var fieldSize := FieldTotalSize(field, bound);
        if fieldSize.Err? { return Err(fieldSize.error); }
        assert out + [] == out;
        if field.ty.IsNested() {
          var pad := AlignGap(sizeAccum, ALIGN_TO);
          if pad > 0 {
            out := out + [Padding(paddingIdx, pad)];
            paddingIdx := paddingIdx + 1;
            sizeAccum := sizeAccum + pad;
          }
        }
        out := out + [Real(field)];
        sizeAccum := sizeAccum + fieldSize.value;
        i := i + 1;
      }
      assert sorted[i..] == [];
      PlaceNone(dir, rank, bound, sizeAccum, paddingIdx);
      var tail := AlignGap(sizeAccum, ALIGN_TO);
      assert out + [] == out;
      if tail > 0 {
        out := out + [Padding(paddingIdx, tail)];
        sizeAccum := sizeAccum + tail;
      }
      var messageHash := HashOf(def, bound);
      if messageHash.Err? { return Err(messageHash.error); }
      var laid := LaidOutMsg(def.name, def.snakeName, out, def.constants, def.topics, sizeAccum, messageHash.value);
      if ok { AgreesIffSameLayout(dir, rank, def, bound); }
      cache := cache[def.name := laid];
      result := Ok(laid);
    }

    /** `message_hash`. */
    method HashOf(def: MsgDef, ghost bound: nat) returns (result: Result<nat, ParseError>)
      requires Acyclic(dir, rank) && Below(dir, rank, def.fields, bound)
      ensures result == MessageHash(dir, rank, def.fields, bound)
    {
      hide Below, Acyclic, Flat;
      var s := MessageHashFields(dir, rank, def.fields, bound, "");
      match s {
        case Err(e) => return Err(e);
        case Ok(text) =>
          assert forall t: string :: "" + t == t;
          var hash := Fnv.Fnv1a(Utf8(text));
          return Ok(hash);
      }
    }
  }

  // ------------------------------------------------------------------ the lemmas the methods use

  /** A looked-up definition carries the name it was looked up by. */
  lemma LookedUpName(dir: Dir, name: string)
    requires Lookup(dir, name).Ok?
    ensures name in dir && Lookup(dir, name).value.name == name
  {
    hide ParseStr;
    ParsedFieldsAreWellFormed(name, dir[name]);
  }

  /** What has been emitted already, followed by what is placed next. */
  ghost function Before(out: seq<LaidOutField>, placed: Result<Placed, ParseError>): Result<Placed, ParseError> {
    match placed
    case Err(e) => Err(e)
    case Ok(p) => Ok(Placed(out + p.fields, p.end))
  }

  lemma BeforeNothing(placed: Result<Placed, ParseError>)
    ensures Before([], placed) == placed
  {
    if placed.Ok? { assert [] + placed.value.fields == placed.value.fields; }
  }

  /** One turn of the placing loop, whether or not the field has a size. */
  lemma PlaceTurnBefore(dir: Dir, rank: Rank, rest: seq<Field>, bound: nat, pos: nat, pads: nat, out: seq<LaidOutField>)
    requires Acyclic(dir, rank) && Below(dir, rank, rest, bound) && rest != []
    ensures RefersBelow(dir, rank, rest[0], bound) && Below(dir, rank, rest[1..], bound)
    ensures var size, gap := FieldSize(dir, rank, rest[0], bound), GapBefore(rest[0], pos);
            Before(out, Place(dir, rank, rest, bound, pos, pads))
            == if size.Err? then Err(size.error)
               else Before(out + PadIf(pads, gap) + [Real(rest[0])],
                           Place(dir, rank, rest[1..], bound, pos + gap + size.value, if gap > 0 then pads + 1 else pads))
  {
    hide FieldSize, GapBefore, PadIf, AlignGap, RefersBelow, Acyclic;
    assert RefersBelow(dir, rank, rest[0], bound);
    var size, gap := FieldSize(dir, rank, rest[0], bound), GapBefore(rest[0], pos);
    if size.Ok? {
      var more := Place(dir, rank, rest[1..], bound, pos + gap + size.value, if gap > 0 then pads + 1 else pads);
      if more.Ok? {
        assert out + (PadIf(pads, gap) + ([Real(rest[0])] + more.value.fields))
            == out + PadIf(pads, gap) + [Real(rest[0])] + more.value.fields;
      }
    }
  }

  // ------------------------------------------------------------------ transparency

  lemma {:induction false} PlaceIgnoresBound(dir: Dir, rank: Rank, rest: seq<Field>, b: nat, c: nat, pos: nat, pads: nat)
    requires Acyclic(dir, rank) && Below(dir, rank, rest, b) && Below(dir, rank, rest, c)
    ensures Place(dir, rank, rest, b, pos, pads) == Place(dir, rank, rest, c, pos, pads)
    decreases |rest|
  {
    hide ParseStr, Lookup, LayoutOf, RefersBelow, AlignGap, GapBefore, PadIf;
    if rest != [] {
      assert RefersBelow(dir, rank, rest[0], b) && RefersBelow(dir, rank, rest[0], c);
      var size := FieldSize(dir, rank, rest[0], b);
      assert size == FieldSize(dir, rank, rest[0], c);
      if size.Ok? {
        var gap := GapBefore(rest[0], pos);
        PlaceIgnoresBound(dir, rank, rest[1..], b, c, pos + gap + size.value, if gap > 0 then pads + 1 else pads);
      }
    }
  }

  lemma {:induction false} FlatIgnoresBound(dir: Dir, rank: Rank, fields: seq<Field>, b: nat, c: nat)
    requires Acyclic(dir, rank) && Below(dir, rank, fields, b) && Below(dir, rank, fields, c)
    ensures Flat(dir, rank, fields, b) == Flat(dir, rank, fields, c)
    decreases |fields|
  {
    hide ParseStr, Lookup, FieldLine, RefersBelow;
    if fields != [] {
      assert RefersBelow(dir, rank, fields[0], b) && RefersBelow(dir, rank, fields[0], c);
      FlatIgnoresBound(dir, rank, fields[1..], b, c);
    }
  }

  /** A layout depends on the directory alone, not on the measure that bounds the recursion. */
  lemma LayoutIgnoresBound(dir: Dir, rank: Rank, def: MsgDef, b: nat, c: nat)
    requires Acyclic(dir, rank) && Below(dir, rank, def.fields, b) && Below(dir, rank, def.fields, c)
    ensures LayoutOf(dir, rank, def, b) == LayoutOf(dir, rank, def, c)
  {
    hide ParseStr, Lookup, StableSort, Place, Flat;
    SortedBelow(dir, rank, def.fields, b);
    SortedBelow(dir, rank, def.fields, c);
    PlaceIgnoresBound(dir, rank, StableSort(def.fields), b, c, 0, 0);
    FlatIgnoresBound(dir, rank, def.fields, b, c);
  }

  /**
    The definition agrees with the one its name resolves to in everything a layout is made of:
    snake-case name, constants, topics, the sorted fields, and the hash of the fields as
    declared.  (Two field orders that sort alike can still hash apart.)
   */
  ghost predicate Agrees(dir: Dir, rank: Rank, def: MsgDef, bound: nat)
    requires Acyclic(dir, rank) && Below(dir, rank, def.fields, bound)
  {
    match Lookup(dir, def.name)
    case Err(_) => false
    case Ok(found) =>
      && def.snakeName == found.snakeName && def.constants == found.constants && def.topics == found.topics
      && StableSort(def.fields) == StableSort(found.fields)
      && MessageHash(dir, rank, def.fields, bound) == MessageHash(dir, rank, found.fields, RankOf(rank, def.name))
  }

  /** Equal sorted fields give an equal placement, and only they do. */
  lemma PlacementTellsFields(dir: Dir, rank: Rank, a: seq<Field>, b: seq<Field>, ba: nat, bb: nat)
    requires Acyclic(dir, rank) && Below(dir, rank, a, ba) && Below(dir, rank, b, bb)
    requires Place(dir, rank, a, ba, 0, 0).Ok?
    ensures Place(dir, rank, b, bb, 0, 0) == Place(dir, rank, a, ba, 0, 0) <==> a == b
    ensures Place(dir, rank, b, bb, 0, 0).Ok? && a != b ==>
              Place(dir, rank, b, bb, 0, 0).value.fields != Place(dir, rank, a, ba, 0, 0).value.fields
  {
    hide Place, Reals;
    PlacedFields(dir, rank, a, ba, 0, 0);
    if Place(dir, rank, b, bb, 0, 0).Ok? { PlacedFields(dir, rank, b, bb, 0, 0); }
    if a == b { PlaceIgnoresBound(dir, rank, a, ba, bb, 0, 0); }
  }

  /** A definition has the layout its name resolves to if and only if it agrees with what the name resolves to. */
  lemma AgreesIffSameLayout(dir: Dir, rank: Rank, def: MsgDef, bound: nat)
    requires Acyclic(dir, rank) && Below(dir, rank, def.fields, bound)
    requires LayoutOf(dir, rank, def, bound).Ok?
    ensures LayoutNamed(dir, rank, def.name) == LayoutOf(dir, rank, def, bound) <==> Agrees(dir, rank, def, bound)
  {
    hide ParseStr, Place, StableSort, MessageHash, RefersBelow;
    SortedBelow(dir, rank, def.fields, bound);
    if Lookup(dir, def.name).Ok? {
      LookedUpName(dir, def.name);
      var found, b := Lookup(dir, def.name).value, RankOf(rank, def.name);
      hide Lookup;
      SortedBelow(dir, rank, found.fields, b);
      PlacementTellsFields(dir, rank, StableSort(def.fields), StableSort(found.fields), bound, b);
    }
  }

  /**
    A root definition that is what its name resolves to agrees with it, so `Layout` leaves the
    cache correct: memoisation is transparent for it.
   */
  lemma RootResolvesToItself(dir: Dir, rank: Rank, def: MsgDef, bound: nat)
    requires Acyclic(dir, rank) && Below(dir, rank, def.fields, bound)
    ensures Lookup(dir, def.name) == Ok(def) ==>
              LayoutNamed(dir, rank, def.name) == LayoutOf(dir, rank, def, bound) && Agrees(dir, rank, def, bound)
  {
    hide LayoutOf, ParseStr, MessageHash;
    if Lookup(dir, def.name) == Ok(def) {
      LayoutIgnoresBound(dir, rank, def, bound, RankOf(rank, def.name));
      HashIgnoresBound(dir, rank, def, bound, RankOf(rank, def.name));
    }
  }

  lemma HashIgnoresBound(dir: Dir, rank: Rank, def: MsgDef, b: nat, c: nat)
    requires Acyclic(dir, rank) && Below(dir, rank, def.fields, b) && Below(dir, rank, def.fields, c)
    ensures MessageHash(dir, rank, def.fields, b) == MessageHash(dir, rank, def.fields, c)
  {
    hide Flat, RefersBelow;
    FlatIgnoresBound(dir, rank, def.fields, b, c);
  }

  /**
    A root that its name does not resolve to spoils the cache, and that is seen by later calls:
    over an empty directory the name has no layout, yet after laying out the root
    `layout_by_name` returns one.
   */
  method StaleRootSpoilsCache() returns (resolver: Resolver, name: string, laid: LaidOutMsg)
    ensures resolver.dir == map[] && Acyclic(resolver.dir, resolver.rank)
    ensures LayoutNamed(resolver.dir, resolver.rank, name) == Err(UnresolvedNested(name))
    ensures name in resolver.cache && resolver.cache[name] == laid && laid.name == name
    ensures !resolver.CacheOk()
  {
    resolver := new Resolver(map[], map[]);
    name := "Odd";
    var def := MsgDef(name, "odd", [], [], ["odd"], None);
    var first := resolver.Layout(def, 0);
    assert first.Ok? by { EmptyLayout(def); }
    var second := resolver.LayoutByName(name, 1);
    laid := second.value;
    assert !resolver.EntryOk(name);
  }

  lemma EmptyLayout(def: MsgDef)
    requires def.fields == []
    ensures LayoutOf(map[], map[], def, 0).Ok?
  {
    hide Lookup;
  }
}
