/**
  Message directories and the flattened string that PX4 hashes: one `<type> <name>` line a
  field in declaration order, with the lines of a nested message spliced in after its field.
 */
module Flatten {
  import opened Prelude
  import opened MsgModel
  import opened Text
  import opened Parser
  import Fnv

  /** The search path, as the text found for each message name. */
  type Dir = map<string, string>

  /** `find` followed by `parse_file`. */
  function Lookup(dir: Dir, name: string): Result<MsgDef, ParseError> {
    if name in dir then ParseStr(name, dir[name]) else Err(UnresolvedNested(name))
  }

  /** A rank for every message of the directory, witnessing that nesting has no cycle. */
  type Rank = map<string, nat>

  ghost function RankOf(rank: Rank, name: string): nat {
    if name in rank then rank[name] else 0
  }

  ghost predicate RefersBelow(dir: Dir, rank: Rank, f: Field, bound: nat) {
    f.ty.IsNested() && f.ty.msg in dir ==> RankOf(rank, f.ty.msg) < bound
  }

  /** Every message these fields nest has a rank below `bound`. */
  ghost predicate Below(dir: Dir, rank: Rank, fields: seq<Field>, bound: nat) {
    forall i :: 0 <= i < |fields| ==> RefersBelow(dir, rank, fields[i], bound)
  }

  ghost predicate Acyclic(dir: Dir, rank: Rank) {
    forall name :: name in dir && Lookup(dir, name).Ok? ==>
      Below(dir, rank, Lookup(dir, name).value.fields, RankOf(rank, name))
  }

  /** `message_hash_fields`. */
  ghost function Flat(dir: Dir, rank: Rank, fields: seq<Field>, bound: nat): Result<string, ParseError>
    requires Acyclic(dir, rank) && Below(dir, rank, fields, bound)
    decreases bound, |fields| + 1
  {
    if fields == [] then Ok("")
    else
      match Splice(dir, rank, fields[0], bound)
      case Err(e) => Err(e)
      case Ok(splice) =>
        match Flat(dir, rank, fields[1..], bound)
        case Err(e) => Err(e)
        case Ok(rest) => Ok(FieldLine(fields[0]) + "\n" + (splice + rest))
  }

  /** What follows the line of `f`: for a nested message its own flattened fields, once whatever the array count. */
  ghost function Splice(dir: Dir, rank: Rank, f: Field, bound: nat): Result<string, ParseError>
    requires Acyclic(dir, rank) && RefersBelow(dir, rank, f, bound)
    decreases bound, 0
  {
    if !f.ty.IsNested() then Ok("")
    else
      match Lookup(dir, f.ty.msg)
      case Err(e) => Err(e)
      case Ok(def) => Flat(dir, rank, def.fields, RankOf(rank, f.ty.msg))
  }

  /** Text appended to what was there before. */
  function Onto(prefix: string, text: Result<string, ParseError>): Result<string, ParseError> {
    match text
    case Err(e) => Err(e)
    case Ok(s) => Ok(prefix + s)
  }

  /** One turn of the loop: the line of the first field, its splice, then the rest. */
  lemma FlatTurn(dir: Dir, rank: Rank, fields: seq<Field>, bound: nat, out: string)
    requires Acyclic(dir, rank) && Below(dir, rank, fields, bound) && fields != []
    ensures RefersBelow(dir, rank, fields[0], bound)
    ensures var splice := Onto(out + (FieldLine(fields[0]) + "\n"), Splice(dir, rank, fields[0], bound));
            Onto(out, Flat(dir, rank, fields, bound))
            == if splice.Err? then splice else Onto(splice.value, Flat(dir, rank, fields[1..], bound))
  {
    hide Splice, FieldLine, ParseStr, Lookup;
    assert RefersBelow(dir, rank, fields[0], bound);
    var line := FieldLine(fields[0]) + "\n";
    var splice, rest := Splice(dir, rank, fields[0], bound), Flat(dir, rank, fields[1..], bound);
    if splice.Ok? && rest.Ok? {
      assert out + (line + (splice.value + rest.value)) == out + line + splice.value + rest.value;
    }
  }

  /** `message_hash_fields` as it is written: a loop over the fields appending to `out`. */
  method MessageHashFields(dir: Dir, ghost rank: Rank, fields: seq<Field>, ghost bound: nat, prefix: string)
    returns (result: Result<string, ParseError>)
    requires Acyclic(dir, rank) && Below(dir, rank, fields, bound)
    ensures result == Onto(prefix, Flat(dir, rank, fields, bound))
    decreases bound, |fields|
  {
    hide ParseStr, FieldLine, Flat;
    var out := prefix;
    var i := 0;
    assert fields[0..] == fields;
    while i < |fields|
      invariant i <= |fields|
      invariant Onto(out, Flat(dir, rank, fields[i..], bound)) == Onto(prefix, Flat(dir, rank, fields, bound))
    {
      var field := fields[i];
      FlatTurn(dir, rank, fields[i..], bound, out);
      assert fields[i..][1..] == fields[i + 1..];
      out := out + (FieldLine(field) + "\n");
      if field.ty.IsNested() {
        match Lookup(dir, field.ty.msg) {
          case Err(e) => return Err(e);
          case Ok(nested) =>
            var spliced := MessageHashFields(dir, rank, nested.fields, RankOf(rank, field.ty.msg), out);
            match spliced {
              case Err(e) => return Err(e);
              case Ok(text) => out := text;
            }
        }
      } else {
        assert out + "" == out;
      }
      i := i + 1;
    }
    NothingLeft(dir, rank, fields[i..], bound, out);
    return Ok(out);
  }

  lemma NothingLeft(dir: Dir, rank: Rank, fields: seq<Field>, bound: nat, out: string)
    requires Acyclic(dir, rank) && Below(dir, rank, fields, bound) && fields == []
    ensures Onto(out, Flat(dir, rank, fields, bound)) == Ok(out)
  {
    assert out + "" == out;
  }

  // ------------------------------------------------------------------ unique decoding

  /** Texts that begin with a line agree on that line and on what follows it. */
  lemma LinesAgree(a: string, x: string, b: string, y: string)
    requires '\n' !in a && '\n' !in b && a + "\n" + x == b + "\n" + y
    ensures a == b && x == y
  {
    var s := a + "\n" + x;
    IndexOfIs(s, '\n', |a|);
    IndexOfIs(s, '\n', |b|);
    assert s[..|a|] == a && s[..|b|] == b;
    assert s[|a| + 1..] == x && s[|b| + 1..] == y;
  }

  lemma SameLineSameField(f: Field, g: Field)
    requires WellFormed(f) && WellFormed(g) && FieldLine(f) == FieldLine(g)
    ensures f == g
  {
    hide ParseLine;
    FieldLineRoundTrips(f);
    FieldLineRoundTrips(g);
  }

  lemma {:induction false} FlatIsInjective(dir: Dir, rank: Rank, a: seq<Field>, b: seq<Field>, bound: nat)
    requires Acyclic(dir, rank) && Below(dir, rank, a, bound) && Below(dir, rank, b, bound)
    requires AllWellFormed(a) && AllWellFormed(b)
    requires Flat(dir, rank, a, bound).Ok? && Flat(dir, rank, a, bound) == Flat(dir, rank, b, bound)
    ensures a == b
    decreases |a|
  {
    hide ParseStr, FieldLine, ParseLine, Splice;
    if a != [] && b != [] {
      var f, g := a[0], b[0];
      var sf, sg := Splice(dir, rank, f, bound).value, Splice(dir, rank, g, bound).value;
      var ra, rb := Flat(dir, rank, a[1..], bound).value, Flat(dir, rank, b[1..], bound).value;
      FieldLineHasNoNewline(f);
      FieldLineHasNoNewline(g);
      LinesAgree(FieldLine(f), sf + ra, FieldLine(g), sg + rb);
      SameLineSameField(f, g);
      assert (sf + ra)[|sf|..] == ra && (sf + rb)[|sf|..] == rb;
      FlatIsInjective(dir, rank, a[1..], b[1..], bound);
    }
  }

  /**
    The hash input is uniquely decodable.  Under one acyclic directory, two messages parsed
    from any texts whose flattened strings are equal have equal field lists: same names,
    same types, same order.
   */
  lemma HashInputDeterminesFields(dir: Dir, rank: Rank, m1: string, text1: string, m2: string, text2: string, bound: nat)
    requires Acyclic(dir, rank)
    requires ParseStr(m1, text1).Ok? && Below(dir, rank, ParseStr(m1, text1).value.fields, bound)
    requires ParseStr(m2, text2).Ok? && Below(dir, rank, ParseStr(m2, text2).value.fields, bound)
    ensures var d1, d2 := ParseStr(m1, text1).value, ParseStr(m2, text2).value;
            Flat(dir, rank, d1.fields, bound).Ok? && Flat(dir, rank, d1.fields, bound) == Flat(dir, rank, d2.fields, bound)
            ==> d1.fields == d2.fields
  {
    hide ParseStr;
    ParsedFieldsAreWellFormed(m1, text1);
    ParsedFieldsAreWellFormed(m2, text2);
    var d1, d2 := ParseStr(m1, text1).value, ParseStr(m2, text2).value;
    if Flat(dir, rank, d1.fields, bound).Ok? && Flat(dir, rank, d1.fields, bound) == Flat(dir, rank, d2.fields, bound) {
      FlatIsInjective(dir, rank, d1.fields, d2.fields, bound);
    }
  }

  // ------------------------------------------------------------------ the hash

  /** The UTF-8 encoding of one character, `bytes` of a string. */
  function Utf8Char(c: char): seq<Fnv.Byte> {
    var n := c as int;
    if n < 0x80 then [n]
    else if n < 0x800 then [0xC0 + n / 64, 0x80 + n % 64]
    else if n < 0x1_0000 then [0xE0 + n / 4096, 0x80 + n / 64 % 64, 0x80 + n % 64]
    else [0xF0 + n / 262144, 0x80 + n / 4096 % 64, 0x80 + n / 64 % 64, 0x80 + n % 64]
  }

  function Utf8(s: string): seq<Fnv.Byte> {
    if s == "" then [] else Utf8Char(s[0]) + Utf8(s[1..])
  }

  /** `message_hash`. */
  ghost function MessageHash(dir: Dir, rank: Rank, fields: seq<Field>, bound: nat): Result<nat, ParseError>
    requires Acyclic(dir, rank) && Below(dir, rank, fields, bound)
  {
    match Flat(dir, rank, fields, bound)
    case Err(e) => Err(e)
    case Ok(s) => Ok(Fnv.Hash(Utf8(s)))
  }
}
