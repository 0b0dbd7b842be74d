/** The line-based parser of `.msg` files, and the field lines it inverts. */
module Parser {
  import opened Prelude
  import opened MsgModel
  import opened Text

  const USIZE_MAX: nat := 0xFFFF_FFFF_FFFF_FFFF
  const U32_MAX: nat := 0xFFFF_FFFF

  predicate IsCamelCase(s: string) {
    s != "" && IsUpper(s[0]) && forall i :: 0 <= i < |s| ==> IsAlphanumeric(s[i]) || s[i] == '_'
  }

  /** `parse_field_type`. */
  function ParseFieldType(tok: string): Option<FieldType> {
    var open := IndexOf(tok, '[');
    if open < |tok| then
      if tok[|tok| - 1] != ']' then None
      else
        var base := tok[..open];
        match ParseUnsigned(tok[open + 1..|tok| - 1], USIZE_MAX)
        case None => None
        case Some(n) =>
          match ParseScalar(base)
          case Some(s) => Some(ScalarArray(s, n))
          case None => if IsCamelCase(base) then Some(NestedArray(base, n)) else None
    else
      match ParseScalar(tok)
      case Some(s) => Some(ScalarType(s))
      case None => if IsCamelCase(tok) then Some(Nested(tok)) else None
  }

  /** What one line contributes. */
  datatype Item =
    | Nothing
    | TopicList(names: seq<string>)
    | ConstantItem(constant: Constant)
    | FieldItem(field: Field)

  function ParseConstant(code: string, eq: nat): Result<Item, SyntaxFault>
    requires eq < |code|
  {
    var words := Words(Trim(code[..eq]));
    if |words| == 0 then Err(MissingConstantType)
    else if |words| == 1 then Err(MissingConstantName)
    else if |words| > 2 then Err(ExtraConstantTokens)
    else
      match ParseScalar(words[0])
      case None => Err(ConstantTypeNotScalar)
      case Some(ty) => Ok(ConstantItem(Constant(ty, words[1], Trim(code[eq + 1..]))))
  }

  function ParseField(code: string): Result<Item, SyntaxFault> {
    var words := Words(code);
    if |words| == 0 then Err(EmptyFieldLine)
    else if |words| == 1 then Err(MissingFieldName)
    else if |words| > 2 then Err(ExtraFieldTokens)
    else
      match ParseFieldType(words[0])
      case None => Err(UnknownFieldType)
      case Some(ty) => Ok(FieldItem(Field(words[1], ty)))
  }

  /** A line that begins with `#`: a `# TOPICS` directive or a comment. */
  function ParseHash(trimmed: string): Result<Item, SyntaxFault>
    requires trimmed != ""
  {
    var rest := Trim(trimmed[1..]);
    if "TOPICS" <= rest then
      var names := Words(rest[6..]);
      if names == [] then Err(TopicsWithoutNames) else Ok(TopicList(names))
    else Ok(Nothing)
  }

  function StripComment(trimmed: string): string {
    var hash := IndexOf(trimmed, '#');
    if hash < |trimmed| then Trim(trimmed[..hash]) else trimmed
  }

  function ParseLine(raw: string): Result<Item, SyntaxFault> {
    var trimmed := Trim(raw);
    if trimmed != "" && trimmed[0] == '#' then ParseHash(trimmed)
    else
      var code := StripComment(trimmed);
      var eq := IndexOf(code, '=');
      if code == "" then Ok(Nothing)
      else if eq < |code| then ParseConstant(code, eq)
      else ParseField(code)
  }

  datatype Parsed = Parsed(fields: seq<Field>, constants: seq<Constant>, topics: Option<seq<string>>)

  function Add(acc: Parsed, item: Item): Parsed {
    match item
    case Nothing => acc
    case TopicList(names) => acc.(topics := Some(names))
    case ConstantItem(c) => acc.(constants := acc.constants + [c])
    case FieldItem(f) => acc.(fields := acc.fields + [f])
  }

  /** Parses `lines`, the first of which is line `number` of the file. */
  function ParseLines(lines: seq<string>, number: nat, acc: Parsed): Result<Parsed, ParseError> {
    if lines == [] then Ok(acc)
    else
      match ParseLine(lines[0])
      case Err(fault) => Err(Syntax(number, fault))
      case Ok(item) => ParseLines(lines[1..], number + 1, Add(acc, item))
  }

  // ------------------------------------------------------------------ names and versions

  function ToLower(c: char): char {
    if IsUpper(c) then (c as int + 32) as char else c
  }

  /** An underscore goes before an upper-case letter that follows a lower-case one, or that ends an acronym. */
  predicate NeedsUnderscore(s: string, i: nat)
    requires i < |s| && IsUpper(s[i])
  {
    i > 0 && (IsLower(s[i - 1]) || (IsUpper(s[i - 1]) && i + 1 < |s| && IsLower(s[i + 1])))
  }

  /** What letter `i` becomes. */
  function SnakePiece(s: string, i: nat): string
    requires i < |s|
  {
    if IsUpper(s[i]) && NeedsUnderscore(s, i) then ['_', ToLower(s[i])] else [ToLower(s[i])]
  }

  function SnakeFrom(s: string, i: nat): string
    requires i <= |s|
    decreases |s| - i
  {
    if i == |s| then "" else SnakePiece(s, i) + SnakeFrom(s, i + 1)
  }

  function CamelToSnake(s: string): string { SnakeFrom(s, 0) }

  method BuildSnake(s: string) returns (out: string)
    ensures out == CamelToSnake(s)
  {
    hide NeedsUnderscore, SnakeFrom;
    out := "";
    assert "" + SnakeFrom(s, 0) == SnakeFrom(s, 0);
    for i := 0 to |s|
      invariant out + SnakeFrom(s, i) == CamelToSnake(s)
    {
      ghost var before := out;
      if IsUpper(s[i]) {
        if NeedsUnderscore(s, i) {
          out := out + "_";
        }
        out := out + [ToLower(s[i])];
      } else {
        out := out + [s[i]];
      }
      assert out == before + SnakePiece(s, i);
      SnakeTurn(s, i, before);
    }
    NothingAfterLast(s, out);
  }

  lemma SnakeTurn(s: string, i: nat, before: string)
    requires i < |s|
    ensures before + SnakeFrom(s, i) == before + SnakePiece(s, i) + SnakeFrom(s, i + 1)
  {
    hide SnakePiece;
    Regroup(before, SnakePiece(s, i), SnakeFrom(s, i + 1));
  }

  lemma NothingAfterLast(s: string, out: string)
    ensures out + SnakeFrom(s, |s|) == out
  {
  }

  /** The value of the first constant named MESSAGE_VERSION, if it is a u32. */
  function MessageVersion(constants: seq<Constant>): Option<nat> {
    if constants == [] then None
    else if constants[0].name == "MESSAGE_VERSION" then ParseUnsigned(Trim(constants[0].value), U32_MAX)
    else MessageVersion(constants[1..])
  }

  function Finish(name: string, parsed: Parsed): MsgDef {
    var snake := CamelToSnake(name);
    MsgDef(name, snake, parsed.fields, parsed.constants,
           if parsed.topics.Some? then parsed.topics.value else [snake], MessageVersion(parsed.constants))
  }

  /** `parse_str`. */
  function ParseStr(name: string, text: string): Result<MsgDef, ParseError> {
    match ParseLines(Lines(text), 1, Parsed([], [], None))
    case Err(e) => Err(e)
    case Ok(parsed) => Ok(Finish(name, parsed))
  }

  /** `parse_str` as the loop over lines that it is. */
  method ParseText(name: string, text: string) returns (result: Result<MsgDef, ParseError>)
    ensures result == ParseStr(name, text)
  {
    hide ParseLine;
    var fields: seq<Field> := [];
    var constants: seq<Constant> := [];
    var topics: Option<seq<string>> := None;
    var lines := Lines(text);
    var number := 0;
    while number < |lines|
      invariant number <= |lines|
      invariant ParseLines(lines[number..], number + 1, Parsed(fields, constants, topics))
                == ParseLines(lines, 1, Parsed([], [], None))
    {
      assert lines[number..][1..] == lines[number + 1..];
      match ParseLine(lines[number]) {
        case Err(fault) => return Err(Syntax(number + 1, fault));
        case Ok(Nothing) =>
        case Ok(TopicList(names)) => topics := Some(names);
        case Ok(ConstantItem(c)) => constants := constants + [c];
        case Ok(FieldItem(f)) => fields := fields + [f];
      }
      number := number + 1;
    }
    var snake := BuildSnake(name);
    var version := MessageVersion(constants);
    return Ok(MsgDef(name, snake, fields, constants, if topics.Some? then topics.value else [snake], version));
  }

  // ------------------------------------------------------------------ field lines

  predicate WellFormedType(ty: FieldType) {
    match ty
    case ScalarType(_) => true
    case ScalarArray(_, n) => n <= USIZE_MAX
    case Nested(msg) => IsCamelCase(msg)
    case NestedArray(msg, n) => IsCamelCase(msg) && n <= USIZE_MAX
  }

  /** A field as the parser produces it. */
  ghost predicate WellFormed(f: Field) {
    WellFormedType(f.ty) && f.name != "" && Spaceless(f.name) && '#' !in f.name && '=' !in f.name
  }

  ghost predicate AllWellFormed(fields: seq<Field>) {
    forall i :: 0 <= i < |fields| ==> WellFormed(fields[i])
  }

  function TypeToken(ty: FieldType): string {
    match ty
    case ScalarType(s) => s.Px4Name()
    case ScalarArray(s, n) => s.Px4Name() + ("[" + Decimal(n) + "]")
    case Nested(msg) => msg
    case NestedArray(msg, n) => msg + ("[" + Decimal(n) + "]")
  }

  function FieldLine(f: Field): string {
    TypeToken(f.ty) + (" " + f.name)
  }

  function PrintFields(fields: seq<Field>): string {
    if fields == [] then "" else FieldLine(fields[0]) + "\n" + PrintFields(fields[1..])
  }

  // ------------------------------------------------------------------ what the parser produces

  lemma ParsedTypeIsWellFormed(tok: string)
    ensures ParseFieldType(tok).Some? ==> WellFormedType(ParseFieldType(tok).value)
  {
  }

  lemma StrippedHasNoHash(trimmed: string)
    ensures '#' !in StripComment(trimmed)
  {
    var hash := IndexOf(trimmed, '#');
    if hash < |trimmed| {
      TrimIsPart(trimmed[..hash]);
    }
  }

  lemma ParsedFieldIsWellFormed(code: string)
    requires '#' !in code && '=' !in code
    ensures ParseField(code).Ok? ==> ParseField(code).value.FieldItem? && WellFormed(ParseField(code).value.field)
  {
    hide ParseFieldType, Words, IsSpace;
    var words := Words(code);
    if |words| == 2 {
      ParsedTypeIsWellFormed(words[0]);
      WordsAreWords(code);
      assert WordOf(words[1], code);
    }
  }

  lemma ParsedLineIsWellFormed(raw: string)
    ensures ParseLine(raw).Ok? && ParseLine(raw).value.FieldItem? ==> WellFormed(ParseLine(raw).value.field)
  {
    hide ParseField, StripComment, Trim, Words, TrimStart, TrimEnd, IsSpace;
    var code := StripComment(Trim(raw));
    StrippedHasNoHash(Trim(raw));
    if '=' !in code {
      ParsedFieldIsWellFormed(code);
    }
  }

  lemma {:induction false} ParsedLinesAreWellFormed(lines: seq<string>, number: nat, acc: Parsed)
    requires AllWellFormed(acc.fields)
    ensures var r := ParseLines(lines, number, acc); r.Ok? ==> AllWellFormed(r.value.fields)
  {
    hide ParseLine;
    if lines != [] && ParseLine(lines[0]).Ok? {
      ParsedLineIsWellFormed(lines[0]);
      ParsedLinesAreWellFormed(lines[1..], number + 1, Add(acc, ParseLine(lines[0]).value));
    }
  }

  /** Every field of a parsed message is well-formed. */
  lemma ParsedFieldsAreWellFormed(name: string, text: string)
    ensures var r := ParseStr(name, text); r.Ok? ==> r.value.name == name && AllWellFormed(r.value.fields)
  {
    ParsedLinesAreWellFormed(Lines(text), 1, Parsed([], [], None));
  }

  // ------------------------------------------------------------------ printing and parsing again

  predicate TokenChar(c: char) {
    IsAlphanumeric(c) || c == '_' || c == '[' || c == ']'
  }

  ghost predicate IsToken(s: string) {
    s != "" && IsAlphanumeric(s[0]) && forall i :: 0 <= i < |s| ==> TokenChar(s[i])
  }

  lemma ScalarNameIsToken(s: Scalar)
    ensures IsToken(s.Px4Name()) && '[' !in s.Px4Name() && !IsUpper(s.Px4Name()[0])
  {
  }

  lemma TypeTokenIsToken(ty: FieldType)
    requires WellFormedType(ty)
    ensures IsToken(TypeToken(ty))
  {
    if ty.ScalarType? || ty.ScalarArray? { ScalarNameIsToken(ty.scalar); }
  }

  /** An array token splits at its bracket into the base and the printed count. */
  lemma ArrayTokenSplits(base: string, n: nat)
    requires '[' !in base && n <= USIZE_MAX
    ensures var tok := base + ("[" + Decimal(n) + "]");
            && IndexOf(tok, '[') == |base|
            && tok[|tok| - 1] == ']'
            && tok[..|base|] == base
            && ParseUnsigned(tok[|base| + 1..|tok| - 1], USIZE_MAX) == Some(n)
  {
    hide ParseUnsigned;
    var tok := base + ("[" + Decimal(n) + "]");
    assert forall j :: 0 <= j < |base| ==> tok[j] == base[j];
    IndexOfIs(tok, '[', |base|);
    assert tok[|base| + 1..|tok| - 1] == Decimal(n);
    DecimalRoundTrips(n, USIZE_MAX);
  }

  lemma ArrayTokenParses(base: string, n: nat)
    requires '[' !in base && n <= USIZE_MAX
    ensures ParseFieldType(base + ("[" + Decimal(n) + "]"))
         == match ParseScalar(base)
            case Some(s) => Some(ScalarArray(s, n))
            case None => if IsCamelCase(base) then Some(NestedArray(base, n)) else None
  {
    hide ParseScalar, ParseUnsigned, IsCamelCase, Decimal, IndexOf;
    ArrayTokenSplits(base, n);
  }

  lemma PlainTokenParses(tok: string)
    requires '[' !in tok
    ensures ParseFieldType(tok)
         == match ParseScalar(tok)
            case Some(s) => Some(ScalarType(s))
            case None => if IsCamelCase(tok) then Some(Nested(tok)) else None
  {
    hide ParseScalar, ParseUnsigned, IsCamelCase;
    IndexOfIs(tok, '[', |tok|);
  }

  lemma NotAScalarName(s: string)
    requires IsCamelCase(s)
    ensures ParseScalar(s) == None && '[' !in s
  {
    if ParseScalar(s).Some? {
      ScalarTokensRoundTrip(ParseScalar(s).value, s);
      ScalarNameIsToken(ParseScalar(s).value);
    }
  }

  /** Printing a type and parsing the token gives the type back. */
  lemma TypeTokenRoundTrips(ty: FieldType)
    requires WellFormedType(ty)
    ensures ParseFieldType(TypeToken(ty)) == Some(ty)
  {
    hide ParseFieldType, ParseScalar, IsCamelCase, Decimal;
    match ty
    case ScalarType(s) =>
      ScalarNameIsToken(s);
      ScalarTokensRoundTrip(s, "");
      PlainTokenParses(s.Px4Name());
    case ScalarArray(s, n) =>
      ScalarNameIsToken(s);
      ScalarTokensRoundTrip(s, "");
      ArrayTokenParses(s.Px4Name(), n);
    case Nested(msg) =>
      NotAScalarName(msg);
      PlainTokenParses(msg);
    case NestedArray(msg, n) =>
      NotAScalarName(msg);
      ArrayTokenParses(msg, n);
  }

  lemma TokenIsPlain(s: string)
    requires IsToken(s)
    ensures Spaceless(s) && '#' !in s && '=' !in s
  {
  }

  /** A line of two plain words passes trimming and comment stripping unchanged and holds no `=`. */
  lemma PlainLine(a: string, b: string)
    requires IsToken(a) && b != "" && Spaceless(b) && '#' !in b && '=' !in b
    ensures var line := a + (" " + b);
            && Trim(line) == line && line != "" && line[0] != '#'
            && IndexOf(line, '#') == |line| && IndexOf(line, '=') == |line|
  {
    hide Trim, IsSpace;
    var line := a + (" " + b);
    TokenIsPlain(a);
    assert line[0] == a[0] && line[|line| - 1] == b[|b| - 1];
    TrimIsIdentity(line);
    forall j | 0 <= j < |line|
      ensures line[j] != '#' && line[j] != '='
    {
      if j < |a| { assert line[j] == a[j]; } else if j > |a| { assert line[j] == b[j - |a| - 1]; }
    }
    IndexOfIs(line, '#', |line|);
    IndexOfIs(line, '=', |line|);
  }

  /** Printing a field and parsing the line gives the field back. */
  lemma FieldLineRoundTrips(f: Field)
    requires WellFormed(f)
    ensures ParseLine(FieldLine(f)) == Ok(FieldItem(f))
  {
    hide ParseFieldType, TypeToken, Words, Trim, IsSpace, IsToken;
    var tok := TypeToken(f.ty);
    TypeTokenIsToken(f.ty);
    TypeTokenRoundTrips(f.ty);
    TokenIsPlain(tok);
    PlainLine(tok, f.name);
    assert tok != "" by { TokenIsNotEmpty(tok); }
    TwoWords(tok, f.name);
  }

  lemma TokenIsNotEmpty(s: string)
    requires IsToken(s)
    ensures s != ""
  {
  }

  lemma FieldLineHasNoNewline(f: Field)
    requires WellFormed(f)
    ensures '\n' !in FieldLine(f)
  {
    TypeTokenIsToken(f.ty);
  }

  lemma FieldLineAddsField(f: Field, lines: seq<string>, number: nat, acc: Parsed)
    requires WellFormed(f)
    ensures ParseLines([FieldLine(f)] + lines, number, acc)
         == ParseLines(lines, number + 1, acc.(fields := acc.fields + [f]))
  {
    hide ParseLine, FieldLine;
    FieldLineRoundTrips(f);
    assert ([FieldLine(f)] + lines)[1..] == lines;
  }

  lemma {:induction false} PrintedLinesParse(fields: seq<Field>, number: nat, acc: Parsed)
    requires AllWellFormed(fields)
    ensures ParseLines(Lines(PrintFields(fields)), number, acc) == Ok(acc.(fields := acc.fields + fields))
    decreases |fields|
  {
    hide ParseLine, FieldLine;
    if fields == [] {
      assert acc.fields + fields == acc.fields;
    } else {
      hide ParseLines, Lines, WellFormed;
      var f, rest := fields[0], fields[1..];
      FieldLineHasNoNewline(f);
      FirstLine(FieldLine(f), PrintFields(rest));
      FieldLineAddsField(f, Lines(PrintFields(rest)), number, acc);
      PrintedLinesParse(rest, number + 1, acc.(fields := acc.fields + [f]));
      MoveFirst(acc.fields, fields);
    }
  }

  /** Printing a well-formed field list as lines and parsing the text gives the same fields back, and nothing else. */
  lemma PrintedFieldsRoundTrip(name: string, fields: seq<Field>)
    requires AllWellFormed(fields)
    ensures ParseStr(name, PrintFields(fields))
            == Ok(MsgDef(name, CamelToSnake(name), fields, [], [CamelToSnake(name)], None))
  {
    hide ParseLine, FieldLine, Lines, CamelToSnake;
    PrintedLinesParse(fields, 1, Parsed([], [], None));
    assert [] + fields == fields;
  }
}
