/** Data model of parsed `.msg` files, and the tokens its types are written as. */
module MsgModel {
  import opened Prelude

  datatype Scalar = Bool | Char | I8 | I16 | I32 | I64 | U8 | U16 | U32 | U64 | F32 | F64
  {
    /** Byte size; on the targets it is also the alignment. */
    function Size(): nat {
      match this
      case Bool => 1
      case Char => 1
      case I8 => 1
      case U8 => 1
      case I16 => 2
      case U16 => 2
      case I32 => 4
      case U32 => 4
      case F32 => 4
      case I64 => 8
      case U64 => 8
      case F64 => 8
    }

    /** The `.msg` type token. */
    function Px4Name(): string {
      match this
      case Bool => "bool"
      case Char => "char"
      case I8 => "int8"
      case I16 => "int16"
      case I32 => "int32"
      case I64 => "int64"
      case U8 => "uint8"
      case U16 => "uint16"
      case U32 => "uint32"
      case U64 => "uint64"
      case F32 => "float32"
      case F64 => "float64"
    }
  }

  function ParseScalar(token: string): Option<Scalar> {
    if token == "bool" then Some(Bool)
    else if token == "char" then Some(Char)
    else if token == "int8" then Some(I8)
    else if token == "int16" then Some(I16)
    else if token == "int32" then Some(I32)
    else if token == "int64" then Some(I64)
    else if token == "uint8" then Some(U8)
    else if token == "uint16" then Some(U16)
    else if token == "uint32" then Some(U32)
    else if token == "uint64" then Some(U64)
    else if token == "float32" then Some(F32)
    else if token == "float64" then Some(F64)
    else None
  }

  /** `parse` and `px4_name` are inverse to each other. */
  lemma ScalarTokensRoundTrip(s: Scalar, token: string)
    ensures ParseScalar(s.Px4Name()) == Some(s)
    ensures ParseScalar(token) == Some(s) ==> token == s.Px4Name()
  {
  }

  datatype FieldType =
    | ScalarType(scalar: Scalar)
    | ScalarArray(scalar: Scalar, count: nat)
    | Nested(msg: string)
    | NestedArray(msg: string, count: nat)
  {
    predicate IsNested() { Nested? || NestedArray? }
  }

  datatype Field = Field(name: string, ty: FieldType)

  datatype Constant = Constant(ty: Scalar, name: string, value: string)

  datatype MsgDef = MsgDef(
    name: string,
    snakeName: string,
    fields: seq<Field>,
    constants: seq<Constant>,
    topics: seq<string>,
    messageVersion: Option<nat>)

  datatype SyntaxFault =
    | TopicsWithoutNames
    | MissingConstantType
    | MissingConstantName
    | ExtraConstantTokens
    | ConstantTypeNotScalar
    | EmptyFieldLine
    | MissingFieldName
    | ExtraFieldTokens
    | UnknownFieldType

  datatype ParseError = Syntax(line: nat, fault: SyntaxFault) | UnresolvedNested(name: string)
}
