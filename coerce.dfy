/** The field mapper and type coercer: `set` and the `setString`, `setIntN`,
    `setUintN`, `setFloatN` and `setBool` helpers it dispatches to, and the
    error types they return. `set` writes the destination field in place; here
    it returns which field gets which value (`Coercion`), and `Apply` performs
    that write on a record value. */
module Coerce {
  import opened Wrappers
  import opened Schema
  import Strconv

  /** The errors of the package that abort a query. `FieldError` and
      `UnsupportedTypeError` come from `set`; the other three are raised before
      decoding starts. */
  datatype Error =
    | FieldError(field: string)
    | UnsupportedTypeError(field: string, typeName: string)
    | InvalidTimeout(timeout: string)
    | CommandFailed(message: string)
    | StderrOutput(text: string)

  /** `RecordError`: a value that did not coerce, with the class queried, the
      key, and the number of the record it belongs to. The message text is not
      modelled. */
  datatype RecordError = RecordError(className: string, field: string, line: int)

  /** What one `set` call does: write `value` into field `index`, fail to parse
      (recoverable, nothing written), or fail fatally. */
  datatype Coercion =
    | Coerced(index: nat, value: Value)
    | ParseFailed
    | Fatal(error: Error)

  /** `strconv.ParseFloat(s, bits)`, which this model does not define: callers
      supply it. */
  type FloatParser = (string, nat) -> Option<real>

  /** The coercion of a supported kind: a string verbatim, the integers and
      booleans through `strconv`, floats through the supplied parser. Whatever
      comes out is a value the field can hold. */
  function CoerceValue(k: Kind, s: string, parseFloat: FloatParser): (r: Option<Value>)
    requires ValidKind(k) && !k.OtherKind?
    ensures r.Some? ==> Conforms(k, r.value)
    ensures k.StringKind? ==> r == Some(VString(s))
  {
    match k
    case StringKind => Some(VString(s))
    case IntKind(bits) =>
      (match Strconv.ParseInt(s, bits)
       case None => None
       case Some(i) => Some(VInt(i)))
    case UintKind(bits) =>
      (match Strconv.ParseUint(s, bits)
       case None => None
       case Some(n) => Some(VUint(n)))
    case FloatKind(bits) =>
      (match parseFloat(s, bits)
       case None => None
       case Some(x) => Some(VFloat(x)))
    case BoolKind =>
      (match Strconv.ParseBool(s)
       case None => None
       case Some(b) => Some(VBool(b)))
  }

  /** `set(field, s, item)`. An unknown name is a fatal `FieldError`; a field of
      an unsupported kind is a fatal `UnsupportedTypeError`; otherwise the value
      either coerces into that field or the parse fails recoverably. */
  function Set(fields: seq<Field>, field: string, s: string, parseFloat: FloatParser): (c: Coercion)
    requires WellFormed(fields)
    ensures c == Fatal(FieldError(field)) <==> FieldIndex(fields, field).None?
    ensures c.Fatal? && c.error.UnsupportedTypeError? <==>
            FieldIndex(fields, field).Some? && fields[FieldIndex(fields, field).value].kind.OtherKind?
    ensures c.Fatal? ==> c.error.FieldError? || c.error.UnsupportedTypeError?
    ensures c.Coerced? ==> c.index < |fields| && fields[c.index].name == field
                           && Conforms(fields[c.index].kind, c.value)
    ensures c.ParseFailed? ==> exists i :: 0 <= i < |fields| && fields[i].name == field && !fields[i].kind.OtherKind?
  {
    match FieldIndex(fields, field)
    case None => Fatal(FieldError(field))
    case Some(i) =>
      var k := fields[i].kind;
      if k.OtherKind? then Fatal(UnsupportedTypeError(field, k.kindName))
      else
        match CoerceValue(k, s, parseFloat)
        case None => ParseFailed
        case Some(v) => Coerced(i, v)
  }

  /** Performs the write `Set` decided on; a failed coercion leaves the record
      as it was. */
  function Apply(r: Record, c: Coercion): (r': Record)
    requires c.Coerced? ==> c.index < |r|
    ensures |r'| == |r|
    ensures forall j :: 0 <= j < |r| && !(c.Coerced? && j == c.index) ==> r'[j] == r[j]
    ensures c.Coerced? ==> r'[c.index] == c.value
  {
    if c.Coerced? then r[c.index := c.value] else r
  }

  /** Setting a field keeps a record one its schema can hold, and touches no
      other field, whatever the input string. */
  lemma SetKeepsFit(fields: seq<Field>, r: Record, field: string, s: string, parseFloat: FloatParser)
    requires WellFormed(fields) && Fits(fields, r)
    ensures var c := Set(fields, field, s, parseFloat);
            && Fits(fields, Apply(r, c))
            && forall j :: 0 <= j < |r| && fields[j].name != field ==> Apply(r, c)[j] == r[j]
  {
  }

  /** A string field takes the text verbatim. */
  lemma SetString(fields: seq<Field>, i: nat, s: string, parseFloat: FloatParser)
    requires WellFormed(fields) && i < |fields| && fields[i].kind == StringKind
    ensures Set(fields, fields[i].name, s, parseFloat) == Coerced(i, VString(s))
  {
    FieldIndexOfName(fields, i);
  }

  /** A signed field takes exactly the decimal spellings of the integers its
      width holds. */
  lemma SetInt(fields: seq<Field>, i: nat, v: int, parseFloat: FloatParser)
    requires WellFormed(fields) && i < |fields| && fields[i].kind.IntKind?
    ensures var bits := fields[i].kind.bits;
            Set(fields, fields[i].name, Strconv.FormatInt(v), parseFloat) ==
            if -Strconv.Pow2(bits - 1) <= v < Strconv.Pow2(bits - 1) then Coerced(i, VInt(v)) else ParseFailed
  {
    FieldIndexOfName(fields, i);
    Strconv.ParseIntFormat(v, fields[i].kind.bits);
  }

  /** An unsigned field takes exactly the decimal spellings of the naturals
      its width holds. */
  lemma SetUint(fields: seq<Field>, i: nat, n: nat, parseFloat: FloatParser)
    requires WellFormed(fields) && i < |fields| && fields[i].kind.UintKind?
    ensures var bits := fields[i].kind.bits;
            Set(fields, fields[i].name, Strconv.FormatUint(n), parseFloat) ==
            if n < Strconv.Pow2(bits) then Coerced(i, VUint(n)) else ParseFailed
  {
    FieldIndexOfName(fields, i);
    Strconv.ParseUintFormat(n, fields[i].kind.bits);
  }

  /** A boolean field takes exactly the twelve canonical tokens. */
  lemma SetBool(fields: seq<Field>, i: nat, s: string, parseFloat: FloatParser)
    requires WellFormed(fields) && i < |fields| && fields[i].kind == BoolKind
    ensures Set(fields, fields[i].name, s, parseFloat) ==
            if s in Strconv.TrueTokens then Coerced(i, VBool(true))
            else if s in Strconv.FalseTokens then Coerced(i, VBool(false))
            else ParseFailed
  {
    FieldIndexOfName(fields, i);
  }

  /** Names are distinct, so looking up a field's own name finds that field. */
  lemma FieldIndexOfName(fields: seq<Field>, i: nat)
    requires WellFormed(fields) && i < |fields|
    ensures FieldIndex(fields, fields[i].name) == Some(i)
  {
  }
}
