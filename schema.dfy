/** The explicit schema that stands in for the destination struct type the
    decoder inspects by reflection: its fields in declaration order, each with
    the reflect kind that decides how a value is coerced, and the records built
    from it (one value per field, in the same order). */
module Schema {
  import opened Wrappers
  import opened GoText
  import Strconv

  /** The kinds `set` dispatches on. `int`/`uint` are `IntKind(64)`/`UintKind(64)`;
      every other reflect kind (struct, slice, map, pointer, uintptr, complex, ...)
      is `OtherKind` with the name `Kind.String()` gives it. */
  datatype Kind =
    | StringKind
    | IntKind(bits: nat)
    | UintKind(bits: nat)
    | FloatKind(bits: nat)
    | BoolKind
    | OtherKind(kindName: string)

  datatype Field = Field(name: string, kind: Kind)

  /** A struct type: its identity (package path and name, both empty for an
      anonymous struct) and its fields. */
  datatype StructType = StructType(pkgPath: string, name: string, fields: seq<Field>)

  datatype Value =
    | VString(s: string)
    | VInt(i: int)
    | VUint(n: nat)
    | VFloat(x: real)
    | VBool(b: bool)
    | VOther

  /** A record holds one value per field of its schema, in declaration order. */
  type Record = seq<Value>

  predicate ValidKind(k: Kind) {
    match k
    case IntKind(bits) => Strconv.IntWidth(bits)
    case UintKind(bits) => Strconv.IntWidth(bits)
    case FloatKind(bits) => bits == 32 || bits == 64
    case _ => true
  }

  /** What Go's type checker guarantees of a struct: distinct field names and
      the widths Go's numeric kinds have. */
  predicate WellFormed(fields: seq<Field>) {
    && (forall i, j :: 0 <= i < j < |fields| ==> fields[i].name != fields[j].name)
    && (forall i :: 0 <= i < |fields| ==> ValidKind(fields[i].kind))
  }

  /** A value a field of kind `k` can hold: integers within the declared width. */
  predicate Conforms(k: Kind, v: Value) {
    match k
    case StringKind => v.VString?
    case IntKind(bits) => v.VInt? && bits >= 1 && -Strconv.Pow2(bits - 1) <= v.i < Strconv.Pow2(bits - 1)
    case UintKind(bits) => v.VUint? && v.n < Strconv.Pow2(bits)
    case FloatKind(_) => v.VFloat?
    case BoolKind => v.VBool?
    case OtherKind(_) => v.VOther?
  }

  predicate Fits(fields: seq<Field>, r: Record) {
    |r| == |fields| && forall i :: 0 <= i < |r| ==> Conforms(fields[i].kind, r[i])
  }

  /** Go's zero value of each kind. */
  function ZeroValue(k: Kind): Value {
    match k
    case StringKind => VString("")
    case IntKind(_) => VInt(0)
    case UintKind(_) => VUint(0)
    case FloatKind(_) => VFloat(0.0)
    case BoolKind => VBool(false)
    case OtherKind(_) => VOther
  }

  /** The record `reflect.New` allocates: every field at its zero value, which
      is a value the field can hold. */
  function Zero(fields: seq<Field>): (r: Record)
    requires WellFormed(fields)
    ensures Fits(fields, r)
  {
    seq(|fields|, i requires 0 <= i < |fields| => ZeroValue(fields[i].kind))
  }

  /** `reflect.Value.FieldByName`: the position of the field whose name is
      exactly `name` (case-sensitive), if there is one. */
  function FieldIndex(fields: seq<Field>, name: string): (r: Option<nat>)
    ensures r.Some? ==> r.value < |fields| && fields[r.value].name == name
    ensures r.None? <==> forall i :: 0 <= i < |fields| ==> fields[i].name != name
  {
    if fields == [] then None
    else if fields[0].name == name then Some(0)
    else
      match FieldIndex(fields[1..], name)
      case None => None
      case Some(i) => Some(i + 1)
  }

  /** The field names in declaration order. */
  function FieldNames(fields: seq<Field>): (names: seq<string>)
    ensures |names| == |fields|
    ensures forall i :: 0 <= i < |fields| ==> names[i] == fields[i].name
  {
    seq(|fields|, i requires 0 <= i < |fields| => fields[i].name)
  }

  /** The comma-joined field names `QueryWithTimeout` sends after `GET` when no
      columns are given. */
  function ColumnList(t: StructType): string {
    Join(FieldNames(t.fields), ",")
  }

  /** The column list names the fields in declaration order: splitting it at
      the commas gives them back (Go identifiers hold no comma). */
  lemma ColumnListNames(t: StructType)
    requires |t.fields| >= 1
    requires forall i :: 0 <= i < |t.fields| ==> ',' !in t.fields[i].name
    ensures Split(ColumnList(t), ',') == FieldNames(t.fields)
  {
    SplitJoin(FieldNames(t.fields), ',');
  }
}
