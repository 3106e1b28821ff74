/** The `wmic` argument list `QueryWithTimeout` builds: `PATH <class>`, an
    optional `WHERE` clause, `GET <columns>` and the output-format switches,
    and the field-name cache behind the default column list. */
module QueryBuilder {
  import opened Wrappers
  import opened GoText
  import opened Schema

  const FormatSwitch: string := "/format:rawxml"
  const ValueSwitch: string := "/VALUE"

  /** The WHERE part: nothing for an empty filter; otherwise `WHERE`, then the
      trimmed filter split at single spaces, with `(` put in front unless the
      first piece already starts with one and `)` put behind unless the last
      piece already ends with one. Only those two pieces are looked at. */
  function WhereTokens(where: string): (r: seq<string>)
    ensures where == "" <==> r == []
    ensures r != [] ==> |r| >= 2 && r[0] == "WHERE"
                        && StartsWith(r[1], '(') && EndsWith(r[|r| - 1], ')')
  {
    if where == "" then []
    else ["WHERE"] + Parenthesize(Split(TrimSpace(where), ' '))
  }

  function Parenthesize(parts: seq<string>): (r: seq<string>)
    requires |parts| >= 1
    ensures |r| >= 1 && StartsWith(r[0], '(') && EndsWith(r[|r| - 1], ')')
  {
    (if StartsWith(parts[0], '(') then [] else ["("])
    + parts
    + (if EndsWith(parts[|parts| - 1], ')') then [] else [")"])
  }

  /** The clause's tokens joined by single spaces are the trimmed filter
      itself, with `( ` added in front only when the filter does not start
      with a `(`-prefixed token and ` )` added behind only when it does not
      end with a `)`-suffixed one; so an
      already-parenthesised filter passes unchanged and a bare one is wrapped
      exactly once. */
  lemma WhereClauseText(where: string)
    requires where != ""
    ensures var parts := Split(TrimSpace(where), ' ');
            var opens := StartsWith(parts[0], '(');
            var closes := EndsWith(parts[|parts| - 1], ')');
            var text := Join(WhereTokens(where)[1..], " ");
            && (opens && closes ==> text == TrimSpace(where))
            && (opens && !closes ==> text == TrimSpace(where) + " )")
            && (!opens && closes ==> text == "( " + TrimSpace(where))
            && (!opens && !closes ==> text == "( " + TrimSpace(where) + " )")
  {
    var parts := Split(TrimSpace(where), ' ');
    assert WhereTokens(where)[1..] == Parenthesize(parts);
    ParenthesizeText(parts);
  }

  lemma ParenthesizeText(parts: seq<string>)
    requires |parts| >= 1
    ensures var opens := StartsWith(parts[0], '(');
            var closes := EndsWith(parts[|parts| - 1], ')');
            var text := Join(Parenthesize(parts), " ");
            && (opens && closes ==> text == Join(parts, " "))
            && (opens && !closes ==> text == Join(parts, " ") + " )")
            && (!opens && closes ==> text == "( " + Join(parts, " "))
            && (!opens && !closes ==> text == "( " + Join(parts, " ") + " )")
  {
    var opens := StartsWith(parts[0], '(');
    var closes := EndsWith(parts[|parts| - 1], ')');
    if opens && closes {
      assert Parenthesize(parts) == parts;
    } else if opens {
      ParenthesizeCloses(parts);
    } else if closes {
      ParenthesizeOpens(parts);
    } else {
      ParenthesizeWraps(parts);
    }
  }

  lemma ParenthesizeCloses(parts: seq<string>)
    requires |parts| >= 1 && StartsWith(parts[0], '(') && !EndsWith(parts[|parts| - 1], ')')
    ensures Join(Parenthesize(parts), " ") == Join(parts, " ") + " )"
  {
    assert Parenthesize(parts) == parts + [")"];
    JoinCloseParen(parts);
  }

  lemma ParenthesizeOpens(parts: seq<string>)
    requires |parts| >= 1 && !StartsWith(parts[0], '(') && EndsWith(parts[|parts| - 1], ')')
    ensures Join(Parenthesize(parts), " ") == "( " + Join(parts, " ")
  {
    assert Parenthesize(parts) == ["("] + parts;
    JoinOpenParen(parts);
  }

  lemma ParenthesizeWraps(parts: seq<string>)
    requires |parts| >= 1 && !StartsWith(parts[0], '(') && !EndsWith(parts[|parts| - 1], ')')
    ensures Join(Parenthesize(parts), " ") == "( " + Join(parts, " ") + " )"
  {
    assert Parenthesize(parts) == (["("] + parts) + [")"];
    JoinOpenParen(parts);
    JoinCloseParen(["("] + parts);
  }

  lemma JoinOpenParen(parts: seq<string>)
    requires |parts| >= 1
    ensures Join(["("] + parts, " ") == "( " + Join(parts, " ")
  {
    var j := Join(parts, " ");
    assert Join(["("] + parts, " ") == "(" + " " + j by {
      JoinAppend(["("], parts, " ");
    }
    assert "(" + " " == "( ";
  }

  lemma JoinCloseParen(parts: seq<string>)
    requires |parts| >= 1
    ensures Join(parts + [")"], " ") == Join(parts, " ") + " )"
  {
    var j := Join(parts, " ");
    assert Join(parts + [")"], " ") == j + " " + ")" by {
      JoinAppend(parts, [")"], " ");
    }
    AppendAssoc(j, " ", ")");
    assert " " + ")" == " )";
  }

  /** Wrapping never doubles: feeding the clause's tokens, joined by spaces,
      back in as the filter yields the very same tokens. */
  lemma WhereTokensIdempotent(where: string)
    requires where != ""
    ensures var clause := Join(WhereTokens(where)[1..], " ");
            clause != "" && WhereTokens(clause) == WhereTokens(where)
  {
    var parts := Split(TrimSpace(where), ' ');
    var r := Parenthesize(parts);
    assert WhereTokens(where) == ["WHERE"] + r;
    assert WhereTokens(where)[1..] == r;
    ParenthesizeSpaceFree(parts);
    ClauseReparses(r);
  }

  /** A parenthesised run of space-free tokens, joined by spaces and read as a
      filter again, gives back the same tokens. */
  lemma ClauseReparses(r: seq<string>)
    requires |r| >= 1 && StartsWith(r[0], '(') && EndsWith(r[|r| - 1], ')')
    requires forall i :: 0 <= i < |r| ==> ' ' !in r[i]
    ensures Join(r, " ") != "" && WhereTokens(Join(r, " ")) == ["WHERE"] + r
  {
    var clause := Join(r, " ");
    JoinFirst(r, " ");
    JoinLast(r, " ");
    assert !IsSpace(clause[0]) && !IsSpace(clause[|clause| - 1]);
    assert TrimSpace(clause) == clause;
    SplitJoin(r, ' ');
    ParenthesizeFixed(r);
  }

  lemma ParenthesizeSpaceFree(parts: seq<string>)
    requires |parts| >= 1
    requires forall i :: 0 <= i < |parts| ==> ' ' !in parts[i]
    ensures forall i :: 0 <= i < |Parenthesize(parts)| ==> ' ' !in Parenthesize(parts)[i]
  {
  }

  lemma ParenthesizeFixed(r: seq<string>)
    requires |r| >= 1 && StartsWith(r[0], '(') && EndsWith(r[|r| - 1], ')')
    ensures Parenthesize(r) == r
  {
  }

  /** The whole argument list. */
  function Arguments(className: string, where: string, getList: string): (args: seq<string>)
    ensures ParseArguments(args) == Some(QueryParts(className, WhereTokens(where), getList))
  {
    ["PATH", className] + WhereTokens(where) + ["GET", getList, FormatSwitch, ValueSwitch]
  }

  datatype QueryParts = QueryParts(className: string, whereTokens: seq<string>, getList: string)

  /** Reads an argument list back: it must open with `PATH <class>` and close
      with `GET <columns> /format:rawxml /VALUE`; what lies between is the
      WHERE part. */
  function ParseArguments(args: seq<string>): Option<QueryParts>
  {
    var n := |args|;
    if n < 6 || args[0] != "PATH" || args[n - 4] != "GET"
       || args[n - 2] != FormatSwitch || args[n - 1] != ValueSwitch
    then None
    else Some(QueryParts(args[1], args[2..n - 4], args[n - 3]))
  }

  /** The argument after `GET`: the given columns comma-joined, or the
      struct's field names when no columns are given. */
  function GetList(columns: seq<string>, t: StructType): string {
    if |columns| == 0 then ColumnList(t) else Join(columns, ",")
  }

  /** The `for` loop over `innerType.NumField()` that collects the field names. */
  method CollectFieldNames(fields: seq<Field>) returns (cols: seq<string>)
    ensures cols == FieldNames(fields)
  {
    cols := [];
    for i := 0 to |fields|
      invariant cols == FieldNames(fields[..i])
    {
      cols := cols + [fields[i].name];
      assert fields[..i + 1][..i] == fields[..i];
    }
    assert fields[..|fields|] == fields;
  }

  /** One lookup in a memo table with key `key` for struct `t`: a hit returns
      the stored string and keeps the table; a miss computes the column list
      and stores it. */
  function Memo<K(==)>(entries: map<K, string>, key: K, t: StructType): (string, map<K, string>)
  {
    if key in entries then (entries[key], entries)
    else (ColumnList(t), entries[key := ColumnList(t)])
  }

  /** `fieldCache` as the source has it: keyed by `innerType.Name()`, the
      unqualified type name, which is "" for every anonymous struct. */
  class NameCache {
    var entries: map<string, string>

    constructor ()
      ensures entries == map[]
    {
      entries := map[];
    }

    method Columns(t: StructType) returns (cols: string)
      modifies this
      ensures (cols, entries) == Memo(old(entries), t.name, t)
    {
      if t.name in entries {
        cols := entries[t.name];
      } else {
        var names := CollectFieldNames(t.fields);
        cols := Join(names, ",");
        entries := entries[t.name := cols];
      }
    }
  }

  /** With the source's key, a second struct type sharing the first one's name
      (two anonymous structs, or same-named types of two packages) is served
      the first one's column list. */
  lemma NameCacheServesStaleColumns()
    ensures var a := StructType("", "", [Field("Name", StringKind)]);
            var b := StructType("", "", [Field("Size", UintKind(64))]);
            var (_, afterA) := Memo(map[], a.name, a);
            Memo(afterA, b.name, b).0 == "Name" && ColumnList(b) == "Size"
  {
    var a := StructType("", "", [Field("Name", StringKind)]);
    var b := StructType("", "", [Field("Size", UintKind(64))]);
    assert FieldNames(a.fields) == ["Name"];
    assert FieldNames(b.fields) == ["Size"];
  }

  /** A table that holds, for every struct it has seen, that struct's column list. */
  ghost predicate Consistent(entries: map<StructType, string>) {
    forall t :: t in entries ==> entries[t] == ColumnList(t)
  }

  /** Keyed by the struct type itself, a lookup always returns the type's own
      column list and keeps the table consistent; a later lookup is a hit that
      returns the stored string. */
  lemma TypeKeyedMemo(entries: map<StructType, string>, t: StructType)
    requires Consistent(entries)
    ensures var (cols, after) := Memo(entries, t, t);
            && cols == ColumnList(t)
            && Consistent(after) && after.Keys == entries.Keys + {t}
            && Memo(after, t, t) == (cols, after)
  {
  }

  /** The field-name cache keyed by struct type identity, so that its value
      is a function of the type, as the memo is meant to be. */
  class TypeCache {
    var entries: map<StructType, string>

    ghost predicate Valid()
      reads this
    {
      Consistent(entries)
    }

    constructor ()
      ensures Valid() && entries == map[]
    {
      entries := map[];
    }

    method Columns(t: StructType) returns (cols: string)
      requires Valid()
      modifies this
      ensures Valid()
      ensures (cols, entries) == Memo(old(entries), t, t)
      ensures cols == ColumnList(t) && entries == old(entries)[t := cols]
    {
      if t in entries {
        cols := entries[t];
      } else {
        var names := CollectFieldNames(t.fields);
        cols := Join(names, ",");
        entries := entries[t := cols];
      }
    }
  }

  /** Lines 107-117 of `QueryWithTimeout`: the WHERE part appended to the
      argument list built so far. */
  method AppendWhere(query: seq<string>, where: string) returns (query': seq<string>)
    ensures query' == query + WhereTokens(where)
  {
    query' := query;
    if where != "" {
      var parts := Split(TrimSpace(where), ' ');
      ghost var opening: seq<string> := [];
      ghost var closing: seq<string> := [];
      query' := query' + ["WHERE"];
      if !StartsWith(parts[0], '(') {
        query' := query' + ["("];
        opening := ["("];
      }
      assert query' == query + ["WHERE"] + opening;
      query' := query' + parts;
      if !EndsWith(parts[|parts| - 1], ')') {
        query' := query' + [")"];
        closing := [")"];
      }
      assert query' == query + ["WHERE"] + opening + parts + closing;
      assert Parenthesize(parts) == opening + parts + closing;
      assert WhereTokens(where) == ["WHERE"] + (opening + parts + closing);
      AppendRegroup(query, ["WHERE"], opening, parts, closing);
    } else {
      assert WhereTokens(where) == [];
      assert query + [] == query;
    }
  }

  lemma AppendRegroup<T>(a: seq<T>, b: seq<T>, c: seq<T>, d: seq<T>, e: seq<T>)
    ensures a + b + c + d + e == a + (b + (c + d + e))
  {
    AppendAssoc(a + b, c + d, e);
    AppendAssoc(a + b, c, d);
    AppendAssoc(a, b, c + d + e);
  }

  lemma AppendAssoc<T>(a: seq<T>, b: seq<T>, c: seq<T>)
    ensures a + b + c == a + (b + c)
  {
  }

  /** Lines 118 and 124-139 of `QueryWithTimeout`: `GET`, the column list and
      the two output switches appended to the argument list built so far. */
  method AppendGet(query: seq<string>, getList: string) returns (query': seq<string>)
    ensures query' == query + ["GET", getList, FormatSwitch, ValueSwitch]
  {
    query' := query + ["GET"];
    query' := query' + [getList];
    query' := query' + [FormatSwitch];
    query' := query' + [ValueSwitch];
  }

  /** The argument after `GET` when the name-keyed cache holds `entries`:
      the given columns comma-joined, or, when none are given, whatever the
      cache holds under the struct's name (filled on a miss). */
  function NameKeyedGetList(entries: map<string, string>, columns: seq<string>, t: StructType): string {
    if |columns| == 0 then Memo(entries, t.name, t).0 else Join(columns, ",")
  }

  /** The name-keyed cache after that lookup: it gains an entry only on a miss
      with no columns given. */
  function NameKeyedEntries(entries: map<string, string>, columns: seq<string>, t: StructType): map<string, string> {
    if |columns| == 0 then Memo(entries, t.name, t).1 else entries
  }

  /** The name-keyed cache sends the struct's own fields exactly when columns
      are given, or when nothing stored under its name differs from its own
      column list; so the cache as written goes wrong only on a name shared
      by two struct types with different fields. */
  lemma NameKeyedGetListAgrees(entries: map<string, string>, columns: seq<string>, t: StructType)
    ensures NameKeyedGetList(entries, columns, t) == GetList(columns, t) <==>
            |columns| > 0 || t.name !in entries || entries[t.name] == ColumnList(t)
  {
  }

  /** Lines 106-139 of `QueryWithTimeout` as written: the argument list built
      by successive appends, with the name-keyed field-name cache consulted
      only when no columns are given. */
  method BuildQuery(cache: NameCache, className: string, columns: seq<string>, where: string, t: StructType)
    returns (query: seq<string>)
    modifies cache
    ensures query == Arguments(className, where, NameKeyedGetList(old(cache.entries), columns, t))
    ensures cache.entries == NameKeyedEntries(old(cache.entries), columns, t)
  {
    query := ["PATH", className];
    query := AppendWhere(query, where);
    var getList: string;
    if |columns| == 0 {
      getList := cache.Columns(t);
    } else {
      getList := Join(columns, ",");
    }
    query := AppendGet(query, getList);
  }

  /** The same lines with the corrected cache keyed by struct type: the
      argument after `GET` is always the given columns or the struct's own
      fields. */
  method BuildQueryByType(cache: TypeCache, className: string, columns: seq<string>, where: string, t: StructType)
    returns (query: seq<string>)
    requires cache.Valid()
    modifies cache
    ensures cache.Valid()
    ensures query == Arguments(className, where, GetList(columns, t))
    ensures cache.entries == if |columns| == 0 then old(cache.entries)[t := ColumnList(t)] else old(cache.entries)
  {
    query := ["PATH", className];
    query := AppendWhere(query, where);
    var getList: string;
    if |columns| == 0 {
      getList := cache.Columns(t);
    } else {
      getList := Join(columns, ",");
    }
    query := AppendGet(query, getList);
  }
}
