/** The entry points of the package: `QueryWithTimeout`, which builds the
    argument list, runs `wmic` and decodes its output into the caller's slice,
    and the `Query` and `QueryColumns` wrappers over it. Running the process
    and parsing the timeout are not modelled: callers supply them as
    functions. */
module Wmi {
  import opened Wrappers
  import opened GoText
  import opened Schema
  import opened Coerce
  import opened QueryBuilder
  import opened Decode

  /** `TIMEOUT_DEFAULT`, the timeout `Query` runs with. */
  const TimeoutDefault: string := "30m"

  /** What running `wmic` with an argument list gives: the error `cmd.Run`
      returned, if any (a non-zero exit, a missing executable or the timeout
      expiring), and what the process wrote to standard output and standard
      error. */
  datatype Invocation = Invocation(runError: Option<string>, stdout: string, stderr: string)

  /** The result of a query for the struct type `t` whose argument after
      `GET` is `getList`, in the order `QueryWithTimeout` checks: a timeout
      `time.ParseDuration` refuses, a failed run and any standard error output
      each return no record errors and leave `out` alone; otherwise the output
      decodes as `DecodeOutput` states. */
  twostate predicate Answered(out: OutSlice, className: string, where: string, getList: string, timeout: string,
                              t: StructType, validTimeout: string -> bool, run: seq<string> -> Invocation,
                              parseFloat: FloatParser, new recordErrors: seq<RecordError>, new err: Option<Error>)
    requires WellFormed(t.fields)
    reads out, out.elems
  {
    var inv := run(Arguments(className, where, getList));
    if !validTimeout(timeout) then
      recordErrors == [] && err == Some(InvalidTimeout(timeout)) && out.elems == old(out.elems)
    else if inv.runError.Some? then
      recordErrors == [] && err == Some(CommandFailed(inv.runError.value)) && out.elems == old(out.elems)
    else if inv.stderr != [] then
      recordErrors == [] && err == Some(StderrOutput(inv.stderr)) && out.elems == old(out.elems)
    else
      match DecodeLines(t.fields, className, ScanLines(inv.stdout), parseFloat)
      case Decoded(records, errors) =>
        err == None && recordErrors == errors && fresh(out.elems) && out.elems[..] == records
      case Aborted(error, errors) =>
        err == Some(error) && recordErrors == errors && out.elems == old(out.elems)
  }

  /** `QueryWithTimeout(class, columns, where, out, timeout)`, with `out` a
      slice of the struct type `t` and `cache` the package's `fieldCache`,
      keyed by the struct's name as the code has it. */
  method QueryWithTimeout(cache: NameCache, className: string, columns: seq<string>, where: string,
                          out: OutSlice, timeout: string, t: StructType,
                          validTimeout: string -> bool, run: seq<string> -> Invocation, parseFloat: FloatParser)
    returns (recordErrors: seq<RecordError>, err: Option<Error>)
    requires WellFormed(t.fields)
    modifies cache, out
    ensures cache.entries == NameKeyedEntries(old(cache.entries), columns, t)
    ensures Answered(out, className, where, NameKeyedGetList(old(cache.entries), columns, t), timeout, t,
                     validTimeout, run, parseFloat, recordErrors, err)
  {
    var query := BuildQuery(cache, className, columns, where, t);
    if !validTimeout(timeout) {
      return [], Some(InvalidTimeout(timeout));
    }
    var inv := run(query);
    if inv.runError.Some? {
      return [], Some(CommandFailed(inv.runError.value));
    }
    if |inv.stderr| > 0 {
      return [], Some(StderrOutput(inv.stderr));
    }
    recordErrors, err := DecodeOutput(t.fields, className, inv.stdout, parseFloat, out);
  }

  /** `QueryWithTimeout` with the corrected cache keyed by struct type: the
      argument after `GET` is always the given columns or the struct's own
      fields. */
  method QueryWithTimeoutByType(cache: TypeCache, className: string, columns: seq<string>, where: string,
                                out: OutSlice, timeout: string, t: StructType,
                                validTimeout: string -> bool, run: seq<string> -> Invocation, parseFloat: FloatParser)
    returns (recordErrors: seq<RecordError>, err: Option<Error>)
    requires cache.Valid() && WellFormed(t.fields)
    modifies cache, out
    ensures cache.Valid()
    ensures cache.entries == if |columns| == 0 then old(cache.entries)[t := ColumnList(t)] else old(cache.entries)
    ensures Answered(out, className, where, GetList(columns, t), timeout, t, validTimeout, run, parseFloat,
                     recordErrors, err)
  {
    var query := BuildQueryByType(cache, className, columns, where, t);
    if !validTimeout(timeout) {
      return [], Some(InvalidTimeout(timeout));
    }
    var inv := run(query);
    if inv.runError.Some? {
      return [], Some(CommandFailed(inv.runError.value));
    }
    if |inv.stderr| > 0 {
      return [], Some(StderrOutput(inv.stderr));
    }
    recordErrors, err := DecodeOutput(t.fields, className, inv.stdout, parseFloat, out);
  }

  /** `Query(class, columns, where, out)`: runs with the default timeout and,
      as written, passes an empty column list on, so the columns it is given
      never reach `wmic` and the struct's own fields are always queried. */
  method Query(cache: NameCache, className: string, columns: seq<string>, where: string, out: OutSlice,
               t: StructType, validTimeout: string -> bool, run: seq<string> -> Invocation, parseFloat: FloatParser)
    returns (recordErrors: seq<RecordError>, err: Option<Error>)
    requires WellFormed(t.fields)
    modifies cache, out
    ensures cache.entries == NameKeyedEntries(old(cache.entries), [], t)
    ensures Answered(out, className, where, NameKeyedGetList(old(cache.entries), [], t), TimeoutDefault, t,
                     validTimeout, run, parseFloat, recordErrors, err)
  {
    recordErrors, err := QueryWithTimeout(cache, className, [], where, out, TimeoutDefault, t, validTimeout, run, parseFloat);
  }

  /** `QueryAll(class, out)`: every field of the struct, no filter, default
      timeout. */
  method QueryAll(cache: NameCache, className: string, out: OutSlice,
                  t: StructType, validTimeout: string -> bool, run: seq<string> -> Invocation, parseFloat: FloatParser)
    returns (recordErrors: seq<RecordError>, err: Option<Error>)
    requires WellFormed(t.fields)
    modifies cache, out
    ensures cache.entries == NameKeyedEntries(old(cache.entries), [], t)
    ensures Answered(out, className, "", NameKeyedGetList(old(cache.entries), [], t), TimeoutDefault, t,
                     validTimeout, run, parseFloat, recordErrors, err)
  {
    recordErrors, err := Query(cache, className, [], "", out, t, validTimeout, run, parseFloat);
  }

  /** `QueryAllWithTimeout(class, out, timeout)`: every field of the struct, no
      filter, the caller's timeout. */
  method QueryAllWithTimeout(cache: NameCache, className: string, out: OutSlice, timeout: string,
                             t: StructType, validTimeout: string -> bool, run: seq<string> -> Invocation,
                             parseFloat: FloatParser)
    returns (recordErrors: seq<RecordError>, err: Option<Error>)
    requires WellFormed(t.fields)
    modifies cache, out
    ensures cache.entries == NameKeyedEntries(old(cache.entries), [], t)
    ensures Answered(out, className, "", NameKeyedGetList(old(cache.entries), [], t), timeout, t,
                     validTimeout, run, parseFloat, recordErrors, err)
  {
    recordErrors, err := QueryWithTimeout(cache, className, [], "", out, timeout, t, validTimeout, run, parseFloat);
  }

  /** `QueryColumns(class, columns, out)`: `Query` without a where clause, so
      it too queries the struct's fields whatever `columns` holds. */
  method QueryColumns(cache: NameCache, className: string, columns: seq<string>, out: OutSlice,
                      t: StructType, validTimeout: string -> bool, run: seq<string> -> Invocation, parseFloat: FloatParser)
    returns (recordErrors: seq<RecordError>, err: Option<Error>)
    requires WellFormed(t.fields)
    modifies cache, out
    ensures cache.entries == NameKeyedEntries(old(cache.entries), [], t)
    ensures Answered(out, className, "", NameKeyedGetList(old(cache.entries), [], t), TimeoutDefault, t,
                     validTimeout, run, parseFloat, recordErrors, err)
  {
    recordErrors, err := Query(cache, className, columns, "", out, t, validTimeout, run, parseFloat);
  }

  /** `QueryColumnsWithTimeout(class, columns, out, timeout)`: unlike
      `QueryColumns` it calls `QueryWithTimeout` directly, so the columns it
      is given do reach `wmic`. */
  method QueryColumnsWithTimeout(cache: NameCache, className: string, columns: seq<string>, out: OutSlice,
                                 timeout: string, t: StructType, validTimeout: string -> bool,
                                 run: seq<string> -> Invocation, parseFloat: FloatParser)
    returns (recordErrors: seq<RecordError>, err: Option<Error>)
    requires WellFormed(t.fields)
    modifies cache, out
    ensures cache.entries == NameKeyedEntries(old(cache.entries), columns, t)
    ensures Answered(out, className, "", NameKeyedGetList(old(cache.entries), columns, t), timeout, t,
                     validTimeout, run, parseFloat, recordErrors, err)
  {
    recordErrors, err := QueryWithTimeout(cache, className, columns, "", out, timeout, t, validTimeout, run, parseFloat);
  }

  /** `QueryWhere(class, where, out)`: every field of the struct, the given
      filter, default timeout. */
  method QueryWhere(cache: NameCache, className: string, where: string, out: OutSlice,
                    t: StructType, validTimeout: string -> bool, run: seq<string> -> Invocation, parseFloat: FloatParser)
    returns (recordErrors: seq<RecordError>, err: Option<Error>)
    requires WellFormed(t.fields)
    modifies cache, out
    ensures cache.entries == NameKeyedEntries(old(cache.entries), [], t)
    ensures Answered(out, className, where, NameKeyedGetList(old(cache.entries), [], t), TimeoutDefault, t,
                     validTimeout, run, parseFloat, recordErrors, err)
  {
    recordErrors, err := Query(cache, className, [], where, out, t, validTimeout, run, parseFloat);
  }

  /** `QueryWhereWithTimeout(class, where, out, timeout)`: every field of the
      struct, the given filter, the caller's timeout. */
  method QueryWhereWithTimeout(cache: NameCache, className: string, where: string, out: OutSlice, timeout: string,
                               t: StructType, validTimeout: string -> bool, run: seq<string> -> Invocation,
                               parseFloat: FloatParser)
    returns (recordErrors: seq<RecordError>, err: Option<Error>)
    requires WellFormed(t.fields)
    modifies cache, out
    ensures cache.entries == NameKeyedEntries(old(cache.entries), [], t)
    ensures Answered(out, className, where, NameKeyedGetList(old(cache.entries), [], t), timeout, t,
                     validTimeout, run, parseFloat, recordErrors, err)
  {
    recordErrors, err := QueryWithTimeout(cache, className, [], where, out, timeout, t, validTimeout, run, parseFloat);
  }

  /** `Query` as evidently intended: the columns it is given reach `wmic`. */
  method QueryAsIntended(cache: NameCache, className: string, columns: seq<string>, where: string, out: OutSlice,
                         t: StructType, validTimeout: string -> bool, run: seq<string> -> Invocation,
                         parseFloat: FloatParser)
    returns (recordErrors: seq<RecordError>, err: Option<Error>)
    requires WellFormed(t.fields)
    modifies cache, out
    ensures cache.entries == NameKeyedEntries(old(cache.entries), columns, t)
    ensures Answered(out, className, where, NameKeyedGetList(old(cache.entries), columns, t), TimeoutDefault, t,
                     validTimeout, run, parseFloat, recordErrors, err)
  {
    recordErrors, err := QueryWithTimeout(cache, className, columns, where, out, TimeoutDefault, t, validTimeout, run, parseFloat);
  }

  /** What dropping the columns costs: asked for the `Name` column of a struct
      with fields `Name` and `Size`, `QueryColumns` on a fresh cache sends
      `GET Name,Size`, where passing the columns on sends `GET Name` whatever
      the cache holds. */
  lemma QueryDropsColumns(entries: map<string, string>)
    ensures var t := StructType("main", "Disk", [Field("Name", StringKind), Field("Size", UintKind(64))]);
            && Arguments("Win32_LogicalDisk", "", NameKeyedGetList(map[], [], t))
               == ["PATH", "Win32_LogicalDisk", "GET", "Name,Size", FormatSwitch, ValueSwitch]
            && Arguments("Win32_LogicalDisk", "", NameKeyedGetList(entries, ["Name"], t))
               == ["PATH", "Win32_LogicalDisk", "GET", "Name", FormatSwitch, ValueSwitch]
  {
    var t := StructType("main", "Disk", [Field("Name", StringKind), Field("Size", UintKind(64))]);
    assert FieldNames(t.fields) == ["Name", "Size"];
    assert ["Name", "Size"][..1] == ["Name"];
    assert ColumnList(t) == "Name,Size";
    assert WhereTokens("") == [];
  }

  /** The stale cache at the entry points: `QueryAll` into a slice of an
      anonymous struct with a `Name` field, then into one with a `Size` field,
      sends `GET Name` both times, while the second struct's own list is
      `Size`. */
  lemma QueryAllServesStaleColumns()
    ensures var a := StructType("", "", [Field("Name", StringKind)]);
            var b := StructType("", "", [Field("Size", UintKind(64))]);
            var afterA := NameKeyedEntries(map[], [], a);
            && NameKeyedGetList(map[], [], a) == "Name"
            && NameKeyedGetList(afterA, [], b) == "Name"
            && GetList([], b) == "Size"
  {
    var a := StructType("", "", [Field("Name", StringKind)]);
    var b := StructType("", "", [Field("Size", UintKind(64))]);
    assert FieldNames(a.fields) == ["Name"];
    assert FieldNames(b.fields) == ["Size"];
  }
}
