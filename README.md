# wmic: a verified model of the WMI query wrapper

`wmic` is a Go package that runs Windows' `wmic` command-line tool and reads
its output into a slice of structs. `QueryWithTimeout` does the work, and
`Query`, `QueryAll`, `QueryColumns`, `QueryWhere` and the three other `*WithTimeout`
functions are wrappers over it. It runs in four stages:

1. It builds the argument list:
   - `PATH <class>`;
   - an optional `WHERE` clause, wrapped in parentheses when it is not already;
   - `GET` with the requested columns, or the struct's field names when none are requested. The field names are read once per struct name and kept in `fieldCache`;
   - the switches `/format:rawxml /VALUE`.
2. It runs `wmic` with a timeout. A bad timeout, a failed run or anything written to standard error ends the query.
3. It scans standard output line by line, with these rules:
   - a run of non-blank lines is one record, and blank lines separate records;
   - each `key=value` line goes to `set`. `set` finds the struct field by its exact name and coerces the trimmed value to the field's kind: string, signed or unsigned integer of 8-64 bits, float, or bool;
   - an unknown field, or a field of any other kind, ends the decode with an error;
   - a value that does not parse leaves the field as it was (its zero value, or what an earlier line of the record wrote) and adds a `RecordError`. That error names the class, the key and the record's number, counting from 1.
4. It resizes the caller's slice to the number of records and copies them in.

The model has these modules:

- `GoText`: the parts of Go's `strings` and `bufio` packages the code uses. These are `TrimSpace`, `Split`, `Join`, `SplitN(…, 2)` (as `CutFirst`) and the `ScanLines` line splitter.
- `Strconv`: `ParseInt`, `ParseUint` and `ParseBool` in base 10.
- `Schema`: the destination struct type, given as an explicit list of fields and kinds. It stands in for reflection. A record is one value per field.
- `Coerce`: `set` and its `setX` helpers, and the package's error types.
- `QueryBuilder`: the argument list, and the field-name cache as a class. The cache comes in two versions: the one the code has, and a corrected one.
- `Decode`: the scanner loop as a method, proved against a declarative decode. In that decode, blank lines frame the records, and each record is its lines' writes applied in order to the zero record. The module also has the copy into the caller's slice, which is an `OutSlice` class holding an array.
- `Wmi`: `QueryWithTimeout` and its seven wrappers, with the name-keyed cache the code has, and variants of `QueryWithTimeout` and `Query` with the corrections. Running the process, parsing the timeout and parsing floats are parameters.
- `DecodeExample`: worked decodes for a two-field struct.

On a fatal error the decode returns the `RecordError`s gathered before it, not an empty list. The model follows the code here.

## Model

| member | source | states |
|---|---|---|
| GoText.TrimSpace | wmi.go:170 | The result has no Unicode white space at either end. It is empty exactly when the line is all white space. A line with no white space at its ends is unchanged. |
| GoText.TrimSpaceIsSegment | wmi.go:170 | The result is a contiguous segment of the line, and everything before and after that segment is white space. |
| GoText.Split | wmi.go:108 | There is at least one part, even for an empty input. No part holds the separator, and joining the parts with it gives the input back. |
| GoText.SplitJoin | wmi.go:108 | Splitting separator-free pieces that were joined by the separator gives back the same pieces. |
| GoText.CutFirst | wmi.go:180-182 | No result is exactly "no `=` in the line". Otherwise the line is key, `=`, value, cut at the first `=`, so either side may be empty and the value may hold more `=`. |
| GoText.CutFirstOfPair | wmi.go:180-182 | Inverse of the cut: a key free of `=`, then `=`, then any value, cuts back into that key and value. |
| GoText.ScanLines | wmi.go:165-169 | No scanned line holds a newline. |
| GoText.ScanLinesRoundTrip | wmi.go:165-169 | For text without carriage returns, joining the scanned lines with newlines gives back the text, apart from one final newline. Empty text has no lines. |
| Strconv.ParseUint | wmi.go:260 | A parsed value lies below 2^bits. Signs are refused. |
| Strconv.ParseInt | wmi.go:251 | A parsed value lies in [-2^(bits-1), 2^(bits-1)). |
| Strconv.ParseBool | wmi.go:278 | It is true exactly on "1", "t", "T", "TRUE", "true" and "True", false exactly on the six matching false spellings, and fails on every other string. |
| Strconv.ParseUintFormat | wmi.go:259-266 | The decimal spelling of n parses back to n exactly when n fits the width, and fails otherwise. |
| Strconv.ParseIntFormat | wmi.go:250-257 | The decimal spelling of i parses back to i exactly when i fits the signed width, and fails otherwise. |
| Strconv.ParseIntAgreesWithUint | wmi.go:250-266 | A leading sign is refused by the unsigned parser. The signed parser accepts `+`, and it agrees with the unsigned parser on unsigned spellings. |
| Schema.Zero | wmi.go:166 | The fresh record from `reflect.New` holds one value per field that the field can hold. |
| Schema.FieldIndex | wmi.go:226-229 | The lookup finds a field whose name is exactly the key, case-sensitively. It finds none exactly when no field has that name. |
| Schema.ColumnListNames | wmi.go:126-131 | The default column list names the struct's fields in declaration order. Splitting it at the commas gives them back. |
| Coerce.CoerceValue | wmi.go:230-241 | A string is taken verbatim. Every coerced value is one its field's kind and width can hold. |
| Coerce.Set | wmi.go:221-243 | A `FieldError` occurs exactly when no field has the name. An `UnsupportedTypeError` occurs exactly when the field's kind is not supported. Nothing else is fatal. A successful write goes to the named field with a value that field can hold. A parse failure only happens on a supported field. |
| Coerce.Apply | wmi.go:245-284 | The write changes the chosen field and nothing else. A failed coercion changes nothing. |
| Coerce.SetKeepsFit | wmi.go:221-284 | Whatever the input, setting a field keeps the record one its schema can hold, and leaves the other fields alone. |
| Coerce.SetString | wmi.go:245-248 | A string field takes the text verbatim. |
| Coerce.SetInt | wmi.go:250-257 | A signed field of width N takes the decimal spelling of v exactly when v fits in N bits. Otherwise the parse fails recoverably. |
| Coerce.SetUint | wmi.go:259-266 | The same for an unsigned field and a natural number. |
| Coerce.SetBool | wmi.go:277-284 | A bool field takes exactly the twelve canonical tokens, with the value they spell, and fails recoverably on anything else. |
| QueryBuilder.WhereTokens | wmi.go:106-117 | An empty filter adds no arguments. Any other filter adds `WHERE`, and the clause then starts with a `(`-prefixed token and ends with a `)`-suffixed one. |
| QueryBuilder.Parenthesize | wmi.go:110-116 | The wrapped token list starts with a `(`-prefixed token and ends with a `)`-suffixed one. |
| QueryBuilder.WhereClauseText | wmi.go:107-117 | As text, the clause is the trimmed filter. `( ` is added in front only when the first token lacks `(`, and ` )` behind only when the last token lacks `)`. |
| QueryBuilder.WhereTokensIdempotent | wmi.go:107-117 | Wrapping never doubles: passing the clause back in as the filter gives the same arguments. |
| QueryBuilder.Arguments | wmi.go:106-139 | The argument list reads back, unambiguously, into its class, its WHERE part and its column list. |
| QueryBuilder.AppendWhere | wmi.go:107-117 | The appends leave the earlier arguments followed by exactly the WHERE part. |
| QueryBuilder.CollectFieldNames | wmi.go:126-130 | The loop collects the field names in declaration order. |
| QueryBuilder.NameCache.Columns | wmi.go:121-134 | As written, the cache is keyed by the struct's unqualified name. A hit returns whatever was stored under that name. A miss stores and returns the comma-joined field names. |
| QueryBuilder.NameCacheServesStaleColumns | wmi.go:122-133 | Two anonymous struct types share the key "". After the first is looked up, the second gets the first's column list instead of its own. |
| QueryBuilder.TypeKeyedMemo | wmi.go:121-134 | Keyed by type, a lookup always returns the type's own column list and keeps the table consistent. A repeat lookup is a hit with the same result. |
| QueryBuilder.TypeCache.Columns | wmi.go:121-134 | The corrected cache returns the type's own column list and records it, and keeps every entry equal to its type's column list. |
| QueryBuilder.AppendGet | wmi.go:118-139 | The append leaves the earlier arguments followed by `GET`, the column list and the two switches. |
| QueryBuilder.NameKeyedGetListAgrees | wmi.go:121-134 | The name-keyed cache gives the type's own column list exactly when columns were given, the name is not cached yet, or what is cached under the name is that list. |
| QueryBuilder.BuildQuery | wmi.go:106-139 | As written, with the cache keyed by struct name. The argument list is `PATH class`, the WHERE part, `GET`, the given columns or what the name-keyed cache holds for the struct's name, and the two switches. The cache gains the struct's entry only on a miss with no columns given. |
| QueryBuilder.BuildQueryByType | wmi.go:106-139 | Corrected: the same argument list, with the type-keyed cache, so with no columns given the column list is always the type's own. The cache stays consistent. |
| Decode.Effect | wmi.go:170-197 | A line sets up framing only exactly when it is blank after trimming. |
| Decode.EffectWithoutSeparator | wmi.go:178-181 | A content line without `=` writes nothing. |
| Decode.EffectOfKeyValue | wmi.go:180-185 | A trimmed line `k=v` with `k` free of `=` hands `k` and the trimmed `v` to `set`, unless `v` is blank, when it writes nothing. |
| Decode.EffectIsOk | wmi.go:185 | Every write a line makes is to an existing field, with a value it can hold. |
| Decode.FirstAbort | wmi.go:186-191 | Reports the first line whose `set` is fatal, and no line when none is. |
| Decode.BlocksCount | wmi.go:167-203 | There is one block per run of non-blank lines. |
| Decode.BlocksConcat | wmi.go:169-203 | Framing loses and invents nothing: the blocks, concatenated, are exactly the non-blank lines in order. |
| Decode.BlocksNonBlank | wmi.go:170-179 | Every record's block is non-empty and holds only non-blank lines. |
| Decode.BlocksOfRun | wmi.go:170-179 | One run of non-blank lines is exactly one block. |
| Decode.BlocksSeparated | wmi.go:172-177 | No block spans a blank line: the blocks of `a`, a blank line, `b` are the blocks of `a` followed by those of `b`. With `BlocksOfRun` this fixes each block's bounds. |
| Decode.RecordsSeparated | wmi.go:172-177 | The same split holds for the records: those of `a`, a blank line, `b` are the records of `a` followed by those of `b`. |
| Decode.FillAllAppend | wmi.go:172-177 | Filling the blocks one by one distributes over joined block lists. |
| Decode.FillFits | wmi.go:166-185 | A record stays one its schema can hold through every write of a block. |
| Decode.FillUntouched | wmi.go:175-194 | A field that no line of the record writes keeps its zero value. This covers blank values and parse failures. |
| Decode.LastWriteWins | wmi.go:185 | When line i of a block writes value v to field k, and no later line of the block writes field k, the record holds v in field k. |
| Decode.DecodedRecords | wmi.go:161-203 | A completed decode gives one record per run of non-blank lines. Record k is the zero record with run k's writes applied in order, and every record fits the schema. |
| Decode.AbortedIff | wmi.go:185-191 | The decode aborts exactly when some line's `set` is fatal. The error is a `FieldError` or an `UnsupportedTypeError`. |
| Decode.ErrorsNumbered | wmi.go:168-193 | Every value that fails to parse adds one `RecordError`, in input order. Its number is the 1-based count of the record it belongs to. |
| Decode.ScanLine | wmi.go:170-197 | One pass of the loop body. It is fatal exactly when `set` is fatal, and then returns the errors gathered so far. Otherwise it makes the step of the declarative decode. |
| Decode.Scan | wmi.go:161-203 | The scanner loop computes exactly the declarative decode of the scanned lines: records and errors, or the first fatal error with the errors before it. |
| Decode.DecodeOutput | wmi.go:161-218 | On success `out` is a fresh array holding exactly the decoded records, and the record errors are returned. On a fatal error `out` is unchanged and the error is returned with the errors before it. |
| Wmi.QueryWithTimeout | wmi.go:79-219 | As written, with the cache keyed by struct name. The GET list is the given columns or what that cache holds for the name, and the cache is updated as `BuildQuery` states. Then a bad timeout, a failed run or any standard error output each return no record errors and leave `out` alone. Otherwise the result is what `DecodeOutput` states for the process's standard output. |
| Wmi.QueryWithTimeoutByType | wmi.go:79-219 | Corrected: the same, with the type-keyed cache, so the GET list is always the given columns or the type's own field names. |
| Wmi.Query | wmi.go:75-77 | As written: the same as `QueryWithTimeout` with the default timeout "30m" and an empty column list, whatever columns were passed. |
| Wmi.QueryAll | wmi.go:48-50 | `Query` with no columns and no WHERE clause. |
| Wmi.QueryAllWithTimeout | wmi.go:52-54 | `QueryWithTimeout` with no columns, no WHERE clause and the caller's timeout. |
| Wmi.QueryColumns | wmi.go:57-59 | `Query` without a WHERE clause. So it also queries the struct's fields, not the given columns. |
| Wmi.QueryColumnsWithTimeout | wmi.go:61-63 | `QueryWithTimeout` with the given columns, no WHERE clause and the caller's timeout. Unlike `QueryColumns`, the columns reach `wmic`. |
| Wmi.QueryWhere | wmi.go:66-68 | `Query` with no columns and the given WHERE clause. |
| Wmi.QueryWhereWithTimeout | wmi.go:70-72 | `QueryWithTimeout` with no columns, the given WHERE clause and the caller's timeout. |
| Wmi.QueryAsIntended | wmi.go:74-77 | Corrected `Query`: the given columns reach `wmic`. |
| Wmi.QueryDropsColumns | wmi.go:57-77 | Asked for `Name` on a struct with fields `Name` and `Size`, the code sends `GET Name,Size`; passing the columns on would send `GET Name`. |
| Wmi.QueryAllServesStaleColumns | wmi.go:121-134 | Two `QueryAll` calls, on anonymous structs `{Name}` and then `{Size}`, stated through the GET list and cache update in `QueryWithTimeout`'s contract: the second query sends `GET Name`, though its own list is `Size`. |
| DecodeExample.NameLine | wmi.go:245-248 | A `Name=v` line sets the string field to `v`. |
| DecodeExample.AdminTrueLine | wmi.go:277-284 | An `Admin=v` line with a true token sets the bool field to true. |
| DecodeExample.AdminRefusedLine | wmi.go:185-193 | An `Admin=v` line with a non-token `v` is a recoverable parse failure. |
| DecodeExample.TwoUsersDecode | wmi.go:166-203 | Two records separated by two blank lines decode to a record for Alice (an administrator) and a record for Bob. Bob's `Admin=yes` leaves false and one `RecordError` for record 2. |
| DecodeExample.EmailLine | wmi.go:226-229 | A key the struct lacks is a fatal `FieldError`. |
| DecodeExample.UnknownFieldDecode | wmi.go:186-188 | The unknown key aborts the decode, returning the error the first record had already gathered. |
| DecodeExample.TwoUsersDecodeLines | wmi.go:166-203 | From the text lines themselves (Alice, `Admin=true`, two blank lines, Bob, `Admin=yes`), the decode gives both records and the one `RecordError` for record 2. |
| DecodeExample.UnknownFieldDecodeLines | wmi.go:166-203 | From the text lines (Alice, `Admin=yes`, a blank line, `Email=…`), the decode aborts with a `FieldError` for `Email` and the record error of record 1. |

## Left out

- Running `wmic` (`exec.CommandContext`, the context and its cancel), standard output and standard error are not modelled. What a run gives is a parameter, a function from the argument list to an error, the standard output text and the standard error text.
- `time.ParseDuration` is not modelled. Whether a timeout string is valid is a parameter.
- `setFloatN` and `strconv.ParseFloat` are not modelled. Floating-point parsing is a parameter supplied by the caller, and the model only proves that a parsed float goes to the right field.
- The reflection checks that `out` is a pointer to a slice of structs (wmi.go:83-104) are not modelled. The destination type is an explicit field list, so those errors cannot arise. Pointer-element slices (wmi.go:95-99, 211-215) are not modelled either: the copy is always by value.
- Error message texts (`fmt.Sprintf`, `fmt.Errorf`, `RecordError.Message`) are not modelled. Errors are compared by kind and fields only.
- Concurrent access to the package-level `fieldCache` is not modelled. The code has no lock around it, and the model has one sequential cache object.
- Embedded fields, unexported fields and `FieldByName` promotion through embedded structs are not modelled. The field list is flat, with distinct names.
- The 64 KiB line limit of `bufio.Scanner`, and its unchecked `scanner.Err()`, are not modelled: every line is scanned.
- UTF-8 decoding of the process output is not modelled. Text is a sequence of Unicode code points, and invalid byte sequences cannot be expressed.
- Go's `int` and `uint` are modelled as 64 bits wide.

## Findings

| source | as written | input that shows it | evidently intended | confidence | as-written member | corrected member |
|---|---|---|---|---|---|---|
| wmi.go:122-132 | The field-name cache is keyed by `innerType.Name()`. That is the unqualified type name, empty for every anonymous struct. | Two queries with `QueryAll` into `[]struct{Name string}`, then into `[]struct{Size uint64}`: the second sends `GET Name`. | The cache is keyed by the type itself, so each type is served its own column list. | not executed | Wmi.QueryAllServesStaleColumns | Wmi.QueryWithTimeoutByType |
| wmi.go:76 | `Query` passes `[]string{}` to `QueryWithTimeout` in place of its `columns` parameter. | `QueryColumns("Win32_LogicalDisk", []string{"Name"}, &out)` with `out` of a struct with fields `Name` and `Size` sends `GET Name,Size`. | `Query` passes `columns` on, sending `GET Name`. | not executed | Wmi.QueryDropsColumns | Wmi.QueryAsIntended |
