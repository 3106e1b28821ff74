/** The key/value block decoder of `QueryWithTimeout` (lines 161-216): the
    scanner loop that frames `wmic`'s `/VALUE` output into records at blank
    lines and feeds every `key=value` line to `set`, and the copy of the
    framed records into the caller's slice.

    The specification has two layers: `Effect` says what the loop body does
    with one line, and the framer, the record filling and the error numbering
    are stated over the sequence of those effects. */
module Decode {
  import opened Wrappers
  import opened GoText
  import opened Schema
  import opened Coerce

  /** A line that is empty once trimmed. */
  predicate Blank(l: string) {
    TrimSpace(l) == []
  }

  /** What the loop body does with one line: a blank line (framing only), a
      content line that sets no field, or a `key=value` line with a non-empty
      value, handed to `set`. */
  datatype LineEffect =
    | BlankLine
    | NoAssignment
    | Assignment(key: string, coercion: Coercion)

  function Effect(fields: seq<Field>, l: string, parseFloat: FloatParser): (e: LineEffect)
    requires WellFormed(fields)
    ensures e.BlankLine? <==> Blank(l)
  {
    var s := TrimSpace(l);
    if s == [] then BlankLine
    else
      match CutFirst(s, '=')
      case None => NoAssignment
      case Some(kv) =>
        var val := TrimSpace(kv.1);
        if val == [] then NoAssignment else Assignment(kv.0, Set(fields, kv.0, val, parseFloat))
  }

  /** A content line without `=` sets nothing. */
  lemma EffectWithoutSeparator(fields: seq<Field>, l: string, parseFloat: FloatParser)
    requires WellFormed(fields) && !Blank(l) && '=' !in TrimSpace(l)
    ensures Effect(fields, l, parseFloat) == NoAssignment
  {
  }

  /** A trimmed line `k=v` with `k` free of `=` hands `k` and the trimmed `v`
      to `set`, however many `=` the value holds, unless the value is blank,
      in which case it sets nothing. */
  lemma EffectOfKeyValue(fields: seq<Field>, l: string, k: string, v: string, parseFloat: FloatParser)
    requires WellFormed(fields) && TrimSpace(l) == k + "=" + v && '=' !in k
    ensures Effect(fields, l, parseFloat) ==
            if Blank(v) then NoAssignment else Assignment(k, Set(fields, k, TrimSpace(v), parseFloat))
  {
    CutFirstOfPair(k, v, '=');
  }

  /** The effects of the scanned lines, one per line. */
  function Effects(fields: seq<Field>, ls: seq<string>, parseFloat: FloatParser): (es: seq<LineEffect>)
    requires WellFormed(fields)
    ensures |es| == |ls|
  {
    if ls == [] then [] else Effects(fields, ls[..|ls| - 1], parseFloat) + [Effect(fields, ls[|ls| - 1], parseFloat)]
  }

  lemma {:induction false} EffectsAt(fields: seq<Field>, ls: seq<string>, parseFloat: FloatParser, i: nat)
    requires WellFormed(fields) && i < |ls|
    ensures Effects(fields, ls, parseFloat)[i] == Effect(fields, ls[i], parseFloat)
    decreases |ls|
  {
    if i < |ls| - 1 {
      EffectsAt(fields, ls[..|ls| - 1], parseFloat, i);
    }
  }

  /** The effects are fixed line by line: a sequence that agrees with the
      effect of every line is the sequence of effects. */
  lemma EffectsPointwise(fields: seq<Field>, ls: seq<string>, parseFloat: FloatParser, es: seq<LineEffect>)
    requires WellFormed(fields) && |es| == |ls|
    requires forall i :: 0 <= i < |ls| ==> es[i] == Effect(fields, ls[i], parseFloat)
    ensures Effects(fields, ls, parseFloat) == es
  {
    forall i | 0 <= i < |ls|
      ensures Effects(fields, ls, parseFloat)[i] == es[i]
    {
      EffectsAt(fields, ls, parseFloat, i);
    }
  }

  /** An effect `set` can produce for a record of `fields`: a write lands on a
      field that exists and holds a value that field can hold. */
  predicate EffectOk(fields: seq<Field>, e: LineEffect) {
    e.Assignment? && e.coercion.Coerced? ==>
      e.coercion.index < |fields| && Conforms(fields[e.coercion.index].kind, e.coercion.value)
  }

  predicate AllOk(fields: seq<Field>, es: seq<LineEffect>) {
    forall i :: 0 <= i < |es| ==> EffectOk(fields, es[i])
  }

  lemma EffectsOk(fields: seq<Field>, ls: seq<string>, parseFloat: FloatParser)
    requires WellFormed(fields)
    ensures AllOk(fields, Effects(fields, ls, parseFloat))
  {
    var es := Effects(fields, ls, parseFloat);
    forall i | 0 <= i < |es|
      ensures EffectOk(fields, es[i])
    {
      EffectsAt(fields, ls, parseFloat, i);
      EffectIsOk(fields, ls[i], parseFloat);
    }
  }

  /** A line whose `set` fails fatally: it ends the decode. */
  predicate Aborts(e: LineEffect) {
    e.Assignment? && e.coercion.Fatal?
  }

  /** The write one line performs on the record being filled (`item`). */
  function ApplyEffect(r: Record, e: LineEffect): (r': Record)
    ensures |r'| == |r|
  {
    if e.Assignment? && e.coercion.Coerced? && e.coercion.index < |r| then Apply(r, e.coercion) else r
  }

  // ---------------------------------------------------------------------
  // The framer: maximal runs of non-blank lines.

  /** The blocks of the input: each maximal run of consecutive non-blank
      lines, in input order. */
  function Blocks(es: seq<LineEffect>): (b: seq<seq<LineEffect>>)
    ensures es != [] && !es[|es| - 1].BlankLine? ==> |b| > 0
  {
    if es == [] then []
    else
      var prev := Blocks(es[..|es| - 1]);
      var e := es[|es| - 1];
      if e.BlankLine? then prev
      else if |es| > 1 && !es[|es| - 2].BlankLine? then prev[..|prev| - 1] + [prev[|prev| - 1] + [e]]
      else prev + [[e]]
  }

  /** Line `i` begins a run: it is not blank and the line before it is. */
  predicate StartsRun(es: seq<LineEffect>, i: nat)
    requires i < |es|
  {
    !es[i].BlankLine? && (i == 0 || es[i - 1].BlankLine?)
  }

  /** How many runs begin among the lines. */
  function Runs(es: seq<LineEffect>): nat {
    if es == [] then 0
    else Runs(es[..|es| - 1]) + (if StartsRun(es, |es| - 1) then 1 else 0)
  }

  /** The non-blank lines, in order. */
  function NonBlank(es: seq<LineEffect>): seq<LineEffect> {
    if es == [] then []
    else NonBlank(es[..|es| - 1]) + (if es[|es| - 1].BlankLine? then [] else [es[|es| - 1]])
  }

  function Concat(bs: seq<seq<LineEffect>>): seq<LineEffect> {
    if bs == [] then [] else Concat(bs[..|bs| - 1]) + bs[|bs| - 1]
  }

  predicate BlockOk(b: seq<LineEffect>) {
    b != [] && forall j :: 0 <= j < |b| ==> !b[j].BlankLine?
  }

  /** One more line: the blocks of `es + [e]` in terms of those of `es`. */
  lemma BlocksSnoc(es: seq<LineEffect>, e: LineEffect)
    ensures var p := Blocks(es);
            var b := Blocks(es + [e]);
            && (e.BlankLine? ==> b == p)
            && (!e.BlankLine? && es != [] && !es[|es| - 1].BlankLine? ==>
                  |p| > 0 && b == p[..|p| - 1] + [p[|p| - 1] + [e]])
            && (!e.BlankLine? && (es == [] || es[|es| - 1].BlankLine?) ==> b == p + [[e]])
  {
    assert (es + [e])[..|es|] == es;
  }

  /** The framer makes one block per run of non-blank lines. */
  lemma {:induction false} BlocksCount(es: seq<LineEffect>)
    ensures |Blocks(es)| == Runs(es)
    decreases |es|
  {
    if es != [] {
      var init := es[..|es| - 1];
      assert es == init + [es[|es| - 1]];
      BlocksCount(init);
      BlocksSnoc(init, es[|es| - 1]);
    }
  }

  /** The framer keeps every non-blank line, in order, and drops every blank
      one. */
  lemma {:induction false} BlocksConcat(es: seq<LineEffect>)
    ensures Concat(Blocks(es)) == NonBlank(es)
    decreases |es|
  {
    if es != [] {
      var init := es[..|es| - 1];
      var e := es[|es| - 1];
      assert es == init + [e];
      BlocksConcat(init);
      BlocksSnoc(init, e);
      var p := Blocks(init);
      if e.BlankLine? {
      } else if init != [] && !init[|init| - 1].BlankLine? {
        var m := |p|;
        assert p == p[..m - 1] + [p[m - 1]];
        ConcatSnoc(p[..m - 1], p[m - 1]);
        ConcatSnoc(p[..m - 1], p[m - 1] + [e]);
      } else {
        ConcatSnoc(p, [e]);
      }
    }
  }

  /** Every block is non-empty and holds only non-blank lines. */
  lemma {:induction false} BlocksNonBlank(es: seq<LineEffect>)
    ensures forall k :: 0 <= k < |Blocks(es)| ==> BlockOk(Blocks(es)[k])
    decreases |es|
  {
    if es != [] {
      var init := es[..|es| - 1];
      var e := es[|es| - 1];
      assert es == init + [e];
      BlocksNonBlank(init);
      BlocksSnoc(init, e);
      var p := Blocks(init);
      if !e.BlankLine? && init != [] && !init[|init| - 1].BlankLine? {
        assert BlockOk(p[|p| - 1] + [e]);
      }
    }
  }

  /** A run of non-blank lines is one block. */
  lemma {:induction false} BlocksOfRun(es: seq<LineEffect>)
    requires es != [] && forall i :: 0 <= i < |es| ==> !es[i].BlankLine?
    ensures Blocks(es) == [es]
    decreases |es|
  {
    var init := es[..|es| - 1];
    var e := es[|es| - 1];
    assert es == init + [e];
    BlocksSnoc(init, e);
    if init != [] {
      BlocksOfRun(init);
      assert [init][..0] + [init + [e]] == [es];
    }
  }

  /** A blank line separates blocks: no block spans it, so the blocks of
      `a`, a blank line and `b` are those of `a` followed by those of `b`.
      With `BlocksOfRun` and `Blocks([]) == []` this fixes every block's
      bounds: each is exactly one maximal run, in input order. */
  lemma {:induction false} BlocksSeparated(a: seq<LineEffect>, b: seq<LineEffect>)
    ensures Blocks(a + [BlankLine] + b) == Blocks(a) + Blocks(b)
    decreases |b|
  {
    if b == [] {
      assert a + [BlankLine] + b == a + [BlankLine];
      BlocksSnoc(a, BlankLine);
    } else {
      var b0 := b[..|b| - 1];
      assert b == b0 + [b[|b| - 1]];
      BlocksSeparated(a, b0);
      BlocksSeparatedSnoc(a, b0, b[|b| - 1]);
    }
  }

  lemma BlocksSeparatedSnoc(a: seq<LineEffect>, b0: seq<LineEffect>, e: LineEffect)
    requires Blocks(a + [BlankLine] + b0) == Blocks(a) + Blocks(b0)
    ensures Blocks(a + [BlankLine] + (b0 + [e])) == Blocks(a) + Blocks(b0 + [e])
  {
    var pre := a + [BlankLine] + b0;
    assert a + [BlankLine] + (b0 + [e]) == pre + [e];
    if e.BlankLine? {
      assert Blocks(pre + [e]) == Blocks(pre) by { BlocksSnoc(pre, e); }
      assert Blocks(b0 + [e]) == Blocks(b0) by { BlocksSnoc(b0, e); }
    } else if b0 != [] && !b0[|b0| - 1].BlankLine? {
      SeparatedExtend(pre, a, b0, e);
    } else {
      assert pre[|pre| - 1].BlankLine? by {
        if b0 == [] {
          assert pre == a + [BlankLine];
        } else {
          assert pre[|pre| - 1] == b0[|b0| - 1];
        }
      }
      SeparatedOpen(pre, Blocks(a), b0, e);
    }
  }

  /** A non-blank line after a non-blank one extends the last block on both
      sides of the equation. */
  lemma SeparatedExtend(pre: seq<LineEffect>, a: seq<LineEffect>, b0: seq<LineEffect>, e: LineEffect)
    requires pre == a + [BlankLine] + b0 && Blocks(pre) == Blocks(a) + Blocks(b0)
    requires !e.BlankLine? && b0 != [] && !b0[|b0| - 1].BlankLine?
    ensures Blocks(pre + [e]) == Blocks(a) + Blocks(b0 + [e])
  {
    var p := Blocks(a);
    var q := Blocks(b0);
    assert pre[|pre| - 1] == b0[|b0| - 1];
    assert Blocks(b0 + [e]) == q[..|q| - 1] + [q[|q| - 1] + [e]] by { BlocksSnoc(b0, e); }
    assert Blocks(pre + [e]) == (p + q)[..|p + q| - 1] + [(p + q)[|p + q| - 1] + [e]] by { BlocksSnoc(pre, e); }
    ExtendLastOfAppend(p, q, e);
  }

  /** A non-blank line after a blank one opens a block on both sides of the
      equation. */
  lemma SeparatedOpen(pre: seq<LineEffect>, p: seq<seq<LineEffect>>, b0: seq<LineEffect>, e: LineEffect)
    requires Blocks(pre) == p + Blocks(b0)
    requires !e.BlankLine? && (pre == [] || pre[|pre| - 1].BlankLine?) && (b0 == [] || b0[|b0| - 1].BlankLine?)
    ensures Blocks(pre + [e]) == p + Blocks(b0 + [e])
  {
    var q := Blocks(b0);
    OpensBlock(b0, e);
    OpensBlock(pre, e);
    assert p + q + [[e]] == p + (q + [[e]]);
  }

  /** A non-blank line after a blank one, or at the start, adds a block of one line. */
  lemma OpensBlock(es: seq<LineEffect>, e: LineEffect)
    requires !e.BlankLine? && (es == [] || es[|es| - 1].BlankLine?)
    ensures Blocks(es + [e]) == Blocks(es) + [[e]]
  {
    BlocksSnoc(es, e);
  }

  lemma ExtendLastOfAppend(p: seq<seq<LineEffect>>, q: seq<seq<LineEffect>>, e: LineEffect)
    requires |q| > 0
    ensures var pq := p + q;
            pq[..|pq| - 1] + [pq[|pq| - 1] + [e]] == p + (q[..|q| - 1] + [q[|q| - 1] + [e]])
  {
    var pq := p + q;
    assert pq[..|pq| - 1] == p + q[..|q| - 1];
    assert pq[|pq| - 1] == q[|q| - 1];
  }

  lemma ConcatSnoc(bs: seq<seq<LineEffect>>, b: seq<LineEffect>)
    ensures Concat(bs + [b]) == Concat(bs) + b
  {
    assert (bs + [b])[..|bs|] == bs;
  }

  /** Every line of every block is a line of the input: whatever holds of all
      the lines holds of each block. */
  lemma {:induction false} BlocksKeepOk(fields: seq<Field>, es: seq<LineEffect>)
    requires AllOk(fields, es)
    ensures forall k :: 0 <= k < |Blocks(es)| ==> AllOk(fields, Blocks(es)[k])
    decreases |es|
  {
    if es != [] {
      var init := es[..|es| - 1];
      var e := es[|es| - 1];
      assert es == init + [e];
      assert AllOk(fields, init);
      BlocksKeepOk(fields, init);
      BlocksSnoc(init, e);
      var p := Blocks(init);
      if !e.BlankLine? && init != [] && !init[|init| - 1].BlankLine? {
        assert AllOk(fields, p[|p| - 1] + [e]);
      }
    }
  }

  // ---------------------------------------------------------------------
  // The records and the recoverable errors the loop produces.

  /** The record built from one block: the writes of its lines, in order, on
      the given record. */
  function Fill(r: Record, b: seq<LineEffect>): (r': Record)
    ensures |r'| == |r|
  {
    if b == [] then r else ApplyEffect(Fill(r, b[..|b| - 1]), b[|b| - 1])
  }

  /** One record per block, each filled from the zero record. */
  function FillAll(zero: Record, bs: seq<seq<LineEffect>>): (rs: seq<Record>)
    ensures |rs| == |bs|
  {
    if bs == [] then [] else FillAll(zero, bs[..|bs| - 1]) + [Fill(zero, bs[|bs| - 1])]
  }

  /** The `RecordError` one line adds while record number `n` is being filled. */
  function LineErrors(className: string, e: LineEffect, n: int): seq<RecordError> {
    match e
    case Assignment(k, ParseFailed) => [RecordError(className, k, n)]
    case _ => []
  }

  function BlockErrors(className: string, b: seq<LineEffect>, n: int): seq<RecordError> {
    if b == [] then []
    else BlockErrors(className, b[..|b| - 1], n) + LineErrors(className, b[|b| - 1], n)
  }

  /** The errors of every block, block `k` (from 0) numbered `k + 1`. */
  function Errors(className: string, bs: seq<seq<LineEffect>>): seq<RecordError> {
    if bs == [] then []
    else Errors(className, bs[..|bs| - 1]) + BlockErrors(className, bs[|bs| - 1], |bs|)
  }

  /** The first line whose `set` fails fatally, if any. */
  function FirstAbort(es: seq<LineEffect>): (r: Option<nat>)
    ensures r.Some? ==> r.value < |es| && Aborts(es[r.value])
                        && forall j :: 0 <= j < r.value ==> !Aborts(es[j])
    ensures r.None? ==> forall j :: 0 <= j < |es| ==> !Aborts(es[j])
  {
    if es == [] then None
    else if Aborts(es[0]) then Some(0)
    else
      match FirstAbort(es[1..])
      case None => None
      case Some(j) => Some(j + 1)
  }

  /** The result of a decode: the records and the recoverable errors, or the
      fatal error together with the recoverable errors gathered before it. */
  datatype Outcome =
    | Decoded(records: seq<Record>, errors: seq<RecordError>)
    | Aborted(error: Error, errors: seq<RecordError>)

  /** What decoding yields, stated through the framer: one record per block,
      filled from the zero record, and each block's parse failures numbered
      with the block's position; or, at the first fatal `set`, that error and
      the parse failures of the lines before it. */
  function DecodeEffects(className: string, zero: Record, es: seq<LineEffect>): Outcome {
    match FirstAbort(es)
    case Some(j) => Aborted(es[j].coercion.error, Errors(className, Blocks(es[..j])))
    case None => Decoded(FillAll(zero, Blocks(es)), Errors(className, Blocks(es)))
  }

  function DecodeLines(fields: seq<Field>, className: string, ls: seq<string>, parseFloat: FloatParser): Outcome
    requires WellFormed(fields)
  {
    DecodeEffects(className, Zero(fields), Effects(fields, ls, parseFloat))
  }

  lemma FillSnoc(r: Record, b: seq<LineEffect>, e: LineEffect)
    ensures Fill(r, b + [e]) == ApplyEffect(Fill(r, b), e)
  {
    assert (b + [e])[..|b|] == b;
  }

  lemma FillAllSnoc(zero: Record, bs: seq<seq<LineEffect>>, b: seq<LineEffect>)
    ensures FillAll(zero, bs + [b]) == FillAll(zero, bs) + [Fill(zero, b)]
  {
    assert (bs + [b])[..|bs|] == bs;
  }

  lemma {:induction false} FillAllAppend(zero: Record, p: seq<seq<LineEffect>>, q: seq<seq<LineEffect>>)
    ensures FillAll(zero, p + q) == FillAll(zero, p) + FillAll(zero, q)
    decreases |q|
  {
    if q == [] {
      assert p + q == p;
    } else {
      var q0 := q[..|q| - 1];
      assert p + q == (p + q0) + [q[|q| - 1]];
      assert q == q0 + [q[|q| - 1]];
      FillAllAppend(zero, p, q0);
      FillAllSnoc(zero, p + q0, q[|q| - 1]);
      FillAllSnoc(zero, q0, q[|q| - 1]);
    }
  }

  /** The records a blank line separates are built independently: those of
      `a`, a blank line and `b` are the records of `a` followed by the
      records of `b`, so no record takes lines from both sides. */
  lemma RecordsSeparated(zero: Record, a: seq<LineEffect>, b: seq<LineEffect>)
    ensures FillAll(zero, Blocks(a + [BlankLine] + b)) == FillAll(zero, Blocks(a)) + FillAll(zero, Blocks(b))
  {
    BlocksSeparated(a, b);
    FillAllAppend(zero, Blocks(a), Blocks(b));
  }

  lemma BlockErrorsSnoc(className: string, b: seq<LineEffect>, e: LineEffect, n: int)
    ensures BlockErrors(className, b + [e], n) == BlockErrors(className, b, n) + LineErrors(className, e, n)
  {
    assert (b + [e])[..|b|] == b;
  }

  lemma ErrorsSnoc(className: string, bs: seq<seq<LineEffect>>, b: seq<LineEffect>)
    ensures Errors(className, bs + [b]) == Errors(className, bs) + BlockErrors(className, b, |bs| + 1)
  {
    assert (bs + [b])[..|bs|] == bs;
  }

  /** Extending the last block by one line adds that line's errors, numbered
      with the last block's position. */
  lemma ErrorsExtendLast(className: string, p: seq<seq<LineEffect>>, e: LineEffect)
    requires |p| > 0
    ensures Errors(className, p[..|p| - 1] + [p[|p| - 1] + [e]]) ==
            Errors(className, p) + LineErrors(className, e, |p|)
  {
    var m := |p|;
    assert p == p[..m - 1] + [p[m - 1]];
    ErrorsSnoc(className, p[..m - 1], p[m - 1]);
    ErrorsSnoc(className, p[..m - 1], p[m - 1] + [e]);
    BlockErrorsSnoc(className, p[m - 1], e, m);
  }

  // ---------------------------------------------------------------------
  // Properties of the decode.

  /** The records are those of the blocks, in order: record `k` is block `k`
      applied to the zero record. */
  lemma {:induction false} FillAllAt(zero: Record, bs: seq<seq<LineEffect>>, k: nat)
    requires k < |bs|
    ensures FillAll(zero, bs)[k] == Fill(zero, bs[k])
    decreases |bs|
  {
    if k < |bs| - 1 {
      FillAllAt(zero, bs[..|bs| - 1], k);
    }
  }

  /** A record keeps a shape its schema can hold through every write of a
      block. */
  lemma {:induction false} FillFits(fields: seq<Field>, r: Record, b: seq<LineEffect>)
    requires Fits(fields, r) && AllOk(fields, b)
    ensures Fits(fields, Fill(r, b))
    decreases |b|
  {
    if b != [] {
      assert AllOk(fields, b[..|b| - 1]);
      FillFits(fields, r, b[..|b| - 1]);
      assert EffectOk(fields, b[|b| - 1]);
    }
  }

  /** A field no line of the block writes keeps the value it had (in a fresh
      record, its zero value). */
  lemma {:induction false} FillUntouched(r: Record, b: seq<LineEffect>, j: nat)
    requires j < |r|
    requires forall i :: 0 <= i < |b| ==> !(b[i].Assignment? && b[i].coercion.Coerced? && b[i].coercion.index == j)
    ensures Fill(r, b)[j] == r[j]
    decreases |b|
  {
    if b != [] {
      FillUntouched(r, b[..|b| - 1], j);
    }
  }

  /** The last write to a field wins: a field written by line `i` of the
      block, and by no line after it, holds that line's value. */
  lemma {:induction false} LastWriteWins(r: Record, b: seq<LineEffect>, i: nat, k: nat, v: Value)
    requires i < |b| && k < |r|
    requires b[i].Assignment? && b[i].coercion == Coerced(k, v)
    requires forall j :: i < j < |b| ==> !(b[j].Assignment? && b[j].coercion.Coerced? && b[j].coercion.index == k)
    ensures Fill(r, b)[k] == v
    decreases |b|
  {
    if i < |b| - 1 {
      LastWriteWins(r, b[..|b| - 1], i, k, v);
    }
  }

  /** A completed decode yields one record per run of non-blank lines, record
      `k` filled from the zero record by the lines of run `k`, and every record
      a value the schema can hold. */
  lemma DecodedRecords(fields: seq<Field>, className: string, ls: seq<string>, parseFloat: FloatParser)
    requires WellFormed(fields)
    requires DecodeLines(fields, className, ls, parseFloat).Decoded?
    ensures var es := Effects(fields, ls, parseFloat);
            var records := DecodeLines(fields, className, ls, parseFloat).records;
            && |records| == Runs(es)
            && (forall k :: 0 <= k < |records| ==> records[k] == Fill(Zero(fields), Blocks(es)[k]))
            && (forall k :: 0 <= k < |records| ==> Fits(fields, records[k]))
  {
    var es := Effects(fields, ls, parseFloat);
    var bs := Blocks(es);
    var records := DecodeLines(fields, className, ls, parseFloat).records;
    assert records == FillAll(Zero(fields), bs);
    BlocksCount(es);
    EffectsOk(fields, ls, parseFloat);
    BlocksKeepOk(fields, es);
    forall k | 0 <= k < |records|
      ensures records[k] == Fill(Zero(fields), bs[k]) && Fits(fields, records[k])
    {
      FillAllAt(Zero(fields), bs, k);
      FillFits(fields, Zero(fields), bs[k]);
    }
  }

  /** A decode aborts exactly when some line's `set` fails fatally; the error is
      that of the first such line, a `FieldError` or an `UnsupportedTypeError`,
      and no records come out. */
  lemma AbortedIff(fields: seq<Field>, className: string, ls: seq<string>, parseFloat: FloatParser)
    requires WellFormed(fields)
    ensures var es := Effects(fields, ls, parseFloat);
            var o := DecodeLines(fields, className, ls, parseFloat);
            && (o.Aborted? <==> exists j :: 0 <= j < |ls| && Aborts(es[j]))
            && (o.Aborted? ==> o.error.FieldError? || o.error.UnsupportedTypeError?)
  {
    var es := Effects(fields, ls, parseFloat);
    AbortedAt(className, Zero(fields), es);
    if FirstAbort(es).Some? {
      var j := FirstAbort(es).value;
      EffectsAt(fields, ls, parseFloat, j);
      FatalKinds(fields, ls[j], parseFloat);
    }
  }

  /** On effects: the decode aborts exactly when some line aborts, with the
      error of the first such line. */
  lemma AbortedAt(className: string, zero: Record, es: seq<LineEffect>)
    ensures var o := DecodeEffects(className, zero, es);
            && (o.Aborted? <==> exists j :: 0 <= j < |es| && Aborts(es[j]))
            && (o.Aborted? ==> FirstAbort(es).Some? && o.error == es[FirstAbort(es).value].coercion.error)
  {
  }

  /** A line that aborts carries one of the two errors `set` returns. */
  lemma FatalKinds(fields: seq<Field>, l: string, parseFloat: FloatParser)
    requires WellFormed(fields)
    ensures var e := Effect(fields, l, parseFloat);
            Aborts(e) ==> e.coercion.error.FieldError? || e.coercion.error.UnsupportedTypeError?
  {
  }

  /** The recoverable errors, line by line: every line whose value failed to
      parse contributes one error, in input order, numbered with the count of
      runs begun up to and including that line. */
  function NumberedErrors(className: string, es: seq<LineEffect>): seq<RecordError> {
    if es == [] then []
    else NumberedErrors(className, es[..|es| - 1]) + LineErrors(className, es[|es| - 1], Runs(es))
  }

  /** The block-wise error numbering agrees with the line-wise one: the `line`
      field of a `RecordError` is the 1-based number of the record (the run of
      non-blank lines) the bad value sat in. */
  lemma {:induction false} ErrorsNumbered(className: string, es: seq<LineEffect>)
    ensures Errors(className, Blocks(es)) == NumberedErrors(className, es)
    decreases |es|
  {
    if es != [] {
      var init := es[..|es| - 1];
      var e := es[|es| - 1];
      assert es == init + [e];
      ErrorsNumbered(className, init);
      ErrorsNumberedSnoc(className, init, e);
    }
  }

  /** One line appended keeps the two numberings in step. */
  lemma ErrorsNumberedSnoc(className: string, init: seq<LineEffect>, e: LineEffect)
    requires Errors(className, Blocks(init)) == NumberedErrors(className, init)
    ensures Errors(className, Blocks(init + [e])) == NumberedErrors(className, init + [e])
  {
    var es := init + [e];
    assert es[..|es| - 1] == init && es[|es| - 1] == e;
    assert NumberedErrors(className, es) == NumberedErrors(className, init) + LineErrors(className, e, Runs(es));
    BlocksCount(init);
    if e.BlankLine? {
      BlocksSnoc(init, e);
    } else if init != [] && !init[|init| - 1].BlankLine? {
      ErrorsNumberedExtend(className, init, e);
    } else {
      ErrorsNumberedOpen(className, init, e);
    }
  }

  /** A content line after a content line joins the last block and takes its number. */
  lemma ErrorsNumberedExtend(className: string, init: seq<LineEffect>, e: LineEffect)
    requires !e.BlankLine? && init != [] && !init[|init| - 1].BlankLine?
    ensures Errors(className, Blocks(init + [e])) ==
            Errors(className, Blocks(init)) + LineErrors(className, e, Runs(init + [e]))
  {
    var es := init + [e];
    assert es[..|es| - 1] == init;
    assert Runs(es) == Runs(init);
    BlocksSnoc(init, e);
    BlocksCount(init);
    ErrorsExtendLast(className, Blocks(init), e);
  }

  /** A content line after a blank one, or first, opens a new block with the next number. */
  lemma ErrorsNumberedOpen(className: string, init: seq<LineEffect>, e: LineEffect)
    requires !e.BlankLine? && (init == [] || init[|init| - 1].BlankLine?)
    ensures Errors(className, Blocks(init + [e])) ==
            Errors(className, Blocks(init)) + LineErrors(className, e, Runs(init + [e]))
  {
    var es := init + [e];
    var p := Blocks(init);
    assert Runs(es) == |p| + 1 by {
      assert es[..|es| - 1] == init;
      assert StartsRun(es, |es| - 1);
      BlocksCount(init);
    }
    assert Blocks(es) == p + [[e]] by {
      BlocksSnoc(init, e);
    }
    assert Errors(className, p + [[e]]) == Errors(className, p) + LineErrors(className, e, |p| + 1) by {
      ErrorsSnoc(className, p, [e]);
      assert [] + [e] == [e];
      BlockErrorsSnoc(className, [], e, |p| + 1);
    }
  }

  lemma EffectsSnoc(fields: seq<Field>, lines: seq<string>, i: nat, parseFloat: FloatParser)
    requires WellFormed(fields) && i < |lines|
    ensures Effects(fields, lines[..i + 1], parseFloat) ==
            Effects(fields, lines[..i], parseFloat) + [Effect(fields, lines[i], parseFloat)]
  {
    assert lines[..i + 1][..i] == lines[..i];
  }

  lemma EffectsPrefix(fields: seq<Field>, lines: seq<string>, i: nat, parseFloat: FloatParser)
    requires WellFormed(fields) && i <= |lines|
    ensures Effects(fields, lines, parseFloat)[..i] == Effects(fields, lines[..i], parseFloat)
  {
    var es := Effects(fields, lines, parseFloat)[..i];
    forall j | 0 <= j < i
      ensures es[j] == Effect(fields, lines[..i][j], parseFloat)
    {
      EffectsAt(fields, lines, parseFloat, j);
    }
    EffectsPointwise(fields, lines[..i], parseFloat, es);
  }

  // ---------------------------------------------------------------------
  // The loop.

  /** The variables of the scanner loop: whether a record is open
      (`contentStarted`), the records already closed (`result`), the record
      being filled (`item`), the number of that record from 1 (`line`) and the
      parse failures so far (`recordErrors`). */
  datatype ScanState = ScanState(contentStarted: bool, result: seq<Record>, item: Record, line: int,
                                 recordErrors: seq<RecordError>)

  /** One pass of the loop body over a line that does not abort. */
  function Step(zero: Record, className: string, st: ScanState, e: LineEffect): ScanState {
    if e.BlankLine? then
      if st.contentStarted then ScanState(false, st.result + [st.item], zero, st.line + 1, st.recordErrors)
      else st
    else
      ScanState(true, st.result, ApplyEffect(st.item, e), st.line, st.recordErrors + LineErrors(className, e, st.line))
  }

  /** The loop variables after the lines `es`, none of which aborts. */
  ghost function ScanSpec(zero: Record, className: string, es: seq<LineEffect>): ScanState {
    if es == [] then ScanState(false, [], zero, 1, [])
    else Step(zero, className, ScanSpec(zero, className, es[..|es| - 1]), es[|es| - 1])
  }

  lemma ScanSpecSnoc(zero: Record, className: string, es: seq<LineEffect>, e: LineEffect)
    ensures ScanSpec(zero, className, es + [e]) == Step(zero, className, ScanSpec(zero, className, es), e)
  {
    assert (es + [e])[..|es|] == es;
  }

  /** What the loop variables mean in terms of the framer. */
  ghost predicate Scanned(zero: Record, className: string, es: seq<LineEffect>, st: ScanState) {
    var bs := Blocks(es);
    && (st.contentStarted <==> es != [] && !es[|es| - 1].BlankLine?)
    && st.recordErrors == Errors(className, bs)
    && (st.contentStarted ==> && |bs| > 0
                              && st.result == FillAll(zero, bs[..|bs| - 1])
                              && st.item == Fill(zero, bs[|bs| - 1])
                              && st.line == |bs|)
    && (!st.contentStarted ==> && st.result == FillAll(zero, bs)
                               && st.item == zero
                               && st.line == |bs| + 1)
  }

  /** A blank line closes the open record, if any, and opens none. */
  lemma ScannedBlank(zero: Record, className: string, es: seq<LineEffect>, st: ScanState)
    requires Scanned(zero, className, es, st)
    ensures Scanned(zero, className, es + [BlankLine], Step(zero, className, st, BlankLine))
  {
    BlocksSnoc(es, BlankLine);
    var p := Blocks(es);
    if st.contentStarted {
      FillAllSnoc(zero, p[..|p| - 1], p[|p| - 1]);
      assert p[..|p| - 1] + [p[|p| - 1]] == p;
    }
  }

  /** A content line extends the open record, or opens a new one, with its
      write and its parse failure. */
  lemma ScannedContent(zero: Record, className: string, es: seq<LineEffect>, st: ScanState, e: LineEffect)
    requires Scanned(zero, className, es, st)
    requires !e.BlankLine?
    ensures Scanned(zero, className, es + [e], Step(zero, className, st, e))
  {
    if st.contentStarted {
      ScannedExtend(zero, className, es, st, e);
    } else {
      ScannedOpen(zero, className, es, st, e);
    }
  }

  /** A content line while a record is open extends that record. */
  lemma ScannedExtend(zero: Record, className: string, es: seq<LineEffect>, st: ScanState, e: LineEffect)
    requires Scanned(zero, className, es, st) && st.contentStarted
    requires !e.BlankLine?
    ensures Scanned(zero, className, es + [e], Step(zero, className, st, e))
  {
    var p := Blocks(es);
    var st' := Step(zero, className, st, e);
    assert Blocks(es + [e]) == p[..|p| - 1] + [p[|p| - 1] + [e]] by { BlocksSnoc(es, e); }
    assert st'.recordErrors == Errors(className, Blocks(es + [e])) by { ErrorsExtendLast(className, p, e); }
    assert st'.item == Fill(zero, p[|p| - 1] + [e]) by { FillSnoc(zero, p[|p| - 1], e); }
    assert (p[..|p| - 1] + [p[|p| - 1] + [e]])[..|p| - 1] == p[..|p| - 1];
  }

  /** A content line while no record is open opens one. */
  lemma ScannedOpen(zero: Record, className: string, es: seq<LineEffect>, st: ScanState, e: LineEffect)
    requires Scanned(zero, className, es, st) && !st.contentStarted
    requires !e.BlankLine?
    ensures Scanned(zero, className, es + [e], Step(zero, className, st, e))
  {
    var p := Blocks(es);
    var st' := Step(zero, className, st, e);
    var bs := Blocks(es + [e]);
    assert bs == p + [[e]] by {
      assert es == [] || es[|es| - 1].BlankLine?;
      OpensBlock(es, e);
    }
    assert st.result == FillAll(zero, p) && st.item == zero && st.line == |p| + 1;
    assert st' == ScanState(true, st.result, ApplyEffect(zero, e), |p| + 1, st.recordErrors + LineErrors(className, e, |p| + 1));
    assert st'.recordErrors == Errors(className, bs) by {
      ErrorsSnoc(className, p, [e]);
      BlockErrorsSnoc(className, [], e, |p| + 1);
      assert [] + [e] == [e];
    }
    assert st'.item == Fill(zero, bs[|bs| - 1]) by {
      FillSnoc(zero, [], e);
      assert [] + [e] == [e];
    }
    assert bs[..|bs| - 1] == p;
    assert (es + [e])[|es + [e]| - 1] == e;
  }

  /** The loop keeps its meaning: after any lines, its variables describe the
      blocks framed so far. */
  lemma {:induction false} ScanSpecScanned(zero: Record, className: string, es: seq<LineEffect>)
    ensures Scanned(zero, className, es, ScanSpec(zero, className, es))
    decreases |es|
  {
    if es != [] {
      var init := es[..|es| - 1];
      var e := es[|es| - 1];
      assert es == init + [e];
      ScanSpecScanned(zero, className, init);
      if e.BlankLine? {
        ScannedBlank(zero, className, init, ScanSpec(zero, className, init));
      } else {
        ScannedContent(zero, className, init, ScanSpec(zero, className, init), e);
      }
    }
  }

  /** At the end of the input, closing the open record gives every block's
      record. */
  lemma ScannedEnd(zero: Record, className: string, es: seq<LineEffect>, st: ScanState)
    requires Scanned(zero, className, es, st)
    ensures (if st.contentStarted then st.result + [st.item] else st.result) == FillAll(zero, Blocks(es))
    ensures st.recordErrors == Errors(className, Blocks(es))
  {
    if st.contentStarted {
      var p := Blocks(es);
      FillAllSnoc(zero, p[..|p| - 1], p[|p| - 1]);
      assert p[..|p| - 1] + [p[|p| - 1]] == p;
    }
  }

  /** `FirstAbort` finds the first aborting line. */
  lemma FirstAbortAt(es: seq<LineEffect>, i: nat)
    requires i < |es| && Aborts(es[i])
    requires forall j :: 0 <= j < i ==> !Aborts(es[j])
    ensures FirstAbort(es) == Some(i)
  {
  }

  lemma ScanSpecErrors(zero: Record, className: string, es: seq<LineEffect>)
    ensures ScanSpec(zero, className, es).recordErrors == Errors(className, Blocks(es))
  {
    ScanSpecScanned(zero, className, es);
  }

  /** The loop's exit at a fatal `set` on line `i`, the first line that
      aborts, gives what `DecodeLines` states. */
  lemma AbortByScan(fields: seq<Field>, className: string, lines: seq<string>, i: nat, parseFloat: FloatParser)
    requires WellFormed(fields) && i < |lines|
    requires forall j :: 0 <= j < i ==> !Aborts(Effects(fields, lines[..i], parseFloat)[j])
    requires Aborts(Effect(fields, lines[i], parseFloat))
    ensures DecodeLines(fields, className, lines, parseFloat) ==
            Aborted(Effect(fields, lines[i], parseFloat).coercion.error,
                    ScanSpec(Zero(fields), className, Effects(fields, lines[..i], parseFloat)).recordErrors)
  {
    var es := Effects(fields, lines, parseFloat);
    var before := Effects(fields, lines[..i], parseFloat);
    EffectsPrefix(fields, lines, i, parseFloat);
    EffectsAt(fields, lines, parseFloat, i);
    forall j | 0 <= j < i
      ensures !Aborts(es[j])
    {
      assert es[j] == before[j];
    }
    FirstAbortAt(es, i);
    ScanSpecErrors(Zero(fields), className, before);
  }

  /** The loop's normal exit, with the last record closed, gives what
      `DecodeLines` states. */
  lemma DecodeByScan(fields: seq<Field>, className: string, lines: seq<string>, parseFloat: FloatParser)
    requires WellFormed(fields)
    requires forall j :: 0 <= j < |lines| ==> !Aborts(Effects(fields, lines, parseFloat)[j])
    ensures var st := ScanSpec(Zero(fields), className, Effects(fields, lines, parseFloat));
            DecodeLines(fields, className, lines, parseFloat) ==
            Decoded(if st.contentStarted then st.result + [st.item] else st.result, st.recordErrors)
  {
    var es := Effects(fields, lines, parseFloat);
    ScanSpecScanned(Zero(fields), className, es);
    ScannedEnd(Zero(fields), className, es, ScanSpec(Zero(fields), className, es));
  }

  /** `set` only writes a field that exists, with a value it can hold. */
  lemma EffectIsOk(fields: seq<Field>, l: string, parseFloat: FloatParser)
    requires WellFormed(fields)
    ensures EffectOk(fields, Effect(fields, l, parseFloat))
  {
  }

  /** One pass of the loop body (lines 170-197) over a line whose parse is
      `effect`: a blank line closes the open record, any other line opens
      one, and a `key=value` line applies `set`'s outcome to it. A fatal `set`
      is reported with the errors gathered so far. */
  method ScanLine(fields: seq<Field>, className: string, effect: LineEffect,
                  contentStarted: bool, result: seq<Record>, item: Record, line: int,
                  recordErrors: seq<RecordError>)
    returns (contentStarted': bool, result': seq<Record>, item': Record, line': int,
             recordErrors': seq<RecordError>, fatal: Option<Error>)
    requires WellFormed(fields) && |item| == |fields| && EffectOk(fields, effect)
    ensures fatal.Some? <==> Aborts(effect)
    ensures fatal.Some? ==> fatal.value == effect.coercion.error && recordErrors' == recordErrors
    ensures fatal.None? ==>
              ScanState(contentStarted', result', item', line', recordErrors') ==
              Step(Zero(fields), className, ScanState(contentStarted, result, item, line, recordErrors), effect)
    ensures |item'| == |fields|
  {
    contentStarted', result', item', line', recordErrors', fatal := contentStarted, result, item, line, recordErrors, None;
    match effect {
      case BlankLine =>
        if contentStarted' {
          line' := line' + 1;
          result' := result' + [item'];
          item' := Zero(fields);
          contentStarted' := false;
        }
      case NoAssignment =>
        contentStarted' := true;
      case Assignment(param, c) =>
        contentStarted' := true;
        match c {
          case Fatal(err) =>
            fatal := Some(err);
          case ParseFailed =>
            recordErrors' := recordErrors' + [RecordError(className, param, line')];
          case Coerced(k, v) =>
            item' := item'[k := v];
        }
    }
  }

  /** The scanner loop of lines 166-203, run over the scanned lines. It
      computes exactly what `DecodeLines` states. */
  method Scan(fields: seq<Field>, className: string, lines: seq<string>, parseFloat: FloatParser)
    returns (outcome: Outcome)
    requires WellFormed(fields)
    ensures outcome == DecodeLines(fields, className, lines, parseFloat)
  {
    ghost var zero := Zero(fields);
    ghost var es: seq<LineEffect> := [];
    var result: seq<Record> := [];
    var item := Zero(fields);
    var contentStarted := false;
    var line := 1;
    var recordErrors: seq<RecordError> := [];
    var i := 0;
    while i < |lines|
      invariant 0 <= i <= |lines|
      invariant es == Effects(fields, lines[..i], parseFloat)
      invariant |es| == i
      invariant forall j :: 0 <= j < i ==> !Aborts(es[j])
      invariant |item| == |fields|
      invariant ScanState(contentStarted, result, item, line, recordErrors) == ScanSpec(zero, className, es)
    {
      var effect := Effect(fields, lines[i], parseFloat);
      EffectIsOk(fields, lines[i], parseFloat);
      var fatal;
      contentStarted, result, item, line, recordErrors, fatal :=
        ScanLine(fields, className, effect, contentStarted, result, item, line, recordErrors);
      EffectsSnoc(fields, lines, i, parseFloat);
      if fatal.Some? {
        AbortByScan(fields, className, lines, i, parseFloat);
        return Aborted(fatal.value, recordErrors);
      }
      ScanSpecSnoc(zero, className, es, effect);
      es := es + [effect];
      i := i + 1;
    }
    assert lines[..i] == lines;
    DecodeByScan(fields, className, lines, parseFloat);
    if contentStarted {
      result := result + [item];
    }
    outcome := Decoded(result, recordErrors);
  }

  /** The caller's `out` slice (`*[]T`); `elems` is the slice it points to. */
  class OutSlice {
    var elems: array<Record>

    constructor ()
      ensures elems.Length == 0
    {
      elems := new Record[0];
    }
  }

  /** Lines 161-218 of `QueryWithTimeout`: scan `wmic`'s output and, unless a
      fatal error stops it, point `out` at a new slice of exactly as many
      records as were framed, written element by element in input order. On a
      fatal error `out` is left as it was. */
  method DecodeOutput(fields: seq<Field>, className: string, stdout: string, parseFloat: FloatParser, out: OutSlice)
    returns (recordErrors: seq<RecordError>, err: Option<Error>)
    requires WellFormed(fields)
    modifies out
    ensures match DecodeLines(fields, className, ScanLines(stdout), parseFloat)
            case Decoded(records, errors) =>
              && err == None && recordErrors == errors
              && fresh(out.elems) && out.elems[..] == records
            case Aborted(error, errors) =>
              && err == Some(error) && recordErrors == errors
              && out.elems == old(out.elems)
  {
    var outcome := Scan(fields, className, ScanLines(stdout), parseFloat);
    if outcome.Aborted? {
      return outcome.errors, Some(outcome.error);
    }
    var records := outcome.records;
    var slice := new Record[|records|];
    for i := 0 to |records|
      invariant slice[..i] == records[..i]
    {
      slice[i] := records[i];
    }
    assert slice[..] == slice[..|records|];
    out.elems := slice;
    return outcome.errors, None;
  }
}
