/** The pieces of Go's `strings` and `bufio` packages that the decoder relies on,
    stated over `seq<char>` (one `char` per Unicode code point). */
module GoText {
  import opened Wrappers

  /** `unicode.IsSpace`: the Latin-1 spaces and the other White_Space code points. */
  predicate IsSpace(c: char) {
    || c == ' ' || c == '\t' || c == '\n' || c == '\r' || c == '\U{0B}' || c == '\U{0C}'
    || c == '\U{85}' || c == '\U{A0}' || c == '\U{1680}'
    || ('\U{2000}' <= c <= '\U{200A}')
    || c == '\U{2028}' || c == '\U{2029}' || c == '\U{202F}' || c == '\U{205F}' || c == '\U{3000}'
  }

  predicate AllSpace(s: string) {
    forall k :: 0 <= k < |s| ==> IsSpace(s[k])
  }

  /** Drops the leading white space: what remains is a suffix of `s` that does
      not start with a space, and everything dropped was a space. */
  function TrimLeft(s: string): (r: string)
    ensures |r| <= |s| && r == s[|s| - |r|..]
    ensures r == [] || !IsSpace(r[0])
    ensures AllSpace(s[..|s| - |r|])
  {
    if s != [] && IsSpace(s[0]) then TrimLeft(s[1..]) else s
  }

  /** Drops the trailing white space: what remains is a prefix of `s` that does
      not end with a space, and everything dropped was a space. */
  function TrimRight(s: string): (r: string)
    ensures |r| <= |s| && r == s[..|r|]
    ensures r == [] || !IsSpace(r[|r| - 1])
    ensures AllSpace(s[|r|..])
  {
    if s != [] && IsSpace(s[|s| - 1]) then TrimRight(s[..|s| - 1]) else s
  }

  /** `strings.TrimSpace`: the segment of `s` left once the white space at
      both ends is dropped. */
  function TrimSpace(s: string): (r: string)
    ensures r == [] || (!IsSpace(r[0]) && !IsSpace(r[|r| - 1]))
    ensures r == [] <==> AllSpace(s)
    ensures (s == [] || (!IsSpace(s[0]) && !IsSpace(s[|s| - 1]))) ==> r == s
  {
    var l := TrimLeft(s);
    var r := TrimRight(l);
    TrimSpaceEmpty(s, l, r);
    TrimSpaceKeeps(s, l, r);
    r
  }

  /** What `TrimSpace` leaves is a segment of `s` with only white space on
      either side of it. */
  lemma TrimSpaceIsSegment(s: string)
    ensures exists i, j :: 0 <= i <= j <= |s| && TrimSpace(s) == s[i..j] && AllSpace(s[..i]) && AllSpace(s[j..])
  {
    var l := TrimLeft(s);
    TrimSpaceSegment(s, l, TrimRight(l));
  }

  /** Nothing is left exactly when `s` is all white space. */
  lemma TrimSpaceEmpty(s: string, l: string, r: string)
    requires |l| <= |s| && l == s[|s| - |l|..] && AllSpace(s[..|s| - |l|]) && (l == [] || !IsSpace(l[0]))
    requires |r| <= |l| && r == l[..|r|] && AllSpace(l[|r|..])
    ensures r == [] <==> AllSpace(s)
  {
    var i := |s| - |l|;
    if r == [] {
      assert |l| == 0;
      forall k | 0 <= k < |s|
        ensures IsSpace(s[k])
      {
        assert s[k] == s[..i][k];
      }
    } else {
      assert !IsSpace(s[i]) by {
        assert l[0] == s[i];
      }
    }
  }

  /** A string with no white space at either end is left as it is. */
  lemma TrimSpaceKeeps(s: string, l: string, r: string)
    requires |l| <= |s| && l == s[|s| - |l|..] && AllSpace(s[..|s| - |l|])
    requires |r| <= |l| && r == l[..|r|] && AllSpace(l[|r|..])
    ensures (s == [] || (!IsSpace(s[0]) && !IsSpace(s[|s| - 1]))) ==> r == s
  {
    if s != [] && !IsSpace(s[0]) && !IsSpace(s[|s| - 1]) {
      assert |l| == |s|;
      assert l == s;
      assert |r| == |l|;
    }
  }

  /** The leading and the trailing trim together cut a segment out of `s`
      with only white space on either side. */
  lemma TrimSpaceSegment(s: string, l: string, r: string)
    requires |l| <= |s| && l == s[|s| - |l|..] && AllSpace(s[..|s| - |l|])
    requires |r| <= |l| && r == l[..|r|] && AllSpace(l[|r|..])
    ensures exists i, j :: 0 <= i <= j <= |s| && r == s[i..j] && AllSpace(s[..i]) && AllSpace(s[j..])
  {
    var i := |s| - |l|;
    var j := i + |r|;
    assert r == s[i..j];
    assert s[j..] == l[|r|..];
  }

  /** `strings.HasPrefix(s, [c])` and `strings.HasSuffix(s, [c])`. */
  predicate StartsWith(s: string, c: char) {
    |s| > 0 && s[0] == c
  }

  predicate EndsWith(s: string, c: char) {
    |s| > 0 && s[|s| - 1] == c
  }

  /** `strings.Join(ts, sep)`. */
  function Join(ts: seq<string>, sep: string): string
  {
    if |ts| == 0 then []
    else if |ts| == 1 then ts[0]
    else Join(ts[..|ts| - 1], sep) + sep + ts[|ts| - 1]
  }

  /** `strings.Split(s, [sep])`: never empty, no piece holds the separator, and
      joining the pieces back with the separator gives `s` again. */
  function Split(s: string, sep: char): (r: seq<string>)
    ensures |r| >= 1
    ensures forall i :: 0 <= i < |r| ==> sep !in r[i]
    ensures Join(r, [sep]) == s
  {
    if s == [] then [[]]
    else
      var prev := Split(s[..|s| - 1], sep);
      var c := s[|s| - 1];
      if c == sep then
        var r := prev + [[]];
        assert r[..|r| - 1] == prev;
        assert s == s[..|s| - 1] + [sep] + [];
        r
      else
        var r := prev[..|prev| - 1] + [prev[|prev| - 1] + [c]];
        assert r[..|r| - 1] == prev[..|prev| - 1];
        assert s == s[..|s| - 1] + [c];
        r
  }

  lemma {:induction false} SplitSeparatorFree(b: string, sep: char)
    requires sep !in b
    ensures Split(b, sep) == [b]
    decreases |b|
  {
    if b != [] {
      SplitSeparatorFree(b[..|b| - 1], sep);
      assert b[..|b| - 1] + [b[|b| - 1]] == b;
    }
  }

  /** Appending the separator opens a new, empty piece. */
  lemma SplitSnocSeparator(s: string, sep: char)
    ensures Split(s + [sep], sep) == Split(s, sep) + [[]]
  {
    assert (s + [sep])[..|s|] == s;
  }

  /** Appending any other character extends the last piece. */
  lemma SplitSnocOther(s: string, c: char, sep: char)
    requires c != sep
    ensures var p := Split(s, sep); Split(s + [c], sep) == p[..|p| - 1] + [p[|p| - 1] + [c]]
  {
    assert (s + [c])[..|s|] == s;
  }

  lemma {:induction false} SplitAfterSeparator(a: string, b: string, sep: char)
    requires sep !in b
    ensures Split(a + [sep] + b, sep) == Split(a, sep) + [b]
    decreases |b|
  {
    if b == [] {
      assert a + [sep] + b == a + [sep];
      SplitSnocSeparator(a, sep);
    } else {
      var b' := b[..|b| - 1];
      var c := b[|b| - 1];
      var pre := a + [sep] + b';
      assert a + [sep] + b == pre + [c];
      assert b' + [c] == b;
      var prev := Split(a, sep) + [b'];
      assert Split(pre, sep) == prev by { SplitAfterSeparator(a, b', sep); }
      assert Split(pre + [c], sep) == Split(a, sep) + [b] by {
        assert c != sep;
        SplitSnocOther(pre, c, sep);
        assert prev[..|prev| - 1] == Split(a, sep) && prev[|prev| - 1] == b';
      }
    }
  }

  /** The other half of the round trip: splitting a join of separator-free
      pieces gives the pieces back. */
  lemma {:induction false} SplitJoin(ts: seq<string>, sep: char)
    requires |ts| >= 1
    requires forall i :: 0 <= i < |ts| ==> sep !in ts[i]
    ensures Split(Join(ts, [sep]), sep) == ts
    decreases |ts|
  {
    if |ts| == 1 {
      SplitSeparatorFree(ts[0], sep);
    } else {
      var init := ts[..|ts| - 1];
      var last := ts[|ts| - 1];
      assert Join(ts, [sep]) == Join(init, [sep]) + [sep] + last;
      SplitJoin(init, sep);
      SplitAfterSeparator(Join(init, [sep]), last, sep);
      assert init + [last] == ts;
    }
  }

  /** Joining a concatenation puts one separator between the two joins. */
  lemma {:induction false} JoinAppend(a: seq<string>, b: seq<string>, sep: string)
    requires |a| >= 1 && |b| >= 1
    ensures Join(a + b, sep) == Join(a, sep) + sep + Join(b, sep)
    decreases |b|
  {
    var ab := a + b;
    if |b| == 1 {
      assert ab[..|ab| - 1] == a;
    } else {
      var b' := b[..|b| - 1];
      JoinAppend(a, b', sep);
      assert ab[..|ab| - 1] == a + b';
      assert b'[..|b'|] == b';
      assert b[..|b| - 1] == b';
    }
  }

  /** The first character of a join is that of its first piece, when that piece is not empty. */
  lemma {:induction false} JoinFirst(ts: seq<string>, sep: string)
    requires |ts| >= 1 && ts[0] != []
    ensures Join(ts, sep) != [] && Join(ts, sep)[0] == ts[0][0]
    decreases |ts|
  {
    if |ts| > 1 {
      JoinFirst(ts[..|ts| - 1], sep);
    }
  }

  /** The last character of a join is that of its last piece, when that piece is not empty. */
  lemma JoinLast(ts: seq<string>, sep: string)
    requires |ts| >= 1 && ts[|ts| - 1] != []
    ensures Join(ts, sep) != [] && Join(ts, sep)[|Join(ts, sep)| - 1] == ts[|ts| - 1][|ts[|ts| - 1]| - 1]
  {
  }

  /** `strings.SplitN(s, [c], 2)`: `None` stands for the one-piece result (no
      `c` in `s`), `Some((k, v))` for the two pieces around the FIRST `c`, so
      `v` may itself contain `c`. */
  function CutFirst(s: string, c: char): (r: Option<(string, string)>)
    ensures r.None? <==> c !in s
    ensures r.Some? ==> s == r.value.0 + [c] + r.value.1 && c !in r.value.0
  {
    if s == [] then None
    else if s[0] == c then Some(([], s[1..]))
    else
      match CutFirst(s[1..], c)
      case None => None
      case Some(kv) =>
        assert s == [s[0]] + s[1..];
        Some(([s[0]] + kv.0, kv.1))
  }

  /** The inverse of `CutFirst`: a key free of `c`, then `c`, then any value. */
  lemma {:induction false} CutFirstOfPair(k: string, v: string, c: char)
    requires c !in k
    ensures CutFirst(k + [c] + v, c) == Some((k, v))
    decreases |k|
  {
    var s := k + [c] + v;
    if k != [] {
      CutFirstOfPair(k[1..], v, c);
      assert s[1..] == k[1..] + [c] + v;
      assert [k[0]] + k[1..] == k;
    }
  }

  /** Drops one trailing carriage return, as `bufio.ScanLines` does. */
  function DropCR(l: string): string {
    if EndsWith(l, '\r') then l[..|l| - 1] else l
  }

  /** The lines `bufio.Scanner` yields with its default `ScanLines` split
      function: the text cut at every `\n`, one trailing `\r` dropped from each
      line, and a final empty piece (text ending in `\n`, or empty text) not
      reported as a line. */
  function ScanLines(text: string): (lines: seq<string>)
    ensures forall i :: 0 <= i < |lines| ==> '\n' !in lines[i]
  {
    var parts := Split(text, '\n');
    var kept := if parts[|parts| - 1] == [] then parts[..|parts| - 1] else parts;
    seq(|kept|, i requires 0 <= i < |kept| => DropCR(kept[i]))
  }

  /** Without carriage returns, the scanned lines joined by `\n` are the text
      itself, give or take the one final newline. */
  lemma ScanLinesRoundTrip(text: string)
    requires '\r' !in text
    ensures text == [] ==> ScanLines(text) == []
    ensures text != [] && text[|text| - 1] == '\n' ==> Join(ScanLines(text), "\n") + "\n" == text
    ensures text != [] && text[|text| - 1] != '\n' ==> Join(ScanLines(text), "\n") == text
  {
    var parts := Split(text, '\n');
    var kept := if parts[|parts| - 1] == [] then parts[..|parts| - 1] else parts;
    forall i | 0 <= i < |parts| ensures '\r' !in parts[i] {
      CarriageReturnFreeParts(text, i);
    }
    assert forall i :: 0 <= i < |kept| ==> DropCR(kept[i]) == kept[i];
    assert ScanLines(text) == kept;
    if text != [] && parts[|parts| - 1] == [] {
      assert parts == kept + [[]];
      assert Join(parts, "\n") == Join(kept, "\n") + "\n" + [];
      assert text[|text| - 1] == '\n';
    } else if text != [] {
      if parts[|parts| - 1] != [] {
        JoinLast(parts, "\n");
      }
    }
  }

  /** Every piece of a split of `text` is a segment of `text`, so it holds no
      character `text` does not hold. */
  lemma {:induction false} CarriageReturnFreeParts(text: string, i: nat)
    requires '\r' !in text
    requires i < |Split(text, '\n')|
    ensures '\r' !in Split(text, '\n')[i]
    decreases |text|
  {
    if text != [] {
      var init := text[..|text| - 1];
      assert forall k :: 0 <= k < |init| ==> init[k] == text[k];
      var prev := Split(init, '\n');
      if text[|text| - 1] != '\n' && i == |prev| - 1 {
        CarriageReturnFreeParts(init, i);
      } else if i < |prev| {
        CarriageReturnFreeParts(init, i);
      }
    }
  }
}
