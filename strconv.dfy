/** The base-10 integer and boolean parsers of Go's `strconv` package, as the
    coercers call them: `ParseInt(s, 10, bits)`, `ParseUint(s, 10, bits)` and
    `ParseBool(s)`. A failure (syntax or range) is `None`. */
module Strconv {
  import opened Wrappers

  predicate IsDigit(c: char) {
    '0' <= c <= '9'
  }

  predicate AllDigits(s: string) {
    forall i :: 0 <= i < |s| ==> IsDigit(s[i])
  }

  function DigitValue(c: char): nat
    requires IsDigit(c)
  {
    c as int - '0' as int
  }

  function DigitChar(d: nat): char
    requires d < 10
  {
    ('0' as int + d) as char
  }

  /** The number a string of decimal digits denotes (leading zeros allowed). */
  function DecimalValue(s: string): nat
    requires AllDigits(s)
  {
    if s == [] then 0 else DecimalValue(s[..|s| - 1]) * 10 + DigitValue(s[|s| - 1])
  }

  function Pow2(n: nat): (p: int)
    ensures p >= 1
  {
    if n == 0 then 1 else 2 * Pow2(n - 1)
  }

  /** The widths Go's integer kinds have (`int` and `uint` are 64 bits wide). */
  predicate IntWidth(bits: nat) {
    bits == 8 || bits == 16 || bits == 32 || bits == 64
  }

  /** `strconv.ParseUint(s, 10, bits)`: one or more decimal digits and no sign,
      denoting a number below 2^bits. */
  function ParseUint(s: string, bits: nat): (r: Option<nat>)
    ensures r.Some? ==> r.value < Pow2(bits)
  {
    if s == [] || !AllDigits(s) then None
    else
      var v := DecimalValue(s);
      if v < Pow2(bits) then Some(v) else None
  }

  /** `strconv.ParseInt(s, 10, bits)`: an optional `+` or `-`, then one or more
      decimal digits, denoting a number in [-2^(bits-1), 2^(bits-1)). */
  function ParseInt(s: string, bits: nat): (r: Option<int>)
    requires bits >= 1
    ensures r.Some? ==> -Pow2(bits - 1) <= r.value < Pow2(bits - 1)
  {
    if s == [] then None
    else
      var neg := s[0] == '-';
      var digits := if s[0] == '+' || s[0] == '-' then s[1..] else s;
      if digits == [] || !AllDigits(digits) then None
      else
        var m := DecimalValue(digits);
        if !neg && m < Pow2(bits - 1) then Some(m as int)
        else if neg && m <= Pow2(bits - 1) then Some(-(m as int))
        else None
  }

  /** The spellings `strconv.ParseBool` accepts. */
  const TrueTokens: seq<string> := ["1", "t", "T", "TRUE", "true", "True"]
  const FalseTokens: seq<string> := ["0", "f", "F", "FALSE", "false", "False"]

  /** `strconv.ParseBool(s)`: exactly the twelve canonical tokens parse. */
  function ParseBool(s: string): (r: Option<bool>)
    ensures r == Some(true) <==> s in TrueTokens
    ensures r == Some(false) <==> s in FalseTokens
    ensures r == None <==> s !in TrueTokens + FalseTokens
  {
    match s
    case "1" => Some(true)
    case "t" => Some(true)
    case "T" => Some(true)
    case "TRUE" => Some(true)
    case "true" => Some(true)
    case "True" => Some(true)
    case "0" => Some(false)
    case "f" => Some(false)
    case "F" => Some(false)
    case "FALSE" => Some(false)
    case "false" => Some(false)
    case "False" => Some(false)
    case _ => None
  }

  /** `strconv.FormatUint(n, 10)`: the shortest decimal spelling of `n`. */
  function FormatUint(n: nat): string
  {
    if n < 10 then [DigitChar(n)] else FormatUint(n / 10) + [DigitChar(n % 10)]
  }

  /** `strconv.FormatInt(i, 10)`. */
  function FormatInt(i: int): string
  {
    if i < 0 then "-" + FormatUint(-i) else FormatUint(i)
  }

  lemma {:induction false} FormatUintDigits(n: nat)
    ensures FormatUint(n) != [] && AllDigits(FormatUint(n))
    ensures DecimalValue(FormatUint(n)) == n
    decreases n
  {
    if n >= 10 {
      FormatUintDigits(n / 10);
      var s := FormatUint(n / 10) + [DigitChar(n % 10)];
      assert s[..|s| - 1] == FormatUint(n / 10);
    }
  }

  /** Round trip: the decimal spelling of `n` parses back to `n` exactly when
      `n` fits in the width. */
  lemma ParseUintFormat(n: nat, bits: nat)
    ensures ParseUint(FormatUint(n), bits) == if n < Pow2(bits) then Some(n) else None
  {
    FormatUintDigits(n);
  }

  /** Round trip: the decimal spelling of `i` parses back to `i` exactly when
      `i` fits in the signed width. */
  lemma ParseIntFormat(i: int, bits: nat)
    requires bits >= 1
    ensures ParseInt(FormatInt(i), bits) ==
            if -Pow2(bits - 1) <= i < Pow2(bits - 1) then Some(i) else None
  {
    if i < 0 {
      ParseIntFormatNegative(-i, bits);
    } else {
      ParseIntFormatNonNegative(i, bits);
    }
  }

  lemma ParseIntFormatNonNegative(n: nat, bits: nat)
    requires bits >= 1
    ensures ParseInt(FormatUint(n), bits) == if n < Pow2(bits - 1) then Some(n as int) else None
  {
    FormatUintDigits(n);
    var s := FormatUint(n);
    assert IsDigit(s[0]);
  }

  lemma ParseIntFormatNegative(n: nat, bits: nat)
    requires bits >= 1 && n > 0
    ensures ParseInt("-" + FormatUint(n), bits) == if n <= Pow2(bits - 1) then Some(-(n as int)) else None
  {
    FormatUintDigits(n);
    var s := "-" + FormatUint(n);
    assert s[0] == '-';
    assert s[1..] == FormatUint(n);
  }

  /** A sign in front of the digits is refused by `ParseUint` but accepted by
      `ParseInt`, and the two agree on an unsigned spelling that fits both. */
  lemma {:induction false} ParseIntAgreesWithUint(s: string, bits: nat)
    requires bits >= 1
    requires ParseUint(s, bits - 1).Some?
    ensures ParseInt(s, bits) == Some(ParseUint(s, bits - 1).value as int)
    ensures ParseUint("+" + s, bits) == None && ParseUint("-" + s, bits) == None
    ensures ParseInt("+" + s, bits) == ParseInt(s, bits)
  {
    assert ("+" + s)[1..] == s;
    assert ("-" + s)[0] == '-' && !IsDigit(("-" + s)[0]);
    assert ("+" + s)[0] == '+' && !IsDigit(("+" + s)[0]);
  }
}
