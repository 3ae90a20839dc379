/**
 * The few Rust standard-library operations the SDK's core relies on, written
 * out so that the rest of the model can call them: the fixed-width integer
 * types, `str::starts_with` / `ends_with` / `contains`, and the `FromStr`
 * parsers behind `str::parse::<bool>()`, `::<u64>()`, `::<i64>()` and
 * `::<f64>()`.
 */
module RustStd {
  import opened Wrappers

  const U32_LIMIT: int := 0x1_0000_0000
  const U64_LIMIT: int := 0x1_0000_0000_0000_0000
  const I64_LIMIT: int := 0x8000_0000_0000_0000

  newtype u32 = x: int | 0 <= x < 0x1_0000_0000
  newtype u64 = x: int | 0 <= x < 0x1_0000_0000_0000_0000
  newtype i64 = x: int | -0x8000_0000_0000_0000 <= x < 0x8000_0000_0000_0000

  // ---------------------------------------------------------------------------
  // String searching (`str::starts_with`, `str::ends_with`, `str::contains`)
  // ---------------------------------------------------------------------------

  predicate StartsWith(s: string, p: string) {
    |p| <= |s| && s[..|p|] == p
  }

  predicate EndsWith(s: string, p: string) {
    |p| <= |s| && s[|s| - |p|..] == p
  }

  /** `s.contains(p)`: `p` occurs in `s` at some offset, tried from the left. */
  predicate Contains(s: string, p: string)
    decreases |s|
  {
    StartsWith(s, p) || (|s| > 0 && Contains(s[1..], p))
  }

  /** `p` occurs in `s` starting at offset `i`. */
  predicate OccursAt(s: string, p: string, i: int) {
    0 <= i && i + |p| <= |s| && s[i..i + |p|] == p
  }

  /** An occurrence at any offset is found by the left-to-right search. */
  lemma {:induction false} OccursImpliesContains(s: string, p: string, i: int)
    requires OccursAt(s, p, i)
    ensures Contains(s, p)
    decreases i
  {
    if i == 0 {
      assert s[..|p|] == s[0..0 + |p|];
    } else {
      assert s[1..][i - 1..i - 1 + |p|] == s[i..i + |p|];
      OccursImpliesContains(s[1..], p, i - 1);
    }
  }

  /** What the left-to-right search finds is an occurrence. */
  lemma {:induction false} ContainsImpliesOccurs(s: string, p: string)
    requires Contains(s, p)
    ensures exists i :: OccursAt(s, p, i)
    decreases |s|
  {
    if StartsWith(s, p) {
      assert OccursAt(s, p, 0);
    } else {
      ContainsImpliesOccurs(s[1..], p);
      var j :| OccursAt(s[1..], p, j);
      assert s[1..][j..j + |p|] == s[j + 1..j + 1 + |p|];
      assert OccursAt(s, p, j + 1);
    }
  }

  /** `contains` holds exactly when the pattern occurs at some offset. */
  lemma ContainsIffOccurs(s: string, p: string)
    ensures Contains(s, p) <==> exists i :: OccursAt(s, p, i)
  {
    if Contains(s, p) {
      ContainsImpliesOccurs(s, p);
    }
    if exists i :: OccursAt(s, p, i) {
      var i :| OccursAt(s, p, i);
      OccursImpliesContains(s, p, i);
    }
  }

  /** A prefix and a suffix both occur in the string. */
  lemma StartsOrEndsWithImpliesContains(s: string, p: string)
    ensures StartsWith(s, p) ==> Contains(s, p)
    ensures EndsWith(s, p) ==> Contains(s, p)
  {
    ContainsIffOccurs(s, p);
    if EndsWith(s, p) {
      assert OccursAt(s, p, |s| - |p|);
    }
  }

  /** `starts_with` holds exactly when the string is the pattern followed by something. */
  lemma StartsWithIffPrefix(s: string, p: string)
    ensures StartsWith(s, p) <==> exists t: string :: s == p + t
  {
    if StartsWith(s, p) {
      assert s == p + s[|p|..];
    }
    forall t: string | s == p + t
      ensures StartsWith(s, p)
    {
      assert s[..|p|] == p;
    }
  }

  /** `ends_with` holds exactly when the string is something followed by the pattern. */
  lemma EndsWithIffSuffix(s: string, p: string)
    ensures EndsWith(s, p) <==> exists t: string :: s == t + p
  {
    if EndsWith(s, p) {
      assert s == s[..|s| - |p|] + p;
    }
    forall t: string | s == t + p
      ensures EndsWith(s, p)
    {
      assert s[|s| - |p|..] == p;
    }
  }

  // ---------------------------------------------------------------------------
  // Decimal digits
  // ---------------------------------------------------------------------------

  predicate IsDigit(c: char) {
    '0' <= c <= '9'
  }

  predicate AllDigits(s: string) {
    forall i | 0 <= i < |s| :: IsDigit(s[i])
  }

  function DigitValue(c: char): (d: nat)
    requires IsDigit(c)
    ensures d < 10
  {
    c as int - '0' as int
  }

  function DigitChar(d: nat): (c: char)
    requires d < 10
    ensures IsDigit(c) && DigitValue(c) == d
  {
    ('0' as int + d) as char
  }

  /** The value of a string of decimal digits, most significant digit first. */
  function DecimalValue(s: string): nat
    requires AllDigits(s)
    decreases |s|
  {
    if s == [] then 0 else DecimalValue(s[..|s| - 1]) * 10 + DigitValue(s[|s| - 1])
  }

  /** The shortest decimal representation of `n` (what `n.to_string()` prints). */
  function FormatNat(n: nat): string
    decreases n
  {
    if n < 10 then [DigitChar(n)] else FormatNat(n / 10) + [DigitChar(n % 10)]
  }

  lemma {:induction false} FormatNatDigits(n: nat)
    ensures |FormatNat(n)| > 0 && AllDigits(FormatNat(n))
    ensures DecimalValue(FormatNat(n)) == n
    decreases n
  {
    if n >= 10 {
      FormatNatDigits(n / 10);
      var s := FormatNat(n / 10) + [DigitChar(n % 10)];
      assert s[..|s| - 1] == FormatNat(n / 10);
    }
  }

  function Pow10(k: nat): (r: nat)
    ensures r >= 1
  {
    if k == 0 then 1 else 10 * Pow10(k - 1)
  }

  /** The index of the first occurrence of `c` in `s`, or `|s|` if there is none. */
  function FirstIndex(s: string, c: char): (k: nat)
    ensures k <= |s|
    ensures k < |s| ==> s[k] == c
    ensures forall j | 0 <= j < k :: s[j] != c
  {
    if s == [] then 0 else if s[0] == c then 0 else 1 + FirstIndex(s[1..], c)
  }

  // ---------------------------------------------------------------------------
  // `FromStr` parsers. `None` stands for the parse error.
  // ---------------------------------------------------------------------------

  /** `bool::from_str`: exactly "true" or "false". */
  function ParseBool(s: string): (r: Option<bool>)
    ensures r.Some? <==> s == "true" || s == "false"
    ensures r.Some? ==> r.value == (s == "true")
  {
    if s == "true" then Some(true) else if s == "false" then Some(false) else None
  }

  /**
   * `u64::from_str`: an optional '+' followed by at least one decimal digit,
   * with a value below 2^64. A '-' is an invalid digit for unsigned types.
   */
  function ParseU64(s: string): (r: Option<u64>)
  {
    var digits := if |s| > 1 && s[0] == '+' then s[1..] else s;
    if |digits| > 0 && AllDigits(digits) && DecimalValue(digits) < U64_LIMIT
    then Some(DecimalValue(digits) as u64)
    else None
  }

  /**
   * `i64::from_str`: an optional '+' or '-' followed by at least one decimal
   * digit, with a value in [-2^63, 2^63).
   */
  function ParseI64(s: string): (r: Option<i64>)
  {
    var negative := |s| > 1 && s[0] == '-';
    var digits := if |s| > 1 && (s[0] == '+' || s[0] == '-') then s[1..] else s;
    if |digits| > 0 && AllDigits(digits) then
      var v: int := if negative then -(DecimalValue(digits) as int) else DecimalValue(digits);
      if -I64_LIMIT <= v < I64_LIMIT then Some(v as i64) else None
    else None
  }

  /** The value of the digits after a decimal point: `0.` followed by them. */
  function FractionValue(fraction: string): (r: real)
    requires AllDigits(fraction)
    ensures fraction == "" ==> r == 0.0
  {
    DecimalValue(fraction) as real / Pow10(|fraction|) as real
  }

  /**
   * `f64::from_str` on plain decimal notation: an optional sign, digits, and
   * an optional '.' followed by digits, with at least one digit in all.
   * The value is the exact decimal (a `real`).
   */
  function ParseF64(s: string): (r: Option<real>)
  {
    var negative := |s| > 0 && s[0] == '-';
    var magnitude := ParseMagnitude(if |s| > 0 && (s[0] == '+' || s[0] == '-') then s[1..] else s);
    if magnitude.None? then None
    else Some(if negative then -magnitude.value else magnitude.value)
  }

  /** The unsigned part of `f64::from_str`: digits, optionally a '.' and more digits, at least one digit in all. */
  function ParseMagnitude(body: string): (r: Option<real>)
  {
    var k := FirstIndex(body, '.');
    var whole := body[..k];
    var fraction := if k < |body| then body[k + 1..] else "";
    if |whole| + |fraction| > 0 && AllDigits(whole) && AllDigits(fraction) then
      Some(DecimalValue(whole) as real + FractionValue(fraction))
    else None
  }

  /** Printing an integer and parsing it back gives the integer: `u64`. */
  lemma ParseU64FormatNat(n: u64)
    ensures ParseU64(FormatNat(n as nat)) == Some(n)
  {
    FormatNatDigits(n as nat);
    assert IsDigit(FormatNat(n as nat)[0]);
  }

  /** The decimal representation of a signed integer, with a leading '-' when negative. */
  function FormatInt(i: int): string {
    if i < 0 then "-" + FormatNat(-i) else FormatNat(i)
  }

  /** Printing an integer and parsing it back gives the integer: `i64`. */
  lemma ParseI64FormatInt(i: i64)
    ensures ParseI64(FormatInt(i as int)) == Some(i)
  {
    if i < 0 {
      FormatNatDigits(-(i as int));
      assert FormatInt(i as int)[1..] == FormatNat(-(i as int));
    } else {
      FormatNatDigits(i as int);
      assert IsDigit(FormatInt(i as int)[0]);
    }
  }

  /** An integer written in decimal parses as that number with `f64::from_str` too. */
  lemma ParseF64FormatNat(n: nat)
    ensures ParseF64(FormatNat(n)) == Some(n as real)
  {
    FormatNatDigits(n);
    ParseF64Digits(FormatNat(n));
  }

  /** A nonempty run of decimal digits parses with `f64::from_str` as its decimal value. */
  lemma ParseF64Digits(s: string)
    requires |s| > 0 && AllDigits(s)
    ensures ParseF64(s) == Some(DecimalValue(s) as real)
  {
    assert IsDigit(s[0]);
    assert FirstIndex(s, '.') == |s|;
    assert s[..|s|] == s;
    assert ParseMagnitude(s) == Some(DecimalValue(s) as real);
  }
}
