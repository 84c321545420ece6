/**
 * The pieces of Rust's `str` and number parsing that the resource-quantity
 * parsers are built from: `trim`, `ends_with`, `trim_end_matches`,
 * `parse::<u64>`, `parse::<f64>` (restricted to digit strings), the
 * saturating `as u64` cast and the decimal `Display` of an unsigned integer.
 */
module RustStr {
  import opened Outcome

  // ---------------------------------------------------------------------------
  // Whitespace and trimming
  // ---------------------------------------------------------------------------

  /** `char::is_whitespace`: the characters with the Unicode White_Space property. */
  predicate IsWhitespace(c: char) {
    c == ' ' || '\t' <= c <= '\r' || c == '\U{85}' || c == '\U{A0}' || c == '\U{1680}'
    || '\U{2000}' <= c <= '\U{200A}' || c == '\U{2028}' || c == '\U{2029}'
    || c == '\U{202F}' || c == '\U{205F}' || c == '\U{3000}'
  }

  /** `str::trim_start`: drops the longest whitespace prefix. */
  function TrimStart(s: string): (r: string)
    ensures |r| <= |s| && r == s[|s| - |r|..]
    ensures r == [] || !IsWhitespace(r[0])
    ensures forall i :: 0 <= i < |s| - |r| ==> IsWhitespace(s[i])
  {
    if s != [] && IsWhitespace(s[0]) then TrimStart(s[1..]) else s
  }

  /** `str::trim_end`: drops the longest whitespace suffix. */
  function TrimEnd(s: string): (r: string)
    ensures |r| <= |s| && r == s[..|r|]
    ensures r == [] || !IsWhitespace(r[|r| - 1])
    ensures forall i :: |r| <= i < |s| ==> IsWhitespace(s[i])
  {
    if s != [] && IsWhitespace(s[|s| - 1]) then TrimEnd(s[..|s| - 1]) else s
  }

  /** `str::trim` */
  function Trim(s: string): (r: string)
    ensures |r| <= |s|
    ensures r == [] || (!IsWhitespace(r[0]) && !IsWhitespace(r[|r| - 1]))
  {
    TrimEnd(TrimStart(s))
  }

  /** `trim` returns a slice of its input with only whitespace cut off either end. */
  lemma TrimMargins(s: string)
    ensures exists a :: BlankMargins(s, a, Trim(s))
  {
    var t := TrimStart(s);
    assert Trim(s) == TrimEnd(t);
    MarginsOf(s, t, TrimEnd(t));
    assert BlankMargins(s, |s| - |t|, Trim(s));
  }

  /** A suffix of `s` after a blank prefix, cut before a blank tail, leaves blank margins. */
  lemma MarginsOf(s: string, t: string, r: string)
    requires |t| <= |s| && t == s[|s| - |t|..]
    requires forall i :: 0 <= i < |s| - |t| ==> IsWhitespace(s[i])
    requires |r| <= |t| && r == t[..|r|]
    requires forall i :: |r| <= i < |t| ==> IsWhitespace(t[i])
    ensures BlankMargins(s, |s| - |t|, r)
  {
    var a := |s| - |t|;
    SliceOfSuffix(s, a, |r|);
    BlankTail(s, a, t, |r|);
  }

  lemma SliceOfSuffix(s: string, a: nat, n: nat)
    requires a + n <= |s|
    ensures s[a..][..n] == s[a..a + n]
  {
  }

  /** Whitespace past `n` in the suffix `t` of `s` from `a` is whitespace past `a + n` in `s`. */
  lemma BlankTail(s: string, a: nat, t: string, n: nat)
    requires a <= |s| && t == s[a..] && n <= |t|
    requires forall i :: n <= i < |t| ==> IsWhitespace(t[i])
    ensures forall i :: a + n <= i < |s| ==> IsWhitespace(s[i])
  {
    forall i | a + n <= i < |s|
      ensures IsWhitespace(s[i])
    {
      assert s[i] == t[i - a];
    }
  }

  /** `r` is `s` from offset `a` on, with nothing but whitespace before and after it. */
  predicate BlankMargins(s: string, a: int, r: string) {
    0 <= a <= |s| - |r| && r == s[a..a + |r|]
    && (forall i :: 0 <= i < a ==> IsWhitespace(s[i]))
    && (forall i :: a + |r| <= i < |s| ==> IsWhitespace(s[i]))
  }

  /** A string with no whitespace at either end is its own trim. */
  lemma TrimIdentity(s: string)
    requires s == [] || (!IsWhitespace(s[0]) && !IsWhitespace(s[|s| - 1]))
    ensures Trim(s) == s
  {
  }

  /** Trimming twice is trimming once. */
  lemma TrimIdempotent(s: string)
    ensures Trim(Trim(s)) == Trim(s)
  {
    TrimIdentity(Trim(s));
  }

  // ---------------------------------------------------------------------------
  // Suffixes
  // ---------------------------------------------------------------------------

  /** `str::ends_with` */
  predicate EndsWith(s: string, suffix: string) {
    |suffix| <= |s| && s[|s| - |suffix|..] == suffix
  }

  /** `str::trim_end_matches`: removes every trailing repetition of `pat`. */
  function TrimEndMatches(s: string, pat: string): (r: string)
    requires pat != []
    ensures |r| <= |s| && r == s[..|r|]
    ensures !EndsWith(r, pat)
    ensures !EndsWith(s, pat) ==> r == s
    decreases |s|
  {
    if EndsWith(s, pat) then TrimEndMatches(s[..|s| - |pat|], pat) else s
  }

  /** What `trim_end_matches` removes is whole copies of the pattern and nothing else. */
  lemma {:induction false} TrimEndMatchesCopies(s: string, pat: string)
    requires pat != []
    ensures exists k: nat :: s == TrimEndMatches(s, pat) + Repeat(pat, k)
    decreases |s|
  {
    var r := TrimEndMatches(s, pat);
    if EndsWith(s, pat) {
      TrimEndMatchesCopies(s[..|s| - |pat|], pat);
      OneMoreCopy(s, pat, r);
    } else {
      assert s == r + Repeat(pat, 0);
    }
  }

  /** `k` copies of `pat`, one after the other. */
  function Repeat(pat: string, k: nat): string {
    if k == 0 then [] else Repeat(pat, k - 1) + pat
  }

  /** A string that ends with `pat` is what precedes it followed by `pat`. */
  lemma SplitEnd(s: string, pat: string)
    requires EndsWith(s, pat)
    ensures s == s[..|s| - |pat|] + pat
  {
    assert s == s[..|s| - |pat|] + s[|s| - |pat|..];
  }

  lemma RepeatSnoc(r: string, pat: string, k: nat)
    ensures (r + Repeat(pat, k)) + pat == r + Repeat(pat, k + 1)
  {
    AppendAssoc(r, Repeat(pat, k), pat);
  }

  /** A string that ends with `pat` is a run of copies longer than the one before it. */
  lemma OneMoreCopy(s: string, pat: string, r: string)
    requires EndsWith(s, pat)
    requires exists k: nat :: s[..|s| - |pat|] == r + Repeat(pat, k)
    ensures exists k: nat :: s == r + Repeat(pat, k)
  {
    var k: nat :| s[..|s| - |pat|] == r + Repeat(pat, k);
    SplitEnd(s, pat);
    RepeatSnoc(r, pat, k);
  }

  /** One more trailing copy of the pattern is stripped like the others. */
  lemma TrimEndMatchesAppend(s: string, pat: string)
    requires pat != []
    ensures TrimEndMatches(s + pat, pat) == TrimEndMatches(s, pat)
  {
    assert EndsWith(s + pat, pat) by {
      assert (s + pat)[|s + pat| - |pat|..] == pat;
    }
    assert (s + pat)[..|s + pat| - |pat|] == s;
  }

  // ---------------------------------------------------------------------------
  // Digit strings
  // ---------------------------------------------------------------------------

  predicate IsDigit(c: char) { '0' <= c <= '9' }

  predicate AllDigits(s: string) { forall i :: 0 <= i < |s| ==> IsDigit(s[i]) }

  function DigitValue(c: char): nat
    requires IsDigit(c)
  {
    c as int - '0' as int
  }

  /** The value of a decimal digit string, most significant digit first. */
  function DigitsValue(s: string): nat
    requires AllDigits(s)
  {
    if s == [] then 0 else 10 * DigitsValue(s[..|s| - 1]) + DigitValue(s[|s| - 1])
  }

  /** Appending a digit shifts the value one place. */
  lemma DigitsValueSnoc(s: string, c: char)
    requires AllDigits(s) && IsDigit(c)
    ensures AllDigits(s + [c]) && DigitsValue(s + [c]) == 10 * DigitsValue(s) + DigitValue(c)
  {
    assert (s + [c])[..|s|] == s;
  }

  function Pow10(n: nat): (r: nat)
    ensures r >= 1
  {
    if n == 0 then 1 else 10 * Pow10(n - 1)
  }

  lemma Pow10Values()
    ensures Pow10(3) == 1000 && Pow10(5) == 100000 && Pow10(6) == 1000000 && Pow10(8) == 100000000
  {
    assert Pow10(2) == 10 * Pow10(1);
    assert Pow10(3) == 10 * Pow10(2);
    assert Pow10(4) == 10 * Pow10(3);
    assert Pow10(5) == 10 * Pow10(4);
    assert Pow10(6) == 10 * Pow10(5);
    assert Pow10(7) == 10 * Pow10(6);
    assert Pow10(8) == 10 * Pow10(7);
  }

  /** The leading digit of a digit string weighs 10^(length - 1). */
  lemma {:induction false} DigitsValueFront(s: string)
    requires s != [] && AllDigits(s)
    ensures DigitsValue(s) == DigitValue(s[0]) * Pow10(|s| - 1) + DigitsValue(s[1..])
    decreases |s|
  {
    if |s| > 1 {
      var init := s[..|s| - 1];
      DigitsValueFront(init);
      assert init[0] == s[0];
      assert init[1..] == s[1..][..|s[1..]| - 1];
      assert s[1..][|s[1..]| - 1] == s[|s| - 1];
      Distribute(DigitValue(s[0]), Pow10(|s| - 2), DigitsValue(init[1..]), DigitValue(s[|s| - 1]));
    }
  }

  lemma Distribute(a: nat, q: nat, b: nat, c: nat)
    ensures 10 * (a * q + b) + c == a * (10 * q) + (10 * b + c)
  {
  }

  // ---------------------------------------------------------------------------
  // `parse::<u64>` and the `as u64` cast
  // ---------------------------------------------------------------------------

  /** 2^64: one more than `u64::MAX`. */
  const U64_LIMIT: nat := 0x1_0000_0000_0000_0000

  /** `x as u64` for a non-negative value: Rust's float-to-int cast saturates at `u64::MAX`. */
  function SaturateU64(n: nat): (r: nat)
    ensures r < U64_LIMIT
    ensures n < U64_LIMIT ==> r == n
    ensures n >= U64_LIMIT ==> r == U64_LIMIT - 1
  {
    if n < U64_LIMIT then n else U64_LIMIT - 1
  }

  /** `std::num::IntErrorKind` as far as an unsigned parse can produce it. */
  datatype IntError = IntEmpty | InvalidDigit | PosOverflow

  /** The `Display` text of `ParseIntError`. */
  function IntErrorText(e: IntError): string {
    match e
    case IntEmpty => "cannot parse integer from empty string"
    case InvalidDigit => "invalid digit found in string"
    case PosOverflow => "number too large to fit in target type"
  }

  /** The digit loop of `from_str_radix`: left to right, failing at the first bad digit or overflow. */
  function ScanU64(digits: string, acc: nat): (r: Result<nat, IntError>)
    requires acc < U64_LIMIT
    ensures r.Ok? ==> acc <= r.value < U64_LIMIT
    decreases |digits|
  {
    if digits == [] then Ok(acc)
    else if !IsDigit(digits[0]) then Err(InvalidDigit)
    else
      var next := acc * 10 + DigitValue(digits[0]);
      if next < U64_LIMIT then ScanU64(digits[1..], next) else Err(PosOverflow)
  }

  /** The part of an unsigned literal after its optional `+` sign. */
  function UnsignedDigits(s: string): string {
    if s != [] && s[0] == '+' then s[1..] else s
  }

  /** `<u64 as FromStr>::from_str` */
  function ParseU64(s: string): (r: Result<nat, IntError>)
    ensures r.Ok? ==> r.value < U64_LIMIT
  {
    if s == [] then Err(IntEmpty)
    else if (s[0] == '+' || s[0] == '-') && |s| == 1 then Err(InvalidDigit)
    else ScanU64(UnsignedDigits(s), 0)
  }

  /** The digit loop computes the value of the digits, or reports overflow. */
  lemma {:induction false} ScanU64Value(digits: string, acc: nat)
    requires acc < U64_LIMIT && AllDigits(digits)
    ensures var v := acc * Pow10(|digits|) + DigitsValue(digits);
      ScanU64(digits, acc) == if v < U64_LIMIT then Ok(v) else Err(PosOverflow)
    decreases |digits|
  {
    if digits != [] {
      var rest := digits[1..];
      var d := DigitValue(digits[0]);
      var next := acc * 10 + d;
      var p := Pow10(|rest|);
      DigitsValueFront(digits);
      assert Pow10(|digits|) == 10 * p;
      Regroup(acc, d, p, DigitsValue(rest));
      if next < U64_LIMIT {
        ScanU64Value(rest, next);
      } else {
        MulAtLeast(next, p);
      }
    }
  }

  /** `parse::<u64>` succeeds exactly on an optional `+` followed by digits whose value fits. */
  lemma ParseU64Spec(s: string)
    ensures var d := UnsignedDigits(s);
      ParseU64(s).Ok? <==> d != [] && AllDigits(d) && DigitsValue(d) < U64_LIMIT
    ensures var d := UnsignedDigits(s);
      ParseU64(s).Ok? ==> ParseU64(s).value == DigitsValue(d)
  {
    var d := UnsignedDigits(s);
    if s != [] && !((s[0] == '+' || s[0] == '-') && |s| == 1) {
      if AllDigits(d) {
        ScanU64Value(d, 0);
      } else {
        var k :| 0 <= k < |d| && !IsDigit(d[k]);
        ScanU64Rejects(d, 0, k);
      }
    }
  }

  lemma Regroup(acc: nat, d: nat, p: nat, rest: nat)
    ensures acc * (10 * p) + (d * p + rest) == (acc * 10 + d) * p + rest
  {
  }

  lemma MulAtLeast(n: nat, p: nat)
    requires p >= 1
    ensures n * p >= n
  {
  }

  /** A non-digit anywhere stops the scan with an error. */
  lemma {:induction false} ScanU64Rejects(digits: string, acc: nat, k: nat)
    requires acc < U64_LIMIT && k < |digits| && !IsDigit(digits[k])
    ensures ScanU64(digits, acc).Err?
    decreases |digits|
  {
    if IsDigit(digits[0]) {
      var next := acc * 10 + DigitValue(digits[0]);
      if next < U64_LIMIT {
        ScanU64Rejects(digits[1..], next, k - 1);
      }
    }
  }

  // ---------------------------------------------------------------------------
  // `parse::<f64>` on natural-number mantissas
  // ---------------------------------------------------------------------------

  /** `std::num::ParseFloatError` kinds. */
  datatype FloatError = FloatEmpty | FloatInvalid

  /** The `Display` text of `ParseFloatError`. */
  function FloatErrorText(e: FloatError): string {
    match e
    case FloatEmpty => "cannot parse float from empty string"
    case FloatInvalid => "invalid float literal"
  }

  /**
   * `parse::<f64>` restricted to mantissas that are plain digit strings, whose
   * value is kept exact; every other non-empty string is an invalid literal here.
   */
  function ParseF64(s: string): Result<nat, FloatError> {
    if s == [] then Err(FloatEmpty)
    else if AllDigits(s) then Ok(DigitsValue(s))
    else Err(FloatInvalid)
  }

  /**
   * An exact amount numerator / denominator. CPU amounts are kept this way:
   * a natural mantissa over the scale its suffix divides by.
   */
  datatype Fraction = Fraction(numerator: nat, denominator: nat) {
    function Value(): (v: real)
      requires denominator > 0
      ensures v >= 0.0
    {
      numerator as real / denominator as real
    }
  }

  // ---------------------------------------------------------------------------
  // `Display` for unsigned integers
  // ---------------------------------------------------------------------------

  function DigitChar(d: nat): (c: char)
    requires d < 10
    ensures IsDigit(c) && DigitValue(c) == d
  {
    ('0' as int + d) as char
  }

  /** The decimal rendering of `n`, without leading zeros. */
  function NatToString(n: nat): (r: string)
    ensures r != [] && AllDigits(r) && DigitsValue(r) == n
    ensures r[0] == '0' ==> r == "0"
  {
    if n < 10 then [DigitChar(n)]
    else
      var r := NatToString(n / 10) + [DigitChar(n % 10)];
      assert r[..|r| - 1] == NatToString(n / 10);
      r
  }

  /** Rendering a `u64` and parsing it back yields the same number. */
  lemma NatToStringRoundTrip(n: nat)
    requires n < U64_LIMIT
    ensures ParseU64(NatToString(n)) == Ok(n)
  {
    var s := NatToString(n);
    assert UnsignedDigits(s) == s;
    ParseU64Spec(s);
  }

  // ---------------------------------------------------------------------------
  // Facts about suffixes, trimming and digit strings
  // ---------------------------------------------------------------------------

  /** A digit string carries none of the letter suffixes. */
  lemma DigitsHaveNoSuffix(d: string, suffix: string)
    requires AllDigits(d) && suffix != [] && !IsDigit(suffix[|suffix| - 1])
    ensures !EndsWith(d, suffix)
  {
    if |suffix| <= |d| {
      assert d[|d| - |suffix|..][|suffix| - 1] == d[|d| - 1];
      assert IsDigit(d[|d| - 1]);
    }
  }

  /** Stripping a suffix from digits followed by one copy of it gives back the digits. */
  lemma StripOneSuffix(d: string, suffix: string)
    requires AllDigits(d) && suffix != [] && !IsDigit(suffix[|suffix| - 1])
    ensures EndsWith(d + suffix, suffix)
    ensures TrimEndMatches(d + suffix, suffix) == d
  {
    assert (d + suffix)[|d + suffix| - |suffix|..] == suffix;
    TrimEndMatchesAppend(d, suffix);
    DigitsHaveNoSuffix(d, suffix);
  }

  /** Stripping leading whitespace distributes over a tail that starts with a non-blank. */
  lemma {:induction false} TrimStartAppend(x: string, y: string)
    requires y != [] && !IsWhitespace(y[0])
    ensures TrimStart(x + y) == TrimStart(x) + y
    decreases |x|
  {
    if x != [] {
      assert (x + y)[1..] == x[1..] + y;
      TrimStartAppend(x[1..], y);
    }
  }

  /** Digits followed by a letter suffix are already trimmed and carry that suffix once. */
  lemma SuffixedDigits(d: string, suffix: string)
    requires d != [] && AllDigits(d) && suffix != []
    requires !IsDigit(suffix[|suffix| - 1]) && !IsWhitespace(suffix[|suffix| - 1])
    ensures Trim(d + suffix) == d + suffix
    ensures EndsWith(d + suffix, suffix) && TrimEndMatches(d + suffix, suffix) == d
  {
    var t := d + suffix;
    assert t[0] == d[0] && IsDigit(t[0]);
    assert t[|t| - 1] == suffix[|suffix| - 1];
    TrimIdentity(t);
    StripOneSuffix(d, suffix);
  }

  /** Digits followed by a letter suffix are their own trim. */
  lemma Pretrimmed(d: string, suffix: string)
    requires d != [] && AllDigits(d) && suffix != []
    requires !IsDigit(suffix[|suffix| - 1]) && !IsWhitespace(suffix[|suffix| - 1])
    ensures Trim(d + suffix) == d + suffix
  {
    SuffixedDigits(d, suffix);
  }

  /** A string whose last character differs from the suffix's does not end with it. */
  lemma DiffersAtEnd(s: string, suffix: string)
    requires suffix != [] && s != [] && s[|s| - 1] != suffix[|suffix| - 1]
    ensures !EndsWith(s, suffix)
  {
    if |suffix| <= |s| {
      assert s[|s| - |suffix|..][|suffix| - 1] == s[|s| - 1];
    }
  }

  /** A string whose character where the suffix would start differs from it does not end with it. */
  lemma DiffersAt(s: string, suffix: string)
    requires suffix != [] && |suffix| <= |s| && s[|s| - |suffix|] != suffix[0]
    ensures !EndsWith(s, suffix)
  {
    assert s[|s| - |suffix|..][0] == s[|s| - |suffix|];
  }

  /** A string ending in a non-blank is unchanged by `trim_end`. */
  lemma TrimEndNonBlank(t: string)
    requires t != [] && !IsWhitespace(t[|t| - 1])
    ensures TrimEnd(t) == t
  {
  }

  /** Trimming a string that ends in a non-blank only trims its front. */
  lemma TrimKeepsSuffix(s: string, suffix: string)
    requires suffix != [] && !IsWhitespace(suffix[0]) && !IsWhitespace(suffix[|suffix| - 1])
    ensures Trim(s + suffix) == TrimStart(s) + suffix
  {
    TrimStartAppend(s, suffix);
    var t := TrimStart(s) + suffix;
    assert t[|t| - 1] == suffix[|suffix| - 1];
    TrimEndNonBlank(t);
  }

  lemma EndsWithAppend(x: string, suffix: string)
    ensures EndsWith(x + suffix, suffix)
  {
    assert (x + suffix)[|x + suffix| - |suffix|..] == suffix;
  }

  predicate AllWhitespace(w: string) { forall i :: 0 <= i < |w| ==> IsWhitespace(w[i]) }

  /** Leading blanks before a non-blank are all dropped by `trim_start`. */
  lemma {:induction false} TrimStartBlanks(w: string, y: string)
    requires AllWhitespace(w) && y != [] && !IsWhitespace(y[0])
    ensures TrimStart(w + y) == y
    decreases |w|
  {
    if w != [] {
      assert (w + y)[0] == w[0];
      assert (w + y)[1..] == w[1..] + y;
      TrimStartBlanks(w[1..], y);
    } else {
      assert w + y == y;
    }
  }

  /** Trailing blanks after a non-blank are all dropped by `trim_end`. */
  lemma {:induction false} TrimEndBlanks(y: string, w: string)
    requires AllWhitespace(w) && y != [] && !IsWhitespace(y[|y| - 1])
    ensures TrimEnd(y + w) == y
    decreases |w|
  {
    if w != [] {
      var n := |w| - 1;
      assert (y + w)[|y + w| - 1] == w[n];
      assert (y + w)[..|y + w| - 1] == y + w[..n];
      TrimEndBlanks(y, w[..n]);
    } else {
      assert y + w == y;
    }
  }

  /** `trim` removes any blank padding around a string with non-blank ends. */
  lemma TrimPadded(w1: string, y: string, w2: string)
    requires AllWhitespace(w1) && AllWhitespace(w2)
    requires y != [] && !IsWhitespace(y[0]) && !IsWhitespace(y[|y| - 1])
    ensures Trim(w1 + y + w2) == y
  {
    var t := y + w2;
    assert w1 + y + w2 == w1 + t;
    assert t[0] == y[0];
    TrimStartBlanks(w1, t);
    TrimEndBlanks(y, w2);
  }

  /** A run of `k` zero digits. */
  function Zeros(k: nat): (r: string)
    ensures |r| == k && AllDigits(r)
  {
    if k == 0 then [] else Zeros(k - 1) + "0"
  }

  /** Appending k zeros multiplies the value by 10^k. */
  lemma {:induction false} DigitsValueZeros(d: string, k: nat)
    requires AllDigits(d)
    ensures DigitsValue(d + Zeros(k)) == DigitsValue(d) * Pow10(k)
  {
    if k > 0 {
      var init := d + Zeros(k - 1);
      AppendAssoc(d, Zeros(k - 1), "0");
      DigitsValueSnoc(init, '0');
      DigitsValueZeros(d, k - 1);
      MulShift(DigitsValue(d), Pow10(k - 1));
    } else {
      assert d + Zeros(k) == d;
    }
  }

  lemma AppendAssoc(a: string, b: string, c: string)
    ensures a + (b + c) == (a + b) + c
  {
  }

  lemma MulShift(v: nat, p: nat)
    ensures 10 * (v * p) == v * (10 * p)
  {
  }
}
