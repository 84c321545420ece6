/**
 * utils.rs: the CPU and memory quantity parsers used for node capacity, and
 * the human-readable memory formatter.
 */
module Utils {
  import opened Outcome
  import opened RustStr

  /** The error `?` propagates out of the utils parsers: the parse error itself. */
  datatype ParseError = FloatParse(floatKind: FloatError) | IntParse(intKind: IntError)

  function Pow1024(k: nat): (r: nat)
    ensures r >= 1
  {
    if k == 0 then 1 else 1024 * Pow1024(k - 1)
  }

  lemma Pow1024Values()
    ensures Pow1024(1) == 1024 && Pow1024(2) == 1048576 && Pow1024(3) == 1073741824
    ensures Pow1024(4) == 1099511627776
  {
    assert Pow1024(2) == 1024 * Pow1024(1);
    assert Pow1024(3) == 1024 * Pow1024(2);
    assert Pow1024(4) == 1024 * Pow1024(3);
  }

  const KIB: nat := 1024
  const MIB: nat := 1048576
  const GIB: nat := 1073741824

  /** `kuboard_parse_cpu_string`: cores, or millicores when the string ends in `m`; no trimming. */
  function ParseCpuString(s: string): (r: Result<Fraction, FloatError>)
    ensures r.Ok? ==> r.value.denominator in {1, 1000}
  {
    if EndsWith(s, "m") then
      match ParseF64(TrimEndMatches(s, "m"))
      case Ok(millicores) => Ok(Fraction(millicores, 1000))
      case Err(e) => Err(e)
    else
      match ParseF64(s)
      case Ok(cores) => Ok(Fraction(cores, 1))
      case Err(e) => Err(e)
  }

  /** `(mantissa * scale) as u64` for the mantissa left after stripping a suffix. */
  function ScaleMantissa(mantissa: string, scale: nat): Result<nat, ParseError> {
    match ParseF64(mantissa)
    case Ok(m) => Ok(SaturateU64(m * scale))
    case Err(e) => Err(FloatParse(e))
  }

  /** `kuboard_parse_memory_string`: bytes, after trimming, with binary suffixes Gi, Mi, Ki. */
  function ParseMemoryString(input: string): (r: Result<nat, ParseError>)
    ensures r.Ok? ==> r.value < U64_LIMIT
  {
    ParseTrimmedMemory(Trim(input))
  }

  /** The suffix dispatch of `kuboard_parse_memory_string`, applied to the trimmed input. */
  function ParseTrimmedMemory(s: string): (r: Result<nat, ParseError>)
    ensures r.Ok? ==> r.value < U64_LIMIT
  {
    if EndsWith(s, "Gi") then ScaleMantissa(TrimEndMatches(s, "Gi"), GIB)
    else if EndsWith(s, "Mi") then ScaleMantissa(TrimEndMatches(s, "Mi"), MIB)
    else if EndsWith(s, "Ki") then ScaleMantissa(TrimEndMatches(s, "Ki"), KIB)
    else
      match ParseU64(s)
      case Ok(bytes) => Ok(bytes)
      case Err(e) => Err(IntParse(e))
  }

  // ---------------------------------------------------------------------------
  // Properties of the parsers
  // ---------------------------------------------------------------------------

  /** "<n>m" is n/1000 cores ("1000m" is one core). */
  lemma CpuStringMillicores(d: string)
    requires d != [] && AllDigits(d)
    ensures ParseCpuString(d + "m") == Ok(Fraction(DigitsValue(d), 1000))
  {
    StripOneSuffix(d, "m");
  }

  /** A string without the `m` suffix is parsed whole as cores. */
  lemma CpuStringCores(d: string)
    requires d != [] && AllDigits(d)
    ensures ParseCpuString(d) == Ok(Fraction(DigitsValue(d), 1))
  {
    DigitsHaveNoSuffix(d, "m");
  }

  lemma CpuStringOneCore()
    ensures ParseCpuString("1000m").Ok? && ParseCpuString("1000m").value.Value() == 1.0
  {
    assert "1000" == "1" + Zeros(3);
    DigitsValueZeros("1", 3);
    Pow10Values();
    assert "1000" + "m" == "1000m";
    CpuStringMillicores("1000");
  }

  lemma CpuStringQuarterCore()
    ensures ParseCpuString("250m").Ok? && ParseCpuString("250m").value.Value() == 0.25
  {
    assert "25"[..1] == "2";
    assert "250" == "25" + Zeros(1);
    DigitsValueZeros("25", 1);
    assert "250" + "m" == "250m";
    CpuStringMillicores("250");
  }

  lemma CpuStringTwoCores()
    ensures ParseCpuString("2").Ok? && ParseCpuString("2").value.Value() == 2.0
  {
    CpuStringCores("2");
  }

  /** A bare "m" leaves an empty mantissa, which `parse::<f64>` rejects. */
  lemma CpuStringBareSuffix()
    ensures ParseCpuString("m") == Err(FloatEmpty)
  {
    assert EndsWith("m", "m");
    assert TrimEndMatches("m", "m") == [] by {
      assert "m"[..0] == [];
    }
  }

  /** The CPU parser does not trim: leading whitespace always makes it fail. */
  lemma CpuStringRejectsLeadingSpace(s: string)
    ensures ParseCpuString(" " + s).Err?
  {
    var t := " " + s;
    if EndsWith(t, "m") {
      var m := TrimEndMatches(t, "m");
      if m != [] {
        assert m[0] == ' ';
      }
    } else {
      assert !IsDigit(t[0]);
    }
  }

  /** The memory parser trims: a leading blank never changes its answer. */
  lemma MemoryStringIgnoresLeadingSpace(s: string)
    ensures ParseMemoryString(" " + s) == ParseMemoryString(s)
  {
    assert (" " + s)[1..] == s;
    assert TrimStart(" " + s) == TrimStart(s);
  }

  /** The suffix dispatch on "<d>Gi". */
  lemma TrimmedGi(d: string)
    requires d != [] && AllDigits(d)
    ensures ParseTrimmedMemory(d + "Gi") == ScaleMantissa(d, GIB)
  {
    StripOneSuffix(d, "Gi");
  }

  /** The suffix dispatch on "<d>Mi": it is not taken for a Gi suffix. */
  lemma TrimmedMi(d: string)
    requires d != [] && AllDigits(d)
    ensures ParseTrimmedMemory(d + "Mi") == ScaleMantissa(d, MIB)
  {
    var t := d + "Mi";
    StripOneSuffix(d, "Mi");
    assert t[|t| - 2] == 'M';
    DiffersAt(t, "Gi");
  }

  /** The suffix dispatch on "<d>Ki": it is taken for neither Gi nor Mi. */
  lemma TrimmedKi(d: string)
    requires d != [] && AllDigits(d)
    ensures ParseTrimmedMemory(d + "Ki") == ScaleMantissa(d, KIB)
  {
    var t := d + "Ki";
    StripOneSuffix(d, "Ki");
    assert t[|t| - 2] == 'K';
    DiffersAt(t, "Gi");
    DiffersAt(t, "Mi");
  }

  /** "<d>Gi" is d * 2^30 bytes, saturated to `u64`. */
  lemma MemoryStringGi(d: string)
    requires d != [] && AllDigits(d)
    ensures ParseMemoryString(d + "Gi") == Ok(SaturateU64(DigitsValue(d) * GIB))
  {
    SuffixedDigits(d, "Gi");
    TrimmedGi(d);
  }

  /** "<d>Mi" is d * 2^20 bytes, saturated to `u64`. */
  lemma MemoryStringMi(d: string)
    requires d != [] && AllDigits(d)
    ensures ParseMemoryString(d + "Mi") == Ok(SaturateU64(DigitsValue(d) * MIB))
  {
    SuffixedDigits(d, "Mi");
    TrimmedMi(d);
  }

  /** "<d>Ki" is d * 2^10 bytes, saturated to `u64`. */
  lemma MemoryStringKi(d: string)
    requires d != [] && AllDigits(d)
    ensures ParseMemoryString(d + "Ki") == Ok(SaturateU64(DigitsValue(d) * KIB))
  {
    SuffixedDigits(d, "Ki");
    TrimmedKi(d);
  }

  lemma MemoryStringGiMiAgree()
    ensures ParseMemoryString("8Gi") == ParseMemoryString("8192Mi") == Ok(8589934592)
  {
    assert AllDigits("8") && AllDigits("8192");
    assert DigitsValue("8") == 8;
    assert DigitsValue("8192") == 8192 by {
      assert "8192"[..3] == "819" && "819"[..2] == "81" && "81"[..1] == "8";
    }
    assert "8" + "Gi" == "8Gi" && "8192" + "Mi" == "8192Mi";
    MemoryStringGi("8");
    MemoryStringMi("8192");
  }

  /** On trimmed input ending in Gi, one more Gi changes nothing. */
  lemma TrimmedRepeatedGi(u: string)
    requires EndsWith(u, "Gi")
    ensures ParseTrimmedMemory(u + "Gi") == ParseTrimmedMemory(u)
  {
    assert (u + "Gi")[|u + "Gi"| - 2..] == "Gi";
    TrimEndMatchesAppend(u, "Gi");
  }

  lemma TrimmedEndsWithGi(s: string)
    ensures EndsWith(Trim(s + "Gi"), "Gi")
  {
    TrimKeepsSuffix(s, "Gi");
    EndsWithAppend(TrimStart(s), "Gi");
  }

  /** Every trailing repetition of the suffix is removed: "<s>GiGi" parses like "<s>Gi". */
  lemma MemoryStringRepeatedSuffix(s: string)
    ensures ParseMemoryString(s + "Gi" + "Gi") == ParseMemoryString(s + "Gi")
  {
    var u := s + "Gi";
    calc {
      ParseMemoryString(u + "Gi");
      ParseTrimmedMemory(Trim(u + "Gi"));
      { TrimKeepsSuffix(u, "Gi"); TrimKeepsSuffix(s, "Gi"); TrimStartAppend(s, "Gi"); }
      ParseTrimmedMemory(Trim(u) + "Gi");
      { TrimmedEndsWithGi(s); TrimmedRepeatedGi(Trim(u)); }
      ParseTrimmedMemory(Trim(u));
    }
  }

  /** Without a recognised suffix the trimmed input must be an unsigned integer, else an error. */
  lemma MemoryStringBytes(input: string)
    requires var s := Trim(input); !EndsWith(s, "Gi") && !EndsWith(s, "Mi") && !EndsWith(s, "Ki")
    ensures var d := UnsignedDigits(Trim(input));
      ParseMemoryString(input).Ok? <==> d != [] && AllDigits(d) && DigitsValue(d) < U64_LIMIT
    ensures var d := UnsignedDigits(Trim(input));
      ParseMemoryString(input).Ok? ==> ParseMemoryString(input).value == DigitsValue(d)
  {
    ParseU64Spec(Trim(input));
  }

  // ---------------------------------------------------------------------------
  // kuboard_format_memory
  // ---------------------------------------------------------------------------

  const UNITS: seq<string> := ["B", "KB", "MB", "GB", "TB"]

  /**
   * What `kuboard_format_memory` renders: the exact byte count followed by " B",
   * or `format!("{:.1} {}", size, unit)` of a scaled size and a unit name.
   */
  datatype MemoryText = Exact(text: string) | OneDecimal(size: real, unit: string)

  /**
   * Unit `k` is the one the formatter picks for `bytes`: the largest unit not
   * above the byte count (capped at TB), and `size` is bytes / 1024^k.
   */
  predicate UnitFits(bytes: nat, k: nat, size: real) {
    1 <= k < |UNITS| && Pow1024(k) <= bytes && (k < |UNITS| - 1 ==> bytes < Pow1024(k + 1))
    && size * Pow1024(k) as real == bytes as real
  }

  /** `kuboard_format_memory`: divide by 1024 while the size is at least 1024, up to TB. */
  method FormatMemory(bytes: nat) returns (r: MemoryText)
    ensures bytes < 1024 ==> r == Exact(NatToString(bytes) + " B")
    ensures bytes >= 1024 ==> r.OneDecimal?
    ensures r.OneDecimal? ==> exists k: nat :: UnitFits(bytes, k, r.size) && r.unit == UNITS[k]
  {
    var size: real := bytes as real;
    var unitIndex: nat := 0;
    ghost var p: nat := 1;
    while size >= 1024.0 && unitIndex < |UNITS| - 1
      invariant unitIndex < |UNITS| && p == Pow1024(unitIndex)
      invariant size * p as real == bytes as real
      invariant unitIndex == 0 || 1024 <= p <= bytes
      decreases |UNITS| - unitIndex
    {
      ScaleDown(bytes, p, size);
      size := size / 1024.0;
      unitIndex := unitIndex + 1;
      p := 1024 * p;
    }
    if unitIndex == 0 {
      assert size == bytes as real;
      r := Exact(NatToString(bytes) + " " + UNITS[unitIndex]);
    } else {
      r := OneDecimal(size, UNITS[unitIndex]);
      if unitIndex < |UNITS| - 1 {
        SizeBelow(bytes, p, size);
      }
      UnitFitsIntro(bytes, unitIndex, p, size);
    }
  }

  lemma UnitFitsIntro(bytes: nat, k: nat, p: nat, size: real)
    requires 1 <= k < |UNITS| && p == Pow1024(k) && p <= bytes && size * p as real == bytes as real
    requires k < |UNITS| - 1 ==> bytes < 1024 * p
    ensures UnitFits(bytes, k, size)
  {
    assert Pow1024(k + 1) == 1024 * p;
  }

  /** One division step of the formatter: the size stays bytes / 1024^k. */
  lemma ScaleDown(bytes: nat, p: nat, size: real)
    requires p >= 1 && size * p as real == bytes as real && size >= 1024.0
    ensures (size / 1024.0) * (1024 * p) as real == bytes as real
    ensures 1024 * p <= bytes
  {
    var q := p as real;
    MulNonNeg(size - 1024.0, q);
    SubMul(size, 1024.0, q);
    assert (1024 * p) as real == 1024.0 * q;
    assert (size / 1024.0) * (1024.0 * q) == size * q;
  }

  /** When the loop stops below the cap, the size is below 1024, so bytes < 1024^(k+1). */
  lemma SizeBelow(bytes: nat, p: nat, size: real)
    requires p >= 1 && size * p as real == bytes as real && size < 1024.0
    ensures bytes < 1024 * p
  {
    var q := p as real;
    MulPos(1024.0 - size, q);
    SubMul(1024.0, size, q);
    var limit := 1024.0 * q;
    assert limit - bytes as real > 0.0;
    assert (1024 * p) as real == limit;
    RealLtToNat(bytes, 1024 * p);
  }

  lemma MulPos(a: real, b: real)
    requires a > 0.0 && b > 0.0
    ensures a * b > 0.0
  {
  }

  lemma MulNonNeg(a: real, b: real)
    requires a >= 0.0 && b > 0.0
    ensures a * b >= 0.0
  {
  }

  lemma SubMul(x: real, y: real, q: real)
    ensures (x - y) * q == x * q - y * q
  {
  }

  lemma RealLtToNat(a: nat, b: nat)
    requires a as real < b as real
    ensures a < b
  {
  }
}
