/**
 * metrics/mod.rs: the usage-quantity parsers applied to metrics-server
 * readings, and the integer skeleton (point count, timestamps, data flag) of
 * the two metrics-history generators.
 */
module Metrics {
  import opened Outcome
  import opened RustStr
  import Utils

  // ---------------------------------------------------------------------------
  // parse_cpu_quantity
  // ---------------------------------------------------------------------------

  /**
   * A failed quantity parse: what was being read ("CPU millicores", "memory
   * KiB", ...), the trimmed input and the underlying parse error's text.
   */
  datatype QuantityError = QuantityError(what: string, input: string, cause: string) {
    /** The message the error displays. */
    function Text(): string {
      "Invalid " + what + " '" + input + "': " + cause
    }
  }

  function CpuError(unit: string, s: string, e: FloatError): QuantityError {
    QuantityError("CPU " + unit, s, FloatErrorText(e))
  }

  /** The mantissa before every trailing copy of `suffix`, divided by `scale`. */
  function CpuFraction(s: string, suffix: string, unit: string, scale: nat): Result<Fraction, QuantityError>
    requires suffix != []
  {
    match ParseF64(TrimEndMatches(s, suffix))
    case Ok(n) => Ok(Fraction(n, scale))
    case Err(e) => Err(CpuError(unit, s, e))
  }

  /** `parse_cpu_quantity`: cores, after trimming; the suffixes m, n and u are checked in that order. */
  function ParseCpuQuantity(input: string): (r: Result<Fraction, QuantityError>)
    ensures r.Ok? ==> r.value.denominator in {1, 1000, 1000000, 1000000000}
    ensures r.Err? ==> r.error.input == Trim(input)
  {
    ParseTrimmedCpu(Trim(input))
  }

  /** The suffix dispatch of `parse_cpu_quantity` on the trimmed input. */
  function ParseTrimmedCpu(s: string): (r: Result<Fraction, QuantityError>)
    ensures r.Ok? ==> r.value.denominator in {1, 1000, 1000000, 1000000000}
    ensures r.Err? ==> r.error.input == s
  {
    if EndsWith(s, "m") then CpuFraction(s, "m", "millicores", 1000)
    else if EndsWith(s, "n") then CpuFraction(s, "n", "nanocores", 1000000000)
    else if EndsWith(s, "u") then CpuFraction(s, "u", "microcores", 1000000)
    else
      match ParseF64(s)
      case Ok(n) => Ok(Fraction(n, 1))
      case Err(e) => Err(CpuError("cores", s, e))
  }

  /** The scaled mantissa of digits followed by one copy of a CPU suffix. */
  lemma CpuScaledDigits(d: string, suffix: string, unit: string, scale: nat)
    requires d != [] && AllDigits(d) && suffix != [] && !IsDigit(suffix[|suffix| - 1])
    ensures CpuFraction(d + suffix, suffix, unit, scale) == Ok(Fraction(DigitsValue(d), scale))
  {
    StripOneSuffix(d, suffix);
  }

  lemma TrimmedMillicores(d: string)
    requires d != [] && AllDigits(d)
    ensures ParseTrimmedCpu(d + "m") == Ok(Fraction(DigitsValue(d), 1000))
  {
    EndsWithAppend(d, "m");
    CpuScaledDigits(d, "m", "millicores", 1000);
  }

  lemma DispatchNanocores(d: string)
    requires d != [] && AllDigits(d)
    ensures ParseTrimmedCpu(d + "n") == CpuFraction(d + "n", "n", "nanocores", 1000000000)
  {
    EndsWithAppend(d, "n");
    DiffersAtEnd(d + "n", "m");
  }

  lemma TrimmedNanocores(d: string)
    requires d != [] && AllDigits(d)
    ensures ParseTrimmedCpu(d + "n") == Ok(Fraction(DigitsValue(d), 1000000000))
  {
    DispatchNanocores(d);
    CpuScaledDigits(d, "n", "nanocores", 1000000000);
  }

  lemma DispatchMicrocores(d: string)
    requires d != [] && AllDigits(d)
    ensures ParseTrimmedCpu(d + "u") == CpuFraction(d + "u", "u", "microcores", 1000000)
  {
    EndsWithAppend(d, "u");
    DiffersAtEnd(d + "u", "m");
    DiffersAtEnd(d + "u", "n");
  }

  lemma TrimmedMicrocores(d: string)
    requires d != [] && AllDigits(d)
    ensures ParseTrimmedCpu(d + "u") == Ok(Fraction(DigitsValue(d), 1000000))
  {
    DispatchMicrocores(d);
    CpuScaledDigits(d, "u", "microcores", 1000000);
  }

  /** "<d>m" is d/10^3 cores. */
  lemma CpuQuantityMillicores(d: string)
    requires d != [] && AllDigits(d)
    ensures ParseCpuQuantity(d + "m") == Ok(Fraction(DigitsValue(d), 1000))
  {
    Pretrimmed(d, "m");
    TrimmedMillicores(d);
  }

  /** "<d>n" is d/10^9 cores. */
  lemma CpuQuantityNanocores(d: string)
    requires d != [] && AllDigits(d)
    ensures ParseCpuQuantity(d + "n") == Ok(Fraction(DigitsValue(d), 1000000000))
  {
    Pretrimmed(d, "n");
    TrimmedNanocores(d);
  }

  /** "<d>u" is d/10^6 cores. */
  lemma CpuQuantityMicrocores(d: string)
    requires d != [] && AllDigits(d)
    ensures ParseCpuQuantity(d + "u") == Ok(Fraction(DigitsValue(d), 1000000))
  {
    Pretrimmed(d, "u");
    TrimmedMicrocores(d);
  }

  /** An unsuffixed digit string is whole cores, whatever blank padding surrounds it. */
  lemma CpuQuantityCores(w1: string, d: string, w2: string)
    requires AllWhitespace(w1) && AllWhitespace(w2) && d != [] && AllDigits(d)
    ensures ParseCpuQuantity(w1 + d + w2) == Ok(Fraction(DigitsValue(d), 1))
  {
    assert IsDigit(d[0]) && IsDigit(d[|d| - 1]);
    TrimPadded(w1, d, w2);
    DigitsHaveNoSuffix(d, "m");
    DigitsHaveNoSuffix(d, "n");
    DigitsHaveNoSuffix(d, "u");
  }

  lemma CpuQuantityExampleMillicores()
    ensures ParseCpuQuantity("150m").Ok? && ParseCpuQuantity("150m").value.Value() == 0.15
  {
    ExactMillicores();
  }

  lemma ExactMillicores()
    ensures ParseCpuQuantity("150m") == Ok(Fraction(150, 1000))
  {
    DigitsOf150();
    assert "150" + "m" == "150m";
    CpuQuantityMillicores("150");
  }

  lemma DigitsOf150()
    ensures AllDigits("150") && DigitsValue("150") == 150
  {
    assert "15"[..1] == "1";
    assert "150" == "15" + Zeros(1);
    DigitsValueZeros("15", 1);
  }

  lemma CpuQuantityExampleNanocores()
    ensures ParseCpuQuantity("500000000n").Ok? && ParseCpuQuantity("500000000n").value.Value() == 0.5
  {
    ExactNanocores();
  }

  lemma ExactNanocores()
    ensures ParseCpuQuantity("500000000n") == Ok(Fraction(500000000, 1000000000))
  {
    FiveThenZeros(8);
    assert "500000000" == "5" + Zeros(8);
    assert "500000000" + "n" == "500000000n";
    CpuQuantityNanocores("500000000");
  }

  /** "5" followed by k zeros is a digit string worth 5 * 10^k. */
  lemma FiveThenZeros(k: nat)
    requires k == 5 || k == 8
    ensures AllDigits("5" + Zeros(k)) && DigitsValue("5" + Zeros(k)) == 5 * Pow10(k)
    ensures k == 5 ==> DigitsValue("5" + Zeros(k)) == 500000
    ensures k == 8 ==> DigitsValue("5" + Zeros(k)) == 500000000
  {
    DigitsValueZeros("5", k);
    Pow10Values();
  }

  lemma CpuQuantityExampleMicrocores()
    ensures ParseCpuQuantity("500000u").Ok? && ParseCpuQuantity("500000u").value.Value() == 0.5
  {
    ExactMicrocores();
  }

  lemma ExactMicrocores()
    ensures ParseCpuQuantity("500000u") == Ok(Fraction(500000, 1000000))
  {
    FiveThenZeros(5);
    assert "500000" == "5" + Zeros(5);
    assert "500000" + "u" == "500000u";
    CpuQuantityMicrocores("500000");
  }

  // ---------------------------------------------------------------------------
  // parse_memory_quantity
  // ---------------------------------------------------------------------------

  function MemoryError(unit: string, s: string, cause: string): QuantityError {
    QuantityError("memory " + unit, s, cause)
  }

  /** `(mantissa * scale) as u64` for the mantissa before every trailing copy of `suffix`. */
  function MemoryScaled(s: string, suffix: string, unit: string, scale: nat): (r: Result<nat, QuantityError>)
    requires suffix != []
    ensures r.Ok? ==> r.value < U64_LIMIT
    ensures r.Err? ==> r.error.input == s
  {
    match ParseF64(TrimEndMatches(s, suffix))
    case Ok(m) => Ok(SaturateU64(m * scale))
    case Err(e) => Err(MemoryError(unit, s, FloatErrorText(e)))
  }

  /** `parse_memory_quantity`: bytes, after trimming. */
  function ParseMemoryQuantity(input: string): (r: Result<nat, QuantityError>)
    ensures r.Ok? ==> r.value < U64_LIMIT
    ensures r.Err? ==> r.error.input == Trim(input)
  {
    ParseTrimmedQuantity(Trim(input))
  }

  /** The suffix dispatch of `parse_memory_quantity`: Ki, Mi, Gi, Ti, then K, M, G, then bytes. */
  function ParseTrimmedQuantity(s: string): (r: Result<nat, QuantityError>)
    ensures r.Ok? ==> r.value < U64_LIMIT
    ensures r.Err? ==> r.error.input == s
  {
    if EndsWith(s, "Ki") then MemoryScaled(s, "Ki", "KiB", 1024)
    else if EndsWith(s, "Mi") then MemoryScaled(s, "Mi", "MiB", 1048576)
    else if EndsWith(s, "Gi") then MemoryScaled(s, "Gi", "GiB", 1073741824)
    else if EndsWith(s, "Ti") then MemoryScaled(s, "Ti", "TiB", 1099511627776)
    else if EndsWith(s, "K") then MemoryScaled(s, "K", "K", 1000)
    else if EndsWith(s, "M") then MemoryScaled(s, "M", "M", 1000000)
    else if EndsWith(s, "G") then MemoryScaled(s, "G", "G", 1000000000)
    else
      match ParseU64(s)
      case Ok(bytes) => Ok(bytes)
      case Err(e) => Err(MemoryError("bytes", s, IntErrorText(e)))
  }

  function Pow1000(k: nat): (r: nat)
    ensures r >= 1
  {
    if k == 0 then 1 else 1000 * Pow1000(k - 1)
  }

  lemma Pow1000Values()
    ensures Pow1000(1) == 1000 && Pow1000(2) == 1000000 && Pow1000(3) == 1000000000
  {
    assert Pow1000(2) == 1000 * Pow1000(1);
    assert Pow1000(3) == 1000 * Pow1000(2);
  }

  lemma DispatchKi(d: string)
    requires d != [] && AllDigits(d)
    ensures ParseTrimmedQuantity(d + "Ki") == MemoryScaled(d + "Ki", "Ki", "KiB", 1024)
  {
    EndsWithAppend(d, "Ki");
  }

  lemma DispatchMi(d: string)
    requires d != [] && AllDigits(d)
    ensures ParseTrimmedQuantity(d + "Mi") == MemoryScaled(d + "Mi", "Mi", "MiB", 1048576)
  {
    var t := d + "Mi";
    EndsWithAppend(d, "Mi");
    assert t[|t| - 2] == 'M';
    DiffersAt(t, "Ki");
  }

  lemma DispatchGi(d: string)
    requires d != [] && AllDigits(d)
    ensures ParseTrimmedQuantity(d + "Gi") == MemoryScaled(d + "Gi", "Gi", "GiB", 1073741824)
  {
    var t := d + "Gi";
    EndsWithAppend(d, "Gi");
    assert t[|t| - 2] == 'G';
    DiffersAt(t, "Ki");
    DiffersAt(t, "Mi");
  }

  lemma DispatchTi(d: string)
    requires d != [] && AllDigits(d)
    ensures ParseTrimmedQuantity(d + "Ti") == MemoryScaled(d + "Ti", "Ti", "TiB", 1099511627776)
  {
    var t := d + "Ti";
    EndsWithAppend(d, "Ti");
    assert t[|t| - 2] == 'T';
    DiffersAt(t, "Ki");
    DiffersAt(t, "Mi");
    DiffersAt(t, "Gi");
  }

  /** A string ending in an upper-case letter other than `i` skips every binary suffix. */
  lemma NoBinarySuffix(t: string)
    requires t != [] && t[|t| - 1] != 'i'
    ensures !EndsWith(t, "Ki") && !EndsWith(t, "Mi") && !EndsWith(t, "Gi") && !EndsWith(t, "Ti")
  {
    DiffersAtEnd(t, "Ki");
    DiffersAtEnd(t, "Mi");
    DiffersAtEnd(t, "Gi");
    DiffersAtEnd(t, "Ti");
  }

  lemma DispatchK(d: string)
    requires d != [] && AllDigits(d)
    ensures ParseTrimmedQuantity(d + "K") == MemoryScaled(d + "K", "K", "K", 1000)
  {
    var t := d + "K";
    EndsWithAppend(d, "K");
    NoBinarySuffix(t);
  }

  lemma DispatchM(d: string)
    requires d != [] && AllDigits(d)
    ensures ParseTrimmedQuantity(d + "M") == MemoryScaled(d + "M", "M", "M", 1000000)
  {
    var t := d + "M";
    EndsWithAppend(d, "M");
    NoBinarySuffix(t);
    DiffersAtEnd(t, "K");
  }

  lemma DispatchG(d: string)
    requires d != [] && AllDigits(d)
    ensures ParseTrimmedQuantity(d + "G") == MemoryScaled(d + "G", "G", "G", 1000000000)
  {
    var t := d + "G";
    EndsWithAppend(d, "G");
    NoBinarySuffix(t);
    DiffersAtEnd(t, "K");
    DiffersAtEnd(t, "M");
  }

  /** The scaled mantissa of digits followed by one copy of a letter suffix. */
  lemma ScaledDigits(d: string, suffix: string, unit: string, scale: nat)
    requires d != [] && AllDigits(d) && suffix != [] && !IsDigit(suffix[|suffix| - 1])
    ensures MemoryScaled(d + suffix, suffix, unit, scale) == Ok(SaturateU64(DigitsValue(d) * scale))
  {
    StripOneSuffix(d, suffix);
  }

  /** "<d>Ki" is d * 1024 bytes. */
  lemma MemoryQuantityKi(d: string)
    requires d != [] && AllDigits(d)
    ensures ParseMemoryQuantity(d + "Ki") == Ok(SaturateU64(DigitsValue(d) * Utils.Pow1024(1)))
  {
    Pretrimmed(d, "Ki");
    TrimmedQuantityKi(d);
  }

  lemma TrimmedQuantityKi(d: string)
    requires d != [] && AllDigits(d)
    ensures ParseTrimmedQuantity(d + "Ki") == Ok(SaturateU64(DigitsValue(d) * 1024))
  {
    DispatchKi(d);
    ScaledDigits(d, "Ki", "KiB", 1024);
  }

  /** "<d>Mi" is d * 1024^2 bytes. */
  lemma MemoryQuantityMi(d: string)
    requires d != [] && AllDigits(d)
    ensures ParseMemoryQuantity(d + "Mi") == Ok(SaturateU64(DigitsValue(d) * Utils.Pow1024(2)))
  {
    Pretrimmed(d, "Mi");
    TrimmedQuantityMi(d);
  }

  lemma TrimmedQuantityMi(d: string)
    requires d != [] && AllDigits(d)
    ensures ParseTrimmedQuantity(d + "Mi") == Ok(SaturateU64(DigitsValue(d) * 1048576))
  {
    DispatchMi(d);
    ScaledDigits(d, "Mi", "MiB", 1048576);
  }

  /** "<d>Gi" is d * 1024^3 bytes. */
  lemma MemoryQuantityGi(d: string)
    requires d != [] && AllDigits(d)
    ensures ParseMemoryQuantity(d + "Gi") == Ok(SaturateU64(DigitsValue(d) * Utils.Pow1024(3)))
  {
    Utils.Pow1024Values();
    Pretrimmed(d, "Gi");
    TrimmedQuantityGi(d);
  }

  lemma TrimmedQuantityGi(d: string)
    requires d != [] && AllDigits(d)
    ensures ParseTrimmedQuantity(d + "Gi") == Ok(SaturateU64(DigitsValue(d) * 1073741824))
  {
    DispatchGi(d);
    ScaledDigits(d, "Gi", "GiB", 1073741824);
  }

  /** "<d>Ti" is d * 1024^4 bytes. */
  lemma MemoryQuantityTi(d: string)
    requires d != [] && AllDigits(d)
    ensures ParseMemoryQuantity(d + "Ti") == Ok(SaturateU64(DigitsValue(d) * Utils.Pow1024(4)))
  {
    Utils.Pow1024Values();
    Pretrimmed(d, "Ti");
    TrimmedQuantityTi(d);
  }

  lemma TrimmedQuantityTi(d: string)
    requires d != [] && AllDigits(d)
    ensures ParseTrimmedQuantity(d + "Ti") == Ok(SaturateU64(DigitsValue(d) * 1099511627776))
  {
    DispatchTi(d);
    ScaledDigits(d, "Ti", "TiB", 1099511627776);
  }

  /** "<d>K" is d * 1000 bytes. */
  lemma MemoryQuantityK(d: string)
    requires d != [] && AllDigits(d)
    ensures ParseMemoryQuantity(d + "K") == Ok(SaturateU64(DigitsValue(d) * Pow1000(1)))
  {
    Pretrimmed(d, "K");
    TrimmedQuantityK(d);
  }

  lemma TrimmedQuantityK(d: string)
    requires d != [] && AllDigits(d)
    ensures ParseTrimmedQuantity(d + "K") == Ok(SaturateU64(DigitsValue(d) * 1000))
  {
    DispatchK(d);
    ScaledDigits(d, "K", "K", 1000);
  }

  /** "<d>M" is d * 1000^2 bytes. */
  lemma MemoryQuantityM(d: string)
    requires d != [] && AllDigits(d)
    ensures ParseMemoryQuantity(d + "M") == Ok(SaturateU64(DigitsValue(d) * Pow1000(2)))
  {
    Pretrimmed(d, "M");
    TrimmedQuantityM(d);
  }

  lemma TrimmedQuantityM(d: string)
    requires d != [] && AllDigits(d)
    ensures ParseTrimmedQuantity(d + "M") == Ok(SaturateU64(DigitsValue(d) * 1000000))
  {
    DispatchM(d);
    ScaledDigits(d, "M", "M", 1000000);
  }

  /** "<d>G" is d * 1000^3 bytes. */
  lemma MemoryQuantityG(d: string)
    requires d != [] && AllDigits(d)
    ensures ParseMemoryQuantity(d + "G") == Ok(SaturateU64(DigitsValue(d) * Pow1000(3)))
  {
    Pow1000Values();
    Pretrimmed(d, "G");
    TrimmedQuantityG(d);
  }

  lemma TrimmedQuantityG(d: string)
    requires d != [] && AllDigits(d)
    ensures ParseTrimmedQuantity(d + "G") == Ok(SaturateU64(DigitsValue(d) * 1000000000))
  {
    DispatchG(d);
    ScaledDigits(d, "G", "G", 1000000000);
  }

  /** Without a recognised suffix the trimmed input must be an unsigned integer. */
  lemma MemoryQuantityBytes(input: string)
    requires var s := Trim(input);
      !EndsWith(s, "Ki") && !EndsWith(s, "Mi") && !EndsWith(s, "Gi") && !EndsWith(s, "Ti")
      && !EndsWith(s, "K") && !EndsWith(s, "M") && !EndsWith(s, "G")
    ensures var d := UnsignedDigits(Trim(input));
      ParseMemoryQuantity(input).Ok? <==> d != [] && AllDigits(d) && DigitsValue(d) < U64_LIMIT
    ensures var d := UnsignedDigits(Trim(input));
      ParseMemoryQuantity(input).Ok? ==> ParseMemoryQuantity(input).value == DigitsValue(d)
  {
    ParseU64Spec(Trim(input));
  }

  /** Lower-case "k" is not a recognised suffix, so "1k" fails as a byte count and the message names it. */
  lemma MemoryQuantityRejectsLowerK()
    ensures ParseMemoryQuantity("1k") == Err(MemoryError("bytes", "1k", IntErrorText(InvalidDigit)))
  {
    assert Trim("1k") == "1k" by {
      TrimIdentity("1k");
    }
    TrimmedLowerK();
  }

  lemma TrimmedLowerK()
    ensures ParseTrimmedQuantity("1k") == Err(MemoryError("bytes", "1k", IntErrorText(InvalidDigit)))
  {
    var s := "1k";
    NoBinarySuffix(s);
    DiffersAtEnd(s, "K");
    DiffersAtEnd(s, "M");
    DiffersAtEnd(s, "G");
    assert ParseU64(s) == Err(InvalidDigit);
  }

  // ---------------------------------------------------------------------------
  // The timeline of the two history generators
  // ---------------------------------------------------------------------------

  /** The integer part of a `MetricsDataPoint`; the usage figures are floating point. */
  datatype DataPoint = DataPoint(timestamp: int, isMockData: bool)

  /** `duration_minutes` is a `u32`. */
  const U32_LIMIT: nat := 0x1_0000_0000

  /** The point pushed on iteration i: i minutes before `now`. */
  function PointAt(now: int, i: nat, isMock: bool): (p: DataPoint)
    ensures p.timestamp <= now && now - p.timestamp == 60 * i
    ensures p.isMockData == isMock
  {
    DataPoint(now - 60 * i, isMock)
  }

  /** The vector after the loop has pushed the points for 0 <= i < n, newest first. */
  function Pushed(now: int, n: nat, isMock: bool): (r: seq<DataPoint>)
    ensures |r| == n
  {
    if n == 0 then [] else Pushed(now, n - 1, isMock) + [PointAt(now, n - 1, isMock)]
  }

  lemma {:induction false} PushedAt(now: int, n: nat, isMock: bool, i: nat)
    requires i < n
    ensures Pushed(now, n, isMock)[i] == PointAt(now, i, isMock)
  {
    if i < n - 1 {
      PushedAt(now, n - 1, isMock, i);
    }
  }

  /** `Vec::reverse`: the last element first. */
  function Reversed(s: seq<DataPoint>): (r: seq<DataPoint>)
    ensures |r| == |s|
  {
    if s == [] then [] else [s[|s| - 1]] + Reversed(s[..|s| - 1])
  }

  lemma {:induction false} ReversedAt(s: seq<DataPoint>, k: nat)
    requires k < |s|
    ensures Reversed(s)[k] == s[|s| - 1 - k]
  {
    if k > 0 {
      ReversedAt(s[..|s| - 1], k - 1);
    }
  }

  /** What both generators return: the pushed points reversed into chronological order. */
  function Timeline(now: int, duration: nat, isMock: bool): (r: seq<DataPoint>)
    ensures |r| == duration + 1
  {
    Reversed(Pushed(now, duration + 1, isMock))
  }

  lemma TimelineAt(now: int, duration: nat, isMock: bool, k: nat)
    requires k <= duration
    ensures Timeline(now, duration, isMock)[k] == DataPoint(now - 60 * (duration - k), isMock)
  {
    ReversedAt(Pushed(now, duration + 1, isMock), k);
    PushedAt(now, duration + 1, isMock, duration - k);
  }

  /**
   * duration + 1 points, oldest first at now - 60 * duration, newest last at
   * now, one minute apart, every one carrying the same data flag.
   */
  lemma TimelineShape(now: int, duration: nat, isMock: bool)
    ensures var t := Timeline(now, duration, isMock);
      |t| == duration + 1 && t[0].timestamp == now - 60 * duration && t[duration].timestamp == now
    ensures var t := Timeline(now, duration, isMock);
      forall k :: 0 <= k < duration ==> t[k + 1].timestamp == t[k].timestamp + 60
    ensures var t := Timeline(now, duration, isMock);
      forall k :: 0 <= k < |t| ==> t[k].isMockData == isMock
  {
    var t := Timeline(now, duration, isMock);
    TimelineAt(now, duration, isMock, 0);
    TimelineAt(now, duration, isMock, duration);
    forall k | 0 <= k < duration
      ensures t[k + 1].timestamp == t[k].timestamp + 60
    {
      TimelineAt(now, duration, isMock, k);
      TimelineAt(now, duration, isMock, k + 1);
    }
    forall k | 0 <= k < |t|
      ensures t[k].isMockData == isMock
    {
      TimelineAt(now, duration, isMock, k);
    }
  }

  /** The timestamps are strictly increasing. */
  lemma TimelineIncreasing(now: int, duration: nat, isMock: bool, j: nat, k: nat)
    requires j < k <= duration
    ensures Timeline(now, duration, isMock)[j].timestamp < Timeline(now, duration, isMock)[k].timestamp
  {
    TimelineAt(now, duration, isMock, j);
    TimelineAt(now, duration, isMock, k);
  }

  /** `Vec::reverse` on the history buffer, swapping from both ends. */
  method ReverseInPlace(a: array<DataPoint>)
    modifies a
    ensures a[..] == Reversed(old(a[..]))
  {
    var i, j := 0, a.Length - 1;
    while i < j
      invariant 0 <= i && i + j == a.Length - 1 && (i <= j + 1)
      invariant forall k :: 0 <= k < i ==> a[k] == old(a[a.Length - 1 - k]) && a[a.Length - 1 - k] == old(a[k])
      invariant forall k :: i <= k <= j ==> a[k] == old(a[k])
    {
      a[i], a[j] := a[j], a[i];
      i, j := i + 1, j - 1;
    }
    ghost var before := old(a[..]);
    forall k | 0 <= k < a.Length
      ensures a[k] == Reversed(before)[k]
    {
      ReversedAt(before, k);
    }
  }

  /** The push loop and the reverse shared by both generators. */
  method BuildTimeline(now: int, duration: nat, isMock: bool) returns (history: seq<DataPoint>)
    requires duration < U32_LIMIT
    ensures history == Timeline(now, duration, isMock)
  {
    var buffer := new DataPoint[duration + 1];
    for i := 0 to duration + 1
      invariant forall k :: 0 <= k < i ==> buffer[k] == PointAt(now, k, isMock)
    {
      buffer[i] := PointAt(now, i, isMock);
    }
    forall k | 0 <= k < duration + 1
      ensures buffer[..][k] == Pushed(now, duration + 1, isMock)[k]
    {
      PushedAt(now, duration + 1, isMock, k);
    }
    assert buffer[..] == Pushed(now, duration + 1, isMock);
    ReverseInPlace(buffer);
    history := buffer[..];
  }

  /** The current usage reading of one node, as metrics-server reports it. */
  datatype NodeUsage = NodeUsage(cpu: string, memory: string)

  /**
   * `kuboard_fetch_node_metrics_history`. Whether the metrics API answers and
   * the reading it returns are inputs; the reading's CPU and memory must both
   * parse before the timeline is built.
   */
  method FetchNodeMetricsHistory(apiAvailable: bool, current: Result<NodeUsage, string>, now: int, duration: nat)
    returns (r: Result<seq<DataPoint>, string>)
    requires duration < U32_LIMIT
    ensures !apiAvailable ==> r == Err("Metrics server not available")
    ensures apiAvailable && current.Err? ==> r == Err(current.error)
    ensures apiAvailable && current.Ok? && ParseCpuQuantity(current.value.cpu).Err?
      ==> r == Err(ParseCpuQuantity(current.value.cpu).error.Text())
    ensures apiAvailable && current.Ok? && ParseCpuQuantity(current.value.cpu).Ok?
      && ParseMemoryQuantity(current.value.memory).Err?
      ==> r == Err(ParseMemoryQuantity(current.value.memory).error.Text())
    ensures r.Ok? <==> (apiAvailable && current.Ok? && ParseCpuQuantity(current.value.cpu).Ok?
      && ParseMemoryQuantity(current.value.memory).Ok?)
    ensures r.Ok? ==> r.value == Timeline(now, duration, false)
  {
    if !apiAvailable {
      return Err("Metrics server not available");
    }
    match current {
      case Err(e) =>
        r := Err(e);
      case Ok(usage) =>
        var cpu := ParseCpuQuantity(usage.cpu);
        if cpu.Err? {
          return Err(cpu.error.Text());
        }
        var memory := ParseMemoryQuantity(usage.memory);
        if memory.Err? {
          return Err(memory.error.Text());
        }
        var history := BuildTimeline(now, duration, false);
        r := Ok(history);
    }
  }

  /** `generate_mock_metrics_history`: the same timeline, flagged as mock data. */
  method GenerateMockMetricsHistory(now: int, duration: nat) returns (history: seq<DataPoint>)
    requires duration < U32_LIMIT
    ensures history == Timeline(now, duration, true)
  {
    history := BuildTimeline(now, duration, true);
  }

  // ---------------------------------------------------------------------------
  // The timestamp offset as written: `(i * 60) as i64` multiplies in u32
  // ---------------------------------------------------------------------------

  /** The timestamp of point i when `i * 60` is computed in `u32` and wraps before the widening cast. */
  function WrappedTimestamp(now: int, i: nat): (t: int)
    requires i < U32_LIMIT
    ensures now - U32_LIMIT < t <= now
  {
    now - (i * 60) % U32_LIMIT
  }

  /** Up to 71582788 minutes the wrapped offset is the intended one. */
  lemma WrappedTimestampAgrees(now: int, i: nat)
    requires i <= 71582788
    ensures WrappedTimestamp(now, i) == PointAt(now, i, false).timestamp
  {
  }

  /**
   * Minute 71582789 wraps to an offset of 44 seconds, so that point would be
   * stamped later than the point one minute old.
   */
  lemma WrappedTimestampCounterexample()
    ensures WrappedTimestamp(0, 71582789) == -44
    ensures WrappedTimestamp(0, 71582789) > WrappedTimestamp(0, 1)
    ensures PointAt(0, 71582789, false).timestamp < PointAt(0, 1, false).timestamp
  {
  }
}
