/** `/proc/meminfo`: relevant lines, the available-memory fallback and the derived metrics. */
module Memory {
  import opened Wrappers
  import opened Text
  import opened Numerals

  datatype MemoryError =
    | Duplicate(key: string)
    | NoValue(key: string)
    | NotUnsigned(key: string)
    | WrongUnit(key: string)
    | Missing(key: string)
    | ZeroTotal
    | FallbackOverflow
    | BytesOverflow(key: string)
    | AvailableExceedsTotal
    | FreeSwapExceedsTotal

  const BYTES_PER_KIBIBYTE: nat := 1024

  // ---- one line

  predicate CanonicalKey(key: string) {
    key in {"MemTotal", "MemAvailable", "MemFree", "Buffers", "Cached", "SReclaimable", "Shmem", "SwapTotal",
        "SwapFree"}
  }

  function WordLength(s: string): (n: nat)
    ensures n <= |s|
    ensures s != "" && !IsSpace(s[0]) ==> n > 0
  {
    if s == "" || IsSpace(s[0]) then 0 else 1 + WordLength(s[1..])
  }

  /** `str::split_whitespace`. */
  function Words(s: string): (words: seq<string>)
    decreases |s|
  {
    if s == "" then []
    else if IsSpace(s[0]) then Words(s[1..])
    else [s[..WordLength(s)]] + Words(s[WordLength(s)..])
  }

  /** `str::parse::<u64>`, digit by digit with overflow checked; one leading plus sign is allowed. */
  function DecimalValue(s: string): (v: Option<u64>)
    decreases |s|
  {
    if s == "" then Some(0)
    else
      var last := s[|s| - 1];
      match DecimalValue(s[..|s| - 1])
      case None => None
      case Some(high) =>
        if '0' <= last <= '9' then
          var value: nat := 10 * (high as int) + (last as int - '0' as int);
          if value <= U64_MAX then Some(value) else None
        else None
  }

  function ParseU64(s: string): (v: Option<u64>) {
    if s == "" || s == "+" || s == "-" then None
    else if s[0] == '+' then DecimalValue(s[1..])
    else DecimalValue(s)
  }

  function ParseKibValue(raw: string, key: string): (r: Result<u64, MemoryError>) {
    var fields := Words(raw);
    if fields == [] then Failure(NoValue(key))
    else
      match ParseU64(fields[0])
      case None => Failure(NotUnsigned(key))
      case Some(value) => if |fields| == 2 && fields[1] == "kB" then Success(value) else Failure(WrongUnit(key))
  }

  /** What a line contributes: nothing, or a value or error for a relevant key. */
  datatype Entry = Ignored | Entry(key: string, value: Result<u64, MemoryError>)

  function ParseLine(line: string): (entry: Entry) {
    match SplitOnce(line, ':')
    case None => Ignored
    case Some((rawKey, rawValue)) =>
      var key := Trim(rawKey);
      if CanonicalKey(key) then Entry(key, ParseKibValue(rawValue, key)) else Ignored
  }

  // ---- all lines

  type Values = map<string, u64>

  function AddEntry(values: Values, entry: Entry): (r: Result<Values, MemoryError>) {
    match entry
    case Ignored => Success(values)
    case Entry(key, value) =>
      if key in values then Failure(Duplicate(key))
      else
        match value
        case Failure(error) => Failure(error)
        case Success(kib) => Success(values[key := kib])
  }

  function RelevantValues(lines: seq<string>): (r: Result<Values, MemoryError>) {
    if lines == [] then Success(map[])
    else
      match RelevantValues(lines[..|lines| - 1])
      case Failure(error) => Failure(error)
      case Success(values) => AddEntry(values, ParseLine(lines[|lines| - 1]))
  }

  lemma {:induction false} FailureStays(lines: seq<string>, n: nat)
    requires n <= |lines| && RelevantValues(lines[..n]).Failure?
    ensures RelevantValues(lines) == RelevantValues(lines[..n])
    decreases |lines| - n
  {
    if n == |lines| {
      assert lines[..n] == lines;
    } else {
      assert lines[..n + 1][..n] == lines[..n];
      FailureStays(lines, n + 1);
    }
  }

  method ParseRelevantValues(lines: seq<string>) returns (r: Result<Values, MemoryError>)
    ensures r == RelevantValues(lines)
  {
    var values: Values := map[];
    var i := 0;
    while i < |lines|
      invariant 0 <= i <= |lines|
      invariant RelevantValues(lines[..i]) == Success(values)
    {
      assert lines[..i + 1][..i] == lines[..i];
      match ParseLine(lines[i]) {
        case Ignored =>
        case Entry(key, value) =>
          if key in values {
            FailureStays(lines, i + 1);
            return Failure(Duplicate(key));
          }
          match value {
            case Failure(error) =>
              FailureStays(lines, i + 1);
              return Failure(error);
            case Success(kib) => values := values[key := kib];
          }
      }
      i := i + 1;
    }
    assert lines[..i] == lines;
    r := Success(values);
  }

  function Required(values: Values, key: string): (r: Result<u64, MemoryError>) {
    if key in values then Success(values[key]) else Failure(Missing(key))
  }

  function SaturatingSub(a: nat, b: nat): (d: nat) {
    if b <= a then a - b else 0
  }

  function FallbackAvailable(values: Values): (r: Result<u64, MemoryError>) {
    if "MemFree" !in values then Failure(Missing("MemFree"))
    else if "Buffers" !in values then Failure(Missing("Buffers"))
    else if "Cached" !in values then Failure(Missing("Cached"))
    else if "SReclaimable" !in values then Failure(Missing("SReclaimable"))
    else if "Shmem" !in values then Failure(Missing("Shmem"))
    else
      var sum: nat :=
        (values["MemFree"] as int) + values["Buffers"] as int + values["Cached"] as int + values["SReclaimable"] as int;
      if sum <= U64_MAX then Success(SaturatingSub(sum, values["Shmem"])) else Failure(FallbackOverflow)
  }

  function ToBytes(kib: u64, key: string): (r: Result<u64, MemoryError>) {
    if kib * BYTES_PER_KIBIBYTE <= U64_MAX then Success(kib * BYTES_PER_KIBIBYTE) else Failure(BytesOverflow(key))
  }

  function Percentage(used: nat, total: nat): (p: real) {
    if total == 0 then 0.0 else 100.0 * used as real / total as real
  }

  datatype MemoryMetrics = MemoryMetrics(
    totalBytes: u64, availableBytes: u64, usedBytes: u64, usedPercent: real,
    swapTotalBytes: u64, swapFreeBytes: u64, swapUsedBytes: u64, swapUsedPercent: real)

  /** The byte counts and percentages of clamped kibibyte counts, with every check the code makes. */
  function Measure(total: u64, available: u64, swapTotal: u64, swapFree: u64): (r: Result<MemoryMetrics, MemoryError>) {
    match ToBytes(total, "MemTotal")
    case Failure(e) => Failure(e)
    case Success(totalBytes) =>
      match ToBytes(available, "MemAvailable")
      case Failure(e) => Failure(e)
      case Success(availableBytes) =>
        if availableBytes > totalBytes then Failure(AvailableExceedsTotal)
        else
          match ToBytes(swapTotal, "SwapTotal")
          case Failure(e) => Failure(e)
          case Success(swapTotalBytes) =>
            match ToBytes(swapFree, "SwapFree")
            case Failure(e) => Failure(e)
            case Success(swapFreeBytes) =>
              if swapFreeBytes > swapTotalBytes then Failure(FreeSwapExceedsTotal)
              else
                var used, swapUsed := totalBytes - availableBytes, swapTotalBytes - swapFreeBytes;
                Success(MemoryMetrics(totalBytes, availableBytes, used, Percentage(used, totalBytes),
                                      swapTotalBytes, swapFreeBytes, swapUsed, Percentage(swapUsed, swapTotalBytes)))
  }

  function Metrics(values: Values): (r: Result<MemoryMetrics, MemoryError>) {
    match Required(values, "MemTotal")
    case Failure(e) => Failure(e)
    case Success(total) =>
      if total == 0 then Failure(ZeroTotal)
      else
        match if "MemAvailable" in values then Success(values["MemAvailable"]) else FallbackAvailable(values)
        case Failure(e) => Failure(e)
        case Success(available) =>
          match Required(values, "SwapTotal")
          case Failure(e) => Failure(e)
          case Success(swapTotal) =>
            match Required(values, "SwapFree")
            case Failure(e) => Failure(e)
            case Success(swapFree) => Measure(total, Min(available, total), swapTotal, Min(swapFree, swapTotal))
  }

  function ParseMeminfo(lines: seq<string>): (r: Result<MemoryMetrics, MemoryError>) {
    match RelevantValues(lines)
    case Failure(e) => Failure(e)
    case Success(values) => Metrics(values)
  }

  // ---- the order of the lines does not matter

  predicate HasKey(line: string, key: string) {
    ParseLine(line).Entry? && ParseLine(line).key == key
  }

  ghost predicate Names(lines: multiset<string>, key: string) {
    exists line :: line in lines && HasKey(line, key)
  }

  /** Every relevant line is well formed and alone in naming its key. */
  ghost predicate Clean(lines: multiset<string>) {
    forall line | line in lines && ParseLine(line).Entry? ::
      && ParseLine(line).value.Success? && lines[line] == 1
      && forall other | other in lines && other != line :: !HasKey(other, ParseLine(line).key)
  }

  /** The values are those the lines give. */
  ghost predicate Describes(values: Values, lines: multiset<string>) {
    && (forall line | line in lines && ParseLine(line).Entry? :: ParseLine(line).key in values)
    && (forall key | key in values ::
          exists line :: line in lines && ParseLine(line) == Entry(key, Success(values[key])))
  }

  /** Parsing the lines succeeds exactly when they are clean, and then gives what they describe. */
  lemma {:induction false} ParsingCharacterized(lines: seq<string>)
    ensures RelevantValues(lines).Success? <==> Clean(multiset(lines))
    ensures RelevantValues(lines).Success? ==> Describes(RelevantValues(lines).value, multiset(lines))
    decreases |lines|
  {
    hide Clean, Describes, Names, ParseLine;
    if lines == [] {
      NoLines();
    } else {
      var before, last := lines[..|lines| - 1], lines[|lines| - 1];
      assert lines == before + [last];
      assert multiset(lines) == multiset(before) + multiset{last};
      ParsingCharacterized(before);
      CleanWith(multiset(before), last);
      if RelevantValues(before).Success? {
        DescribesWith(RelevantValues(before).value, multiset(before), last);
      }
    }
  }

  lemma NoLines()
    ensures Clean(multiset([])) && Describes(map[], multiset([]))
  {
  }

  lemma CleanWith(lines: multiset<string>, last: string)
    ensures Clean(lines + multiset{last})
       <==> Clean(lines)
            && (ParseLine(last).Entry? ==>
                  ParseLine(last).value.Success? && !Names(lines, ParseLine(last).key))
  {
    hide ParseLine;
    var all := lines + multiset{last};
    if Clean(all) {
      forall line | line in lines && ParseLine(line).Entry?
        ensures ParseLine(line).value.Success? && lines[line] == 1
        ensures forall other | other in lines && other != line :: !HasKey(other, ParseLine(line).key)
      {
        assert line in all;
      }
      if ParseLine(last).Entry? {
        assert last in all && all[last] == 1;
      }
    }
  }

  lemma DescribesWith(values: Values, lines: multiset<string>, last: string)
    requires Describes(values, lines)
    ensures ParseLine(last).Entry? ==>
      (ParseLine(last).key in values <==> Names(lines, ParseLine(last).key))
    ensures AddEntry(values, ParseLine(last)).Success? ==>
      Describes(AddEntry(values, ParseLine(last)).value, lines + multiset{last})
  {
    hide ParseLine;
    if ParseLine(last).Entry? && ParseLine(last).key in values {
      var key := ParseLine(last).key;
      var line :| line in lines && ParseLine(line) == Entry(key, Success(values[key]));
      assert HasKey(line, key);
    }
    var r := AddEntry(values, ParseLine(last));
    if r.Success? {
      var all := lines + multiset{last};
      forall key | key in r.value
        ensures exists line :: line in all && ParseLine(line) == Entry(key, Success(r.value[key]))
      {
        if key in values {
          var line :| line in lines && ParseLine(line) == Entry(key, Success(values[key]));
          assert line in all;
        } else {
          assert last in all;
        }
      }
    }
  }

  lemma DescriptionIsUnique(a: Values, b: Values, lines: multiset<string>)
    requires Clean(lines) && Describes(a, lines) && Describes(b, lines)
    ensures a == b
  {
    hide Clean, Describes;
    forall key | key in a
      ensures key in b && a[key] == b[key]
    {
      SameValue(a, b, lines, key);
    }
    forall key | key in b
      ensures key in a
    {
      SameValue(b, a, lines, key);
    }
  }

  lemma SameValue(a: Values, b: Values, lines: multiset<string>, key: string)
    requires Clean(lines) && Describes(a, lines) && Describes(b, lines) && key in a
    ensures key in b && a[key] == b[key]
  {
    hide ParseLine;
    var line :| line in lines && ParseLine(line) == Entry(key, Success(a[key]));
    assert ParseLine(line).key in b;
    var other :| other in lines && ParseLine(other) == Entry(key, Success(b[key]));
    assert HasKey(other, key);
  }

  /** Permuting the lines changes neither success nor the metrics. */
  lemma LineOrderIsIrrelevant(a: seq<string>, b: seq<string>)
    requires multiset(a) == multiset(b)
    ensures ParseMeminfo(a).Success? <==> ParseMeminfo(b).Success?
    ensures ParseMeminfo(a).Success? ==> ParseMeminfo(a) == ParseMeminfo(b)
  {
    ParsingCharacterized(a);
    ParsingCharacterized(b);
    if RelevantValues(a).Success? {
      DescriptionIsUnique(RelevantValues(a).value, RelevantValues(b).value, multiset(a));
    }
  }

  // ---- the metrics are consistent

  /** The checks behind the clamps never fail, and what is used and what is free make up the total. */
  lemma MeasureIsConsistent(total: u64, available: u64, swapTotal: u64, swapFree: u64)
    requires 0 < total && available <= total && swapFree <= swapTotal
    ensures var r := Measure(total, available, swapTotal, swapFree);
      && (r.Success? <==> total * BYTES_PER_KIBIBYTE <= U64_MAX && swapTotal * BYTES_PER_KIBIBYTE <= U64_MAX)
      && (r.Failure? ==> r.error in {BytesOverflow("MemTotal"), BytesOverflow("SwapTotal")})
      && (r.Success? ==>
            && r.value.usedBytes + r.value.availableBytes == r.value.totalBytes
            && r.value.swapUsedBytes + r.value.swapFreeBytes == r.value.swapTotalBytes
            && 0.0 <= r.value.usedPercent <= 100.0 && 0.0 <= r.value.swapUsedPercent <= 100.0
            && (r.value.usedPercent == 0.0 <==> r.value.usedBytes == 0)
            && (r.value.swapUsedPercent == 0.0 <==> r.value.swapUsedBytes == 0))
  {
    var r := Measure(total, available, swapTotal, swapFree);
    if r.Success? {
      PercentageBounds(r.value.usedBytes, r.value.totalBytes);
      PercentageBounds(r.value.swapUsedBytes, r.value.swapTotalBytes);
    }
  }

  lemma PercentageBounds(used: nat, total: nat)
    requires used <= total
    ensures 0.0 <= Percentage(used, total) <= 100.0
    ensures Percentage(used, total) == 0.0 <==> used == 0
  {
    if total != 0 {
      var p := Percentage(used, total);
      assert p * total as real == 100.0 * used as real;
    }
  }

  /** Whatever the input, the overflow and underflow errors of the clamped values never come out. */
  lemma MetricsAreConsistent(lines: seq<string>)
    ensures var r := ParseMeminfo(lines);
      && (r.Failure? ==>
            r.error !in {BytesOverflow("MemAvailable"), BytesOverflow("SwapFree"), AvailableExceedsTotal,
                FreeSwapExceedsTotal})
      && (r.Success? ==>
            && r.value.usedBytes + r.value.availableBytes == r.value.totalBytes && r.value.totalBytes > 0
            && r.value.swapUsedBytes + r.value.swapFreeBytes == r.value.swapTotalBytes
            && 0.0 <= r.value.usedPercent <= 100.0 && 0.0 <= r.value.swapUsedPercent <= 100.0)
  {
    match RelevantValues(lines) {
      case Failure(_) => ValueErrors(lines);
      case Success(values) =>
        var r := Metrics(values);
        if "MemTotal" in values && values["MemTotal"] != 0 && "SwapTotal" in values && "SwapFree" in values {
          var available := if "MemAvailable" in values then Success(values["MemAvailable"])
            else FallbackAvailable(values);
          if available.Success? {
            MeasureIsConsistent(values["MemTotal"], Min(available.value, values["MemTotal"]),
                                values["SwapTotal"], Min(values["SwapFree"], values["SwapTotal"]));
          }
        }
    }
  }

  const FALLBACK_KEYS := {"MemFree", "Buffers", "Cached", "SReclaimable", "Shmem"}

  /** The available memory in kibibytes: as reported, or the legacy sum less the shared part, never below zero. */
  ghost predicate Available(values: Values, kib: u64) {
    if "MemAvailable" in values then kib == values["MemAvailable"]
    else
      && FALLBACK_KEYS <= values.Keys
      && var sum := values["MemFree"] as int + values["Buffers"] as int
                  + values["Cached"] as int + values["SReclaimable"] as int;
      && sum <= U64_MAX
      && (sum >= values["Shmem"] ==> kib + values["Shmem"] == sum)
      && (sum < values["Shmem"] ==> kib == 0)
  }

  lemma FallbackMeans(values: Values, kib: u64)
    requires "MemAvailable" !in values
    ensures Available(values, kib) <==> FallbackAvailable(values) == Success(kib)
  {
    assert FALLBACK_KEYS <= values.Keys <==> forall key | key in FALLBACK_KEYS :: key in values;
  }

  /** When exactly the metrics of the parsed values exist. */
  lemma MetricsExist(values: Values)
    ensures Metrics(values).Success? <==>
      && "MemTotal" in values && "SwapTotal" in values && "SwapFree" in values
      && 0 < values["MemTotal"] * BYTES_PER_KIBIBYTE <= U64_MAX
      && values["SwapTotal"] * BYTES_PER_KIBIBYTE <= U64_MAX
      && exists kib :: Available(values, kib)
  {
    if "MemAvailable" in values {
      assert Available(values, values["MemAvailable"]);
    } else {
      forall kib: u64 ensures Available(values, kib) <==> FallbackAvailable(values) == Success(kib) {
        FallbackMeans(values, kib);
      }
      if FallbackAvailable(values).Success? {
        assert Available(values, FallbackAvailable(values).value);
      }
    }
    hide FallbackAvailable, Available;
    if "MemTotal" in values && values["MemTotal"] > 0 && "SwapTotal" in values && "SwapFree" in values {
      forall available: u64 {
        MeasureIsConsistent(values["MemTotal"], Min(available, values["MemTotal"]),
                            values["SwapTotal"], Min(values["SwapFree"], values["SwapTotal"]));
      }
    }
  }

  predicate ExactPercent(percent: real, part: nat, whole: nat) {
    percent * whole as real == 100.0 * part as real
  }

  /** What the metrics are: byte counts of the clamped values, and percentages that are exact ratios. */
  lemma MetricsMean(values: Values, kib: u64)
    requires Metrics(values).Success? && Available(values, kib)
    ensures var m := Metrics(values).value;
      && m.totalBytes == 1024 * values["MemTotal"]
      && m.availableBytes == (if kib <= values["MemTotal"] then 1024 * kib else m.totalBytes)
      && ExactPercent(m.usedPercent, m.usedBytes, m.totalBytes)
      && m.swapTotalBytes == 1024 * values["SwapTotal"]
      && m.swapFreeBytes ==
           (if values["SwapFree"] <= values["SwapTotal"] then 1024 * values["SwapFree"] else m.swapTotalBytes)
      && ExactPercent(m.swapUsedPercent, m.swapUsedBytes, m.swapTotalBytes)
  {
    if "MemAvailable" !in values {
      FallbackMeans(values, kib);
    }
    hide FallbackAvailable, Available, Measure, ExactPercent, Percentage;
    var total, swapTotal := values["MemTotal"], values["SwapTotal"];
    MeasureMeans(total, Min(kib, total), swapTotal, Min(values["SwapFree"], swapTotal));
  }

  lemma MeasureMeans(total: u64, available: u64, swapTotal: u64, swapFree: u64)
    requires Measure(total, available, swapTotal, swapFree).Success?
    ensures var m := Measure(total, available, swapTotal, swapFree).value;
      && m.totalBytes == 1024 * total && m.availableBytes == 1024 * available
      && ExactPercent(m.usedPercent, m.usedBytes, m.totalBytes)
      && m.swapTotalBytes == 1024 * swapTotal && m.swapFreeBytes == 1024 * swapFree
      && ExactPercent(m.swapUsedPercent, m.swapUsedBytes, m.swapTotalBytes)
  {
    hide Percentage, ExactPercent;
    var m := Measure(total, available, swapTotal, swapFree).value;
    RatioIsExact(m.usedBytes, m.totalBytes);
    RatioIsExact(m.swapUsedBytes, m.swapTotalBytes);
  }

  lemma RatioIsExact(used: nat, total: nat)
    requires used <= total
    ensures ExactPercent(Percentage(used, total), used, total)
  {
  }

  lemma {:induction false} ValueErrors(lines: seq<string>)
    ensures RelevantValues(lines).Failure? ==>
      var e := RelevantValues(lines).error; e.Duplicate? || e.NoValue? || e.NotUnsigned? || e.WrongUnit?
    decreases |lines|
  {
    if lines != [] {
      ValueErrors(lines[..|lines| - 1]);
      LineErrors(lines[|lines| - 1]);
      hide ParseLine;
    }
  }

  lemma LineErrors(line: string)
    ensures ParseLine(line).Entry? && ParseLine(line).value.Failure? ==>
      var e := ParseLine(line).value.error; e.NoValue? || e.NotUnsigned? || e.WrongUnit?
  {
    hide Words, ParseU64, SplitOnce, Trim, CanonicalKey;
  }

  // ---- what a line means, by its text

  const DECIMAL: string := "0123456789"

  /** A number as it may be written: an optional plus, then decimal digits. */
  ghost predicate DecimalText(text: string, n: nat) {
    Numeral(text, n, DECIMAL, DECIMAL)
  }

  lemma DecimalDigit(c: char, v: nat)
    ensures '0' <= c <= '9' && c as int - '0' as int == v <==> v < 10 && c == "0123456789"[v]
  {
    if v < 10 {
      assert v in {0, 1, 2, 3, 4, 5, 6, 7, 8, 9};
    }
  }

  lemma TenDigits()
    ensures |DECIMAL| == 10
  {
  }

  /** The digits of a text give its number, as long as it fits 64 bits. */
  lemma {:induction false} SpelledDecimal(text: string, digits: seq<nat>)
    requires Spelling(text, digits, DECIMAL, DECIMAL)
    ensures DecimalValue(text) == if Number(digits, 10) <= U64_MAX then Some(Number(digits, 10)) else None
    decreases |text|
  {
    if text != "" {
      var n := |text| - 1;
      SpelledDecimal(text[..n], digits[..n]);
      LastDigit(digits, 10);
      DecimalDigit(text[n], digits[n]);
      hide Number, Spelling;
    }
  }

  lemma {:induction false} DecimalIsSpelled(text: string) returns (digits: seq<nat>)
    requires DecimalValue(text).Some?
    ensures Spelling(text, digits, DECIMAL, DECIMAL)
    decreases |text|
  {
    digits := [];
    if text != "" {
      var n := |text| - 1;
      var before := DecimalIsSpelled(text[..n]);
      var last := text[n] as int - '0' as int;
      DecimalDigit(text[n], last);
      digits := before + [last];
      hide DecimalValue;
      assert forall i :: 0 <= i < n ==> digits[i] == before[i] && text[i] == text[..n][i];
    }
  }

  lemma DecimalIsWritten(text: string, n: u64)
    requires ParseU64(text) == Some(n)
    ensures DecimalText(text, n)
  {
    TenDigits();
    hide DecimalValue, Spelling, Number, DECIMAL;
    var sign := if text[0] == '+' then "+" else "";
    var figures := if text[0] == '+' then text[1..] else text;
    assert text == sign + figures;
    var digits := DecimalIsSpelled(figures);
    SpelledDecimal(figures, digits);
  }

  lemma FirstDecimal(figures: string, digits: seq<nat>)
    requires Spelling(figures, digits, DECIMAL, DECIMAL) && figures != ""
    ensures figures[0] != '+' && figures[0] != '-' && Solid(figures)
  {
    forall i | 0 <= i < |figures|
      ensures '0' <= figures[i] <= '9'
    {
      DecimalDigit(figures[i], digits[i]);
    }
  }

  /** A word: not empty and without white space. */
  ghost predicate Solid(word: string) {
    word != "" && forall i :: 0 <= i < |word| ==> !IsSpace(word[i])
  }

  lemma WrittenIsDecimal(sign: string, figures: string, digits: seq<nat>)
    requires (sign == "" || sign == "+") && figures != "" && Spelling(figures, digits, DECIMAL, DECIMAL)
    requires Number(digits, 10) <= U64_MAX
    ensures ParseU64(sign + figures) == Some(Number(digits, 10))
  {
    SpelledDecimal(figures, digits);
    FirstDecimal(figures, digits);
    hide DecimalValue, Spelling, Number, DECIMAL;
    assert (sign + figures)[|sign|..] == figures;
    if sign == "" {
      assert sign + figures == figures;
    }
  }

  /** A field is read as a number exactly when it writes it. */
  lemma ParseU64Means(text: string, n: u64)
    ensures ParseU64(text) == Some(n) <==> DecimalText(text, n)
  {
    TenDigits();
    if ParseU64(text) == Some(n) {
      DecimalIsWritten(text, n);
    }
    hide ParseU64, Spelling, Number, DECIMAL;
    if DecimalText(text, n) {
      var sign, figures, digits :|
        && (sign == "" || sign == "+") && figures != ""
        && text == sign + figures && Spelling(figures, digits, DECIMAL, DECIMAL)
        && Number(digits, 10) == n;
      WrittenIsDecimal(sign, figures, digits);
    }
  }

  // ---- fields

  /** Words with gaps before, between and after them. */
  function Interleave(gaps: seq<string>, words: seq<string>): (text: string)
    requires |gaps| == |words| + 1
  {
    if words == [] then gaps[0] else gaps[0] + words[0] + Interleave(gaps[1..], words[1..])
  }

  /** The text is these words, with white space around them and at least some between them. */
  ghost predicate Fields(text: string, gaps: seq<string>, words: seq<string>) {
    && |gaps| == |words| + 1
    && (forall i :: 0 <= i < |gaps| ==> Blank(gaps[i]) && (0 < i < |words| ==> gaps[i] != ""))
    && (forall i :: 0 <= i < |words| ==> Solid(words[i]))
    && text == Interleave(gaps, words)
  }

  lemma {:induction false} WordEnds(word: string, rest: string)
    requires forall i :: 0 <= i < |word| ==> !IsSpace(word[i])
    requires rest == "" || IsSpace(rest[0])
    ensures WordLength(word + rest) == |word|
    decreases |word|
  {
    hide IsSpace;
    if word == "" {
      assert word + rest == rest;
    } else {
      assert (word + rest)[1..] == word[1..] + rest;
      WordEnds(word[1..], rest);
    }
  }

  lemma {:induction false} BlankHasNoWords(blank: string, rest: string)
    requires Blank(blank)
    ensures Words(blank + rest) == Words(rest)
    decreases |blank|
  {
    if blank == "" {
      assert blank + rest == rest;
    } else {
      assert (blank + rest)[1..] == blank[1..] + rest;
      BlankHasNoWords(blank[1..], rest);
    }
  }

  lemma OneWord(word: string, rest: string)
    requires Solid(word) && (rest == "" || IsSpace(rest[0]))
    ensures Words(word + rest) == [word] + Words(rest)
  {
    WordEnds(word, rest);
    hide WordLength, IsSpace;
    assert (word + rest)[..|word|] == word && (word + rest)[|word|..] == rest;
  }

  /** The words of a text are found, whatever the white space. */
  lemma {:induction false} FieldsAreWords(text: string, gaps: seq<string>, words: seq<string>)
    requires Fields(text, gaps, words)
    ensures Words(text) == words
    decreases |words|
  {
    if words == [] {
      assert gaps[0] + "" == gaps[0];
      BlankHasNoWords(gaps[0], "");
    } else {
      hide Words, IsSpace;
      var rest := Interleave(gaps[1..], words[1..]);
      RestIsFields(text, gaps, words);
      FieldsAreWords(rest, gaps[1..], words[1..]);
      assert text == gaps[0] + (words[0] + rest);
      BlankHasNoWords(gaps[0], words[0] + rest);
      OneWord(words[0], rest);
    }
  }

  lemma RestIsFields(text: string, gaps: seq<string>, words: seq<string>)
    requires Fields(text, gaps, words) && words != []
    ensures var rest := Interleave(gaps[1..], words[1..]);
      Fields(rest, gaps[1..], words[1..]) && (rest == "" || IsSpace(rest[0]))
  {
    hide IsSpace;
    assert Blank(gaps[1]);
    if |words| > 1 {
      assert gaps[1] != "";
    }
  }

  lemma {:induction false} WordIsSolid(text: string)
    requires text != "" && !IsSpace(text[0])
    ensures var n := WordLength(text);
      Solid(text[..n]) && (n == |text| || IsSpace(text[n]))
    decreases |text|
  {
    if |text| > 1 && !IsSpace(text[1]) {
      WordIsSolid(text[1..]);
      var n := WordLength(text);
      assert text[..n] == [text[0]] + text[1..][..n - 1];
    } else {
      assert text[1..] == "" || IsSpace(text[1..][0]);
    }
  }

  /** Every text is its words with some white space around them. */
  lemma {:induction false} WordsAreFields(text: string) returns (gaps: seq<string>)
    ensures Fields(text, gaps, Words(text))
    decreases |text|
  {
    if text == "" {
      gaps := [""];
    } else if IsSpace(text[0]) {
      var rest := WordsAreFields(text[1..]);
      gaps := [[text[0]] + rest[0]] + rest[1..];
      MoreBlank(text, rest, Words(text[1..]), gaps);
    } else {
      var n := WordLength(text);
      WordIsSolid(text);
      var rest := WordsAreFields(text[n..]);
      gaps := [""] + rest;
      MoreWords(text, n, rest, Words(text[n..]));
    }
  }

  lemma MoreBlank(text: string, rest: seq<string>, words: seq<string>, gaps: seq<string>)
    requires text != "" && IsSpace(text[0]) && Fields(text[1..], rest, words)
    requires gaps == [[text[0]] + rest[0]] + rest[1..]
    ensures Fields(text, gaps, words)
  {
    hide IsSpace;
    assert gaps[1..] == rest[1..];
    assert text == [text[0]] + text[1..];
    if words != [] {
      assert text == gaps[0] + words[0] + Interleave(gaps[1..], words[1..]);
    }
    forall i | 0 <= i < |gaps|
      ensures Blank(gaps[i]) && (0 < i < |words| ==> gaps[i] != "")
    {
      if i > 0 { assert gaps[i] == rest[i]; }
    }
  }

  lemma FirstGap(text: string, gaps: seq<string>, words: seq<string>)
    requires Fields(text, gaps, words) && words != []
    ensures gaps[0] == "" ==> text != "" && !IsSpace(text[0])
  {
    hide IsSpace;
    assert gaps[0] == "" ==> text == words[0] + Interleave(gaps[1..], words[1..]);
  }

  lemma MoreWords(text: string, n: nat, rest: seq<string>, words: seq<string>)
    requires 0 < n <= |text| && Solid(text[..n]) && (n == |text| || IsSpace(text[n]))
    requires Fields(text[n..], rest, words)
    ensures Fields(text, [""] + rest, [text[..n]] + words)
  {
    hide IsSpace;
    var gaps, more := [""] + rest, [text[..n]] + words;
    assert gaps[1..] == rest && more[1..] == words;
    assert text == text[..n] + text[n..];
    assert gaps[0] + more[0] == more[0];
    if words != [] {
      FirstGap(text[n..], rest, words);
    }
    forall i | 0 <= i < |gaps|
      ensures Blank(gaps[i]) && (0 < i < |more| ==> gaps[i] != "")
    {
      if i > 0 { assert gaps[i] == rest[i - 1]; }
    }
  }

  lemma BlankIsNoWords(text: string)
    ensures Words(text) == [] <==> Blank(text)
  {
    var gaps := WordsAreFields(text);
    if Blank(text) {
      BlankHasNoWords(text, "");
      assert text + "" == text;
    }
  }

  // ---- whole lines

  /** No number of 64 bits is written like this. */
  ghost predicate NoDecimal(text: string) {
    forall n: u64 :: !DecimalText(text, n)
  }

  /** The line names this key before its first colon. */
  ghost predicate KeyOf(before: string, key: string) {
    Padded(before, key)
  }

  /** The keys that matter. */
  predicate Relevant(key: string) {
    || key == "MemTotal" || key == "MemAvailable" || key == "MemFree" || key == "Buffers" || key == "Cached"
    || key == "SReclaimable" || key == "Shmem" || key == "SwapTotal" || key == "SwapFree"
  }

  lemma RelevantKeys(key: string)
    ensures CanonicalKey(key) <==> Relevant(key)
    ensures Relevant(key) ==> Tight(key) && ':' !in key
  {
  }

  lemma LineParts(before: string, after: string)
    requires ':' !in before
    ensures ParseLine(before + [':'] + after) ==
      if CanonicalKey(Trim(before)) then Entry(Trim(before), ParseKibValue(after, Trim(before))) else Ignored
  {
    SplitOnceUnique(before, ':', after);
    hide SplitOnce, Trim, CanonicalKey, ParseKibValue;
  }

  /** A line without a colon, or with another key, contributes nothing. */
  lemma IgnoredLines(line: string)
    ensures ParseLine(line).Ignored? <==>
      !exists before, after, key :: line == before + [':'] + after && ':' !in before && Relevant(key)
          && KeyOf(before, key)
  {
    hide Trim, Padded, IsSpace, ParseKibValue, Relevant, CanonicalKey;
    if before, after, key :|
      line == before + [':'] + after && ':' !in before && Relevant(key) && KeyOf(before, key)
    {
      RelevantKeys(key);
      LineParts(before, after);
      TrimIsCore(before, key);
    }
    if ParseLine(line).Entry? {
      var parts := SplitOnce(line, ':').value;
      var key := Trim(parts.0);
      RelevantKeys(key);
      TrimIsTight(parts.0);
      assert line == parts.0 + [':'] + parts.1;
    }
  }

  /** The value of a relevant line, and each way it can be wrong, by the text after its first colon. */
  lemma LineMeans(before: string, after: string, key: string)
    requires ':' !in before && Relevant(key) && KeyOf(before, key)
    ensures var entry := ParseLine(before + [':'] + after);
      && entry.Entry? && entry.key == key
      && (forall n: u64 :: entry.value == Success(n) <==> ValueWritten(after, n))
      && (entry.value == Failure(NoValue(key)) <==> Blank(after))
      && (entry.value == Failure(NotUnsigned(key)) <==> BadNumber(after))
      && (entry.value == Failure(WrongUnit(key)) <==> BadUnit(after))
  {
    hide Trim, Padded, IsSpace, Words, Relevant, CanonicalKey, ParseU64, ParseLine, Fields;
    RelevantKeys(key);
    LineParts(before, after);
    TrimIsCore(before, key);
    ValueMeans(after, key);
  }

  /** White space, a number, white space, the unit, white space. */
  ghost predicate ValueWritten(after: string, n: nat) {
    exists gaps, number :: Fields(after, gaps, [number, "kB"]) && DecimalText(number, n)
  }

  /** There is a first field, and it is no number of 64 bits. */
  ghost predicate BadNumber(after: string) {
    exists gaps, words :: words != [] && Fields(after, gaps, words) && NoDecimal(words[0])
  }

  /** The first field is a number, but the fields after it are not the unit alone. */
  ghost predicate BadUnit(after: string) {
    exists gaps, words :: words != [] && Fields(after, gaps, words) && !NoDecimal(words[0]) && words[1..] != ["kB"]
  }

  lemma NumberOrNot(text: string)
    ensures ParseU64(text).None? <==> NoDecimal(text)
  {
    hide ParseU64, DecimalText;
    if ParseU64(text).Some? {
      ParseU64Means(text, ParseU64(text).value);
    }
    forall n: u64
      ensures ParseU64(text) == Some(n) <==> DecimalText(text, n)
    {
      ParseU64Means(text, n);
    }
  }

  lemma ValueMeans(after: string, key: string)
    ensures var r := ParseKibValue(after, key);
      && (forall n: u64 :: r == Success(n) <==> ValueWritten(after, n))
      && (r == Failure(NoValue(key)) <==> Blank(after))
      && (r == Failure(NotUnsigned(key)) <==> BadNumber(after))
      && (r == Failure(WrongUnit(key)) <==> BadUnit(after))
  {
    hide Words, ParseU64, Fields, NoDecimal, DecimalText, Blank;
    var fields := Words(after);
    var gaps := WordsAreFields(after);
    BlankIsNoWords(after);
    forall other: seq<string>, words: seq<string> | Fields(after, other, words)
      ensures words == fields
    {
      FieldsAreWords(after, other, words);
    }
    if fields != [] {
      NumberOrNot(fields[0]);
      forall n: u64
        ensures ParseU64(fields[0]) == Some(n) <==> DecimalText(fields[0], n)
      {
        ParseU64Means(fields[0], n);
      }
      UnitAlone(fields);
    }
  }

  lemma UnitAlone(fields: seq<string>)
    requires fields != []
    ensures (|fields| == 2 && fields[1] == "kB") <==> fields[1..] == ["kB"]
    ensures fields[1..] == ["kB"] ==> fields == [fields[0], "kB"]
  {
    if fields[1..] == ["kB"] {
      assert fields[1] == fields[1..][0];
    }
  }

  /** A line as the kernel prints it: the key, a colon, spaces, the digits and the unit. */
  lemma KernelLine(key: string, pad: string, figures: string, digits: seq<nat>)
    requires Relevant(key) && pad != "" && Blank(pad) && figures != "" && Spelling(figures, digits, DECIMAL, DECIMAL)
    requires Number(digits, 10) <= U64_MAX
    ensures ParseLine(key + [':'] + (pad + figures + " kB")) == Entry(key, Success(Number(digits, 10)))
  {
    var after := pad + figures + " kB";
    RelevantKeys(key);
    TenDigits();
    FirstDecimal(figures, digits);
    KernelFields(pad, figures);
    hide IsSpace, ParseLine, Spelling, Number, Relevant, DECIMAL, Fields, Blank;
    assert Padded(key, key) by {
      assert Blank("") && key == "" + key + "";
    }
    assert figures == "" + figures;
    assert ValueWritten(after, Number(digits, 10));
    LineMeans(key, after, key);
  }

  lemma KernelFields(pad: string, figures: string)
    requires Blank(pad) && Solid(figures)
    ensures Fields(pad + figures + " kB", [pad, " ", ""], [figures, "kB"])
  {
    var gaps, words := [pad, " ", ""], [figures, "kB"];
    assert gaps[1..] == [" ", ""] && words[1..] == ["kB"];
    assert gaps[1..][1..] == [""] && words[1..][1..] == [];
    assert Interleave(gaps[1..], words[1..]) == " kB";
  }

  // ---- which error comes out

  /** The error of the first bad line: a key named before, or what is wrong with its value. */
  ghost predicate FirstBad(lines: seq<string>, i: nat, error: MemoryError)
    requires i < |lines|
  {
    && Clean(multiset(lines[..i]))
    && ParseLine(lines[i]).Entry?
    && var entry := ParseLine(lines[i]);
       if Names(multiset(lines[..i]), entry.key) then error == Duplicate(entry.key)
       else entry.value == Failure(error)
  }

  lemma {:induction false} FirstBadLine(lines: seq<string>) returns (i: nat)
    requires RelevantValues(lines).Failure?
    ensures i < |lines| && FirstBad(lines, i, RelevantValues(lines).error)
    decreases |lines|
  {
    hide Clean, Describes, Names, ParseLine;
    var n := |lines| - 1;
    var before, last := lines[..n], lines[n];
    if RelevantValues(before).Failure? {
      i := FirstBadLine(before);
      assert before[..i] == lines[..i];
    } else {
      i := n;
      ParsingCharacterized(before);
      DescribesWith(RelevantValues(before).value, multiset(before), last);
    }
  }

  /** What stands in the way of the metrics, in the order the code asks. */
  ghost function Obstacle(values: Values): (error: Option<MemoryError>) {
    if "MemTotal" !in values then Some(Missing("MemTotal"))
    else if values["MemTotal"] == 0 then Some(ZeroTotal)
    else if !exists kib :: Available(values, kib) then Some(NoFallback(values))
    else if "SwapTotal" !in values then Some(Missing("SwapTotal"))
    else if "SwapFree" !in values then Some(Missing("SwapFree"))
    else if values["MemTotal"] * 1024 > U64_MAX then Some(BytesOverflow("MemTotal"))
    else if values["SwapTotal"] * 1024 > U64_MAX then Some(BytesOverflow("SwapTotal"))
    else None
  }

  /** The first fallback key that is missing, or else their sum is too large. */
  function NoFallback(values: Values): (error: MemoryError) {
    if "MemFree" !in values then Missing("MemFree")
    else if "Buffers" !in values then Missing("Buffers")
    else if "Cached" !in values then Missing("Cached")
    else if "SReclaimable" !in values then Missing("SReclaimable")
    else if "Shmem" !in values then Missing("Shmem")
    else FallbackOverflow
  }

  /** There are metrics exactly when nothing stands in their way, and otherwise that is the error. */
  lemma MetricsErrors(values: Values)
    ensures Metrics(values).Success? <==> Obstacle(values).None?
    ensures Metrics(values).Failure? ==> Obstacle(values) == Some(Metrics(values).error)
  {
    if "MemAvailable" in values {
      assert Available(values, values["MemAvailable"]);
    } else {
      FallbackErrors(values);
    }
    hide FallbackAvailable, Available, Measure, NoFallback;
    if "MemTotal" in values && values["MemTotal"] > 0 && "SwapTotal" in values && "SwapFree" in values {
      var total, swapTotal := values["MemTotal"], values["SwapTotal"];
      forall available: u64
        ensures var r := Measure(total, Min(available, total), swapTotal, Min(values["SwapFree"], swapTotal));
          && (r.Success? <==> total * 1024 <= U64_MAX && swapTotal * 1024 <= U64_MAX)
          && (r.Failure? ==> r.error == BytesOverflow(if total * 1024 > U64_MAX then "MemTotal" else "SwapTotal"))
      {
        MeasureErrors(total, Min(available, total), swapTotal, Min(values["SwapFree"], swapTotal));
      }
    }
  }

  lemma MeasureErrors(total: u64, available: u64, swapTotal: u64, swapFree: u64)
    requires available <= total && swapFree <= swapTotal
    ensures var r := Measure(total, available, swapTotal, swapFree);
      && (r.Success? <==> total * 1024 <= U64_MAX && swapTotal * 1024 <= U64_MAX)
      && (r.Failure? ==> r.error == BytesOverflow(if total * 1024 > U64_MAX then "MemTotal" else "SwapTotal"))
  {
  }

  lemma FallbackErrors(values: Values)
    requires "MemAvailable" !in values
    ensures FallbackAvailable(values).Success? <==> exists kib :: Available(values, kib)
    ensures FallbackAvailable(values).Failure? ==> FallbackAvailable(values).error == NoFallback(values)
  {
    forall kib: u64
      ensures Available(values, kib) <==> FallbackAvailable(values) == Success(kib)
    {
      FallbackMeans(values, kib);
    }
    if FallbackAvailable(values).Success? {
      assert Available(values, FallbackAvailable(values).value);
    }
    hide Available;
  }
}
