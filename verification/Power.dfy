/** The firmware throttling mask: parsing, printing and its flags. */
module Power {
  import opened Wrappers
  import opened Text
  import opened Numerals

  datatype ThrottledError = MissingAssignment | MissingKey | MissingPrefix | EmptyValue | NotAMask

  datatype ThrottledStatus = ThrottledStatus(
    raw: u32,
    undervoltageNow: bool,
    armFrequencyCappedNow: bool,
    throttledNow: bool,
    softTemperatureLimitNow: bool,
    undervoltageSinceBoot: bool,
    armFrequencyCappedSinceBoot: bool,
    throttledSinceBoot: bool,
    softTemperatureLimitSinceBoot: bool)

  // ---- digits

  function DigitValue(c: char): (v: Option<nat>)
    ensures v.Some? ==> v.value < 16
  {
    if '0' <= c <= '9' then Some(c as nat - '0' as nat)
    else if 'a' <= c <= 'f' then Some(c as nat - 'a' as nat + 10)
    else if 'A' <= c <= 'F' then Some(c as nat - 'A' as nat + 10)
    else None
  }

  const DIGITS: string := "0123456789abcdef"

  function Digit(n: nat): (c: char)
    requires n < 16
    ensures DigitValue(c) == Some(n)
  {
    DIGITS[n]
  }

  predicate LowerDigit(c: char) {
    '0' <= c <= '9' || 'a' <= c <= 'f'
  }

  /** The digits of `u32::from_str_radix` in base 16, most significant first, with overflow checked at every digit. */
  function HexValue(s: string): (v: Option<u32>)
    decreases |s|
  {
    if s == "" then Some(0)
    else
      match (HexValue(s[..|s| - 1]), DigitValue(s[|s| - 1]))
      case (Some(high), Some(low)) =>
        var value: nat := 16 * (high as int) + low;
        if value <= 0xFFFF_FFFF then Some(value) else None
      case _ => None
  }

  /** `u32::from_str_radix(s, 16)`: one leading plus sign is allowed, a lone sign is not a number. */
  function FromHex(s: string): (v: Option<u32>) {
    if s == "" || s == "+" || s == "-" then None
    else if s[0] == '+' then HexValue(s[1..])
    else HexValue(s)
  }

  function HexDigits(n: nat): (s: string)
    ensures s != ""
    ensures forall i :: 0 <= i < |s| ==> LowerDigit(s[i])
    ensures s[0] == '0' ==> n == 0 && s == "0"
  {
    if n < 16 then [Digit(n)] else HexDigits(n / 16) + [Digit(n % 16)]
  }

  // ---- parsing and printing

  function HasBit(value: u32, bit: nat): (isSet: bool) {
    value / Weight(bit) % 2 == 1
  }

  function Weight(bit: nat): (w: nat)
    ensures w > 0
  {
    if bit == 0 then 1 else 2 * Weight(bit - 1)
  }

  function Status(raw: u32): (status: ThrottledStatus) {
    ThrottledStatus(raw, HasBit(raw, 0), HasBit(raw, 1), HasBit(raw, 2), HasBit(raw, 3),
                    HasBit(raw, 16), HasBit(raw, 17), HasBit(raw, 18), HasBit(raw, 19))
  }

  /** The value of the assignment: a prefix and the mask. */
  function ParseMask(value: string): (r: Result<ThrottledStatus, ThrottledError>) {
    if !("0x" <= value || "0X" <= value) then Failure(MissingPrefix)
    else if |value| == 2 then Failure(EmptyValue)
    else
      match FromHex(value[2..])
      case None => Failure(NotAMask)
      case Some(raw) => Success(Status(raw))
  }

  function ParseThrottled(input: string): (r: Result<ThrottledStatus, ThrottledError>) {
    match SplitOnce(Trim(input), '=')
    case None => Failure(MissingAssignment)
    case Some((key, rawValue)) =>
      if Trim(key) != "throttled" then Failure(MissingKey)
      else ParseMask(Trim(rawValue))
  }

  function RawHex(status: ThrottledStatus): (s: string) {
    "0x" + HexDigits(status.raw)
  }

  lemma {:induction false} HexRoundTrip(n: u32)
    ensures HexValue(HexDigits(n)) == Some(n)
    decreases n
  {
    if n < 16 {
      var s := HexDigits(n);
      assert s[..0] == "";
    } else {
      HexRoundTrip(n / 16);
      var s := HexDigits(n);
      assert s[..|s| - 1] == HexDigits(n / 16);
      assert s[|s| - 1] == Digit(n % 16);
    }
  }

  predicate Solid(s: string) {
    s != "" && !IsSpace(s[0]) && !IsSpace(s[|s| - 1])
  }

  /** An assignment without white space around it is split as written. */
  lemma PlainAssignment(key: string, value: string)
    requires Solid(key) && Solid(value) && '=' !in key
    ensures SplitOnce(Trim(key + ['='] + value), '=') == Some((key, value))
    ensures Trim(key) == key && Trim(value) == value
  {
    var input := key + ['='] + value;
    assert input[0] == key[0] && input[|input| - 1] == value[|value| - 1];
    TrimmedStrings(input);
    TrimmedStrings(key);
    TrimmedStrings(value);
    SplitOnceUnique(key, '=', value);
  }

  lemma PrintedMask(raw: u32)
    ensures var value := RawHex(Status(raw));
      Solid(value) && "0x" <= value && |value| > 2 && FromHex(value[2..]) == Some(raw)
  {
    var digits := HexDigits(raw);
    var value := "0x" + digits;
    assert value[2..] == digits && value[|value| - 1] == digits[|digits| - 1];
    assert LowerDigit(digits[|digits| - 1]) && LowerDigit(digits[0]);
    HexRoundTrip(raw);
  }

  /** What `raw_hex` prints after "throttled=" is read back as the same status, for every mask. */
  lemma PrintThenParse(raw: u32)
    ensures ParseThrottled("throttled" + ['='] + RawHex(Status(raw))) == Success(Status(raw))
  {
    var value := RawHex(Status(raw));
    PrintedMask(raw);
    PlainAssignment("throttled", value);
    hide HexDigits, HexValue, FromHex, HasBit, Trim, SplitOnce, RawHex;
  }

  /** A normalized mask: lower-case digits without superfluous leading zeros. */
  ghost predicate Canonical(s: string) {
    && |s| >= 3 && s[..2] == "0x"
    && (forall i :: 2 <= i < |s| ==> LowerDigit(s[i]))
    && (s[2] == '0' ==> |s| == 3)
  }

  lemma RawHexIsCanonical(status: ThrottledStatus)
    ensures Canonical(RawHex(status))
  {
    var digits := HexDigits(status.raw);
    forall i | 2 <= i < |RawHex(status)|
      ensures LowerDigit(RawHex(status)[i])
    {
      assert LowerDigit(digits[i - 2]);
    }
  }

  ghost predicate Plain(s: string) {
    s != "" && (forall i :: 0 <= i < |s| ==> LowerDigit(s[i])) && (s[0] == '0' ==> |s| == 1)
  }

  lemma PlainParts(s: string)
    requires Plain(s) && |s| > 1
    ensures Plain(s[..|s| - 1]) && s[0] != '0' && s[..|s| - 1][0] != '0'
    ensures s == s[..|s| - 1] + [s[|s| - 1]] && LowerDigit(s[|s| - 1])
  {
  }

  /** Digits with a nonzero first one stand for a positive number, and are that number's digits. */
  lemma {:induction false} DigitsAreUnique(s: string)
    requires Plain(s) && HexValue(s).Some?
    ensures HexDigits(HexValue(s).value) == s
    ensures s[0] != '0' ==> HexValue(s).value > 0
    decreases |s|
  {
    var n := |s| - 1;
    var low := s[n];
    assert LowerDigit(low);
    LowerDigitsPrint(low);
    if n == 0 {
      assert s[..0] == "" && s == [low];
      assert HexValue(s[..0]) == Some(0);
    } else {
      PlainParts(s);
      hide Plain, LowerDigit, DigitValue, Digit;
      DigitsAreUnique(s[..n]);
      var high := HexValue(s[..n]).value;
      assert HexValue(s).value == 16 * high + DigitValue(low).value;
      assert (16 * high + DigitValue(low).value) / 16 == high;
    }
  }

  lemma LowerDigitsPrint(c: char)
    requires LowerDigit(c)
    ensures DigitValue(c).Some? && Digit(DigitValue(c).value) == c
  {
    var v := DigitValue(c).value;
    assert v in {0, 1, 2, 3, 4, 5, 6, 7, 8, 9, 10, 11, 12, 13, 14, 15};
  }

  /** Every accepted input means exactly one canonical mask, and printing its status gives that mask. */
  lemma ParseThenPrint(input: string, mask: string)
    requires ParseThrottled(input).Success? && Canonical(mask)
    ensures RawHex(ParseThrottled(input).value) == mask
       <==> HexValue(mask[2..]) == Some(ParseThrottled(input).value.raw)
  {
    hide ParseThrottled, FromHex;
    var status := ParseThrottled(input).value;
    var digits := mask[2..];
    assert mask == "0x" + digits;
    HexRoundTrip(status.raw);
    assert RawHex(status)[2..] == HexDigits(status.raw);
    if HexValue(digits) == Some(status.raw) {
      forall i | 0 <= i < |digits|
        ensures LowerDigit(digits[i])
      {
        assert digits[i] == mask[i + 2];
      }
      DigitsAreUnique(digits);
    }
  }

  // ---- flags

  function Flag(isSet: bool, weight: nat): (n: nat) {
    if isSet then weight else 0
  }

  function FromFlags(s: ThrottledStatus): (n: nat) {
    Flag(s.undervoltageNow, 1) + Flag(s.armFrequencyCappedNow, 2)
    + Flag(s.throttledNow, 4) + Flag(s.softTemperatureLimitNow, 8)
    + Flag(s.undervoltageSinceBoot, 0x1_0000) + Flag(s.armFrequencyCappedSinceBoot, 0x2_0000)
    + Flag(s.throttledSinceBoot, 0x4_0000) + Flag(s.softTemperatureLimitSinceBoot, 0x8_0000)
  }

  lemma Weights()
    ensures Weight(0) == 1 && Weight(1) == 2 && Weight(2) == 4 && Weight(3) == 8
    ensures Weight(16) == 0x1_0000 && Weight(17) == 0x2_0000 && Weight(18) == 0x4_0000 && Weight(19) == 0x8_0000
  {
    assert Weight(6) == 64;
    assert Weight(10) == 1024;
    assert Weight(13) == 8192;
  }

  lemma PeelBit16(n: nat)
    ensures n % 16 == n % 2 + 2 * (n / 2 % 8)
  {
    var half := n / 2;
    var q, r := half / 8, half % 8;
    assert half == 8 * q + r;
    assert n == 16 * q + (2 * r + n % 2);
  }

  lemma PeelBit8(n: nat)
    ensures n % 8 == n % 2 + 2 * (n / 2 % 4)
  {
    var half := n / 2;
    var q, r := half / 4, half % 4;
    assert half == 4 * q + r;
    assert n == 8 * q + (2 * r + n % 2);
  }

  lemma PeelBit4(n: nat)
    ensures n % 4 == n % 2 + 2 * (n / 2 % 2)
  {
  }

  lemma FourBits(n: nat)
    ensures n % 16
         == Flag(n / 1 % 2 == 1, 1) + Flag(n / 2 % 2 == 1, 2) + Flag(n / 4 % 2 == 1, 4) + Flag(n / 8 % 2 == 1, 8)
  {
    PeelBit16(n);
    PeelBit8(n / 2);
    PeelBit4(n / 2 / 2);
    assert n / 2 / 2 == n / 4 && n / 2 / 2 / 2 == n / 8;
  }

  /** The eight flags rebuild the mask restricted to bits 0-3 and 16-19. */
  lemma FlagsRebuildTheMask(raw: u32)
    ensures FromFlags(Status(raw)) == raw % 16 + raw / 0x1_0000 % 16 * 0x1_0000
  {
    Weights();
    FourBits(raw);
    FourBits(raw / 0x1_0000);
    assert raw / 0x1_0000 / 2 == raw / 0x2_0000;
    assert raw / 0x1_0000 / 4 == raw / 0x4_0000;
    assert raw / 0x1_0000 / 8 == raw / 0x8_0000;
  }

  // ---- what exactly is accepted

  const LOWER_CASE: string := "0123456789abcdef"
  const UPPER_CASE: string := "0123456789ABCDEF"

  lemma SixteenDigits()
    ensures |LOWER_CASE| == 16 && |UPPER_CASE| == 16
  {
  }

  /** A mask as it may be written: an optional plus, then digits with letters in either case. */
  ghost predicate MaskText(text: string, mask: nat) {
    Numeral(text, mask, LOWER_CASE, UPPER_CASE)
  }

  lemma DigitIsFromTable(c: char, v: nat)
    ensures DigitValue(c) == Some(v)
       <==> v < 16 && (c == LOWER_CASE[v] || c == UPPER_CASE[v])
  {
    if v < 16 {
      assert v in {0, 1, 2, 3, 4, 5, 6, 7, 8, 9, 10, 11, 12, 13, 14, 15};
    }
  }

  /** The digits of a text give its number, as long as it fits 32 bits. */
  lemma {:induction false} SpelledValue(text: string, digits: seq<nat>)
    requires Spelling(text, digits, LOWER_CASE, UPPER_CASE)
    ensures HexValue(text) == if Number(digits, 16) <= 0xFFFF_FFFF then Some(Number(digits, 16)) else None
    decreases |text|
  {
    if text != "" {
      var n := |text| - 1;
      SpelledValue(text[..n], digits[..n]);
      LastDigit(digits, 16);
      DigitIsFromTable(text[n], digits[n]);
      hide Number, Spelling, DigitValue;
    }
  }

  /** Whatever has a value is written in digits. */
  lemma {:induction false} ValueIsSpelled(text: string) returns (digits: seq<nat>)
    requires HexValue(text).Some?
    ensures Spelling(text, digits, LOWER_CASE, UPPER_CASE)
    decreases |text|
  {
    digits := [];
    if text != "" {
      var n := |text| - 1;
      var before := ValueIsSpelled(text[..n]);
      var last := DigitValue(text[n]).value;
      DigitIsFromTable(text[n], last);
      digits := before + [last];
      hide DigitValue, HexValue;
      assert forall i :: 0 <= i < n ==> digits[i] == before[i] && text[i] == text[..n][i];
    }
  }

  lemma ReadIsWritten(text: string, mask: u32)
    requires FromHex(text) == Some(mask)
    ensures MaskText(text, mask)
  {
    SixteenDigits();
    hide HexValue, Spelling, Number, LOWER_CASE, UPPER_CASE;
    var sign := if text[0] == '+' then "+" else "";
    var figures := if text[0] == '+' then text[1..] else text;
    assert text == sign + figures;
    var digits := ValueIsSpelled(figures);
    SpelledValue(figures, digits);
  }

  lemma WrittenIsRead(sign: string, figures: string, digits: seq<nat>)
    requires (sign == "" || sign == "+") && figures != "" && Spelling(figures, digits, LOWER_CASE, UPPER_CASE)
    requires Number(digits, 16) <= 0xFFFF_FFFF
    ensures FromHex(sign + figures) == Some(Number(digits, 16))
  {
    SpelledValue(figures, digits);
    FirstFigure(figures, digits);
    hide HexValue, Spelling, Number, LOWER_CASE, UPPER_CASE;
    assert (sign + figures)[|sign|..] == figures;
    if sign == "" {
      assert sign + figures == figures;
    }
  }

  /** A text is read as a mask exactly when it writes it. */
  lemma FromHexMeans(text: string, mask: u32)
    ensures FromHex(text) == Some(mask) <==> MaskText(text, mask)
  {
    SixteenDigits();
    if FromHex(text) == Some(mask) {
      ReadIsWritten(text, mask);
    }
    hide FromHex, Spelling, Number, LOWER_CASE, UPPER_CASE;
    if MaskText(text, mask) {
      var sign, figures, digits :|
        && (sign == "" || sign == "+") && figures != ""
        && text == sign + figures && Spelling(figures, digits, LOWER_CASE, UPPER_CASE)
        && Number(digits, 16) == mask;
      WrittenIsRead(sign, figures, digits);
    }
  }

  lemma FirstFigure(figures: string, digits: seq<nat>)
    requires Spelling(figures, digits, LOWER_CASE, UPPER_CASE) && figures != ""
    ensures figures[0] != '+' && figures[0] != '-' && !IsSpace(figures[0]) && !IsSpace(figures[|figures| - 1])
  {
    DigitIsFromTable(figures[0], digits[0]);
    DigitIsFromTable(figures[|figures| - 1], digits[|figures| - 1]);
  }

  // ---- the assignment as text

  predicate Prefix(prefix: string) {
    prefix == "0x" || prefix == "0X"
  }

  lemma EqualsIsNoSpace()
    ensures !IsSpace('=')
  {
  }

  /** An input with an equals sign: the key before the first one, the value after it, both trimmed. */
  lemma ParsedParts(before: string, after: string)
    requires '=' !in before
    ensures ParseThrottled(before + ['='] + after)
         == if Trim(before) != "throttled" then Failure(MissingKey) else ParseMask(Trim(after))
  {
    EqualsIsNoSpace();
    SplitOfTrimmed(before, '=', after);
    hide Trim, TrimStart, TrimEnd, SplitOnce, IsSpace, ParseMask;
  }

  /** What makes a value tight: a prefix is never white space, so only its end can be. */
  lemma PrefixIsSolid(prefix: string, rest: string)
    requires Prefix(prefix)
    ensures Tight(prefix + rest) <==> rest == "" || !IsSpace(rest[|rest| - 1])
    ensures (prefix + rest)[..2] == prefix && (prefix + rest)[2..] == rest
  {
    var value := prefix + rest;
    assert rest != "" ==> value[|value| - 1] == rest[|rest| - 1];
  }

  lemma ParsedMask(prefix: string, rest: string)
    requires Prefix(prefix)
    ensures ParseMask(prefix + rest) ==
      if rest == "" then Failure(EmptyValue)
      else if FromHex(rest).None? then Failure(NotAMask)
      else Success(Status(FromHex(rest).value))
  {
    PrefixIsSolid(prefix, rest);
    hide FromHex, Status;
  }

  lemma MaskTextIsSolid(text: string, mask: nat)
    requires MaskText(text, mask)
    ensures text != "" && !IsSpace(text[|text| - 1])
  {
    var sign, figures, digits :|
      && (sign == "" || sign == "+") && figures != ""
      && text == sign + figures && Spelling(figures, digits, LOWER_CASE, UPPER_CASE)
      && Number(digits, |LOWER_CASE|) == mask;
    FirstFigure(figures, digits);
    hide Spelling, Number, IsSpace, LOWER_CASE, UPPER_CASE;
    assert text[|text| - 1] == figures[|figures| - 1];
  }

  ghost predicate KeyIsThrottled(before: string) {
    Padded(before, "throttled")
  }

  lemma KeyTrims(before: string)
    ensures Trim(before) == "throttled" <==> KeyIsThrottled(before)
    ensures KeyIsThrottled(before) ==> '=' !in before
  {
    ThrottledWord();
    hide Tight, Trim;
    TrimIsCore(before, "throttled");
    if KeyIsThrottled(before) {
      PaddedHasNoMark(before, "throttled");
    }
  }

  lemma ThrottledWord()
    ensures Tight("throttled") && '=' !in "throttled"
  {
  }

  lemma PaddedHasNoMark(s: string, core: string)
    requires Padded(s, core) && '=' !in core
    ensures '=' !in s
  {
    EqualsIsNoSpace();
    hide IsSpace;
    var before, after :| Blank(before) && Blank(after) && s == before + core + after;
    assert '=' !in before && '=' !in after;
  }

  /** The written value: any white space around a prefix and the rest. */
  ghost predicate Written(after: string, prefix: string, rest: string) {
    Prefix(prefix) && Tight(prefix + rest) && Padded(after, prefix + rest)
  }

  lemma WrittenIsParsed(after: string, prefix: string, rest: string)
    requires Written(after, prefix, rest)
    ensures ParseMask(Trim(after)) == ParseMask(prefix + rest)
  {
    TrimIsCore(after, prefix + rest);
  }

  lemma PrefixTaken(value: string) returns (prefix: string, rest: string)
    requires ParseMask(value) != Failure(MissingPrefix)
    ensures Prefix(prefix) && value == prefix + rest
  {
    hide FromHex, Status;
    prefix, rest := value[..2], value[2..];
  }

  /** A value without a written prefix, and only that, has none. */
  lemma PrefixMissing(after: string)
    ensures ParseMask(Trim(after)) == Failure(MissingPrefix)
       <==> !exists prefix, rest :: Written(after, prefix, rest)
  {
    hide ParseMask, Trim, Padded, Prefix, Tight, FromHex, Status;
    TrimIsTight(after);
    if prefix, rest :| Written(after, prefix, rest) {
      WrittenIsParsed(after, prefix, rest);
      ParsedMask(prefix, rest);
    }
    if ParseMask(Trim(after)) != Failure(MissingPrefix) {
      var prefix, rest := PrefixTaken(Trim(after));
      assert Written(after, prefix, rest);
    }
  }

  /**
   Every spelling of every mask is accepted, with any white space around the input, the
   key and the value, and nothing else is.
   */
  lemma AcceptedInputs(input: string, mask: u32)
    ensures ParseThrottled(input) == Success(Status(mask)) <==>
      exists before, after, prefix, text ::
        && input == before + ['='] + after && KeyIsThrottled(before)
        && Prefix(prefix) && Padded(after, prefix + text) && MaskText(text, mask)
  {
    if ParseThrottled(input) == Success(Status(mask)) {
      AcceptedIsWritten(input, mask);
    }
    if before, after, prefix, text :|
      && input == before + ['='] + after && KeyIsThrottled(before)
      && Prefix(prefix) && Padded(after, prefix + text) && MaskText(text, mask)
    {
      WrittenIsAccepted(before, after, prefix, text, mask);
    }
  }

  lemma WrittenIsAccepted(before: string, after: string, prefix: string, text: string, mask: u32)
    requires KeyIsThrottled(before) && Prefix(prefix) && Padded(after, prefix + text) && MaskText(text, mask)
    ensures ParseThrottled(before + ['='] + after) == Success(Status(mask))
  {
    hide ParseMask, FromHex, Status, IsSpace, Trim, Padded, MaskText, Prefix, KeyIsThrottled, Tight;
    KeyTrims(before);
    ParsedParts(before, after);
    MaskTextIsSolid(text, mask);
    PrefixIsSolid(prefix, text);
    WrittenIsParsed(after, prefix, text);
    ParsedMask(prefix, text);
    FromHexMeans(text, mask);
  }

  lemma SameMask(a: u32, b: u32)
    requires Status(a) == Status(b)
    ensures a == b
  {
  }

  lemma AcceptedIsWritten(input: string, mask: u32)
    requires ParseThrottled(input) == Success(Status(mask))
    ensures exists before, after, prefix, text ::
      && input == before + ['='] + after && KeyIsThrottled(before)
      && Prefix(prefix) && Padded(after, prefix + text) && MaskText(text, mask)
  {
    hide FromHex, Status, IsSpace, Trim, Padded, MaskText, KeyIsThrottled, Tight, ParseMask;
    EqualsIsNoSpace();
    NoMark(input, '=');
    var parts := SplitOnce(input, '=').value;
    var before, after := parts.0, parts.1;
    ParsedParts(before, after);
    KeyTrims(before);
    PrefixMissing(after);
    var prefix, text :| Written(after, prefix, text);
    WrittenIsParsed(after, prefix, text);
    ParsedMask(prefix, text);
    SameMask(FromHex(text).value, mask);
    FromHexMeans(text, mask);
  }

  /** Every success is the status of some mask. */
  lemma SuccessIsAStatus(input: string)
    ensures ParseThrottled(input).Success? ==> ParseThrottled(input) == Success(Status(ParseThrottled(input).value.raw))
  {
    hide FromHex, SplitOnce, Trim, HasBit;
  }

  /** Exactly an input without an equals sign lacks the assignment. */
  lemma AssignmentMissing(input: string)
    ensures ParseThrottled(input) == Failure(MissingAssignment) <==> '=' !in input
  {
    EqualsIsNoSpace();
    NoMark(input, '=');
    hide SplitOnce, Trim, FromHex, Status;
  }

  /** Which of the other errors comes out, by the text around the first equals sign. */
  lemma RejectedInputs(before: string, after: string)
    requires '=' !in before
    ensures var r := ParseThrottled(before + ['='] + after);
      && (r == Failure(MissingKey) <==> !KeyIsThrottled(before))
      && (r == Failure(MissingPrefix)
          <==> KeyIsThrottled(before) && !exists prefix, rest :: Written(after, prefix, rest))
      && (r == Failure(EmptyValue) <==> KeyIsThrottled(before) && exists prefix :: Written(after, prefix, ""))
      && (r == Failure(NotAMask) <==>
            && KeyIsThrottled(before)
            && exists prefix, rest :: Written(after, prefix, rest) && rest != "" && NoMask(rest))
  {
    hide FromHex, Status, IsSpace, Trim, KeyIsThrottled, Written, ParseMask, NoMask;
    ParsedParts(before, after);
    KeyTrims(before);
    PrefixMissing(after);
    forall prefix, rest | Written(after, prefix, rest)
      ensures ParseMask(Trim(after)) == Failure(EmptyValue) <==> rest == ""
      ensures ParseMask(Trim(after)) == Failure(NotAMask) <==> rest != "" && NoMask(rest)
    {
      WrittenErrors(after, prefix, rest);
    }
    OnlyTheseErrors(Trim(after));
  }

  lemma OnlyTheseErrors(value: string)
    ensures ParseMask(value).Failure? ==> ParseMask(value).error in {MissingPrefix, EmptyValue, NotAMask}
  {
  }

  lemma WrittenErrors(after: string, prefix: string, rest: string)
    requires Written(after, prefix, rest)
    ensures ParseMask(Trim(after)) == Failure(EmptyValue) <==> rest == ""
    ensures ParseMask(Trim(after)) == Failure(NotAMask) <==> rest != "" && NoMask(rest)
  {
    hide FromHex, Status, IsSpace, Trim, ParseMask, MaskText, Padded, Tight;
    WrittenIsParsed(after, prefix, rest);
    ParsedMask(prefix, rest);
    if FromHex(rest).Some? {
      FromHexMeans(rest, FromHex(rest).value);
    }
    forall mask: u32
      ensures FromHex(rest) == Some(mask) <==> MaskText(rest, mask)
    {
      FromHexMeans(rest, mask);
    }
  }

  /** No 32-bit mask is written like this. */
  ghost predicate NoMask(text: string) {
    forall mask: u32 :: !MaskText(text, mask)
  }
}
