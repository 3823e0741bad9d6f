/** Decimal text: the printer behind generated device names, and the two parsers of the middleware. */
module Decimal {
  import opened Wrappers
  import opened Pdos

  const ULLONG_MAX: int := 0xFFFF_FFFF_FFFF_FFFF

  predicate IsDigit(c: char) { '0' <= c <= '9' }

  predicate AllDigits(s: string) { forall c :: c in s ==> IsDigit(c) }

  function DigitValue(c: char): (d: int)
    requires IsDigit(c)
    ensures 0 <= d <= 9
  {
    c as int - '0' as int
  }

  function DigitChar(d: int): (c: char)
    requires 0 <= d <= 9
    ensures IsDigit(c) && DigitValue(c) == d
  {
    (d + '0' as int) as char
  }

  /** The number a digit string denotes; the empty string denotes zero. */
  function NumberOf(s: string): (n: nat)
    requires AllDigits(s)
  {
    if s == "" then 0
    else
      assert forall c :: c in s[..|s| - 1] ==> c in s;
      NumberOf(s[..|s| - 1]) * 10 + DigitValue(s[|s| - 1])
  }

  /** `std::to_string` of a non-negative integer. */
  function ToDecimal(n: nat): (s: string)
    ensures AllDigits(s) && s != "" && NumberOf(s) == n
    ensures n > 0 ==> s[0] != '0'
  {
    if n < 10 then
      var s := [DigitChar(n)];
      assert s[..0] == "";
      s
    else
      var s := ToDecimal(n / 10) + [DigitChar(n % 10)];
      assert s[..|s| - 1] == ToDecimal(n / 10);
      s
  }

  /** Digits count in powers of ten, the last one lowest. */
  lemma NumberOfPush(s: string, c: char)
    requires AllDigits(s) && '0' <= c <= '9'
    ensures AllDigits(s + [c]) && NumberOf([]) == 0
    ensures NumberOf(s + [c]) == 10 * NumberOf(s) + (c as int - '0' as int)
  {
    assert (s + [c])[..|s|] == s;
  }

  datatype ParseError = NotUnsigned | OutOfRange

  /** Unsigned settings: digits only, no sign, no blanks; then the 64-bit and the 32-bit range. */
  function UnsignedValue(text: string): Result<UInt32, ParseError> {
    if text == "" || !AllDigits(text) then Err(NotUnsigned)
    else if NumberOf(text) > ULLONG_MAX then Err(OutOfRange)
    else if NumberOf(text) > UINT32_MAX then Err(OutOfRange)
    else Ok(NumberOf(text))
  }

  lemma UnsignedValueRoundTrip(n: nat)
    ensures UnsignedValue(ToDecimal(n)) == if n <= 0xFFFF_FFFF then Ok(n) else Err(OutOfRange)
  {
    var s := ToDecimal(n);
    assert NumberOf(s) == n;
  }

  /** What is accepted is exactly the digit strings of a 32-bit value, leading zeros included; and the
      printer's output is the shortest text accepted for its value. */
  lemma UnsignedValueAccepts(text: string)
    ensures UnsignedValue(text).Ok? <==> text != "" && AllDigits(text) && NumberOf(text) <= 0xFFFF_FFFF
    ensures UnsignedValue(text).Ok? ==> UnsignedValue(text).value == NumberOf(text)
    ensures UnsignedValue(text) == Err(NotUnsigned) <==> text == "" || exists c :: c in text && !('0' <= c <= '9')
    ensures UnsignedValue(text).Ok? ==> |ToDecimal(UnsignedValue(text).value)| <= |text|
  {
    if UnsignedValue(text).Ok? {
      PrinterIsShortest(text);
    }
  }

  lemma {:induction false} PrinterIsShortest(text: string)
    requires AllDigits(text) && text != ""
    ensures |ToDecimal(NumberOf(text))| <= |text|
  {
    var n := |text| - 1;
    var t := text[..n];
    assert forall c :: c in t ==> c in text;
    var v := NumberOf(text);
    assert v == NumberOf(t) * 10 + DigitValue(text[n]);
    if v >= 10 {
      PrinterIsShortest(t);
      assert v / 10 == NumberOf(t);
      assert |ToDecimal(v)| == |ToDecimal(v / 10)| + 1;
    }
  }

  // ---- device names -------------------------------------------------------------------------

  predicate IsSpace(c: char) { c == ' ' || c == '\t' || c == '\n' || c == '\r' || c as int == 11 || c as int == 12 }

  /** Leading digits of `s`. */
  function DigitPrefix(s: string): (d: string)
    ensures AllDigits(d) && d <= s
    ensures |d| < |s| ==> !IsDigit(s[|d|])
  {
    if s == "" || !IsDigit(s[0]) then ""
    else [s[0]] + DigitPrefix(s[1..])
  }

  function SkipSpaces(s: string): string {
    if s != "" && IsSpace(s[0]) then SkipSpaces(s[1..]) else s
  }

  /** The integer a run of digits stands for; none without a digit or out of range. */
  function IntOf(digits: string, negative: bool): Option<Int32>
    requires AllDigits(digits)
  {
    var n: int := NumberOf(digits);
    if digits == [] then None
    else if negative then (if n <= INT32_MAX + 1 then Some(-n) else None)
    else if n <= INT32_MAX then Some(n) else None
  }

  /** `std::stoi`: blanks, an optional sign, then at least one digit; anything may follow. */
  function StoI(s: string): Option<Int32> {
    var t := SkipSpaces(s);
    if t != [] && (t[0] == '-' || t[0] == '+') then IntOf(DigitPrefix(t[1..]), t[0] == '-')
    else IntOf(DigitPrefix(t), false)
  }

  /** Position of the last `c`, or none. */
  function RFind(s: string, c: char): (p: Option<nat>)
    ensures p.None? <==> c !in s
    ensures p.Some? ==> p.value < |s| && s[p.value] == c && c !in s[p.value + 1..]
  {
    if s == "" then None
    else if s[|s| - 1] == c then Some(|s| - 1)
    else
      var t := s[..|s| - 1];
      assert s == t + [s[|s| - 1]];
      var p := RFind(t, c);
      assert p.Some? ==> s[p.value + 1..] == t[p.value + 1..] + [s[|s| - 1]];
      p
  }

  /** The ID after the final underscore, or -1. */
  function GetEcatId(name: string): Int32 {
    var pos := RFind(name, '_');
    if pos.None? || pos.value + 1 >= |name| then -1
    else
      match StoI(name[pos.value + 1..])
      case Some(v) => v
      case None => -1
  }

  /** Configured name of a device, or a generated one. */
  function ResolveName(id: UInt32, names: map<UInt32, string>): string {
    if id in names then names[id] else "ecat_" + ToDecimal(id)
  }

  lemma {:induction false} DigitPrefixOfDigits(s: string)
    requires AllDigits(s)
    ensures DigitPrefix(s) == s
  {
    if s != "" {
      assert s[0] in s;
      assert forall c :: c in s[1..] ==> c in s;
      DigitPrefixOfDigits(s[1..]);
    }
  }

  lemma StoIOfDecimal(n: nat)
    ensures StoI(ToDecimal(n)) == if n <= 0x7FFF_FFFF then Some(n) else None
  {
    var s := ToDecimal(n);
    assert s[0] in s;
    assert SkipSpaces(s) == s;
    DigitPrefixOfDigits(s);
    assert DigitPrefix(s) == s;
  }

  /** A sign before the digits counts, and the range is that of a 32-bit integer. */
  lemma StoIOfSign(sign: char, s: string)
    requires sign == '+' || sign == '-'
    ensures StoI([sign] + s) == IntOf(DigitPrefix(s), sign == '-')
  {
    var t := [sign] + s;
    assert t[0] == sign && t[1..] == s;
    assert SkipSpaces(t) == t;
  }

  lemma IntOfDigits(digits: string, negative: bool)
    requires AllDigits(digits) && digits != []
    ensures var n: int := NumberOf(digits);
            var v := if negative then -n else n;
            IntOf(digits, negative) == if -0x8000_0000 <= v <= 0x7FFF_FFFF then Some(v) else None
  {
  }

  /** Blanks in front are skipped. */
  lemma StoIOfBlank(c: char, s: string)
    requires c in {' ', '\t', '\n', '\r', 11 as char, 12 as char}
    ensures StoI([c] + s) == StoI(s)
  {
    assert ([c] + s)[1..] == s;
  }

  lemma {:induction false} DigitPrefixStops(d: string, rest: string)
    requires AllDigits(d) && (rest == [] || !('0' <= rest[0] <= '9'))
    ensures DigitPrefix(d + rest) == d
  {
    if d == [] {
      assert d + rest == rest;
    } else {
      assert d[0] in d && forall c :: c in d[1..] ==> c in d;
      assert (d + rest)[1..] == d[1..] + rest;
      DigitPrefixStops(d[1..], rest);
    }
  }

  /** Whatever comes behind the digits is ignored. */
  lemma StoIOfPrefix(n: nat, rest: string)
    requires rest == [] || !('0' <= rest[0] <= '9')
    ensures StoI(ToDecimal(n) + rest) == StoI(ToDecimal(n))
  {
    var d := ToDecimal(n);
    assert d[0] in d && (d + rest)[0] == d[0];
    assert SkipSpaces(d + rest) == d + rest;
    DigitPrefixStops(d, rest);
    DigitPrefixOfDigits(d);
  }

  lemma {:induction false} RFindSplit(prefix: string, c: char, rest: string)
    requires c !in rest
    ensures RFind(prefix + [c] + rest, c) == Some(|prefix|)
  {
    var s := prefix + [c] + rest;
    if rest == "" {
      assert s[|s| - 1] == c;
    } else {
      var n := |rest| - 1;
      assert rest[n] in rest && s[|s| - 1] == rest[n];
      assert forall x :: x in rest[..n] ==> x in rest;
      assert s[..|s| - 1] == prefix + [c] + rest[..n];
      RFindSplit(prefix, c, rest[..n]);
    }
  }

  /** A name without an underscore, or with nothing behind its last one, has no ID. */
  lemma NoIdInName(name: string)
    requires '_' !in name || name[|name| - 1] == '_'
    ensures GetEcatId(name) == -1
  {
    if '_' in name {
      assert name[|name| - 1] == '_';
    }
  }

  /** `<prefix>_<id>` parses back to its ID, whatever the prefix, exactly for IDs that fit an int. */
  lemma EcatIdRoundTrip(prefix: string, id: nat)
    ensures GetEcatId(prefix + "_" + ToDecimal(id)) == id <==> id <= 0x7FFF_FFFF
    ensures id > 0x7FFF_FFFF ==> GetEcatId(prefix + "_" + ToDecimal(id)) == -1
  {
    var digits := ToDecimal(id);
    var name := prefix + "_" + digits;
    RFindSplit(prefix, '_', digits);
    assert name[|prefix| + 1..] == digits;
    StoIOfDecimal(id);
  }

  /** A configured name is used as it is; a generated one leads back to its ID, as far as that fits an int. */
  lemma GeneratedNameRoundTrip(id: UInt32, names: map<UInt32, string>)
    ensures id in names ==> ResolveName(id, names) == names[id]
    ensures id !in names ==> ResolveName(id, names) == "ecat_" + ToDecimal(id)
    ensures id !in names ==> (GetEcatId(ResolveName(id, names)) == id <==> id <= 0x7FFF_FFFF)
  {
    assert "ecat_" + ToDecimal(id) == "ecat" + "_" + ToDecimal(id);
    EcatIdRoundTrip("ecat", id);
  }

  /** Generated names of different devices differ. */
  lemma GeneratedNamesDiffer(a: UInt32, b: UInt32, names: map<UInt32, string>)
    requires a !in names && b !in names && a != b
    ensures ResolveName(a, names) != ResolveName(b, names)
  {
    assert ("ecat_" + ToDecimal(a))[5..] == ToDecimal(a);
    assert ("ecat_" + ToDecimal(b))[5..] == ToDecimal(b);
    assert NumberOf(ToDecimal(a)) != NumberOf(ToDecimal(b));
  }
}
