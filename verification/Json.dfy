/** JSON values as Python's `json` module reads and prints them, over text of Unicode code points
    (a Python string may hold a lone surrogate). */
module Json {
  import opened Prelude

  type Code = c: int | 0 <= c < 0x11_0000

  type Text = seq<Code>

  /** The code points of an ASCII or any other literal. */
  function T(s: string): (t: Text)
    ensures |t| == |s|
  {
    seq(|s|, i requires 0 <= i < |s| => s[i] as int as Code)
  }

  predicate IsSurrogate(c: Code) {
    0xD800 <= c <= 0xDFFF
  }

  /** `str.encode("utf-8")` succeeds. */
  predicate Encodable(t: Text) {
    forall i :: 0 <= i < |t| ==> !IsSurrogate(t[i])
  }

  /** SHA-256 of the UTF-8 encoding of a text, as an injective function. */
  datatype TextDigest = Sha256Of(material: Text)

  /** An object keeps its members in the order read; a later duplicate wins. */
  datatype Json =
    | JNull | JBool(b: bool) | JInt(n: int) | JFloat(value: real) | JNotFinite | JString(text: Text)
    | JArray(items: seq<Json>) | JObject(members: seq<Member>)
  datatype Member = Member(key: Text, value: Json)

  /** `dict.get`. */
  function Get(members: seq<Member>, key: Text): Option<Json> {
    if members == [] then None
    else if members[|members| - 1].key == key then Some(members[|members| - 1].value)
    else Get(members[..|members| - 1], key)
  }

  function Keys(members: seq<Member>): set<Text> {
    set i | 0 <= i < |members| :: members[i].key
  }

  // ---- Reading: `json.loads`

  /** `Overlong` is the `ValueError` Python raises for an integer of more than 4300 digits. */
  datatype Parsed<+A> = Yes(value: A, rest: Text) | Bad | Overlong

  const MAX_DIGITS := 4300

  predicate IsWhite(c: Code) {
    c == 32 || c == 9 || c == 10 || c == 13
  }

  function SkipWhite(s: Text): (r: Text)
    ensures |r| <= |s|
  {
    if s != [] && IsWhite(s[0]) then SkipWhite(s[1..]) else s
  }

  predicate IsDigit(c: Code) {
    48 <= c <= 57
  }

  function HexValue(c: Code): (r: Option<nat>)
    ensures r.Some? ==> r.value < 16
  {
    if IsDigit(c) then Some((c - 48) as nat)
    else if 97 <= c <= 102 then Some((c - 87) as nat)
    else if 65 <= c <= 70 then Some((c - 55) as nat)
    else None
  }

  /** Four hexadecimal digits at the start of `s`. */
  function Hex4(s: Text): (r: Option<Code>)
    ensures r.Some? ==> r.value < 0x1_0000
  {
    if |s| < 4 || HexValue(s[0]).None? || HexValue(s[1]).None? || HexValue(s[2]).None? || HexValue(s[3]).None? then None
    else Some((4096 * HexValue(s[0]).value + 256 * HexValue(s[1]).value + 16 * HexValue(s[2]).value
               + HexValue(s[3]).value) as Code)
  }

  /** The character a one-letter escape stands for. */
  function Escape(c: Code): Option<Code> {
    if c == 34 || c == 92 || c == 47 then Some(c)
    else if c == 98 then Some(8)
    else if c == 102 then Some(12)
    else if c == 110 then Some(10)
    else if c == 114 then Some(13)
    else if c == 116 then Some(9)
    else None
  }

  predicate IsHigh(c: Code) {
    0xD800 <= c <= 0xDBFF
  }

  predicate IsLow(c: Code) {
    0xDC00 <= c <= 0xDFFF
  }

  function Prepend(c: Code, r: Parsed<Text>): Parsed<Text> {
    if r.Yes? then Yes([c] + r.value, r.rest) else r
  }

  /** The rest of a string literal, after its opening quote. An escaped surrogate pair is one character. */
  function ParseChars(s: Text): (r: Parsed<Text>)
    ensures r.Yes? ==> |r.rest| < |s|
    decreases |s|
  {
    if s == [] || s[0] < 32 then Bad
    else if s[0] == 34 then Yes([], s[1..])
    else if s[0] != 92 then Prepend(s[0], ParseChars(s[1..]))
    else if |s| < 2 then Bad
    else if s[1] != 117 then
      if Escape(s[1]).None? then Bad else Prepend(Escape(s[1]).value, ParseChars(s[2..]))
    else
      match Hex4(s[2..])
      case None => Bad
      case Some(u) =>
        if IsHigh(u) && |s| >= 12 && s[6] == 92 && s[7] == 117 && Hex4(s[8..]).Some? && IsLow(Hex4(s[8..]).value)
        then Prepend(0x1_0000 + (u - 0xD800) * 1024 + (Hex4(s[8..]).value - 0xDC00), ParseChars(s[12..]))
        else Prepend(u, ParseChars(s[6..]))
  }

  /** How many digits `s` starts with. */
  function Digits(s: Text): (n: nat)
    ensures n <= |s| && forall i :: 0 <= i < n ==> IsDigit(s[i])
    ensures n < |s| ==> !IsDigit(s[n])
  {
    if s == [] || !IsDigit(s[0]) then 0 else 1 + Digits(s[1..])
  }

  predicate AllDigits(s: Text) {
    forall i :: 0 <= i < |s| ==> IsDigit(s[i])
  }

  function DigitValue(c: Code): nat
    requires IsDigit(c)
  {
    c as int - 48
  }

  function Decimal(s: Text): nat
    requires AllDigits(s)
  {
    if s == [] then 0 else 10 * Decimal(s[..|s| - 1]) + DigitValue(s[|s| - 1])
  }

  function Pow10(n: nat): (p: nat)
    ensures p >= 1
  {
    if n == 0 then 1 else 10 * Pow10(n - 1)
  }

  function Scaled(mantissa: int, exponent: int): real {
    if exponent >= 0 then (mantissa * Pow10(exponent)) as real else mantissa as real / Pow10(-exponent) as real
  }

  /** Length of the fraction at the start of `s`, with its point. */
  function Fraction(s: Text): (n: nat)
    ensures n <= |s| && (n > 0 ==> AllDigits(s[1..n]))
  {
    if |s| >= 2 && s[0] == 46 && IsDigit(s[1]) then 1 + Digits(s[1..]) else 0
  }

  /** Length of the letter and sign an exponent starts with. */
  function ExponentMark(s: Text): (k: nat)
    ensures k <= |s|
  {
    if s == [] || (s[0] != 101 && s[0] != 69) then 0
    else if |s| >= 2 && (s[1] == 43 || s[1] == 45) then 2
    else 1
  }

  /** Length of the exponent at the start of `s`. */
  function Exponent(s: Text): (n: nat)
    ensures n <= |s| && (n > 0 ==> 0 < ExponentMark(s) < n && AllDigits(s[ExponentMark(s)..n]))
  {
    var k := ExponentMark(s);
    if k == 0 || Digits(s[k..]) == 0 then 0 else k + Digits(s[k..])
  }

  function Negated(negative: bool, n: nat): int {
    if negative then 0 - n else n
  }

  function FloatValue(negative: bool, digits: Text, fraction: Text, exponent: int): real
    requires AllDigits(digits) && AllDigits(fraction)
  {
    Scaled(Negated(negative, Decimal(digits) * Pow10(|fraction|) + Decimal(fraction)), exponent - |fraction|)
  }

  function ExponentValue(s: Text): int {
    var k, n := ExponentMark(s), Exponent(s);
    if n == 0 then 0 else Negated(k == 2 && s[1] == 45, Decimal(s[k..n]))
  }

  /** Length of the integer at the start of `t`; no further digit follows a leading zero. */
  function Whole(t: Text): (n: nat)
    ensures n <= |t| && AllDigits(t[..n])
  {
    if t != [] && t[0] == 48 then 1 else Digits(t)
  }

  function FractionDigits(u: Text): (t: Text)
    ensures AllDigits(t)
  {
    if Fraction(u) > 0 then u[1..Fraction(u)] else []
  }

  function ParseNumber(s: Text): (r: Parsed<Json>)
    ensures r.Yes? ==> |r.rest| < |s|
  {
    var negative := s != [] && s[0] == 45;
    var t := if negative then s[1..] else s;
    var n := Whole(t);
    if n == 0 then Bad else
    var u := t[n..];
    var f := Fraction(u);
    var e := Exponent(u[f..]);
    if f > 0 || e > 0 then
      Yes(JFloat(FloatValue(negative, t[..n], FractionDigits(u), ExponentValue(u[f..]))), u[f + e..])
    else if n > MAX_DIGITS then Overlong
    else Yes(JInt(Negated(negative, Decimal(t[..n]))), u)
  }

  function Literal(s: Text, word: Text, v: Json): (r: Parsed<Json>)
    requires word != []
    ensures r.Yes? ==> |r.rest| < |s|
  {
    if word <= s then Yes(v, s[|word|..]) else Bad
  }

  /** A literal or a number. */
  function ParseScalar(s: Text): (r: Parsed<Json>)
    requires s != []
    ensures r.Yes? ==> |r.rest| < |s|
  {
    if IsDigit(s[0]) then ParseNumber(s)
    else if s[0] == 110 then Literal(s, T("null"), JNull)
    else if s[0] == 116 then Literal(s, T("true"), JBool(true))
    else if s[0] == 102 then Literal(s, T("false"), JBool(false))
    else if s[0] == 78 then Literal(s, T("NaN"), JNotFinite)
    else if s[0] == 73 then Literal(s, T("Infinity"), JNotFinite)
    else if s[0] == 45 && T("-Infinity") <= s then Literal(s, T("-Infinity"), JNotFinite)
    else ParseNumber(s)
  }

  function ParseValue(s: Text): (r: Parsed<Json>)
    ensures r.Yes? ==> |r.rest| < |s|
    decreases |s|, 0
  {
    if s == [] then Bad
    else if s[0] == 34 then
      var r := ParseChars(s[1..]);
      if r.Yes? then Yes(JString(r.value), r.rest) else Bad
    else if s[0] == 123 then
      var t := SkipWhite(s[1..]);
      if t != [] && t[0] == 125 then Yes(JObject([]), t[1..]) else
      (match ParseMembers(t)
       case Yes(members, rest) => Yes(JObject(members), rest)
       case Bad => Bad
       case Overlong => Overlong)
    else if s[0] == 91 then
      var t := SkipWhite(s[1..]);
      if t != [] && t[0] == 93 then Yes(JArray([]), t[1..]) else
      (match ParseItems(t)
       case Yes(items, rest) => Yes(JArray(items), rest)
       case Bad => Bad
       case Overlong => Overlong)
    else ParseScalar(s)
  }

  /** Items up to the closing bracket. */
  function ParseItems(s: Text): (r: Parsed<seq<Json>>)
    ensures r.Yes? ==> |r.rest| < |s|
    decreases |s|, 1
  {
    match ParseValue(s)
    case Bad => Bad
    case Overlong => Overlong
    case Yes(v, rest) =>
      var t := SkipWhite(rest);
      if t == [] then Bad
      else if t[0] == 93 then Yes([v], t[1..])
      else if t[0] != 44 then Bad
      else
        match ParseItems(SkipWhite(t[1..]))
        case Yes(items, rest) => Yes([v] + items, rest)
        case Bad => Bad
        case Overlong => Overlong
  }

  /** Members up to the closing brace. */
  function ParseMembers(s: Text): (r: Parsed<seq<Member>>)
    ensures r.Yes? ==> |r.rest| < |s|
    decreases |s|, 1
  {
    if s == [] || s[0] != 34 then Bad else
    var key := ParseChars(s[1..]);
    if !key.Yes? then Bad else
    var t := SkipWhite(key.rest);
    if t == [] || t[0] != 58 then Bad else
    match ParseValue(SkipWhite(t[1..]))
    case Bad => Bad
    case Overlong => Overlong
    case Yes(v, rest) =>
      var t := SkipWhite(rest);
      if t == [] then Bad
      else if t[0] == 125 then Yes([Member(key.value, v)], t[1..])
      else if t[0] != 44 then Bad
      else
        match ParseMembers(SkipWhite(t[1..]))
        case Yes(members, rest) => Yes([Member(key.value, v)] + members, rest)
        case Bad => Bad
        case Overlong => Overlong
  }

  /** `json.loads`: one value, and nothing but white space around it. */
  function Loads(s: Text): Parsed<Json> {
    match ParseValue(SkipWhite(s))
    case Yes(v, rest) => if SkipWhite(rest) == [] then Yes(v, []) else Bad
    case Bad => Bad
    case Overlong => Overlong
  }

  // ---- Writing: `json.dumps(ensure_ascii=False, separators=(",", ":"))`

  function HexDigit(n: nat): Code
    requires n < 16
  {
    if n < 10 then (48 + n) as Code else (87 + n) as Code
  }

  predicate IsPlain(c: Code) {
    c >= 32 && c != 34 && c != 92
  }

  function EscapeChar(c: Code): (t: Text)
    ensures IsPlain(c) ==> t == [c]
  {
    if IsPlain(c) then [c]
    else if c == 34 || c == 92 then [92, c]
    else if c == 8 then [92, 98]
    else if c == 12 then [92, 102]
    else if c == 10 then [92, 110]
    else if c == 13 then [92, 114]
    else if c == 9 then [92, 116]
    else [92, 117, 48, 48, HexDigit(c as nat / 16), HexDigit(c as nat % 16)]
  }

  function Escaped(t: Text): Text {
    if t == [] then [] else EscapeChar(t[0]) + Escaped(t[1..])
  }

  function PrintString(t: Text): Text {
    [34] + Escaped(t) + [34]
  }

  function PrintNat(n: nat): (t: Text)
    ensures t != [] && (forall i :: 0 <= i < |t| ==> IsDigit(t[i]))
  {
    if n < 10 then [(48 + n) as Code] else PrintNat(n / 10) + [(48 + n % 10) as Code]
  }

  /** The values the program prints. */
  predicate Printable(v: Json) {
    match v
    case JInt(n) => 0 <= n && |PrintNat(n)| <= MAX_DIGITS
    case JArray(items) => forall i :: 0 <= i < |items| ==> Printable(items[i])
    case JObject(members) => forall i :: 0 <= i < |members| ==> Printable(members[i].value)
    case JFloat(_) => false
    case JNotFinite => false
    case _ => true
  }

  function Print(v: Json): Text
    requires Printable(v)
    decreases v, 0
  {
    match v
    case JNull => T("null")
    case JBool(b) => if b then T("true") else T("false")
    case JInt(n) => PrintNat(n)
    case JString(t) => PrintString(t)
    case JArray(items) => [91] + PrintItems(items) + [93]
    case JObject(members) => [123] + PrintMembers(members) + [125]
  }

  function PrintItems(items: seq<Json>): Text
    requires forall i :: 0 <= i < |items| ==> Printable(items[i])
    decreases items, 1
  {
    if items == [] then []
    else if |items| == 1 then Print(items[0])
    else Print(items[0]) + [44] + PrintItems(items[1..])
  }

  function PrintMembers(members: seq<Member>): Text
    requires forall i :: 0 <= i < |members| ==> Printable(members[i].value)
    decreases members, 1
  {
    if members == [] then []
    else
      var first := PrintString(members[0].key) + [58] + Print(members[0].value);
      if |members| == 1 then first else first + [44] + PrintMembers(members[1..])
  }
}
