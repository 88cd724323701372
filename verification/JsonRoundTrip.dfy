/** Reading what was written gives the value back, and writing never produces text that was not there. */
module JsonRoundTrip {
  import opened Prelude
  import opened Json

  /** What may follow a number so that it is not read on. */
  predicate Stops(rest: Text) {
    rest == [] || (!IsDigit(rest[0]) && rest[0] != 46 && rest[0] != 101 && rest[0] != 69)
  }

  lemma HexDigitsReadBack(n: nat)
    requires n < 16
    ensures HexValue(HexDigit(n)) == Some(n)
  {
  }

  lemma Behind(a: Text, rest: Text)
    ensures (a + rest)[|a|..] == rest && forall k :: 0 <= k < |a| ==> (a + rest)[k] == a[k]
  {
  }

  lemma EscapeReadsBack(c: Code, rest: Text)
    ensures ParseChars(EscapeChar(c) + rest) == Prepend(c, ParseChars(rest))
  {
    if IsPlain(c) {
      Behind([c], rest);
    } else if |EscapeChar(c)| == 2 {
      ShortReadsBack(c, EscapeChar(c)[1], rest);
    } else {
      LongReadsBack(c, EscapeChar(c), rest);
    }
  }

  lemma ShortReadsBack(c: Code, letter: Code, rest: Text)
    requires EscapeChar(c) == [92, letter] && !IsPlain(c)
    ensures Escape(letter) == Some(c) && letter != 117
    ensures ParseChars([92, letter] + rest) == Prepend(c, ParseChars(rest))
  {
    Behind([92, letter], rest);
  }

  lemma LongReadsBack(c: Code, escape: Text, rest: Text)
    requires c < 32 && escape == [92, 117, 48, 48, HexDigit(c as nat / 16), HexDigit(c as nat % 16)]
    ensures ParseChars(escape + rest) == Prepend(c, ParseChars(rest))
  {
    Behind(escape, rest);
    ControlReadsBack(c, escape + rest);
  }

  /** A control character without a letter of its own. */
  lemma ControlReadsBack(c: Code, s: Text)
    requires c < 32 && |s| >= 6 && s[2] == s[3] == 48 && s[4] == HexDigit(c as nat / 16)
             && s[5] == HexDigit(c as nat % 16)
    ensures Hex4(s[2..]) == Some(c)
  {
    HexDigitsReadBack(c as nat / 16);
    HexDigitsReadBack(c as nat % 16);
    assert s[2..][0] == 48 && s[2..][1] == 48 && s[2..][2] == s[4] && s[2..][3] == s[5];
    assert HexValue(48) == Some(0);
  }

  lemma FirstEscape(t: Text, rest: Text)
    requires t != []
    ensures Escaped(t) + [34] + rest == EscapeChar(t[0]) + (Escaped(t[1..]) + [34] + rest)
  {
  }

  lemma {:induction false} CharsReadBack(t: Text, rest: Text)
    ensures ParseChars(Escaped(t) + [34] + rest) == Yes(t, rest)
  {
    if t == [] {
      Behind([34], rest);
      assert [] + [34] + rest == [34] + rest;
    } else {
      CharsReadBack(t[1..], rest);
      FirstEscape(t, rest);
      EscapeReadsBack(t[0], Escaped(t[1..]) + [34] + rest);
      HeadAndTail(t);
    }
  }

  lemma {:induction false} DecimalReadsBack(n: nat)
    ensures Decimal(PrintNat(n)) == n && (PrintNat(n)[0] == 48 ==> n == 0 && |PrintNat(n)| == 1)
  {
    if n >= 10 {
      DecimalReadsBack(n / 10);
      var t := PrintNat(n);
      assert t[..|t| - 1] == PrintNat(n / 10);
    } else {
      assert PrintNat(n)[..0] == [];
    }
  }

  lemma {:induction false} DigitsOf(s: Text, rest: Text)
    requires AllDigits(s) && (rest == [] || !IsDigit(rest[0]))
    ensures Digits(s + rest) == |s|
  {
    if s == [] {
      assert s + rest == rest;
    } else {
      DigitsOf(s[1..], rest);
      assert (s + rest)[1..] == s[1..] + rest;
    }
  }

  lemma NumberReadsBack(n: nat, rest: Text)
    requires Stops(rest) && |PrintNat(n)| <= MAX_DIGITS
    ensures ParseValue(PrintNat(n) + rest) == Yes(JInt(n), rest)
  {
    var t := PrintNat(n);
    var s := t + rest;
    DecimalReadsBack(n);
    DigitsOf(t, rest);
    assert s[0] == t[0] && IsDigit(s[0]);
    assert s[..|t|] == t && s[|t|..] == rest;
    assert Fraction(rest) == 0;
    assert rest[0..] == rest && Exponent(rest) == 0;
  }

  lemma LiteralReadsBack(word: Text, rest: Text)
    ensures (word + rest)[|word|..] == rest && word <= word + rest
  {
  }

  /** A printed value starts with a character that is neither white space nor a closing bracket. */
  lemma PrintedIsSolid(v: Json)
    requires Printable(v)
    ensures Print(v) != [] && !IsWhite(Print(v)[0]) && Print(v)[0] != 93 && Print(v)[0] != 125
  {
  }

  lemma LeafReadsBack(v: Json, rest: Text)
    requires Printable(v) && Stops(rest) && !v.JArray? && !v.JObject?
    ensures ParseValue(Print(v) + rest) == Yes(v, rest)
  {
    match v
    case JNull => NullReadsBack(rest);
    case JBool(b) => BoolReadsBack(b, rest);
    case JInt(n) => NumberReadsBack(n, rest);
    case JString(t) => StringReadsBack(t, rest);
  }

  lemma NullReadsBack(rest: Text)
    ensures ParseValue(Print(JNull) + rest) == Yes(JNull, rest)
  {
    LiteralReadsBack(T("null"), rest);
    assert (Print(JNull) + rest)[0] == 110;
  }

  lemma BoolReadsBack(b: bool, rest: Text)
    ensures ParseValue(Print(JBool(b)) + rest) == Yes(JBool(b), rest)
  {
    LiteralReadsBack(if b then T("true") else T("false"), rest);
    assert (Print(JBool(b)) + rest)[0] == if b then 116 else 102;
  }

  lemma StringReadsBack(t: Text, rest: Text)
    ensures ParseValue(Print(JString(t)) + rest) == Yes(JString(t), rest)
  {
    CharsReadBack(t, rest);
    Regroup([], 34, Escaped(t), 34, rest);
    Behind([34], Escaped(t) + [34] + rest);
  }

  lemma EmptiesReadBack(rest: Text)
    ensures ParseValue([91, 93] + rest) == Yes(JArray([]), rest)
    ensures ParseValue([123, 125] + rest) == Yes(JObject([]), rest)
  {
    assert ([91, 93] + rest)[1..] == [93] + rest;
    assert ([123, 125] + rest)[1..] == [125] + rest;
    assert ([93] + rest)[1..] == rest && ([125] + rest)[1..] == rest;
  }

  lemma ArrayReads(body: Text, items: seq<Json>, rest: Text)
    requires body != [] && !IsWhite(body[0]) && body[0] != 93 && ParseItems(body) == Yes(items, rest)
    ensures ParseValue([91] + body) == Yes(JArray(items), rest)
  {
    assert ([91] + body)[1..] == body;
  }

  lemma ObjectReads(body: Text, members: seq<Member>, rest: Text)
    requires body != [] && body[0] == 34 && ParseMembers(body) == Yes(members, rest)
    ensures ParseValue([123] + body) == Yes(JObject(members), rest)
  {
    assert ([123] + body)[1..] == body;
  }

  /** One item, and what may follow it. */
  lemma ItemReads(first: Text, v: Json, tail: Text, items: seq<Json>, rest: Text)
    requires tail != [] && !IsWhite(tail[0]) && ParseItems(tail) == Yes(items, rest)
    requires ParseValue(first + ([44] + tail)) == Yes(v, [44] + tail)
    ensures ParseItems(first + ([44] + tail)) == Yes([v] + items, rest)
  {
    assert ([44] + tail)[1..] == tail;
  }

  lemma LastItemReads(first: Text, v: Json, rest: Text)
    requires ParseValue(first + ([93] + rest)) == Yes(v, [93] + rest)
    ensures ParseItems(first + ([93] + rest)) == Yes([v], rest)
  {
    assert ([93] + rest)[1..] == rest;
  }

  lemma Regroup(a: Text, x: Code, b: Text, y: Code, rest: Text)
    ensures a + [x] + b + [y] + rest == a + ([x] + (b + [y] + rest))
    ensures a + [y] + rest == a + ([y] + rest)
    ensures [x] + b + [y] + rest == [x] + (b + [y] + rest)
  {
  }

  lemma RegroupLast(key: Text, value: Text, rest: Text)
    ensures key + [58] + value + [125] + rest == key + ([58] + (value + ([125] + rest)))
  {
  }

  lemma RegroupInner(key: Text, value: Text, more: Text, rest: Text)
    ensures key + [58] + value + [44] + more + [125] + rest == key + ([58] + (value + ([44] + (more + [125] + rest))))
  {
  }

  lemma Solid(s: Text)
    requires s != [] && !IsWhite(s[0])
    ensures SkipWhite(s) == s
  {
  }

  /** The key of a member, and what the rest of the member reads as. */
  lemma KeyReads(key: Text, value: Text)
    requires value != [] && !IsWhite(value[0])
    ensures var s := PrintString(key) + ([58] + value);
            s[0] == 34 && ParseChars(s[1..]) == Yes(key, [58] + value) && SkipWhite([58] + value) == [58] + value
            && SkipWhite(([58] + value)[1..]) == value
  {
    CharsReadBack(key, [58] + value);
    Regroup([], 34, Escaped(key), 34, [58] + value);
    Behind([34], Escaped(key) + [34] + ([58] + value));
    Behind([58], value);
    Solid(value);
    Solid([58] + value);
  }

  lemma MemberReads(key: Text, value: Text, v: Json, tail: Text, members: seq<Member>, rest: Text)
    requires value != [] && !IsWhite(value[0]) && ParseValue(value) == Yes(v, [44] + tail)
    requires tail != [] && !IsWhite(tail[0]) && ParseMembers(tail) == Yes(members, rest)
    ensures ParseMembers(PrintString(key) + ([58] + value)) == Yes([Member(key, v)] + members, rest)
  {
    KeyReads(key, value);
    Behind([44], tail);
    Solid(tail);
    OnMember(PrintString(key) + ([58] + value), key, [58] + value, value, v, [44] + tail);
  }

  /** One member at the start of `s`: the key, the colon at the start of `t`, and the value. */
  lemma OnMember(s: Text, key: Text, t: Text, value: Text, v: Json, rest: Text)
    requires s != [] && s[0] == 34 && ParseChars(s[1..]) == Yes(key, t) && t != [] && t[0] == 58 && SkipWhite(t) == t
    requires SkipWhite(t[1..]) == value && ParseValue(value) == Yes(v, rest) && rest != [] && SkipWhite(rest) == rest
    ensures rest[0] == 125 ==> ParseMembers(s) == Yes([Member(key, v)], rest[1..])
    ensures rest[0] == 44 && ParseMembers(SkipWhite(rest[1..])).Yes? ==>
              var more := ParseMembers(SkipWhite(rest[1..]));
              ParseMembers(s) == Yes([Member(key, v)] + more.value, more.rest)
  {
  }

  lemma LastMemberReads(key: Text, value: Text, v: Json, rest: Text)
    requires value != [] && !IsWhite(value[0]) && ParseValue(value) == Yes(v, [125] + rest)
    ensures ParseMembers(PrintString(key) + ([58] + value)) == Yes([Member(key, v)], rest)
  {
    KeyReads(key, value);
    Behind([125], rest);
    OnMember(PrintString(key) + ([58] + value), key, [58] + value, value, v, [125] + rest);
  }

  lemma PrintedArray(items: seq<Json>, rest: Text)
    requires forall i :: 0 <= i < |items| ==> Printable(items[i])
    ensures Print(JArray(items)) + rest == [91] + (PrintItems(items) + [93] + rest)
    ensures |items| == 1 ==> PrintItems(items) + [93] + rest == Print(items[0]) + ([93] + rest)
    ensures |items| > 1 ==> PrintItems(items) + [93] + rest == Print(items[0])
                            + ([44] + (PrintItems(items[1..]) + [93] + rest))
  {
    Regroup([], 91, PrintItems(items), 93, rest);
    if |items| > 0 {
      Regroup(Print(items[0]), 44, PrintItems(items[1..]), 93, rest);
    }
  }

  /** What follows the first member of a printed object. */
  function AfterFirst(members: seq<Member>, rest: Text): Text
    requires members != [] && forall i :: 0 <= i < |members| ==> Printable(members[i].value)
  {
    if |members| == 1 then [125] + rest else [44] + (PrintMembers(members[1..]) + [125] + rest)
  }

  lemma PrintedObject(members: seq<Member>, rest: Text)
    requires forall i :: 0 <= i < |members| ==> Printable(members[i].value)
    ensures Print(JObject(members)) + rest == [123] + (PrintMembers(members) + [125] + rest)
  {
    Regroup([], 123, PrintMembers(members), 125, rest);
  }

  lemma PrintedMembers(members: seq<Member>, rest: Text)
    requires members != [] && forall i :: 0 <= i < |members| ==> Printable(members[i].value)
    ensures PrintMembers(members) + [125] + rest
            == PrintString(members[0].key) + ([58] + (Print(members[0].value) + AfterFirst(members, rest)))
  {
    var key, value := PrintString(members[0].key), Print(members[0].value);
    if |members| == 1 {
      RegroupLast(key, value, rest);
    } else {
      RegroupInner(key, value, PrintMembers(members[1..]), rest);
    }
  }

  /** Reading back one value. */
  lemma {:induction false} ValueReadsBack(v: Json, rest: Text)
    requires Printable(v) && Stops(rest)
    ensures ParseValue(Print(v) + rest) == Yes(v, rest)
    decreases v, 0
  {
    if v.JArray? && v.items != [] {
      ItemsReadBack(v.items, rest);
      ArrayReads(PrintItems(v.items) + [93] + rest, v.items, rest);
      PrintedArray(v.items, rest);
    } else if v.JObject? && v.members != [] {
      MembersReadBack(v.members, rest);
      ObjectReads(PrintMembers(v.members) + [125] + rest, v.members, rest);
      PrintedObject(v.members, rest);
    } else if v.JArray? || v.JObject? {
      EmptiesReadBack(rest);
      assert Print(v) == if v.JArray? then [91, 93] else [123, 125];
    } else {
      LeafReadsBack(v, rest);
    }
  }

  lemma {:induction false} ItemsReadBack(items: seq<Json>, rest: Text)
    requires items != [] && forall i :: 0 <= i < |items| ==> Printable(items[i])
    ensures var s := PrintItems(items) + [93] + rest; ParseItems(s) == Yes(items, rest) && !IsWhite(s[0]) && s[0] != 93
    decreases items, 1
  {
    PrintedIsSolid(items[0]);
    PrintedArray(items, rest);
    HeadAndTail(items);
    if |items| == 1 {
      ValueReadsBack(items[0], [93] + rest);
      LastItemReads(Print(items[0]), items[0], rest);
    } else {
      var tail := PrintItems(items[1..]) + [93] + rest;
      ItemsReadBack(items[1..], rest);
      ValueReadsBack(items[0], [44] + tail);
      ItemReads(Print(items[0]), items[0], tail, items[1..], rest);
    }
  }

  lemma {:induction false} MembersReadBack(members: seq<Member>, rest: Text)
    requires members != [] && forall i :: 0 <= i < |members| ==> Printable(members[i].value)
    ensures var s := PrintMembers(members) + [125] + rest; ParseMembers(s) == Yes(members, rest) && s[0] == 34
    decreases members, 1
  {
    var value := Print(members[0].value) + AfterFirst(members, rest);
    PrintedIsSolid(members[0].value);
    ValueReadsBack(members[0].value, AfterFirst(members, rest));
    PrintedMembers(members, rest);
    HeadAndTail(members);
    if |members| == 1 {
      OnlyMemberJoins(members[0], value, PrintMembers(members) + [125] + rest, rest);
    } else {
      MembersReadBack(members[1..], rest);
      FirstMemberJoins(members[0], value, PrintMembers(members) + [125] + rest,
                       PrintMembers(members[1..]) + [125] + rest, members[1..], rest);
    }
  }

  lemma OnlyMemberJoins(m: Member, value: Text, text: Text, rest: Text)
    requires value != [] && !IsWhite(value[0]) && ParseValue(value) == Yes(m.value, [125] + rest)
    requires text == PrintString(m.key) + ([58] + value)
    ensures ParseMembers(text) == Yes([m], rest) && text[0] == 34
  {
    LastMemberReads(m.key, value, m.value, rest);
  }

  lemma FirstMemberJoins(m: Member, value: Text, text: Text, tail: Text, members: seq<Member>, rest: Text)
    requires value != [] && !IsWhite(value[0]) && ParseValue(value) == Yes(m.value, [44] + tail)
    requires text == PrintString(m.key) + ([58] + value)
    requires tail != [] && tail[0] == 34 && ParseMembers(tail) == Yes(members, rest)
    ensures ParseMembers(text) == Yes([m] + members, rest) && text[0] == 34
  {
    MemberReads(m.key, value, m.value, tail, members, rest);
  }

  lemma HeadAndTail<A>(s: seq<A>)
    requires s != []
    ensures [s[0]] + s[1..] == s && (|s| == 1 ==> [s[0]] == s)
  {
  }

  lemma LoadsReadsBack(v: Json, before: Text, after: Text)
    requires Printable(v) && AllWhite(before) && AllWhite(after)
    ensures Loads(before + Print(v) + after) == Yes(v, [])
  {
    PrintedIsSolid(v);
    ValueReadsBack(v, after);
    assert before + Print(v) + after == before + (Print(v) + after);
    SkipsWhite(before, Print(v) + after);
    SkipsWhite(after, []);
    assert after + [] == after;
  }

  predicate AllWhite(s: Text) {
    forall i :: 0 <= i < |s| ==> IsWhite(s[i])
  }

  lemma {:induction false} SkipsWhite(s: Text, rest: Text)
    requires AllWhite(s) && (rest == [] || !IsWhite(rest[0]))
    ensures SkipWhite(s + rest) == rest
  {
    if s == [] {
      assert s + rest == rest;
    } else {
      SkipsWhite(s[1..], rest);
      assert (s + rest)[1..] == s[1..] + rest;
    }
  }

  /** The printer is injective. */
  lemma PrintIsInjective(v: Json, w: Json)
    requires Printable(v) && Printable(w) && Print(v) == Print(w)
    ensures v == w
  {
    ValueReadsBack(v, []);
    ValueReadsBack(w, []);
    assert Print(v) + [] == Print(v) && Print(w) + [] == Print(w);
  }
}
