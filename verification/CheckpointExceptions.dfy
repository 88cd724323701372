/** The texts on which `parse_runner_checkpoint` raises something other than a `RunnerCheckpointError`: there are
    three kinds, each shown by an example, and no others. */
module CheckpointExceptions {
  import opened Prelude
  import opened Json
  import opened JsonRoundTrip
  import opened Checkpoint
  import opened CheckpointRoundTrip

  // ---- Where the delimiters stand

  /** A delimiter that opens with `<`, has no other, and is told from another by its second character. */
  predicate Solo(d: Text) {
    |d| >= 2 && d[0] == 60 && forall k :: 1 <= k < |d| ==> d[k] != 60
  }

  lemma DelimitersAreSolo()
    ensures Solo(BEGIN) && Solo(END) && BEGIN[1] != END[1]
  {
    assert BEGIN[1] == 65 && END[1] == 47;
  }

  predicate OnceEach(text: Text, open: Text, close: Text)
    requires open != [] && close != []
  {
    Count(text, open) == 1 && Count(text, close) == 1
  }

  /** Occurrences of the two delimiters never overlap. */
  lemma Apart(text: Text, c: Text, d: Text, i: nat, j: nat)
    requires Solo(c) && Solo(d) && c[1] != d[1] && OccursAt(text, c, i) && OccursAt(text, d, j)
    ensures i + |c| <= j || j + |d| <= i
  {
    CharactersAt(text, c, i);
    CharactersAt(text, d, j);
    assert text[i] == text[j] == 60 && text[i + 1] == c[1] && text[j + 1] == d[1];
  }

  lemma CharactersAt(text: Text, d: Text, i: nat)
    requires OccursAt(text, d, i)
    ensures forall m :: i <= m < i + |d| ==> text[m] == d[m - i]
  {
    assert forall m :: i <= m < i + |d| ==> text[m] == text[i..i + |d|][m - i];
  }

  lemma OccursAhead(text: Text, d: Text, k: nat, i: nat)
    requires k <= |text|
    ensures OccursAt(text[k..], d, i) <==> OccursAt(text, d, k + i)
  {
    if k + i + |d| <= |text| {
      assert text[k..][i..i + |d|] == text[k + i..k + i + |d|];
    }
  }

  lemma FirstIsFound(t: Text, d: Text, m: nat)
    requires d != [] && OccursAt(t, d, m) && forall i: nat :: i < m ==> !OccursAt(t, d, i)
    ensures Find(t, d) == Some(m)
  {
    FreeIsNotFound(t, d);
  }

  /** The first occurrence is still the first in a rest it belongs to. */
  lemma FoundBehind(text: Text, d: Text, j: nat, k: nat)
    requires d != [] && Find(text, d) == Some(j) && k <= j
    ensures Find(text[k..], d) == Some(j - k)
  {
    OccursAhead(text, d, k, j - k);
    forall i: nat | i < j - k ensures !OccursAt(text[k..], d, i) {
      OccursAhead(text, d, k, i);
    }
    FirstIsFound(text[k..], d, j - k);
  }

  /** Behind its only occurrence a delimiter is not found. */
  lemma GoneBehind(text: Text, d: Text, k: nat)
    requires d != [] && Count(text, d) == 1 && Find(text, d).Some? && Find(text, d).value + |d| <= k <= |text|
    ensures Find(text[k..], d).None?
  {
    var a := Find(text, d).value + |d|;
    CountOfFree(text[a..], d);
    FreeBehind(text, a, k, d);
    FreeIsNotFound(text[k..], d);
  }

  lemma OnceIsFound(text: Text, d: Text)
    requires d != [] && Count(text, d) == 1
    ensures Find(text, d).Some?
  {
  }

  lemma OnceSplits(text: Text, open: Text, close: Text)
    requires open != [] && close != [] && OnceEach(text, open, close)
    ensures Find(text, open).Some? && Find(text, close).Some?
    ensures Split(text, open, close) == SplitBehind(text, Find(text, open).value, open, close)
  {
    OnceIsFound(text, open);
    OnceIsFound(text, close);
  }

  /** With both delimiters once, everything depends on their order. The opening one ends at `a`. */
  lemma SplitsExactly(text: Text, i: nat, a: nat, j: nat, open: Text, close: Text)
    requires Solo(open) && Solo(close) && open[1] != close[1] && Count(text, close) == 1
    requires Find(text, open) == Some(i) && Find(text, close) == Some(j) && a == i + |open|
    ensures a <= |text| && j + |close| <= |text|
    ensures if j < i then SplitRemainder(text[..i], text[a..], close) == Reversed
            else a <= j && SplitRemainder(text[..i], text[a..], close)
                        == OneBlock(text[..i], text[a..j], text[EndOf(j, close)..])
  {
    FoundApart(text, open, close, i, j);
    if j < i {
      GoneBehind(text, close, a);
    } else {
      BlockFrom(text[..i], text, a, j, close);
    }
  }

  lemma FoundApart(text: Text, c: Text, d: Text, i: nat, j: nat)
    requires Solo(c) && Solo(d) && c[1] != d[1] && Find(text, c) == Some(i) && Find(text, d) == Some(j)
    ensures i + |c| <= j || j + |d| <= i
    ensures i + |c| <= |text| && j + |d| <= |text|
  {
    Apart(text, c, d, i, j);
  }

  lemma BlockFrom(before: Text, text: Text, a: nat, j: nat, close: Text)
    requires close != [] && a <= j && Find(text, close) == Some(j)
    ensures EndOf(j, close) <= |text|
    ensures SplitRemainder(before, text[a..], close) == OneBlock(before, text[a..j], text[EndOf(j, close)..])
  {
    FoundBehind(text, close, j, a);
    RemainderSplitsAt(before, text, a, j, j - a, close);
  }

  /** The closing delimiter stands at `j` in the text, which is `m` in the remainder. */
  lemma RemainderSplitsAt(before: Text, text: Text, a: nat, j: nat, m: nat, close: Text)
    requires a <= j && j + |close| <= |text| && m == j - a && Find(text[a..], close) == Some(m)
    ensures SplitRemainder(before, text[a..], close) == OneBlock(before, text[a..j], text[EndOf(j, close)..])
  {
    RemainderSplits(before, text[a..], m, close);
    Slices(text, a, j, m, EndOf(j, close), EndOf(m, close));
  }

  lemma Slices(text: Text, a: nat, j: nat, m: nat, e: nat, n: nat)
    requires a <= j <= e <= |text| && m == j - a && n == e - a
    ensures text[a..][..m] == text[a..j] && text[a..][n..] == text[e..]
  {
  }

  // ---- The first argument that cannot be encoded

  /** `_validate_argv` gets past this argument, but for the running total. */
  predicate IsFine(v: Json) {
    v.JString? && ValidArgument(v.text) && Encodable(v.text)
  }

  predicate AllFine(items: seq<Json>) {
    forall i :: 0 <= i < |items| ==> IsFine(items[i])
  }

  function Bytes(items: seq<Json>): nat
    requires AllFine(items)
  {
    if items == [] then 0 else ByteLength(items[0].text) + Bytes(items[1..])
  }

  /** Argument `k` is the first with a fault, and the fault is a surrogate. */
  predicate SurrogateAt(items: seq<Json>, total: nat, k: nat) {
    && k < |items| && AllFine(items[..k]) && total + Bytes(items[..k]) <= MAX_BYTES
    && items[k].JString? && ValidArgument(items[k].text) && !Encodable(items[k].text)
  }

  lemma SurrogateShifts(items: seq<Json>, total: nat, k: nat)
    requires items != [] && IsFine(items[0])
    ensures SurrogateAt(items, total, k + 1) <==> SurrogateAt(items[1..], total + ByteLength(items[0].text), k)
  {
    if k + 1 < |items| {
      var front := items[..k + 1];
      assert front[0] == items[0] && front[1..] == items[1..][..k];
      assert AllFine(front) <==> AllFine(items[1..][..k]) by {
        assert forall i :: 0 <= i < k ==> front[i + 1] == front[1..][i];
      }
    }
  }

  lemma {:induction false} ArgvEscapes(items: seq<Json>, done: seq<Text>, total: nat)
    requires total <= MAX_BYTES
    ensures ArgvFrom(items, done, total).Uncaught? <==> exists k: nat :: SurrogateAt(items, total, k)
    ensures ArgvFrom(items, done, total).Uncaught? ==> ArgvFrom(items, done, total) == Uncaught(ENCODE_ERROR)
  {
    if items != [] {
      if IsFine(items[0]) {
        var next := total + ByteLength(items[0].text);
        if next <= MAX_BYTES {
          ArgvEscapes(items[1..], done + [items[0].text], next);
          FineFirst(items, total, next);
        }
      } else if items[0].JString? && ValidArgument(items[0].text) {
        assert SurrogateAt(items, total, 0);
      }
    }
  }

  lemma FineFirst(items: seq<Json>, total: nat, next: nat)
    requires items != [] && IsFine(items[0]) && next == total + ByteLength(items[0].text)
    ensures (exists k: nat :: SurrogateAt(items, total, k)) <==> exists k: nat :: SurrogateAt(items[1..], next, k)
  {
    if k: nat :| SurrogateAt(items, total, k) {
      assert k > 0;
      SurrogateShifts(items, total, k - 1);
    }
    if k: nat :| SurrogateAt(items[1..], next, k) {
      SurrogateShifts(items, total, k);
    }
  }

  /** Shape, label and timeout of a command pass, but an argument is the first fault and has a surrogate. */
  ghost predicate CommandEscapes(item: Json, names: set<Text>) {
    && item.JObject? && Keys(item.members) == {T("label"), T("argv"), T("timeout_seconds")}
    && (var name := Get(item.members, T("label"));
        name.Some? && name.value.JString? && ValidName(name.value.text) && name.value.text !in names)
    && (var timeout := Get(item.members, T("timeout_seconds")); timeout.Some? && timeout.value.JInt?
                                                                && 1 <= timeout.value.n <= 900)
    && (var argv := Get(item.members, T("argv"));
        argv.Some? && argv.value.JArray? && 1 <= |argv.value.items| <= 64 && exists k: nat ::
            SurrogateAt(argv.value.items, 0, k))
  }

  lemma CommandEscapesExactly(item: Json, names: set<Text>)
    ensures ParseCommand(item, names).Uncaught? <==> CommandEscapes(item, names)
    ensures ParseCommand(item, names).Uncaught? ==> ParseCommand(item, names) == Uncaught(ENCODE_ERROR)
  {
    if item.JObject? {
      var argv := Get(item.members, T("argv"));
      if argv.Some? && argv.value.JArray? {
        ArgvEscapes(argv.value.items, [], 0);
      }
    }
  }

  /** The commands before `i` are accepted, and command `i` has the surrogate. */
  ghost predicate EscapesAt(items: seq<Json>, done: seq<Command>, i: nat) {
    i < |items| && CommandsFrom(items[..i], done).Success?
        && CommandEscapes(items[i], Names(CommandsFrom(items[..i], done).value))
  }

  lemma EscapeShifts(items: seq<Json>, done: seq<Command>, i: nat)
    requires items != [] && ParseCommand(items[0], Names(done)).Success?
    ensures EscapesAt(items, done, i + 1)
            <==> EscapesAt(items[1..], done + [ParseCommand(items[0], Names(done)).value], i)
  {
    if i + 1 < |items| {
      assert items[..i + 1][0] == items[0] && items[..i + 1][1..] == items[1..][..i];
    }
  }

  lemma FirstEscapes(items: seq<Json>, done: seq<Command>)
    requires items != []
    ensures EscapesAt(items, done, 0) <==> CommandEscapes(items[0], Names(done))
    ensures !ParseCommand(items[0], Names(done)).Success? ==> forall i: nat :: i > 0 ==> !EscapesAt(items, done, i)
  {
    assert items[..0] == [];
    forall i: nat | i > 0 && !ParseCommand(items[0], Names(done)).Success? ensures !EscapesAt(items, done, i) {
      if i < |items| {
        assert items[..i][0] == items[0];
      }
    }
  }

  lemma {:induction false} CommandsEscape(items: seq<Json>, done: seq<Command>)
    ensures CommandsFrom(items, done).Uncaught? <==> exists i: nat :: EscapesAt(items, done, i)
    ensures CommandsFrom(items, done).Uncaught? ==> CommandsFrom(items, done) == Uncaught(ENCODE_ERROR)
  {
    if items != [] {
      CommandEscapesExactly(items[0], Names(done));
      FirstEscapes(items, done);
      var first := ParseCommand(items[0], Names(done));
      if first.Success? {
        CommandsEscape(items[1..], done + [first.value]);
        LaterEscape(items, done);
      }
    }
  }

  lemma LaterEscape(items: seq<Json>, done: seq<Command>)
    requires items != [] && ParseCommand(items[0], Names(done)).Success?
    ensures (exists i: nat :: EscapesAt(items, done, i)) <==>
            exists i: nat :: EscapesAt(items[1..], done + [ParseCommand(items[0], Names(done)).value], i)
  {
    CommandEscapesExactly(items[0], Names(done));
    FirstEscapes(items, done);
    if i: nat :| EscapesAt(items, done, i) {
      EscapeShifts(items, done, i - 1);
    }
    if i: nat :| EscapesAt(items[1..], done + [ParseCommand(items[0], Names(done)).value], i) {
      EscapeShifts(items, done, i);
    }
  }

  /** Shape and version of the payload pass, and some command has the surrogate. */
  ghost predicate PayloadEscapes(payload: Json) {
    && payload.JObject? && Keys(payload.members) == {T("version"), T("commands")}
    && EqualsOne(Get(payload.members, T("version")))
    && (var commands := Get(payload.members, T("commands"));
        commands.Some? && commands.value.JArray? && 1 <= |commands.value.items| <= 8
        && exists i: nat :: EscapesAt(commands.value.items, [], i))
  }

  lemma PayloadEscapesExactly(payload: Json)
    ensures ParsePayload(payload).Uncaught? <==> PayloadEscapes(payload)
    ensures ParsePayload(payload).Uncaught? ==> ParsePayload(payload) == Uncaught(ENCODE_ERROR)
  {
    if payload.JObject? {
      var commands := Get(payload.members, T("commands"));
      if commands.Some? && commands.value.JArray? {
        CommandsEscape(commands.value.items, []);
      }
    }
  }

  // ---- All of them

  /** Both delimiters once, the closing one first. */
  predicate ReversedOnce(text: Text, open: Text, close: Text)
    requires open != [] && close != []
  {
    && OnceEach(text, open, close) && Find(text, open).Some? && Find(text, close).Some?
    && Find(text, close).value < Find(text, open).value
  }

  /** What stands between delimiters that occur once, in order, with nothing but white space around them. */
  function StandalonePayload(text: Text, open: Text, close: Text): Option<Text>
    requires open != [] && close != []
  {
    var i, j := Find(text, open), Find(text, close);
    if OnceEach(text, open, close) && i.Some? && j.Some? && i.value + |open| <= j.value
       && Blank(text[..i.value]) && Blank(text[EndOf(j.value, close)..])
    then Some(text[EndOf(i.value, open)..j.value]) else None
  }

  lemma LayoutExactly(text: Text, open: Text, close: Text)
    requires Solo(open) && Solo(close) && open[1] != close[1]
    ensures Split(text, open, close).Reversed? <==> ReversedOnce(text, open, close)
    ensures StandalonePayload(text, open, close).Some? <==>
              var s := Split(text, open, close); s.OneBlock? && Blank(s.before) && Blank(s.after)
    ensures StandalonePayload(text, open, close).Some? ==>
              StandalonePayload(text, open, close).value == Split(text, open, close).payloadText
  {
    if OnceEach(text, open, close) {
      OnceSplits(text, open, close);
      SplitsExactly(text, Find(text, open).value, EndOf(Find(text, open).value, open), Find(text, close).value, open,
                    close);
    }
  }

  /** `parse_runner_checkpoint` raises a plain ValueError exactly for reversed delimiters and for standalone payloads
      with an overlong integer, and a UnicodeEncodeError exactly when the first fault of a standalone payload is a
      surrogate in an argument; otherwise it returns or raises a `RunnerCheckpointError`. */
  lemma UncaughtExactly(text: Text)
    ensures Parse(text) == Uncaught(VALUE_ERROR) <==>
              || ReversedOnce(text, BEGIN, END)
              || (var p := StandalonePayload(text, BEGIN, END); p.Some? && Loads(p.value).Overlong?)
    ensures Parse(text) == Uncaught(ENCODE_ERROR) <==>
              var p := StandalonePayload(text, BEGIN, END);
              p.Some? && Loads(p.value).Yes? && PayloadEscapes(Loads(p.value).value)
    ensures Parse(text).Uncaught? ==> Parse(text).error == VALUE_ERROR || Parse(text).error == ENCODE_ERROR
  {
    DelimitersAreSolo();
    LayoutExactly(text, BEGIN, END);
    var s := Split(text, BEGIN, END);
    if s.OneBlock? {
      JudgedExactly(s.before, s.payloadText, s.after);
    }
  }

  lemma JudgedExactly(before: Text, payloadText: Text, after: Text)
    ensures Judge(before, payloadText, after) == Uncaught(VALUE_ERROR) <==>
              Blank(before) && Blank(after) && Loads(payloadText).Overlong?
    ensures Judge(before, payloadText, after) == Uncaught(ENCODE_ERROR) <==>
              Blank(before) && Blank(after) && Loads(payloadText).Yes? && PayloadEscapes(Loads(payloadText).value)
    ensures Judge(before, payloadText, after).Uncaught? ==>
              Judge(before, payloadText, after).error == VALUE_ERROR
                  || Judge(before, payloadText, after).error == ENCODE_ERROR
  {
    if Loads(payloadText).Yes? {
      PayloadEscapesExactly(Loads(payloadText).value);
    }
    assert |VALUE_ERROR| != |ENCODE_ERROR|;
  }

  // ---- One text of each kind

  /** A closing delimiter, a newline and an opening one. */
  lemma ReversedExample(open: Text, close: Text)
    requires ArePair(open, close)
    ensures ReversedOnce(close + [10] + open, open, close)
  {
    LastIsOnly(close, 10, open);
    FirstIsOnly(close, 10, open);
    BothFound(close, open);
  }

  lemma FirstIsOnly(d: Text, c: Code, b: Text)
    requires d != [] && c !in d && Free(b, d)
    ensures Find(d + [c] + b, d) == Some(0) && Count(d + [c] + b, d) == 1
  {
    assert d + [c] + b == d + ([c] + b);
    assert [] + [c] + b == [c] + b;
    assert Free([], d);
    JoinsFree([], c, b, d);
    CountAtStart(d, [c] + b);
    CountOfFree([c] + b, d);
  }

  lemma BothFound(close: Text, open: Text)
    requires ArePair(open, close)
    ensures Find(close + [10] + open, open) == Some(|close| + 1)
  {
    FirstAfter(close, 10, open, []);
    assert close + [10] + open + [] == close + [10] + open;
  }

  lemma ReversedDelimitersEscape()
    ensures Parse(END + [10] + BEGIN) == Uncaught(VALUE_ERROR)
  {
    DelimitersPair();
    ReversedExample(BEGIN, END);
    UncaughtExactly(END + [10] + BEGIN);
  }

  /** Between delimiters it does not contain, a text is the payload. */
  lemma PayloadOf(t: Text, open: Text, close: Text)
    requires ArePair(open, close) && Solo(open) && Solo(close) && open[1] != close[1] && Free(t, open) && Free(t, close)
    ensures StandalonePayload(open + (Lines(t) + close), open, close) == Some(Lines(t))
  {
    OpensOnce(t, open, close);
    ClosesOnce(t, open, close);
    StandaloneBlock(open + (Lines(t) + close), Lines(t), open, close);
    LayoutExactly(open + (Lines(t) + close), open, close);
  }

  lemma BlockPayload(t: Text)
    requires Free(t, BEGIN) && Free(t, END)
    ensures StandalonePayload(BEGIN + (Lines(t) + END), BEGIN, END) == Some(Lines(t))
  {
    DelimitersPair();
    DelimitersAreSolo();
    PayloadOf(t, BEGIN, END);
  }

  /** A number of `n` digits. */
  function Ones(n: nat): Text {
    seq(n, _ => 49)
  }

  lemma OnesDoNotParse(n: nat)
    requires n > MAX_DIGITS
    ensures ParseNumber(Ones(n) + [10]).Overlong?
  {
    var s := Ones(n) + [10];
    DigitsOf(Ones(n), [10]);
    Behind(Ones(n), [10]);
    assert s[0] == 49 && Whole(s) == n && Fraction([10]) == 0;
    assert [10][0..] == [10] && Exponent([10]) == 0;
  }

  lemma NumbersParse(s: Text)
    requires s != [] && IsDigit(s[0])
    ensures ParseValue(s) == ParseNumber(s)
  {
    ValuesAreScalars(s);
    ScalarsAreNumbers(s);
  }

  lemma ValuesAreScalars(s: Text)
    requires s != [] && s[0] != 34 && s[0] != 123 && s[0] != 91
    ensures ParseValue(s) == ParseScalar(s)
  {
  }

  lemma ScalarsAreNumbers(s: Text)
    requires s != [] && IsDigit(s[0])
    ensures ParseScalar(s) == ParseNumber(s)
  {
  }

  lemma OnesAreOverlong(n: nat)
    requires n > MAX_DIGITS
    ensures Loads(Lines(Ones(n))).Overlong?
  {
    OnesDoNotParse(n);
    assert (Ones(n) + [10])[0] == 49;
    NumbersParse(Ones(n) + [10]);
    OverlongBehindWhite(Ones(n) + [10]);
    LinesOf(Ones(n));
  }

  lemma LinesOf(t: Text)
    ensures Lines(t) == [10] + (t + [10])
  {
  }

  lemma OverlongBehindWhite(s: Text)
    requires s != [] && IsDigit(s[0]) && ParseValue(s).Overlong?
    ensures Loads([10] + s).Overlong?
  {
    assert AllWhite([10]);
    SkipsWhite([10], s);
  }

  lemma OverlongIntegerEscapes()
    ensures Parse(BEGIN + (Lines(Ones(4301)) + END)) == Uncaught(VALUE_ERROR)
  {
    DelimitersDelimit();
    WithoutBracket(Ones(4301), BEGIN);
    WithoutBracket(Ones(4301), END);
    BlockPayload(Ones(4301));
    OnesAreOverlong(4301);
    UncaughtExactly(BEGIN + (Lines(Ones(4301)) + END));
  }

  /** A checkpoint of one command whose only argument is a lone surrogate. */
  function SurrogateCommand(): Command {
    Command([97], [[0xD800]], 1)
  }

  lemma SurrogateIsPrintable()
    ensures Printable(CheckpointJson([SurrogateCommand()]))
  {
    SmallNumbersPrint(1);
  }

  lemma SurrogateIsFree(d: Text)
    requires Delimiting(d) && Printable(CheckpointJson([SurrogateCommand()]))
    ensures Free(Print(CheckpointJson([SurrogateCommand()])), d)
  {
    WithoutBracket([0xD800], d);
    CanonicalIsFree([SurrogateCommand()], d);
  }

  lemma SurrogateCommandEscapes()
    ensures CommandEscapes(CommandJson(SurrogateCommand()), {})
  {
    var c := SurrogateCommand();
    var m := CommandJson(c).members;
    MembersOfThree(m[0], m[1], m[2]);
    assert m == [m[0], m[1], m[2]];
    assert SurrogateAt(Strings(c.argv), 0, 0) by {
      assert Strings(c.argv)[0] == JString([0xD800]) && IsSurrogate([0xD800][0]);
      assert 0 !in [0xD800];
    }
  }

  lemma SurrogatePayloadEscapes()
    ensures PayloadEscapes(CheckpointJson([SurrogateCommand()]))
  {
    var c := SurrogateCommand();
    var m := CheckpointJson([c]).members;
    MembersOfTwo(m[0], m[1]);
    assert m == [m[0], m[1]];
    SurrogateCommandEscapes();
    var items := CommandJsons([c]);
    FirstEscapes(items, []);
    assert items[0] == CommandJson(c) && Names([]) == {};
    assert EscapesAt(items, [], 0);
  }

  lemma SurrogateEscapes()
    ensures Printable(CheckpointJson([SurrogateCommand()]))
    ensures Parse(BEGIN + (Lines(Print(CheckpointJson([SurrogateCommand()]))) + END)) == Uncaught(ENCODE_ERROR)
  {
    SurrogateIsPrintable();
    DelimitersDelimit();
    var v := CheckpointJson([SurrogateCommand()]);
    SurrogateIsFree(BEGIN);
    SurrogateIsFree(END);
    BlockPayload(Print(v));
    LoadsReadsBack(v, [10], [10]);
    SurrogatePayloadEscapes();
    UncaughtExactly(BEGIN + (Lines(Print(v)) + END));
  }

  // ---- What passes for version 1

  function Versioned(commands: seq<Command>, version: Json): Json {
    JObject([Member(T("commands"), JArray(CommandJsons(commands))), Member(T("version"), version)])
  }

  /** Valid commands are accepted under every version that Python finds equal to 1, the boolean `true` among them, and
      under no other. */
  lemma VersionReparsesExactly(commands: seq<Command>, version: Json)
    requires ValidCommands(commands)
    ensures ParsePayload(Versioned(commands, version))
         == if EqualsOne(Some(version)) then Success(commands) else Refused("runner_checkpoint_version_invalid")
    ensures ParsePayload(Versioned(commands, JBool(true))) == ParsePayload(Versioned(commands, JFloat(1.0)))
            == Success(commands)
  {
    VersionDecides(commands, version);
    VersionDecides(commands, JBool(true));
    VersionDecides(commands, JFloat(1.0));
  }

  lemma VersionDecides(commands: seq<Command>, version: Json)
    requires ValidCommands(commands)
    ensures ParsePayload(Versioned(commands, version))
         == if EqualsOne(Some(version)) then Success(commands) else Refused("runner_checkpoint_version_invalid")
  {
    var m := Versioned(commands, version).members;
    MembersOfTwo(m[0], m[1]);
    assert m == [m[0], m[1]];
    CommandsReparse(commands, 0);
    assert CommandJsons(commands)[0..] == CommandJsons(commands) && commands[..0] == [];
  }
}
