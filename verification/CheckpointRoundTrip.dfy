/** What a checkpoint says survives being printed canonically and parsed again, exactly when no
    argument contains a delimiter; and the gate digest determines the checkpoint it was made from. */
module CheckpointRoundTrip {
  import opened Prelude
  import opened Json
  import opened JsonRoundTrip
  import opened Checkpoint

  // ---- Texts without a delimiter

  ghost predicate Free(t: Text, d: Text) {
    forall i: nat :: !OccursAt(t, d, i)
  }

  /** The delimiters: plain characters, none of which the printer uses as structure, opened by `<`. */
  predicate Delimiting(d: Text) {
    d != [] && d[0] == 60 && forall k :: 0 <= k < |d|
                                         ==> (d[k] == 60 || d[k] == 62 || d[k] == 47 || d[k] == 95 || 65 <= d[k] <= 90)
  }

  lemma DelimitersDelimit()
    ensures Delimiting(BEGIN) && Delimiting(END) && |BEGIN| == 32 && |END| == 33
  {
  }

  lemma FreeIsNotFound(t: Text, d: Text)
    requires d != []
    ensures Find(t, d).None? <==> Free(t, d)
  {
  }

  lemma WithoutBracket(t: Text, d: Text)
    requires Delimiting(d) && 60 !in t
    ensures Free(t, d)
  {
    forall i: nat ensures !OccursAt(t, d, i) {
      if i + |d| <= |t| {
        assert t[i..i + |d|][0] == t[i];
      }
    }
  }

  /** A character that is not in the delimiter separates. */
  lemma FreeJoin(a: Text, c: Code, b: Text, d: Text)
    requires d != [] && c !in d && Free(a, d) && Free(b, d)
    ensures Free(a + [c] + b, d)
  {
    var t := a + [c] + b;
    forall i: nat ensures !OccursAt(t, d, i) {
      if i + |d| <= |a| {
        assert a[i..i + |d|] == t[i..i + |d|];
        assert !OccursAt(a, d, i);
      } else if i <= |a| && i + |d| <= |t| {
        assert t[i..i + |d|][|a| - i] == c;
      } else if i + |d| <= |t| {
        assert b[i - |a| - 1..i - |a| - 1 + |d|] == t[i..i + |d|];
        assert !OccursAt(b, d, i - |a| - 1);
      }
    }
  }

  lemma FreeInside(a: Text, b: Text, c: Text, d: Text)
    requires Free(a + b + c, d)
    ensures Free(b, d)
  {
    var t := a + b + c;
    forall i: nat ensures !OccursAt(b, d, i) {
      if i + |d| <= |b| {
        assert t[|a| + i..|a| + i + |d|] == b[i..i + |d|];
        assert !OccursAt(t, d, |a| + i);
      }
    }
  }

  lemma EscapesHaveNoBracket(c: Code)
    requires !IsPlain(c)
    ensures 60 !in EscapeChar(c) && EscapeChar(c)[0] == 92
  {
  }

  lemma EscapedSplits(t: Text)
    requires t != []
    ensures Escaped(t) == EscapeChar(t[0]) + Escaped(t[1..])
  {
  }

  predicate AllPlain(d: Text) {
    forall k :: 0 <= k < |d| ==> IsPlain(d[k])
  }

  /** Plain text at the start of an escaped text stood at the start of the text. */
  lemma {:induction false} PlainPrefix(t: Text, d: Text)
    requires AllPlain(d)
    ensures d <= Escaped(t) <==> d <= t
  {
    if d != [] && t != [] {
      EscapedSplits(t);
      if IsPlain(t[0]) {
        PlainPrefix(t[1..], d[1..]);
        assert d == [d[0]] + d[1..] && t == [t[0]] + t[1..];
        assert Escaped(t)[1..] == Escaped(t[1..]);
      } else {
        EscapesHaveNoBracket(t[0]);
        assert Escaped(t)[0] == 92;
      }
    }
  }

  lemma OccursInTail(head: Text, tail: Text, d: Text, i: nat)
    requires i >= |head|
    ensures OccursAt(head + tail, d, i) <==> OccursAt(tail, d, i - |head|)
  {
    if i + |d| <= |head + tail| {
      assert (head + tail)[i..i + |d|] == tail[i - |head|..i - |head| + |d|];
    }
  }

  lemma OccursAtStart(t: Text, d: Text)
    ensures OccursAt(t, d, 0) <==> d <= t
  {
  }

  /** Escaping neither hides nor makes a delimiter. */
  lemma {:induction false} EscapedIsFree(t: Text, d: Text)
    requires Delimiting(d)
    ensures Free(Escaped(t), d) <==> Free(t, d)
  {
    if t == [] {
    } else {
      EscapedIsFree(t[1..], d);
      EscapedSplits(t);
      PlainPrefix(t, d);
      OccursAtStart(t, d);
      OccursAtStart(Escaped(t), d);
      assert [t[0]] + t[1..] == t;
      FirstIsFree(t[0], t[1..], d);
    }
  }

  lemma FirstIsFree(c: Code, rest: Text, d: Text)
    requires Delimiting(d)
    ensures Free([c] + rest, d) <==> !OccursAt([c] + rest, d, 0) && Free(rest, d)
    ensures var t := EscapeChar(c) + Escaped(rest); Free(t, d) <==> !OccursAt(t, d, 0) && Free(Escaped(rest), d)
  {
    if !IsPlain(c) {
      EscapesHaveNoBracket(c);
    }
    TailIsFree([c], rest, d);
    TailIsFree(EscapeChar(c), Escaped(rest), d);
  }

  /** Behind a head whose characters, but for the first, open no delimiter, only the first place and the tail matter. */
  lemma TailIsFree(head: Text, tail: Text, d: Text)
    requires Delimiting(d) && head != [] && forall k :: 1 <= k < |head| ==> head[k] != 60
    ensures Free(head + tail, d) <==> !OccursAt(head + tail, d, 0) && Free(tail, d)
  {
    var t := head + tail;
    forall i: nat ensures OccursAt(t, d, i) ==> i == 0 || (i >= |head| && OccursAt(tail, d, i - |head|)) {
      if OccursAt(t, d, i) && i < |head| {
        assert t[i..i + |d|][0] == head[i];
      }
      if i >= |head| {
        OccursInTail(head, tail, d, i);
      }
    }
    forall i: nat ensures OccursAt(tail, d, i) ==> OccursAt(t, d, i + |head|) {
      OccursInTail(head, tail, d, i + |head|);
    }
  }

  // ---- Printed values without a delimiter

  /** No string inside the value, keys included, contains the delimiter. */
  ghost predicate StringsFree(v: Json, d: Text) {
    match v
    case JString(t) => Free(t, d)
    case JArray(items) => forall i :: 0 <= i < |items| ==> StringsFree(items[i], d)
    case JObject(members) => forall i :: 0 <= i < |members| ==> Free(members[i].key, d)
                                                                && StringsFree(members[i].value, d)
    case _ => true
  }

  lemma PrintStringIsFree(t: Text, d: Text)
    requires Delimiting(d)
    ensures Free(PrintString(t), d) <==> Free(t, d)
  {
    EscapedIsFree(t, d);
    if Free(t, d) {
      Wrapped(34, Escaped(t), 34, d);
    }
    if Free(PrintString(t), d) {
      FreeInside([34], Escaped(t), [34], d);
    }
  }

  lemma Wrapped(open: Code, body: Text, close: Code, d: Text)
    requires d != [] && open !in d && close !in d && Free(body, d)
    ensures Free([open] + body + [close], d)
  {
    assert Free([], d);
    FreeJoin([], open, body, d);
    assert [] + [open] + body == [open] + body;
    FreeJoin([open] + body, close, [], d);
    assert [open] + body + [close] + [] == [open] + body + [close];
  }

  lemma {:induction false} PrintNatHasNoBracket(n: nat)
    ensures 60 !in PrintNat(n)
  {
  }

  /** The printed value contains a delimiter exactly when one of its strings does. */
  lemma {:induction false} PrintIsFree(v: Json, d: Text)
    requires Printable(v) && Delimiting(d)
    ensures Free(Print(v), d) <==> StringsFree(v, d)
    decreases v, 0
  {
    match v
    case JNull => WithoutBracket(Print(v), d);
    case JBool(_) => WithoutBracket(Print(v), d);
    case JInt(n) => PrintNatHasNoBracket(n); WithoutBracket(Print(v), d);
    case JString(t) => PrintStringIsFree(t, d);
    case JArray(items) =>
      ItemsAreFree(items, d);
      WrapsFree(91, PrintItems(items), 93, d);
    case JObject(members) =>
      MembersAreFree(members, d);
      WrapsFree(123, PrintMembers(members), 125, d);
  }

  lemma WrapsFree(open: Code, body: Text, close: Code, d: Text)
    requires d != [] && open !in d && close !in d
    ensures Free([open] + body + [close], d) <==> Free(body, d)
  {
    if Free(body, d) {
      Wrapped(open, body, close, d);
    }
    if Free([open] + body + [close], d) {
      FreeInside([open], body, [close], d);
    }
  }

  lemma JoinsFree(a: Text, c: Code, b: Text, d: Text)
    requires d != [] && c !in d
    ensures Free(a + [c] + b, d) <==> Free(a, d) && Free(b, d)
  {
    if Free(a, d) && Free(b, d) {
      FreeJoin(a, c, b, d);
    }
    if Free(a + [c] + b, d) {
      assert [] + a + ([c] + b) == a + [c] + b == (a + [c]) + b + [];
      FreeInside([], a, [c] + b, d);
      FreeInside(a + [c], b, [], d);
    }
  }

  lemma {:induction false} ItemsAreFree(items: seq<Json>, d: Text)
    requires Delimiting(d) && forall i :: 0 <= i < |items| ==> Printable(items[i])
    ensures Free(PrintItems(items), d) <==> forall i :: 0 <= i < |items| ==> StringsFree(items[i], d)
    decreases items, 1
  {
    if items == [] {
    } else if |items| == 1 {
      PrintIsFree(items[0], d);
    } else {
      PrintIsFree(items[0], d);
      ItemsAreFree(items[1..], d);
      JoinsFree(Print(items[0]), 44, PrintItems(items[1..]), d);
      assert forall i :: 1 <= i < |items| ==> items[i] == items[1..][i - 1];
      assert forall i :: 0 <= i < |items| - 1 ==> items[1..][i] == items[i + 1];
    }
  }

  lemma {:induction false} MembersAreFree(members: seq<Member>, d: Text)
    requires Delimiting(d) && forall i :: 0 <= i < |members| ==> Printable(members[i].value)
    ensures Free(PrintMembers(members), d)
            <==> forall i :: 0 <= i < |members| ==> Free(members[i].key, d) && StringsFree(members[i].value, d)
    decreases members, 1
  {
    if members != [] {
      var m := members[0];
      PrintStringIsFree(m.key, d);
      PrintIsFree(m.value, d);
      var first := PrintString(m.key) + [58] + Print(m.value);
      JoinsFree(PrintString(m.key), 58, Print(m.value), d);
      if |members| > 1 {
        MembersAreFree(members[1..], d);
        JoinsFree(first, 44, PrintMembers(members[1..]), d);
        assert forall i :: 1 <= i < |members| ==> members[i] == members[1..][i - 1];
        assert forall i :: 0 <= i < |members| - 1 ==> members[1..][i] == members[i + 1];
      }
    }
  }

  // ---- Parsing the canonical form

  lemma {:induction false} ArgvReparses(argv: seq<Text>, k: nat)
    requires k <= |argv| && forall i :: 0 <= i < |argv| ==> ValidArgument(argv[i]) && Encodable(argv[i])
    requires TotalBytes(argv) <= MAX_BYTES
    ensures TotalBytes(argv[..k]) <= MAX_BYTES
    ensures ArgvFrom(Strings(argv)[k..], argv[..k], TotalBytes(argv[..k])) == Success(argv)
    decreases |argv| - k
  {
    TotalGrows(argv, k);
    if k == |argv| {
      assert argv[..k] == argv;
    } else {
      ArgvReparses(argv, k + 1);
      assert argv[..k + 1][..k] == argv[..k] && argv[..k] + [argv[k]] == argv[..k + 1];
      assert Strings(argv)[k..][1..] == Strings(argv)[k + 1..];
      TotalGrows(argv, k + 1);
    }
  }

  lemma {:induction false} TotalGrows(argv: seq<Text>, k: nat)
    requires k <= |argv|
    ensures TotalBytes(argv[..k]) <= TotalBytes(argv)
    decreases |argv|
  {
    if k == |argv| {
      assert argv[..k] == argv;
    } else {
      TotalGrows(argv[..|argv| - 1], k);
      assert argv[..|argv| - 1][..k] == argv[..k];
    }
  }

  lemma MembersOfThree(a: Member, b: Member, c: Member)
    requires |a.key| < |b.key| < |c.key|
    ensures Get([a, b, c], a.key) == Some(a.value) && Get([a, b, c], b.key) == Some(b.value)
            && Get([a, b, c], c.key) == Some(c.value)
    ensures Keys([a, b, c]) == {a.key, b.key, c.key}
  {
    var m := [a, b, c];
    assert m[..2] == [a, b] && [a, b][..1] == [a];
    assert Get([a], a.key) == Some(a.value) && Get([a, b], a.key) == Get([a], a.key);
    assert m[0].key in Keys(m) && m[1].key in Keys(m) && m[2].key in Keys(m);
  }

  lemma MembersOfTwo(a: Member, b: Member)
    requires |a.key| != |b.key|
    ensures Get([a, b], a.key) == Some(a.value) && Get([a, b], b.key) == Some(b.value) && Keys([a, b]) == {a.key, b.key}
  {
    var m := [a, b];
    assert m[..1] == [a];
    assert m[0].key in Keys(m) && m[1].key in Keys(m);
  }

  lemma CommandReparses(c: Command, names: set<Text>)
    requires ValidCommand(c) && c.name !in names
    ensures ParseCommand(CommandJson(c), names) == Success(c)
  {
    var m := CommandJson(c).members;
    MembersOfThree(m[0], m[1], m[2]);
    assert m == [m[0], m[1], m[2]];
    assert {T("label"), T("argv"), T("timeout_seconds")} == {m[0].key, m[1].key, m[2].key};
    ArgvReparses(c.argv, 0);
    assert Strings(c.argv)[0..] == Strings(c.argv) && c.argv[..0] == [];
  }

  lemma {:induction false} CommandsReparse(commands: seq<Command>, k: nat)
    requires k <= |commands| && ValidCommands(commands)
    ensures CommandsFrom(CommandJsons(commands)[k..], commands[..k]) == Success(commands)
    decreases |commands| - k
  {
    if k == |commands| {
      assert commands[..k] == commands;
    } else {
      assert commands[k].name !in Names(commands[..k]);
      CommandReparses(commands[k], Names(commands[..k]));
      CommandsReparse(commands, k + 1);
      assert commands[..k] + [commands[k]] == commands[..k + 1];
      assert CommandJsons(commands)[k..][1..] == CommandJsons(commands)[k + 1..];
    }
  }

  lemma PayloadReparses(commands: seq<Command>)
    requires ValidCommands(commands)
    ensures ParsePayload(CheckpointJson(commands)) == Success(commands)
  {
    var m := CheckpointJson(commands).members;
    MembersOfTwo(m[0], m[1]);
    assert m == [m[0], m[1]];
    CommandsReparse(commands, 0);
    assert CommandJsons(commands)[0..] == CommandJsons(commands) && commands[..0] == [];
  }

  lemma SmallNumbersPrint(n: nat)
    requires n <= 900
    ensures |PrintNat(n)| <= MAX_DIGITS
  {
    assert |PrintNat(n / 100)| == 1;
    assert n >= 10 ==> |PrintNat(n / 10)| <= 2;
  }

  lemma CanonicalIsPrintable(commands: seq<Command>)
    requires ValidCommands(commands)
    ensures Printable(CheckpointJson(commands))
  {
    forall i | 0 <= i < |commands| ensures Printable(CommandJson(commands[i])) {
      SmallNumbersPrint(commands[i].timeoutSeconds);
    }
    SmallNumbersPrint(1);
  }

  // ---- What is accepted

  lemma {:induction false} AcceptedArgvIsValid(items: seq<Json>, done: seq<Text>, total: nat, argv: seq<Text>)
    requires ArgvFrom(items, done, total) == Success(argv)
    requires total == TotalBytes(done) <= MAX_BYTES && forall i :: 0 <= i < |done|
                                                                   ==> ValidArgument(done[i]) && Encodable(done[i])
    ensures |argv| == |done| + |items| && TotalBytes(argv) <= MAX_BYTES
    ensures forall i :: 0 <= i < |argv| ==> ValidArgument(argv[i]) && Encodable(argv[i])
  {
    if items != [] {
      var next := done + [items[0].text];
      assert next[..|next| - 1] == done;
      AcceptedArgvIsValid(items[1..], next, total + ByteLength(items[0].text), argv);
    }
  }

  lemma AcceptedCommandIsValid(item: Json, names: set<Text>, c: Command)
    requires ParseCommand(item, names) == Success(c)
    ensures ValidCommand(c) && c.name !in names
  {
    var raw := Get(item.members, T("argv"));
    AcceptedArgvIsValid(raw.value.items, [], 0, c.argv);
  }

  lemma {:induction false} AcceptedCommandsAreValid(items: seq<Json>, done: seq<Command>, commands: seq<Command>)
    requires CommandsFrom(items, done) == Success(commands)
    requires forall i :: 0 <= i < |done| ==> ValidCommand(done[i])
    requires forall i, j :: 0 <= i < j < |done| ==> done[i].name != done[j].name
    ensures |commands| == |done| + |items|
    ensures forall i :: 0 <= i < |commands| ==> ValidCommand(commands[i])
    ensures forall i, j :: 0 <= i < j < |commands| ==> commands[i].name != commands[j].name
  {
    if items != [] {
      var c := ParseCommand(items[0], Names(done)).value;
      AcceptedCommandIsValid(items[0], Names(done), c);
      assert forall i :: 0 <= i < |done| ==> done[i].name in Names(done);
      AcceptedCommandsAreValid(items[1..], done + [c], commands);
    }
  }

  /** An accepted checkpoint has one to eight valid commands with distinct labels. */
  lemma AcceptedIsValid(text: Text, commands: seq<Command>)
    requires Parse(text) == Success(commands)
    ensures ValidCommands(commands)
  {
    var i := Find(text, BEGIN).value;
    var remainder := text[i + |BEGIN|..];
    var payload := Loads(remainder[..Find(remainder, END).value]).value;
    AcceptedCommandsAreValid(Get(payload.members, T("commands")).value.items, [], commands);
  }

  // ---- The round trip

  /** No argument contains a delimiter. */
  ghost predicate ArgvFree(commands: seq<Command>, d: Text) {
    forall i, k :: 0 <= i < |commands| && 0 <= k < |commands[i].argv| ==> Free(commands[i].argv[k], d)
  }

  /** Every label is well formed. */
  predicate Named(commands: seq<Command>) {
    forall i :: 0 <= i < |commands| ==> ValidName(commands[i].name)
  }

  lemma NameIsFree(name: Text, d: Text)
    requires ValidName(name) && Delimiting(d)
    ensures Free(name, d)
  {
    WithoutBracket(name, d);
  }

  lemma CommandStringsAreFree(c: Command, d: Text)
    requires ValidName(c.name) && Delimiting(d)
    ensures StringsFree(CommandJson(c), d) <==> forall k :: 0 <= k < |c.argv| ==> Free(c.argv[k], d)
  {
    var m := CommandJson(c).members;
    NameIsFree(c.name, d);
    WithoutBracket(T("argv"), d);
    WithoutBracket(T("label"), d);
    WithoutBracket(T("timeout_seconds"), d);
    assert StringsFree(m[0].value, d) <==> forall k :: 0 <= k < |c.argv| ==> StringsFree(Strings(c.argv)[k], d);
    assert forall k :: 0 <= k < |c.argv| ==> (StringsFree(Strings(c.argv)[k], d) <==> Free(c.argv[k], d));
    assert StringsFree(m[1].value, d) && StringsFree(m[2].value, d);
  }

  lemma KeysHaveNoBracket()
    ensures 60 !in T("commands") && 60 !in T("version")
  {
  }

  lemma CommandsStringsAreFree(commands: seq<Command>, d: Text)
    requires Named(commands) && Delimiting(d)
    ensures StringsFree(JArray(CommandJsons(commands)), d) <==> ArgvFree(commands, d)
  {
    forall i | 0 <= i < |commands|
      ensures StringsFree(CommandJsons(commands)[i], d) <==> forall k ::
              0 <= k < |commands[i].argv| ==> Free(commands[i].argv[k], d)
    {
      CommandStringsAreFree(commands[i], d);
    }
  }

  lemma CanonicalIsFree(commands: seq<Command>, d: Text)
    requires Named(commands) && Delimiting(d) && Printable(CheckpointJson(commands))
    ensures Free(Print(CheckpointJson(commands)), d) <==> ArgvFree(commands, d)
  {
    PrintIsFree(CheckpointJson(commands), d);
    KeysHaveNoBracket();
    WithoutBracket(T("commands"), d);
    WithoutBracket(T("version"), d);
    CommandsStringsAreFree(commands, d);
    var m := CheckpointJson(commands).members;
    assert m[0].value == JArray(CommandJsons(commands)) && StringsFree(m[1].value, d);
  }

  /** A delimiter right behind a separator, with none before it, is the first. */
  lemma FirstAfter(a: Text, c: Code, d: Text, rest: Text)
    requires d != [] && c !in d && Free(a, d)
    ensures Find(a + [c] + d + rest, d) == Some(|a| + 1)
  {
    var t := a + [c] + d + rest;
    OccursBehind(a + [c], d, rest);
    forall i: nat | i <= |a| ensures !OccursAt(t, d, i) {
      if i + |d| <= |a| {
        assert a[i..i + |d|] == t[i..i + |d|];
        assert !OccursAt(a, d, i);
      } else if i + |d| <= |t| {
        assert t[i..i + |d|][|a| - i] == c;
      }
    }
  }

  lemma OccursBehind(a: Text, d: Text, rest: Text)
    ensures OccursAt(a + d + rest, d, |a|)
  {
  }

  lemma CountAtStart(d: Text, rest: Text)
    requires d != []
    ensures Find(d + rest, d) == Some(0) && (d + rest)[|d|..] == rest && Count(d + rest, d) == 1 + Count(rest, d)
  {
    assert (d + rest)[0..|d|] == d;
  }

  lemma CountOfFree(t: Text, d: Text)
    requires d != []
    ensures Count(t, d) == 0 <==> Free(t, d)
  {
    FreeIsNotFound(t, d);
  }

  /** The delimiters do not contain each other. */
  lemma DelimitersAreApart()
    ensures Free(END, BEGIN) && Free(BEGIN, END)
  {
    DelimitersDelimit();
    forall i: nat ensures !OccursAt(END, BEGIN, i) {
      if i <= 1 {
        assert END[i..i + 32][0] == END[i] && END[i..i + 32][1] == END[i + 1];
        assert END[1] == 47 && BEGIN[0] == 60 && BEGIN[1] == 65;
      }
    }
  }

  // ---- A text between two delimiters

  /** Two delimiters, neither of which contains the other. */
  ghost predicate ArePair(open: Text, close: Text) {
    Delimiting(open) && Delimiting(close) && Free(open, close) && Free(close, open)
  }

  /** What stands between the delimiters of a block. */
  function Lines(t: Text): Text {
    [10] + t + [10]
  }

  lemma LinesAreFree(t: Text, rest: Text, d: Text)
    requires Delimiting(d) && Free(rest, d)
    ensures Free(Lines(t) + rest, d) <==> Free(t, d)
  {
    assert Lines(t) + rest == [] + [10] + (t + [10] + rest);
    assert Free([], d);
    JoinsFree([], 10, t + [10] + rest, d);
    JoinsFree(t, 10, rest, d);
  }

  /** The opening delimiter occurs once exactly when the text between does not contain it. */
  lemma OpensOnce(t: Text, open: Text, close: Text)
    requires ArePair(open, close)
    ensures var text := open + (Lines(t) + close);
            && Find(text, open) == Some(0) && text[|open|..] == Lines(t) + close
            && (Count(text, open) == 1 <==> Free(t, open))
  {
    CountAtStart(open, Lines(t) + close);
    LinesAreFree(t, close, open);
    CountOfFree(Lines(t) + close, open);
  }

  lemma Regrouped(t: Text, open: Text, close: Text)
    ensures open + (Lines(t) + close) == (open + [10] + t) + [10] + close
    ensures (open + [10] + t) + [10] + close + [] == (open + [10] + t) + [10] + close
    ensures Lines(t) + close == ([10] + t) + [10] + close + []
  {
  }

  /** The closing delimiter occurs once exactly when the text between does not contain it; it is then found
      at the end. */
  lemma ClosesOnce(t: Text, open: Text, close: Text)
    requires ArePair(open, close)
    ensures Count(open + (Lines(t) + close), close) == 1 <==> Free(t, close)
    ensures Free(t, close) ==> Find(Lines(t) + close, close) == Some(|Lines(t)|)
  {
    Regrouped(t, open, close);
    JoinsFree(open, 10, t, close);
    if Free(t, close) {
      LastIsOnly(open + [10] + t, 10, close);
      assert Free([], close);
      JoinsFree([], 10, t, close);
      assert [] + [10] + t == [10] + t;
      FirstAfter([10] + t, 10, close, []);
    } else {
      SecondIsLast(open + [10] + t, [10], close);
    }
  }

  lemma LastIsOnly(a: Text, c: Code, d: Text)
    requires d != [] && c !in d && Free(a, d)
    ensures Count(a + [c] + d, d) == 1
  {
    FirstAfter(a, c, d, []);
    assert a + [c] + d + [] == a + [c] + d;
    assert (a + [c] + d)[|a| + 1 + |d|..] == [];
    CountOfFree([], d);
  }

  /** A text that ends in `d` and contains it before. */
  lemma SecondIsLast(a: Text, b: Text, d: Text)
    requires d != [] && !Free(a, d)
    ensures Count(a + b + d, d) >= 2
  {
    var text := a + b + d;
    var q: nat :| OccursAt(a, d, q);
    assert text[q..q + |d|] == a[q..q + |d|];
    assert OccursAt(text, d, q);
    FreeIsNotFound(text, d);
    var p := Find(text, d).value;
    assert p <= q;
    EndsInTail(a + b, d, EndOf(p, d));
    CountOfFree(text[EndOf(p, d)..], d);
  }

  lemma EndsInTail(x: Text, d: Text, k: nat)
    requires k <= |x|
    ensures OccursAt((x + d)[k..], d, |x| - k)
  {
    assert (x + d)[k..] == x[k..] + d + [];
    OccursBehind(x[k..], d, []);
  }

  /** The body of a block: what stands between its delimiters. */
  function Body(commands: seq<Command>): Text
    requires Printable(CheckpointJson(commands))
  {
    Lines(Print(CheckpointJson(commands)))
  }

  lemma DelimitersPair()
    ensures ArePair(BEGIN, END)
  {
    DelimitersDelimit();
    DelimitersAreApart();
  }

  lemma BlockIsWrapped(commands: seq<Command>)
    requires Printable(CheckpointJson(commands))
    ensures Block(commands) == BEGIN + (Body(commands) + END)
  {
    WrapsAs(BEGIN, Print(CheckpointJson(commands)), END);
  }

  lemma WrapsAs(open: Text, t: Text, close: Text)
    ensures open + [10] + t + [10] + close == open + (Lines(t) + close)
  {
  }

  /** The opening delimiter occurs once in a block exactly when no argument contains it. */
  lemma OpeningOccursOnce(commands: seq<Command>)
    requires ValidCommands(commands) && Printable(CheckpointJson(commands))
    ensures Find(Block(commands), BEGIN) == Some(0) && Block(commands)[|BEGIN|..] == Body(commands) + END
    ensures Count(Block(commands), BEGIN) == 1 <==> ArgvFree(commands, BEGIN)
  {
    DelimitersPair();
    BlockIsWrapped(commands);
    OpensOnce(Print(CheckpointJson(commands)), BEGIN, END);
    CanonicalIsFree(commands, BEGIN);
  }

  /** The closing delimiter occurs once in a block exactly when no argument contains it; it is then found at the end. */
  lemma ClosingOccursOnce(commands: seq<Command>)
    requires ValidCommands(commands) && Printable(CheckpointJson(commands))
    ensures Count(Block(commands), END) == 1 <==> ArgvFree(commands, END)
    ensures ArgvFree(commands, END) ==> Find(Body(commands) + END, END) == Some(|Body(commands)|)
  {
    DelimitersPair();
    BlockIsWrapped(commands);
    ClosesOnce(Print(CheckpointJson(commands)), BEGIN, END);
    CanonicalIsFree(commands, END);
  }

  /** Printing accepted commands between the delimiters and parsing them again gives the same commands,
      exactly when no argument contains a delimiter. */
  lemma BlockReparsesExactly(commands: seq<Command>)
    requires ValidCommands(commands)
    ensures Printable(CheckpointJson(commands))
    ensures Parse(Block(commands)) == Success(commands) <==> ArgvFree(commands, BEGIN) && ArgvFree(commands, END)
  {
    CanonicalIsPrintable(commands);
    OpeningOccursOnce(commands);
    ClosingOccursOnce(commands);
    if ArgvFree(commands, BEGIN) && ArgvFree(commands, END) {
      FreeBlockReparses(commands, Block(commands));
    }
  }

  lemma RemainderSplits(before: Text, remainder: Text, j: nat, close: Text)
    requires Find(remainder, close) == Some(j)
    ensures EndOf(j, close) <= |remainder|
    ensures SplitRemainder(before, remainder, close)
         == OneBlock(before, remainder[..j], remainder[EndOf(j, close)..])
  {
  }

  /** A standalone block splits into nothing but its payload. */
  lemma StandaloneBlock(text: Text, body: Text, open: Text, close: Text)
    requires open != [] && close != []
    requires Find(text, open) == Some(0) && text[|open|..] == body + close
    requires Count(text, open) == 1 && Count(text, close) == 1 && Find(body + close, close) == Some(|body|)
    ensures Split(text, open, close) == OneBlock([], body, [])
  {
    NothingInFront(text, body + close, open, close);
    RemainderSplits([], body + close, |body|, close);
    Cuts(body, close);
  }

  lemma NothingInFront(text: Text, remainder: Text, open: Text, close: Text)
    requires open != [] && close != []
    requires Find(text, open) == Some(0) && text[|open|..] == remainder && Count(text, open) == 1
             && Count(text, close) == 1
    ensures Split(text, open, close) == SplitRemainder([], remainder, close)
  {
    assert text[..0] == [];
  }

  lemma Cuts(a: Text, b: Text)
    ensures (a + b)[..|a|] == a && (a + b)[EndOf(|a|, b)..] == []
  {
  }

  lemma JudgedAlone(text: Text, body: Text)
    requires Split(text, BEGIN, END) == OneBlock([], body, []) && Loads(body).Yes?
    ensures Parse(text) == ParsePayload(Loads(body).value)
  {
  }

  lemma SplitsAt(a: Text, d: Text, x: Text)
    ensures (a + d + x)[..|a|] == a && (a + d + x)[|a| + |d|..] == x
  {
  }

  lemma FreeBlockReparses(commands: seq<Command>, text: Text)
    requires ValidCommands(commands) && Printable(CheckpointJson(commands))
    requires Find(text, BEGIN) == Some(0) && text[|BEGIN|..] == Body(commands) + END
    requires Count(text, BEGIN) == 1 && Count(text, END) == 1
             && Find(Body(commands) + END, END) == Some(|Body(commands)|)
    ensures Parse(text) == Success(commands)
  {
    LoadsReadsBack(CheckpointJson(commands), [10], [10]);
    StandaloneBlock(text, Body(commands), BEGIN, END);
    PayloadReparses(commands);
    JudgedAlone(text, Body(commands));
  }

  /** A checkpoint the program accepted is reproduced by its own canonical block, unless an argument
      contains a delimiter. */
  lemma AcceptedReparses(text: Text, commands: seq<Command>)
    requires Parse(text) == Success(commands)
    ensures Printable(CheckpointJson(commands))
    ensures Parse(Block(commands)) == Success(commands) <==> ArgvFree(commands, BEGIN) && ArgvFree(commands, END)
  {
    AcceptedIsValid(text, commands);
    BlockReparsesExactly(commands);
  }

  lemma FreeBehind(text: Text, a: nat, b: nat, d: Text)
    requires a <= b <= |text| && Free(text[a..], d)
    ensures Free(text[b..], d)
  {
    assert text[a..] == text[a..][..b - a] + text[b..] + [];
    FreeInside(text[a..][..b - a], text[b..], [], d);
  }

  // ---- The gate digest

  lemma {:induction false} EscapedHasNoNul(t: Text)
    ensures 0 !in Escaped(t)
  {
    if t != [] {
      EscapedHasNoNul(t[1..]);
      EscapedSplits(t);
    }
  }

  lemma {:induction false} PrintHasNoNul(v: Json)
    requires Printable(v)
    ensures 0 !in Print(v)
    decreases v, 0
  {
    match v
    case JNull =>
    case JBool(_) =>
    case JInt(_) =>
    case JString(t) => EscapedHasNoNul(t);
    case JArray(items) => ItemsHaveNoNul(items);
    case JObject(members) => MembersHaveNoNul(members);
  }

  lemma {:induction false} ItemsHaveNoNul(items: seq<Json>)
    requires forall i :: 0 <= i < |items| ==> Printable(items[i])
    ensures 0 !in PrintItems(items)
    decreases items, 1
  {
    if items != [] {
      PrintHasNoNul(items[0]);
      ItemsHaveNoNul(items[1..]);
    }
  }

  lemma {:induction false} MembersHaveNoNul(members: seq<Member>)
    requires forall i :: 0 <= i < |members| ==> Printable(members[i].value)
    ensures 0 !in PrintMembers(members)
    decreases members, 1
  {
    if members != [] {
      EscapedHasNoNul(members[0].key);
      PrintHasNoNul(members[0].value);
      MembersHaveNoNul(members[1..]);
    }
  }

  /** Texts that end in a part of known length behind a separator are equal part by part. */
  lemma LastPart(a: Text, b: Text, x: Text, y: Text)
    requires a + [0] + x == b + [0] + y && 0 !in x && 0 !in y
    ensures a == b && x == y
  {
    if |a| > |b| {
      LaterSeparator(a, b, x, y);
    } else if |b| > |a| {
      LaterSeparator(b, a, y, x);
    } else {
      SplitsAt(a, [0], x);
      SplitsAt(b, [0], y);
    }
  }

  lemma LaterSeparator(a: Text, b: Text, x: Text, y: Text)
    requires a + [0] + x == b + [0] + y && |a| > |b|
    ensures 0 in y
  {
    assert (a + [0] + x)[|a|] == 0;
    assert (b + [0] + y)[|a|] == y[|a| - |b| - 1];
  }

  /** Equal gate digests come from the same execution, message, snapshot and commands, even if the message id
      contains NUL. */
  lemma GateDigestIsInjective(e1: Text, m1: Text, s1: Text, c1: seq<Command>, e2: Text, m2: Text, s2: Text,
                              c2: seq<Command>)
    requires IsUuid(e1) && IsUuid(e2) && ValidCommands(c1) && ValidCommands(c2)
    requires Printable(CheckpointJson(c1)) && Printable(CheckpointJson(c2))
    requires GateDigest(e1, m1, s1, c1).Success? && GateDigest(e1, m1, s1, c1) == GateDigest(e2, m2, s2, c2)
    ensures e1 == e2 && m1 == m2 && s1 == s2 && c1 == c2
  {
    var p1, p2 := Print(CheckpointJson(c1)), Print(CheckpointJson(c2));
    PrintHasNoNul(CheckpointJson(c1));
    PrintHasNoNul(CheckpointJson(c2));
    LastPart(e1 + [0] + m1 + [0] + s1, e2 + [0] + m2 + [0] + s2, p1, p2);
    LastPart(e1 + [0] + m1, e2 + [0] + m2, s1, s2);
    assert (e1 + [0] + m1)[..36] == e1 && (e2 + [0] + m2)[..36] == e2;
    assert (e1 + [0] + m1)[37..] == m1 && (e2 + [0] + m2)[37..] == m2;
    PrintIsInjective(CheckpointJson(c1), CheckpointJson(c2));
    PayloadReparses(c1);
    PayloadReparses(c2);
  }
}
