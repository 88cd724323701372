/** `runner_checkpoint.py`: the machine-readable checkpoint an assistant message may carry. */
module Checkpoint {
  import opened Prelude
  import opened Json

  const BEGIN: Text := T("<AI_ORCHESTRA_RUNNER_CHECKPOINT>")
  const END: Text := T("</AI_ORCHESTRA_RUNNER_CHECKPOINT>")

  datatype Command = Command(name: Text, argv: seq<Text>, timeoutSeconds: int)

  /** `Refused` is a `RunnerCheckpointError`; `Uncaught` is an exception of another class. */
  datatype Outcome<+A> = Success(value: A) | Absent | Refused(code: string) | Uncaught(error: string)

  const VALUE_ERROR := "ValueError"
  const ENCODE_ERROR := "UnicodeEncodeError"

  // ---- Text searches

  predicate OccursAt(text: Text, d: Text, i: nat) {
    i + |d| <= |text| && text[i..i + |d|] == d
  }

  /** `str.find`. */
  function Find(text: Text, d: Text): (r: Option<nat>)
    ensures r.Some? ==> OccursAt(text, d, r.value) && r.value + |d| <= |text|
    ensures forall j: nat :: j < (if r.Some? then r.value else |text|) ==> !OccursAt(text, d, j) || d == []
  {
    if OccursAt(text, d, 0) then Some(0)
    else if text == [] then None
    else
      var r := Find(text[1..], d);
      assert forall j: nat :: 0 < j && OccursAt(text, d, j) ==> OccursAt(text[1..], d, j - 1) by {
        forall j: nat | 0 < j && OccursAt(text, d, j) ensures OccursAt(text[1..], d, j - 1) {
          assert text[1..][j - 1..j - 1 + |d|] == text[j..j + |d|];
        }
      }
      assert r.Some? ==> text[1..][r.value..r.value + |d|] == text[r.value + 1..r.value + 1 + |d|];
      if r.Some? then Some(r.value + 1) else None
  }

  /** Where an occurrence of `d` at `i` ends. */
  function EndOf(i: nat, d: Text): nat {
    i + |d|
  }

  /** `str.count`. */
  function Count(text: Text, d: Text): nat
    requires d != []
    decreases |text|
  {
    var i := Find(text, d);
    if i.None? then 0 else 1 + Count(text[EndOf(i.value, d)..], d)
  }

  /** Python's `str.isspace`, for one code point. */
  predicate IsBlankCode(c: Code) {
    9 <= c <= 13 || 28 <= c <= 32 || c == 0x85 || c == 0xA0 || c == 0x1680 || 0x2000 <= c <= 0x200A
    || c == 0x2028 || c == 0x2029 || c == 0x202F || c == 0x205F || c == 0x3000
  }

  /** `not text.strip()`. */
  predicate Blank(text: Text) {
    forall i :: 0 <= i < |text| ==> IsBlankCode(text[i])
  }

  // ---- Validation

  function Utf8(c: Code): nat {
    if c < 0x80 then 1 else if c < 0x800 then 2 else if c < 0x1_0000 then 3 else 4
  }

  function ByteLength(t: Text): nat {
    if t == [] then 0 else Utf8(t[0]) + ByteLength(t[1..])
  }

  predicate ValidArgument(t: Text) {
    1 <= |t| <= 4096 && 0 !in t
  }

  const MAX_BYTES := 32_768

  /** `_validate_argv`, from the arguments `done` on, whose encodings take `total` bytes. */
  function ArgvFrom(items: seq<Json>, done: seq<Text>, total: nat): Outcome<seq<Text>> {
    if items == [] then Success(done)
    else if !items[0].JString? || !ValidArgument(items[0].text) then Refused("runner_checkpoint_argv_invalid")
    else if !Encodable(items[0].text) then Uncaught(ENCODE_ERROR)
    else if total + ByteLength(items[0].text) > MAX_BYTES then Refused("runner_checkpoint_argv_too_large")
    else ArgvFrom(items[1..], done + [items[0].text], total + ByteLength(items[0].text))
  }

  function Argv(v: Option<Json>): Outcome<seq<Text>> {
    if v.None? || !v.value.JArray? || !(1 <= |v.value.items| <= 64) then Refused("runner_checkpoint_argv_invalid")
    else ArgvFrom(v.value.items, [], 0)
  }

  predicate IsAlphanumeric(c: Code) {
    48 <= c <= 57 || 65 <= c <= 90 || 97 <= c <= 122
  }

  /** `_LABEL_RE`. */
  predicate ValidName(t: Text) {
    && 1 <= |t| <= 80 && IsAlphanumeric(t[0])
    && forall i :: 1 <= i < |t| ==> IsAlphanumeric(t[i]) || t[i] == 46 || t[i] == 95 || t[i] == 58 || t[i] == 32
                                    || t[i] == 45
  }

  function ParseCommand(item: Json, names: set<Text>): Outcome<Command> {
    if !item.JObject? || Keys(item.members) != {T("label"), T("argv"), T("timeout_seconds")}
    then Refused("runner_checkpoint_command_shape_invalid") else
    var name, timeout := Get(item.members, T("label")), Get(item.members, T("timeout_seconds"));
    if name.None? || !name.value.JString? || !ValidName(name.value.text) || name.value.text in names
    then Refused("runner_checkpoint_label_invalid")
    else if timeout.None? || !timeout.value.JInt? || !(1 <= timeout.value.n <= 900)
           then Refused("runner_checkpoint_timeout_invalid")
    else
      match Argv(Get(item.members, T("argv")))
      case Success(argv) => Success(Command(name.value.text, argv, timeout.value.n))
      case Absent => Absent
      case Refused(code) => Refused(code)
      case Uncaught(error) => Uncaught(error)
  }

  function Names(commands: seq<Command>): set<Text> {
    set i | 0 <= i < |commands| :: commands[i].name
  }

  lemma NamesExtend(commands: seq<Command>, c: Command)
    ensures Names(commands + [c]) == Names(commands) + {c.name}
  {
    var all := commands + [c];
    assert all[|commands|] == c;
    forall i | 0 <= i < |commands| ensures commands[i].name in Names(all) {
      assert all[i] == commands[i];
    }
  }

  function CommandsFrom(items: seq<Json>, done: seq<Command>): Outcome<seq<Command>> {
    if items == [] then Success(done) else
    match ParseCommand(items[0], Names(done))
    case Success(command) => CommandsFrom(items[1..], done + [command])
    case Absent => Absent
    case Refused(code) => Refused(code)
    case Uncaught(error) => Uncaught(error)
  }

  /** `value == 1` in Python: `True` equals 1, and so does a decimal that rounds to the binary64 number 1,
      which reaches half a unit in the last place down (2 ** -54) and up (2 ** -53). */
  predicate EqualsOne(v: Option<Json>) {
    match v
    case Some(JInt(n)) => n == 1
    case Some(JBool(b)) => b
    case Some(JFloat(x)) => 1.0 - 1.0 / 18_014_398_509_481_984.0 <= x <= 1.0 + 1.0 / 9_007_199_254_740_992.0
    case _ => false
  }

  function ParsePayload(payload: Json): Outcome<seq<Command>> {
    if !payload.JObject? || Keys(payload.members) != {T("version"), T("commands")}
      then Refused("runner_checkpoint_shape_invalid")
    else if !EqualsOne(Get(payload.members, T("version"))) then Refused("runner_checkpoint_version_invalid")
    else
      var commands := Get(payload.members, T("commands"));
      if commands.None? || !commands.value.JArray? || !(1 <= |commands.value.items| <= 8)
        then Refused("runner_checkpoint_commands_invalid")
      else CommandsFrom(commands.value.items, [])
  }

  /** What a text looks like around its delimiters. */
  datatype Layout = NoBlock | Repeated | Reversed | OneBlock(before: Text, payloadText: Text, after: Text)

  function Split(text: Text, begin: Text, end: Text): Layout
    requires begin != [] && end != []
  {
    if Find(text, begin).None? && Find(text, end).None? then NoBlock
    else if Count(text, begin) != 1 || Count(text, end) != 1 then Repeated
    else SplitBehind(text, Find(text, begin).value, begin, end)
  }

  /** The closing delimiter is looked for behind the opening one. */
  function SplitBehind(text: Text, i: nat, begin: Text, end: Text): Layout
    requires i + |begin| <= |text|
  {
    SplitRemainder(text[..i], text[EndOf(i, begin)..], end)
  }

  function SplitRemainder(before: Text, remainder: Text, end: Text): Layout {
    var j := Find(remainder, end);
    if j.None? then Reversed else OneBlock(before, remainder[..j.value], remainder[EndOf(j.value, end)..])
  }

  /** `parse_runner_checkpoint`. When the closing delimiter stands before the opening one, unpacking the split fails. */
  function Parse(text: Text): Outcome<seq<Command>> {
    match Split(text, BEGIN, END)
    case NoBlock => Absent
    case Repeated => Refused("runner_checkpoint_delimiter_invalid")
    case Reversed => Uncaught(VALUE_ERROR)
    case OneBlock(before, payloadText, after) => Judge(before, payloadText, after)
  }

  /** A text with one block: what stands before, in and behind it. */
  function Judge(before: Text, payloadText: Text, after: Text): Outcome<seq<Command>> {
    if !Blank(before) || !Blank(after) then Refused("runner_checkpoint_must_be_standalone")
    else
      match Loads(payloadText)
      case Bad => Refused("runner_checkpoint_json_invalid")
      case Overlong => Uncaught(VALUE_ERROR)
      case Yes(payload, _) => ParsePayload(payload)
  }

  // ---- The canonical form

  function Strings(argv: seq<Text>): seq<Json> {
    seq(|argv|, i requires 0 <= i < |argv| => JString(argv[i]))
  }

  function CommandJsons(commands: seq<Command>): seq<Json> {
    seq(|commands|, i requires 0 <= i < |commands| => CommandJson(commands[i]))
  }

  /** The keys in ascending order, as `sort_keys` writes them. */
  function CommandJson(c: Command): Json {
    JObject([Member(T("argv"), JArray(Strings(c.argv))),
             Member(T("label"), JString(c.name)),
             Member(T("timeout_seconds"), JInt(c.timeoutSeconds))])
  }

  function CheckpointJson(commands: seq<Command>): Json {
    JObject([Member(T("commands"), JArray(CommandJsons(commands))),
             Member(T("version"), JInt(1))])
  }

  /** The checkpoint written out between its delimiters, as the format repair prompt asks for it. */
  function Block(commands: seq<Command>): Text
    requires Printable(CheckpointJson(commands))
  {
    BEGIN + [10] + Print(CheckpointJson(commands)) + [10] + END
  }

  predicate ValidArgv(argv: seq<Text>) {
    && 1 <= |argv| <= 64
    && (forall i :: 0 <= i < |argv| ==> ValidArgument(argv[i]) && Encodable(argv[i]))
    && TotalBytes(argv) <= MAX_BYTES
  }

  function TotalBytes(argv: seq<Text>): nat {
    if argv == [] then 0 else TotalBytes(argv[..|argv| - 1]) + ByteLength(argv[|argv| - 1])
  }

  predicate ValidCommand(c: Command) {
    ValidName(c.name) && ValidArgv(c.argv) && 1 <= c.timeoutSeconds <= 900
  }

  /** What an accepted checkpoint holds. */
  predicate ValidCommands(commands: seq<Command>) {
    && 1 <= |commands| <= 8
    && (forall i :: 0 <= i < |commands| ==> ValidCommand(commands[i]))
    && (forall i, j :: 0 <= i < j < |commands| ==> commands[i].name != commands[j].name)
  }

  // ---- The gate digest

  /** Canonical UUID text. */
  predicate IsUuid(t: Text) {
    |t| == 36 && forall i :: 0 <= i < 36 ==> if i == 8 || i == 13 || i == 18 || i == 23 then t[i] == 45
                                               else IsHexCode(t[i])
  }

  predicate IsHexCode(c: Code) {
    48 <= c <= 57 || 97 <= c <= 102
  }

  predicate IsSnapshot(t: Text) {
    |t| == 64 && forall i :: 0 <= i < 64 ==> IsHexCode(t[i])
  }

  function Material(execution: Text, message: Text, snapshot: Text, commands: seq<Command>): Text
    requires Printable(CheckpointJson(commands))
  {
    execution + [0] + message + [0] + snapshot + [0] + Print(CheckpointJson(commands))
  }

  /** `runner_checkpoint_digest`, for the key of an execution row. */
  function GateDigest(execution: Text, message: Text, snapshot: Text, commands: seq<Command>): Outcome<TextDigest>
    requires IsUuid(execution) && Printable(CheckpointJson(commands))
  {
    if message == [] || |message| > 160 then Refused("runner_checkpoint_identity_invalid")
    else if !IsSnapshot(snapshot) then Refused("runner_checkpoint_snapshot_invalid")
    else if !Encodable(message) then Uncaught(ENCODE_ERROR)
    else Success(Sha256Of(Material(execution, message, snapshot, commands)))
  }

  // ---- The program's loops

  /** `_validate_argv`. */
  method ValidateArgv(v: Option<Json>) returns (r: Outcome<seq<Text>>)
    ensures r == Argv(v)
  {
    if v.None? || !v.value.JArray? || !(1 <= |v.value.items| <= 64) {
      return Refused("runner_checkpoint_argv_invalid");
    }
    var items := v.value.items;
    var result: seq<Text>, total: nat := [], 0;
    for k := 0 to |items|
      invariant Argv(v) == ArgvFrom(items[k..], result, total)
    {
      var item := items[k];
      if !item.JString? || item.text == [] || |item.text| > 4096 || 0 in item.text {
        return Refused("runner_checkpoint_argv_invalid");
      }
      if !Encodable(item.text) {
        return Uncaught(ENCODE_ERROR);
      }
      total := total + ByteLength(item.text);
      if total > MAX_BYTES {
        return Refused("runner_checkpoint_argv_too_large");
      }
      result := result + [item.text];
      assert items[k..][1..] == items[k + 1..];
    }
    return Success(result);
  }

  /** `parse_runner_checkpoint`. */
  method ParseRunnerCheckpoint(text: Text) returns (r: Outcome<seq<Command>>)
    ensures r == Parse(text)
  {
    var layout := FindBlock(text, BEGIN, END);
    match layout
    case NoBlock => r := Absent;
    case Repeated => r := Refused("runner_checkpoint_delimiter_invalid");
    case Reversed => r := Uncaught(VALUE_ERROR);
    case OneBlock(before, payloadText, after) => r := JudgeBlock(before, payloadText, after);
  }

  method FindBlock(text: Text, begin: Text, end: Text) returns (layout: Layout)
    requires begin != [] && end != []
    ensures layout == Split(text, begin, end)
  {
    var i, j := Find(text, begin), Find(text, end);
    if i.None? && j.None? {
      return NoBlock;
    }
    if Count(text, begin) != 1 || Count(text, end) != 1 {
      return Repeated;
    }
    var before, remainder := text[..i.value], text[EndOf(i.value, begin)..];
    var close := Find(remainder, end);
    if close.None? {
      return Reversed;
    }
    return OneBlock(before, remainder[..close.value], remainder[EndOf(close.value, end)..]);
  }

  method JudgeBlock(before: Text, payloadText: Text, after: Text) returns (r: Outcome<seq<Command>>)
    ensures r == Judge(before, payloadText, after)
  {
    if !Blank(before) || !Blank(after) {
      return Refused("runner_checkpoint_must_be_standalone");
    }
    var loaded := Loads(payloadText);
    if loaded.Bad? {
      return Refused("runner_checkpoint_json_invalid");
    }
    if loaded.Overlong? {
      return Uncaught(VALUE_ERROR);
    }
    r := ValidatePayload(loaded.value);
  }

  method ValidatePayload(payload: Json) returns (r: Outcome<seq<Command>>)
    ensures r == ParsePayload(payload)
  {
    if !payload.JObject? || Keys(payload.members) != {T("version"), T("commands")} {
      return Refused("runner_checkpoint_shape_invalid");
    }
    if !EqualsOne(Get(payload.members, T("version"))) {
      return Refused("runner_checkpoint_version_invalid");
    }
    var raw := Get(payload.members, T("commands"));
    if raw.None? || !raw.value.JArray? || !(1 <= |raw.value.items| <= 8) {
      return Refused("runner_checkpoint_commands_invalid");
    }
    var items := raw.value.items;
    var commands: seq<Command> := [];
    var labels: set<Text> := {};
    for k := 0 to |items|
      invariant ParsePayload(payload) == CommandsFrom(items[k..], commands)
      invariant labels == Names(commands)
    {
      var item := items[k];
      assert items[k..][1..] == items[k + 1..];
      if !item.JObject? || Keys(item.members) != {T("label"), T("argv"), T("timeout_seconds")} {
        return Refused("runner_checkpoint_command_shape_invalid");
      }
      var name, timeout := Get(item.members, T("label")), Get(item.members, T("timeout_seconds"));
      if name.None? || !name.value.JString? || !ValidName(name.value.text) || name.value.text in labels {
        return Refused("runner_checkpoint_label_invalid");
      }
      if timeout.None? || !timeout.value.JInt? || !(1 <= timeout.value.n <= 900) {
        return Refused("runner_checkpoint_timeout_invalid");
      }
      var argv := ValidateArgv(Get(item.members, T("argv")));
      match argv {
        case Refused(code) => return Refused(code);
        case Uncaught(error) => return Uncaught(error);
        case Absent => return Absent;
        case Success(arguments) =>
          NamesExtend(commands, Command(name.value.text, arguments, timeout.value.n));
          labels := labels + {name.value.text};
          commands := commands + [Command(name.value.text, arguments, timeout.value.n)];
      }
    }
    return Success(commands);
  }
}
