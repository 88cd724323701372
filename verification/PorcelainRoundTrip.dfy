/** The status parser gives back exactly the paths git printed, and an inspection with one artifact per
    path is accepted. */
module PorcelainRoundTrip {
  import opened Prelude
  import opened Json
  import opened Orders
  import opened Porcelain
  import Utf8

  /** A path as git prints it for a file. */
  predicate IsFilePath(t: Text) {
    && Encodable(t) && 0 !in t && |Utf8.Encode(t)| <= 4096
    && forall k :: 0 <= k < |Split(t, 47)| ==> Split(t, 47)[k] != [] && Split(t, 47)[k] != [46]
                                               && Split(t, 47)[k] != [46, 46]
  }

  lemma {:induction false} JoinSplits(t: Text, c: Code)
    ensures Join(Split(t, c), c) == t
  {
    if t != [] {
      JoinSplits(t[1..], c);
      var rest := Split(t[1..], c);
      assert t == [t[0]] + t[1..];
      if t[0] == c {
        assert ([[]] + rest)[1..] == rest;
        assert [] + [c] + t[1..] == t;
      } else if |rest| > 1 {
        assert ([[t[0]] + rest[0]] + rest[1..])[1..] == rest[1..];
        assert ([t[0]] + rest[0]) + [c] + Join(rest[1..], c) == [t[0]] + (rest[0] + [c] + Join(rest[1..], c));
      }
    }
  }

  lemma {:induction false} ComponentsKeep(parts: seq<Text>)
    requires forall k :: 0 <= k < |parts| ==> parts[k] != [] && parts[k] != [46]
    ensures Components(parts) == parts
  {
    if parts != [] {
      ComponentsKeep(parts[1..]);
      assert [parts[0]] + parts[1..] == parts;
    }
  }

  /** A path that starts or ends with the separator has an empty component there. */
  lemma {:induction false} SplitEnds(t: Text, c: Code)
    requires t != []
    ensures t[0] == c ==> Split(t, c)[0] == []
    ensures t[|t| - 1] == c ==> |Split(t, c)| >= 2 && Split(t, c)[|Split(t, c)| - 1] == []
  {
    if |t| > 1 {
      assert t[1..][|t| - 2] == t[|t| - 1];
      SplitEnds(t[1..], c);
    }
  }

  /** A path git prints for a file is accepted as it stands. */
  lemma FilePathIsNormal(t: Text)
    requires IsFilePath(t)
    ensures Normalize(t) == Some(t)
  {
    if t != [] {
      SplitEnds(t, 47);
    }
    ComponentsKeep(Split(t, 47));
    JoinSplits(t, 47);
  }

  lemma FilePathReads(t: Text)
    requires IsFilePath(t)
    ensures PathOf(Utf8.Encode(t)) == Some(t) && 0 !in Utf8.Encode(t) && Utf8.Encode(t) != []
  {
    FilePathIsNormal(t);
    Utf8.DecodesBack(t);
    Utf8.NoNulByte(t);
  }

  // ---- What git prints

  /** One status entry: the two status letters, the path, and for a rename or copy the original path. */
  datatype Status = Status(x: Byte, y: Byte, path: Text, from: Option<Text>)

  predicate ValidStatus(e: Status) {
    e.x != 0 && e.y != 0 && IsFilePath(e.path) && (e.from.Some? <==> Renames(e.x))
        && (e.from.Some? ==> IsFilePath(e.from.value))
  }

  function Head(e: Status): Bytes {
    [e.x, e.y, 32] + Utf8.Encode(e.path)
  }

  function EncodeEntry(e: Status): Bytes {
    Head(e) + [0] + (if e.from.Some? then Utf8.Encode(e.from.value) + [0] else [])
  }

  function EntryRecords(e: Status): seq<Bytes> {
    if e.from.Some? then [Head(e), Utf8.Encode(e.from.value)] else [Head(e)]
  }

  function EntryPaths(e: Status): seq<Text> {
    if e.from.Some? then [e.path, e.from.value] else [e.path]
  }

  function EncodeStatus(es: seq<Status>): Bytes {
    if es == [] then [] else EncodeEntry(es[0]) + EncodeStatus(es[1..])
  }

  function RecordsOf(es: seq<Status>): seq<Bytes> {
    if es == [] then [] else EntryRecords(es[0]) + RecordsOf(es[1..])
  }

  function PathsOf(es: seq<Status>): seq<Text> {
    if es == [] then [] else EntryPaths(es[0]) + PathsOf(es[1..])
  }

  lemma {:induction false} UpToSeparator(a: Bytes, rest: Bytes)
    requires 0 !in a
    ensures UpToNul(a + [0] + rest) == |a|
  {
    if a == [] {
      assert a + [0] + rest == [0] + rest;
    } else {
      UpToSeparator(a[1..], rest);
      assert (a + [0] + rest)[1..] == a[1..] + [0] + rest;
    }
  }

  lemma RecordSplitsOff(a: Bytes, rest: Bytes)
    requires a != [] && 0 !in a
    ensures Records(a + [0] + rest) == [a] + Records(rest)
  {
    UpToSeparator(a, rest);
    assert (a + [0] + rest)[..|a|] == a && (a + [0] + rest)[|a| + 1..] == rest;
  }

  lemma HeadReads(e: Status)
    requires IsFilePath(e.path)
    ensures |Head(e)| >= 3 && Head(e)[0] == e.x && StatusPath(Head(e)) == Some(e.path)
    ensures e.x != 0 && e.y != 0 ==> 0 !in Head(e)
  {
    FilePathReads(e.path);
    assert Head(e)[3..] == Utf8.Encode(e.path);
  }

  lemma Regroup(a: Bytes, b: Bytes, rest: Bytes)
    ensures (a + [0] + (b + [0])) + rest == a + [0] + (b + [0] + rest)
    ensures (a + [0] + []) + rest == a + [0] + rest
  {
  }

  lemma EntrySplitsOff(e: Status, rest: Bytes)
    requires ValidStatus(e)
    ensures Records(EncodeEntry(e) + rest) == EntryRecords(e) + Records(rest)
  {
    HeadReads(e);
    if e.from.Some? {
      var from := Utf8.Encode(e.from.value);
      FilePathReads(e.from.value);
      TwoRecords(Head(e), from, rest);
      Regroup(Head(e), from, rest);
    } else {
      RecordSplitsOff(Head(e), rest);
      Regroup(Head(e), [], rest);
    }
  }

  lemma TwoRecords(a: Bytes, b: Bytes, rest: Bytes)
    requires a != [] && b != [] && 0 !in a && 0 !in b
    ensures Records(a + [0] + (b + [0] + rest)) == [a, b] + Records(rest)
  {
    RecordSplitsOff(a, b + [0] + rest);
    RecordSplitsOff(b, rest);
    assert [a] + ([b] + Records(rest)) == [a, b] + Records(rest);
  }

  lemma {:induction false} RecordsReadBack(es: seq<Status>, rest: Bytes)
    requires forall i :: 0 <= i < |es| ==> ValidStatus(es[i])
    ensures Records(EncodeStatus(es) + rest) == RecordsOf(es) + Records(rest)
  {
    if es == [] {
      assert EncodeStatus(es) + rest == rest && RecordsOf(es) + Records(rest) == Records(rest);
    } else {
      RecordsReadBack(es[1..], rest);
      EntryInFront(es[0], EncodeStatus(es[1..]), RecordsOf(es[1..]), rest);
    }
  }

  lemma EntryInFront(e: Status, tail: Bytes, records: seq<Bytes>, rest: Bytes)
    requires ValidStatus(e) && Records(tail + rest) == records + Records(rest)
    ensures Records(EncodeEntry(e) + tail + rest) == EntryRecords(e) + records + Records(rest)
  {
    EntrySplitsOff(e, tail + rest);
    Assoc(EncodeEntry(e), tail, rest);
    Assoc(EntryRecords(e), records, Records(rest));
  }

  lemma Assoc<T>(a: seq<T>, b: seq<T>, c: seq<T>)
    ensures a + b + c == a + (b + c)
  {
  }

  lemma EntryReads(e: Status, rest: seq<Bytes>, changed: seq<Text>)
    requires ValidStatus(e)
    ensures ChangedFrom(EntryRecords(e) + rest, changed) == ChangedFrom(rest, changed + EntryPaths(e))
  {
    HeadReads(e);
    var all := EntryRecords(e) + rest;
    assert all[0] == Head(e);
    if e.from.Some? {
      FilePathReads(e.from.value);
      assert all[1] == Utf8.Encode(e.from.value) && all[2..] == rest;
      assert changed + [e.path] + [e.from.value] == changed + EntryPaths(e);
    } else {
      assert all[1..] == rest;
    }
  }

  /** The parser collects the paths of the entries, in order, and goes on behind them. */
  lemma {:induction false} EntriesRead(es: seq<Status>, rest: seq<Bytes>, changed: seq<Text>)
    requires forall i :: 0 <= i < |es| ==> ValidStatus(es[i])
    ensures ChangedFrom(RecordsOf(es) + rest, changed) == ChangedFrom(rest, changed + PathsOf(es))
  {
    if es == [] {
      assert RecordsOf(es) + rest == rest && changed + PathsOf(es) == changed;
    } else {
      var tail := RecordsOf(es[1..]);
      EntryReads(es[0], tail + rest, changed);
      EntriesRead(es[1..], rest, changed + EntryPaths(es[0]));
      Assoc(EntryRecords(es[0]), tail, rest);
      Assoc(changed, EntryPaths(es[0]), PathsOf(es[1..]));
    }
  }

  /** Parsing what git printed gives exactly the sorted, duplicate-free set of its paths, provided renames and copies
      appear in the first status column only. */
  lemma StatusReadsBack(es: seq<Status>)
    requires forall i :: 0 <= i < |es| ==> ValidStatus(es[i])
    ensures ChangedFiles(EncodeStatus(es)) == Ok(SortedSet(PathsOf(es)))
  {
    RecordsReadBack(es, []);
    EntriesRead(es, [], []);
    assert EncodeStatus(es) + [] == EncodeStatus(es) && Records([]) == [] && [] + PathsOf(es) == PathsOf(es);
  }

  // ---- The result is the set of paths

  lemma {:induction false} BeforeIsIrreflexive(a: Text)
    ensures !TextBefore(a, a)
  {
    if a != [] {
      BeforeIsIrreflexive(a[1..]);
    }
  }

  lemma {:induction false} BeforeIsTotal(a: Text, b: Text)
    requires a != b
    ensures TextBefore(a, b) || TextBefore(b, a)
  {
    if a != [] && b != [] && a[0] == b[0] {
      assert a == [a[0]] + a[1..] && b == [b[0]] + b[1..];
      BeforeIsTotal(a[1..], b[1..]);
    }
  }

  lemma {:induction false} BeforeIsTransitive(a: Text, b: Text, c: Text)
    requires TextBefore(a, b) && TextBefore(b, c)
    ensures TextBefore(a, c)
  {
    if a != [] && a[0] == b[0] == c[0] {
      BeforeIsTransitive(a[1..], b[1..], c[1..]);
    }
  }

  lemma TextOrder()
    ensures TotalOrder(TextBefore)
  {
    forall a: Text ensures !TextBefore(a, a) {
      BeforeIsIrreflexive(a);
    }
    forall a: Text, b: Text | a != b ensures TextBefore(a, b) || TextBefore(b, a) {
      BeforeIsTotal(a, b);
    }
    forall a: Text, b: Text, c: Text | TextBefore(a, b) && TextBefore(b, c) ensures TextBefore(a, c) {
      BeforeIsTransitive(a, b, c);
    }
  }

  lemma {:induction false} InsertPathSorts(p: Text, sorted: seq<Text>)
    requires Ascending(sorted, TextBefore) && TotalOrder(TextBefore)
    ensures Ascending(InsertPath(p, sorted), TextBefore)
    ensures forall t :: t in InsertPath(p, sorted) <==> t == p || t in sorted
  {
    if sorted != [] {
      assert sorted == [sorted[0]] + sorted[1..];
      if p != sorted[0] && !TextBefore(p, sorted[0]) {
        InsertPathSorts(p, sorted[1..]);
        var rest := InsertPath(p, sorted[1..]);
        forall j | 0 <= j < |rest| ensures TextBefore(sorted[0], rest[j]) {
          assert rest[j] in rest;
          if rest[j] != p {
            var k :| 0 <= k < |sorted[1..]| && sorted[1..][k] == rest[j];
            assert sorted[k + 1] == rest[j];
          }
        }
      }
    }
  }

  /** `tuple(sorted(set(paths)))` ascends strictly and has exactly the paths. */
  lemma {:induction false} SortedSetIsTheSet(paths: seq<Text>)
    ensures Ascending(SortedSet(paths), TextBefore)
    ensures forall t :: t in SortedSet(paths) <==> t in paths
  {
    TextOrder();
    if paths != [] {
      SortedSetIsTheSet(paths[1..]);
      InsertPathSorts(paths[0], SortedSet(paths[1..]));
      assert paths == [paths[0]] + paths[1..];
    }
  }

  // ---- Where the parser is wrong

  /** One rename entry as git prints it, whichever column the letter is in. */
  function RenameRecord(x: Byte, y: Byte, path: Text, from: Text): Bytes {
    [x, y, 32] + Utf8.Encode(path) + [0] + (Utf8.Encode(from) + [0] + [])
  }

  lemma RenameRecords(x: Byte, y: Byte, path: Text, from: Text)
    requires x != 0 && y != 0 && IsFilePath(path) && IsFilePath(from)
    ensures Records(RenameRecord(x, y, path, from)) == [Head(Status(x, y, path, None)), Utf8.Encode(from)]
    ensures StatusPath(Head(Status(x, y, path, None))) == Some(path) && Head(Status(x, y, path, None))[0] == x
  {
    HeadReads(Status(x, y, path, None));
    FilePathReads(from);
    TwoRecords(Head(Status(x, y, path, None)), Utf8.Encode(from), []);
    assert Records([]) == [];
  }

  lemma MisreadPath(from: Text)
    requires IsFilePath(from) && StatusPath(Utf8.Encode(from)).Some?
    ensures StatusPath(Utf8.Encode(from)) != Some(from)
  {
    Utf8.DecodedLength(Utf8.Encode(from)[3..]);
  }

  lemma PairsDiffer(p: Text, f: Text, g: Text)
    requires f != p && f != g
    ensures SortedSet([p, g]) != SortedSet([p, f])
  {
    SortedSetIsTheSet([p, g]);
    SortedSetIsTheSet([p, f]);
    assert f in [p, f] && f !in [p, g];
  }

  lemma LastReads(last: Bytes, changed: seq<Text>)
    ensures ChangedFrom([last], changed).Ok? ==>
              StatusPath(last).Some? && !Renames(last[0])
                  && ChangedFrom([last], changed) == Ok(changed + [StatusPath(last).value])
  {
    var one := [last];
    assert |one[1..]| == 0;
  }

  lemma PairReads(p: Text, first: Bytes, second: Bytes)
    requires StatusPath(first) == Some(p)
    ensures Renames(first[0]) && PathOf(second).Some?
            ==> ChangedFrom([first, second], []) == Ok([p, PathOf(second).value])
    ensures !Renames(first[0]) && ChangedFrom([first, second], []).Ok? ==>
              StatusPath(second).Some? && ChangedFrom([first, second], []) == Ok([p, StatusPath(second).value])
  {
    var both, none: seq<Text> := [first, second], [];
    assert both[1..] == [second] && both[2..] == [];
    assert none + [p] == [p];
    LastReads(second, [p]);
    if PathOf(second).Some? {
      assert [p] + [PathOf(second).value] == [p, PathOf(second).value];
    }
    if StatusPath(second).Some? {
      assert [p] + [StatusPath(second).value] == [p, StatusPath(second).value];
    }
  }

  /** A rename is read correctly exactly when its letter stands in the first status column. */
  lemma RenameReadsExactlyInFirstColumn(x: Byte, y: Byte, path: Text, from: Text)
    requires x != 0 && y != 0 && IsFilePath(path) && IsFilePath(from) && path != from
    ensures ChangedFiles(RenameRecord(x, y, path, from)) == Ok(SortedSet([path, from])) <==> Renames(x)
  {
    RenameRecords(x, y, path, from);
    FilePathReads(from);
    var first, second := Head(Status(x, y, path, None)), Utf8.Encode(from);
    PairReads(path, first, second);
    if !Renames(x) && ChangedFrom([first, second], []).Ok? {
      MisreadPath(from);
      PairsDiffer(path, from, StatusPath(second).value);
    }
  }

  /** A path as git prints it for a directory, with a trailing slash. */
  predicate IsDirectoryPath(t: Text) {
    Encodable(t) && 0 !in t && t != [] && t[|t| - 1] == 47
  }

  /** An entry of files and directories, with renames and copies in the first column. */
  predicate Printed(e: Status) {
    && e.x != 0 && e.y != 0 && (e.from.Some? <==> Renames(e.x))
    && forall t :: t in EntryPaths(e) ==> IsFilePath(t) || IsDirectoryPath(t)
  }

  lemma DirectoryPathIsRefused(t: Text)
    requires IsDirectoryPath(t)
    ensures PathOf(Utf8.Encode(t)).None? && 0 !in Utf8.Encode(t) && !IsFilePath(t)
  {
    Utf8.DecodesBack(t);
    Utf8.NoNulByte(t);
    SplitEnds(t, 47);
  }

  /** The record of a path, whether or not the parser accepts it. */
  lemma PrintedPath(t: Text)
    requires IsFilePath(t) || IsDirectoryPath(t)
    ensures 0 !in Utf8.Encode(t) && Utf8.Encode(t) != [] && PathOf(Utf8.Encode(t)) ==
            if IsFilePath(t) then Some(t) else None
  {
    if IsFilePath(t) {
      FilePathReads(t);
    } else {
      DirectoryPathIsRefused(t);
    }
  }

  lemma PrintedEntrySplitsOff(e: Status, rest: Bytes)
    requires Printed(e)
    ensures Records(EncodeEntry(e) + rest) == EntryRecords(e) + Records(rest)
  {
    assert e.path in EntryPaths(e);
    PrintedPath(e.path);
    if e.from.Some? {
      var from := Utf8.Encode(e.from.value);
      assert e.from.value in EntryPaths(e);
      PrintedPath(e.from.value);
      TwoRecords(Head(e), from, rest);
      Regroup(Head(e), from, rest);
    } else {
      RecordSplitsOff(Head(e), rest);
      Regroup(Head(e), [], rest);
    }
  }

  lemma EntryIsRefused(e: Status, rest: seq<Bytes>, changed: seq<Text>)
    requires Printed(e) && !ValidStatus(e)
    ensures ChangedFrom(EntryRecords(e) + rest, changed) == Err(INVALID_STATUS)
  {
    var all := EntryRecords(e) + rest;
    assert e.path in EntryPaths(e) && all[0] == Head(e) && Head(e)[3..] == Utf8.Encode(e.path);
    PrintedPath(e.path);
    if e.from.Some? {
      assert e.from.value in EntryPaths(e) && all[1] == Utf8.Encode(e.from.value);
      PrintedPath(e.from.value);
    }
  }

  lemma {:induction false} DirectoryIsRefused(es: seq<Status>, changed: seq<Text>)
    requires forall i :: 0 <= i < |es| ==> Printed(es[i])
    requires exists i :: 0 <= i < |es| && !ValidStatus(es[i])
    ensures ChangedFrom(Records(EncodeStatus(es)), changed) == Err(INVALID_STATUS)
  {
    var rest := Records(EncodeStatus(es[1..]));
    PrintedEntrySplitsOff(es[0], EncodeStatus(es[1..]));
    if ValidStatus(es[0]) {
      var i :| 0 <= i < |es| && !ValidStatus(es[i]);
      assert es[1..][i - 1] == es[i];
      EntryReads(es[0], rest, changed);
      DirectoryIsRefused(es[1..], changed + EntryPaths(es[0]));
    } else {
      EntryIsRefused(es[0], rest, changed);
    }
  }

  lemma {:induction false} InvalidNamesDirectory(es: seq<Status>)
    requires forall i :: 0 <= i < |es| ==> Printed(es[i])
    ensures (exists t :: t in PathsOf(es) && IsDirectoryPath(t)) <==> exists i :: 0 <= i < |es| && !ValidStatus(es[i])
  {
    if es != [] {
      InvalidNamesDirectory(es[1..]);
      EntryIsInvalid(es[0]);
      assert forall i :: 0 < i < |es| ==> es[1..][i - 1] == es[i];
      if exists i :: 0 <= i < |es[1..]| && !ValidStatus(es[1..][i]) {
        var i :| 0 <= i < |es[1..]| && !ValidStatus(es[1..][i]);
        assert !ValidStatus(es[i + 1]);
      }
    }
  }

  lemma EntryIsInvalid(e: Status)
    requires Printed(e)
    ensures (exists t :: t in EntryPaths(e) && IsDirectoryPath(t)) <==> !ValidStatus(e)
  {
    assert e.path in EntryPaths(e);
    if e.from.Some? {
      assert e.from.value in EntryPaths(e);
    }
    forall t | t in EntryPaths(e) && IsDirectoryPath(t) ensures !IsFilePath(t) {
      DirectoryPathIsRefused(t);
    }
  }

  /** A status of files and directories with renames in the first column is refused exactly when one of its paths is a
      directory, as git prints an ignored one; otherwise its paths are read. */
  lemma StatusIsReadExactly(es: seq<Status>)
    requires forall i :: 0 <= i < |es| ==> Printed(es[i])
    ensures ChangedFiles(EncodeStatus(es))
         == if exists t :: t in PathsOf(es) && IsDirectoryPath(t) then Err(INVALID_STATUS)
                           else Ok(SortedSet(PathsOf(es)))
  {
    InvalidNamesDirectory(es);
    if exists i :: 0 <= i < |es| && !ValidStatus(es[i]) {
      DirectoryIsRefused(es, []);
    } else {
      StatusReadsBack(es);
    }
  }

  // ---- The inspection is accepted

  lemma FirstAndRest<A>(s: seq<A>)
    requires s != []
    ensures [s[0]] + s[1..] == s && forall i :: 0 <= i < |s| - 1 ==> s[1..][i] == s[i + 1]
  {
  }

  lemma {:induction false} NormalPathsStay(paths: seq<Text>)
    requires forall i :: 0 <= i < |paths| ==> Normalize(paths[i]) == Some(paths[i])
    ensures NormalizeAll(paths) == Some(paths)
  {
    if paths != [] {
      NormalPathsStay(paths[1..]);
      FirstAndRest(paths);
    }
  }

  lemma {:induction false} NormalArtifactsStay(artifacts: seq<Artifact>)
    requires forall i :: 0 <= i < |artifacts| ==> Normalize(artifacts[i].path) == Some(artifacts[i].path)
                                                  && WellShaped(artifacts[i])
    ensures NormalizeArtifacts(artifacts) == Some(artifacts)
  {
    if artifacts != [] {
      NormalArtifactsStay(artifacts[1..]);
      FirstAndRest(artifacts);
      assert artifacts[0].(path := artifacts[0].path) == artifacts[0];
    }
  }

  lemma AscendsBehind(t: Text, rest: seq<Text>)
    requires Ascending(rest, TextBefore) && forall r :: r in rest ==> TextBefore(t, r)
    ensures Ascending([t] + rest, TextBefore)
  {
  }

  lemma BeforeAll(t: Text, rest: seq<Text>)
    requires TotalOrder(TextBefore) && Ascending(rest, TextBefore) && (rest != [] ==> TextBefore(t, rest[0]))
    ensures forall r :: r in rest ==> TextBefore(t, r)
  {
    forall r | r in rest ensures TextBefore(t, r) {
      var k :| 0 <= k < |rest| && rest[k] == r;
      if k > 0 {
        assert TextBefore(rest[0], rest[k]);
      }
    }
  }

  lemma {:induction false} InsertArtifactSorts(a: Artifact, sorted: seq<Artifact>)
    requires TotalOrder(TextBefore) && Ascending(Paths(sorted), TextBefore) && a.path !in Paths(sorted)
    ensures Ascending(Paths(InsertArtifact(a, sorted)), TextBefore)
    ensures forall t :: t in Paths(InsertArtifact(a, sorted)) <==> t == a.path || t in Paths(sorted)
  {
    assert sorted != [] ==> Paths(sorted)[0] == sorted[0].path && sorted[0].path in Paths(sorted);
    if sorted == [] || !TextBefore(sorted[0].path, a.path) {
      PathsPrepend(a, sorted);
      BeforeAll(a.path, Paths(sorted));
      AscendsBehind(a.path, Paths(sorted));
    } else {
      var tail := sorted[1..];
      assert sorted == [sorted[0]] + tail;
      PathsPrepend(sorted[0], tail);
      assert Paths(sorted)[1..] == Paths(tail);
      BeforeAll(sorted[0].path, Paths(tail));
      InsertArtifactSorts(a, tail);
      PathsPrepend(sorted[0], InsertArtifact(a, tail));
      AscendsBehind(sorted[0].path, Paths(InsertArtifact(a, tail)));
    }
  }

  lemma PathIsListed(artifacts: seq<Artifact>, i: nat)
    requires i < |artifacts|
    ensures artifacts[i].path in Paths(artifacts)
  {
    assert Paths(artifacts)[i] == artifacts[i].path;
  }

  lemma PathsPrepend(a: Artifact, rest: seq<Artifact>)
    ensures Paths([a] + rest) == [a.path] + Paths(rest)
  {
  }

  lemma {:induction false} SortArtifactsSorts(artifacts: seq<Artifact>)
    requires TotalOrder(TextBefore) && forall i, j :: 0 <= i < j < |artifacts|
                                                      ==> artifacts[i].path != artifacts[j].path
    ensures Ascending(Paths(SortArtifacts(artifacts)), TextBefore)
    ensures forall t :: t in Paths(SortArtifacts(artifacts)) <==> t in Paths(artifacts)
  {
    if artifacts != [] {
      var tail := artifacts[1..];
      assert artifacts == [artifacts[0]] + tail;
      PathsPrepend(artifacts[0], tail);
      assert artifacts[0].path !in Paths(tail) by {
        assert forall k :: 0 <= k < |tail| ==> tail[k] == artifacts[k + 1];
      }
      SortArtifactsSorts(tail);
      InsertArtifactSorts(artifacts[0], SortArtifacts(tail));
    }
  }

  /** One artifact for each of the changed paths, in any order. */
  predicate OnePerPath(changed: seq<Text>, artifacts: seq<Artifact>) {
    && (forall i, j :: 0 <= i < j < |artifacts| ==> artifacts[i].path != artifacts[j].path)
    && (forall t :: t in Paths(artifacts) ==> t in changed)
    && (forall t :: t in changed ==> t in Paths(artifacts))
  }

  /** An inspection with one well-shaped artifact per changed path, in any order, is accepted, and keeps the paths
      the status was read as. */
  lemma InspectionIsAccepted(es: seq<Status>, r: Result)
    requires forall i :: 0 <= i < |es| ==> ValidStatus(es[i])
    requires ChangedFiles(EncodeStatus(es)) == Ok(r.changed)
    requires NormalizeCommit(r.head).Some? && NormalizeCommit(r.tree).Some? && IsHex64(r.changeDigest)
    requires r.count == |Records(EncodeStatus(es))| && r.hasChanges == (Records(EncodeStatus(es)) != [])
    requires OnePerPath(r.changed, r.artifacts) && forall i :: 0 <= i < |r.artifacts| ==> WellShaped(r.artifacts[i])
    ensures Validated(r).Ok? && Validated(r).value.changed == r.changed == Paths(Validated(r).value.artifacts)
  {
    StatusReadsBack(es);
    SortedSetIsTheSet(PathsOf(es));
    PathsAreNormal(es);
    NormalPathsStay(r.changed);
    forall i | 0 <= i < |r.artifacts| ensures Normalize(r.artifacts[i].path) == Some(r.artifacts[i].path) {
      PathIsListed(r.artifacts, i);
    }
    NormalArtifactsStay(r.artifacts);
    ArtifactsMatch(r.changed, r.artifacts);
  }

  lemma ArtifactsMatch(changed: seq<Text>, artifacts: seq<Artifact>)
    requires Ascending(changed, TextBefore) && OnePerPath(changed, artifacts)
    ensures SortedSet(changed) == changed == Paths(SortArtifacts(artifacts))
  {
    TextOrder();
    SortedSetIsTheSet(changed);
    AscendingAgree(SortedSet(changed), changed, TextBefore);
    SortArtifactsSorts(artifacts);
    AscendingAgree(Paths(SortArtifacts(artifacts)), changed, TextBefore);
  }

  lemma {:induction false} PathsAreNormal(es: seq<Status>)
    requires forall i :: 0 <= i < |es| ==> ValidStatus(es[i])
    ensures forall t :: t in PathsOf(es) ==> Normalize(t) == Some(t)
  {
    if es != [] {
      PathsAreNormal(es[1..]);
      FilePathIsNormal(es[0].path);
      if es[0].from.Some? {
        FilePathIsNormal(es[0].from.value);
      }
    }
  }
}
