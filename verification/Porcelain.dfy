/** Reading `git status --porcelain=v1 -z` and validating the inspection built from it (`workspace_manager.py`). */
module Porcelain {
  import opened Prelude
  import opened Json
  import Utf8

  const INVALID_STATUS := "workspace_status_invalid"
  const INVALID_RESULT := "workspace_inspection_result_invalid"

  datatype Outcome<+A> = Ok(value: A) | Err(code: string)

  // ---- Relative paths

  /** `str.split` on one character. */
  function Split(t: Text, c: Code): (parts: seq<Text>)
    ensures parts != []
  {
    if t == [] then [[]]
    else
      var rest := Split(t[1..], c);
      if t[0] == c then [[]] + rest else [[t[0]] + rest[0]] + rest[1..]
  }

  function Join(parts: seq<Text>, c: Code): Text {
    if parts == [] then [] else if |parts| == 1 then parts[0] else parts[0] + [c] + Join(parts[1..], c)
  }

  /** The components `PurePosixPath` keeps. */
  function Components(parts: seq<Text>): seq<Text> {
    if parts == [] then []
    else (if parts[0] == [] || parts[0] == [46] then [] else [parts[0]]) + Components(parts[1..])
  }

  /** `str(validate_relative_git_path(raw))`; None when the path is refused. */
  function Normalize(raw: Text): Option<Text> {
    if raw == [] || raw[0] == 47 || raw[|raw| - 1] == 47 || |Utf8.Encode(raw)| > 4096
        || [46, 46] in Components(Split(raw, 47)) then None
    else if Components(Split(raw, 47)) == [] then Some([46])
    else Some(Join(Components(Split(raw, 47)), 47))
  }

  // ---- The order of paths

  /** Python compares strings by code points. */
  predicate TextBefore(a: Text, b: Text) {
    if b == [] then false
    else if a == [] then true
    else a[0] < b[0] || (a[0] == b[0] && TextBefore(a[1..], b[1..]))
  }

  function InsertPath(p: Text, sorted: seq<Text>): seq<Text> {
    if sorted == [] then [p]
    else if p == sorted[0] then sorted
    else if TextBefore(p, sorted[0]) then [p] + sorted
    else [sorted[0]] + InsertPath(p, sorted[1..])
  }

  /** `tuple(sorted(set(paths)))`. */
  function SortedSet(paths: seq<Text>): seq<Text> {
    if paths == [] then [] else InsertPath(paths[0], SortedSet(paths[1..]))
  }

  // ---- `_changed_files_from_porcelain`

  /** `raw.split(b"\0")` without the empty records. */
  function Records(raw: Bytes): seq<Bytes> {
    if raw == [] then []
    else
      var n := UpToNul(raw);
      var rest := if n < |raw| then Records(raw[n + 1..]) else [];
      if n == 0 then rest else [raw[..n]] + rest
  }

  function UpToNul(raw: Bytes): (n: nat)
    ensures n <= |raw| && 0 !in raw[..n] && (n < |raw| ==> raw[n] == 0)
  {
    if raw == [] || raw[0] == 0 then 0
    else
      var n := 1 + UpToNul(raw[1..]);
      assert raw[..n] == [raw[0]] + raw[1..][..n - 1];
      n
  }

  /** The decoded path of a record, if it is a valid one. */
  function PathOf(b: Bytes): Option<Text> {
    match Utf8.Decode(b)
    case Some(t) => if Normalize(t).Some? then Some(t) else None
    case None => None
  }

  predicate Renames(x: Byte) {
    x == 82 || x == 67
  }

  /** The path of a status record: two status letters, a space, the path. */
  function StatusPath(record: Bytes): Option<Text> {
    if |record| < 3 || record[2] != 32 then None else PathOf(record[3..])
  }

  /** Collect the paths of the records still to be read. */
  function ChangedFrom(records: seq<Bytes>, changed: seq<Text>): Outcome<seq<Text>>
    decreases |records|
  {
    if records == [] then Ok(changed)
    else if StatusPath(records[0]).None? then Err(INVALID_STATUS)
    else
      var here := changed + [StatusPath(records[0]).value];
      if !Renames(records[0][0]) then ChangedFrom(records[1..], here)
      else if |records| == 1 || PathOf(records[1]).None? then Err(INVALID_STATUS)
      else ChangedFrom(records[2..], here + [PathOf(records[1]).value])
  }

  function ChangedFiles(raw: Bytes): Outcome<seq<Text>> {
    match ChangedFrom(Records(raw), [])
    case Ok(paths) => Ok(SortedSet(paths))
    case Err(code) => Err(code)
  }

  lemma SuffixSteps(records: seq<Bytes>, index: nat)
    requires index < |records|
    ensures records[index..] != [] && records[index..][0] == records[index]
            && records[index..][1..] == records[index + 1..]
    ensures index + 1 < |records| ==> |records[index..]| > 1 && records[index..][1] == records[index + 1]
                                      && records[index..][2..] == records[index + 2..]
  {
  }

  method ChangedFilesFromPorcelain(raw: Bytes) returns (r: Outcome<seq<Text>>)
    ensures r == ChangedFiles(raw)
  {
    var records := Records(raw);
    var changed: seq<Text> := [];
    var index := 0;
    ghost var whole := ChangedFrom(records, []);
    assert records[0..] == records;
    while index < |records|
      invariant 0 <= index <= |records|
      invariant whole == ChangedFrom(records[index..], changed)
    {
      SuffixSteps(records, index);
      var record := records[index];
      if |record| < 3 || record[2] != 32 {
        return Err(INVALID_STATUS);
      }
      var path := PathOf(record[3..]);
      if path.None? {
        return Err(INVALID_STATUS);
      }
      changed := changed + [path.value];
      if Renames(record[0]) {
        index := index + 1;
        if index >= |records| {
          return Err(INVALID_STATUS);
        }
        var renamed := PathOf(records[index]);
        if renamed.None? {
          return Err(INVALID_STATUS);
        }
        changed := changed + [renamed.value];
      }
      index := index + 1;
    }
    return Ok(SortedSet(changed));
  }

  // ---- `_validated_inspection`

  datatype ArtifactKind = FileKind | SymlinkKind | DeletedKind | UnknownKind(text: string)

  datatype Artifact = Artifact(path: Text, kind: ArtifactKind, sha: Option<string>, size: Option<int>)

  datatype Result = Result(head: string, tree: string, changeDigest: string, hasChanges: bool, count: int,
                           changed: seq<Text>, artifacts: seq<Artifact>)

  predicate WellShaped(a: Artifact) {
    match a.kind
    case DeletedKind => a.sha.None? && a.size.None?
    case UnknownKind(_) => false
    case _ => a.sha.Some? && IsHex64(a.sha.value) && a.size.Some? && a.size.value >= 0
  }

  /** Normalize every path; None if one is refused. */
  function NormalizeAll(paths: seq<Text>): Option<seq<Text>> {
    if paths == [] then Some([])
    else
      var rest := NormalizeAll(paths[1..]);
      if Normalize(paths[0]).None? || rest.None? then None else Some([Normalize(paths[0]).value] + rest.value)
  }

  function NormalizeArtifacts(artifacts: seq<Artifact>): Option<seq<Artifact>> {
    if artifacts == [] then Some([])
    else
      var a, rest := artifacts[0], NormalizeArtifacts(artifacts[1..]);
      if Normalize(a.path).None? || !WellShaped(a) || rest.None? then None
        else Some([a.(path := Normalize(a.path).value)] + rest.value)
  }

  function InsertArtifact(a: Artifact, sorted: seq<Artifact>): seq<Artifact> {
    if sorted == [] || !TextBefore(sorted[0].path, a.path) then [a] + sorted
      else [sorted[0]] + InsertArtifact(a, sorted[1..])
  }

  /** `sorted(artifacts, key=path)`. */
  function SortArtifacts(artifacts: seq<Artifact>): seq<Artifact> {
    if artifacts == [] then [] else InsertArtifact(artifacts[0], SortArtifacts(artifacts[1..]))
  }

  function Paths(artifacts: seq<Artifact>): seq<Text> {
    seq(|artifacts|, i requires 0 <= i < |artifacts| => artifacts[i].path)
  }

  /** The checks on everything but the paths. */
  predicate SoundSummary(r: Result) {
    r.count >= 0 && r.hasChanges == (r.count > 0) && IsHex64(r.changeDigest)
  }

  function Validated(r: Result): Outcome<Result> {
    if NormalizeCommit(r.head).None? then Err("current_head_commit_invalid")
    else if NormalizeCommit(r.tree).None? then Err("current_tree_invalid")
    else if !SoundSummary(r) || NormalizeAll(r.changed).None? || NormalizeArtifacts(r.artifacts).None?
           then Err(INVALID_RESULT)
    else
      var changed := SortedSet(NormalizeAll(r.changed).value);
      var artifacts := SortArtifacts(NormalizeArtifacts(r.artifacts).value);
      if Paths(artifacts) != changed then Err(INVALID_RESULT)
      else Ok(r.(head := NormalizeCommit(r.head).value, tree := NormalizeCommit(r.tree).value, changed := changed,
                 artifacts := artifacts))
  }
}
