/** `source_snapshot.py`: the byte stream a source tree feeds to its digest. */
module SourceSnapshot {
  import opened Prelude

  const SLASH: Byte := 47
  const GIT: Bytes := [46, 103, 105, 116]

  /** What `lstat` and reading find at a path; `Missing` fails to stat, `Unstable` fails or changes while it is read.
      A directory has the two lists `os.walk` makes of its entries, in the order the file system lists them; where
      a symbolic link is listed depends on what it points to. */
  datatype Node =
    | Dir(mode: nat, dirs: seq<Entry>, files: seq<Entry>)
    | File(mode: nat, size: nat, content: Bytes)
    | Link(target: Bytes)
    | Special | Missing | Unstable(code: string)

  datatype Entry = Entry(name: Bytes, node: Node)

  /** What a record says of a path, without what is below it. */
  datatype Info = DirInfo(mode: nat) | FileInfo(mode: nat, size: nat, content: Bytes) | LinkInfo(target: Bytes)
                | SpecialInfo | MissingInfo | UnstableInfo(code: string)

  datatype Visit = Visit(path: seq<Bytes>, info: Info, asDir: bool)

  datatype Outcome = Hashed(stream: Bytes) | SnapshotError(code: string)

  function InfoOf(n: Node): Info {
    match n
    case Dir(mode, _, _) => DirInfo(mode)
    case File(mode, size, content) => FileInfo(mode, size, content)
    case Link(target) => LinkInfo(target)
    case Special => SpecialInfo
    case Missing => MissingInfo
    case Unstable(code) => UnstableInfo(code)
  }

  // ---- Records

  function BigEndian(n: nat, width: nat): (b: Bytes)
    ensures |b| == width
  {
    if width == 0 then [] else BigEndian(n / 256, width - 1) + [(n % 256) as Byte]
  }

  function Pow256(n: nat): nat {
    if n == 0 then 1 else 256 * Pow256(n - 1)
  }

  /** `_field`. */
  function Field(v: Bytes): Bytes {
    BigEndian(|v|, 8) + v
  }

  /** `str(n).encode()`. */
  function Decimal(n: nat): Bytes {
    if n < 10 then [(48 + n) as Byte] else Decimal(n / 10) + [(48 + n % 10) as Byte]
  }

  /** The path relative to the root, with its components joined by slashes. */
  function Rel(path: seq<Bytes>): Bytes {
    if path == [] then [] else if |path| == 1 then path[0] else path[0] + [SLASH] + Rel(path[1..])
  }

  function Tag(i: Info): Byte {
    match i
    case DirInfo(_) => 68
    case FileInfo(_, _, _) => 70
    case _ => 76
  }

  function Fields(path: seq<Bytes>, i: Info): seq<Bytes> {
    match i
    case DirInfo(mode) => [Rel(path), Decimal(mode)]
    case FileInfo(mode, size, content) => [Rel(path), Decimal(mode), Decimal(size), content]
    case LinkInfo(target) => [Rel(path), target]
    case _ => [Rel(path)]
  }

  function JoinFields(fields: seq<Bytes>): Bytes {
    if fields == [] then [] else Field(fields[0]) + JoinFields(fields[1..])
  }

  function Record(path: seq<Bytes>, i: Info): Bytes {
    [Tag(i)] + JoinFields(Fields(path, i))
  }

  /** Every length fits its eight bytes; otherwise `to_bytes` raises. */
  predicate Fits(path: seq<Bytes>, i: Info) {
    forall k :: 0 <= k < |Fields(path, i)| ==> |Fields(path, i)[k]| < Pow256(8)
  }

  // ---- The walk. Names sort by their decoded text, a fixed total order on the names: `before` is that order.

  function Size(n: Node): nat {
    match n
    case Dir(_, dirs, files) => 1 + SizeAll(dirs) + SizeAll(files)
    case _ => 1
  }

  function SizeAll(es: seq<Entry>): nat {
    if es == [] then 0 else Size(es[0].node) + SizeAll(es[1..])
  }

  function Insert(e: Entry, es: seq<Entry>, before: (Bytes, Bytes) -> bool): (r: seq<Entry>)
    ensures SizeAll(r) == Size(e.node) + SizeAll(es) && |r| == |es| + 1
    ensures multiset(r) == multiset(es) + multiset{e}
  {
    if es == [] || !before(es[0].name, e.name) then
      assert ([e] + es)[1..] == es;
      [e] + es
    else
      var rest := Insert(e, es[1..], before);
      assert ([es[0]] + rest)[1..] == rest && es == [es[0]] + es[1..];
      [es[0]] + rest
  }

  /** `list.sort()`. */
  function Sort(es: seq<Entry>, before: (Bytes, Bytes) -> bool): (r: seq<Entry>)
    ensures SizeAll(r) == SizeAll(es) && |r| == |es| && multiset(r) == multiset(es)
  {
    if es == [] then []
    else
      assert es == [es[0]] + es[1..];
      Insert(es[0], Sort(es[1..], before), before)
  }

  /** The entries of one list, in order. */
  function Listed(path: seq<Bytes>, es: seq<Entry>, asDir: bool): seq<Visit> {
    seq(|es|, i requires 0 <= i < |es| => Visit(path + [es[i].name], InfoOf(es[i].node), asDir))
  }

  /** Everything a directory at `path` contributes: its own entries, then each subdirectory in turn. */
  function Visits(path: seq<Bytes>, n: Node, before: (Bytes, Bytes) -> bool): seq<Visit>
    requires n.Dir?
    decreases Size(n), 0
  {
    var dirs := Sort(n.dirs, before);
    Listed(path, dirs, true) + Listed(path, Sort(n.files, before), false) + Below(path, dirs, before)
  }

  function Below(path: seq<Bytes>, es: seq<Entry>, before: (Bytes, Bytes) -> bool): seq<Visit>
    decreases SizeAll(es), |es|
  {
    if es == [] then []
    else (if es[0].node.Dir? then Visits(path + [es[0].name], es[0].node, before)
            else []) + Below(path, es[1..], before)
  }

  function NotGit(es: seq<Entry>): seq<Entry> {
    if es == [] then [] else (if es[0].name == GIT then [] else [es[0]]) + NotGit(es[1..])
  }

  /** The root without its `.git`. */
  function Stripped(root: Node): Node
    requires root.Dir?
  {
    Dir(root.mode, NotGit(root.dirs), NotGit(root.files))
  }

  /** Why a visited entry stops the snapshot, once it has been counted. */
  function Fault(v: Visit): Option<string> {
    match v.info
    case LinkInfo(_) => if Fits(v.path, v.info) then None else Some("OverflowError")
    case UnstableInfo(code) => Some(code)
    case DirInfo(_) => if !v.asDir then Some("source_snapshot_special_file") else
        if Fits(v.path, v.info) then None else Some("OverflowError")
    case FileInfo(_, _, _) => if v.asDir then Some("source_snapshot_special_file") else
        if Fits(v.path, v.info) then None else Some("OverflowError")
    case _ => Some("source_snapshot_special_file")
  }

  /** The digest after the visits so far was fed `stream`; what do the others add? */
  function Feed(visits: seq<Visit>, count: nat, max: nat, stream: Bytes): Outcome {
    if visits == [] then Hashed(stream)
    else if visits[0].info.MissingInfo? then SnapshotError("source_snapshot_unavailable")
    else if count + 1 > max then SnapshotError("source_snapshot_entry_limit")
    else
      match Fault(visits[0])
      case Some(code) => SnapshotError(code)
      case None => Feed(visits[1..], count + 1, max, stream + Record(visits[0].path, visits[0].info))
  }

  /** `source_snapshot_digest`, up to the final SHA-256 of the stream. */
  function Snapshot(root: Node, max: nat, before: (Bytes, Bytes) -> bool): Outcome {
    if !(1 <= max <= 1_000_000) then SnapshotError("ValueError")
    else if !root.Dir? then SnapshotError("source_snapshot_unavailable")
    else Feed(Visits([], Stripped(root), before), 0, max, [])
  }

  // ---- The program's loops

  /** Where the walk is: directories still to be opened, the next one last. */
  datatype Pending = Pending(path: seq<Bytes>, node: Node)

  predicate AllDirs(stack: seq<Pending>) {
    forall i :: 0 <= i < |stack| ==> stack[i].node.Dir?
  }

  function Remaining(stack: seq<Pending>, before: (Bytes, Bytes) -> bool): seq<Visit>
    requires AllDirs(stack)
  {
    if stack == [] then []
    else Visits(stack[|stack| - 1].path, stack[|stack| - 1].node, before) + Remaining(stack[..|stack| - 1], before)
  }

  function StackSize(stack: seq<Pending>): nat {
    if stack == [] then 0 else Size(stack[|stack| - 1].node) + StackSize(stack[..|stack| - 1])
  }

  /** The real directories among `es`, in reverse, as `os.walk` pushes them. */
  function Pushed(path: seq<Bytes>, es: seq<Entry>): (r: seq<Pending>)
    ensures AllDirs(r)
  {
    if es == [] then []
    else Pushed(path, es[1..]) + (if es[0].node.Dir? then [Pending(path + [es[0].name], es[0].node)] else [])
  }

  lemma PushOne(stack: seq<Pending>, p: Pending, before: (Bytes, Bytes) -> bool)
    requires p.node.Dir? && AllDirs(stack)
    ensures Remaining(stack + [p], before) == Visits(p.path, p.node, before) + Remaining(stack, before)
    ensures StackSize(stack + [p]) == Size(p.node) + StackSize(stack)
  {
    assert (stack + [p])[..|stack|] == stack;
  }

  lemma TopAndBelow(stack: seq<Pending>)
    requires stack != [] && AllDirs(stack)
    ensures var top, below := stack[|stack| - 1], stack[..|stack| - 1]; stack == below + [top] && AllDirs(below)
                                                                        && top.node.Dir?
  {
  }

  lemma Assoc<T>(a: seq<T>, b: seq<T>, c: seq<T>)
    ensures (a + b) + c == a + (b + c)
  {
  }

  lemma {:induction false} PushedIsBelow(path: seq<Bytes>, es: seq<Entry>, stack: seq<Pending>,
                                         before: (Bytes, Bytes) -> bool)
    requires AllDirs(stack)
    ensures AllDirs(stack + Pushed(path, es))
    ensures Remaining(stack + Pushed(path, es), before) == Below(path, es, before) + Remaining(stack, before)
    ensures StackSize(stack + Pushed(path, es)) <= SizeAll(es) + StackSize(stack)
  {
    if es == [] {
      assert stack + [] == stack;
    } else {
      PushedIsBelow(path, es[1..], stack, before);
      if es[0].node.Dir? {
        var top := Pending(path + [es[0].name], es[0].node);
        PushOne(stack + Pushed(path, es[1..]), top, before);
        Assoc(stack, Pushed(path, es[1..]), [top]);
        Assoc(Visits(top.path, top.node, before), Below(path, es[1..], before), Remaining(stack, before));
      } else {
        assert Pushed(path, es) == Pushed(path, es[1..]);
        assert Below(path, es, before) == Below(path, es[1..], before);
      }
    }
  }

  /** Opening the directory on top of the stack. */
  lemma TopOpens(below: seq<Pending>, top: Pending, before: (Bytes, Bytes) -> bool)
    requires top.node.Dir? && AllDirs(below)
    ensures var dirs, files := Sort(top.node.dirs, before), Sort(top.node.files, before);
            Remaining(below + [top], before)
            == Listed(top.path, dirs, true) + (Listed(top.path, files,
                                                      false) + (Below(top.path, dirs, before) + Remaining(below,
                                                          before)))
    ensures StackSize(below + [top]) > SizeAll(Sort(top.node.dirs, before)) + StackSize(below)
  {
    PushOne(below, top, before);
    var dirs, files := Sort(top.node.dirs, before), Sort(top.node.files, before);
    Assoc(Listed(top.path, dirs, true) + Listed(top.path, files, false), Below(top.path, dirs, before),
          Remaining(below, before));
    Assoc(Listed(top.path, dirs, true), Listed(top.path, files, false),
          Below(top.path, dirs, before) + Remaining(below, before));
  }

  lemma NextVisit(all: seq<Visit>, rest: seq<Visit>, k: nat)
    requires k < |all|
    ensures all[k..] + rest != [] && (all[k..] + rest)[0] == all[k] && (all[k..] + rest)[1..] == all[k + 1..] + rest
  {
  }

  lemma FeedStep(visits: seq<Visit>, count: nat, max: nat, stream: Bytes)
    requires visits != []
    ensures Feed(visits, count, max, stream)
            == if visits[0].info.MissingInfo? then SnapshotError("source_snapshot_unavailable")
               else if count + 1 > max then SnapshotError("source_snapshot_entry_limit")
               else if Fault(visits[0]).Some? then SnapshotError(Fault(visits[0]).value)
               else Feed(visits[1..], count + 1, max, stream + Record(visits[0].path, visits[0].info))
  {
  }

  lemma FeedNext(path: seq<Bytes>, es: seq<Entry>, asDir: bool, rest: seq<Visit>, k: nat, count: nat, max: nat,
                 stream: Bytes)
    requires k < |es|
    ensures var all, next := Listed(path, es, asDir), Visit(path + [es[k].name], InfoOf(es[k].node), asDir);
            Feed(all[k..] + rest, count, max, stream)
            == if es[k].node.Missing? then SnapshotError("source_snapshot_unavailable")
               else if count + 1 > max then SnapshotError("source_snapshot_entry_limit")
               else if Fault(next).Some? then SnapshotError(Fault(next).value)
               else Feed(all[k + 1..] + rest, count + 1, max, stream + Record(next.path, next.info))
  {
    NextVisit(Listed(path, es, asDir), rest, k);
    FeedStep(Listed(path, es, asDir)[k..] + rest, count, max, stream);
  }

  /** The state of the digest loop. */
  datatype Progress = Progress(count: nat, stream: Bytes)

  /** One of the two inner loops: feed a list of entries. */
  method FeedEntries(path: seq<Bytes>, es: seq<Entry>, asDir: bool, start: Progress, max: nat, ghost rest: seq<Visit>)
    returns (progress: Progress, error: Option<string>)
    ensures error.None? ==> Feed(Listed(path, es, asDir) + rest, start.count, max, start.stream) == Feed(rest,
            progress.count, max, progress.stream)
    ensures error.Some? ==> Feed(Listed(path, es, asDir) + rest, start.count, max,
                                 start.stream) == SnapshotError(error.value)
  {
    progress := start;
    var all := Listed(path, es, asDir);
    assert all[0..] + rest == all + rest;
    for k := 0 to |es|
      invariant Feed(all + rest, start.count, max, start.stream) == Feed(all[k..] + rest, progress.count, max,
                progress.stream)
    {
      var item := es[k];
      var here := path + [item.name];
      FeedNext(path, es, asDir, rest, k, progress.count, max, progress.stream);
      if item.node.Missing? {
        return progress, Some("source_snapshot_unavailable");
      }
      if progress.count + 1 > max {
        return progress, Some("source_snapshot_entry_limit");
      }
      var fault := Fault(Visit(here, InfoOf(item.node), asDir));
      if fault.Some? {
        return progress, fault;
      }
      progress := Progress(progress.count + 1, progress.stream + Record(here, InfoOf(item.node)));
    }
    assert all[|es|..] + rest == rest;
    return progress, None;
  }

  /** One turn of the walk: feed both lists of the directory on top of the stack. */
  method OpenDirectory(top: Pending, start: Progress, max: nat, before: (Bytes, Bytes) -> bool, ghost below: seq<Visit>,
                       ghost whole: Outcome)
    returns (progress: Progress, error: Option<string>, dirs: seq<Entry>)
    requires top.node.Dir?
    requires whole == Feed(Listed(top.path, Sort(top.node.dirs, before), true)
                           + (Listed(top.path, Sort(top.node.files, before),
                                     false) + (Below(top.path, Sort(top.node.dirs, before), before) + below)),
                           start.count, max, start.stream)
    ensures dirs == Sort(top.node.dirs, before)
    ensures if error.Some? then whole == SnapshotError(error.value)
            else whole == Feed(Below(top.path, dirs, before) + below, progress.count, max, progress.stream)
  {
    dirs := Sort(top.node.dirs, before);
    var files := Sort(top.node.files, before);
    ghost var deeper := Below(top.path, dirs, before) + below;
    progress, error := FeedEntries(top.path, dirs, true, start, max, Listed(top.path, files, false) + deeper);
    if error.None? {
      progress, error := FeedEntries(top.path, files, false, progress, max, deeper);
    }
  }

  /** `source_snapshot_digest`: the stack of `os.walk` and the two loops over each directory. */
  method SourceSnapshotDigest(root: Node, max: nat, before: (Bytes, Bytes) -> bool) returns (r: Outcome)
    ensures r == Snapshot(root, max, before)
  {
    if !(1 <= max <= 1_000_000) {
      return SnapshotError("ValueError");
    }
    if !root.Dir? {
      return SnapshotError("source_snapshot_unavailable");
    }
    r := Walk(Stripped(root), max, before);
  }

  method Walk(root: Node, max: nat, before: (Bytes, Bytes) -> bool) returns (r: Outcome)
    requires root.Dir?
    ensures r == Feed(Visits([], root, before), 0, max, [])
  {
    var stack := [Pending([], root)];
    var progress := Progress(0, []);
    ghost var whole := Feed(Visits([], root, before), 0, max, []);
    PushOne([], stack[0], before);
    assert [] + stack == stack && Visits([], root, before) + [] == Visits([], root, before);
    while stack != []
      invariant AllDirs(stack)
      invariant whole == Feed(Remaining(stack, before), progress.count, max, progress.stream)
      decreases StackSize(stack)
    {
      var top, below := stack[|stack| - 1], stack[..|stack| - 1];
      TopAndBelow(stack);
      TopOpens(below, top, before);
      var error, dirs;
      progress, error, dirs := OpenDirectory(top, progress, max, before, Remaining(below, before), whole);
      if error.Some? {
        return SnapshotError(error.value);
      }
      PushedIsBelow(top.path, dirs, below, before);
      stack := below + Pushed(top.path, dirs);
    }
    return Hashed(progress.stream);
  }
}
