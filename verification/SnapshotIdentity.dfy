/** The digest stream determines the tree, and only the tree: records decode uniquely, paths rebuild the
    directories, and the order in which the file system lists names does not matter. */
module SnapshotIdentity {
  import opened Prelude
  import opened SourceSnapshot
  import opened Orders

  // ---- Records decode uniquely

  lemma {:induction false} BigEndianIsInjective(m: nat, n: nat, width: nat)
    requires m < Pow256(width) && n < Pow256(width) && BigEndian(m, width) == BigEndian(n, width)
    ensures m == n
  {
    if width > 0 {
      var a, b := BigEndian(m, width), BigEndian(n, width);
      assert a[..width - 1] == BigEndian(m / 256, width - 1) && b[..width - 1] == BigEndian(n / 256, width - 1);
      assert a[width - 1] == m % 256 && b[width - 1] == n % 256;
      BigEndianIsInjective(m / 256, n / 256, width - 1);
    }
  }

  lemma {:induction false} DecimalIsInjective(m: nat, n: nat)
    requires Decimal(m) == Decimal(n)
    ensures m == n
  {
    var a, b := Decimal(m), Decimal(n);
    assert a[|a| - 1] == 48 + m % 10 && b[|b| - 1] == 48 + n % 10;
    if m >= 10 && n >= 10 {
      assert a[..|a| - 1] == Decimal(m / 10) && b[..|b| - 1] == Decimal(n / 10);
      DecimalIsInjective(m / 10, n / 10);
    } else {
      DecimalIsNonempty(m / 10);
      DecimalIsNonempty(n / 10);
    }
  }

  lemma DecimalIsNonempty(n: nat)
    ensures Decimal(n) != [] && (n >= 10 ==> |Decimal(n)| >= 2)
  {
  }

  lemma FieldReads(u: Bytes, x: Bytes, v: Bytes, y: Bytes)
    requires |u| < Pow256(8) && |v| < Pow256(8) && Field(u) + x == Field(v) + y
    ensures u == v && x == y
  {
    var s, t := Field(u) + x, Field(v) + y;
    assert s[..8] == BigEndian(|u|, 8) && t[..8] == BigEndian(|v|, 8);
    BigEndianIsInjective(|u|, |v|, 8);
    assert s[8..8 + |u|] == u && t[8..8 + |v|] == v;
    assert s[8 + |u|..] == x && t[8 + |v|..] == y;
  }

  lemma HeadAndTail<T>(s: seq<T>)
    requires s != []
    ensures [s[0]] + s[1..] == s && forall e :: e in s <==> e == s[0] || e in s[1..]
  {
    assert s == [s[0]] + s[1..];
  }

  lemma FirstField(f: seq<Bytes>, x: Bytes)
    requires f != []
    ensures JoinFields(f) + x == Field(f[0]) + (JoinFields(f[1..]) + x)
  {
  }

  lemma {:induction false} FieldsRead(f: seq<Bytes>, x: Bytes, g: seq<Bytes>, y: Bytes)
    requires |f| == |g| && (forall k :: 0 <= k < |f| ==> |f[k]| < Pow256(8) && |g[k]| < Pow256(8))
    requires JoinFields(f) + x == JoinFields(g) + y
    ensures f == g && x == y
  {
    if f != [] {
      var u, v := JoinFields(f[1..]) + x, JoinFields(g[1..]) + y;
      FirstField(f, x);
      FirstField(g, y);
      FieldReads(f[0], u, g[0], v);
      FieldsRead(f[1..], x, g[1..], y);
      HeadAndTail(f);
      HeadAndTail(g);
    } else {
      assert JoinFields(f) + x == x && JoinFields(g) + y == y;
    }
  }

  predicate Plain(name: Bytes) {
    name != [] && SLASH !in name
  }

  predicate AllPlain(path: seq<Bytes>) {
    forall k :: 0 <= k < |path| ==> Plain(path[k])
  }

  lemma {:induction false} RelIsInjective(p: seq<Bytes>, q: seq<Bytes>)
    requires AllPlain(p) && AllPlain(q) && Rel(p) == Rel(q)
    ensures p == q
  {
    if p == [] || q == [] {
      RelIsNonempty(p);
      RelIsNonempty(q);
    } else {
      FirstSlash(p);
      FirstSlash(q);
      assert p[0] == q[0] && (|p| > 1 <==> |q| > 1);
      if |p| > 1 {
        assert Rel(p)[|p[0]| + 1..] == Rel(p[1..]) && Rel(q)[|q[0]| + 1..] == Rel(q[1..]);
        RelIsInjective(p[1..], q[1..]);
      }
    }
  }

  lemma RelIsNonempty(p: seq<Bytes>)
    requires AllPlain(p)
    ensures Rel(p) == [] <==> p == []
  {
  }

  /** The first component ends at the first slash, or fills the text. */
  lemma FirstSlash(p: seq<Bytes>)
    requires AllPlain(p) && p != []
    ensures p[0] <= Rel(p) && (|p| == 1 <==> |Rel(p)| == |p[0]|) && (|p| > 1 ==> Rel(p)[|p[0]|] == SLASH)
    ensures forall i :: 0 <= i < |p[0]| ==> Rel(p)[i] != SLASH
  {
    assert forall i :: 0 <= i < |p[0]| ==> Rel(p)[i] == p[0][i];
  }

  /** The visits that reach the digest. */
  predicate Hashable(v: Visit) {
    Fault(v).None? && AllPlain(v.path)
  }

  lemma HashableKinds(v: Visit)
    requires Hashable(v)
    ensures (v.info.DirInfo? || v.info.FileInfo? || v.info.LinkInfo?) && Fits(v.path, v.info)
    ensures |Fields(v.path, v.info)| == if v.info.FileInfo? then 4 else 2
    ensures Fields(v.path, v.info)[0] == Rel(v.path)
  {
  }

  lemma TagReads(t: Byte, f: Bytes, x: Bytes, u: Byte, g: Bytes, y: Bytes)
    requires [t] + f + x == [u] + g + y
    ensures t == u && f + x == g + y
  {
    var a, b := [t] + f + x, [u] + g + y;
    assert a[0] == t && b[0] == u && a[1..] == f + x && b[1..] == g + y;
  }

  lemma RecordReads(v: Visit, x: Bytes, w: Visit, y: Bytes)
    requires Hashable(v) && Hashable(w) && Record(v.path, v.info) + x == Record(w.path, w.info) + y
    ensures v.path == w.path && v.info == w.info && x == y
  {
    var f, g := Fields(v.path, v.info), Fields(w.path, w.info);
    HashableKinds(v);
    HashableKinds(w);
    TagReads(Tag(v.info), JoinFields(f), x, Tag(w.info), JoinFields(g), y);
    FieldsRead(f, x, g, y);
    RelIsInjective(v.path, w.path);
    InfoReads(v.path, v.info, w.info);
  }

  lemma InfoReads(path: seq<Bytes>, i: Info, j: Info)
    requires Tag(i) == Tag(j) && Fields(path, i) == Fields(path, j)
    requires (i.DirInfo? || i.FileInfo? || i.LinkInfo?) && (j.DirInfo? || j.FileInfo? || j.LinkInfo?)
    ensures i == j
  {
    var f, g := Fields(path, i), Fields(path, j);
    assert f[1] == g[1];
    match i
    case DirInfo(mode) => DecimalIsInjective(mode, j.mode);
    case FileInfo(mode, size, _) =>
      assert f[2] == g[2] && f[3] == g[3];
      DecimalIsInjective(mode, j.mode);
      DecimalIsInjective(size, j.size);
    case _ =>
  }

  // ---- Streams decode uniquely

  function Stream(visits: seq<Visit>): Bytes {
    if visits == [] then [] else Record(visits[0].path, visits[0].info) + Stream(visits[1..])
  }

  /** A snapshot that succeeds has fed every visit. */
  lemma {:induction false} HashedMeansFed(visits: seq<Visit>, count: nat, max: nat, stream: Bytes)
    requires Feed(visits, count, max, stream).Hashed?
    ensures Feed(visits, count, max, stream) == Hashed(stream + Stream(visits))
    ensures forall i :: 0 <= i < |visits| ==> Fault(visits[i]).None?
    ensures count + |visits| <= max || visits == []
  {
    if visits == [] {
      assert stream + [] == stream;
    } else {
      var record := Record(visits[0].path, visits[0].info);
      HashedMeansFed(visits[1..], count + 1, max, stream + record);
      assert stream + record + Stream(visits[1..]) == stream + Stream(visits);
    }
  }

  /** Equal streams come from the same paths with the same records, in the same order. */
  lemma {:induction false} StreamReads(a: seq<Visit>, b: seq<Visit>)
    requires (forall i :: 0 <= i < |a| ==> Hashable(a[i])) && (forall i :: 0 <= i < |b| ==> Hashable(b[i]))
    requires Stream(a) == Stream(b)
    ensures |a| == |b| && forall i :: 0 <= i < |a| ==> a[i].path == b[i].path && a[i].info == b[i].info
  {
    StreamIsNonempty(a);
    StreamIsNonempty(b);
    if a != [] && b != [] {
      RecordReads(a[0], Stream(a[1..]), b[0], Stream(b[1..]));
      StreamReads(a[1..], b[1..]);
    }
  }

  lemma StreamIsNonempty(visits: seq<Visit>)
    ensures Stream(visits) == [] <==> visits == []
  {
  }

  // ---- The walk visits exactly the tree

  /** Names are file names, and no directory has two entries of one name. */
  ghost predicate WellFormed(n: Node) {
    n.Dir? ==>
      && WellNamed(n.dirs + n.files)
      && (forall e :: e in n.dirs ==> WellFormed(e.node))
      && (forall e :: e in n.files ==> WellFormed(e.node))
  }

  ghost predicate WellNamed(es: seq<Entry>) {
    && (forall i :: 0 <= i < |es| ==> Plain(es[i].name))
    && (forall i, j :: 0 <= i < j < |es| ==> es[i].name != es[j].name)
  }

  function Find(es: seq<Entry>, name: Bytes): Option<Node> {
    if es == [] then None else if es[0].name == name then Some(es[0].node) else Find(es[1..], name)
  }

  /** What the tree `n` has at a path: the lists are searched by name, whatever their order. */
  function Seen(n: Node, path: seq<Bytes>): Option<Info>
    requires n.Dir?
    decreases |path|
  {
    if path == [] then None else
    var dir, file := Find(n.dirs, path[0]), Find(n.files, path[0]);
    if |path| == 1 then (if dir.Some? then Some(InfoOf(dir.value)) else if file.Some? then Some(InfoOf(file.value))
                                                                          else None)
    else if dir.Some? && dir.value.Dir? then Seen(dir.value, path[1..])
    else None
  }

  lemma {:induction false} FoundByName(es: seq<Entry>, e: Entry)
    requires WellNamed(es) && e in es
    ensures Find(es, e.name) == Some(e.node)
  {
    if es[0] != e {
      assert e in es[1..];
      FoundByName(es[1..], e);
    }
  }

  lemma {:induction false} FoundIsThere(es: seq<Entry>, name: Bytes)
    ensures Find(es, name).Some? ==> Entry(name, Find(es, name).value) in es
    ensures Find(es, name).None? ==> forall e :: e in es ==> e.name != name
  {
    if es != [] {
      FoundIsThere(es[1..], name);
      assert es == [es[0]] + es[1..];
    }
  }

  lemma Halves(n: Node)
    requires n.Dir? && WellFormed(n)
    ensures WellNamed(n.dirs) && WellNamed(n.files)
    ensures forall d, f :: d in n.dirs && f in n.files ==> d.name != f.name
  {
    PartsAreNamed(n.dirs, n.files);
  }

  lemma PartsAreNamed(a: seq<Entry>, b: seq<Entry>)
    requires WellNamed(a + b)
    ensures WellNamed(a) && WellNamed(b)
    ensures forall d, f :: d in a && f in b ==> d.name != f.name
  {
    var all := a + b;
    forall i | 0 <= i < |a| ensures all[i] == a[i] {
    }
    forall i | 0 <= i < |b| ensures all[|a| + i] == b[i] {
    }
    forall i | 0 <= i < |b| ensures Plain(b[i].name) {
      assert Plain(all[|a| + i].name);
    }
    forall i, j | 0 <= i < j < |b| ensures b[i].name != b[j].name {
      assert all[|a| + i].name != all[|a| + j].name;
    }
    forall d, f | d in a && f in b ensures d.name != f.name {
      var i :| 0 <= i < |a| && a[i] == d;
      var j :| 0 <= j < |b| && b[j] == f;
      assert all[i].name != all[|a| + j].name;
    }
  }

  lemma SortKeeps(es: seq<Entry>, before: (Bytes, Bytes) -> bool)
    ensures forall e :: e in Sort(es, before) <==> e in es
  {
    assert forall e :: e in Sort(es, before) <==> e in multiset(Sort(es, before));
    assert forall e :: e in es <==> e in multiset(es);
  }

  ghost predicate Visited(visits: seq<Visit>, path: seq<Bytes>, info: Info) {
    exists i :: 0 <= i < |visits| && visits[i].path == path && visits[i].info == info
  }

  lemma VisitedSplits(a: seq<Visit>, b: seq<Visit>, path: seq<Bytes>, info: Info)
    ensures Visited(a + b, path, info) <==> Visited(a, path, info) || Visited(b, path, info)
  {
    assert forall i :: 0 <= i < |a| ==> (a + b)[i] == a[i];
    assert forall i :: 0 <= i < |b| ==> (a + b)[|a| + i] == b[i];
    if Visited(a, path, info) {
      var i :| 0 <= i < |a| && a[i].path == path && a[i].info == info;
      assert (a + b)[i].path == path;
    }
    if Visited(b, path, info) {
      var i :| 0 <= i < |b| && b[i].path == path && b[i].info == info;
      assert (a + b)[|a| + i].path == path;
    }
  }

  ghost predicate ListedHere(path: seq<Bytes>, es: seq<Entry>, p: seq<Bytes>, info: Info) {
    exists e :: e in es && p == path + [e.name] && info == InfoOf(e.node)
  }

  lemma ListedHereIgnoresOrder(path: seq<Bytes>, es: seq<Entry>, fs: seq<Entry>, p: seq<Bytes>, info: Info)
    requires forall e :: e in es <==> e in fs
    ensures ListedHere(path, es, p, info) <==> ListedHere(path, fs, p, info)
  {
  }

  lemma ListedVisits(path: seq<Bytes>, es: seq<Entry>, asDir: bool, p: seq<Bytes>, info: Info)
    ensures Visited(Listed(path, es, asDir), p, info) <==> ListedHere(path, es, p, info)
  {
    var visits := Listed(path, es, asDir);
    assert forall i :: 0 <= i < |es| ==> visits[i].path == path + [es[i].name] && visits[i].info == InfoOf(es[i].node);
    if Visited(visits, p, info) {
      var i :| 0 <= i < |visits| && visits[i].path == p && visits[i].info == info;
      assert es[i] in es;
    }
    if e :| e in es && p == path + [e.name] && info == InfoOf(e.node) {
      var i :| 0 <= i < |es| && es[i] == e;
      assert visits[i].path == p;
    }
  }

  /** Below a list of entries: what is below one of its directories. */
  ghost predicate VisitedBelow(path: seq<Bytes>, es: seq<Entry>, before: (Bytes, Bytes) -> bool, p: seq<Bytes>,
                               info: Info) {
    exists e :: e in es && e.node.Dir? && Visited(Visits(path + [e.name], e.node, before), p, info)
  }

  lemma {:induction false} BelowVisits(path: seq<Bytes>, es: seq<Entry>, before: (Bytes, Bytes) -> bool, p: seq<Bytes>,
                                       info: Info)
    ensures Visited(Below(path, es, before), p, info) <==> VisitedBelow(path, es, before, p, info)
  {
    if es != [] {
      BelowVisits(path, es[1..], before, p, info);
      var first := if es[0].node.Dir? then Visits(path + [es[0].name], es[0].node, before) else [];
      VisitedSplits(first, Below(path, es[1..], before), p, info);
      FirstBelow(path, es, before, p, info);
    }
  }

  lemma FirstBelow(path: seq<Bytes>, es: seq<Entry>, before: (Bytes, Bytes) -> bool, p: seq<Bytes>, info: Info)
    requires es != []
    ensures VisitedBelow(path, es, before, p, info) <==>
              (es[0].node.Dir? && Visited(Visits(path + [es[0].name], es[0].node, before), p, info))
                  || VisitedBelow(path, es[1..], before, p, info)
  {
    HeadAndTail(es);
  }

  lemma VisitsSplit(path: seq<Bytes>, n: Node, before: (Bytes, Bytes) -> bool, p: seq<Bytes>, info: Info)
    requires n.Dir?
    ensures Visited(Visits(path, n, before), p, info) <==>
              ListedHere(path, n.dirs, p, info) || ListedHere(path, n.files, p, info)
                  || VisitedBelow(path, n.dirs, before, p, info)
  {
    var dirs, files := Sort(n.dirs, before), Sort(n.files, before);
    SortKeeps(n.dirs, before);
    SortKeeps(n.files, before);
    var a, b, c := Listed(path, dirs, true), Listed(path, files, false), Below(path, dirs, before);
    VisitedSplits(a + b, c, p, info);
    VisitedSplits(a, b, p, info);
    ListedVisits(path, dirs, true, p, info);
    ListedVisits(path, files, false, p, info);
    ListedHereIgnoresOrder(path, dirs, n.dirs, p, info);
    ListedHereIgnoresOrder(path, files, n.files, p, info);
    BelowVisits(path, dirs, before, p, info);
  }

  predicate Under(path: seq<Bytes>, p: seq<Bytes>) {
    |path| < |p| && p[..|path|] == path
  }

  lemma SeenIsVisited(path: seq<Bytes>, n: Node, before: (Bytes, Bytes) -> bool, q: seq<Bytes>, info: Info)
    requires n.Dir? && Seen(n, q) == Some(info)
    requires |q| > 1 ==> Visited(Visits(path + [q[0]], Find(n.dirs, q[0]).value, before), path + q, info)
    ensures Visited(Visits(path, n, before), path + q, info)
  {
    VisitsSplit(path, n, before, path + q, info);
    FoundIsThere(n.dirs, q[0]);
    FoundIsThere(n.files, q[0]);
    if |q| == 1 {
      assert q == [q[0]];
    } else {
      var e := Entry(q[0], Find(n.dirs, q[0]).value);
      assert e in n.dirs;
    }
  }

  lemma EntryIsSeen(n: Node, e: Entry)
    requires n.Dir? && WellFormed(n) && (e in n.dirs || e in n.files)
    ensures Seen(n, [e.name]) == Some(InfoOf(e.node))
    ensures e in n.dirs ==> Find(n.dirs, e.name) == Some(e.node)
  {
    Halves(n);
    if e in n.dirs {
      FoundByName(n.dirs, e);
    } else {
      FoundByName(n.files, e);
      FoundIsThere(n.dirs, e.name);
    }
  }

  lemma {:induction false} SeenMeansVisited(path: seq<Bytes>, n: Node, before: (Bytes, Bytes) -> bool, q: seq<Bytes>,
                                            info: Info)
    requires n.Dir? && Seen(n, q) == Some(info)
    ensures Visited(Visits(path, n, before), path + q, info)
    decreases |q|
  {
    if |q| > 1 {
      SeenBelow(n, q, info);
      SeenMeansVisited(path + [q[0]], Find(n.dirs, q[0]).value, before, q[1..], info);
      PathSplits(path, q);
    }
    SeenIsVisited(path, n, before, q, info);
  }

  lemma SeenBelow(n: Node, q: seq<Bytes>, info: Info)
    requires n.Dir? && |q| > 1 && Seen(n, q) == Some(info)
    ensures Find(n.dirs, q[0]).Some? && Find(n.dirs, q[0]).value.Dir?
            && Seen(Find(n.dirs, q[0]).value, q[1..]) == Some(info)
  {
  }

  lemma PathSplits(path: seq<Bytes>, q: seq<Bytes>)
    requires q != []
    ensures path + [q[0]] + q[1..] == path + q
  {
  }

  lemma ListedIsSeen(path: seq<Bytes>, n: Node, p: seq<Bytes>, info: Info)
    requires n.Dir? && WellFormed(n) && (ListedHere(path, n.dirs, p, info) || ListedHere(path, n.files, p, info))
    ensures Under(path, p) && Seen(n, p[|path|..]) == Some(info)
  {
    var e :| (e in n.dirs || e in n.files) && p == path + [e.name] && info == InfoOf(e.node);
    EntryIsSeen(n, e);
    assert p[|path|..] == [e.name];
  }

  lemma {:induction false} VisitedMeansSeen(path: seq<Bytes>, n: Node, before: (Bytes, Bytes) -> bool, p: seq<Bytes>,
                                            info: Info)
    requires n.Dir? && WellFormed(n) && Visited(Visits(path, n, before), p, info)
    ensures Under(path, p) && Seen(n, p[|path|..]) == Some(info)
    decreases n
  {
    if VisitedBelow(path, n.dirs, before, p, info) {
      var e := Descends(path, n, before, p, info);
      VisitedMeansSeen(path + [e.name], e.node, before, p, info);
      DeeperIsSeen(path, n, e, p, info);
    } else {
      VisitsSplit(path, n, before, p, info);
      ListedIsSeen(path, n, p, info);
    }
  }

  lemma Descends(path: seq<Bytes>, n: Node, before: (Bytes, Bytes) -> bool, p: seq<Bytes>, info: Info)
      returns (e: Entry)
    requires n.Dir? && WellFormed(n) && VisitedBelow(path, n.dirs, before, p, info)
    ensures e in n.dirs && e.node.Dir? && e.node < n && WellFormed(e.node)
            && Visited(Visits(path + [e.name], e.node, before), p, info)
  {
    e :| e in n.dirs && e.node.Dir? && Visited(Visits(path + [e.name], e.node, before), p, info);
  }

  /** The walk of a root visits a path with a record exactly when the tree has it there. */
  lemma VisitedIsSeen(n: Node, before: (Bytes, Bytes) -> bool, p: seq<Bytes>, info: Info)
    requires n.Dir? && WellFormed(n)
    ensures Visited(Visits([], n, before), p, info) <==> Seen(n, p) == Some(info)
  {
    assert p[0..] == p && [] + p == p;
    if Seen(n, p) == Some(info) {
      SeenMeansVisited([], n, before, p, info);
    }
    if Visited(Visits([], n, before), p, info) {
      VisitedMeansSeen([], n, before, p, info);
    }
  }

  lemma DeeperIsSeen(path: seq<Bytes>, n: Node, e: Entry, p: seq<Bytes>, info: Info)
    requires n.Dir? && WellFormed(n) && e in n.dirs && e.node.Dir?
    requires Under(path + [e.name], p) && Seen(e.node, p[|path + [e.name]|..]) == Some(info)
    ensures Under(path, p) && Seen(n, p[|path|..]) == Some(info)
  {
    EntryIsSeen(n, e);
    var q := p[|path|..];
    assert p[..|path| + 1][|path|] == e.name;
    assert p[..|path| + 1][..|path|] == p[..|path|];
    assert q[0] == e.name && q[1..] == p[|path| + 1..];
  }

  lemma {:induction false} SeenIsPlain(n: Node, q: seq<Bytes>)
    requires n.Dir? && WellFormed(n) && Seen(n, q).Some?
    ensures AllPlain(q)
    decreases |q|
  {
    Halves(n);
    FoundIsThere(n.dirs, q[0]);
    FoundIsThere(n.files, q[0]);
    if |q| > 1 {
      var e := Entry(q[0], Find(n.dirs, q[0]).value);
      SeenIsPlain(e.node, q[1..]);
    }
    assert Plain(q[0]);
  }

  // ---- The root's `.git`

  lemma {:induction false} NotGitFinds(es: seq<Entry>, name: Bytes)
    ensures Find(NotGit(es), name) == if name == GIT then None else Find(es, name)
  {
    if es != [] {
      NotGitFinds(es[1..], name);
      assert NotGit(es) == (if es[0].name == GIT then NotGit(es[1..]) else [es[0]] + NotGit(es[1..]));
    }
  }

  lemma {:induction false} NotGitKeeps(es: seq<Entry>)
    ensures forall e :: e in NotGit(es) <==> e in es && e.name != GIT
    ensures WellNamed(es) ==> WellNamed(NotGit(es))
  {
    if es != [] {
      NotGitKeeps(es[1..]);
      assert es == [es[0]] + es[1..];
      if WellNamed(es) {
        RestIsWellNamed(es);
        if es[0].name != GIT {
          NamedInFront(es[0], NotGit(es[1..]));
        }
      }
    }
  }

  lemma RestIsWellNamed(es: seq<Entry>)
    requires WellNamed(es) && es != []
    ensures WellNamed(es[1..]) && Plain(es[0].name) && forall e :: e in es[1..] ==> e.name != es[0].name
  {
    assert forall i :: 0 <= i < |es| - 1 ==> es[1..][i] == es[i + 1];
  }

  lemma NamedInFront(e: Entry, rest: seq<Entry>)
    requires WellNamed(rest) && Plain(e.name) && forall r :: r in rest ==> r.name != e.name
    ensures WellNamed([e] + rest)
  {
    assert forall i :: 0 <= i < |rest| ==> rest[i] in rest;
  }

  lemma StrippedIsWellFormed(root: Node)
    requires root.Dir? && WellFormed(root)
    ensures WellFormed(Stripped(root))
  {
    Halves(root);
    NotGitKeeps(root.dirs);
    NotGitKeeps(root.files);
    var s := Stripped(root);
    assert forall i, j :: 0 <= i < |s.dirs| && 0 <= j < |s.files| ==> s.dirs[i] in s.dirs && s.files[j] in s.files;
    assert WellNamed(s.dirs + s.files);
  }

  lemma StrippedSeen(root: Node, q: seq<Bytes>)
    requires root.Dir?
    ensures Seen(Stripped(root), q) == if q == [] || q[0] == GIT then None else Seen(root, q)
  {
    if q != [] {
      NotGitFinds(root.dirs, q[0]);
      NotGitFinds(root.files, q[0]);
    }
  }

  lemma SnapshotVisits(root: Node, max: nat, before: (Bytes, Bytes) -> bool)
    requires root.Dir? && WellFormed(root) && Snapshot(root, max, before).Hashed?
    ensures var visits := Visits([], Stripped(root), before);
            && Snapshot(root, max, before) == Hashed(Stream(visits))
            && (forall i :: 0 <= i < |visits| ==> Hashable(visits[i]))
            && |visits| <= max
  {
    var s := Stripped(root);
    var visits := Visits([], s, before);
    StrippedIsWellFormed(root);
    HashedMeansFed(visits, 0, max, []);
    assert [] + Stream(visits) == Stream(visits);
    forall i | 0 <= i < |visits| ensures Hashable(visits[i]) {
      assert Visited(visits, visits[i].path, visits[i].info);
      VisitedIsSeen(s, before, visits[i].path, visits[i].info);
      SeenIsPlain(s, visits[i].path);
    }
  }

  lemma SeenTransfers(a: Node, b: Node, before: (Bytes, Bytes) -> bool, q: seq<Bytes>)
    requires a.Dir? && b.Dir? && WellFormed(a) && WellFormed(b)
    requires var x, y := Visits([], a, before), Visits([], b, before);
             |x| == |y| && forall i :: 0 <= i < |x| ==> x[i].path == y[i].path && x[i].info == y[i].info
    ensures Seen(a, q).Some? ==> Seen(b, q) == Seen(a, q)
  {
    if Seen(a, q).Some? {
      var info := Seen(a, q).value;
      VisitedIsSeen(a, before, q, info);
      VisitedIsSeen(b, before, q, info);
      var x, y := Visits([], a, before), Visits([], b, before);
      var i :| 0 <= i < |x| && x[i].path == q && x[i].info == info;
      assert y[i].path == q && y[i].info == info;
    }
  }

  /** Trees with the same digest stream are the same tree, apart from the root `.git` (and the mode of the root). */
  lemma EqualStreamsMeanEqualTrees(a: Node, b: Node, max: nat, max': nat, before: (Bytes, Bytes) -> bool)
    requires a.Dir? && b.Dir? && WellFormed(a) && WellFormed(b)
    requires Snapshot(a, max, before).Hashed? && Snapshot(a, max, before) == Snapshot(b, max', before)
    ensures forall q :: q != [] && q[0] != GIT ==> Seen(a, q) == Seen(b, q)
  {
    SnapshotVisits(a, max, before);
    SnapshotVisits(b, max', before);
    StreamReads(Visits([], Stripped(a), before), Visits([], Stripped(b), before));
    StrippedIsWellFormed(a);
    StrippedIsWellFormed(b);
    forall q | q != [] && q[0] != GIT ensures Seen(a, q) == Seen(b, q) {
      SeenTransfers(Stripped(a), Stripped(b), before, q);
      SeenTransfers(Stripped(b), Stripped(a), before, q);
      StrippedSeen(a, q);
      StrippedSeen(b, q);
    }
  }

  // ---- The order of the listings

  /** Equal up to the order in which names are listed, at every level. */
  ghost predicate Same(a: Node, b: Node)
    decreases a
  {
    if a.Dir? && b.Dir? then
      && a.mode == b.mode
      && (forall e :: e in a.dirs ==> Partnered(e, b.dirs)) && NamedIn(b.dirs, a.dirs)
      && (forall e :: e in a.files ==> Partnered(e, b.files)) && NamedIn(b.files, a.files)
    else a == b
  }

  /** Some entry of `fs` has the name of `e` and the same content. */
  ghost predicate Partnered(e: Entry, fs: seq<Entry>)
    decreases e
  {
    exists f :: f in fs && f.name == e.name && Same(e.node, f.node)
  }

  ghost predicate NamedIn(fs: seq<Entry>, es: seq<Entry>) {
    forall f :: f in fs ==> exists e :: e in es && e.name == f.name
  }

  ghost predicate Matched(es: seq<Entry>, fs: seq<Entry>) {
    (forall e :: e in es ==> Partnered(e, fs)) && NamedIn(fs, es)
  }

  ghost predicate Ascends(es: seq<Entry>, before: (Bytes, Bytes) -> bool) {
    forall i, j :: 0 <= i < j < |es| ==> before(es[i].name, es[j].name)
  }

  lemma AscendsBehindFirst(e: Entry, es: seq<Entry>, before: (Bytes, Bytes) -> bool)
    requires Ascends(es, before) && forall f :: f in es ==> before(e.name, f.name)
    ensures Ascends([e] + es, before)
  {
    forall i, j | 0 <= i < j < |[e] + es| ensures before(([e] + es)[i].name, ([e] + es)[j].name) {
      assert ([e] + es)[j] == es[j - 1];
      if i > 0 {
        assert ([e] + es)[i] == es[i - 1];
      }
    }
  }

  lemma AscendingTail(es: seq<Entry>, before: (Bytes, Bytes) -> bool)
    requires es != [] && Ascends(es, before)
    ensures Ascends(es[1..], before) && forall f :: f in es[1..] ==> before(es[0].name, f.name)
  {
    forall i | 0 <= i < |es[1..]| ensures es[1..][i] == es[i + 1] {
    }
  }

  lemma {:induction false} InsertAscends(e: Entry, es: seq<Entry>, before: (Bytes, Bytes) -> bool)
    requires TotalOrder(before) && Ascends(es, before) && forall f :: f in es ==> f.name != e.name
    ensures Ascends(Insert(e, es, before), before)
    ensures forall f :: f in Insert(e, es, before) <==> f == e || f in es
  {
    if es != [] {
      AscendingTail(es, before);
      HeadAndTail(es);
    }
    if es == [] || !before(es[0].name, e.name) {
      forall f | f in es ensures before(e.name, f.name) {
        assert before(e.name, es[0].name);
        assert f == es[0] || before(es[0].name, f.name);
      }
      AscendsBehindFirst(e, es, before);
    } else {
      InsertAscends(e, es[1..], before);
      AscendsBehindFirst(es[0], Insert(e, es[1..], before), before);
    }
  }

  lemma {:induction false} SortAscends(es: seq<Entry>, before: (Bytes, Bytes) -> bool)
    requires TotalOrder(before) && WellNamed(es)
    ensures Ascends(Sort(es, before), before)
  {
    if es != [] {
      FirstIsNamedAlone(es);
      SortAscends(es[1..], before);
      SortKeeps(es[1..], before);
      InsertAscends(es[0], Sort(es[1..], before), before);
    }
  }

  lemma FirstIsNamedAlone(es: seq<Entry>)
    requires es != [] && WellNamed(es)
    ensures WellNamed(es[1..]) && forall f :: f in es[1..] ==> f.name != es[0].name
  {
    forall i | 0 <= i < |es[1..]| ensures es[1..][i] == es[i + 1] {
    }
  }

  function Names(es: seq<Entry>): seq<Bytes> {
    seq(|es|, i requires 0 <= i < |es| => es[i].name)
  }

  lemma NamesMatch(es: seq<Entry>, fs: seq<Entry>)
    requires NamedIn(es, fs)
    ensures forall n :: n in Names(es) ==> n in Names(fs)
  {
    forall n | n in Names(es) ensures n in Names(fs) {
      var i :| 0 <= i < |es| && es[i].name == n;
      assert es[i] in es;
      var f :| f in fs && f.name == es[i].name;
      var k :| 0 <= k < |fs| && fs[k] == f;
      assert Names(fs)[k] == n;
    }
  }

  lemma SortedNames(es: seq<Entry>, before: (Bytes, Bytes) -> bool)
    requires TotalOrder(before) && WellNamed(es)
    ensures Ascending(Names(Sort(es, before)), before)
    ensures forall n :: n in Names(Sort(es, before)) <==> n in Names(es)
  {
    SortAscends(es, before);
    SortKeeps(es, before);
    NamesMatch(Sort(es, before), es);
    NamesMatch(es, Sort(es, before));
  }

  /** Matching lists, sorted, agree name by name. */
  lemma SortedNamesAgree(es: seq<Entry>, fs: seq<Entry>, before: (Bytes, Bytes) -> bool)
    requires TotalOrder(before) && WellNamed(es) && WellNamed(fs) && NamedIn(es, fs) && NamedIn(fs, es)
    ensures Names(Sort(es, before)) == Names(Sort(fs, before))
  {
    SortedNames(es, before);
    SortedNames(fs, before);
    NamesMatch(es, fs);
    NamesMatch(fs, es);
    AscendingAgree(Names(Sort(es, before)), Names(Sort(fs, before)), before);
  }

  ghost predicate Paired(x: seq<Entry>, y: seq<Entry>) {
    |x| == |y| && forall i :: 0 <= i < |x| ==> x[i].name == y[i].name && Same(x[i].node, y[i].node)
                                               && WellFormed(x[i].node) && WellFormed(y[i].node)
  }

  lemma UniqueByName(es: seq<Entry>, e: Entry, f: Entry)
    requires WellNamed(es) && e in es && f in es && e.name == f.name
    ensures e == f
  {
  }

  lemma PartnerOf(es: seq<Entry>, fs: seq<Entry>, e: Entry, f: Entry)
    requires Matched(es, fs) && WellNamed(fs) && e in es && f in fs && e.name == f.name
    ensures Same(e.node, f.node)
  {
    var g :| g in fs && g.name == e.name && Same(e.node, g.node);
    UniqueByName(fs, f, g);
  }

  /** Sorting brings matching lists into matching positions. */
  lemma SortPairs(es: seq<Entry>, fs: seq<Entry>, before: (Bytes, Bytes) -> bool)
    requires TotalOrder(before) && WellNamed(es) && WellNamed(fs) && Matched(es, fs)
    requires (forall e :: e in es ==> WellFormed(e.node)) && (forall f :: f in fs ==> WellFormed(f.node))
    ensures Paired(Sort(es, before), Sort(fs, before))
  {
    var x, y := Sort(es, before), Sort(fs, before);
    SortedNamesAgree(es, fs, before);
    SortKeeps(es, before);
    SortKeeps(fs, before);
    assert |Names(x)| == |x| && |Names(y)| == |y|;
    forall i | 0 <= i < |x| ensures x[i].name == y[i].name && Same(x[i].node, y[i].node) && WellFormed(x[i].node)
        && WellFormed(y[i].node) {
      assert Names(x)[i] == x[i].name && Names(y)[i] == y[i].name && x[i] in x && y[i] in y;
      PartnerOf(es, fs, x[i], y[i]);
    }
  }

  lemma SameInfo(a: Node, b: Node)
    requires Same(a, b)
    ensures InfoOf(a) == InfoOf(b) && (a.Dir? <==> b.Dir?)
  {
  }

  lemma PairedListed(path: seq<Bytes>, x: seq<Entry>, y: seq<Entry>, asDir: bool)
    requires Paired(x, y)
    ensures Listed(path, x, asDir) == Listed(path, y, asDir)
  {
    forall i | 0 <= i < |x| ensures Listed(path, x, asDir)[i] == Listed(path, y, asDir)[i] {
      SameInfo(x[i].node, y[i].node);
    }
  }

  lemma {:induction false} SameVisits(path: seq<Bytes>, a: Node, b: Node, before: (Bytes, Bytes) -> bool)
    requires TotalOrder(before) && a.Dir? && b.Dir? && WellFormed(a) && WellFormed(b) && Same(a, b)
    ensures Visits(path, a, before) == Visits(path, b, before)
    decreases Size(a), 0
  {
    Halves(a);
    Halves(b);
    SortPairs(a.dirs, b.dirs, before);
    SortPairs(a.files, b.files, before);
    PairedListed(path, Sort(a.dirs, before), Sort(b.dirs, before), true);
    PairedListed(path, Sort(a.files, before), Sort(b.files, before), false);
    SameBelow(path, Sort(a.dirs, before), Sort(b.dirs, before), before);
  }

  lemma {:induction false} SameBelow(path: seq<Bytes>, x: seq<Entry>, y: seq<Entry>, before: (Bytes, Bytes) -> bool)
    requires TotalOrder(before) && Paired(x, y)
    ensures Below(path, x, before) == Below(path, y, before)
    decreases SizeAll(x), |x|
  {
    if x != [] {
      SameInfo(x[0].node, y[0].node);
      if x[0].node.Dir? {
        SameVisits(path + [x[0].name], x[0].node, y[0].node, before);
      }
      assert forall i :: 0 <= i < |x| - 1 ==> x[1..][i] == x[i + 1] && y[1..][i] == y[i + 1];
      SameBelow(path, x[1..], y[1..], before);
    }
  }

  lemma SameParts(a: Node, b: Node)
    requires a.Dir? && b.Dir?
    ensures Same(a, b) <==> a.mode == b.mode && Matched(a.dirs, b.dirs) && Matched(a.files, b.files)
  {
  }

  lemma NotGitMatches(es: seq<Entry>, fs: seq<Entry>)
    requires Matched(es, fs)
    ensures Matched(NotGit(es), NotGit(fs))
  {
    NotGitNames(es, fs);
    forall e | e in NotGit(es) ensures Partnered(e, NotGit(fs)) {
      NotGitKeeps(es);
      PartnerStays(e, fs);
    }
  }

  lemma NotGitNames(es: seq<Entry>, fs: seq<Entry>)
    requires NamedIn(fs, es)
    ensures NamedIn(NotGit(fs), NotGit(es))
  {
    NotGitKeeps(es);
    NotGitKeeps(fs);
    forall f | f in NotGit(fs) ensures exists e :: e in NotGit(es) && e.name == f.name {
      var e :| e in es && e.name == f.name;
      assert e in NotGit(es);
    }
  }

  lemma PartnerStays(e: Entry, fs: seq<Entry>)
    requires Partnered(e, fs) && e.name != GIT
    ensures Partnered(e, NotGit(fs))
  {
    var f :| f in fs && f.name == e.name && Same(e.node, f.node);
    NotGitKeeps(fs);
    assert f in NotGit(fs);
  }

  lemma StrippedStaysSame(a: Node, b: Node)
    requires a.Dir? && b.Dir? && Same(a, b)
    ensures Same(Stripped(a), Stripped(b))
  {
    SameParts(a, b);
    NotGitMatches(a.dirs, b.dirs);
    NotGitMatches(a.files, b.files);
    SameParts(Stripped(a), Stripped(b));
  }

  lemma SnapshotIsOfVisits(a: Node, b: Node, max: nat, before: (Bytes, Bytes) -> bool)
    requires a.Dir? && b.Dir? && Visits([], Stripped(a), before) == Visits([], Stripped(b), before)
    ensures Snapshot(a, max, before) == Snapshot(b, max, before)
  {
  }

  /** The snapshot does not depend on the order in which the file system lists names. */
  lemma ListingOrderIsIrrelevant(a: Node, b: Node, max: nat, before: (Bytes, Bytes) -> bool)
    requires TotalOrder(before) && a.Dir? && b.Dir? && WellFormed(a) && WellFormed(b) && Same(a, b)
    ensures Snapshot(a, max, before) == Snapshot(b, max, before)
  {
    StrippedIsWellFormed(a);
    StrippedIsWellFormed(b);
    StrippedStaysSame(a, b);
    SameVisits([], Stripped(a), Stripped(b), before);
    SnapshotIsOfVisits(a, b, max, before);
  }

  // ---- The mode of the root

  lemma RootModeIsNotVisited(m: nat, n: nat, dirs: seq<Entry>, files: seq<Entry>, before: (Bytes, Bytes) -> bool)
    ensures Visits([], Dir(m, dirs, files), before) == Visits([], Dir(n, dirs, files), before)
  {
  }

  /** The snapshot does not cover the mode of the root directory. */
  lemma RootModeIsIgnored(m: nat, n: nat, dirs: seq<Entry>, files: seq<Entry>, max: nat, before: (Bytes, Bytes) -> bool)
    ensures Snapshot(Dir(m, dirs, files), max, before) == Snapshot(Dir(n, dirs, files), max, before)
  {
    RootModeIsNotVisited(m, n, NotGit(dirs), NotGit(files), before);
    SnapshotIsOfVisits(Dir(m, dirs, files), Dir(n, dirs, files), max, before);
  }
}
