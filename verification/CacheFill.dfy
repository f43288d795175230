/** The file tree below the cache directories, and what filling a cache from a listing makes
    of it. */
module CacheFill {

  newtype byte = x: int | 0 <= x < 256
  type Bytes = seq<byte>

  /** A path is its components. */
  type Path = seq<string>

  datatype Inode = Dir | File(data: Bytes)

  type Tree = map<Path, Inode>

  datatype EntryMode = FileEntry | DirEntry | OtherEntry

  /** An entry of the data source's listing, with its path relative to the cache. */
  datatype Entry = Entry(path: Path, mode: EntryMode)

  /** What the outside does while one entry is handled: whether the file or directory may be
      created, whether the source can be read, the chunks its stream yields, and whether the
      stream comes to its end without an error. */
  datatype Reading = Reading(granted: bool, readable: bool, chunks: seq<Bytes>, ended: bool)

  function Concat(chunks: seq<Bytes>): Bytes {
    if chunks == [] then [] else Concat(chunks[..|chunks| - 1]) + chunks[|chunks| - 1]
  }

  /** The chunks are the content, cut anyhow, or a beginning of it if the stream broke. */
  predicate Faithful(r: Reading, content: Bytes) {
    Concat(r.chunks) <= content && (r.ended ==> Concat(r.chunks) == content)
  }

  /** `File::create`: the parent must be a directory, and the path not one itself. */
  predicate CanCreateFile(t: Tree, p: Path) {
    p != [] && p[..|p| - 1] in t && t[p[..|p| - 1]].Dir? && !(p in t && t[p].Dir?)
  }

  /** A recursive `DirBuilder`: no file may stand on the way. */
  predicate CanMakeDirs(t: Tree, p: Path) {
    forall i | 0 <= i <= |p| :: p[..i] in t ==> t[p[..i]].Dir?
  }

  function MakeDirs(t: Tree, p: Path): (t': Tree)
    ensures forall q | q in t :: q in t' && t'[q] == t[q]
    ensures forall q | q in t' && q !in t :: q <= p && t'[q].Dir?
    ensures p in t'
  {
    assert p[..|p|] == p;
    (map i | 0 <= i <= |p| :: p[..i] := Dir) + t
  }

  /** A directory comes with all those above it. */
  lemma MakesAllDirs(t: Tree, p: Path, q: Path)
    requires q <= p
    ensures q in MakeDirs(t, p)
  {
    assert q == p[..|q|];
  }

  predicate HasContents(entries: seq<Entry>, source: map<Path, Bytes>) {
    forall e | e in entries && e.mode.FileEntry? :: e.path in source
  }

  /** An entry handled to its end. */
  function Handled(t: Tree, cache: Path, e: Entry, source: map<Path, Bytes>): Tree
    requires e.mode.FileEntry? ==> e.path in source
  {
    match e.mode
    case FileEntry => t[cache + e.path := File(source[e.path])]
    case DirEntry => if cache + e.path in t then t else MakeDirs(t, cache + e.path)
    case OtherEntry => t
  }

  /** The first `k` entries of a listing handled in order. */
  function Filled(t: Tree, cache: Path, entries: seq<Entry>, source: map<Path, Bytes>, k: nat): Tree
    requires k <= |entries| && HasContents(entries, source)
  {
    if k == 0 then t else Handled(Filled(t, cache, entries, source, k - 1), cache, entries[k - 1], source)
  }

  /** Handling the entry comes to its end. */
  predicate Succeeds(t: Tree, cache: Path, e: Entry, r: Reading) {
    match e.mode
    case FileEntry => CanCreateFile(t, cache + e.path) && r.granted && r.readable && r.ended
    case DirEntry => cache + e.path in t || (CanMakeDirs(t, cache + e.path) && r.granted)
    case OtherEntry => false
  }

  /** An entry given up: nothing of it is there, or the beginning of a file. */
  ghost predicate Begun(t: Tree, cache: Path, e: Entry, source: map<Path, Bytes>, t': Tree)
    requires e.mode.FileEntry? ==> e.path in source
  {
    || t' == t
    || (e.mode.FileEntry? && exists part: Bytes :: part <= source[e.path] && t' == t[cache + e.path := File(part)])
  }

  predicate SucceedsAt(
    t: Tree, cache: Path, entries: seq<Entry>, readings: seq<Reading>, source: map<Path, Bytes>, i: nat)
    requires i < |entries| == |readings| && HasContents(entries, source)
  {
    Succeeds(Filled(t, cache, entries, source, i), cache, entries[i], readings[i])
  }

  /** The first `k` entries come to their ends. */
  predicate Filling(t: Tree, cache: Path, entries: seq<Entry>, readings: seq<Reading>, source: map<Path, Bytes>, k: nat)
    requires k <= |entries| == |readings| && HasContents(entries, source)
  {
    forall i: nat | i < k :: SucceedsAt(t, cache, entries, readings, source, i)
  }

  /** A fill that stopped in entry `k`: all before it handled, it not at all or begun. */
  ghost predicate StoppedAt(
    t: Tree, cache: Path, entries: seq<Entry>, readings: seq<Reading>, source: map<Path, Bytes>, k: nat, t': Tree)
    requires |entries| == |readings| && HasContents(entries, source)
  {
    && k < |entries|
    && Filling(t, cache, entries, readings, source, k)
    && !SucceedsAt(t, cache, entries, readings, source, k)
    && Begun(Filled(t, cache, entries, source, k), cache, entries[k], source, t')
  }

  predicate DistinctPaths(entries: seq<Entry>) {
    forall i, j | 0 <= i < j < |entries| :: entries[i].path != entries[j].path
  }

  predicate Lists(entries: seq<Entry>, cache: Path, k: nat, q: Path, mode: EntryMode)
    requires k <= |entries|
  {
    exists i | 0 <= i < k :: cache + entries[i].path == q && entries[i].mode == mode
  }

  lemma SamePath(cache: Path, a: Path, b: Path)
    requires cache + a == cache + b
    ensures a == b
  {
    assert a == (cache + a)[|cache|..] && b == (cache + b)[|cache|..];
  }

  /** What was there and is not a listed file is not changed. */
  lemma {:induction false} FillKeepsOthers(
    t: Tree, cache: Path, entries: seq<Entry>, source: map<Path, Bytes>, k: nat, q: Path)
    requires k <= |entries| && HasContents(entries, source)
    requires q in t && !Lists(entries, cache, k, q, FileEntry)
    ensures q in Filled(t, cache, entries, source, k) && Filled(t, cache, entries, source, k)[q] == t[q]
  {
    if k > 0 {
      FillKeepsOthers(t, cache, entries, source, k - 1, q);
    }
  }

  /** What is new is a listed file, or a directory on the way to a listed one. */
  lemma {:induction false} FillAddsOnlyListed(
    t: Tree, cache: Path, entries: seq<Entry>, source: map<Path, Bytes>, k: nat, q: Path)
    requires k <= |entries| && HasContents(entries, source)
    requires q !in t && q in Filled(t, cache, entries, source, k) && !Lists(entries, cache, k, q, FileEntry)
    ensures Filled(t, cache, entries, source, k)[q].Dir?
    ensures exists i | 0 <= i < k :: entries[i].mode.DirEntry? && q <= cache + entries[i].path
  {
    if k > 0 && q in Filled(t, cache, entries, source, k - 1) {
      FillAddsOnlyListed(t, cache, entries, source, k - 1, q);
    }
  }

  /** Nothing is removed. */
  lemma {:induction false} FillKeepsPaths(
    t: Tree, cache: Path, entries: seq<Entry>, source: map<Path, Bytes>, k: nat, q: Path)
    requires k <= |entries| && HasContents(entries, source) && q in t
    ensures q in Filled(t, cache, entries, source, k)
  {
    if k > 0 {
      FillKeepsPaths(t, cache, entries, source, k - 1, q);
    }
  }

  /** A listed file has the source's bytes. */
  lemma {:induction false} FillWritesFiles(
    t: Tree, cache: Path, entries: seq<Entry>, source: map<Path, Bytes>, k: nat, i: nat)
    requires k <= |entries| && HasContents(entries, source) && DistinctPaths(entries)
    requires i < k && entries[i].mode.FileEntry?
    ensures cache + entries[i].path in Filled(t, cache, entries, source, k)
    ensures Filled(t, cache, entries, source, k)[cache + entries[i].path] == File(source[entries[i].path])
    decreases k
  {
    if i < k - 1 {
      FillWritesFiles(t, cache, entries, source, k - 1, i);
      if cache + entries[k - 1].path == cache + entries[i].path {
        SamePath(cache, entries[k - 1].path, entries[i].path);
      }
    }
  }

  /** A listed directory exists, as a directory unless a file was in its place before. */
  lemma {:induction false} FillMakesDirs(
    t: Tree, cache: Path, entries: seq<Entry>, source: map<Path, Bytes>, k: nat, i: nat)
    requires k <= |entries| && HasContents(entries, source) && DistinctPaths(entries)
    requires i < k && entries[i].mode.DirEntry?
    ensures var p := cache + entries[i].path;
            p in Filled(t, cache, entries, source, k)
            && (Filled(t, cache, entries, source, k)[p].Dir? <==> !(p in t && t[p].File?))
  {
    var p := cache + entries[i].path;
    DirIsThere(t, cache, entries, source, k, i);
    if j :| 0 <= j < k && cache + entries[j].path == p && entries[j].mode == FileEntry {
      SamePath(cache, entries[j].path, entries[i].path);
    }
    if p in t {
      FillKeepsOthers(t, cache, entries, source, k, p);
    } else {
      FillAddsOnlyListed(t, cache, entries, source, k, p);
    }
  }

  lemma {:induction false} DirIsThere(
    t: Tree, cache: Path, entries: seq<Entry>, source: map<Path, Bytes>, k: nat, i: nat)
    requires k <= |entries| && HasContents(entries, source)
    requires i < k && entries[i].mode.DirEntry?
    ensures cache + entries[i].path in Filled(t, cache, entries, source, k)
    decreases k
  {
    if i < k - 1 {
      DirIsThere(t, cache, entries, source, k - 1, i);
    }
  }

  /** Filling again from the same source changes nothing. */
  lemma {:induction false} FillTwice(t: Tree, cache: Path, entries: seq<Entry>, source: map<Path, Bytes>, k: nat)
    requires k <= |entries| && HasContents(entries, source) && DistinctPaths(entries)
    ensures var t' := Filled(t, cache, entries, source, |entries|);
            Filled(t', cache, entries, source, k) == t'
  {
    if k > 0 {
      var t' := Filled(t, cache, entries, source, |entries|);
      FillTwice(t, cache, entries, source, k - 1);
      if entries[k - 1].mode.FileEntry? {
        FillWritesFiles(t, cache, entries, source, |entries|, k - 1);
      } else if entries[k - 1].mode.DirEntry? {
        DirIsThere(t, cache, entries, source, |entries|, k - 1);
      }
    }
  }

  lemma HandledKeepsDirs(t: Tree, cache: Path, e: Entry, r: Reading, source: map<Path, Bytes>, q: Path)
    requires e.mode.FileEntry? ==> e.path in source
    requires Succeeds(t, cache, e, r) && q in t && t[q].Dir?
    ensures q in Handled(t, cache, e, source) && Handled(t, cache, e, source)[q].Dir?
  {
  }

  /** While entries succeed, a directory stays one. */
  lemma {:induction false} DirsStay(
    t: Tree, cache: Path, entries: seq<Entry>, readings: seq<Reading>, source: map<Path, Bytes>, i: nat, k: nat,
    q: Path)
    requires |entries| == |readings| && HasContents(entries, source) && i <= k <= |entries|
    requires Filling(t, cache, entries, readings, source, k)
    requires q in Filled(t, cache, entries, source, i) && Filled(t, cache, entries, source, i)[q].Dir?
    ensures q in Filled(t, cache, entries, source, k) && Filled(t, cache, entries, source, k)[q].Dir?
    decreases k
  {
    if i < k {
      DirsStay(t, cache, entries, readings, source, i, k - 1, q);
      assert SucceedsAt(t, cache, entries, readings, source, k - 1);
      HandledKeepsDirs(Filled(t, cache, entries, source, k - 1), cache, entries[k - 1], readings[k - 1], source, q);
    }
  }

  /** After a fill that came to its end, a second one fails at no entry, if the source answers. */
  lemma {:induction false} FillAgainSucceeds(
    t: Tree, cache: Path, entries: seq<Entry>, readings: seq<Reading>, readings': seq<Reading>,
    source: map<Path, Bytes>)
    requires |entries| == |readings| == |readings'| && HasContents(entries, source) && DistinctPaths(entries)
    requires Filling(t, cache, entries, readings, source, |entries|)
    requires forall r | r in readings' :: r.granted && r.readable && r.ended
    ensures Filling(Filled(t, cache, entries, source, |entries|), cache, entries, readings', source, |entries|)
  {
    var n := |entries|;
    var t' := Filled(t, cache, entries, source, n);
    forall i: nat | i < n
      ensures SucceedsAt(t', cache, entries, readings', source, i)
    {
      FillTwice(t, cache, entries, source, i);
      assert SucceedsAt(t, cache, entries, readings, source, i);
      var p := cache + entries[i].path;
      if entries[i].mode.FileEntry? {
        FillWritesFiles(t, cache, entries, source, n, i);
        DirsStay(t, cache, entries, readings, source, i, n, p[..|p| - 1]);
      } else {
        DirIsThere(t, cache, entries, source, n, i);
      }
    }
  }

  /** A tree proper: what is above a path is a directory. */
  predicate Above(t: Tree, p: Path, i: nat)
    requires i <= |p|
  {
    p[..i] in t && t[p[..i]].Dir?
  }

  predicate IsTree(t: Tree) {
    forall p, i: nat | p in t && i < |p| :: Above(t, p, i)
  }

  lemma MakeDirsKeepsTree(t: Tree, p: Path)
    requires IsTree(t) && CanMakeDirs(t, p)
    ensures IsTree(MakeDirs(t, p))
  {
    var t' := MakeDirs(t, p);
    forall q, i: nat | q in t' && i < |q| ensures Above(t', q, i) {
      if q in t {
        assert Above(t, q, i);
      } else {
        assert q[..i] == p[..i];
        MakesAllDirs(t, p, p[..i]);
      }
    }
  }

  lemma CreateKeepsTree(t: Tree, p: Path, data: Bytes)
    requires IsTree(t) && CanCreateFile(t, p)
    ensures IsTree(t[p := File(data)])
  {
    var t' := t[p := File(data)];
    forall q, i: nat | q in t' && i < |q| ensures Above(t', q, i) {
      if q == p {
        if i < |p| - 1 {
          assert Above(t, p[..|p| - 1], i) && p[..|p| - 1][..i] == p[..i];
        }
        assert p[..i] != p;
      } else {
        assert Above(t, q, i);
      }
    }
  }

  /** Filling a cache leaves a tree a tree, as long as its entries succeed. */
  lemma {:induction false} FillKeepsTree(
    t: Tree, cache: Path, entries: seq<Entry>, readings: seq<Reading>, source: map<Path, Bytes>, k: nat)
    requires |entries| == |readings| && HasContents(entries, source) && k <= |entries|
    requires IsTree(t) && Filling(t, cache, entries, readings, source, k)
    ensures IsTree(Filled(t, cache, entries, source, k))
  {
    if k > 0 {
      FillKeepsTree(t, cache, entries, readings, source, k - 1);
      assert SucceedsAt(t, cache, entries, readings, source, k - 1);
      var before, e := Filled(t, cache, entries, source, k - 1), entries[k - 1];
      if e.mode.FileEntry? {
        CreateKeepsTree(before, cache + e.path, source[e.path]);
      } else if cache + e.path !in before {
        MakeDirsKeepsTree(before, cache + e.path);
      }
    }
  }
}
