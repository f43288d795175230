/** One mount of a volume: filling the cache or starting the FUSE session, and undoing it. */
module MountHelper {
  import opened CacheFill
  import opened VolumeContext
  import opened Wrappers

  /** What is mounted somewhere. */
  datatype Attachment = Attachment(volume: string, target: string, mode: MountMode, access: AccessMode)

  /** The kernel's mounts at each target, the last one on top. */
  type Table = map<string, seq<Attachment>>

  function Stack(t: Table, target: string): seq<Attachment> {
    if target in t then t[target] else []
  }

  function Attach(t: Table, a: Attachment): Table {
    t[a.target := Stack(t, a.target) + [a]]
  }

  /** Unmounting a target takes the topmost mount off it. */
  function Detach(t: Table, target: string): Table {
    if Stack(t, target) == [] then t else t[target := Stack(t, target)[..|Stack(t, target)| - 1]]
  }

  class Kernel {
    var table: Table

    constructor ()
      ensures table == map[]
    {
      table := map[];
    }
  }

  class Disk {
    var tree: Tree

    constructor (tree: Tree)
      ensures this.tree == tree
    {
      this.tree := tree;
    }

    method CreateFile(p: Path, granted: bool) returns (ok: bool)
      modifies this
      ensures ok <==> granted && CanCreateFile(old(tree), p)
      ensures tree == if ok then old(tree)[p := File([])] else old(tree)
    {
      ok := granted && CanCreateFile(tree, p);
      if ok {
        tree := tree[p := File([])];
      }
    }

    method Write(p: Path, bytes: Bytes)
      requires p in tree && tree[p].File?
      modifies this
      ensures tree == old(tree)[p := File(old(tree)[p].data + bytes)]
    {
      tree := tree[p := File(tree[p].data + bytes)];
    }

    method CreateDirs(p: Path, granted: bool) returns (ok: bool)
      modifies this
      ensures ok <==> granted && CanMakeDirs(old(tree), p)
      ensures tree == if ok then MakeDirs(old(tree), p) else old(tree)
    {
      ok := granted && CanMakeDirs(tree, p);
      if ok {
        tree := MakeDirs(tree, p);
      }
    }
  }

  /** What the outside answers while a mount is made. `listing` is `None` if the source cannot
      be listed; `attached` is the answer of the last call, the mount itself. */
  datatype Host = Host(
    checked: bool,
    targetReady: bool,
    cacheGranted: bool,
    listing: Option<seq<Entry>>,
    readings: seq<Reading>,
    source: map<Path, Bytes>,
    attached: bool)

  predicate FaithfulReadings(entries: seq<Entry>, readings: seq<Reading>, source: map<Path, Bytes>) {
    && |readings| == |entries|
    && HasContents(entries, source)
    && forall i | 0 <= i < |entries| && entries[i].mode.FileEntry? :: Faithful(readings[i], source[entries[i].path])
  }

  predicate HostOk(host: Host) {
    host.listing.Some? ==> FaithfulReadings(host.listing.value, host.readings, host.source)
  }

  function CachePath(volume: string): Path {
    ["mnt", volume]
  }

  /** The disk once the cache directory is made. */
  function WithCache(t: Tree, cache: Path): Tree {
    if cache in t then t else MakeDirs(t, cache)
  }

  /** Everything a cached mount needs is there. */
  predicate CacheMounts(t: Tree, cache: Path, host: Host)
    requires HostOk(host)
  {
    && (cache in t || (host.cacheGranted && CanMakeDirs(t, cache)))
    && host.listing.Some?
    && Filling(WithCache(t, cache), cache, host.listing.value, host.readings, host.source, |host.listing.value|)
    && host.attached
  }

  /** The disk after a cached mount. */
  function CacheOf(t: Tree, cache: Path, host: Host): Tree
    requires HostOk(host) && host.listing.Some?
  {
    Filled(WithCache(t, cache), cache, host.listing.value, host.source, |host.listing.value|)
  }

  /** The disk after a cached mount that failed: the cache directory at most, the cache up to
      an entry that failed, or all of it with the mount itself refused. */
  ghost predicate CacheAborted(t: Tree, cache: Path, host: Host, t': Tree)
    requires HostOk(host)
  {
    || (t' == t && cache !in t && !(host.cacheGranted && CanMakeDirs(t, cache)))
    || (t' == WithCache(t, cache) && host.listing.None?)
    || (host.listing.Some? && exists k: nat ::
          StoppedAt(WithCache(t, cache), cache, host.listing.value, host.readings, host.source, k, t'))
    || (host.listing.Some? && t' == CacheOf(t, cache, host) && !host.attached)
  }

  /** Everything a mount needs is there. */
  predicate Mountable(a: Attachment, t: Tree, host: Host)
    requires HostOk(host)
  {
    && host.checked
    && host.targetReady
    && if a.mode.Fuse? then host.attached else CacheMounts(t, CachePath(a.volume), host)
  }

  /** The disk after a mount: touched by a cached mount alone, which leaves the whole cache or
      what it was aborted in. */
  ghost predicate DiskAfter(a: Attachment, host: Host, ok: bool, t: Tree, t': Tree)
    requires HostOk(host)
  {
    if a.mode.Fuse? || !host.checked || !host.targetReady then t' == t
    else if ok then host.listing.Some? && t' == CacheOf(t, CachePath(a.volume), host)
    else CacheAborted(t, CachePath(a.volume), host, t')
  }

  lemma StoppedIsNotDone(
    t: Tree, cache: Path, entries: seq<Entry>, readings: seq<Reading>, source: map<Path, Bytes>, k: nat, t': Tree)
    requires |entries| == |readings| && HasContents(entries, source)
    requires StoppedAt(t, cache, entries, readings, source, k, t')
    ensures !Filling(t, cache, entries, readings, source, |entries|)
  {
  }

  /** What a successful cached mount makes of the disk: every listed file has the source's
      bytes, every listed directory is there, what was there and is no listed file is as it was;
      and mounting again, from a source that has not changed, changes nothing and succeeds. */
  lemma CacheIsTheSource(t: Tree, volume: string, host: Host, host': Host)
    requires HostOk(host) && CacheMounts(t, CachePath(volume), host) && DistinctPaths(host.listing.value)
    requires HostOk(host') && host'.listing == host.listing && host'.source == host.source && host'.attached
    requires forall r | r in host'.readings :: r.granted && r.readable && r.ended
    ensures var cache, t' := CachePath(volume), CacheOf(t, CachePath(volume), host);
            && (forall i: nat | i < |host.listing.value| && host.listing.value[i].mode.FileEntry? ::
                  && cache + host.listing.value[i].path in t'
                  && t'[cache + host.listing.value[i].path] == File(host.source[host.listing.value[i].path]))
            && (forall i: nat | i < |host.listing.value| && host.listing.value[i].mode.DirEntry? ::
                  cache + host.listing.value[i].path in t')
            && (forall q | q in t && !Lists(host.listing.value, cache, |host.listing.value|, q, FileEntry) ::
                  q in t' && t'[q] == t[q])
            && CacheMounts(t', cache, host')
            && CacheOf(t', cache, host') == t'
  {
    var cache, entries := CachePath(volume), host.listing.value;
    var start, n := WithCache(t, cache), |entries|;
    forall i: nat | i < n && entries[i].mode.FileEntry?
      ensures var p := cache + entries[i].path;
              p in CacheOf(t, cache, host) && CacheOf(t, cache, host)[p] == File(host.source[entries[i].path])
    {
      FillWritesFiles(start, cache, entries, host.source, n, i);
    }
    forall i: nat | i < n && entries[i].mode.DirEntry?
      ensures cache + entries[i].path in CacheOf(t, cache, host)
    {
      DirIsThere(start, cache, entries, host.source, n, i);
    }
    forall q | q in start && !Lists(entries, cache, n, q, FileEntry)
      ensures q in CacheOf(t, cache, host) && CacheOf(t, cache, host)[q] == start[q]
    {
      FillKeepsOthers(start, cache, entries, host.source, n, q);
    }
    FillKeepsPaths(start, cache, entries, host.source, n, cache);
    FillTwice(start, cache, entries, host.source, n);
    FillAgainSucceeds(start, cache, entries, host.readings, host'.readings, host.source);
  }

  /** A file in the place of a listed directory is no reason to fail: whatever the file holds,
      the mount succeeds and the file is still there. */
  lemma FileInPlaceOfDirectory(volume: string, data: Bytes) returns (t: Tree, host: Host)
    ensures HostOk(host) && host.listing == Some([Entry(["d"], DirEntry)])
    ensures CacheMounts(t, CachePath(volume), host)
    ensures var p, t' := CachePath(volume) + ["d"], CacheOf(t, CachePath(volume), host);
            p in t' && t'[p] == File(data)
  {
    var cache := CachePath(volume);
    var entries := [Entry(["d"], DirEntry)];
    t := map[[] := Dir, ["mnt"] := Dir, cache := Dir, cache + ["d"] := File(data)];
    host := Host(true, true, true, Some(entries), [Reading(true, true, [], true)], map[], true);
    assert HasContents(entries, host.source);
    assert Filled(t, cache, entries, host.source, 0) == t;
    assert cache + entries[0].path == cache + ["d"];
    assert SucceedsAt(t, cache, entries, host.readings, host.source, 0);
    assert Filled(t, cache, entries, host.source, 1) == t;
  }

  /** The caches of two volumes have no path in common. */
  lemma CachesApart(v: string, w: string, q: Path)
    requires v != w && CachePath(v) <= q
    ensures !(CachePath(w) <= q) && !(q <= CachePath(w))
  {
    assert CachePath(v)[1] == v && CachePath(w)[1] == w;
  }

  /** Neither within a cache nor on the way to it. */
  predicate Beside(cache: Path, q: Path) {
    !(cache <= q) && !(q <= cache)
  }

  predicate Same(t: Tree, t': Tree, q: Path) {
    (q in t' <==> q in t) && (q in t ==> t'[q] == t[q])
  }

  lemma PrefixesAgree(a: Path, b: Path, c: Path)
    requires a <= c && b <= c
    ensures a <= b || b <= a
  {
    if |a| <= |b| {
      assert a == c[..|a|] == b[..|a|];
    } else {
      assert b == c[..|b|] == a[..|b|];
    }
  }

  lemma EntryIsElsewhere(cache: Path, p: Path, q: Path)
    requires Beside(cache, q)
    ensures !(q <= cache + p)
  {
    if q <= cache + p {
      PrefixesAgree(q, cache, cache + p);
    }
  }

  lemma {:induction false} FillStaysInside(
    t: Tree, cache: Path, entries: seq<Entry>, source: map<Path, Bytes>, k: nat, q: Path)
    requires k <= |entries| && HasContents(entries, source) && Beside(cache, q)
    ensures Same(t, Filled(t, cache, entries, source, k), q)
  {
    if k > 0 {
      FillStaysInside(t, cache, entries, source, k - 1, q);
      EntryIsElsewhere(cache, entries[k - 1].path, q);
    }
  }

  lemma BegunStaysInside(t: Tree, cache: Path, e: Entry, source: map<Path, Bytes>, t': Tree, q: Path)
    requires e.mode.FileEntry? ==> e.path in source
    requires Begun(t, cache, e, source, t') && Beside(cache, q)
    ensures Same(t, t', q)
  {
    EntryIsElsewhere(cache, e.path, q);
  }

  lemma WithCacheStaysInside(t: Tree, cache: Path, q: Path)
    requires Beside(cache, q)
    ensures Same(t, WithCache(t, cache), q)
  {
  }

  /** Whatever a mount of one volume does to the disk, successful or not, no path of another
      volume's cache is touched. */
  lemma MountLeavesOtherCaches(a: Attachment, host: Host, ok: bool, t: Tree, t': Tree, v: string, q: Path)
    requires HostOk(host) && DiskAfter(a, host, ok, t, t')
    requires v != a.volume && CachePath(v) <= q
    ensures Same(t, t', q)
  {
    var cache := CachePath(a.volume);
    CachesApart(v, a.volume, q);
    WithCacheStaysInside(t, cache, q);
    if host.listing.Some? {
      var entries, start := host.listing.value, WithCache(t, cache);
      FillStaysInside(start, cache, entries, host.source, |entries|, q);
      if k: nat :| StoppedAt(start, cache, entries, host.readings, host.source, k, t') {
        FillStaysInside(start, cache, entries, host.source, k, q);
        BegunStaysInside(Filled(start, cache, entries, host.source, k), cache, entries[k], host.source, t', q);
      }
    }
  }

  /** After the first mount of a volume its cache holds what is listed and nothing else: listed
      files, and directories on the way to listed ones. */
  lemma FreshCacheHoldsListing(t: Tree, volume: string, host: Host, q: Path) returns (i: nat)
    requires HostOk(host) && CacheMounts(t, CachePath(volume), host)
    requires forall x | x in t :: !(CachePath(volume) <= x)
    requires q in CacheOf(t, CachePath(volume), host) && CachePath(volume) < q
    ensures i < |host.listing.value|
    ensures var e, p := host.listing.value[i], CachePath(volume) + host.listing.value[i].path;
            || (e.mode.FileEntry? && q == p)
            || (e.mode.DirEntry? && q <= p && CacheOf(t, CachePath(volume), host)[q].Dir?)
  {
    var cache, entries := CachePath(volume), host.listing.value;
    var start, n := WithCache(t, cache), |entries|;
    assert q !in start;
    if Lists(entries, cache, n, q, FileEntry) {
      i :| 0 <= i < n && cache + entries[i].path == q && entries[i].mode == FileEntry;
    } else {
      FillAddsOnlyListed(start, cache, entries, host.source, n, q);
      i :| 0 <= i < n && entries[i].mode.DirEntry? && q <= cache + entries[i].path;
    }
  }

  class Mount {
    const volumeId: string
    const targetPath: string
    const mode: MountMode
    const access: AccessMode
    var fuseMount: Option<Attachment>

    constructor (volumeId: string, targetPath: string, mode: MountMode, access: AccessMode)
      ensures this.volumeId == volumeId && this.targetPath == targetPath
      ensures this.mode == mode && this.access == access && fuseMount == None
    {
      this.volumeId := volumeId;
      this.targetPath := targetPath;
      this.mode := mode;
      this.access := access;
      fuseMount := None;
    }

    function Kind(): Attachment {
      Attachment(volumeId, targetPath, mode, access)
    }

    /** The inner loop of `mount_cached`: one file, chunk by chunk. */
    method FillFile(disk: Disk, p: Path, reading: Reading, ghost content: Bytes) returns (ok: bool)
      requires Faithful(reading, content)
      modifies disk
      ensures ok <==> CanCreateFile(old(disk.tree), p) && reading.granted && reading.readable && reading.ended
      ensures ok ==> disk.tree == old(disk.tree)[p := File(content)]
      ensures !ok ==> || disk.tree == old(disk.tree)
                      || exists part: Bytes :: part <= content && disk.tree == old(disk.tree)[p := File(part)]
    {
      var created := disk.CreateFile(p, reading.granted);
      if !created {
        return false;
      }
      if !reading.readable {
        return false;
      }
      for i := 0 to |reading.chunks|
        invariant disk.tree == old(disk.tree)[p := File(Concat(reading.chunks[..i]))]
      {
        assert reading.chunks[..i + 1][..i] == reading.chunks[..i];
        disk.Write(p, reading.chunks[i]);
      }
      assert reading.chunks[..|reading.chunks|] == reading.chunks;
      return reading.ended;
    }

    /** One turn of the outer loop of `mount_cached`. */
    method FillEntry(disk: Disk, cache: Path, entry: Entry, reading: Reading, source: map<Path, Bytes>)
      returns (r: Result<(), Status>)
      requires entry.mode.FileEntry? ==> entry.path in source && Faithful(reading, source[entry.path])
      modifies disk
      ensures r.Ok? <==> Succeeds(old(disk.tree), cache, entry, reading)
      ensures r.Ok? ==> disk.tree == Handled(old(disk.tree), cache, entry, source)
      ensures r.Err? ==> Begun(old(disk.tree), cache, entry, source, disk.tree)
      ensures r == Err(UnknownEntry) <==> entry.mode.OtherEntry?
    {
      var p := cache + entry.path;
      var ok := true;
      match entry.mode {
        case FileEntry =>
          ok := FillFile(disk, p, reading, source[entry.path]);
        case DirEntry =>
          if p !in disk.tree {
            ok := disk.CreateDirs(p, reading.granted);
          }
        case OtherEntry =>
          return Err(UnknownEntry);
      }
      return if ok then Ok(()) else Err(Internal);
    }

    /** The outer loop of `mount_cached`: either every entry is handled to its end, or the fill
        stops in the first that is not. */
    method FillCache(disk: Disk, cache: Path, entries: seq<Entry>, readings: seq<Reading>, source: map<Path, Bytes>)
      returns (r: Result<(), Status>, ghost stop: nat)
      requires FaithfulReadings(entries, readings, source)
      modifies disk
      ensures r.Ok? ==>
                && Filling(old(disk.tree), cache, entries, readings, source, |entries|)
                && disk.tree == Filled(old(disk.tree), cache, entries, source, |entries|)
      ensures r.Err? ==> StoppedAt(old(disk.tree), cache, entries, readings, source, stop, disk.tree)
    {
      ghost var t := disk.tree;
      r, stop := Ok(()), 0;
      for i := 0 to |entries|
        invariant disk.tree == Filled(t, cache, entries, source, i)
        invariant Filling(t, cache, entries, readings, source, i)
      {
        r := FillEntry(disk, cache, entries[i], readings[i], source);
        if r.Err? {
          stop := i;
          return;
        }
      }
      return Ok(()), |entries|;
    }

    /** `mount_cached`: it succeeds exactly when every call and every entry does, and then the
        cache is the listing handled to its end. */
    method MountCached(kernel: Kernel, disk: Disk, host: Host) returns (r: Result<(), Status>)
      requires HostOk(host)
      modifies kernel, disk
      ensures r.Ok? <==> CacheMounts(old(disk.tree), CachePath(volumeId), host)
      ensures r.Ok? ==> disk.tree == CacheOf(old(disk.tree), CachePath(volumeId), host)
      ensures r.Err? ==> CacheAborted(old(disk.tree), CachePath(volumeId), host, disk.tree)
      ensures kernel.table == if r.Ok? then Attach(old(kernel.table), Kind()) else old(kernel.table)
    {
      var cache := CachePath(volumeId);
      if cache !in disk.tree {
        var ok := disk.CreateDirs(cache, host.cacheGranted);
        if !ok {
          return Err(Internal);
        }
      }
      if host.listing.None? {
        return Err(Internal);
      }
      ghost var start, stop := disk.tree, 0;
      r, stop := FillCache(disk, cache, host.listing.value, host.readings, host.source);
      if r.Err? {
        StoppedIsNotDone(start, cache, host.listing.value, host.readings, host.source, stop, disk.tree);
        return;
      }
      if !host.attached {
        return Err(Internal);
      }
      kernel.table := Attach(kernel.table, Kind());
      return Ok(());
    }

    /** `mount_fuse`. */
    method MountFuse(kernel: Kernel, host: Host) returns (r: Result<(), Status>)
      modifies this, kernel
      ensures r.Ok? <==> host.attached
      ensures r.Ok? ==> kernel.table == Attach(old(kernel.table), Kind()) && fuseMount == Some(Kind())
      ensures r.Err? ==> kernel.table == old(kernel.table) && fuseMount == old(fuseMount)
    {
      if !host.attached {
        return Err(Internal);
      }
      kernel.table := Attach(kernel.table, Kind());
      fuseMount := Some(Kind());
      return Ok(());
    }

    /** `mount`: a success adds this one mount to the kernel's, a failure adds none. */
    method Mount(kernel: Kernel, disk: Disk, host: Host) returns (r: Result<(), Status>)
      requires HostOk(host)
      modifies this, kernel, disk
      ensures r.Ok? <==> Mountable(Kind(), old(disk.tree), host)
      ensures r.Ok? ==> host.checked && host.targetReady && host.attached
      ensures mode.Fuse? ==> (r.Ok? <==> host.checked && host.targetReady && host.attached)
      ensures DiskAfter(Kind(), host, r.Ok?, old(disk.tree), disk.tree)
      ensures r.Ok? ==>
                && kernel.table == Attach(old(kernel.table), Kind())
                && fuseMount == if mode.Fuse? then Some(Kind()) else old(fuseMount)
      ensures r.Err? ==> kernel.table == old(kernel.table) && fuseMount == old(fuseMount)
    {
      if !host.checked {
        return Err(Internal);
      }
      if !host.targetReady {
        return Err(Internal);
      }
      match mode
      case Cached => r := MountCached(kernel, disk, host);
      case Fuse => r := MountFuse(kernel, host);
    }

    /** `unmount`: by target for a cache, by the handle, which is given up in any case, for a
        FUSE session. `detached` is the kernel's answer. */
    method Unmount(kernel: Kernel, detached: bool) returns (r: Result<(), Status>)
      modifies this, kernel
      ensures var asked := mode.Cached? || old(fuseMount).Some?;
              var done := detached && Stack(old(kernel.table), targetPath) != [];
              && r == (if asked && !done then Err(Internal) else Ok(()))
              && kernel.table == (if asked && done then Detach(old(kernel.table), targetPath) else old(kernel.table))
              && fuseMount == if mode.Fuse? then None else old(fuseMount)
    {
      match mode
      case Cached =>
        if !detached || Stack(kernel.table, targetPath) == [] {
          return Err(Internal);
        }
        kernel.table := Detach(kernel.table, targetPath);
        return Ok(());
      case Fuse =>
        var handle := fuseMount;
        fuseMount := None;
        if handle.Some? {
          if !detached || Stack(kernel.table, targetPath) == [] {
            return Err(Internal);
          }
          kernel.table := Detach(kernel.table, targetPath);
        }
        return Ok(());
    }
  }
}
