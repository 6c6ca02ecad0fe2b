/** The capture cache: skipping the re-reading of files that look unchanged, while others keep writing them. */
module CaptureCache {
  import opened Options

  /** A file as stat sees it, and its bytes; inode 0 is unknown. */
  datatype FileState = FileState(mtime: int, inode: nat, regular: bool, bytes: string)

  type Disk = map<string, FileState>

  /** A hash is carried as the bytes it addresses. */
  datatype Entry = Entry(size: nat, mtime: int, inode: nat, sha: string)

  type Entries = map<string, Entry>

  /** The cache file. */
  datatype Saved = Saved(writtenAt: int, entries: Entries)

  // ---- what a lookup trusts -------------------------------------------------------------

  predicate SameInode(e: Entry, f: FileState) { f.inode == 0 || e.inode == 0 || f.inode == e.inode }

  predicate Looks(e: Entry, f: FileState) { e.size == |f.bytes| && e.mtime == f.mtime && SameInode(e, f) }

  predicate Hits(entries: Entries, writtenAt: int, p: string, f: FileState) {
    p in entries && Looks(entries[p], f) && f.mtime < writtenAt
  }

  /** Should p look as the entry says with an mtime below t, the entry has its bytes. */
  ghost predicate Vouches(disk: Disk, p: string, e: Entry, t: int) {
    p in disk && Looks(e, disk[p]) && disk[p].mtime < t ==> disk[p].bytes == e.sha
  }

  ghost predicate Truthful(disk: Disk, entries: Entries, t: int) {
    forall p :: p in entries ==> Vouches(disk, p, entries[p], t)
  }

  /** Any number of writes, renames and deletions after a cache was opened: nothing written then is older than floor. */
  ghost predicate Later(d: Disk, e: Disk, floor: int) {
    forall p :: p in e ==> (p in d && e[p] == d[p]) || e[p].mtime >= floor
  }

  lemma LaterTransitive(a: Disk, b: Disk, c: Disk, floor: int)
    requires Later(a, b, floor) && Later(b, c, floor)
    ensures Later(a, c, floor)
  {
  }

  /** Writes cannot make an entry lie below a time no later than the floor. */
  lemma VouchesStays(d: Disk, e: Disk, floor: int, p: string, entry: Entry, t: int)
    requires Later(d, e, floor) && t <= floor && Vouches(d, p, entry, t)
    ensures Vouches(e, p, entry, t)
  {
  }

  lemma TruthfulStays(d: Disk, e: Disk, floor: int, entries: Entries, t: int)
    requires Later(d, e, floor) && t <= floor && Truthful(d, entries, t)
    ensures Truthful(e, entries, t)
  {
    forall p | p in entries ensures Vouches(e, p, entries[p], t) { VouchesStays(d, e, floor, p, entries[p], t); }
  }

  /** Gone, or written since. */
  predicate Touched(disk: Disk, p: string, floor: int) { p !in disk || disk[p].mtime >= floor }

  /** Two looks that differ bracket a write. */
  lemma DifferenceIsTouch(d: Disk, e: Disk, p: string, floor: int)
    requires Later(d, e, floor) && (p in d && p in e ==> d[p] != e[p])
    ensures Touched(e, p, floor)
  {
  }

  // ---- the cache ---------------------------------------------------------------------------

  class Cache {
    const writtenAt: int
    const openedAt: int
    var entries: Entries

    /** LoadCaptureCache: an unreadable cache file is an empty cache. */
    constructor (file: Option<Saved>, now: int)
      ensures openedAt == now
      ensures entries == if file.Some? then file.value.entries else map[]
      ensures writtenAt == if file.Some? then file.value.writtenAt else 0
    {
      openedAt := now;
      writtenAt := if file.Some? then file.value.writtenAt else 0;
      entries := if file.Some? then file.value.entries else map[];
    }

    method Lookup(p: string, st: FileState) returns (sha: Option<string>)
      ensures sha == if Hits(entries, writtenAt, p, st) then Some(entries[p].sha) else None
      ensures sha.Some? <==>
                && p in entries && entries[p].size == |st.bytes| && entries[p].mtime == st.mtime < writtenAt
                && (entries[p].inode == st.inode || entries[p].inode == 0 || st.inode == 0)
    {
      if p !in entries { return None; }
      var e := entries[p];
      if |st.bytes| != e.size || st.mtime != e.mtime { return None; }
      if st.inode != 0 && e.inode != 0 && st.inode != e.inode { return None; }
      if st.mtime >= writtenAt { return None; }
      sha := Some(e.sha);
    }

    method Record(p: string, st: FileState, sha: string)
      modifies this
      ensures entries == old(entries)[p := Entry(|st.bytes|, st.mtime, st.inode, sha)]
    {
      entries := entries[p := Entry(|st.bytes|, st.mtime, st.inode, sha)];
    }

    /** Drop what an unscoped capture did not discover. */
    method Retain(keep: set<string>)
      modifies this
      ensures entries == map p | p in old(entries) && p in keep :: old(entries)[p]
    {
      var left := entries.Keys;
      ghost var all := entries;
      while left != {}
        invariant left <= all.Keys
        invariant entries == map p | p in all && (p in left || p in keep) :: all[p]
        decreases |left|
      {
        var p :| p in left;
        left := left - {p};
        if p !in keep { entries := entries - {p}; }
      }
    }

    /** Stamped with the time the cache was opened, not the time of saving. */
    method Save() returns (file: Saved)
      ensures file == Saved(openedAt, entries)
    {
      file := Saved(openedAt, entries);
    }
  }

  // ---- a capture among writers -----------------------------------------------------------------

  datatype Copy = Copied(bytes: string, stable: bool) | CopyError

  datatype Captured = Captured(path: string, sha: string, stable: bool)

  class Capture {
    const cache: Cache
    const floor: int
    /** What others do to the disk before this process's n-th look at it. */
    const writes: (nat, Disk) -> Disk
    /** What a copy comes out as that raced a write. */
    const garbled: (nat, string) -> string
    var disk: Disk
    var looks: nat
    var files: seq<Captured>
    var copies: map<string, string>
    var raws: map<string, string>

    constructor (cache: Cache, floor: int, writes: (nat, Disk) -> Disk, garbled: (nat, string) -> string, disk: Disk)
      ensures this.cache == cache && this.floor == floor && this.writes == writes && this.disk == disk
      ensures files == [] && copies == map[] && raws == map[]
    {
      this.cache, this.floor, this.writes, this.garbled, this.disk := cache, floor, writes, garbled, disk;
      looks, files, copies, raws := 0, [], map[], map[];
    }

    /** Writers get no mtime older than this cache's opening, or than that of the run that saved it. */
    ghost predicate Lawful()
    {
      && cache.openedAt <= floor && cache.writtenAt <= floor
      && forall n, d :: Later(d, writes(n, d), floor)
    }

    ghost predicate CopiesTrue()
      reads this
    {
      forall sha :: sha in copies ==> copies[sha] == sha
    }

    /** The disk after k more looks, the next being the n-th. */
    ghost function DiskAt(d: Disk, n: nat, k: nat): Disk {
      if k == 0 then d else writes(n + k - 1, DiskAt(d, n, k - 1))
    }

    /** What the k-th of those looks finds of p, if a regular file is there. */
    ghost function FileAt(p: string, d: Disk, n: nat, k: nat): Option<FileState> {
      var e := DiskAt(d, n, k);
      if p in e && e[p].regular then Some(e[p]) else None
    }

    /** The try that begins at the k-th look finds one file throughout, going by its inode. */
    ghost predicate TryCopies(p: string, d: Disk, n: nat, k: nat) {
      var a, b, c := FileAt(p, d, n, k), FileAt(p, d, n, k + 1), FileAt(p, d, n, k + 3);
      a.Some? && b.Some? && c.Some? && a.value.inode == b.value.inode == c.value.inode
    }

    /** And neither its size nor its mtime moved meanwhile. */
    ghost predicate TryAgrees(p: string, d: Disk, n: nat, k: nat) {
      var a, c := FileAt(p, d, n, k), FileAt(p, d, n, k + 3);
      a.Some? && c.Some? && |a.value.bytes| == |c.value.bytes| && a.value.mtime == c.value.mtime
    }

    /** Of two tries one agrees, the first having failed by no more than that. */
    ghost predicate ReadsStably(p: string, d: Disk, n: nat) {
      TryCopies(p, d, n, 1) && (TryAgrees(p, d, n, 1) || (TryCopies(p, d, n, 5) && TryAgrees(p, d, n, 5)))
    }

    /** Otherwise a third copy is taken as it comes. */
    ghost predicate ReadsUnstably(p: string, d: Disk, n: nat) {
      && TryCopies(p, d, n, 1) && !TryAgrees(p, d, n, 1) && TryCopies(p, d, n, 5) && !TryAgrees(p, d, n, 5)
      && FileAt(p, d, n, 9).Some? && FileAt(p, d, n, 10).Some?
    }

    /** Lstat, after whatever others did first. */
    method Look(p: string) returns (st: Option<FileState>)
      requires Lawful()
      modifies this`disk, this`looks
      ensures Later(old(disk), disk, floor)
      ensures st == if p in disk then Some(disk[p]) else None
      ensures disk == writes(old(looks), old(disk)) && looks == old(looks) + 1
    {
      disk, looks := writes(looks, disk), looks + 1;
      st := if p in disk then Some(disk[p]) else None;
    }

    /** Read p through. The bytes are p's if nobody wrote meanwhile, which an mtime below the floor shows. */
    method CopyOnce(p: string, expected: Option<FileState>) returns (c: Copy)
      requires Lawful()
      modifies this`disk, this`looks
      ensures Later(old(disk), disk, floor)
      ensures c.Copied? ==>
                c.stable && looks == old(looks) + 2 && disk == writes(old(looks) + 1, writes(old(looks), old(disk)))
      ensures var d := writes(old(looks), old(disk));
              c.Copied? <==>
                p in d && d[p].regular && (expected.Some? ==> expected.value.inode == d[p].inode)
      ensures c.CopyError? ==> disk == writes(old(looks), old(disk))
      ensures c.Copied? && p in disk && disk[p].mtime < floor ==> c.bytes == disk[p].bytes
    {
      var st := Look(p);
      if st.None? || !st.value.regular { return CopyError; }
      if expected.Some? && expected.value.inode != st.value.inode { return CopyError; }
      ghost var before := disk;
      disk, looks := writes(looks, disk), looks + 1;
      LaterTransitive(old(disk), before, disk, floor);
      if p in disk && disk[p] == st.value && disk[p].mtime < floor {
        c := Copied(st.value.bytes, true);
      } else {
        c := Copied(garbled(looks, p), true);
      }
    }

    lemma {:induction false} DiskShift(d: Disk, n: nat, j: nat, k: nat)
      ensures DiskAt(DiskAt(d, n, j), n + j, k) == DiskAt(d, n, j + k)
    {
      if k > 0 { DiskShift(d, n, j, k - 1); }
    }

    lemma FourLooks(d: Disk, n: nat)
      ensures DiskAt(d, n, 1) == writes(n, d) && DiskAt(d, n, 2) == writes(n + 1, writes(n, d))
      ensures DiskAt(d, n, 4) == writes(n + 3, writes(n + 2, DiskAt(d, n, 2)))
    {
    }

    lemma TryShift(p: string, d: Disk, n: nat, j: nat)
      ensures TryCopies(p, DiskAt(d, n, j), n + j, 1) == TryCopies(p, d, n, j + 1)
      ensures TryAgrees(p, DiskAt(d, n, j), n + j, 1) == TryAgrees(p, d, n, j + 1)
    {
      hide DiskAt;
      DiskShift(d, n, j, 1);
      DiskShift(d, n, j, 2);
      DiskShift(d, n, j, 4);
    }

    /** One try to copy between two looks: over when it fails or the looks agree. */
    method TryCopy(p: string) returns (c: Copy, over: bool)
      requires Lawful()
      modifies this`disk, this`looks
      ensures Later(old(disk), disk, floor)
      ensures c.Copied? <==> TryCopies(p, old(disk), old(looks), 1)
      ensures over <==> c.CopyError? || TryAgrees(p, old(disk), old(looks), 1)
      ensures c.CopyError? ==> Touched(disk, p, floor) || !disk[p].regular
      ensures c.Copied? ==> c.stable && disk == DiskAt(old(disk), old(looks), 4) && looks == old(looks) + 4
      ensures c.Copied? && over && !Touched(disk, p, floor) ==> c.bytes == disk[p].bytes && disk[p].regular
      ensures !over ==> Touched(disk, p, floor)
    {
      hide DiskAt, Later;
      FourLooks(disk, looks);
      LaterItself(disk, floor);
      ghost var d0 := disk;
      var st1 := Look(p);
      ghost var d1 := disk;
      over := true;
      if st1.None? || !st1.value.regular { return CopyError, true; }
      c := CopyOnce(p, st1);
      LaterTransitive(d0, d1, disk, floor);
      if c.CopyError? {
        DifferenceIsTouch(d1, disk, p, floor);
        return;
      }
      ghost var d2 := disk;
      var st2 := Look(p);
      LaterTransitive(d0, d2, disk, floor);
      LaterTransitive(d1, d2, disk, floor);
      if st2.None? || !st2.value.regular { return CopyError, true; }
      if st2.value.inode != st1.value.inode { return CopyError, true; }
      if |st1.value.bytes| == |st2.value.bytes| && st1.value.mtime == st2.value.mtime { return; }
      DifferenceIsTouch(d1, disk, p, floor);
      over := false;
    }

    lemma LookShift(p: string, d: Disk, n: nat, j: nat)
      ensures FileAt(p, DiskAt(d, n, j), n + j, 1) == FileAt(p, d, n, j + 1)
      ensures FileAt(p, DiskAt(d, n, j), n + j, 2) == FileAt(p, d, n, j + 2)
    {
      hide DiskAt;
      DiskShift(d, n, j, 1);
      DiskShift(d, n, j, 2);
    }

    /** The last copy, whatever happens meanwhile. */
    method CopyAnyway(p: string) returns (c: Copy)
      requires Lawful()
      modifies this`disk, this`looks
      ensures Later(old(disk), disk, floor)
      ensures c.Copied? <==> FileAt(p, old(disk), old(looks), 1).Some? && FileAt(p, old(disk), old(looks), 2).Some?
      ensures c.Copied? ==> !c.stable && looks == old(looks) + 3
      ensures c.CopyError? ==> Touched(disk, p, floor) || !disk[p].regular
    {
      hide DiskAt, Later;
      FourLooks(disk, looks);
      ghost var start := disk;
      var st := Look(p);
      if st.None? || !st.value.regular { return CopyError; }
      ghost var first := disk;
      c := CopyOnce(p, None);
      LaterTransitive(start, first, disk, floor);
      if c.Copied? { c := Copied(c.bytes, false); }
    }

    /** StableCopy: two tries to copy between two looks that agree, then once more, called unstable. */
    method StableCopy(p: string) returns (c: Copy)
      requires Lawful()
      modifies this`disk, this`looks
      ensures Later(old(disk), disk, floor)
      ensures c.Copied? && c.stable && !Touched(disk, p, floor) ==> c.bytes == disk[p].bytes && disk[p].regular
      ensures c.Copied? && !c.stable ==> Touched(disk, p, floor) && looks == old(looks) + 11
      ensures c.Copied? && c.stable <==> ReadsStably(p, old(disk), old(looks))
      ensures c.Copied? && !c.stable <==> ReadsUnstably(p, old(disk), old(looks))
      ensures c.CopyError? ==> Touched(disk, p, floor) || !disk[p].regular
    {
      hide TryCopies, TryAgrees, DiskAt, Later, FileAt;
      ghost var start, n := disk, looks;
      LaterItself(start, floor);
      for i := 0 to 2
        invariant Later(start, disk, floor) && (i > 0 ==> Touched(disk, p, floor))
        invariant i == 0 ==> disk == start && looks == n
        invariant i == 1 ==> disk == DiskAt(start, n, 4) && looks == n + 4
        invariant i == 2 ==> disk == DiskAt(start, n, 8) && looks == n + 8
        invariant i >= 1 ==> TryCopies(p, start, n, 1) && !TryAgrees(p, start, n, 1)
        invariant i == 2 ==> TryCopies(p, start, n, 5) && !TryAgrees(p, start, n, 5)
      {
        ghost var before := disk;
        if i == 1 {
          TryShift(p, start, n, 4);
          DiskShift(start, n, 4, 4);
        }
        var over;
        c, over := TryCopy(p);
        LaterTransitive(start, before, disk, floor);
        if over { return; }
      }
      ghost var before := disk;
      LookShift(p, start, n, 8);
      c := CopyAnyway(p);
      LaterTransitive(start, before, disk, floor);
      if !Touched(disk, p, floor) { UntouchedIsSame(before, disk, p, floor); }
    }

    /** What one visit leaves known about p: its entry vouches for everything older than any write to come. */
    ghost predicate Covered(p: string)
      reads this`disk, cache
    {
      p in cache.entries ==> Vouches(disk, p, cache.entries[p], floor)
    }

    /** A path not written since the run began is in the cache, as it looks and with its bytes. */
    ghost predicate Remembered(p: string)
      reads this`disk, cache
    {
      !Touched(disk, p, floor) ==>
        p in cache.entries && Looks(cache.entries[p], disk[p]) && cache.entries[p].sha == disk[p].bytes
    }

    /** What was captured is what re-hashing gives, unless the file was written during this run. */
    ghost predicate Faithful(c: Captured)
      reads this`disk
    {
      !Touched(disk, c.path, floor) ==> c.sha == disk[c.path].bytes
    }

    /** addFile: trust the cache or read the file; remember a stable reading under the stat that follows it. */
    method AddFile(p: string) returns (ok: bool, hit: bool)
      requires Lawful() && Truthful(disk, cache.entries, cache.writtenAt) && CopiesTrue()
      modifies this`disk, this`looks, this`files, this`copies, this`raws, cache
      ensures Later(old(disk), disk, floor) && CopiesTrue()
      ensures cache.entries - {p} == old(cache.entries) - {p}
      ensures cache.entries == old(cache.entries)
              || (p in cache.entries && cache.entries[p].size == |cache.entries[p].sha|)
      ensures ok ==> Covered(p)
      ensures !ok ==> cache.entries == old(cache.entries) && files == old(files)
      ensures ok ==> |files| == |old(files)| + 1 && files[..|old(files)|] == old(files) && files[|old(files)|].path == p
      ensures ok ==> Faithful(files[|old(files)|])
      ensures var d := writes(old(looks), old(disk));
              hit <==> p in d && d[p].regular && Hits(old(cache.entries), cache.writtenAt, p, d[p])
      ensures ok ==> Remembered(p)
      ensures hit ==>
                ok && p in disk && disk[p].bytes == files[|old(files)|].sha
                && raws == old(raws)[disk[p].bytes := p]
      ensures ok && !hit ==> files[|old(files)|].sha in copies && raws == old(raws)
      ensures var d, n := writes(old(looks), old(disk)), old(looks) + 1;
              && (ok <==> hit || ReadsStably(p, d, n) || ReadsUnstably(p, d, n))
              && (ok ==> (files[|old(files)|].stable <==> hit || ReadsStably(p, d, n)))
      ensures !ok ==> Touched(disk, p, floor) || !disk[p].regular
      ensures forall sha :: sha in old(copies) ==> sha in copies
    {
      var st := Look(p);
      ghost var d1 := disk;
      TruthfulStays(old(disk), disk, floor, cache.entries, cache.writtenAt);
      hit := false;
      if st.Some? && st.value.regular {
        var found := cache.Lookup(p, st.value);
        if found.Some? {
          assert Vouches(disk, p, cache.entries[p], cache.writtenAt);
          raws := raws[found.value := p];
          files := files + [Captured(p, found.value, true)];
          return true, true;
        }
      }
      assert forall sha :: sha in copies <==> sha in old(copies);
      ok := ReadFile(p);
      LaterTransitive(old(disk), d1, disk, floor);
    }

    /** The half of addFile that reads the file. */
    method ReadFile(p: string) returns (ok: bool)
      requires Lawful() && CopiesTrue()
      modifies this`disk, this`looks, this`files, this`copies, cache
      ensures Later(old(disk), disk, floor) && CopiesTrue()
      ensures cache.entries - {p} == old(cache.entries) - {p}
      ensures cache.entries == old(cache.entries)
              || (p in cache.entries && cache.entries[p].size == |cache.entries[p].sha|)
      ensures ok ==> Covered(p)
      ensures !ok ==> cache.entries == old(cache.entries) && files == old(files)
      ensures ok ==> |files| == |old(files)| + 1 && files[..|old(files)|] == old(files) && files[|old(files)|].path == p
      ensures ok ==> files[|old(files)|].sha in copies && Faithful(files[|old(files)|])
      ensures ok <==> ReadsStably(p, old(disk), old(looks)) || ReadsUnstably(p, old(disk), old(looks))
      ensures ok ==> (files[|old(files)|].stable <==> ReadsStably(p, old(disk), old(looks)))
      ensures !ok ==> Touched(disk, p, floor) || !disk[p].regular
      ensures ok ==> Remembered(p)
      ensures forall sha :: sha in old(copies) ==> sha in copies
    {
      hide Later;
      var c := StableCopy(p);
      ghost var d2 := disk;
      if c.CopyError? { return false; }
      copies := copies[c.bytes := c.bytes];
      files := files + [Captured(p, c.bytes, c.stable)];
      ok := true;
      if !c.stable {
        TouchedIsCovered(disk, p, floor);
        return;
      }
      var st := Look(p);
      LaterTransitive(old(disk), d2, disk, floor);
      if !Touched(disk, p, floor) { UntouchedIsSame(d2, disk, p, floor); }
      TouchedIsCovered(disk, p, floor);
      if st.Some? && st.value.regular && |st.value.bytes| == |c.bytes| {
        cache.Record(p, st.value, c.bytes);
      }
    }

    /** Where a run stands after visiting some paths, begun from these entries. */
    ghost predicate Progress(start: Entries, visited: set<string>)
      reads this, cache
    {
      && Truthful(disk, cache.entries, cache.writtenAt) && CopiesTrue()
      && (forall p :: p in visited ==> Covered(p) && Remembered(p))
      && cache.entries - visited == start - visited
      && (forall k :: 0 <= k < |files| ==> Faithful(files[k]))
    }

    /** One more path. */
    method Visit(p: string, ghost start: Entries, ghost visited: set<string>) returns (ok: bool)
      requires Lawful() && Progress(start, visited)
      modifies this`disk, this`looks, this`files, this`copies, this`raws, cache
      ensures Later(old(disk), disk, floor)
      ensures ok ==> Progress(start, visited + {p}) && Paths(files) == Paths(old(files)) + [p]
      ensures !ok ==> Touched(disk, p, floor) || !disk[p].regular
    {
      ghost var d, before, captured := disk, cache.entries, files;
      var hit;
      ok, hit := AddFile(p);
      if ok {
        OthersSame(before, cache.entries, p);
        forall q | q in visited + {p} ensures Covered(q) {
          if q != p && q in before {
            VouchesStays(d, disk, floor, q, before[q], floor);
          }
        }
        forall q | q in visited + {p} ensures Remembered(q) {
          if q != p && !Touched(disk, q, floor) { UntouchedIsSame(d, disk, q, floor); }
        }
        forall q | q in cache.entries ensures Vouches(disk, q, cache.entries[q], cache.writtenAt) {
          if q != p {
            VouchesStays(d, disk, floor, q, before[q], cache.writtenAt);
          }
        }
        forall k | 0 <= k < |captured| ensures Faithful(captured[k]) {
          if !Touched(disk, captured[k].path, floor) { UntouchedIsSame(d, disk, captured[k].path, floor); }
        }
        assert cache.entries - (visited + {p}) == (cache.entries - {p}) - visited;
        assert start - (visited + {p}) == (start - visited) - {p};
        assert before - (visited + {p}) == (before - visited) - {p};
        assert files == captured + [files[|captured|]];
      }
    }

    /** CaptureState: visit sessions, then artifacts other than skipped images; an unscoped run then drops
        entries for paths it did not discover. */
    method CaptureState(sessions: seq<string>, artifacts: seq<string>, includeImages: bool, isImage: string -> bool,
                        scoped: bool)
      returns (ok: bool)
      requires Lawful() && Truthful(disk, cache.entries, cache.writtenAt) && CopiesTrue() && files == []
      modifies this`disk, this`looks, this`files, this`copies, this`raws, cache
      ensures Later(old(disk), disk, floor)
      ensures ok ==> forall k :: 0 <= k < |files| ==> Faithful(files[k])
      ensures ok ==> Paths(files) == sessions + Unskipped(artifacts, includeImages, isImage)
      ensures ok ==> Kept(disk, floor, old(cache.entries), cache.entries, Listed(Paths(files)))
      ensures ok && !scoped ==> cache.entries.Keys <= Listed(sessions + artifacts)
      ensures ok ==> forall k :: 0 <= k < |files| ==> Remembered(files[k].path)
      ensures ok ==> Stays(old(cache.entries), cache.entries, Listed(Paths(files)),
                           if scoped then old(cache.entries).Keys else Listed(sessions + artifacts))
      ensures !ok ==> exists p :: p in sessions + artifacts && (Touched(disk, p, floor) || !disk[p].regular)
    {
      hide Later, Truthful, Stays;
      ghost var start, d0 := cache.entries, disk;
      ghost var visited: set<string> := {};
      LaterItself(d0, floor);
      for i := 0 to |sessions|
        invariant Later(d0, disk, floor) && Progress(start, visited)
        invariant Paths(files) == sessions[..i] && visited == Listed(Paths(files))
      {
        ghost var before := disk;
        ok := Visit(sessions[i], start, visited);
        LaterTransitive(d0, before, disk, floor);
        if !ok { return; }
        assert sessions[..i + 1] == sessions[..i] + [sessions[i]];
        visited := visited + {sessions[i]};
        ListedSnoc(sessions[..i], sessions[i]);
      }
      assert sessions[..|sessions|] == sessions;
      for i := 0 to |artifacts|
        invariant Later(d0, disk, floor) && Progress(start, visited)
        invariant Paths(files) == sessions + Unskipped(artifacts[..i], includeImages, isImage)
                  && visited == Listed(Paths(files))
      {
        assert artifacts[..i + 1][..i] == artifacts[..i];
        if !includeImages && isImage(artifacts[i]) { continue; }
        ghost var before, paths := disk, Paths(files);
        ok := Visit(artifacts[i], start, visited);
        LaterTransitive(d0, before, disk, floor);
        if !ok { return; }
        visited := visited + {artifacts[i]};
        ListedSnoc(paths, artifacts[i]);
      }
      assert artifacts[..|artifacts|] == artifacts;
      ok := true;
      ProgressIsKept(start, visited);
      VisitedAreKnown(sessions, artifacts, includeImages, isImage, start, visited);
      if !scoped {
        ghost var all := cache.entries;
        var keep := (set p | p in sessions) + (set p | p in artifacts);
        cache.Retain(keep);
        RetainedIsKept(disk, floor, start, all, cache.entries, visited);
        RetainedStays(start, all, cache.entries, visited, sessions, artifacts, keep);
      }
    }

    /** Whatever was captured was discovered, and visited. */
    lemma VisitedAreKnown(sessions: seq<string>, artifacts: seq<string>, includeImages: bool, isImage: string -> bool,
                          start: Entries, visited: set<string>)
      requires Progress(start, visited) && visited == Listed(Paths(files))
      requires Paths(files) == sessions + Unskipped(artifacts, includeImages, isImage)
      ensures forall k :: 0 <= k < |files| ==> Remembered(files[k].path) && files[k].path in sessions + artifacts
    {
      forall k | 0 <= k < |files| ensures Remembered(files[k].path) && files[k].path in sessions + artifacts {
        var p := Paths(files)[k];
        assert p in Paths(files);
        UnskippedMeans(artifacts, includeImages, isImage, p);
      }
    }

    lemma ProgressIsKept(start: Entries, visited: set<string>)
      requires Progress(start, visited)
      ensures Kept(disk, floor, start, cache.entries, visited)
      ensures Stays(start, cache.entries, visited, start.Keys)
    {
      forall p | p in start && p !in visited ensures p in cache.entries && cache.entries[p] == start[p] {
        assert p in start - visited;
        assert p in cache.entries - visited;
      }
      forall p | p in cache.entries && p !in visited ensures p in start && start[p] == cache.entries[p] {
        assert p in cache.entries - visited;
        assert p in start - visited;
      }
    }

    /** BlobPath: a local file with exactly the bytes named, read on demand and checked if the cache vouched. */
    method BlobPath(sha: string) returns (bytes: Option<string>)
      requires Lawful() && CopiesTrue()
      modifies this`disk, this`looks, this`copies
      ensures bytes.Some? ==> bytes.value == sha && sha in copies
      ensures sha in old(copies) ==> bytes.Some?
      ensures sha !in old(copies) && sha !in raws ==> bytes.None?
      ensures bytes.None? && sha in raws ==>
                Touched(disk, raws[sha], floor) || !disk[raws[sha]].regular || disk[raws[sha]].bytes != sha
      ensures CopiesTrue() && Later(old(disk), disk, floor)
    {
      LaterItself(disk, floor);
      if sha in copies { return Some(copies[sha]); }
      if sha !in raws { return None; }
      var c := StableCopy(raws[sha]);
      if c.CopyError? || c.bytes != sha { return None; }
      copies := copies[sha := c.bytes];
      bytes := Some(c.bytes);
    }
  }

  lemma OthersSame(a: Entries, b: Entries, p: string)
    requires a - {p} == b - {p}
    ensures forall q :: q != p ==> (q in a <==> q in b)
    ensures forall q :: q != p && q in a ==> a[q] == b[q]
  {
    forall q | q != p ensures (q in a <==> q in b) && (q in a ==> a[q] == b[q]) {
      assert q in a <==> q in a - {p};
      assert q in b <==> q in b - {p};
      if q in a { assert (a - {p})[q] == (b - {p})[q]; }
    }
  }

  function Paths(files: seq<Captured>): seq<string> { seq(|files|, k requires 0 <= k < |files| => files[k].path) }

  ghost function Listed(paths: seq<string>): set<string> { set p | p in paths }

  lemma ListedSnoc(paths: seq<string>, p: string)
    ensures Listed(paths + [p]) == Listed(paths) + {p}
  {
  }

  function Unskipped(paths: seq<string>, includeImages: bool, isImage: string -> bool): seq<string> {
    if |paths| == 0 then []
    else Unskipped(paths[..|paths| - 1], includeImages, isImage)
         + if !includeImages && isImage(paths[|paths| - 1]) then [] else [paths[|paths| - 1]]
  }

  /** Only images are left out, and only when they are not to be included. */
  lemma {:induction false} UnskippedMeans(paths: seq<string>, includeImages: bool, isImage: string -> bool, p: string)
    ensures p in Unskipped(paths, includeImages, isImage) <==> p in paths && (includeImages || !isImage(p))
  {
    if |paths| > 0 {
      var n := |paths| - 1;
      UnskippedMeans(paths[..n], includeImages, isImage, p);
      assert p in paths <==> p in paths[..n] || p == paths[n];
    }
  }

  /** The rest stay in their order. */
  lemma {:induction false} UnskippedInOrder(paths: seq<string>, includeImages: bool, isImage: string -> bool, i: nat,
                                            j: nat)
    returns (a: nat, b: nat)
    requires i < j < |Unskipped(paths, includeImages, isImage)|
    ensures a < b < |paths|
    ensures paths[a] == Unskipped(paths, includeImages, isImage)[i]
    ensures paths[b] == Unskipped(paths, includeImages, isImage)[j]
  {
    var n := |paths| - 1;
    var front := Unskipped(paths[..n], includeImages, isImage);
    if j < |front| {
      a, b := UnskippedInOrder(paths[..n], includeImages, isImage, i, j);
    } else {
      UnskippedMeans(paths[..n], includeImages, isImage, front[i]);
      assert front[i] in paths[..n];
      a :| 0 <= a < n && paths[..n][a] == front[i];
      b := n;
    }
  }

  /** A run's entries: for a visited path one that vouches, for any other the one it started with, or none. */
  ghost predicate Kept(disk: Disk, floor: int, start: Entries, entries: Entries, visited: set<string>) {
    forall p :: p in entries ==>
      if p in visited then Vouches(disk, p, entries[p], floor) else p in start && start[p] == entries[p]
  }

  /** What was neither visited nor to be dropped is remembered as it was. */
  ghost predicate Stays(start: Entries, entries: Entries, visited: set<string>, keep: set<string>) {
    forall p :: p in start && p !in visited && p in keep ==> p in entries && entries[p] == start[p]
  }

  lemma RetainedStays(start: Entries, all: Entries, entries: Entries, visited: set<string>, sessions: seq<string>,
                      artifacts: seq<string>, keep: set<string>)
    requires Stays(start, all, visited, start.Keys)
    requires keep == (set p | p in sessions) + (set p | p in artifacts)
    requires entries == map p | p in all && p in keep :: all[p]
    ensures Stays(start, entries, visited, Listed(sessions + artifacts))
  {
    assert forall p :: p in Listed(sessions + artifacts) ==> p in keep;
  }

  lemma RetainedIsKept(disk: Disk, floor: int, start: Entries, all: Entries, entries: Entries, visited: set<string>)
    requires Kept(disk, floor, start, all, visited) && forall p :: p in entries ==> p in all && entries[p] == all[p]
    ensures Kept(disk, floor, start, entries, visited)
  {
  }

  lemma LaterItself(d: Disk, floor: int)
    ensures Later(d, d, floor)
  {
  }

  lemma TouchedIsCovered(disk: Disk, p: string, floor: int)
    ensures Touched(disk, p, floor) ==> forall e :: Vouches(disk, p, e, floor)
  {
  }

  lemma UntouchedIsSame(d: Disk, e: Disk, p: string, floor: int)
    requires Later(d, e, floor) && !Touched(e, p, floor)
    ensures p in d && d[p] == e[p] && !Touched(d, p, floor)
  {
  }

  // ---- run after run -------------------------------------------------------------------------

  /** A kept entry a run did not visit is safe to stamp with its opening time. */
  predicate Settled(e: Entry, writtenAt: int, openedAt: int) { e.mtime < writtenAt || e.mtime >= openedAt }

  /** Saving moves the time below which an entry is trusted from one run's opening to the next. For an entry not
      visited in between, that is safe on every disk exactly when its mtime lies outside that stretch (or it is
      of an empty file, which has only one content). */
  lemma PromotionSafeIffSettled(p: string, e: Entry, writtenAt: int, openedAt: int)
    requires e.size == |e.sha|
    ensures (forall disk :: Vouches(disk, p, e, writtenAt) ==> Vouches(disk, p, e, openedAt))
            <==> Settled(e, writtenAt, openedAt) || e.size == 0
  {
    if !Settled(e, writtenAt, openedAt) && e.size > 0 {
      var other := [if e.sha[0] == 'a' then 'b' else 'a'] + e.sha[1..];
      assert other[0] != e.sha[0];
      var disk: Disk := map[p := FileState(e.mtime, e.inode, true, other)];
      assert Vouches(disk, p, e, writtenAt) && !Vouches(disk, p, e, openedAt);
    }
  }

  /** The disk, the last cache file saved, and a time no later write is older than. */
  datatype World = World(disk: Disk, file: Option<Saved>, floor: int)

  function FileEntries(w: World): Entries { if w.file.Some? then w.file.value.entries else map[] }

  function FileTime(w: World): int { if w.file.Some? then w.file.value.writtenAt else 0 }

  /** The saved cache can be believed about the disk. */
  ghost predicate Trusted(w: World) {
    w.file.Some? ==> FileTime(w) <= w.floor && Truthful(w.disk, FileEntries(w), FileTime(w))
  }

  function Max(a: int, b: int): int { if a < b then b else a }

  /** A run opened at now, and what it saved if it did, among writers. */
  ghost predicate Ran(w: World, v: World, now: int, visited: set<string>) {
    && v.floor == Max(w.floor, now) && Later(w.disk, v.disk, v.floor)
    && (v.file == w.file
        || (v.file.Some? && FileTime(v) == now && Kept(v.disk, v.floor, FileEntries(w), FileEntries(v), visited)))
  }

  /** Everything the run kept without visiting it is settled. */
  ghost predicate Settles(w: World, v: World, now: int, visited: set<string>) {
    v.file == w.file || forall p :: p in FileEntries(v) && p !in visited ==>
    Settled(FileEntries(v)[p], FileTime(w), now)
  }

  ghost predicate Wrote(w: World, v: World) { v.file == w.file && v.floor == w.floor && Later(w.disk, v.disk, w.floor) }

  ghost predicate Step(w: World, v: World) {
    Wrote(w, v) || exists now, visited :: Ran(w, v, now, visited) && Settles(w, v, now, visited)
  }

  ghost predicate History(h: seq<World>) { forall i :: 0 <= i < |h| - 1 ==> Step(h[i], h[i + 1]) }

  lemma WriteKeepsTrust(w: World, v: World)
    requires Trusted(w) && Wrote(w, v)
    ensures Trusted(v)
  {
    if w.file.Some? { TruthfulStays(w.disk, v.disk, w.floor, FileEntries(w), FileTime(w)); }
  }

  lemma RunKeepsTrust(w: World, v: World, now: int, visited: set<string>)
    requires Trusted(w) && Ran(w, v, now, visited) && Settles(w, v, now, visited)
    ensures Trusted(v)
  {
    if w.file.Some? { TruthfulStays(w.disk, v.disk, v.floor, FileEntries(w), FileTime(w)); }
  }

  /** Over any sequence of writes and saving runs, a hit on the saved cache is the file's current bytes. */
  lemma {:induction false} HitsAreCurrent(h: seq<World>, i: nat, p: string)
    requires History(h) && i < |h| && Trusted(h[0])
    ensures Trusted(h[i])
    ensures p in h[i].disk && Hits(FileEntries(h[i]), FileTime(h[i]), p, h[i].disk[p]) ==>
              FileEntries(h[i])[p].sha == h[i].disk[p].bytes
  {
    if i > 0 {
      HitsAreCurrent(h, i - 1, p);
      assert Step(h[i - 1], h[i]);
      if Wrote(h[i - 1], h[i]) {
        WriteKeepsTrust(h[i - 1], h[i]);
      } else {
        var now, visited :| Ran(h[i - 1], h[i], now, visited) && Settles(h[i - 1], h[i], now, visited);
        RunKeepsTrust(h[i - 1], h[i], now, visited);
      }
    }
  }

  /** The saved cache has this file: it is a hit as long as it looks the same, unless modified in the run's own instant
      or later. */
  ghost predicate Knows(v: World, p: string, now: int) {
    && p in v.disk && p in FileEntries(v) && FileEntries(v)[p].sha == v.disk[p].bytes
    && (v.disk[p].mtime < now ==> Hits(FileEntries(v), FileTime(v), p, v.disk[p]))
  }

  /** One whole run: load, capture, save. */
  method RunOnce(w: World, now: int, writes: (nat, Disk) -> Disk, garbled: (nat, string) -> string,
                 sessions: seq<string>,
                 artifacts: seq<string>, includeImages: bool, isImage: string -> bool, scoped: bool)
    returns (v: World, files: seq<Captured>, ok: bool)
    requires Trusted(w) && (w.file.None? ==> 0 <= w.floor)
    requires forall n, d :: Later(d, writes(n, d), Max(w.floor, now))
    ensures Ran(w, v, now, Listed(Paths(files)))
    ensures ok ==> Paths(files) == sessions + Unskipped(artifacts, includeImages, isImage)
    ensures ok ==> forall k :: 0 <= k < |files| && !Touched(v.disk, files[k].path, v.floor) ==>
            files[k].sha == v.disk[files[k].path].bytes
    ensures ok ==> forall k :: 0 <= k < |files| && !Touched(v.disk, files[k].path, v.floor) ==>
            Knows(v, files[k].path, now)
    ensures ok && !scoped ==> FileEntries(v).Keys <= Listed(sessions + artifacts)
    ensures !ok ==> v.file == w.file
  {
    var cache := new Cache(w.file, now);
    var run := new Capture(cache, Max(w.floor, now), writes, garbled, w.disk);
    ok := run.CaptureState(sessions, artifacts, includeImages, isImage, scoped);
    files := run.files;
    if !ok { return World(run.disk, w.file, Max(w.floor, now)), files, ok; }
    var saved := cache.Save();
    assert forall k :: 0 <= k < |files| ==> run.Faithful(files[k]);
    v := World(run.disk, Some(saved), Max(w.floor, now));
  }

  // ---- where the advisory cache misleads -----------------------------------------------------------

  function OneFile(bytes: string): Disk { map["log" := FileState(10, 7, true, bytes)] }

  const READ := map["log" := Entry(3, 10, 7, "old")]

  /** A run that saves without revisiting what it keeps (a filtered one, or one skipping images) can make the cache
      mislead: opened at 10 a run reads a file modified at 10; a write in the same clock tick follows; a run
      opened at 20 that leaves the file out stamps its entry with 20; the next lookup hits, with the old bytes. */
  lemma UnvisitedEntryMisleads()
    ensures var w0 := World(OneFile("old"), None, 0);
            var w1 := World(OneFile("old"), Some(Saved(10, READ)), 10);
            var w2 := World(OneFile("new"), Some(Saved(10, READ)), 10);
            var w3 := World(OneFile("new"), Some(Saved(20, READ)), 20);
            && Trusted(w0) && Ran(w0, w1, 10, {"log"}) && Wrote(w1, w2) && Ran(w2, w3, 20, {})
            && Trusted(w2) && !Hits(FileEntries(w2), FileTime(w2), "log", w2.disk["log"])
            && Hits(FileEntries(w3), FileTime(w3), "log", w3.disk["log"])
            && FileEntries(w3)["log"].sha != w3.disk["log"].bytes
  {
    assert "old"[0] != "new"[0];
  }
}
