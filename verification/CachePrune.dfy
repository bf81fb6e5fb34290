/**
 `prune_audio_cache` of `backend/bilibili_cache.py`: expired files go first, then the oldest of the rest
 until the cache fits.  A file is what the directory listing and `stat` say about it; whether deleting
 it succeeds is part of the input.
 */
module CachePrune {
  import opened Collections

  datatype File = File(
    name: string,
    readable: bool,    // is_file and stat succeed
    regular: bool,
    size: nat,
    mtime: real,
    inUse: bool,       // its resolved path is one of the protected ones
    deletable: bool)   // unlink will succeed

  datatype Settings = Settings(maxBytes: int, ttl: real, partialTtl: real, now: real)

  datatype PruneResult = PruneResult(removedFiles: nat, removedBytes: nat)

  // ---------------------------------------------------------------- the first pass

  predicate EndsWith(s: string, suffix: string) {
    |suffix| <= |s| && s[|s| - |suffix|..] == suffix
  }

  predicate IsPartial(f: File) {
    EndsWith(f.name, ".part")
  }

  function Age(f: File, c: Settings): real {
    if c.now - f.mtime < 0.0 then 0.0 else c.now - f.mtime
  }

  predicate Expired(f: File, c: Settings) {
    if IsPartial(f) then c.partialTtl > 0.0 && Age(f, c) >= c.partialTtl
    else c.ttl > 0.0 && Age(f, c) >= c.ttl
  }

  predicate Listed(f: File) {
    f.readable && f.regular
  }

  /** What the first pass deletes. */
  predicate Stale(f: File, c: Settings) {
    Listed(f) && Expired(f, c) && f.deletable
  }

  /** What it keeps for the second pass. */
  predicate Retained(f: File, c: Settings) {
    Listed(f) && !IsPartial(f) && !Expired(f, c)
  }

  function Bytes(files: seq<File>): nat {
    if files == [] then 0 else files[0].size + Bytes(files[1..])
  }

  lemma {:induction false} BytesAppend(a: seq<File>, b: seq<File>)
    ensures Bytes(a + b) == Bytes(a) + Bytes(b)
  {
    if a == [] {
      assert a + b == b;
    } else {
      BytesAppend(a[1..], b);
      assert (a + b)[1..] == a[1..] + b;
    }
  }

  // ---------------------------------------------------------------- oldest first

  /** Python compares strings code point by code point. */
  predicate LexLess(a: string, b: string) {
    b != [] && (a == [] || a[0] < b[0] || (a[0] == b[0] && LexLess(a[1..], b[1..])))
  }

  /** May `a` stand before `b` in a list sorted by age and name? */
  predicate NotAfter(a: File, b: File) {
    a.mtime < b.mtime || (a.mtime == b.mtime && !LexLess(b.name, a.name))
  }

  lemma {:induction false} LexTotal(a: string, b: string)
    ensures !(LexLess(a, b) && LexLess(b, a))
    ensures a != b ==> LexLess(a, b) || LexLess(b, a)
  {
    if a != [] && b != [] {
      LexTotal(a[1..], b[1..]);
      if a[1..] == b[1..] && a[0] == b[0] {
        assert a == [a[0]] + a[1..] && b == [b[0]] + b[1..];
      }
    }
  }

  lemma {:induction false} LexTransitive(a: string, b: string, c: string)
    requires !LexLess(b, a) && !LexLess(c, b)
    ensures !LexLess(c, a)
  {
    if a != [] && b != [] && c != [] && a[0] == b[0] == c[0] {
      LexTransitive(a[1..], b[1..], c[1..]);
    }
  }

  lemma NotAfterTransitive(a: File, b: File, c: File)
    requires NotAfter(a, b) && NotAfter(b, c)
    ensures NotAfter(a, c)
  {
    if a.mtime == b.mtime == c.mtime {
      LexTransitive(a.name, b.name, c.name);
    }
  }

  lemma NotAfterTotal(a: File, b: File)
    ensures NotAfter(a, b) || NotAfter(b, a)
  {
    LexTotal(a.name, b.name);
  }

  ghost predicate OldestFirst(files: seq<File>) {
    forall i, j :: 0 <= i < j < |files| ==> NotAfter(files[i], files[j])
  }

  function Insert(f: File, sorted: seq<File>): seq<File> {
    if sorted == [] || NotAfter(f, sorted[0]) then [f] + sorted else [sorted[0]] + Insert(f, sorted[1..])
  }

  function Sort(files: seq<File>): seq<File> {
    if files == [] then [] else Insert(files[0], Sort(files[1..]))
  }

  lemma {:induction false} InsertFacts(f: File, sorted: seq<File>)
    requires OldestFirst(sorted)
    ensures OldestFirst(Insert(f, sorted)) && multiset(Insert(f, sorted)) == multiset(sorted) + multiset{f}
  {
    hide NotAfter;
    if sorted == [] {
    } else if NotAfter(f, sorted[0]) {
      forall j | 0 < j < |sorted| ensures NotAfter(f, sorted[j]) {
        NotAfterTransitive(f, sorted[0], sorted[j]);
      }
    } else {
      var rest := Insert(f, sorted[1..]);
      InsertFacts(f, sorted[1..]);
      NotAfterTotal(f, sorted[0]);
      assert sorted == [sorted[0]] + sorted[1..];
      forall j | 0 <= j < |rest| ensures NotAfter(sorted[0], rest[j]) {
        assert rest[j] in multiset(rest);
        assert rest[j] == f || rest[j] in sorted[1..];
      }
    }
  }

  /** `sorted` by modification time and name. */
  lemma {:induction false} SortFacts(files: seq<File>)
    ensures OldestFirst(Sort(files)) && multiset(Sort(files)) == multiset(files)
  {
    hide NotAfter;
    if files != [] {
      SortFacts(files[1..]);
      InsertFacts(files[0], Sort(files[1..]));
      assert files == [files[0]] + files[1..];
    }
  }

  lemma {:induction false} InsertBytes(f: File, sorted: seq<File>)
    ensures Bytes(Insert(f, sorted)) == f.size + Bytes(sorted)
  {
    hide NotAfter;
    if sorted != [] {
      InsertBytes(f, sorted[1..]);
    }
  }

  lemma {:induction false} SortBytes(files: seq<File>)
    ensures Bytes(Sort(files)) == Bytes(files)
  {
    hide Insert;
    if files != [] {
      SortBytes(files[1..]);
      InsertBytes(files[0], Sort(files[1..]));
    }
  }

  // ---------------------------------------------------------------- the second pass

  /** What the size pass deletes from a sorted list while `total` bytes are too many. */
  function SizePass(sorted: seq<File>, total: int, maxBytes: int): seq<File> {
    if sorted == [] || total <= maxBytes then []
    else if sorted[0].inUse || !sorted[0].deletable then SizePass(sorted[1..], total, maxBytes)
    else [sorted[0]] + SizePass(sorted[1..], total - sorted[0].size, maxBytes)
  }

  /** The files the size pass may delete, oldest first. */
  function Expendable(sorted: seq<File>): seq<File> {
    Filter((f: File) => !f.inUse && f.deletable, sorted)
  }

  /** The first `k` expendable files are the fewest that bring the total down, or all of them. */
  ghost predicate ShortestPrefix(files: seq<File>, k: nat, total: int, maxBytes: int) {
    && k <= |files|
    && (k == |files| || total - Bytes(files[..k]) <= maxBytes)
    && forall j :: 0 <= j < k ==> total - Bytes(files[..j]) > maxBytes
  }

  /** The size pass deletes exactly the shortest sufficient prefix of the expendable files. */
  lemma {:induction false} SizePassIsShortestPrefix(sorted: seq<File>, total: int, maxBytes: int)
    ensures
      var k := |SizePass(sorted, total, maxBytes)|;
      var files := Expendable(sorted);
      && ShortestPrefix(files, k, total, maxBytes)
      && SizePass(sorted, total, maxBytes) == files[..k]
  {
    if sorted == [] || total <= maxBytes {
      assert Expendable(sorted)[..0] == [];
    } else {
      var f, later := sorted[0], sorted[1..];
      if f.inUse || !f.deletable {
        SizePassIsShortestPrefix(later, total, maxBytes);
      } else {
        SizePassIsShortestPrefix(later, total - f.size, maxBytes);
        var rest := Expendable(later);
        var files := Expendable(sorted);
        assert files == [f] + rest;
        var k := |SizePass(later, total - f.size, maxBytes)|;
        PrefixGrows(f, rest, k, total, maxBytes);
        assert files[..k + 1] == [f] + rest[..k];
      }
    }
  }

  lemma PrefixGrows(f: File, rest: seq<File>, k: nat, total: int, maxBytes: int)
    requires ShortestPrefix(rest, k, total - f.size, maxBytes) && total > maxBytes
    ensures ShortestPrefix([f] + rest, k + 1, total, maxBytes)
  {
    var files := [f] + rest;
    forall j | 0 <= j <= |rest| ensures Bytes(files[..j + 1]) == f.size + Bytes(rest[..j]) {
      assert files[..j + 1][0] == f && files[..j + 1][1..] == rest[..j];
    }
    forall j | 0 <= j < k + 1 ensures total - Bytes(files[..j]) > maxBytes {
      if j > 0 {
        assert Bytes(files[..j - 1 + 1]) == f.size + Bytes(rest[..j - 1]);
      }
    }
  }

  /** The files both passes delete, in the order they do. */
  function Removed(listing: seq<File>, c: Settings): seq<File> {
    Stales(listing, c) + Oldest(listing, c)
  }

  function Stales(listing: seq<File>, c: Settings): seq<File> {
    Filter((f: File) => Stale(f, c), listing)
  }

  function Kept(listing: seq<File>, c: Settings): seq<File> {
    Filter((f: File) => Retained(f, c), listing)
  }

  function Oldest(listing: seq<File>, c: Settings): seq<File> {
    if c.maxBytes > 0 then SizePass(Sort(Kept(listing, c)), Bytes(Kept(listing, c)), c.maxBytes) else []
  }

  /** `prune_audio_cache`; a missing or unreadable directory is an empty result. */
  method Prune(listing: Option<seq<File>>, c: Settings) returns (result: PruneResult, removed: seq<File>)
    ensures removed == if listing.Some? then Removed(listing.value, c) else []
    ensures result == PruneResult(|removed|, Bytes(removed))
  {
    hide Stale, Retained, Sort;
    removed := [];
    if listing.None? {
      return PruneResult(0, 0), [];
    }
    var paths := listing.value;
    var removedFiles, removedBytes := 0, 0;
    var retained := [];
    for i := 0 to |paths|
      invariant removed == Stales(paths[..i], c) && retained == Kept(paths[..i], c)
      invariant removedFiles == |removed| && removedBytes == Bytes(removed)
    {
      var path := paths[i];
      OneMorePath(paths, i, c);
      BytesAppend(removed, [path]);
      WhatBecomesOf(path, c);
      if !path.readable || !path.regular {
        continue;
      }
      if IsPartial(path) {
        if c.partialTtl > 0.0 && Age(path, c) >= c.partialTtl && path.deletable {
          removedFiles, removedBytes, removed := removedFiles + 1, removedBytes + path.size, removed + [path];
        }
        continue;
      }
      if c.ttl > 0.0 && Age(path, c) >= c.ttl {
        if path.deletable {
          removedFiles, removedBytes, removed := removedFiles + 1, removedBytes + path.size, removed + [path];
        }
        continue;
      }
      retained := retained + [path];
    }
    assert paths[..|paths|] == paths;
    var totalBytes: int := Bytes(retained);
    if c.maxBytes > 0 && totalBytes > c.maxBytes {
      var sorted := Sort(retained);
      var i := 0;
      while i < |sorted|
        invariant 0 <= i <= |sorted|
        invariant removed + SizePass(sorted[i..], totalBytes, c.maxBytes) == Removed(paths, c)
        invariant removedFiles == |removed| && removedBytes == Bytes(removed)
      {
        assert sorted[i..][0] == sorted[i] && sorted[i..][1..] == sorted[i + 1..];
        if totalBytes <= c.maxBytes {
          break;
        }
        var path := sorted[i];
        if !path.inUse && path.deletable {
          BytesAppend(removed, [path]);
          totalBytes := totalBytes - path.size;
          removedFiles, removedBytes, removed := removedFiles + 1, removedBytes + path.size, removed + [path];
        }
        i := i + 1;
      }
    }
    result := PruneResult(removedFiles, removedBytes);
  }

  lemma OneMorePath(paths: seq<File>, i: nat, c: Settings)
    requires i < |paths|
    ensures Stales(paths[..i + 1], c) == Stales(paths[..i], c) + (if Stale(paths[i], c) then [paths[i]] else [])
    ensures Kept(paths[..i + 1], c) == Kept(paths[..i], c) + (if Retained(paths[i], c) then [paths[i]] else [])
  {
    hide Stale, Retained;
    assert paths[..i + 1] == paths[..i] + [paths[i]];
    FilterAppend((f: File) => Stale(f, c), paths[..i], [paths[i]]);
    FilterAppend((f: File) => Retained(f, c), paths[..i], [paths[i]]);
    assert [paths[i]][1..] == [];
  }

  lemma WhatBecomesOf(f: File, c: Settings)
    ensures Stale(f, c) == (f.readable && f.regular && f.deletable
      && (if IsPartial(f) then c.partialTtl > 0.0 && Age(f, c) >= c.partialTtl else c.ttl > 0.0 && Age(f, c) >= c.ttl))
    ensures Retained(f, c) == (f.readable && f.regular && !IsPartial(f) && !(c.ttl > 0.0 && Age(f, c) >= c.ttl))
  {
  }

  // ---------------------------------------------------------------- the theorems

  /**
   The size pass deletes the shortest sufficient prefix, oldest first, of the retained files that are
   neither protected nor undeletable, and none of those it spares is older than one it deletes.
   */
  lemma OldestFilesGoFirst(listing: seq<File>, c: Settings)
    requires c.maxBytes > 0
    ensures
      var total := Bytes(Kept(listing, c));
      var files := Expendable(Sort(Kept(listing, c)));
      var k := |Oldest(listing, c)|;
      && k <= |files| && Oldest(listing, c) == files[..k] && ShortestPrefix(files, k, total, c.maxBytes)
      && OldestFirst(files)
      && forall f :: f in files <==> f in Kept(listing, c) && !f.inUse && f.deletable
  {
    hide Sort, SizePass, Stale, Retained, NotAfter;
    var kept := Kept(listing, c);
    SortFacts(kept);
    SizePassIsShortestPrefix(Sort(kept), Bytes(kept), c.maxBytes);
    ExpendableFacts(Sort(kept));
    PermutationFacts(kept, Sort(kept));
  }

  lemma {:induction false} ExpendableFacts(sorted: seq<File>)
    requires OldestFirst(sorted)
    ensures OldestFirst(Expendable(sorted))
    ensures forall f :: f in Expendable(sorted) <==> f in sorted && !f.inUse && f.deletable
  {
    hide NotAfter;
    FilterMembers((f: File) => !f.inUse && f.deletable, sorted);
    if sorted != [] {
      ExpendableFacts(sorted[1..]);
      var rest := Expendable(sorted[1..]);
      forall j | 0 <= j < |rest| ensures NotAfter(sorted[0], rest[j]) {
        assert rest[j] in sorted[1..];
      }
    }
  }

  /** The size pass never touches a protected or partial file or one the first pass should have deleted. */
  lemma SizePassSpares(listing: seq<File>, c: Settings)
    ensures forall f :: f in Oldest(listing, c) ==>
      f in listing && !f.inUse && !IsPartial(f) && !Expired(f, c) && f.deletable
  {
    hide Sort, SizePass, NotAfter, Expired, IsPartial;
    if c.maxBytes > 0 {
      OldestFilesGoFirst(listing, c);
      FilterMembers((f: File) => Retained(f, c), listing);
      forall f | f in Oldest(listing, c) ensures f in listing && !f.inUse && Retained(f, c) && f.deletable {
        assert f in Expendable(Sort(Kept(listing, c)));
      }
    }
  }

  /** Protection is for the size pass only: a protected file goes exactly when it is expired and deletable. */
  lemma ProtectedFilesCanExpire(listing: seq<File>, c: Settings, f: File)
    requires f in listing && f.inUse
    ensures f in Removed(listing, c) <==> Stale(f, c)
  {
    hide Stale, SizePass, Sort;
    SizePassSpares(listing, c);
    FilterMembers((x: File) => Stale(x, c), listing);
  }

  /** Afterwards the retained files fit, or nothing that could still be deleted is left among them. */
  lemma FitsOrNothingLeft(listing: seq<File>, c: Settings)
    requires c.maxBytes > 0
    ensures Bytes(Kept(listing, c)) - Bytes(Oldest(listing, c)) <= c.maxBytes
         || forall f :: f in Kept(listing, c) && !f.inUse && f.deletable ==> f in Oldest(listing, c)
  {
    hide Stale, Retained, SizePass, Sort, NotAfter;
    OldestFilesGoFirst(listing, c);
    var files := Expendable(Sort(Kept(listing, c)));
    assert files[..|files|] == files;
  }

  /** So it can happen: a protected file past its time to live. */
  lemma ProtectedFileExpires()
    ensures
      var f := File("song.m4a", true, true, 10, 0.0, true, true);
      Removed([f], Settings(100, 60.0, 60.0, 60.0)) == [f]
  {
    var f := File("song.m4a", true, true, 10, 0.0, true, true);
    var c := Settings(100, 60.0, 60.0, 60.0);
    assert !IsPartial(f) && Stale(f, c) && !Retained(f, c);
    OneMorePath([f], 0, c);
    assert [f][..1] == [f] && [f][..0] == [];
    assert Stales([], c) == [] && Kept([], c) == [];
  }

  /** What the size pass leaves of a sorted list. */
  function Spared(sorted: seq<File>, total: int, maxBytes: int): seq<File> {
    if sorted == [] || total <= maxBytes then sorted
    else if sorted[0].inUse || !sorted[0].deletable then [sorted[0]] + Spared(sorted[1..], total, maxBytes)
    else Spared(sorted[1..], total - sorted[0].size, maxBytes)
  }

  lemma {:induction false} SparedFacts(sorted: seq<File>, total: int, maxBytes: int)
    ensures
      var gone, left := SizePass(sorted, total, maxBytes), Spared(sorted, total, maxBytes);
      && multiset(gone) + multiset(left) == multiset(sorted)
      && Bytes(gone) + Bytes(left) == Bytes(sorted)
      && (total - Bytes(gone) <= maxBytes || forall f :: f in left ==> f.inUse || !f.deletable)
  {
    if sorted != [] {
      var later := sorted[1..];
      assert sorted == [sorted[0]] + later;
      if total > maxBytes {
        SparedFacts(later, if sorted[0].inUse || !sorted[0].deletable then total else total - sorted[0].size, maxBytes);
      }
    }
  }

  /** The retained files that survive the size pass. */
  function Survivors(listing: seq<File>, c: Settings): seq<File> {
    Spared(Sort(Kept(listing, c)), Bytes(Kept(listing, c)), c.maxBytes)
  }

  /** The retained files are the deleted and the surviving ones; these fit, or none of them could be deleted. */
  lemma SurvivorsFit(listing: seq<File>, c: Settings)
    requires c.maxBytes > 0
    ensures multiset(Oldest(listing, c)) + multiset(Survivors(listing, c)) == multiset(Kept(listing, c))
    ensures Bytes(Survivors(listing, c)) <= c.maxBytes
         || forall f :: f in Survivors(listing, c) ==> f.inUse || !f.deletable
  {
    hide Sort, Kept, SizePass, Spared;
    var kept := Kept(listing, c);
    SortFacts(kept);
    SortBytes(kept);
    SparedFacts(Sort(kept), Bytes(kept), c.maxBytes);
  }

  /** What the first pass deletes, in terms of the file alone: a time in the future never makes it old. */
  lemma StaleIff(f: File, c: Settings)
    ensures
      var partial := |f.name| >= 5 && f.name[|f.name| - 5..] == ".part";
      var limit := if partial then c.partialTtl else c.ttl;
      Stale(f, c) <==> f.readable && f.regular && f.deletable && limit > 0.0 && c.now - f.mtime >= limit
  {
  }

  /** `a` is a proper prefix of `b`, or smaller where they first differ. */
  ghost predicate NameBefore(a: string, b: string) {
    exists k :: 0 <= k <= |a| && k <= |b| && a[..k] == b[..k] && (k == |a| < |b| || (k < |a| && k < |b| && a[k] < b[k]))
  }

  lemma {:induction false} LexLessIs(a: string, b: string)
    requires LexLess(a, b)
    ensures NameBefore(a, b)
  {
    if a == [] {
      assert a[..0] == b[..0];
    } else if a[0] < b[0] {
      assert a[..0] == b[..0];
    } else {
      LexLessIs(a[1..], b[1..]);
      var k :| 0 <= k <= |a[1..]| && k <= |b[1..]| && a[1..][..k] == b[1..][..k]
               && (k == |a[1..]| < |b[1..]| || (k < |a[1..]| && k < |b[1..]| && a[1..][k] < b[1..][k]));
      assert a[..k + 1] == [a[0]] + a[1..][..k] && b[..k + 1] == [b[0]] + b[1..][..k];
    }
  }

  /** Older, or as old and named before, or named alike. */
  ghost predicate Older(f: File, g: File) {
    f.mtime < g.mtime || (f.mtime == g.mtime && (f.name == g.name || NameBefore(f.name, g.name)))
  }

  lemma NotAfterIsOlder(f: File, g: File)
    requires NotAfter(f, g)
    ensures Older(f, g)
  {
    hide LexLess;
    LexTotal(f.name, g.name);
    if LexLess(f.name, g.name) {
      LexLessIs(f.name, g.name);
    }
  }

  lemma {:induction false} SparedExpendables(sorted: seq<File>, total: int, maxBytes: int)
    ensures
      var files := Expendable(sorted);
      var k := |SizePass(sorted, total, maxBytes)|;
      k <= |files| && SizePass(sorted, total, maxBytes) == files[..k] && Expendable(Spared(sorted, total, maxBytes)) == files[k..]
  {
    SizePassIsShortestPrefix(sorted, total, maxBytes);
    if sorted != [] && total > maxBytes {
      var f, later := sorted[0], sorted[1..];
      if f.inUse || !f.deletable {
        SparedExpendables(later, total, maxBytes);
        assert ([f] + Spared(later, total, maxBytes))[1..] == Spared(later, total, maxBytes);
      } else {
        SparedExpendables(later, total - f.size, maxBytes);
      }
    }
  }

  /** No file that the size pass spares although it could delete it is older than one it deletes. */
  lemma DeletedAreOlder(listing: seq<File>, c: Settings)
    requires c.maxBytes > 0
    ensures forall f, g :: f in Oldest(listing, c) && g in Survivors(listing, c) && !g.inUse && g.deletable ==> Older(f, g)
  {
    hide Stale, Retained, Sort, SizePass, Spared, NotAfter, Older;
    var sorted := Sort(Kept(listing, c));
    var total := Bytes(Kept(listing, c));
    OldestFilesGoFirst(listing, c);
    SparedExpendables(sorted, total, c.maxBytes);
    var files := Expendable(sorted);
    var k := |Oldest(listing, c)|;
    forall f, g | f in Oldest(listing, c) && g in Survivors(listing, c) && !g.inUse && g.deletable ensures Older(f, g) {
      FilterMembers((x: File) => !x.inUse && x.deletable, Survivors(listing, c));
      assert g in files[k..];
      var i :| 0 <= i < k && files[i] == f;
      var j :| 0 <= j < |files| - k && files[k..][j] == g;
      assert files[k + j] == g;
      NotAfterIsOlder(f, g);
    }
  }
}
