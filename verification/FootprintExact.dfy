/**
 What a measurement says about the manifest itself: every byte of content, every name and the encoded manifest is
 paid for, and for manifests without folders the price is a closed formula.
 */
module FootprintExact {
  import opened Footprint
  import opened FootprintBounds

  /* ---------- Which manifests can be measured ---------- */

  function TotalSize(files: seq<File>): int {
    if files == [] then 0 else TotalSize(files[..|files| - 1]) + files[|files| - 1].size
  }

  /** The length of a path, with its slashes. */
  function PathBytes(segments: seq<string>): nat {
    if segments == [] then 0
    else if |segments| == 1 then |segments[0]|
    else PathBytes(segments[..|segments| - 1]) + 1 + |segments[|segments| - 1]|
  }

  lemma {:induction false} PathLengthIs(segments: seq<string>)
    ensures PathLength(segments) == if segments == [] then 0 else PathBytes(segments) + 1
  {
    if segments != [] { PathLengthIs(segments[..|segments| - 1]); }
  }

  /** At most twenty names of at most 200 bytes, a path of at most 1024 bytes, and at most 200 MiB. */
  predicate Publishable(f: File) {
    && f.allowed && 1 <= |f.segments| <= 20 && (forall i :: 0 <= i < |f.segments| ==> 1 <= |f.segments[i]| <= 200)
    && PathBytes(f.segments) <= 1024 && 0 <= f.size <= 200 * 0x10_0000
  }

  lemma {:induction false} AdmitExactly(files: seq<File>)
    ensures Admit(files).Admitted? <==>
              (forall i :: 0 <= i < |files| ==> Publishable(files[i])) && TotalSize(files) <= 200 * 0x10_0000
    ensures Admit(files).Admitted? ==> Admit(files).total == TotalSize(files)
    ensures (forall i :: 0 <= i < |files| ==> Publishable(files[i])) ==> TotalSize(files) >= 0
  {
    if files != [] {
      var n := |files| - 1;
      AdmitExactly(files[..n]);
      PathLengthIs(files[n].segments);
      assert ValidFile(files[n]) <==> Publishable(files[n]);
      assert (forall i :: 0 <= i < |files| ==> Publishable(files[i])) <==>
             Publishable(files[n]) && forall i :: 0 <= i < n ==> Publishable(files[..n][i]);
    }
  }

  /** A manifest is measured exactly if its form, its files and their total are within the limits. */
  lemma MeasuredExactly(m: Manifest, block: int)
    ensures Allowance(m, block).Measured? <==>
              && m.schema == 1 && 1 <= block <= 0x10_0000 && 1 <= |m.files| <= 5000
              && (forall i :: 0 <= i < |m.files| ==> Publishable(m.files[i])) && TotalSize(m.files) <= 200 * 0x10_0000
    ensures Allowance(m, block).Measured? ==> Allowance(m, block).usage.contentBytes == TotalSize(m.files)
  {
    hide Publishable, Admit, TotalSize, Allocated, Inodes;
    AdmitExactly(m.files);
  }

  /* ---------- Every name is paid for ---------- */

  /** Every folder of the site, as a path from the top. */
  ghost function Folders(files: seq<File>): set<Dir> {
    set i, k | 0 <= i < |files| && 1 <= k < |files[i].segments| :: files[i].segments[..k]
  }

  /** A name of n bytes takes n + 32 bytes in its folder. */
  function FileNames(files: seq<File>): int {
    if files == [] then 0
    else
      var path := files[|files| - 1].segments;
      FileNames(files[..|files| - 1]) + if path == [] then 0 else |path[|path| - 1]| + 32
  }

  ghost function FolderName(d: Dir): int { if d == [] then 0 else |d[|d| - 1]| + 32 }

  ghost function FolderNames(files: seq<File>): int { Sums.OverSet(Folders(files), FolderName) }

  lemma {:induction false} DirectoriesAre(files: seq<File>)
    requires AllValid(files)
    ensures Directories(files) == {[], PUBLIC} + set d | d in Folders(files) :: PUBLIC + d
  {
    hide ValidFile;
    var below := set d | d in Folders(files) :: PUBLIC + d;
    if files != [] {
      var n := |files| - 1;
      var f, before := files[n], files[..n];
      assert forall i :: 0 <= i < n ==> before[i] == files[i];
      DirectoriesAre(before);
      NonEmptyPath(f);
      forall d | d in Directories(files)
        ensures d in {[], PUBLIC} + below
      {
        if d in Directories(before) {
          if d != [] && d != PUBLIC {
            var e :| e in Folders(before) && d == PUBLIC + e;
            var i, k :| 0 <= i < |before| && 1 <= k < |before[i].segments| && e == before[i].segments[..k];
            assert e == files[i].segments[..k];
          }
        } else {
          var k :| 1 <= k <= |f.segments| && FullName(f)[..k] == d;
          assert d == PUBLIC + f.segments[..k - 1];
          if k > 1 { assert files[n].segments[..k - 1] in Folders(files); }
        }
      }
      forall e | e in Folders(files)
        ensures PUBLIC + e in Directories(files)
      {
        var i, k :| 0 <= i < |files| && 1 <= k < |files[i].segments| && e == files[i].segments[..k];
        if i < n {
          assert e == before[i].segments[..k];
          assert e in Folders(before);
        } else {
          assert PUBLIC + e == FullName(f)[..k + 1];
        }
      }
      SmallDirs(files);
    }
  }

  lemma NonEmptyPath(f: File)
    requires ValidFile(f)
    ensures f.segments != []
  {}

  lemma {:induction false} SmallDirs(files: seq<File>)
    ensures [] in Directories(files) && PUBLIC in Directories(files)
  {
    if files != [] { SmallDirs(files[..|files| - 1]); }
  }

  /** The folders are the directories below `public`. */
  lemma FoldersCounted(files: seq<File>)
    requires AllValid(files)
    ensures |Directories(files)| == |Folders(files)| + 2
  {
    hide ValidFile, Directories;
    DirectoriesAre(files);
    var folders := Folders(files);
    var below := set d | d in folders :: PUBLIC + d;
    assert forall d :: d in folders ==> d != [];
    SameCount(folders, below);
    assert forall d :: d in below ==> |d| >= 2;
    assert Directories(files) == {[], PUBLIC} + below;
    assert |{[], PUBLIC} + below| == |{[], PUBLIC}| + |below|;
  }

  lemma {:induction false} SameCount(folders: set<Dir>, below: set<Dir>)
    requires below == set d | d in folders :: PUBLIC + d
    ensures |below| == |folders|
    decreases |folders|
  {
    if folders != {} {
      var d :| d in folders;
      forall e | e in folders - {d}
        ensures PUBLIC + e != PUBLIC + d
      {
        assert (PUBLIC + e)[1..] == e && (PUBLIC + d)[1..] == d;
      }
      assert below - {PUBLIC + d} == set e | e in folders - {d} :: PUBLIC + e;
      SameCount(folders - {d}, below - {PUBLIC + d});
    }
  }

  lemma {:induction false} FileEntriesExact(dirs: set<Dir>, files: seq<File>)
    requires AllValid(files) && forall i :: 0 <= i < |files| ==> Home(files[i]) in dirs
    ensures Sums.OverSet(dirs, d => FileEntries(files, d)) == FileNames(files)
  {
    hide ValidFile, Home;
    if files == [] {
      Sums.SetZero(dirs, d => FileEntries(files, d));
    } else {
      var n := |files| - 1;
      var f := files[n];
      NonEmptyPath(f);
      assert forall i :: 0 <= i < n ==> files[..n][i] == files[i];
      FileEntriesExact(dirs, files[..n]);
      var own := (d: Dir) => if d == Home(f) then |f.segments[|f.segments| - 1]| + 32 else 0;
      Sums.SetPoint(dirs, own, Home(f), |f.segments[|f.segments| - 1]| + 32);
      Sums.SetAdds(dirs, d => FileEntries(files[..n], d), own, d => FileEntries(files, d));
    }
  }

  lemma {:induction false} ChildEntriesExact(dirs: set<Dir>, children: set<Dir>)
    requires forall c :: c in children && |c| >= 2 ==> c[..|c| - 1] in dirs
    ensures Sums.OverSet(dirs, d => ChildEntries(children, d)) ==
            Sums.OverSet(children, (c: Dir) => if |c| >= 2 then |c[|c| - 1]| + 32 else 0)
    decreases |children|
  {
    hide ChildEntries;
    var cost := (c: Dir) => if |c| >= 2 then |c[|c| - 1]| + 32 else 0;
    if children == {} {
      forall d | d in dirs
        ensures ChildEntries(children, d) == 0
      {
        NoChildren(d);
      }
      Sums.SetZero(dirs, d => ChildEntries(children, d));
    } else {
      var c :| c in children;
      ChildEntriesExact(dirs, children - {c});
      var own := (d: Dir) => ChildEntry(c, d);
      if |c| >= 2 {
        Sums.SetPoint(dirs, own, c[..|c| - 1], cost(c));
      } else {
        Sums.SetZero(dirs, own);
      }
      forall d | d in dirs
        ensures ChildEntries(children, d) == own(d) + ChildEntries(children - {c}, d)
      {
        ChildWithout(children, c, d);
      }
      Sums.SetAdds(dirs, own, d => ChildEntries(children - {c}, d), d => ChildEntries(children, d));
      Sums.SetWithout(children, cost, c);
    }
  }

  lemma {:induction false} HomesPresent(files: seq<File>, i: nat)
    requires AllValid(files) && i < |files|
    ensures Home(files[i]) in Directories(files)
  {
    hide ValidFile, Home, Ancestors;
    var n := |files| - 1;
    if i == n {
      NonEmptyPath(files[n]);
      HomeIsAncestor(files[n]);
    } else {
      assert forall j :: 0 <= j < n ==> files[..n][j] == files[j];
      HomesPresent(files[..n], i);
    }
  }

  /** Names of folders are paid for in the folders above them, once each. */
  lemma FolderCost(files: seq<File>)
    requires AllValid(files)
    ensures Sums.OverSet(Directories(files), (c: Dir) => if |c| >= 2 then |c[|c| - 1]| + 32 else 0) ==
            FolderNames(files)
  {
    hide ValidFile, Directories, Folders;
    var cost := (c: Dir) => if |c| >= 2 then |c[|c| - 1]| + 32 else 0;
    var dirs, folders := Directories(files), Folders(files);
    var below := set d | d in folders :: PUBLIC + d;
    DirectoriesAre(files);
    FoldersNonEmpty(files);
    assert forall d :: d in below ==> |d| >= 2;
    Sums.SetWithout(dirs, cost, []);
    Sums.SetWithout(dirs - {[]}, cost, PUBLIC);
    assert dirs - {[]} - {PUBLIC} == below;
    SameCount(folders, below);
    forall d, e | d in folders && e in folders && PUBLIC + d == PUBLIC + e
      ensures d == e
    {
      assert (PUBLIC + d)[1..] == d && (PUBLIC + e)[1..] == e;
    }
    Sums.SetImage(folders, FolderName, below, cost, (d: Dir) => PUBLIC + d);
  }

  lemma FoldersNonEmpty(files: seq<File>)
    ensures forall d :: d in Folders(files) ==> d != []
  {}

  /** Together the directories hold the entry of `public` and the manifest, every file name and every folder name. */
  lemma EntriesExact(files: seq<File>)
    requires AllValid(files)
    ensures var dirs := Directories(files);
            Sums.OverSet(dirs, d => EntrySize(files, dirs, d)) == 64 + FileNames(files) + FolderNames(files)
  {
    hide FileEntries, ChildEntries, ValidFile, Directories, FileNames, FolderNames, Home;
    var dirs := Directories(files);
    forall i | 0 <= i < |files|
      ensures Home(files[i]) in dirs
    {
      HomesPresent(files, i);
    }
    FileEntriesExact(dirs, files);
    forall c | c in dirs && |c| >= 2
      ensures c[..|c| - 1] in dirs
    {
      ParentPresent(files, c);
    }
    ChildEntriesExact(dirs, dirs);
    FolderCost(files);
    SmallDirs(files);
    Sums.SetPoint(dirs, d => RootEntry(d), [], 64);
    var below := (d: Dir) => RootEntry(d) + FileEntries(files, d);
    Sums.SetAdds(dirs, d => RootEntry(d), d => FileEntries(files, d), below);
    Sums.SetAdds(dirs, below, d => ChildEntries(dirs, d), d => EntrySize(files, dirs, d));
  }

  /* ---------- Nothing is underpriced ---------- */

  /** The manifest as text: per file its path, the digits of its size, and 96 bytes of names, digest and punctuation. */
  function ManifestBytes(files: seq<File>): nat {
    if files == [] then 22
    else
      var f := files[|files| - 1];
      ManifestBytes(files[..|files| - 1]) + PathBytes(f.segments) + (if f.size < 0 then 0 else Decimal.Digits(f.size))
        + 96
  }

  lemma {:induction false} EncodedExactly(files: seq<File>)
    requires AllValid(files)
    ensures 22 + EncodedFiles(files) == ManifestBytes(files)
  {
    hide ValidFile, Decimal.Digits;
    if files != [] {
      var n := |files| - 1;
      assert forall i :: 0 <= i < n ==> files[..n][i] == files[i];
      EncodedExactly(files[..n]);
      NonEmptyPath(files[n]);
      PathLengthIs(files[n].segments);
    }
  }

  lemma RoundUp(n: int, block: int)
    requires block > 0
    ensures n <= Round(n, block) < n + block && n <= Round(AtLeastOne(n), block)
  {
    hide Round;
    var p := RoundLeast(n, block);
    var q := RoundLeast(AtLeastOne(n), block);
  }

  lemma {:induction false} FilesPaid(files: seq<File>, block: int)
    requires block > 0
    ensures TotalSize(files) <= RoundedFiles(files, block)
  {
    hide Round;
    if files != [] {
      FilesPaid(files[..|files| - 1], block);
      RoundUp(files[|files| - 1].size, block);
    }
  }

  lemma {:induction false} SizesPaid(sizes: map<Dir, int>, f: Dir -> int, block: int)
    requires block > 0 && forall d :: d in sizes ==> sizes[d] == f(d)
    ensures Sums.OverSet(sizes.Keys, f) <= RoundedSizes(sizes, block)
    decreases |sizes|
  {
    hide Round, RoundedSizes, AtLeastOne;
    if sizes == map[] {
      NothingRounded(block);
      Sums.SetZero(sizes.Keys, f);
    } else {
      var d :| d in sizes;
      var rest := sizes - {d};
      RoundedWithout(sizes, d, block);
      Sums.SetWithout(sizes.Keys, f, d);
      assert rest.Keys == sizes.Keys - {d} && |rest| == |rest.Keys| && |sizes| == |sizes.Keys|;
      SizesPaid(rest, f, block);
      RoundUp(sizes[d], block);
    }
  }

  /**
   A measured version is charged at least for its content, every file and folder name with 32 bytes each, the text of
   the manifest and four shared blocks; and for one inode per file and folder and seven more.
   */
  lemma EverythingPaid(m: Manifest, block: int)
    requires Allowance(m, block).Measured?
    ensures Allowance(m, block).usage.contentBytes == TotalSize(m.files)
    ensures Allowance(m, block).usage.allocatedBytes >=
            TotalSize(m.files) + 64 + FileNames(m.files) + FolderNames(m.files) + ManifestBytes(m.files) + 4 * block
    ensures Allowance(m, block).usage.inodes == |m.files| + |Folders(m.files)| + 7
  {
    hide Round, RoundedFiles, RoundedSizes, EntrySize, EncodedFiles, Directories, Folders, ValidFile, Publishable,
      FileNames, FolderNames, TotalSize, ManifestBytes, Admit;
    var dirs, sizes := Directories(m.files), Sizes(m.files);
    MeasuredExactly(m, block);
    AdmittedValid(m.files);
    FoldersCounted(m.files);
    FilesPaid(m.files, block);
    SizesKeys(m.files);
    EntriesExact(m.files);
    SizesPaid(sizes, d => EntrySize(m.files, dirs, d), block);
    EncodedExactly(m.files);
    RoundUp(EncodedLength(m), block);
  }

  /* ---------- The exact price of a site without folders ---------- */

  lemma {:induction false} FlatEntries(files: seq<File>)
    requires AllFlat(files)
    ensures FileEntries(files, []) == 0 && FileEntries(files, PUBLIC) == FileNames(files)
  {
    if files != [] {
      var n := |files| - 1;
      FlatEntries(files[..n]);
      assert |files[n].segments| == 1;
      assert Home(files[n]) == PUBLIC;
    }
  }

  lemma FlatSizes(files: seq<File>)
    requires AllFlat(files)
    ensures Sizes(files) == map[[] := 64, PUBLIC := FileNames(files)]
  {
    hide FileEntries, FileNames, Directories;
    FlatDirectories(files);
    FlatEntries(files);
    var dirs := {[], PUBLIC};
    forall d | d in dirs
      ensures ChildEntries(dirs, d) == 0
    {
      Sums.SetZero(dirs, (c: Dir) => ChildEntry(c, d));
    }
  }

  lemma {:induction false} NamesPositive(files: seq<File>)
    requires AllFlat(files) && files != []
    ensures FileNames(files) >= 32
  {
    var n := |files| - 1;
    assert |files[n].segments| == 1;
    if n > 0 { NamesPositive(files[..n]); }
  }

  /** Without folders: the rounded files, one block of 64 bytes, the names, the manifest and four blocks. */
  lemma FlatPrice(m: Manifest, block: int)
    requires Allowance(m, block).Measured? && AllFlat(m.files)
    ensures Allowance(m, block).usage ==
            Usage(TotalSize(m.files),
                  RoundedFiles(m.files, block) + Round(64, block) + Round(FileNames(m.files), block)
                  + Round(ManifestBytes(m.files), block) + 4 * block,
                  |m.files| + 7)
  {
    hide Round, RoundedFiles, RoundedSizes, EncodedFiles, Directories, ValidFile, Publishable, FileNames, TotalSize,
      ManifestBytes, Sizes, Admit;
    var names := FileNames(m.files);
    MeasuredExactly(m, block);
    AdmittedValid(m.files);
    FlatDirectories(m.files);
    FlatSizes(m.files);
    NamesPositive(m.files);
    EncodedExactly(m.files);
    var sizes := Sizes(m.files);
    RoundedWithout(sizes, [], block);
    assert sizes - {[]} == map[PUBLIC := names];
    RoundedWithout(sizes - {[]}, PUBLIC, block);
    assert sizes - {[]} - {PUBLIC} == map[];
    NothingRounded(block);
  }
}
