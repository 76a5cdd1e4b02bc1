/** How large a measured version can be, whatever the manifest: the limits that later refunds rely on. */
module FootprintBounds {
  import opened Footprint
  import Decimal
  import Sums

  const MAX_INODES: nat := 0x10_0000
  const MAX_VERSION: nat := 0x100_0000_0000
  const LARGEST_ENTRY: nat := 232

  /* ---------- What files and directories contribute ---------- */

  predicate AllValid(files: seq<File>) { forall i :: 0 <= i < |files| ==> ValidFile(files[i]) }

  lemma {:induction false} AdmittedValid(files: seq<File>)
    requires Admit(files).Admitted?
    ensures AllValid(files) && 0 <= Admit(files).total <= MAX_CONTENT
  {
    hide ValidFile;
    if files != [] {
      var n := |files| - 1;
      AdmittedValid(files[..n]);
      assert forall i :: 0 <= i < n ==> files[..n][i] == files[i];
      SizeNonNegative(files[n]);
    }
  }

  lemma SizeNonNegative(f: File)
    requires ValidFile(f)
    ensures 0 <= f.size <= MAX_CONTENT
  {}

  lemma FileEntryBound(f: File)
    requires ValidFile(f)
    ensures f.segments != [] && Entry(f.segments[|f.segments| - 1]) <= LARGEST_ENTRY
  {}

  lemma {:induction false} FileEntriesBound(dirs: set<Dir>, files: seq<File>)
    requires AllValid(files)
    ensures Sums.OverSet(dirs, d => FileEntries(files, d)) <= LARGEST_ENTRY * |files|
  {
    hide ValidFile, Entry, Home;
    if files == [] {
      Sums.SetZero(dirs, d => FileEntries(files, d));
    } else {
      var n := |files| - 1;
      var f := files[n];
      FileEntryBound(f);
      FileEntriesBound(dirs, files[..n]);
      var own := (d: Dir) => if d == Home(f) then Entry(f.segments[|f.segments| - 1]) else 0;
      Sums.SetPoint(dirs, own, Home(f), Entry(f.segments[|f.segments| - 1]));
      Sums.SetAdds(dirs, d => FileEntries(files[..n], d), own, d => FileEntries(files, d));
    }
  }

  lemma {:induction false} SegmentsBound(files: seq<File>, c: Dir)
    requires AllValid(files) && c in Directories(files) && |c| >= 2
    ensures Entry(c[|c| - 1]) <= LARGEST_ENTRY
  {
    if files != [] {
      var n := |files| - 1;
      var f := files[n];
      if c in Directories(files[..n]) {
        assert forall i :: 0 <= i < n ==> files[..n][i] == files[i];
        SegmentsBound(files[..n], c);
      } else {
        var k :| 1 <= k <= |f.segments| && FullName(f)[..k] == c;
        assert c[k - 1] == f.segments[k - 2];
        assert ValidFile(f);
      }
    }
  }

  lemma {:induction false} ChildEntriesBound(dirs: set<Dir>, children: set<Dir>)
    requires forall c :: c in children && |c| >= 2 ==> Entry(c[|c| - 1]) <= LARGEST_ENTRY
    ensures Sums.OverSet(dirs, d => ChildEntries(children, d)) <= LARGEST_ENTRY * |children|
    decreases |children|
  {
    hide Entry, ChildEntries;
    if children == {} {
      forall d | d in dirs
        ensures ChildEntries(children, d) == 0
      {
        NoChildren(d);
      }
      Sums.SetZero(dirs, d => ChildEntries(children, d));
    } else {
      var c :| c in children;
      ChildEntriesBound(dirs, children - {c});
      var own := (d: Dir) => ChildEntry(c, d);
      if |c| >= 2 {
        Sums.SetPoint(dirs, own, c[..|c| - 1], Entry(c[|c| - 1]));
      } else {
        Sums.SetZero(dirs, own);
      }
      forall d | d in dirs
        ensures ChildEntries(children, d) == own(d) + ChildEntries(children - {c}, d)
      {
        ChildWithout(children, c, d);
      }
      Sums.SetAdds(dirs, own, d => ChildEntries(children - {c}, d), d => ChildEntries(children, d));
    }
  }

  lemma EntriesBound(files: seq<File>)
    requires AllValid(files)
    ensures var dirs := Directories(files);
            Sums.OverSet(dirs, d => EntrySize(files, dirs, d)) <= 64 + LARGEST_ENTRY * (|files| + |dirs|)
  {
    hide FileEntries, ChildEntries, ValidFile, Entry, Directories;
    var dirs := Directories(files);
    FileEntriesBound(dirs, files);
    forall c | c in dirs && |c| >= 2
      ensures Entry(c[|c| - 1]) <= LARGEST_ENTRY
    {
      SegmentsBound(files, c);
    }
    ChildEntriesBound(dirs, dirs);
    Sums.SetPoint(dirs, d => RootEntry(d), [], 64);
    var below := (d: Dir) => RootEntry(d) + FileEntries(files, d);
    Sums.SetAdds(dirs, d => RootEntry(d), d => FileEntries(files, d), below);
    Sums.SetAdds(dirs, below, d => ChildEntries(dirs, d), d => EntrySize(files, dirs, d));
  }

  /* ---------- Totals ---------- */

  lemma RoundBound(n: int, block: int)
    requires block > 0 && n >= 0
    ensures 0 <= Round(n, block) <= n + block && 0 <= Round(AtLeastOne(n), block) <= n + block
  {
    hide Round;
    var q := RoundLeast(n, block);
    var r := RoundLeast(AtLeastOne(n), block);
  }

  lemma {:induction false} RoundedSizesBound(sizes: map<Dir, int>, f: Dir -> int, block: int)
    requires block > 0 && forall d :: d in sizes ==> sizes[d] == f(d) && f(d) >= 0
    ensures 0 <= RoundedSizes(sizes, block) <= Sums.OverSet(sizes.Keys, f) + |sizes| * block
    decreases |sizes|
  {
    hide Round, RoundedSizes, AtLeastOne;
    if sizes == map[] {
      NothingRounded(block);
      Sums.SetZero(sizes.Keys, f);
    } else {
      var d :| d in sizes;
      var rest := sizes - {d};
      RoundedWithout(sizes, d, block);
      Sums.SetWithout(sizes.Keys, f, d);
      assert rest.Keys == sizes.Keys - {d} && |rest| == |rest.Keys| && |sizes| == |sizes.Keys|;
      RoundedSizesBound(rest, f, block);
      RoundBound(sizes[d], block);
      assert |sizes| * block == |rest| * block + block;
    }
  }

  lemma {:induction false} RoundedFilesBound(files: seq<File>, block: int)
    requires block > 0 && Admit(files).Admitted?
    ensures 0 <= RoundedFiles(files, block) <= Admit(files).total + |files| * block
  {
    hide Round, ValidFile;
    if files != [] {
      var n := |files| - 1;
      RoundedFilesBound(files[..n], block);
      SizeNonNegative(files[n]);
      RoundBound(files[n].size, block);
      assert |files| * block == n * block + block;
    }
  }

  lemma SizeDigits(n: nat)
    requires n <= MAX_CONTENT
    ensures Decimal.Digits(n) <= 20
  {
    Decimal.Uint64Digits(n);
  }

  lemma {:induction false} EncodedBound(files: seq<File>)
    requires AllValid(files)
    ensures EncodedFiles(files) <= 1140 * |files|
  {
    if files != [] {
      var n := |files| - 1;
      assert forall i :: 0 <= i < n ==> files[..n][i] == files[i];
      EncodedBound(files[..n]);
      assert ValidFile(files[n]);
      SizeDigits(files[n].size);
    }
  }

  lemma {:induction false} PrefixCount(name: Dir, n: nat)
    requires 1 <= n <= |name|
    ensures |set k | 1 <= k <= n :: name[..k]| <= n
  {
    if n == 1 {
      assert (set k | 1 <= k <= n :: name[..k]) == {name[..1]};
    } else {
      PrefixCount(name, n - 1);
      assert (set k | 1 <= k <= n :: name[..k]) == (set k | 1 <= k <= n - 1 :: name[..k]) + {name[..n]};
    }
  }

  lemma {:induction false} DirectoriesBound(files: seq<File>)
    requires AllValid(files)
    ensures |Directories(files)| <= 2 + MAX_DEPTH * |files|
  {
    if files != [] {
      var n := |files| - 1;
      assert forall i :: 0 <= i < n ==> files[..n][i] == files[i];
      DirectoriesBound(files[..n]);
      assert ValidFile(files[n]);
      PrefixCount(FullName(files[n]), |files[n].segments|);
      UnionSize(Directories(files[..n]), Ancestors(files[n]));
    }
  }

  lemma UnionSize(a: set<Dir>, b: set<Dir>)
    ensures |a + b| <= |a| + |b|
  {
    assert a + b == a + (b - a);
    assert b == (b - a) + (b * a);
  }

  lemma AllocatedBound(m: Manifest, block: int)
    requires Allowance(m, block).Measured?
    ensures var d := |Directories(m.files)|; var f := |m.files|;
            0 < Allocated(m, block) <= MAX_CONTENT + 64 + LARGEST_ENTRY * (f + d) + 22 + 1140 * f + (f + d + 5) * block
  {
    hide Round, RoundedFiles, RoundedSizes, EntrySize, EncodedFiles, Directories, ValidFile;
    var dirs := Directories(m.files);
    var sizes := Sizes(m.files);
    AdmittedValid(m.files);
    RoundedFilesBound(m.files, block);
    SizesKeys(m.files);
    EntriesBound(m.files);
    assert sizes.Keys == dirs && |sizes| == |dirs|;
    RoundedSizesBound(sizes, d => EntrySize(m.files, dirs, d), block);
    EncodedBound(m.files);
    RoundBound(EncodedLength(m), block);
    assert (|m.files| + |dirs| + 5) * block == |m.files| * block + |dirs| * block + 5 * block;
  }

  /** The limits that the reclamation rules check can never be exceeded by a measured version. */
  lemma UsageBounds(m: Manifest, block: int)
    requires Allowance(m, block).Measured?
    ensures var u := Allowance(m, block).usage;
            0 < u.allocatedBytes <= MAX_VERSION && 0 < u.inodes <= MAX_INODES && 0 <= u.contentBytes <= MAX_CONTENT
  {
    hide Allocated, Directories, ValidFile;
    AdmittedValid(m.files);
    DirectoriesBound(m.files);
    AllocatedBound(m, block);
    var n := |m.files| + |Directories(m.files)| + 5;
    assert n <= 105007;
    Ordered(n, 105007, block);
    assert 105007 * block <= 105007 * 0x10_0000;
  }

  /* ---------- The surcharge needs divisible block sizes ---------- */

  /** The size that a block which does not divide a larger one treats best. */
  function Awkward(b: int, c: int): int
    requires b > 0
  {
    (c / b + 1) * b
  }

  lemma AwkwardRounds(b: int, c: int)
    requires 0 < b < c && c % b != 0
    ensures Round(Awkward(b, c), b) == Awkward(b, c) && Round(Awkward(b, c), c) == Awkward(b, c) + (c - b) + c % b
  {
    hide Round;
    var x := Awkward(b, c);
    assert x == c - c % b + b;
    var p := RoundLeast(x, b);
    var q := RoundLeast(x, c);
    SameMultiple(p, c / b + 1, b);
    assert c < x < 2 * c;
    SameMultiple(q, 2, c);
  }

  lemma SameMultiple(p: int, k: int, b: int)
    requires b > 0 && (k - 1) * b < p * b < (k + 1) * b
    ensures p == k
  {
    Cancel(k - 1, p, b);
    Cancel(p, k + 1, b);
  }

  predicate AllOfSize(files: seq<File>, size: int) { forall i :: 0 <= i < |files| ==> files[i].size == size }

  lemma {:induction false} EqualFilesRounded(files: seq<File>, size: int, block: int)
    requires block > 0 && AllOfSize(files, size)
    ensures RoundedFiles(files, block) == |files| * Round(size, block)
  {
    hide Round;
    if files != [] {
      EqualFilesRounded(files[..|files| - 1], size, block);
    }
  }

  /** Rounding to a larger block loses less than one smaller block per directory. */
  lemma {:induction false} SizesShrinkLittle(sizes: map<Dir, int>, b: int, c: int)
    requires 0 < b && 0 < c
    ensures RoundedSizes(sizes, c) >= RoundedSizes(sizes, b) - |sizes| * (b - 1)
    decreases |sizes|
  {
    hide Round, RoundedSizes;
    if sizes == map[] {
      NothingRounded(b);
      NothingRounded(c);
    } else {
      var d :| d in sizes;
      var rest := sizes - {d};
      RoundedWithout(sizes, d, b);
      RoundedWithout(sizes, d, c);
      assert rest.Keys == sizes.Keys - {d} && |rest| == |rest.Keys| && |sizes| == |sizes.Keys|;
      SizesShrinkLittle(rest, b, c);
      var p := RoundLeast(AtLeastOne(sizes[d]), b);
      var q := RoundLeast(AtLeastOne(sizes[d]), c);
      assert |sizes| * (b - 1) == |rest| * (b - 1) + (b - 1);
    }
  }

  predicate AllFlat(files: seq<File>) { forall i :: 0 <= i < |files| ==> |files[i].segments| == 1 }

  lemma {:induction false} FlatDirectories(files: seq<File>)
    requires AllFlat(files)
    ensures Directories(files) == {[], PUBLIC}
  {
    if files != [] {
      var n := |files| - 1;
      FlatDirectories(files[..n]);
      assert |files[n].segments| == 1;
      assert Ancestors(files[n]) == {FullName(files[n])[..1]};
      assert FullName(files[n])[..1] == PUBLIC;
    }
  }

  /**
   Without divisibility the surcharge does not cover a new measurement: every manifest with enough files of the
   awkward size costs more at the larger block than its old charge and the surcharge on its inodes.
   */
  lemma DivisibilityNeeded(m: Manifest, b: int, c: int)
    requires Allowance(m, b).Measured? && Allowance(m, c).Measured? && b < c && c % b != 0
    requires AllFlat(m.files) && AllOfSize(m.files, Awkward(b, c)) && |m.files| * (c % b) > 3 * (c - 1)
    ensures Allowance(m, c).usage.allocatedBytes > Allowance(m, b).usage.allocatedBytes
            + Allowance(m, b).usage.inodes * (c - b)
  {
    hide Round, RoundedFiles, RoundedSizes, Sizes, Admit, EncodedLength, Directories, Awkward;
    var f, x, r := |m.files|, Awkward(b, c), c % b;
    AwkwardRounds(b, c);
    EqualFilesRounded(m.files, x, b);
    EqualFilesRounded(m.files, x, c);
    FlatDirectories(m.files);
    SizesKeys(m.files);
    assert |Sizes(m.files)| == 2;
    SizesShrinkLittle(Sizes(m.files), b, c);
    var p := RoundLeast(EncodedLength(m), b);
    var q := RoundLeast(EncodedLength(m), c);
    assert f * (x + (c - b) + r) == f * x + f * (c - b) + f * r;
    assert (f + 2 + 5) * (c - b) == f * (c - b) + 7 * (c - b);
  }

  /* ---------- Such manifests exist ---------- */

  /** Files with different names and the same size. */
  function EqualFiles(n: nat, size: int): seq<File> {
    seq(n, i requires 0 <= i < n => File([seq(i + 1, _ => 'a') + ".html"], size, true))
  }

  lemma {:induction false} EqualFilesAdmitted(files: seq<File>, size: nat)
    requires AllValid(files) && AllOfSize(files, size) && |files| * size <= MAX_CONTENT
    ensures Admit(files) == Admitted(|files| * size)
  {
    hide ValidFile;
    if files != [] {
      var n := |files| - 1;
      assert forall i :: 0 <= i < n ==> files[..n][i] == files[i];
      assert |files| * size == n * size + size;
      EqualFilesAdmitted(files[..n], size);
    }
  }

  lemma FlatFileValid(f: File)
    requires f.allowed && |f.segments| == 1 && 1 <= |f.segments[0]| <= MAX_SEGMENT && 0 <= f.size <= MAX_CONTENT
    ensures ValidFile(f)
  {
    assert f.segments[..0] == [];
    assert PathLength(f.segments) == PathLength(f.segments[..0]) + 1 + |f.segments[0]|;
  }

  /** Ten pages of six bytes cost more with blocks of four than with blocks of three and the surcharge. */
  lemma DivisibilityFails() returns (m: Manifest)
    ensures Allowance(m, 3).Measured? && Allowance(m, 4).Measured?
    ensures Allowance(m, 4).usage.allocatedBytes > Allowance(m, 3).usage.allocatedBytes
            + Allowance(m, 3).usage.inodes * (4 - 3)
  {
    hide Allocated, Directories;
    m := Manifest(1, EqualFiles(10, 6));
    forall i | 0 <= i < 10
      ensures ValidFile(m.files[i])
    {
      FlatFileValid(m.files[i]);
    }
    EqualFilesAdmitted(m.files, 6);
    assert Awkward(3, 4) == 6;
    DivisibilityNeeded(m, 3, 4);
  }
}
