/**
 How much of a filesystem one published version may occupy: every file, directory
 and the manifest rounded up to whole blocks, plus four shared blocks.
 */
module Footprint {
  import Decimal
  import Sums

  const MAX_FILES: nat := 5000
  const MAX_DEPTH: nat := 20
  const MAX_SEGMENT: nat := 200
  const MAX_CONTENT: nat := 0xC80_0000
  const MAX_BLOCK: nat := 0x10_0000

  /** A directory as its path segments; the empty sequence is the version's root. */
  type Dir = seq<string>

  const PUBLIC: Dir := ["public"]

  /** `allowed` says that the name passes the rules on characters, extensions and reserved names. */
  datatype File = File(segments: seq<string>, size: int, allowed: bool)

  datatype Manifest = Manifest(schema: int, files: seq<File>)

  datatype Usage = Usage(contentBytes: int, allocatedBytes: int, inodes: nat)

  datatype Measurement = Measured(usage: Usage) | Invalid | TooLarge

  function Round(n: int, block: int): (r: int)
    requires block > 0
  {
    (n + block - 1) / block * block
  }

  function PathLength(segments: seq<string>): nat {
    if segments == [] then 0 else PathLength(segments[..|segments| - 1]) + 1 + |segments[|segments| - 1]|
  }

  predicate ValidFile(f: File) {
    && f.allowed && 1 <= |f.segments| <= MAX_DEPTH
    && (forall i :: 0 <= i < |f.segments| ==> 1 <= |f.segments[i]| <= MAX_SEGMENT)
    && PathLength(f.segments) <= 1025
    && 0 <= f.size <= MAX_CONTENT
  }

  datatype Admission = Admitted(total: int) | BadFile | OverLimit

  /** The first unacceptable file decides the error. */
  function Admit(files: seq<File>): Admission {
    if files == [] then Admitted(0)
    else
      var last := files[|files| - 1];
      match Admit(files[..|files| - 1])
      case BadFile => BadFile
      case OverLimit => OverLimit
      case Admitted(total) =>
        if !ValidFile(last) then BadFile
        else if total + last.size > MAX_CONTENT then OverLimit
        else Admitted(total + last.size)
  }

  /* ---------- Directories, without an order ---------- */

  function FullName(f: File): Dir { PUBLIC + f.segments }

  function Home(f: File): Dir { FullName(f)[..|f.segments|] }

  /** All directories above a file, from `public` down to the one that holds it. */
  function Ancestors(f: File): set<Dir> {
    set k | 1 <= k <= |f.segments| :: FullName(f)[..k]
  }

  function Directories(files: seq<File>): set<Dir> {
    if files == [] then {[], PUBLIC} else Directories(files[..|files| - 1]) + Ancestors(files[|files| - 1])
  }

  function Entry(name: string): nat { |name| + 32 }

  function FileEntries(files: seq<File>, d: Dir): nat {
    if files == [] then 0
    else
      var f := files[|files| - 1];
      FileEntries(files[..|files| - 1], d) + if f.segments != [] && Home(f) == d
        then Entry(f.segments[|f.segments| - 1]) else 0
  }

  /** What a directory below `public` adds to its parent. */
  function ChildEntry(c: Dir, d: Dir): nat {
    if |c| >= 2 && c[..|c| - 1] == d then Entry(c[|c| - 1]) else 0
  }

  ghost function ChildEntries(dirs: set<Dir>, d: Dir): (n: nat) {
    Sums.SetNonNegative(dirs, (c: Dir) => ChildEntry(c, d));
    Sums.OverSet(dirs, (c: Dir) => ChildEntry(c, d))
  }

  lemma ChildWithout(dirs: set<Dir>, c: Dir, d: Dir)
    requires c in dirs
    ensures ChildEntries(dirs, d) == ChildEntry(c, d) + ChildEntries(dirs - {c}, d)
  {
    hide ChildEntry;
    Sums.SetWithout(dirs, (c: Dir) => ChildEntry(c, d), c);
  }

  function RootEntry(d: Dir): nat { if d == [] then 64 else 0 }

  ghost function EntrySize(files: seq<File>, dirs: set<Dir>, d: Dir): nat {
    RootEntry(d) + FileEntries(files, d) + ChildEntries(dirs, d)
  }

  ghost function Sizes(files: seq<File>): map<Dir, int> {
    map d | d in Directories(files) :: EntrySize(files, Directories(files), d)
  }

  function AtLeastOne(n: int): int { if n < 1 then 1 else n }

  ghost function Rounding(block: int): (Dir, int) -> int
    requires block > 0
  {
    (d: Dir, n: int) => Round(AtLeastOne(n), block)
  }

  ghost function RoundedSizes(sizes: map<Dir, int>, block: int): int
    requires block > 0
  {
    Sums.OverMap(sizes, Rounding(block))
  }

  lemma RoundedWithout(sizes: map<Dir, int>, d: Dir, block: int)
    requires block > 0 && d in sizes
    ensures RoundedSizes(sizes, block) == Round(AtLeastOne(sizes[d]), block) + RoundedSizes(sizes - {d}, block)
  {
    hide Round;
    Sums.MapWithout(sizes, Rounding(block), d);
  }

  function RoundedFiles(files: seq<File>, block: int): int
    requires block > 0
  {
    if files == [] then 0 else RoundedFiles(files[..|files| - 1], block) + Round(files[|files| - 1].size, block)
  }

  /** Length of one file record in the encoded manifest; names need no escaping and digests have 64 characters. */
  function EncodedFile(f: File): nat {
    PathLength(f.segments) + (if f.size >= 0 then Decimal.Digits(f.size) else 0) + 95
  }

  function EncodedFiles(files: seq<File>): nat {
    if files == [] then 0 else EncodedFiles(files[..|files| - 1]) + EncodedFile(files[|files| - 1])
  }

  function EncodedLength(m: Manifest): nat { 22 + EncodedFiles(m.files) }

  predicate Measurable(m: Manifest, block: int) {
    m.schema == 1 && 1 <= block <= MAX_BLOCK && 1 <= |m.files| <= MAX_FILES
  }

  /** The allowance, with no reference to any order of visiting directories. */
  ghost function Allowance(m: Manifest, block: int): Measurement {
    if !Measurable(m, block) then Invalid
    else match Admit(m.files)
         case BadFile => Invalid
         case OverLimit => TooLarge
         case Admitted(total) => Measured(Usage(total, Allocated(m, block), Inodes(m)))
  }

  ghost function Allocated(m: Manifest, block: int): int
    requires block > 0
  {
    RoundedFiles(m.files, block) + RoundedSizes(Sizes(m.files), block) + Round(EncodedLength(m), block) + 4 * block
  }

  function Inodes(m: Manifest): nat { |m.files| + |Directories(m.files)| + 5 }

  /* ---------- The computation ---------- */

  /** Adds a file's entry to its directory and makes sure that every directory above it is known. */
  method AddFile(sizes: map<Dir, int>, f: File) returns (r: map<Dir, int>)
    requires |f.segments| >= 1 && PUBLIC in sizes
    ensures r.Keys == sizes.Keys + Ancestors(f)
    ensures forall d ::
            d in r ==>
            r[d] == (if d in sizes then sizes[d] else 0)
            + (if d == Home(f) then Entry(f.segments[|f.segments| - 1]) else 0)
  {
    var home := Home(f);
    var base := f.segments[|f.segments| - 1];
    r := sizes[home := (if home in sizes then sizes[home] else 0) + Entry(base)];
    var k := |f.segments|;
    assert FullName(f)[..k] == home;
    while k > 1
      invariant 1 <= k <= |f.segments|
      invariant r.Keys == sizes.Keys + {home} + set j | k < j <= |f.segments| :: FullName(f)[..j]
      invariant forall d ::
                d in r ==> r[d] == (if d in sizes then sizes[d] else 0) + (if d == home then Entry(base) else 0)
    {
      var d := FullName(f)[..k];
      if d !in r { r := r[d := 0]; }
      k := k - 1;
    }
    assert FullName(f)[..1] == PUBLIC;
    assert r.Keys == sizes.Keys + Ancestors(f) by {
      assert Ancestors(f) == {FullName(f)[..1]} + (set j | 1 < j <= |f.segments| :: FullName(f)[..j]);
      assert home in Ancestors(f);
    }
  }

  /** Every directory below `public` has its parent among the directories. */
  lemma {:induction false} ParentPresent(files: seq<File>, d: Dir)
    requires d in Directories(files) && |d| >= 2
    ensures d[..|d| - 1] in Directories(files)
  {
    if files != [] {
      var f := files[|files| - 1];
      if d in Directories(files[..|files| - 1]) {
        ParentPresent(files[..|files| - 1], d);
      } else {
        var k :| 1 <= k <= |f.segments| && FullName(f)[..k] == d;
        assert d[..|d| - 1] == FullName(f)[..k - 1];
      }
    }
  }

  method AddToParent(sizes: map<Dir, int>, c: Dir) returns (r: map<Dir, int>)
    requires |c| >= 2 ==> c[..|c| - 1] in sizes
    ensures r.Keys == sizes.Keys && forall d :: d in sizes ==> r[d] == sizes[d] + ChildEntry(c, d)
  {
    r := sizes;
    if c != [] && c != PUBLIC && |c| >= 2 {
      var parent := c[..|c| - 1];
      r := sizes[parent := sizes[parent] + Entry(c[|c| - 1])];
    }
  }

  /** Adds every directory's entry to its parent, in whatever order the directories come. */
  method AddDirectories(start: map<Dir, int>) returns (sizes: map<Dir, int>)
    requires forall d :: d in start && |d| >= 2 ==> d[..|d| - 1] in start
    ensures sizes.Keys == start.Keys
    ensures forall d :: d in start ==> sizes[d] == start[d] + ChildEntries(start.Keys, d)
  {
    hide ChildEntry, ChildEntries;
    sizes := start;
    var rest := start.Keys;
    while rest != {}
      invariant rest <= start.Keys && sizes.Keys == start.Keys
      invariant forall d :: d in start ==> sizes[d] + ChildEntries(rest, d) == start[d] + ChildEntries(start.Keys, d)
      decreases |rest|
    {
      var c :| c in rest;
      forall d | d in start
        ensures ChildEntries(rest, d) == ChildEntry(c, d) + ChildEntries(rest - {c}, d)
      {
        ChildWithout(rest, c, d);
      }
      sizes := AddToParent(sizes, c);
      rest := rest - {c};
    }
    forall d | d in start
      ensures ChildEntries(rest, d) == 0
    {
      NoChildren(d);
    }
  }

  lemma NoChildren(d: Dir)
    ensures ChildEntries({}, d) == 0
  {}

  method TotalRounded(sizes: map<Dir, int>, block: int) returns (total: int)
    requires block > 0
    ensures total == RoundedSizes(sizes, block)
  {
    total := 0;
    var rest := sizes;
    while rest != map[]
      invariant total + RoundedSizes(rest, block) == RoundedSizes(sizes, block)
      decreases |rest.Keys|
    {
      var d :| d in rest;
      RoundedWithout(rest, d, block);
      total := total + Round(AtLeastOne(rest[d]), block);
      rest := rest - {d};
    }
  }

  /** What is known after the first files. */
  ghost predicate Scanned(files: seq<File>, sizes: map<Dir, int>) {
    && sizes.Keys == Directories(files) && PUBLIC in sizes
    && (forall d :: d in sizes ==> sizes[d] == RootEntry(d) + FileEntries(files, d))
    && (forall d :: d !in sizes ==> RootEntry(d) + FileEntries(files, d) == 0)
  }

  lemma ScannedNext(files: seq<File>, f: File, sizes: map<Dir, int>, next: map<Dir, int>)
    requires Scanned(files, sizes) && |f.segments| >= 1
    requires next.Keys == sizes.Keys + Ancestors(f)
    requires forall d ::
             d in next ==>
             next[d] == (if d in sizes then sizes[d] else 0)
             + (if d == Home(f) then Entry(f.segments[|f.segments| - 1]) else 0)
    ensures Scanned(files + [f], next)
  {
    hide Entry, Home, Ancestors, RootEntry;
    assert (files + [f])[..|files|] == files;
    HomeIsAncestor(f);
  }

  lemma HomeIsAncestor(f: File)
    requires |f.segments| >= 1
    ensures Home(f) in Ancestors(f)
  {}

  method ScanFiles(files: seq<File>, block: int) returns (r: Admission, space: int, sizes: map<Dir, int>)
    requires block > 0
    ensures r == Admit(files)
    ensures r.Admitted? ==> space == RoundedFiles(files, block) && Scanned(files, sizes)
  {
    hide Scanned, Round, ValidFile, Ancestors, Home, Entry, FileEntries, RootEntry;
    sizes := map[[] := 64, PUBLIC := 0];
    ScannedNothing(sizes);
    var content := 0;
    space := 0;
    for i := 0 to |files|
      invariant Admit(files[..i]) == Admitted(content)
      invariant space == RoundedFiles(files[..i], block)
      invariant Scanned(files[..i], sizes)
    {
      var f := files[i];
      assert files[..i + 1] == files[..i] + [f] && files[..i + 1][..i] == files[..i];
      if !ValidFile(f) {
        Rejection(files, i + 1);
        return BadFile, space, sizes;
      }
      content := content + f.size;
      if content > MAX_CONTENT {
        Rejection(files, i + 1);
        return OverLimit, space, sizes;
      }
      space := space + Round(f.size, block);
      ghost var before := sizes;
      FileFacts(f, files[..i], sizes);
      sizes := AddFile(sizes, f);
      ScannedNext(files[..i], f, before, sizes);
    }
    assert files[..|files|] == files;
    r := Admitted(content);
  }

  lemma ScannedNothing(sizes: map<Dir, int>)
    requires sizes == map[[] := 64, PUBLIC := 0]
    ensures Scanned([], sizes)
  {}

  lemma FileFacts(f: File, files: seq<File>, sizes: map<Dir, int>)
    requires ValidFile(f) && Scanned(files, sizes)
    ensures |f.segments| >= 1 && PUBLIC in sizes
  {}

  lemma ScannedSizes(files: seq<File>, sizes: map<Dir, int>, all: map<Dir, int>)
    requires Scanned(files, sizes) && all.Keys == sizes.Keys && forall d ::
             d in sizes ==> all[d] == sizes[d] + ChildEntries(sizes.Keys, d)
    ensures all == Sizes(files)
  {
    hide ChildEntries, FileEntries, Directories, RootEntry;
  }

  lemma ParentsPresent(files: seq<File>, sizes: map<Dir, int>)
    requires Scanned(files, sizes)
    ensures forall d :: d in sizes && |d| >= 2 ==> d[..|d| - 1] in sizes
  {
    forall d | d in sizes && |d| >= 2
      ensures d[..|d| - 1] in sizes
    {
      ParentPresent(files, d);
    }
  }

  /** The result is the order-free allowance, whichever order the directory map is visited in. */
  method Measure(m: Manifest, block: int) returns (r: Measurement)
    ensures r == Allowance(m, block)
  {
    hide Scanned, Round, Admit, RoundedSizes, RoundedFiles, Sizes, EncodedLength, Directories, ChildEntries;
    if m.schema != 1 || block < 1 || block > MAX_BLOCK || |m.files| == 0 || |m.files| > MAX_FILES { return Invalid; }
    var admission, space, sizes := ScanFiles(m.files, block);
    if !admission.Admitted? { return if admission.BadFile? then Invalid else TooLarge; }
    ParentsPresent(m.files, sizes);
    var all := AddDirectories(sizes);
    ScannedSizes(m.files, sizes, all);
    SizesKeys(m.files);
    var rounded := TotalRounded(all, block);
    assert |all| == |all.Keys|;
    return Measured(Usage(admission.total, space + rounded + Round(EncodedLength(m), block) + 4 * block,
                          |m.files| + |all| + 5));
  }

  lemma SizesKeys(files: seq<File>)
    ensures Sizes(files).Keys == Directories(files)
  {}

  lemma {:induction false} Rejection(files: seq<File>, i: nat)
    requires i <= |files| && !Admit(files[..i]).Admitted?
    ensures Admit(files) == Admit(files[..i])
    decreases |files| - i
  {
    if i == |files| {
      assert files[..i] == files;
    } else {
      assert files[..i + 1][..i] == files[..i];
      Rejection(files, i + 1);
    }
  }

  /* ---------- Growing the block size ---------- */

  ghost predicate Divides(b: int, c: int)
    requires b > 0
  {
    c % b == 0
  }

  lemma Cancel(x: int, y: int, b: int)
    requires b > 0 && x * b < y * b
    ensures x < y
  {}

  /** Rounding gives the least multiple of the block that is not below the number. */
  lemma RoundLeast(n: int, block: int) returns (q: int)
    requires block > 0
    ensures Round(n, block) == q * block && n <= q * block < n + block
  {
    var x := n + block - 1;
    q := x / block;
    assert x == block * q + x % block;
  }

  /** Rounding to a larger block costs at most the difference of the blocks, if one divides the other. */
  lemma RoundGrows(n: int, b: int, c: int)
    requires 0 < b <= c && Divides(b, c)
    ensures Round(n, b) <= Round(n, c) <= Round(n, b) + (c - b)
  {
    hide Round;
    var p := RoundLeast(n, b);
    var q := RoundLeast(n, c);
    var k := c / b;
    assert c == k * b;
    InBlocks(n, b, k, p, q);
    assert q * c == q * k * b;
  }

  lemma InBlocks(n: int, b: int, k: int, p: int, q: int)
    requires b > 0 && n <= p * b < n + b && n <= q * (k * b) < n + k * b
    ensures p * b <= q * k * b <= p * b + (k * b - b)
  {
    assert q * (k * b) == q * k * b;
    assert p * b < (q * k + 1) * b;
    Cancel(p, q * k + 1, b);
    assert q * k * b < (p + k) * b;
    Cancel(q * k, p + k, b);
    Ordered(p, q * k, b);
    Ordered(q * k, p + k - 1, b);
    assert (p + k - 1) * b == p * b + (k * b - b);
  }

  lemma Ordered(x: int, y: int, b: int)
    requires x <= y && b > 0
    ensures x * b <= y * b
  {}

  lemma {:induction false} FilesGrow(files: seq<File>, b: int, c: int)
    requires 0 < b <= c && Divides(b, c)
    ensures RoundedFiles(files, b) <= RoundedFiles(files, c) <= RoundedFiles(files, b) + |files| * (c - b)
  {
    hide Round;
    if files != [] {
      var n := |files| - 1;
      FilesGrow(files[..n], b, c);
      RoundGrows(files[n].size, b, c);
      assert |files| * (c - b) == n * (c - b) + (c - b);
    }
  }

  lemma {:induction false} SizesGrow(sizes: map<Dir, int>, b: int, c: int)
    requires 0 < b <= c && Divides(b, c)
    ensures RoundedSizes(sizes, b) <= RoundedSizes(sizes, c) <= RoundedSizes(sizes, b) + |sizes| * (c - b)
    decreases |sizes|
  {
    hide Round, RoundedSizes, Divides;
    if sizes == map[] {
      NothingRounded(b);
      NothingRounded(c);
    } else {
      var d :| d in sizes;
      var rest := sizes - {d};
      RoundedWithout(sizes, d, b);
      RoundedWithout(sizes, d, c);
      assert rest.Keys == sizes.Keys - {d} && |rest| == |rest.Keys| && |sizes| == |sizes.Keys|;
      SizesGrow(rest, b, c);
      RoundGrows(AtLeastOne(sizes[d]), b, c);
      assert |sizes| * (c - b) == |rest| * (c - b) + (c - b);
    }
  }

  lemma NothingRounded(block: int)
    requires block > 0
    ensures RoundedSizes(map[], block) == 0
  {}

  /**
   Growing the block size never under-charges: the per-inode surcharge covers a fresh measurement with the
   larger block. The five extra inodes pay for the manifest and the four shared blocks.
   */
  lemma GrowthCovered(m: Manifest, b: int, c: int)
    requires Allowance(m, b).Measured? && Allowance(m, c).Measured? && b <= c && Divides(b, c)
    ensures Allowance(m, c).usage.allocatedBytes <= Allowance(m, b).usage.allocatedBytes
            + Allowance(m, b).usage.inodes * (c - b)
    ensures Allowance(m, c).usage.inodes == Allowance(m, b).usage.inodes
    ensures Allowance(m, c).usage.contentBytes == Allowance(m, b).usage.contentBytes
  {
    hide Round, RoundedFiles, RoundedSizes, Sizes, Admit, EncodedLength, Directories;
    FilesGrow(m.files, b, c);
    SizesGrow(Sizes(m.files), b, c);
    RoundGrows(EncodedLength(m), b, c);
    SizesKeys(m.files);
    var f, d := |m.files|, |Directories(m.files)|;
    assert |Sizes(m.files)| == d;
    assert (f + d + 5) * (c - b) == f * (c - b) + d * (c - b) + 5 * (c - b);
  }

  /** A manifest that was measured with one block size can be measured with any other. */
  lemma MeasurableAnywhere(m: Manifest, b: int, c: int)
    requires Allowance(m, b).Measured? && 1 <= c <= MAX_BLOCK
    ensures Allowance(m, c).Measured?
  {}
}
