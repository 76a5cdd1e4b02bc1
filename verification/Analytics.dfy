/**
 The page-view archive. Producers deliver cumulative snapshots; a later snapshot of a producer replaces an
 earlier one, and different producers add. Time is counted in whole hours, days in multiples of 24.
 */
module Analytics {
  import Sums
  import opened Wrappers
  import opened Kv

  const MAX_DIRECTORY_FILES: nat := 512
  const MAX_ARCHIVE_FILES: nat := 65536
  const MAX_ARCHIVE_BYTES: nat := 0x4000_0000
  const MAX_PRODUCERS: nat := 128
  const MAX_READ: nat := 4096

  /** A file of the archive: its directory, the process that produced it, and its place in that process's sequence. */
  datatype Name = Name(day: int, shard: nat, source: string, sequence: nat)

  /** Views per project and hour of the day; `space` is what the file occupies. */
  datatype Snapshot = Snapshot(name: Name, projects: map<string, seq<Uint64>>, space: nat)

  predicate WellFormed(s: Snapshot) { s.name.sequence > 0 && forall p :: p in s.projects ==> |s.projects[p]| == 24 }

  predicate SameSource(a: Name, b: Name) { a.day == b.day && a.shard == b.shard && a.source == b.source }

  type Files = map<Name, Snapshot>

  /** Every file is an accepted snapshot, and every accepted snapshot is covered by a file at least as new. */
  ghost predicate Represents(files: Files, accepted: set<Snapshot>) {
    && (forall n :: n in files ==> files[n].name == n && files[n] in accepted && WellFormed(files[n]))
    && (forall s :: s in accepted ==> Covered(files, s))
  }

  ghost predicate Covered(files: Files, s: Snapshot) {
    exists n :: n in files && SameSource(n, s.name) && n.sequence >= s.name.sequence
  }

  lemma CoverOf(files: Files, accepted: set<Snapshot>, s: Snapshot) returns (n: Name)
    requires Represents(files, accepted) && s in accepted
    ensures n in files && SameSource(n, s.name) && n.sequence >= s.name.sequence && files[n].name == n
            && files[n] in accepted
  {
    hide Represents, Covered;
    CoverHere(files, accepted, s);
    n := Cover(files, s);
  }

  lemma CoverHere(files: Files, accepted: set<Snapshot>, s: Snapshot)
    requires Represents(files, accepted) && s in accepted
    ensures Covered(files, s) && forall n :: n in files ==> files[n].name == n && files[n] in accepted
  {
    hide Covered;
  }

  lemma Cover(files: Files, s: Snapshot) returns (n: Name)
    requires Covered(files, s)
    ensures n in files && SameSource(n, s.name) && n.sequence >= s.name.sequence
  {
    n :| n in files && SameSource(n, s.name) && n.sequence >= s.name.sequence;
  }

  /** A producer never gives one sequence number to two snapshots. */
  ghost predicate Consistent(accepted: set<Snapshot>) {
    forall a, b :: a in accepted && b in accepted && a.name == b.name ==> a == b
  }

  predicate Newest(files: Files, n: Name) {
    n in files && forall m :: m in files && SameSource(m, n) ==> m.sequence <= n.sequence
  }

  /** The snapshot that counts for each producer of a directory. */
  ghost function Latest(files: Files, day: int, shard: nat): map<string, Snapshot> {
    map n | n in files && n.day == day && n.shard == shard && Newest(files, n) :: n.source := files[n]
  }

  /* ---------- Convergence ---------- */

  lemma NewestAccepted(files: Files, accepted: set<Snapshot>, n: Name)
    requires Represents(files, accepted) && Newest(files, n)
    ensures files[n] in accepted && files[n].name == n && forall s ::
            s in accepted && SameSource(s.name, n) ==> s.name.sequence <= n.sequence
  {
    hide Covered;
    forall s | s in accepted && SameSource(s.name, n)
      ensures s.name.sequence <= n.sequence
    {
      var m := CoverOf(files, accepted, s);
    }
  }

  lemma NewestShared(a: Files, b: Files, accepted: set<Snapshot>, n: Name)
    requires Represents(a, accepted) && Represents(b, accepted) && Consistent(accepted) && Newest(a, n)
    ensures Newest(b, n) && b[n] == a[n]
  {
    hide Covered;
    NewestAccepted(a, accepted, n);
    var m := CoverOf(b, accepted, a[n]);
    assert m == n;
    forall k | k in b && SameSource(k, n)
      ensures k.sequence <= n.sequence
    {
      assert b[k] in accepted && b[k].name == k;
    }
  }

  /** Whatever the order and repetition of deliveries, archives that accepted the same snapshots agree on what
      counts. */
  lemma Converges(a: Files, b: Files, accepted: set<Snapshot>, day: int, shard: nat)
    requires Represents(a, accepted) && Represents(b, accepted) && Consistent(accepted)
    ensures Latest(a, day, shard) == Latest(b, day, shard)
  {
    hide Represents, Consistent, Latest;
    LatestIncluded(a, b, accepted, day, shard);
    LatestIncluded(b, a, accepted, day, shard);
  }

  lemma LatestIncluded(a: Files, b: Files, accepted: set<Snapshot>, day: int, shard: nat)
    requires Represents(a, accepted) && Represents(b, accepted) && Consistent(accepted)
    ensures forall p ::
            p in Latest(a, day, shard) ==>
            p in Latest(b, day, shard) && Latest(b, day, shard)[p] == Latest(a, day, shard)[p]
  {
    hide Represents, Consistent, Newest;
    forall p | p in Latest(a, day, shard)
      ensures p in Latest(b, day, shard) && Latest(b, day, shard)[p] == Latest(a, day, shard)[p]
    {
      var n :| n in a && n.day == day && n.shard == shard && Newest(a, n) && n.source == p;
      NewestShared(a, b, accepted, n);
      LatestAt(a, n);
      LatestAt(b, n);
    }
  }

  lemma LatestAt(files: Files, n: Name)
    requires Newest(files, n)
    ensures n.source in Latest(files, n.day, n.shard) && Latest(files, n.day, n.shard)[n.source] == files[n]
  {}

  /* ---------- Accepting a snapshot ---------- */

  ghost function Space(tracked: map<Name, nat>): int { Sums.OverMap(tracked, (n: Name, size: nat) => size) }

  lemma SpaceWithout(tracked: map<Name, nat>, n: Name)
    requires n in tracked
    ensures Space(tracked) == tracked[n] + Space(tracked - {n})
  {
    Sums.MapWithout(tracked, (n: Name, size: nat) => size, n);
  }

  lemma SpaceAdd(tracked: map<Name, nat>, n: Name, size: nat)
    requires n !in tracked
    ensures Space(tracked[n := size]) == Space(tracked) + size && |tracked[n := size]| == |tracked| + 1
  {
    SpaceWithout(tracked[n := size], n);
    assert tracked[n := size] - {n} == tracked;
  }

  lemma Untrack(tracked: map<Name, nat>, n: Name)
    requires n in tracked
    ensures Space(tracked - {n}) == Space(tracked) - tracked[n] && |tracked - {n}| == |tracked| - 1
  {
    hide Space;
    SpaceWithout(tracked, n);
    Sums.CountWithout(tracked, n);
  }

  /** Of these files exactly the newest is left. */
  ghost predicate Keeps(files: Files, older: set<Name>, keep: Name) {
    keep in files && forall n :: n in older ==> n.sequence <= keep.sequence && (n in files ==> n == keep)
  }

  /** The files of one directory. */
  function Listing(files: Files, day: int, shard: nat): set<Name> {
    set n | n in files && n.day == day && n.shard == shard
  }

  /** No directory holds more than 512 files. */
  ghost predicate Uncrowded(files: Files) {
    forall day, shard: nat :: |Listing(files, day, shard)| <= 512
  }

  lemma OneMoreFile(files: Files, s: Snapshot)
    requires Uncrowded(files) && s.name !in files && |Listing(files, s.name.day, s.name.shard)| < 512
    ensures Uncrowded(files[s.name := s])
  {
    var more := files[s.name := s];
    forall day, shard: nat
      ensures |Listing(more, day, shard)| <= 512
    {
      var before, after := Listing(files, day, shard), Listing(more, day, shard);
      if day == s.name.day && shard == s.name.shard {
        assert after == before + {s.name};
      } else {
        assert after == before;
      }
    }
  }

  lemma FewerFiles(files: Files, fewer: Files)
    requires Uncrowded(files) && fewer.Keys <= files.Keys
    ensures Uncrowded(fewer)
  {
    forall day, shard: nat
      ensures |Listing(fewer, day, shard)| <= 512
    {
      var a, b := Listing(fewer, day, shard), Listing(files, day, shard);
      assert a <= b;
      assert b == a + (b - a);
    }
  }

  /** One more file of this size fits into the archive. */
  predicate Room(files: Files, s: Snapshot, bytes: int, count: int) {
    && |Listing(files, s.name.day, s.name.shard)| < MAX_DIRECTORY_FILES
    && count < MAX_ARCHIVE_FILES && bytes + s.space <= MAX_ARCHIVE_BYTES
  }

  /** The producer has sent a newer snapshot already. */
  ghost predicate Overtaken(files: Files, s: Snapshot) {
    exists n :: n in files && SameSource(n, s.name) && n.sequence > s.name.sequence
  }

  /** Another snapshot stands under the same name. */
  predicate Contradicted(files: Files, s: Snapshot) { s.name in files && files[s.name] != s }

  /** The snapshot is known or out of date, so there is nothing to store. */
  ghost predicate Superfluous(files: Files, s: Snapshot) {
    (s.name in files && files[s.name] == s) || Overtaken(files, s)
  }

  /** Stores one file; of the older ones of the same producer only the newest stays. */
  ghost predicate Stores(before: Files, s: Snapshot, after: Files) {
    var older := set n | n in before && SameSource(n, s.name);
    && s.name in after && after[s.name] == s
    && (forall n :: n in after && n != s.name ==> n in before && after[n] == before[n])
    && (forall n :: n in before && n !in older ==> n in after)
    && (older != {} ==> exists keep :: keep in older && Keeps(after, older, keep))
  }

  datatype Outcome = Accepted | Discarded | Busy | Invalid

  ghost predicate Tracking(files: Files, tracked: map<Name, nat>, bytes: int, count: int) {
    tracked.Keys == files.Keys && count == |tracked| && bytes == Space(tracked)
  }

  class Archive {
    var files: Files
    var tracked: map<Name, nat>
    var bytes: int
    var count: int
    /** Every snapshot that was acknowledged and had not expired. */
    ghost var accepted: set<Snapshot>

    ghost predicate Valid() reads this {
      && Represents(files, accepted)
      && Tracking(files, tracked, bytes, count)
      && bytes <= MAX_ARCHIVE_BYTES && count <= MAX_ARCHIVE_FILES && Uncrowded(files)
    }

    constructor ()
      ensures Valid() && accepted == {}
    {
      files, tracked, bytes, count, accepted := map[], map[], 0, 0, {};
    }

    /** What the directory listing says about earlier files of the same producer. */
    method Inspect(s: Snapshot, entries: set<Name>) returns (known: Option<Outcome>, older: set<Name>)
      requires entries == Listing(files, s.name.day, s.name.shard)
      ensures known == Some(Accepted) ==> Covered(files, s) && Superfluous(files, s)
      ensures known.Some? ==> known.value in {Accepted, Invalid}
      ensures known == Some(Invalid) ==> Contradicted(files, s)
      ensures known.None? ==> older == set n | n in files && SameSource(n, s.name)
      ensures known.None? ==> forall n :: n in files && SameSource(n, s.name) ==> n.sequence < s.name.sequence
    {
      hide Covered;
      older := {};
      var rest := entries;
      while rest != {}
        invariant rest <= entries
        invariant older == set n | n in entries && n !in rest && SameSource(n, s.name)
        invariant forall n :: n in older ==> n.sequence < s.name.sequence
        decreases |rest|
      {
        var n :| n in rest;
        rest := rest - {n};
        if n.source == s.name.source {
          if n.sequence > s.name.sequence {
            CoveredBy(files, s, n);
            return Some(Accepted), older;
          }
          if n.sequence == s.name.sequence {
            assert n == s.name;
            CoveredBy(files, s, n);
            return Some(if files[n] == s then Accepted else Invalid), older;
          }
          older := older + {n};
        }
      }
      return None, older;
    }

    method Remove(n: Name)
      requires Tracking(files, tracked, bytes, count)
      modifies this`files, this`tracked, this`bytes, this`count
      ensures Tracking(files, tracked, bytes, count) && files == old(files) - {n} && bytes <= old(bytes)
              && count <= old(count)
    {
      hide Space;
      if n in tracked { Untrack(tracked, n); }
      files := files - {n};
      if n in tracked {
        count := count - 1;
        bytes := bytes - tracked[n];
        tracked := tracked - {n};
      }
    }

    /** Keeps the newest of the older files and removes the others. */
    method Prune(older: set<Name>)
      requires Tracking(files, tracked, bytes, count)
      modifies this`files, this`tracked, this`bytes, this`count
      ensures Tracking(files, tracked, bytes, count) && bytes <= old(bytes) && count <= old(count)
      ensures files.Keys <= old(files).Keys && (forall n :: n in files ==> files[n] == old(files)[n])
              && (forall n :: n in old(files) && n !in older ==> n in files)
      ensures older != {} && older <= old(files).Keys ==>
                exists keep :: keep in older && Keeps(files, older, keep)
    {
      if older == {} { return; }
      var keep :| keep in older;
      var rest := older - {keep};
      while rest != {}
        invariant keep in older && rest <= older
        invariant Tracking(files, tracked, bytes, count) && bytes <= old(bytes) && count <= old(count)
        invariant files.Keys <= old(files).Keys && (forall n :: n in files ==> files[n] == old(files)[n])
                  && (forall n :: n in old(files) && n !in older ==> n in files)
        invariant keep !in rest && (forall n ::
                                    n in older && n !in rest ==>
                                    n.sequence <= keep.sequence && (n in files ==> n == keep))
        invariant forall n :: n in old(files) && (n in rest || n == keep) ==> n in files
        decreases |rest|
      {
        var n :| n in rest;
        rest := rest - {n};
        if n.sequence > keep.sequence {
          Remove(keep);
          keep := n;
        } else {
          Remove(n);
        }
      }
      if older <= old(files).Keys { assert Keeps(files, older, keep); }
    }

    /** Writes the file first and prunes then, so that a crash in between loses nothing. */
    method StoreNew(s: Snapshot, older: set<Name>)
      requires Valid() && WellFormed(s) && Room(files, s, bytes, count)
      requires older == set n | n in files && SameSource(n, s.name)
      requires forall n :: n in files && SameSource(n, s.name) ==> n.sequence < s.name.sequence
      modifies this
      ensures Valid() && accepted == old(accepted) + {s} && Stores(old(files), s, files)
    {
      hide Space, Covered, Listing, Uncrowded, Represents, Tracking, Keeps, WellFormed, Stores;
      OneMoreFile(files, s);
      Write(s);
      accepted := accepted + {s};
      ghost var full := files;
      Prune(older);
      FewerFiles(full, files);
      StillRepresented(old(files), full, files, old(accepted), s, older);
      StoredAs(old(files), full, files, s, older);
    }

    method Write(s: Snapshot)
      requires Tracking(files, tracked, bytes, count) && s.name !in files
      modifies this`files, this`tracked, this`bytes, this`count
      ensures Tracking(files, tracked, bytes, count) && files == old(files)[s.name := s]
      ensures bytes == old(bytes) + s.space && count == old(count) + 1
    {
      hide Space;
      SpaceAdd(tracked, s.name, s.space);
      files := files[s.name := s];
      count := count + 1;
      bytes := bytes + s.space;
      tracked := tracked[s.name := s.space];
    }

    /**
     Accepts a snapshot unless it has expired, contradicts an earlier one or does not fit. Whatever was accepted
     before stays represented.
     */
    method Accept(s: Snapshot, cutoff: int, ready: bool) returns (r: Outcome)
      requires Valid()
      modifies this
      ensures Valid() && accepted == (if r == Accepted then old(accepted) + {s} else old(accepted))
      ensures !WellFormed(s) ==> r == Invalid
      ensures r == Discarded <==> WellFormed(s) && s.name.day < cutoff
      ensures WellFormed(s) && s.name.day >= cutoff && !ready ==> r == Busy
      ensures WellFormed(s) && s.name.day >= cutoff && ready ==>
                if Contradicted(old(files), s) then r == Invalid || (r == Accepted && Overtaken(old(files), s))
                else r == if Superfluous(old(files), s) || Room(old(files), s, old(bytes), old(count)) then Accepted
                          else Busy
      ensures if r == Accepted && !Superfluous(old(files), s) then Stores(old(files), s, files)
              else files == old(files)
    {
      hide Space, Covered, Listing, Uncrowded, Stores, WellFormed;
      if !WellFormed(s) { return Invalid; }
      if s.name.day < cutoff { return Discarded; }
      if !ready { return Busy; }
      var entries := Listing(files, s.name.day, s.name.shard);
      var known, older := Inspect(s, entries);
      if known.Some? {
        if known.value == Accepted { accepted := accepted + {s}; }
        return known.value;
      }
      if |entries| >= MAX_DIRECTORY_FILES || count >= MAX_ARCHIVE_FILES || bytes + s.space > MAX_ARCHIVE_BYTES {
        return Busy;
      }
      StoreNew(s, older);
      return Accepted;
    }
  }

  /** Removing files that a newer file of the same producer covers loses nothing. */
  lemma StillRepresented(before: Files, full: Files, files: Files, accepted: set<Snapshot>, s: Snapshot,
                         older: set<Name>)
    requires Represents(before, accepted) && WellFormed(s) && full == before[s.name := s]
    requires older == set n | n in before && SameSource(n, s.name)
    requires forall n :: n in before && SameSource(n, s.name) ==> n.sequence < s.name.sequence
    requires files.Keys <= full.Keys && (forall n :: n in files ==> files[n] == full[n])
             && (forall n :: n in full && n !in older ==> n in files)
    ensures Represents(files, accepted + {s})
  {
    hide Covered;
    assert s.name !in before;
    forall t | t in accepted + {s}
      ensures Covered(files, t)
    {
      if t == s {
        CoveredBy(files, t, s.name);
      } else {
        var n := CoverOf(before, accepted, t);
        CoveredBy(files, t, if SameSource(t.name, s.name) then s.name else n);
      }
    }
  }

  lemma StoredAs(before: Files, full: Files, files: Files, s: Snapshot, older: set<Name>)
    requires full == before[s.name := s] && s.name !in before
    requires older == set n | n in before && SameSource(n, s.name)
    requires files.Keys <= full.Keys && (forall n :: n in files ==> files[n] == full[n])
             && (forall n :: n in full && n !in older ==> n in files)
    requires older != {} ==> exists keep :: keep in older && Keeps(files, older, keep)
    ensures Stores(before, s, files)
  {
    hide Keeps;
  }

  lemma CoveredBy(files: Files, s: Snapshot, n: Name)
    requires n in files && SameSource(n, s.name) && n.sequence >= s.name.sequence
    ensures Covered(files, s)
  {}

  /* ---------- Saturating sums ---------- */

  function Saturated(n: nat): Uint64 { if n > MAX_UINT64 then MAX_UINT64 else n }

  /** The source's addition, which stops at the largest number. */
  function Add(a: Uint64, b: Uint64): (r: Uint64)
    ensures r == Saturated(a + b)
  {
    if MAX_UINT64 - a < b then MAX_UINT64 else a + b
  }

  /** Saturating step by step is the same as saturating the exact sum once, so the order of the steps is irrelevant. */
  lemma AddSaturated(exact: nat, b: Uint64)
    ensures Add(Saturated(exact), b) == Saturated(exact + b)
  {}

  /* ---------- Queries ---------- */

  datatype Query = Query(project: string, shard: nat, from: int, to: int, daily: bool)

  /** Bounds are whole hours by construction; a daily query starts at midnight. */
  predicate ValidQuery(q: Query) { q.from < q.to && (q.daily ==> q.from % 24 == 0) }

  function StepOf(q: Query): int { if q.daily then 24 else 1 }

  function BucketCount(q: Query): nat
    requires ValidQuery(q)
  {
    (q.to - q.from + StepOf(q) - 1) / StepOf(q)
  }

  function BucketStart(q: Query, i: nat): int { q.from + i * StepOf(q) }

  predicate InRange(q: Query, at: int) { q.from <= at < q.to }

  /** The start of the bucket that an hour is counted in. */
  function BucketKey(q: Query, at: int): int { if q.daily then at / 24 * 24 else at }

  function BucketIndex(q: Query, at: int): int { (BucketKey(q, at) - q.from) / StepOf(q) }

  /** Every hour in range falls in exactly one bucket, and that bucket exists. */
  lemma BucketExists(q: Query, at: int)
    requires ValidQuery(q) && InRange(q, at)
    ensures 0 <= BucketIndex(q, at) < BucketCount(q) && BucketStart(q, BucketIndex(q, at)) == BucketKey(q, at)
    ensures BucketKey(q, at) <= at < BucketKey(q, at) + StepOf(q)
    ensures forall i: nat :: i < BucketCount(q) && BucketStart(q, i) == BucketKey(q, at) ==> i == BucketIndex(q, at)
  {}

  /** Which hours a number counts: those of one bucket, or all in range. */
  datatype Slot = Whole | Bucket(index: int)

  predicate Counts(q: Query, slot: Slot, at: int) {
    InRange(q, at) && (slot.Whole? || BucketIndex(q, at) == slot.index)
  }

  function HourSum(q: Query, slot: Slot, day: int, values: seq<Uint64>): nat {
    if values == [] then 0
    else
      var h := |values| - 1;
      HourSum(q, slot, day, values[..h]) + if Counts(q, slot, day * 24 + h) then values[h] else 0
  }

  function Views(s: Snapshot, project: string): seq<Uint64> {
    if project in s.projects then s.projects[project] else []
  }

  ghost function Counting(q: Query, slot: Slot, day: int): (string, Snapshot) -> int {
    (p: string, s: Snapshot) => HourSum(q, slot, day, Views(s, q.project))
  }

  ghost function ProducerSum(q: Query, slot: Slot, day: int, latest: map<string, Snapshot>): (n: nat) {
    Sums.MapNonNegative(latest, Counting(q, slot, day));
    Sums.OverMap(latest, Counting(q, slot, day))
  }

  lemma ProducerWithout(q: Query, slot: Slot, day: int, latest: map<string, Snapshot>, p: string)
    requires p in latest
    ensures ProducerSum(q, slot, day, latest) ==
            HourSum(q, slot, day, Views(latest[p], q.project)) + ProducerSum(q, slot, day, latest - {p})
  {
    hide HourSum, Views;
    Sums.MapWithout(latest, Counting(q, slot, day), p);
  }

  /** The exact number of views over `days` days from `day` on. */
  ghost function Exact(q: Query, slot: Slot, files: Files, day: int, days: nat): nat {
    if days == 0 then 0
    else
      Exact(q, slot, files, day, days - 1)
      + ProducerSum(q, slot, day + days - 1, Latest(files, day + days - 1, q.shard))
  }

  function FirstDay(q: Query): int { q.from / 24 }

  function DayCount(q: Query): nat
    requires ValidQuery(q)
  {
    (q.to - 1) / 24 - q.from / 24 + 1
  }

  /* ---------- The buckets add up ---------- */

  ghost function SumOver(n: nat, f: int -> int): int {
    if n == 0 then 0 else SumOver(n - 1, f) + f(n - 1)
  }

  lemma {:induction false} SumAdds(n: nat, f: int -> int, g: int -> int, h: int -> int)
    requires forall i :: 0 <= i < n ==> h(i) == f(i) + g(i)
    ensures SumOver(n, h) == SumOver(n, f) + SumOver(n, g)
  {
    if n > 0 { SumAdds(n - 1, f, g, h); }
  }

  /** If only one position carries something, that is the sum. */
  lemma {:induction false} SumPoint(n: nat, f: int -> int, at: int, amount: int)
    requires forall i :: 0 <= i < n ==> f(i) == if i == at then amount else 0
    ensures SumOver(n, f) == if 0 <= at < n then amount else 0
  {
    if n > 0 { SumPoint(n - 1, f, at, amount); }
  }

  lemma {:induction false} HoursAddUp(q: Query, day: int, values: seq<Uint64>)
    requires ValidQuery(q)
    ensures SumOver(BucketCount(q), i => HourSum(q, Bucket(i), day, values)) == HourSum(q, Whole, day, values)
  {
    hide BucketIndex, BucketCount, InRange;
    var n := BucketCount(q);
    if values == [] {
      SumPoint(n, i => HourSum(q, Bucket(i), day, values), -1, 0);
    } else {
      var h := |values| - 1;
      var at := day * 24 + h;
      HoursAddUp(q, day, values[..h]);
      var own := (i: int) => if Counts(q, Bucket(i), at) then values[h] as int else 0;
      SumAdds(n, i => HourSum(q, Bucket(i), day, values[..h]), own, i => HourSum(q, Bucket(i), day, values));
      if InRange(q, at) {
        BucketExists(q, at);
        SumPoint(n, own, BucketIndex(q, at), values[h]);
      } else {
        SumPoint(n, own, -1, 0);
      }
    }
  }

  lemma {:induction false} ProducersAddUp(q: Query, day: int, latest: map<string, Snapshot>)
    requires ValidQuery(q)
    ensures SumOver(BucketCount(q), i => ProducerSum(q, Bucket(i), day, latest)) == ProducerSum(q, Whole, day, latest)
    decreases |latest|
  {
    hide ProducerSum, HourSum, BucketCount;
    var n := BucketCount(q);
    if latest == map[] {
      forall i | 0 <= i < n
        ensures ProducerSum(q, Bucket(i), day, latest) == 0
      {
        NoProducers(q, Bucket(i), day);
      }
      NoProducers(q, Whole, day);
      SumPoint(n, i => ProducerSum(q, Bucket(i), day, latest), -1, 0);
    } else {
      var p :| p in latest;
      var rest, views := latest - {p}, Views(latest[p], q.project);
      ProducersAddUp(q, day, rest);
      HoursAddUp(q, day, views);
      ProducerWithout(q, Whole, day, latest, p);
      forall i | 0 <= i < n
        ensures ProducerSum(q, Bucket(i), day, latest) ==
                HourSum(q, Bucket(i), day, views) + ProducerSum(q, Bucket(i), day, rest)
      {
        ProducerWithout(q, Bucket(i), day, latest, p);
      }
      SumAdds(n, i => HourSum(q, Bucket(i), day, views), i => ProducerSum(q, Bucket(i), day, rest),
              i => ProducerSum(q, Bucket(i), day, latest));
    }
  }

  /** Whatever the range and the interval, every view in range is counted in exactly one bucket. */
  lemma {:induction false} BucketsAddUp(q: Query, files: Files, day: int, days: nat)
    requires ValidQuery(q)
    ensures SumOver(BucketCount(q), i => Exact(q, Bucket(i), files, day, days)) == Exact(q, Whole, files, day, days)
  {
    hide ProducerSum, BucketCount, Latest;
    var n := BucketCount(q);
    if days == 0 {
      SumPoint(n, i => Exact(q, Bucket(i), files, day, days), -1, 0);
    } else {
      var last := day + days - 1;
      BucketsAddUp(q, files, day, days - 1);
      ProducersAddUp(q, last, Latest(files, last, q.shard));
      SumAdds(n, i => Exact(q, Bucket(i), files, day, days - 1),
              i => ProducerSum(q, Bucket(i), last, Latest(files, last, q.shard)),
              i => Exact(q, Bucket(i), files, day, days));
    }
  }

  /** Archives that accepted the same snapshots give the same answer to every query. */
  lemma {:induction false} SameAnswers(q: Query, slot: Slot, a: Files, b: Files, accepted: set<Snapshot>, day: int,
                                       days: nat)
    requires Represents(a, accepted) && Represents(b, accepted) && Consistent(accepted)
    ensures Exact(q, slot, a, day, days) == Exact(q, slot, b, day, days)
  {
    hide Represents, Consistent, Latest;
    if days > 0 {
      SameAnswers(q, slot, a, b, accepted, day, days - 1);
      Converges(a, b, accepted, day + days - 1, q.shard);
    }
  }

  datatype Answer = Answer(buckets: seq<Uint64>, total: Uint64) | TooBusy | Rejected

  /** Running totals that are the saturated exact sums. */
  ghost predicate Shows(buckets: seq<Uint64>, total: Uint64, exact: seq<nat>, whole: nat) {
    |buckets| == |exact| && total == Saturated(whole) && forall i ::
      0 <= i < |buckets| ==> buckets[i] == Saturated(exact[i])
  }

  method AddHours(q: Query, day: int, values: seq<Uint64>, buckets: seq<Uint64>, total: Uint64, ghost exact: seq<nat>,
                  ghost whole: nat)
    returns (b: seq<Uint64>, t: Uint64, ghost e: seq<nat>, ghost w: nat)
    requires ValidQuery(q) && |buckets| == BucketCount(q) && Shows(buckets, total, exact, whole)
    ensures Shows(b, t, e, w) && |b| == |buckets|
    ensures w == whole + HourSum(q, Whole, day, values) && forall i ::
            0 <= i < |e| ==> e[i] == exact[i] + HourSum(q, Bucket(i), day, values)
  {
    hide Saturated, BucketIndex, InRange;
    b, t, e, w := buckets, total, exact, whole;
    for h := 0 to |values|
      invariant Shows(b, t, e, w) && |b| == |buckets|
      invariant w == whole + HourSum(q, Whole, day, values[..h])
      invariant forall i :: 0 <= i < |e| ==> e[i] == exact[i] + HourSum(q, Bucket(i), day, values[..h])
    {
      var at := day * 24 + h;
      assert values[..h + 1][..h] == values[..h];
      if InRange(q, at) {
        BucketExists(q, at);
        var index := BucketIndex(q, at);
        AddSaturated(e[index], values[h]);
        AddSaturated(w, values[h]);
        b := b[index := Add(b[index], values[h])];
        t := Add(t, values[h]);
        e := e[index := e[index] + values[h]];
        w := w + values[h];
      }
    }
    assert values[..|values|] == values;
  }

  /** Picks the newest file of every producer, in whatever order the directory lists them. */
  method SelectLatest(files: Files, day: int, shard: nat) returns (latest: map<string, Snapshot>)
    requires forall n :: n in files ==> files[n].name == n
    ensures latest == Latest(files, day, shard)
  {
    var newest: map<string, Name> := map[];
    var rest := files.Keys;
    while rest != {}
      invariant rest <= files.Keys
      invariant forall p ::
                p in newest ==>
                newest[p] in files && newest[p] !in rest && newest[p].day == day && newest[p].shard == shard
                && newest[p].source == p
      invariant forall n ::
                n in files && n !in rest && n.day == day && n.shard == shard ==>
                n.source in newest && n.sequence <= newest[n.source].sequence
      decreases |rest|
    {
      var n :| n in rest;
      rest := rest - {n};
      if n.day == day && n.shard == shard && (n.source !in newest || n.sequence > newest[n.source].sequence) {
        newest := newest[n.source := n];
      }
    }
    latest := map p | p in newest :: files[newest[p]];
    NewestIsLatest(files, day, shard, newest);
  }

  lemma NewestIsLatest(files: Files, day: int, shard: nat, newest: map<string, Name>)
    requires forall p ::
             p in newest ==>
             newest[p] in files && newest[p].day == day && newest[p].shard == shard && newest[p].source == p
    requires forall n ::
             n in files && n.day == day && n.shard == shard ==>
             n.source in newest && n.sequence <= newest[n.source].sequence
    ensures (map p | p in newest :: files[newest[p]]) == Latest(files, day, shard)
  {
    var latest := map p | p in newest :: files[newest[p]];
    forall p | p in newest
      ensures p in Latest(files, day, shard) && Latest(files, day, shard)[p] == latest[p]
    {
      assert Newest(files, newest[p]);
      LatestAt(files, newest[p]);
    }
  }

  /** Adds up the producers of one day, in whatever order the selection is visited. */
  method AddDay(q: Query, day: int, latest: map<string, Snapshot>, buckets: seq<Uint64>, total: Uint64,
                ghost exact: seq<nat>, ghost whole: nat)
    returns (b: seq<Uint64>, t: Uint64, ghost e: seq<nat>, ghost w: nat)
    requires ValidQuery(q) && |buckets| == BucketCount(q) && Shows(buckets, total, exact, whole)
    ensures Shows(b, t, e, w) && |b| == |buckets|
    ensures w == whole + ProducerSum(q, Whole, day, latest) && forall i ::
            0 <= i < |e| ==> e[i] == exact[i] + ProducerSum(q, Bucket(i), day, latest)
  {
    hide HourSum, ProducerSum, Shows, Views;
    b, t, e, w := buckets, total, exact, whole;
    Shown(b, t, e, w);
    var rest := latest;
    while rest != map[]
      invariant Shows(b, t, e, w) && |b| == |buckets| && |e| == |exact| == |buckets|
      invariant w + ProducerSum(q, Whole, day, rest) == whole + ProducerSum(q, Whole, day, latest)
      invariant forall i ::
                0 <= i < |e| ==>
                e[i] + ProducerSum(q, Bucket(i), day, rest) == exact[i] + ProducerSum(q, Bucket(i), day, latest)
      decreases |rest.Keys|
    {
      var p :| p in rest;
      ProducerWithout(q, Whole, day, rest, p);
      forall i | 0 <= i < |e|
        ensures ProducerSum(q, Bucket(i), day, rest) ==
                HourSum(q, Bucket(i), day, Views(rest[p], q.project)) + ProducerSum(q, Bucket(i), day, rest - {p})
      {
        ProducerWithout(q, Bucket(i), day, rest, p);
      }
      b, t, e, w := AddHours(q, day, Views(rest[p], q.project), b, t, e, w);
      Shown(b, t, e, w);
      rest := rest - {p};
    }
    NoProducers(q, Whole, day);
    forall i | 0 <= i < |e|
      ensures ProducerSum(q, Bucket(i), day, rest) == 0
    {
      NoProducers(q, Bucket(i), day);
    }
  }

  lemma NoProducers(q: Query, slot: Slot, day: int)
    ensures ProducerSum(q, slot, day, map[]) == 0
  {}

  /** How many files a query over `days` days from `day` on reads. */
  ghost function FilesRead(files: Files, shard: nat, day: int, days: nat): nat {
    if days == 0 then 0 else FilesRead(files, shard, day, days - 1) + |Latest(files, day + days - 1, shard)|
  }

  /** No day has too many producers, and the days together not too many files. */
  ghost predicate Affordable(files: Files, shard: nat, day: int, days: nat) {
    && (forall d :: day <= d < day + days ==> |Latest(files, d, shard)| <= MAX_PRODUCERS)
    && FilesRead(files, shard, day, days) <= MAX_READ
  }

  lemma {:induction false} FewerDaysRead(files: Files, shard: nat, day: int, days: nat, more: nat)
    requires days <= more
    ensures FilesRead(files, shard, day, days) <= FilesRead(files, shard, day, more)
    decreases more - days
  {
    hide Latest;
    if days < more { FewerDaysRead(files, shard, day, days, more - 1); }
  }

  lemma AffordNothing(files: Files, shard: nat, day: int)
    ensures FilesRead(files, shard, day, 0) == 0 && Affordable(files, shard, day, 0)
  {}

  lemma NothingAdded(q: Query, files: Files, buckets: seq<Uint64>, exact: seq<nat>)
    requires |buckets| == |exact| && forall i :: 0 <= i < |exact| ==> buckets[i] == exact[i] == 0
    ensures Shows(buckets, 0, exact, 0) && forall slot, day :: Exact(q, slot, files, day, 0) == 0
  {}

  lemma ExactNext(q: Query, slot: Slot, files: Files, day: int, d: nat)
    ensures Exact(q, slot, files, day, d + 1) ==
            Exact(q, slot, files, day, d) + ProducerSum(q, slot, day + d, Latest(files, day + d, q.shard))
  {
    hide ProducerSum, Latest;
  }

  lemma Shown(buckets: seq<Uint64>, total: Uint64, exact: seq<nat>, whole: nat)
    requires Shows(buckets, total, exact, whole)
    ensures |buckets| == |exact| && total == Saturated(whole)
            && forall i :: 0 <= i < |buckets| ==> buckets[i] == Saturated(exact[i])
  {}

  /** Whether one more day is affordable, without which the whole query is not. */
  lemma OneMoreDay(files: Files, shard: nat, day: int, d: nat, days: nat)
    requires d < days && Affordable(files, shard, day, d)
    ensures FilesRead(files, shard, day, d + 1) == FilesRead(files, shard, day, d) + |Latest(files, day + d, shard)|
    ensures Affordable(files, shard, day, d + 1) <==>
            |Latest(files, day + d, shard)| <= MAX_PRODUCERS && FilesRead(files, shard, day, d + 1) <= MAX_READ
    ensures Affordable(files, shard, day, days) ==> Affordable(files, shard, day, d + 1)
  {
    hide Latest;
    FewerDaysRead(files, shard, day, d + 1, days);
  }

  /**
   A valid query answers exactly if it is affordable, and then returns, for every bucket and in total, the saturated
   exact sum over the newest snapshots.
   */
  method RunQuery(files: Files, q: Query) returns (r: Answer)
    requires forall n :: n in files ==> files[n].name == n
    ensures r.Rejected? <==> !ValidQuery(q)
    ensures ValidQuery(q) ==> (r.Answer? <==> Affordable(files, q.shard, FirstDay(q), DayCount(q)))
    ensures r.Answer? ==>
              && |r.buckets| == BucketCount(q)
              && r.total == Saturated(Exact(q, Whole, files, FirstDay(q), DayCount(q)))
              && forall i ::
                 0 <= i < |r.buckets| ==>
                 r.buckets[i] == Saturated(Exact(q, Bucket(i), files, FirstDay(q), DayCount(q)))
  {
    hide ProducerSum, Latest, BucketCount, FilesRead, Affordable, Saturated, Shows, Exact;
    if !ValidQuery(q) { return Rejected; }
    AffordNothing(files, q.shard, FirstDay(q));
    var buckets: seq<Uint64> := seq(BucketCount(q), _ => 0);
    var total: Uint64 := 0;
    ghost var exact: seq<nat>, whole: nat := seq(BucketCount(q), _ => 0), 0;
    NothingAdded(q, files, buckets, exact);
    var read := 0;
    var days := DayCount(q);
    for d := 0 to days
      invariant |buckets| == |exact| == BucketCount(q) && Shows(buckets, total, exact, whole)
      invariant whole == Exact(q, Whole, files, FirstDay(q), d)
      invariant read == FilesRead(files, q.shard, FirstDay(q), d) && Affordable(files, q.shard, FirstDay(q), d)
      invariant forall i :: 0 <= i < |exact| ==> exact[i] == Exact(q, Bucket(i), files, FirstDay(q), d)
    {
      var latest := SelectLatest(files, FirstDay(q) + d, q.shard);
      OneMoreDay(files, q.shard, FirstDay(q), d, days);
      if |latest| > MAX_PRODUCERS { return TooBusy; }
      read := read + |latest|;
      if read > MAX_READ { return TooBusy; }
      buckets, total, exact, whole := AddDay(q, FirstDay(q) + d, latest, buckets, total, exact, whole);
      Shown(buckets, total, exact, whole);
      ExactNext(q, Whole, files, FirstDay(q), d);
      forall i | 0 <= i < |exact|
        ensures exact[i] == Exact(q, Bucket(i), files, FirstDay(q), d + 1)
      {
        ExactNext(q, Bucket(i), files, FirstDay(q), d);
      }
    }
    Shown(buckets, total, exact, whole);
    return Answer(buckets, total);
  }
}
