/**
 The replicated state machine: what one log entry does to the records, and how
 a state is compacted into a snapshot and read back.
 */
module Fsm {
  import opened Decimal
  import Sums
  import opened Wrappers
  import opened Kv

  /** A collision-free hash chain over the accepted commands. */
  datatype Digest = Genesis | Link(previous: Digest, data: Command)

  datatype Core = Core(records: Records, ceiling: Uint64, digest: Digest)

  const EMPTY_CORE: Core := Core(map[], 0, Genesis)

  datatype Entry = Entry(index: Uint64, term: Uint64, data: Command)

  datatype Verdict = Accepted(core: Core) | Rejected(error: Error)

  /* ---------- Size of a record map ---------- */

  function RecordSize(k: Key, r: Record): nat { k.Length() + r.value.length }

  const SIZING: (Key, Record) -> int := (k: Key, r: Record) => RecordSize(k, r)

  ghost function TotalBytes(m: Records): (n: nat) {
    Sums.MapNonNegative(m, SIZING);
    Sums.OverMap(m, SIZING)
  }

  lemma SizeWithout(m: Records, k: Key)
    ensures TotalBytes(m - {k}) == TotalBytes(m) - if k in m then RecordSize(k, m[k]) else 0
    ensures |m - {k}| == |m| - if k in m then 1 else 0
  {
    Sums.CountWithout(m, k);
    if k in m {
      Sums.MapWithout(m, SIZING, k);
    } else {
      assert m - {k} == m;
    }
  }

  lemma TotalBytesAfterWrite(m: Records, w: Write, version: Uint64)
    ensures TotalBytes(WriteOne(m, w, version)) ==
            TotalBytes(m) - (if w.key in m then RecordSize(w.key, m[w.key]) else 0)
            + (if w.isDelete then 0 else RecordSize(w.key, Record(version, w.value)))
    ensures |WriteOne(m, w, version)| == |m| - (if w.key in m then 1 else 0) + (if w.isDelete then 0 else 1)
  {
    SizeWithout(m, w.key);
    if !w.isDelete {
      var next := WriteOne(m, w, version);
      SizeWithout(next, w.key);
      assert next - {w.key} == m - {w.key};
    }
  }

  /* ---------- The effect of one entry ---------- */

  function WriteOne(records: Records, w: Write, version: Uint64): Records {
    if w.isDelete then records - {w.key} else records[w.key := Record(version, w.value)]
  }

  function WriteAll(records: Records, writes: seq<Write>, version: Uint64): Records {
    if writes == [] then records
    else WriteOne(WriteAll(records, writes[..|writes| - 1], version), writes[|writes| - 1], version)
  }

  /** A key that no write names keeps its record; a key written at position i gets exactly that write. */
  lemma {:induction false} WriteAllAt(records: Records, writes: seq<Write>, version: Uint64, k: Key)
    requires DistinctWrites(writes)
    ensures (forall i :: 0 <= i < |writes| ==> writes[i].key != k) ==>
              Lookup(WriteAll(records, writes, version), k) == Lookup(records, k)
    ensures forall i :: 0 <= i < |writes| && writes[i].key == k ==>
              Lookup(WriteAll(records, writes, version), k) ==
              if writes[i].isDelete then None else Some(Record(version, writes[i].value))
  {
    if writes != [] {
      var last := |writes| - 1;
      WriteAllAt(records, writes[..last], version, k);
      forall i | 0 <= i < last
        ensures writes[..last][i] == writes[i]
      {}
    }
  }

  predicate ChecksHold(records: Records, checks: seq<Check>) {
    forall i :: 0 <= i < |checks| ==> VersionAt(records, checks[i].key) == checks[i].version
  }

  /** A coordinator revision carries the term of its entry and a non-zero sequence. */
  predicate RevisionMatches(revision: Uint64, term: Uint64) {
    revision == 0 || (TermOf(revision) == term && SequenceOf(revision) != 0)
  }

  function AssignedVersion(t: Transaction, index: Uint64): Uint64 {
    if t.revision != 0 then t.revision else index
  }

  ghost predicate Fits(records: Records) {
    |records| <= MAX_RECORDS && TotalBytes(records) <= MAX_STATE_BYTES
  }

  function Max(a: Uint64, b: Uint64): (m: Uint64) { if a < b then b else a }

  /** Why an entry is refused before its writes are measured, if it is. */
  function Objection(records: Records, e: Entry): Option<Error> {
    if e.data.Malformed? || e.data.size > MAX_COMMAND || !ValidTransaction(e.data.t) then Some(ErrInvalid)
    else if !RevisionMatches(e.data.t.revision, e.term) then Some(ErrInvalid)
    else if !ChecksHold(records, e.data.t.checks) then Some(ErrConflict)
    else None
  }

  lemma Admitted(records: Records, e: Entry)
    requires Objection(records, e).None?
    ensures e.data.Command? && DistinctWrites(e.data.t.writes)
  {}

  /** The whole decision: which entries are refused and why, and the state an accepted one produces. */
  ghost function Judge(c: Core, e: Entry): Verdict {
    match Objection(c.records, e)
    case Some(error) => Rejected(error)
    case None =>
      var version := AssignedVersion(e.data.t, e.index);
      var next := WriteAll(c.records, e.data.t.writes, version);
      if !Fits(next) then Rejected(ErrCapacity)
      else Accepted(Core(next, Max(c.ceiling, version), Link(c.digest, e.data)))
  }

  ghost function Step(c: Core, e: Entry): Core {
    match Judge(c, e)
    case Accepted(next) => next
    case Rejected(_) => c
  }

  /* ---------- Snapshots ---------- */

  /** A decoded snapshot file. `digest` is None when its text is not a SHA-256 digest in hexadecimal. */
  datatype Snapshot = Snapshot(schema: int, clusterID: string, index: Uint64, records: Records, ceiling: Uint64,
                               digest: Option<Digest>)

  /** Bytes of one record in the JSON object: quoted key, version, value and punctuation. */
  function EncodedRecord(k: Key, r: Record): nat { k.Length() + r.value.length + Digits(r.version) + 24 }

  /** Bytes of all records and the commas that follow them. */
  const ENCODING: (Key, Record) -> int := (k: Key, r: Record) => EncodedRecord(k, r) + 1

  ghost function EncodedRecords(m: Records): (n: nat) {
    Sums.MapNonNegative(m, ENCODING);
    Sums.OverMap(m, ENCODING)
  }

  ghost function EncodedSize(s: Snapshot): nat {
    12 + (15 + |s.clusterID|) + (9 + Digits(s.index))
    + (12 + EncodedRecords(s.records) - (if s.records == map[] then 0 else 1))
    + (if s.ceiling == 0 then 0 else 18 + Digits(s.ceiling))
    + (if s.digest == Some(Genesis) then 0 else 83) + 2
  }

  lemma {:induction false} EncodedRecordsBound(m: Records)
    ensures EncodedRecords(m) <= TotalBytes(m) + 45 * |m|
    decreases |m|
  {
    if m != map[] {
      var k :| k in m;
      Sums.MapWithout(m, ENCODING, k);
      Uint64Digits(m[k].version);
      SizeWithout(m, k);
      EncodedRecordsBound(m - {k});
      assert EncodedRecord(k, m[k]) + 1 <= RecordSize(k, m[k]) + 45;
      assert |m| == |m - {k}| + 1;
      assert TotalBytes(m) == RecordSize(k, m[k]) + TotalBytes(m - {k});
    }
  }

  predicate RestorableRecord(k: Key, r: Record, bound: Uint64) {
    DocumentKey(k) && r.version != 0 && r.version <= bound && r.value.length <= MAX_VALUE && r.value.json
  }

  /** What Restore demands of a decoded snapshot. */
  ghost predicate Restorable(s: Snapshot, clusterID: string) {
    && EncodedSize(s) <= MAX_SNAPSHOT
    && s.schema == 1
    && s.clusterID == clusterID
    && s.digest.Some?
    && (forall k :: k in s.records ==> RestorableRecord(k, s.records[k], Max(s.index, s.ceiling)))
    && Fits(s.records)
  }

  /** What every reachable state satisfies. */
  ghost predicate WellFormed(c: Core) {
    && Fits(c.records)
    && (forall k :: k in c.records ==> RestorableRecord(k, c.records[k], c.ceiling))
  }

  /** Accepting or refusing an entry keeps a state well formed, and versions never exceed the ceiling. */
  lemma JudgeKeepsWellFormed(c: Core, e: Entry)
    requires WellFormed(c) && e.index > 0
    ensures WellFormed(Step(c, e))
    ensures c.ceiling <= Step(c, e).ceiling
  {
    if Judge(c, e).Accepted? {
      var t := e.data.t;
      var version := AssignedVersion(t, e.index);
      var next := Step(c, e);
      forall k | k in next.records
        ensures RestorableRecord(k, next.records[k], next.ceiling)
      {
        WriteAllAt(c.records, t.writes, version, k);
        if i :| 0 <= i < |t.writes| && t.writes[i].key == k {
          assert t.writes[i].key in CheckedKeys(t.checks);
        } else {
          assert Lookup(next.records, k) == Lookup(c.records, k);
        }
      }
    }
  }

  /* ---------- Replay ---------- */

  /** The state of a replica and the index of the last entry it applied. */
  datatype Replica = Replica(core: Core, index: Uint64)

  ghost function ApplyTo(r: Replica, e: Entry): Replica { Replica(Step(r.core, e), e.index) }

  ghost function Replay(r: Replica, log: seq<Entry>): Replica {
    if log == [] then r else ApplyTo(Replay(r, log[..|log| - 1]), log[|log| - 1])
  }

  const FRESH: Replica := Replica(EMPTY_CORE, 0)

  lemma {:induction false} ReplayConcat(r: Replica, a: seq<Entry>, b: seq<Entry>)
    ensures Replay(r, a + b) == Replay(Replay(r, a), b)
    decreases |b|
  {
    if b == [] {
      assert a + b == a;
    } else {
      var n := |b| - 1;
      assert (a + b)[..|a + b| - 1] == a + b[..n];
      ReplayConcat(r, a, b[..n]);
    }
  }

  predicate PositiveIndexes(log: seq<Entry>) {
    forall i :: 0 <= i < |log| ==> log[i].index > 0
  }

  lemma {:induction false} ReplayWellFormed(log: seq<Entry>)
    requires PositiveIndexes(log)
    ensures WellFormed(Replay(FRESH, log).core)
  {
    if log != [] {
      var n := |log| - 1;
      ReplayWellFormed(log[..n]);
      JudgeKeepsWellFormed(Replay(FRESH, log[..n]).core, log[n]);
    }
  }

  function TakeSnapshot(clusterID: string, r: Replica): Snapshot {
    Snapshot(1, clusterID, r.index, r.core.records, r.core.ceiling, Some(r.core.digest))
  }

  function FromSnapshot(s: Snapshot): Replica
    requires s.digest.Some?
  {
    Replica(Core(s.records, s.ceiling, s.digest.value), s.index)
  }

  lemma RecordsRestorable(c: Core, index: Uint64)
    requires WellFormed(c)
    ensures forall k :: k in c.records ==> RestorableRecord(k, c.records[k], Max(index, c.ceiling))
  {
    hide TotalBytes, DocumentKey;
  }

  /**
   Compaction is invisible: for every log and every cut, the snapshot taken at the cut is accepted,
   and the restored replica replays the rest of the log to the same state as an uncompacted one.
   */
  lemma CompactionInvisible(clusterID: string, log: seq<Entry>, cut: nat)
    requires PositiveIndexes(log) && cut <= |log| && |clusterID| == 32
    ensures var s := TakeSnapshot(clusterID, Replay(FRESH, log[..cut]));
            Restorable(s, clusterID) && Replay(FromSnapshot(s), log[cut..]) == Replay(FRESH, log)
  {
    hide Replay, TotalBytes, EncodedRecords, RestorableRecord, Digits;
    var at := Replay(FRESH, log[..cut]);
    var s := TakeSnapshot(clusterID, at);
    ReplayWellFormed(log[..cut]);
    EncodedRecordsBound(s.records);
    Uint64Digits(s.index);
    Uint64Digits(s.ceiling);
    assert FromSnapshot(s) == at;
    RecordsRestorable(at.core, s.index);
    assert log == log[..cut] + log[cut..];
    ReplayConcat(FRESH, log[..cut], log[cut..]);
  }

  /* ---------- The mutable state ---------- */

  class MetadataState {
    const clusterID: string
    var records: Records
    var bytes: int
    var index: Uint64
    var generation: nat
    var versionCeiling: Uint64
    var historyDigest: Digest

    /** The incremental byte count is exact. */
    ghost predicate Valid() reads this { bytes == TotalBytes(records) }

    ghost function Contents(): Core reads this { Core(records, versionCeiling, historyDigest) }

    constructor (id: string)
      ensures Valid() && clusterID == id && Contents() == EMPTY_CORE && index == 0 && generation == 0
    {
      clusterID := id;
      records, bytes, index, generation, versionCeiling, historyDigest := map[], 0, 0, 0, 0, Genesis;
    }

    /** A private copy with its own index, as the coordinator makes before it previews a write. */
    constructor Fork(source: MetadataState)
      requires source.Valid()
      ensures Valid() && clusterID == source.clusterID
      ensures Contents() == source.Contents() && index == source.index && generation == 0
    {
      clusterID := source.clusterID;
      records, bytes, index, generation := source.records, source.bytes, source.index, 0;
      versionCeiling, historyDigest := source.versionCeiling, source.historyDigest;
    }

    /** The record count and byte count that the writes would produce, computed without performing them. */
    method Measure(writes: seq<Write>, version: Uint64) returns (count: int, size: int)
      requires Valid() && DistinctWrites(writes)
      ensures count == |WriteAll(records, writes, version)| && size == TotalBytes(WriteAll(records, writes, version))
    {
      count, size := |records|, bytes;
      for i := 0 to |writes|
        invariant count == |WriteAll(records, writes[..i], version)|
        invariant size == TotalBytes(WriteAll(records, writes[..i], version))
      {
        var w := writes[i];
        ghost var sofar := WriteAll(records, writes[..i], version);
        assert writes[..i + 1][..i] == writes[..i];
        TotalBytesAfterWrite(sofar, w, version);
        WriteAllAt(records, writes[..i], version, w.key);
        assert Lookup(sofar, w.key) == Lookup(records, w.key);
        if w.key in records {
          count := count - 1;
          size := size - RecordSize(w.key, records[w.key]);
        }
        if !w.isDelete {
          count := count + 1;
          size := size + w.key.Length() + w.value.length;
        }
      }
      assert writes[..|writes|] == writes;
    }

    method Install(writes: seq<Write>, version: Uint64)
      modifies this`records
      ensures records == WriteAll(old(records), writes, version)
    {
      for i := 0 to |writes|
        invariant records == WriteAll(old(records), writes[..i], version)
      {
        var w := writes[i];
        assert writes[..i + 1][..i] == writes[..i];
        if w.isDelete {
          records := records - {w.key};
        } else {
          records := records[w.key := Record(version, w.value)];
        }
      }
      assert writes[..|writes|] == writes;
    }

    method Admit(e: Entry) returns (objection: Option<Error>)
      ensures objection == Objection(records, e)
    {
      if e.data.Malformed? || e.data.size > MAX_COMMAND { return Some(ErrInvalid); }
      var t := e.data.t;
      var valid := ValidateTransaction(t);
      if !valid { return Some(ErrInvalid); }
      if t.revision != 0 && (TermOf(t.revision) != e.term || SequenceOf(t.revision) == 0) { return Some(ErrInvalid); }
      for i := 0 to |t.checks|
        invariant forall j :: 0 <= j < i ==> VersionAt(records, t.checks[j].key) == t.checks[j].version
      {
        if VersionAt(records, t.checks[i].key) != t.checks[i].version { return Some(ErrConflict); }
      }
      return None;
    }

    /** Applies one log entry. A refused entry changes nothing but the index. */
    method Apply(e: Entry) returns (r: Option<Error>)
      requires Valid()
      modifies this
      ensures Valid() && index == e.index && generation == old(generation)
      ensures match Judge(old(Contents()), e)
              case Accepted(next) => r == None && Contents() == next
              case Rejected(error) => r == Some(error) && Contents() == old(Contents())
    {
      hide WriteAll, TotalBytes, Objection;
      index := e.index;
      var objection := Admit(e);
      if objection.Some? { return objection; }
      Admitted(records, e);
      var t := e.data.t;
      var version := AssignedVersion(t, e.index);
      var count, size := Measure(t.writes, version);
      if count > MAX_RECORDS || size > MAX_STATE_BYTES { return Some(ErrCapacity); }
      if version > versionCeiling { versionCeiling := version; }
      historyDigest := Link(historyDigest, e.data);
      Install(t.writes, version);
      bytes := size;
      return None;
    }

    method Save() returns (s: Snapshot)
      ensures s == TakeSnapshot(clusterID, Replica(Contents(), index))
    {
      s := Snapshot(1, clusterID, index, records, versionCeiling, Some(historyDigest));
    }

    /** Visits the records in an arbitrary order and stops at the first bad record or once the cap is passed. */
    static method SnapshotSize(all: Records, bound: Uint64) returns (error: Option<Error>, total: nat)
      ensures error == None <==> TotalBytes(all) <= MAX_STATE_BYTES && forall k ::
              k in all ==> RestorableRecord(k, all[k], bound)
      ensures error == None ==> total == TotalBytes(all)
      ensures error == Some(ErrCapacity) ==> TotalBytes(all) > MAX_STATE_BYTES
      ensures error in {None, Some(ErrCapacity), Some(ErrInvalid)}
      ensures error == Some(ErrInvalid) ==> exists k :: k in all && !RestorableRecord(k, all[k], bound)
    {
      var rest := all;
      total := 0;
      while rest != map[]
        invariant rest.Keys <= all.Keys && forall k :: k in rest ==> rest[k] == all[k]
        invariant total + TotalBytes(rest) == TotalBytes(all) && total <= MAX_STATE_BYTES
        invariant forall k :: k in all && k !in rest ==> RestorableRecord(k, all[k], bound)
        decreases |rest|
      {
        var k :| k in rest;
        SizeWithout(rest, k);
        if !RestorableRecord(k, rest[k], bound) { return Some(ErrInvalid), 0; }
        total := total + k.Length() + rest[k].value.length;
        if total > MAX_STATE_BYTES { return Some(ErrCapacity), 0; }
        rest := rest - {k};
      }
      return None, total;
    }

    /** The parts of a snapshot that are examined before its records. */
    predicate HeaderOk(s: Snapshot, size: nat) {
      size <= MAX_SNAPSHOT && s.schema == 1 && s.clusterID == clusterID && |s.records| <= MAX_RECORDS && s.digest.Some?
    }

    /**
     Installs a snapshot exactly when it is restorable; `size` is the length of the file it came from. A capacity
     error means that the records are too large, any other error that the file is malformed or not for this cluster.
     */
    method Restore(s: Snapshot, size: nat) returns (error: Option<Error>)
      requires Valid() && size == EncodedSize(s)
      modifies this
      ensures Valid()
      ensures error == None <==> Restorable(s, clusterID)
      ensures error == None ==> Replica(Contents(), index) == FromSnapshot(s) && generation == old(generation) + 1
      ensures error != None ==> Contents() == old(Contents()) && index == old(index) && generation == old(generation)
      ensures error in {None, Some(ErrCapacity), Some(ErrInvalid)}
      ensures error == Some(ErrCapacity) ==> HeaderOk(s, size) && TotalBytes(s.records) > MAX_STATE_BYTES
      ensures error == Some(ErrInvalid) ==>
                !HeaderOk(s, size) || exists k ::
                  k in s.records && !RestorableRecord(k, s.records[k], Max(s.index, s.ceiling))
    {
      hide TotalBytes, RestorableRecord;
      if size > MAX_SNAPSHOT || s.schema != 1 || s.clusterID != clusterID || |s.records| > MAX_RECORDS
        || s.digest.None? {
        return Some(ErrInvalid);
      }
      var problem, total := SnapshotSize(s.records, Max(s.index, s.ceiling));
      if problem.Some? { return problem; }
      generation := generation + 1;
      records, index, bytes := s.records, s.index, total;
      versionCeiling := s.ceiling;
      historyDigest := s.digest.value;
      return None;
    }
  }
}
