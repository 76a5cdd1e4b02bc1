/**
 An optimistic transaction: it remembers the version of everything it read and
 turns its writes into one conditional command.
 */
module Tx {
  import opened Wrappers
  import opened Kv
  import Fsm
  import opened Writer
  import opened Cluster
  import opened ClusterTheorems
  import opened Ordering

  const MAX_READS: nat := 128
  const ATTEMPTS: nat := 8

  /** The key as the single string that orders the command. */
  function Name(k: Key): string { k.collection + "/" + k.id }

  /** A document key is determined by its name: a collection contains no slash. */
  lemma NameInjective(a: Key, b: Key)
    requires DocumentKey(a) && DocumentKey(b) && Name(a) == Name(b)
    ensures a == b
  {
    var n := |a.collection|;
    var m := |b.collection|;
    assert Name(a)[n] == '/' && Name(b)[m] == '/';
    assert forall i :: 0 <= i < n ==> Name(a)[i] == a.collection[i];
    assert forall i :: 0 <= i < m ==> Name(b)[i] == b.collection[i];
    assert n == m;
    assert a.collection == Name(a)[..n] && b.collection == Name(b)[..n];
    assert a.id == Name(a)[n + 1..] && b.id == Name(b)[n + 1..];
  }

  /** Writes that a content transaction may make without asking for replication. */
  predicate ContentWrite(k: Key, isDelete: bool) {
    if isDelete then k.collection == "digests"
    else k.collection == "projects" || k.collection in CONTENT_COLLECTIONS || "versions_" <= k.collection
  }

  /** What the coordinator acknowledges locally never contains a write that the client classifies as protected. */
  lemma CoordinatorIsStricter(t: Transaction, records: Records, i: nat)
    requires LocalContentAllowed(t, records) && i < |t.writes|
    ensures t.durability == Local && ContentWrite(t.writes[i].key, t.writes[i].isDelete)
  {
    assert LocalWrite(t.writes[i], t.writes, records);
  }

  datatype Outcome<T> = Done(value: T) | Failed(error: Error) | NotFound

  /** What the backend answers to a read: the record, if there is one, or why it could not be read. */
  datatype Reply = Found(record: Option<Record>) | Broken(error: Error)

  predicate Versioned(answer: Reply) { answer.Found? && answer.record.Some? ==> answer.record.value.version > 0 }

  /** What a transaction that has read these keys learns about another one. */
  function ReadResult(observed: map<Key, Option<Record>>, k: Key, answer: Reply): Outcome<Option<Record>> {
    if k in observed then Done(observed[k])
    else if |observed| >= MAX_READS then Failed(ErrCapacity)
    else if !DocumentKey(k) then Failed(ErrInvalid)
    else if answer.Broken? then Failed(answer.error)
    else Done(answer.record)
  }

  lemma ReadResultShape(observed: map<Key, Option<Record>>, k: Key, answer: Reply)
    ensures ReadResult(observed, k, answer).Done? || ReadResult(observed, k, answer).Failed?
  {}

  /** A key is read exactly if it was read before, or is a proper key among the first 128 and the backend answers. */
  lemma ReadExactly(observed: map<Key, Option<Record>>, k: Key, answer: Reply)
    ensures ReadResult(observed, k, answer).Done? <==>
            k in observed || (|observed| < 128 && DocumentKey(k) && answer.Found?)
    ensures ReadResult(observed, k, answer).Done? ==>
            ReadResult(observed, k, answer).value == if k in observed then observed[k] else answer.record
  {
    hide DocumentKey;
  }

  /** Which writes need no replication, spelled out. */
  lemma ContentMeans(k: Key, isDelete: bool)
    ensures ContentWrite(k, isDelete) <==>
              || (isDelete && k.collection == "digests")
              || (!isDelete
                  && (k.collection in {"projects", "operations", "digests", "slugs", "quotas", "owner_projects"}
                      || "versions_" <= k.collection))
  {}

  /** What a finished callback asks of the backend. */
  datatype Finished = NothingRead | CheckOnly(checks: seq<Check>) | AlreadyCoherent | Submit(t: Transaction)

  ghost predicate ReadsOk(observed: map<Key, Option<Record>>) {
    |observed| <= MAX_READS && forall k ::
      k in observed ==> DocumentKey(k) && (observed[k].Some? ==> observed[k].value.version > 0)
  }

  ghost predicate WritesOk(observed: map<Key, Option<Record>>, writes: map<Key, Write>, requested: set<(Key, bool)>) {
    forall k :: k in writes ==>
                  k in observed && writes[k].key == k && ValidWrite(writes[k]) && (k, writes[k].isDelete) in requested
  }

  ghost predicate DurabilityOk(durability: Durability, requested: set<(Key, bool)>) {
    durability in {Local, Replicated} && (durability == Local ==> forall r :: r in requested ==> ContentWrite(r.0, r.1))
  }

  lemma WritesGrow(observed: map<Key, Option<Record>>, writes: map<Key, Write>, requested: set<(Key, bool)>, w: Write)
    requires WritesOk(observed, writes, requested) && w.key in observed && ValidWrite(w)
             && (w.key, w.isDelete) in requested
    ensures WritesOk(observed, writes[w.key := w], requested)
  {}

  /** The callback has read exactly these keys, each with this answer whenever it asked. */
  ghost predicate Tracks(reading: seq<Observation>, observed: map<Key, Option<Record>>) {
    && (forall o :: o in reading ==> o.key in observed && o.record == observed[o.key])
    && (forall k :: k in observed ==> Observation(k, observed[k]) in reading)
  }

  lemma TracksMore(reading: seq<Observation>, observed: map<Key, Option<Record>>, k: Key, record: Option<Record>)
    requires Tracks(reading, observed) && (k in observed ==> record == observed[k])
    ensures Tracks(reading + [Observation(k, record)], observed[k := record])
  {
    var more, after := reading + [Observation(k, record)], observed[k := record];
    assert more[|reading|] == Observation(k, record);
    forall j | j in after
      ensures Observation(j, after[j]) in more
    {
      if j != k { assert Observation(j, observed[j]) in reading; }
    }
  }

  class Transactional {
    var observed: map<Key, Option<Record>>
    var writes: map<Key, Write>
    var durability: Durability
    const readOnly: bool
    const snapshot: bool
    ghost var requested: set<(Key, bool)>
    /** Every read of the callback in order, repetitions and the reads before its writes included. */
    ghost var reading: seq<Observation>

    /** Every write is of a key that was read, and a local transaction never asked for a protected write. */
    ghost predicate Valid() reads this {
      && ReadsOk(observed)
      && WritesOk(observed, writes, requested)
      && DurabilityOk(durability, requested)
      && Tracks(reading, observed)
      && (snapshot || readOnly ==> writes == map[])
    }

    constructor (d: Durability, onlyReads: bool, fromSnapshot: bool)
      requires d in {Local, Replicated}
      ensures Valid() && observed == map[] && writes == map[] && requested == {} && reading == []
      ensures durability == d && readOnly == onlyReads && snapshot == fromSnapshot
    {
      observed, writes, durability, readOnly, snapshot := map[], map[], d, onlyReads, fromSnapshot;
      requested, reading := {}, [];
    }

    method RequireReplication()
      requires Valid()
      modifies this`durability
      ensures Valid() && durability == Replicated
    {
      durability := Replicated;
    }

    /** Reads a key once; `answer` is the backend's reply. */
    method ReadRecord(k: Key, answer: Reply) returns (r: Outcome<Option<Record>>)
      requires Valid() && Versioned(answer)
      modifies this`observed, this`reading
      ensures Valid() && r == ReadResult(old(observed), k, answer)
      ensures observed == if r.Done? then old(observed)[k := r.value] else old(observed)
      ensures reading == if r.Done? then old(reading) + [Observation(k, r.value)] else old(reading)
    {
      if k in observed {
        assert observed[k := observed[k]] == observed;
        TracksMore(reading, observed, k, observed[k]);
        reading := reading + [Observation(k, observed[k])];
        return Done(observed[k]);
      }
      if |observed| >= MAX_READS { return Failed(ErrCapacity); }
      if !DocumentKey(k) { return Failed(ErrInvalid); }
      if answer.Broken? { return Failed(answer.error); }
      TracksMore(reading, observed, k, answer.record);
      observed := observed[k := answer.record];
      reading := reading + [Observation(k, answer.record)];
      return Done(answer.record);
    }

    /** A transaction sees its own writes, then the version it first read. */
    method Get(k: Key, answer: Reply) returns (r: Outcome<Value>)
      requires Valid() && Versioned(answer)
      modifies this`observed, this`reading
      ensures Valid()
      ensures k in writes ==>
              r == (if writes[k].isDelete then NotFound else Done(writes[k].value)) && observed == old(observed)
              && reading == old(reading)
      ensures k !in writes ==>
                match ReadResult(old(observed), k, answer)
                case Failed(error) => r == Failed(error) && observed == old(observed)
                case NotFound => false
                case Done(record) =>
                  r == (if record.None? then NotFound else Done(record.value.value))
                  && observed == old(observed)[k := record] && reading == old(reading) + [Observation(k, record)]
    {
      if k in writes {
        return if writes[k].isDelete then NotFound else Done(writes[k].value);
      }
      var found := ReadRecord(k, answer);
      if found.Failed? { return Failed(found.error); }
      return if found.value.None? then NotFound else Done(found.value.value.value);
    }

    /** The promotion is sticky, whatever is written to the key later. */
    method ClassifyWrite(k: Key, isDelete: bool)
      requires Valid()
      modifies this`durability, this`requested
      ensures Valid() && requested == old(requested) + {(k, isDelete)}
      ensures durability == if ContentWrite(k, isDelete) then old(durability) else Replicated
    {
      requested := requested + {(k, isDelete)};
      if isDelete && k.collection != "digests" {
        durability := Replicated;
        return;
      }
      if k.collection !in CONTENT_COLLECTIONS + {"projects"} && !("versions_" <= k.collection) {
        durability := Replicated;
      }
    }

    /** The need for replication is recorded even if the write then fails. */
    method Set(k: Key, v: Value, answer: Reply) returns (r: Outcome<Value>)
      requires Valid() && Versioned(answer) && v.json
      modifies this
      ensures Valid()
      ensures snapshot || readOnly ==>
              r == Failed(ErrInvalid) && durability == old(durability) && observed == old(observed)
              && reading == old(reading)
      ensures !snapshot && !readOnly ==>
                && durability == (if ContentWrite(k, false) then old(durability) else Replicated)
                && var read := ReadResult(old(observed), k, answer);
                   && r == (if read.Failed? then Failed(read.error)
                            else if v.length > MAX_VALUE then Failed(ErrCapacity) else Done(v))
                   && observed == (if read.Done? then old(observed)[k := read.value] else old(observed))
                   && reading == (if read.Done? then old(reading) + [Observation(k, read.value)] else old(reading))
      ensures writes == if r.Done? then old(writes)[k := Write(k, v, false)] else old(writes)
    {
      hide ReadsOk, WritesOk, DurabilityOk, ContentWrite, ReadResult, Tracks;
      if snapshot || readOnly { return Failed(ErrInvalid); }
      ClassifyWrite(k, false);
      ReadResultShape(observed, k, answer);
      var found := ReadRecord(k, answer);
      if !found.Done? { return Failed(found.error); }
      if v.length > MAX_VALUE { return Failed(ErrCapacity); }
      WritesGrow(observed, writes, requested, Write(k, v, false));
      writes := writes[k := Write(k, v, false)];
      return Done(v);
    }

    method Delete(k: Key, empty: Value, answer: Reply) returns (r: Outcome<Value>)
      requires Valid() && Versioned(answer) && empty.length == 0
      modifies this
      ensures Valid()
      ensures snapshot || readOnly ==>
              r == Failed(ErrInvalid) && durability == old(durability) && observed == old(observed)
              && reading == old(reading)
      ensures !snapshot && !readOnly ==>
                && durability == (if ContentWrite(k, true) then old(durability) else Replicated)
                && var read := ReadResult(old(observed), k, answer);
                   && r == (if read.Failed? then Failed(read.error) else Done(empty))
                   && observed == (if read.Done? then old(observed)[k := read.value] else old(observed))
                   && reading == (if read.Done? then old(reading) + [Observation(k, read.value)] else old(reading))
      ensures writes == if r.Done? then old(writes)[k := Write(k, empty, true)] else old(writes)
    {
      hide ReadsOk, WritesOk, DurabilityOk, ContentWrite, ReadResult, Tracks;
      if snapshot || readOnly { return Failed(ErrInvalid); }
      ClassifyWrite(k, true);
      ReadResultShape(observed, k, answer);
      var found := ReadRecord(k, answer);
      if !found.Done? { return Failed(found.error); }
      WritesGrow(observed, writes, requested, Write(k, empty, true));
      writes := writes[k := Write(k, empty, true)];
      return Done(empty);
    }

    /**
     The command that is submitted: its checks are exactly the versions the callback read and its
     writes exactly the pending ones, so any callback that read and wrote this way produced it. A snapshot reader skips
     the final check if its backend is `coherent`. The command is a valid transaction, so the replicated state refuses
     it only for a conflict, for lack of room, or because it was numbered for an earlier term than it is committed in.
     */
    method Finish(coherent: bool) returns (r: Finished, ghost seen: seq<Observation>)
      requires Valid()
      ensures r.NothingRead? <==> observed == map[]
      ensures r.Submit? <==> writes != map[]
      ensures r.AlreadyCoherent? <==> observed != map[] && snapshot && coherent
      ensures forall i :: 0 <= i < |seen| ==> seen[i].key in observed && seen[i].record == observed[seen[i].key]
      ensures r.CheckOnly? ==> CheckedKeys(r.checks) == observed.Keys && ChecksOf(r.checks, seen)
      ensures r.Submit? ==>
                && ValidTransaction(r.t) && r.t.revision == 0 && ReadsMatch(r.t, seen)
                && CheckedKeys(r.t.checks) == observed.Keys
                && (forall i ::
                    0 <= i < |r.t.writes| ==> r.t.writes[i].key in writes && r.t.writes[i] == writes[r.t.writes[i].key])
                && (forall k :: k in writes ==> writes[k] in r.t.writes)
                && (r.t.durability == Local ==> forall q :: q in requested ==> ContentWrite(q.0, q.1))
                && r.t.durability == (if durability == Local then Local else Unspecified)
      ensures r.Submit? ==> forall client: Client, d: Durability ::
                Conducts(client, reading, writes.Values, d) ==>
                  Produced(client, seen, r.t.writes, reading, writes.Values, d)
    {
      hide Conducts, DocumentKey, ContentWrite, ValidChecks, ValidWrites, ValidWrite, Ascending, KeySet, CheckedKeys,
        DistinctWrites;
      seen := [];
      if observed == map[] { return NothingRead, seen; }
      assert observed.Keys != {};
      var keys := SortedKeys(observed.Keys);
      AscendingDistinct(keys);
      var checks, ws;
      checks, ws, seen := Assemble(keys, observed, writes);
      CommandValid(keys, checks, ws, observed, writes);
      SeenIsRead(keys, observed, seen, reading);
      if ws == [] { return if snapshot && coherent then AlreadyCoherent else CheckOnly(checks), seen; }
      return Submit(Transaction(1, checks, ws, if durability == Local then Local else Unspecified, 0)), seen;
    }
  }

  predicate Ascending(keys: seq<Key>) { forall i, j :: 0 <= i < j < |keys| ==> Less(Name(keys[i]), Name(keys[j])) }

  function KeySet(keys: seq<Key>): set<Key> { set i | 0 <= i < |keys| :: keys[i] }

  lemma AscendingDistinct(keys: seq<Key>)
    requires Ascending(keys)
    ensures forall i, j :: 0 <= i < j < |keys| ==> keys[i] != keys[j]
  {
    forall i, j | 0 <= i < j < |keys|
      ensures keys[i] != keys[j]
    {
      LessTotal(Name(keys[i]), Name(keys[j]));
    }
  }

  lemma NamesDistinct(all: set<Key>)
    requires forall k :: k in all ==> DocumentKey(k)
    ensures forall a, b :: a in all && b in all && Name(a) == Name(b) ==> a == b
  {
    hide Name, DocumentKey;
    forall a, b | a in all && b in all && Name(a) == Name(b)
      ensures a == b
    {
      NameInjective(a, b);
    }
  }

  method SortedKeys(all: set<Key>) returns (keys: seq<Key>)
    requires forall k :: k in all ==> DocumentKey(k)
    ensures Ascending(keys) && KeySet(keys) == all && |keys| == |all|
  {
    hide Less, Name, DocumentKey;
    NamesDistinct(all);
    var byName := map k | k in all :: Name(k) := k;
    var names := Sort(byName.Keys);
    SameSize(all, byName.Keys);
    keys := [];
    for i := 0 to |names|
      invariant |keys| == i
      invariant forall j :: 0 <= j < i ==> keys[j] in all && Name(keys[j]) == names[j]
    {
      assert names[i] in Elements(names);
      keys := keys + [byName[names[i]]];
    }
    forall k | k in all
      ensures k in KeySet(keys)
    {
      assert Name(k) in byName.Keys;
      var i :| 0 <= i < |names| && names[i] == Name(k);
      assert keys[i] == k;
    }
  }

  /** One check for every key, and the pending writes in the same order. */
  method Assemble(keys: seq<Key>, observed: map<Key, Option<Record>>, writes: map<Key, Write>)
    returns (checks: seq<Check>, ws: seq<Write>, ghost seen: seq<Observation>)
    requires KeySet(keys) == observed.Keys && forall i, j :: 0 <= i < j < |keys| ==> keys[i] != keys[j]
    requires forall k :: k in writes ==> k in observed && writes[k].key == k
    ensures |seen| == |keys| && ChecksOf(checks, seen)
    ensures forall i :: 0 <= i < |keys| ==> keys[i] in observed && seen[i] == Observation(keys[i], observed[keys[i]])
    ensures forall i :: 0 <= i < |ws| ==> ws[i].key in writes && ws[i] == writes[ws[i].key]
    ensures forall k :: k in writes ==> writes[k] in ws
    ensures DistinctWrites(ws) && |ws| <= |keys|
  {
    checks, ws, seen := [], [], [];
    assert forall i :: 0 <= i < |keys| ==> keys[i] in KeySet(keys);
    for i := 0 to |keys|
      invariant |seen| == i && ChecksOf(checks, seen)
      invariant forall j :: 0 <= j < i ==> seen[j] == Observation(keys[j], observed[keys[j]])
      invariant forall j ::
                0 <= j < |ws| ==> ws[j].key in writes && ws[j] == writes[ws[j].key] && ws[j].key in keys[..i]
      invariant forall j :: 0 <= j < i && keys[j] in writes ==> writes[keys[j]] in ws
      invariant DistinctWrites(ws) && |ws| <= i
    {
      var k := keys[i];
      seen := seen + [Observation(k, observed[k])];
      checks := checks + [Check(k, if observed[k].Some? then observed[k].value.version else 0)];
      if k in writes { ws := ws + [writes[k]]; }
    }
    forall k | k in writes
      ensures writes[k] in ws
    {
      assert k in KeySet(keys);
    }
  }

  /** What the checks are based on is what the callback read. */
  lemma SeenIsRead(keys: seq<Key>, observed: map<Key, Option<Record>>, seen: seq<Observation>,
                   reading: seq<Observation>)
    requires Tracks(reading, observed) && KeySet(keys) == observed.Keys && |seen| == |keys|
    requires forall i :: 0 <= i < |keys| ==> keys[i] in observed && seen[i] == Observation(keys[i], observed[keys[i]])
    ensures forall o :: o in reading <==> o in seen
  {
    forall o | o in reading
      ensures o in seen
    {
      assert o.key in KeySet(keys);
      var i :| 0 <= i < |keys| && keys[i] == o.key;
      assert seen[i] == o;
    }
  }

  lemma CommandValid(keys: seq<Key>, checks: seq<Check>, ws: seq<Write>, observed: map<Key, Option<Record>>,
                     writes: map<Key, Write>)
    requires Ascending(keys) && KeySet(keys) == observed.Keys && |keys| == |observed| <= MAX_READS
    requires forall k :: k in observed ==> DocumentKey(k)
    requires |checks| == |keys| && forall i :: 0 <= i < |keys| ==> checks[i].key == keys[i]
    requires DistinctWrites(ws) && |ws| <= |keys|
    requires forall k :: k in writes ==> k in observed && writes[k].key == k && ValidWrite(writes[k])
    requires forall i :: 0 <= i < |ws| ==> ws[i].key in writes && ws[i] == writes[ws[i].key]
    requires forall k :: k in writes ==> writes[k] in ws
    ensures CheckedKeys(checks) == observed.Keys && (keys != [] ==> ValidChecks(checks))
    ensures ws != [] ==> ValidWrites(ws, observed.Keys)
    ensures ws == [] <==> writes == map[]
  {
    hide DocumentKey, ValidWrite, Less, Name;
    AscendingDistinct(keys);
    forall k | k in observed
      ensures k in CheckedKeys(checks)
    {
      assert k in KeySet(keys);
      var i :| 0 <= i < |keys| && keys[i] == k;
      assert checks[i].key == k;
    }
    forall i | 0 <= i < |keys|
      ensures DocumentKey(checks[i].key) && checks[i].key in observed
    {
      assert keys[i] in KeySet(keys);
    }
    if writes != map[] {
      var k :| k in writes;
      assert writes[k] in ws;
    }
    if ws != [] { assert ws[0].key in writes; }
  }

  ghost predicate ChecksOf(checks: seq<Check>, seen: seq<Observation>) {
    |checks| == |seen| && forall i :: 0 <= i < |seen| ==> checks[i] == Check(seen[i].key, seen[i].Version())
  }

  lemma {:induction false} SameSize(keys: set<Key>, names: set<string>)
    requires names == set k | k in keys :: Name(k)
    requires forall a, b :: a in keys && b in keys && Name(a) == Name(b) ==> a == b
    ensures |names| == |keys|
    decreases |keys|
  {
    hide Name;
    if keys != {} {
      var k :| k in keys;
      assert names - {Name(k)} == set j | j in keys - {k} :: Name(j);
      SameSize(keys - {k}, names - {Name(k)});
    }
  }

  /* ---------- One snapshot per transaction ---------- */

  /** The reader of one transaction: every snapshot read after the first must carry the first one's stamp. */
  class TransactionBackend {
    var stamp: Option<ReadStamp>
    var legacy: bool
    const local: bool
    ghost var stamps: seq<ReadStamp>

    /** All snapshot reads carry one stamp, and the old protocol is used only if there was none. */
    ghost predicate Valid() reads this {
      && (forall i :: 0 <= i < |stamps| ==> stamp == Some(stamps[i]))
      && (legacy ==> stamp == None) && (stamp.None? <==> stamps == [])
    }

    constructor (isLocal: bool)
      ensures Valid() && stamps == [] && stamp == None && !legacy && local == isLocal
    {
      stamp, legacy, local, stamps := None, false, isLocal, [];
    }

    /** `answer` is the leader's reply to a read under the current stamp, `older` its reply to the older protocol. */
    method Read(answer: ReadOutcome, older: ReadOutcome) returns (r: ReadOutcome)
      requires Valid() && (answer.Read? && stamp.Some? ==> answer.stamp == stamp.value)
      modifies this
      ensures Valid()
      ensures r.Read? && !legacy ==>
              r == answer && stamps == old(stamps) + [answer.stamp] && stamp == Some(answer.stamp)
      ensures !(r.Read? && !legacy) ==> stamps == old(stamps) && stamp == old(stamp)
      ensures legacy && !old(legacy) ==> old(stamps) == [] && answer == ReadFailed(ErrInvalid) && !local
      ensures old(legacy) ==> legacy && r == older
    {
      if legacy { return older; }
      if !local && stamp.None? && answer == ReadFailed(ErrInvalid) {
        legacy := true;
        return older;
      }
      if answer.Read? {
        stamp := Some(answer.stamp);
        stamps := stamps + [answer.stamp];
      }
      return answer;
    }

    /** Only a transaction that has read a stamped snapshot may skip the final validation. */
    predicate CoherentSnapshot() reads this { !legacy && stamp.Some? }
  }

  /** A read under a stamp either fails or returns that same stamp, as the backend assumes. */
  lemma ReadKeepsStamp(w: State, raft: RaftStatus, io: RebuildIO, fsm: Fsm.Replica, later: bool, keys: set<Key>,
                       stamp: ReadStamp)
    requires w.term > 0 ==> w.view.Some?
    ensures var r := ReadStep(w, raft, io, fsm, later, keys, Some(stamp)).1; r.Read? ==> r.stamp == stamp
  {}

  /* ---------- Retrying ---------- */

  /** The outcome of one attempt: the callback and, if it succeeded, its command. */
  datatype Attempt = Succeeded | Rejected(error: Error)

  /** The request is abandoned before the next attempt. */
  datatype Ended = Ended(result: Attempt, used: nat) | DeadlineExceeded(used: nat)

  /**
   Retries only a known conflict, at most eight times; any other outcome, in particular an uncertain
   one, ends the request, so at most one attempt can have had an effect.
   */
  method Run(attempts: seq<Attempt>, cancelled: seq<bool>) returns (r: Ended)
    requires |attempts| == ATTEMPTS && |cancelled| == ATTEMPTS
    ensures 1 <= r.used <= ATTEMPTS
    ensures forall i :: 0 <= i < r.used - 1 ==> attempts[i] == Rejected(ErrConflict) && !cancelled[i]
    ensures r.DeadlineExceeded? ==> attempts[r.used - 1] == Rejected(ErrConflict) && cancelled[r.used - 1]
    ensures r.Ended? ==> r.result == attempts[r.used - 1] && (r.result == Rejected(ErrConflict) ==> r.used == ATTEMPTS)
  {
    for attempt := 0 to ATTEMPTS
      invariant forall i :: 0 <= i < attempt ==> attempts[i] == Rejected(ErrConflict) && !cancelled[i]
    {
      if attempts[attempt] != Rejected(ErrConflict) { return Ended(attempts[attempt], attempt + 1); }
      if cancelled[attempt] { return DeadlineExceeded(attempt + 1); }
    }
    return Ended(Rejected(ErrConflict), ATTEMPTS);
  }
}
