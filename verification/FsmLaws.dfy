/** What a log entry is refused for and what an accepted one changes, told by what a client can see. */
module FsmLaws {
  import Sums
  import opened Decimal
  import opened Wrappers
  import opened Kv
  import opened Fsm

  /** The form of a transaction: up to 128 keys are each checked once, and some of them written once. */
  predicate WellFormedTransaction(t: Transaction) {
    && t.schema == 1 && t.durability in {Unspecified, Replicated, Local}
    && 1 <= |t.checks| <= 128 && 1 <= |t.writes| <= 128
    && (forall i :: 0 <= i < |t.checks| ==> DocumentKey(t.checks[i].key))
    && (forall i, j :: 0 <= i < |t.checks| && 0 <= j < |t.checks| && i != j ==> t.checks[i].key != t.checks[j].key)
    && (forall i, j :: 0 <= i < |t.writes| && 0 <= j < |t.writes| && i != j ==> t.writes[i].key != t.writes[j].key)
    && (forall i :: 0 <= i < |t.writes| ==> exists j :: 0 <= j < |t.checks| && t.checks[j].key == t.writes[i].key)
    && (forall i :: 0 <= i < |t.writes| && t.writes[i].isDelete ==> t.writes[i].value.length == 0)
    && (forall i :: 0 <= i < |t.writes| && !t.writes[i].isDelete ==>
          t.writes[i].value.length <= 0x1_0000 && t.writes[i].value.json)
  }

  const LOWER: string := "abcdefghijklmnopqrstuvwxyz"
  const UPPER: string := "ABCDEFGHIJKLMNOPQRSTUVWXYZ"
  const DIGITS: string := "0123456789"

  lemma Lower(c: char)
    ensures c in LOWER <==> 'a' <= c <= 'z'
  {
    if 'a' <= c <= 'z' { assert LOWER[c as int - 'a' as int] == c; }
  }

  lemma Upper(c: char)
    ensures c in UPPER <==> 'A' <= c <= 'Z'
  {
    if 'A' <= c <= 'Z' { assert UPPER[c as int - 'A' as int] == c; }
  }

  lemma Digit(c: char)
    ensures c in DIGITS <==> '0' <= c <= '9'
  {
    if '0' <= c <= '9' { assert DIGITS[c as int - '0' as int] == c; }
  }

  /** The characters of a collection and of an identifier. */
  lemma Alphabet(c: char)
    ensures LowerOrDigit(c) <==> c in LOWER || c in DIGITS || c == '_'
    ensures IdentifierChar(c) <==> c in UPPER || c in LOWER || c in DIGITS || c in "_-"
  {
    Lower(c);
    Upper(c);
    Digit(c);
  }

  /** A key is a collection of at most 48 characters that starts with a letter, and an identifier of at most 128. */
  lemma KeyExactly(k: Key)
    ensures DocumentKey(k) <==>
              && k.collection != "" && k.id != "" && |k.collection| <= 48 && |k.id| <= 128 && k.collection[0] in LOWER
              && (forall c :: c in k.collection ==> c in LOWER || c in DIGITS || c == '_')
              && (forall c :: c in k.id ==> c in UPPER || c in LOWER || c in DIGITS || c in "_-")
  {
    hide LowerOrDigit, IdentifierChar;
    forall c: char
      ensures LowerOrDigit(c) <==> c in LOWER || c in DIGITS || c == '_'
      ensures IdentifierChar(c) <==> c in UPPER || c in LOWER || c in DIGITS || c in "_-"
      ensures c in LOWER <==> 'a' <= c <= 'z'
    {
      Alphabet(c);
      Lower(c);
    }
  }

  lemma ValidMeans(t: Transaction)
    ensures ValidTransaction(t) <==> WellFormedTransaction(t)
  {
    hide DocumentKey;
    if WellFormedTransaction(t) {
      forall i | 0 <= i < |t.writes|
        ensures t.writes[i].key in CheckedKeys(t.checks) && ValidWrite(t.writes[i])
      {
        var j :| 0 <= j < |t.checks| && t.checks[j].key == t.writes[i].key;
      }
      assert ValidChecks(t.checks) && ValidWrites(t.writes, CheckedKeys(t.checks));
    }
    if ValidTransaction(t) {
      forall i | 0 <= i < |t.writes|
        ensures exists j :: 0 <= j < |t.checks| && t.checks[j].key == t.writes[i].key
        ensures ValidWrite(t.writes[i])
      {
        assert t.writes[i].key in CheckedKeys(t.checks);
      }
      assert DistinctChecks(t.checks) && DistinctWrites(t.writes);
      assert forall i, j :: 0 <= i < |t.checks| && 0 <= j < |t.checks| && i != j ==> t.checks[i].key != t.checks[j].key;
      assert forall i, j :: 0 <= i < |t.writes| && 0 <= j < |t.writes| && i != j ==> t.writes[i].key != t.writes[j].key;
      assert forall i :: 0 <= i < |t.writes| ==> exists j :: 0 <= j < |t.checks| && t.checks[j].key == t.writes[i].key;
      assert forall i :: 0 <= i < |t.checks| ==> DocumentKey(t.checks[i].key);
      assert t.durability in {Unspecified, Replicated, Local};
    }
  }

  /** What a key reads as after the writes: the write to it, if there is one, under the given version. */
  ghost predicate Wrote(before: Records, writes: seq<Write>, version: Uint64, after: Records) {
    && (forall i :: 0 <= i < |writes| ==>
          Lookup(after, writes[i].key) == if writes[i].isDelete then None else Some(Record(version, writes[i].value)))
    && (forall k: Key ::
        (forall i :: 0 <= i < |writes| ==> writes[i].key != k) ==> Lookup(after, k) == Lookup(before, k))
  }

  lemma WroteAll(before: Records, writes: seq<Write>, version: Uint64)
    requires DistinctWrites(writes)
    ensures Wrote(before, writes, version, WriteAll(before, writes, version))
  {
    forall i | 0 <= i < |writes|
      ensures Lookup(WriteAll(before, writes, version), writes[i].key) ==
              if writes[i].isDelete then None else Some(Record(version, writes[i].value))
    {
      WriteAllAt(before, writes, version, writes[i].key);
    }
    forall k: Key | forall i :: 0 <= i < |writes| ==> writes[i].key != k
      ensures Lookup(WriteAll(before, writes, version), k) == Lookup(before, k)
    {
      WriteAllAt(before, writes, version, k);
    }
  }

  /** Only one set of records reads like this. */
  lemma WroteOnce(before: Records, writes: seq<Write>, version: Uint64, a: Records, b: Records)
    requires Wrote(before, writes, version, a) && Wrote(before, writes, version, b)
    ensures a == b
  {
    forall k: Key
      ensures Lookup(a, k) == Lookup(b, k)
    {
      if i :| 0 <= i < |writes| && writes[i].key == k {
      } else {
        assert Lookup(a, k) == Lookup(before, k);
      }
    }
    forall k: Key
      ensures (k in a <==> k in b) && (k in a ==> a[k] == b[k])
    {
      assert Lookup(a, k) == Lookup(b, k);
    }
  }

  /**
   An entry is accepted exactly if it is a well-formed transaction of at most 1 MiB, carries no revision or one of
   its own term, every key still has the version it was read with, and the records it leaves are within both caps. They
   then read as written, the ceiling covers the new version and the history is one command longer.
   */
  lemma AcceptedExactly(c: Core, e: Entry, after: Records)
    requires e.data.Command? ==>
             Wrote(c.records, e.data.t.writes, if e.data.t.revision != 0 then e.data.t.revision else e.index, after)
    ensures Judge(c, e).Accepted? <==>
              && e.data.Command? && e.data.size <= 0x10_0000 && WellFormedTransaction(e.data.t)
              && (e.data.t.revision == 0
                  || (e.data.t.revision / 0x1_0000_0000 == e.term && e.data.t.revision % 0x1_0000_0000 != 0))
              && (forall i :: 0 <= i < |e.data.t.checks| ==>
                    var k, v := e.data.t.checks[i].key, e.data.t.checks[i].version;
                    if k in c.records then c.records[k].version == v else v == 0)
              && |after| <= 100000 && TotalBytes(after) <= 0x800_0000
    ensures Judge(c, e).Accepted? ==>
              var version := if e.data.t.revision != 0 then e.data.t.revision else e.index;
              && Judge(c, e).core.records == after
              && Judge(c, e).core.ceiling == (if c.ceiling < version then version else c.ceiling)
              && Judge(c, e).core.digest == Link(c.digest, e.data)
  {
    hide WellFormedTransaction, ValidTransaction, TotalBytes, WriteAll, Wrote;
    if e.data.Command? {
      ValidMeans(e.data.t);
      var version := AssignedVersion(e.data.t, e.index);
      if ValidTransaction(e.data.t) {
        ValidDistinct(e.data.t);
        WroteAll(c.records, e.data.t.writes, version);
        WroteOnce(c.records, e.data.t.writes, version, after, WriteAll(c.records, e.data.t.writes, version));
      }
    }
  }

  lemma ValidDistinct(t: Transaction)
    requires ValidTransaction(t)
    ensures DistinctWrites(t.writes)
  {}

  /* ---------- The history digest ---------- */

  /** The accepted commands of a log, in order. */
  ghost function History(log: seq<Entry>): seq<Command> {
    if log == [] then []
    else
      var n := |log| - 1;
      History(log[..n]) + if Judge(Replay(FRESH, log[..n]).core, log[n]).Accepted? then [log[n].data] else []
  }

  function Spelled(d: Digest): seq<Command> {
    match d
    case Genesis => []
    case Link(previous, data) => Spelled(previous) + [data]
  }

  /** The digest of a replica stands for exactly the commands it has accepted. */
  lemma {:induction false} DigestSpells(log: seq<Entry>)
    ensures Spelled(Replay(FRESH, log).core.digest) == History(log)
  {
    if log != [] {
      var n := |log| - 1;
      DigestSpells(log[..n]);
    }
  }

  /** Replicas with the same digest have accepted the same commands. */
  lemma SameDigestSameHistory(a: seq<Entry>, b: seq<Entry>)
    requires Replay(FRESH, a).core.digest == Replay(FRESH, b).core.digest
    ensures History(a) == History(b)
  {
    hide Replay, History;
    DigestSpells(a);
    DigestSpells(b);
  }

  /* ---------- Snapshots ---------- */

  /** What a file must be to be installed: of this cluster, within the caps, every record valid and of a known
      version. */
  lemma RestorableExactly(s: Snapshot, clusterID: string)
    ensures Restorable(s, clusterID) <==>
              && s.schema == 1 && s.clusterID == clusterID && s.digest.Some? && EncodedSize(s) <= 0x1000_0000
              && |s.records| <= 100000 && TotalBytes(s.records) <= 0x800_0000
              && (forall k :: k in s.records ==>
                    && DocumentKey(k) && s.records[k].value.json && s.records[k].value.length <= 0x1_0000
                    && 0 < s.records[k].version
                    && (s.records[k].version <= s.index || s.records[k].version <= s.ceiling))
  {
    hide TotalBytes, DocumentKey, EncodedRecords;
  }

  /** A record as it is spelled in the file, given the spelling of its version and of its value. */
  function RecordText(k: Key, version: string, value: string): string {
    "\"" + k.collection + "/" + k.id + "\":{\"version\":" + version + ",\"value\":" + value + "}"
  }

  /** The whole file, given the spelling of its numbers, records and digest; the encoder ends it with a newline. */
  function SnapshotText(s: Snapshot, index: string, records: string, ceiling: string, digest: string): string {
    "{\"schema\":1,\"clusterID\":\"" + s.clusterID + "\",\"index\":" + index + ",\"records\":{" + records + "}"
    + (if s.ceiling == 0 then "" else ",\"versionCeiling\":" + ceiling)
    + (if s.digest == Some(Genesis) then "" else ",\"historyDigest\":\"" + digest + "\"") + "}\n"
  }

  /** The spelled records, separated by commas. */
  ghost predicate RecordsText(m: Records, text: string)
    decreases |m|
  {
    if m == map[] then text == ""
    else exists k, version: string, value: string, rest: string ::
           && k in m && |version| == Digits(m[k].version) && |value| == m[k].value.length && RecordsText(m - {k}, rest)
           && text == RecordText(k, version, value) + (if rest == "" then "" else "," + rest)
  }

  lemma {:induction false} RecordsLength(m: Records, text: string)
    requires RecordsText(m, text)
    ensures |text| == EncodedRecords(m) - (if m == map[] then 0 else 1)
    ensures m != map[] ==> text != ""
    decreases |m|
  {
    if m != map[] {
      var k, version: string, value: string, rest: string :|
        && k in m && |version| == Digits(m[k].version) && |value| == m[k].value.length && RecordsText(m - {k}, rest)
        && text == RecordText(k, version, value) + (if rest == "" then "" else "," + rest);
      RecordsLength(m - {k}, rest);
      Sums.MapWithout(m, ENCODING, k);
      assert |RecordText(k, version, value)| == EncodedRecord(k, m[k]);
    }
  }

  /** The size that the cap is about is the length of the file, however its records are ordered. */
  lemma SnapshotSpelled(s: Snapshot, index: string, records: string, ceiling: string, digest: string)
    requires |index| == Digits(s.index) && |ceiling| == Digits(s.ceiling) && |digest| == 64
    requires RecordsText(s.records, records)
    ensures |SnapshotText(s, index, records, ceiling, digest)| == EncodedSize(s)
  {
    hide EncodedRecords, RecordsText;
    RecordsLength(s.records, records);
  }
}
