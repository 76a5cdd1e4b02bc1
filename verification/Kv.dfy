/**
 The consensus storage protocol: document keys, versioned records and
 optimistic multi-key transactions.
 */
module Kv {
  import opened Projects
  import opened Wrappers

  const TWO_TO_32: nat := 0x1_0000_0000
  const MAX_UINT64: nat := 0xffff_ffff_ffff_ffff

  type Uint64 = x: nat | x <= MAX_UINT64

  /** The term and the sequence number that a coordinator packs into one revision. */
  function TermOf(revision: Uint64): Uint64 { revision / 0x1_0000_0000 }

  function SequenceOf(revision: Uint64): Uint64 { revision % 0x1_0000_0000 }

  const MAX_COMMAND: nat := 0x10_0000
  const MAX_VALUE: nat := 0x1_0000
  const MAX_CHANGES: nat := 128
  const MAX_RECORDS: nat := 100000
  const MAX_STATE_BYTES: nat := 0x800_0000
  const MAX_SNAPSHOT: nat := 0x1000_0000

  datatype Error = ErrConflict | ErrInvalid | ErrCapacity | ErrNotLeader | ErrStorage

  /** A document key `collection/id`. */
  datatype Key = Key(collection: string, id: string) {
    function Length(): nat { |collection| + 1 + |id| }
  }

  predicate LowerOrDigit(c: char) { 'a' <= c <= 'z' || '0' <= c <= '9' || c == '_' }

  predicate IdentifierChar(c: char) {
    'A' <= c <= 'Z' || 'a' <= c <= 'z' || '0' <= c <= '9' || c == '_' || c == '-'
  }

  predicate DocumentKey(k: Key) {
    && 1 <= |k.collection| <= 48
    && 'a' <= k.collection[0] <= 'z'
    && (forall i :: 0 <= i < |k.collection| ==> LowerOrDigit(k.collection[i]))
    && 1 <= |k.id| <= 128
    && (forall i :: 0 <= i < |k.id| ==> IdentifierChar(k.id[i]))
  }

  /** What a stored value decodes to; the encoding itself is injective. */
  datatype Body = ProjectBody(project: Project) | OperationBody(operation: Operation) | NameBody(name: string)
    | OtherBody(text: string)

  /** An encoded value: its meaning, its length in bytes, and whether the bytes are valid JSON. */
  datatype Value = Value(body: Body, length: nat, json: bool)

  datatype Record = Record(version: Uint64, value: Value)

  type Records = map<Key, Record>

  datatype Check = Check(key: Key, version: Uint64)

  datatype Write = Write(key: Key, value: Value, isDelete: bool)

  datatype Durability = Unspecified | Replicated | Local | Unrecognised

  datatype Transaction = Transaction(schema: int, checks: seq<Check>, writes: seq<Write>, durability: Durability,
                                     revision: Uint64)

  /** The bytes of a log entry: an encoded transaction, or bytes that do not decode. */
  datatype Command = Command(t: Transaction, size: nat) | Malformed(size: nat)

  /** The version a reader sees for a key; an absent record reads as version zero. */
  function VersionAt(records: Records, k: Key): Uint64 {
    if k in records then records[k].version else 0
  }

  /** The record a reader sees for a key, or nothing. */
  function Lookup(records: Records, k: Key): Option<Record> {
    if k in records then Some(records[k]) else None
  }

  predicate ValidWrite(w: Write) {
    if w.isDelete then w.value.length == 0 else w.value.length <= MAX_VALUE && w.value.json
  }

  predicate DistinctChecks(checks: seq<Check>) {
    forall i, j :: 0 <= i < j < |checks| ==> checks[i].key != checks[j].key
  }

  predicate DistinctWrites(writes: seq<Write>) {
    forall i, j :: 0 <= i < j < |writes| ==> writes[i].key != writes[j].key
  }

  function CheckedKeys(checks: seq<Check>): (keys: set<Key>) {
    set i | 0 <= i < |checks| :: checks[i].key
  }

  predicate ValidChecks(checks: seq<Check>) {
    && 1 <= |checks| <= MAX_CHANGES
    && (forall i :: 0 <= i < |checks| ==> DocumentKey(checks[i].key))
    && DistinctChecks(checks)
  }

  predicate ValidWrites(writes: seq<Write>, checked: set<Key>) {
    && 1 <= |writes| <= MAX_CHANGES
    && (forall i :: 0 <= i < |writes| ==> writes[i].key in checked && ValidWrite(writes[i]))
    && DistinctWrites(writes)
  }

  /** Every key is a document key checked once, and every write is well formed, checked, and made once. */
  predicate ValidTransaction(t: Transaction) {
    t.schema == 1 && t.durability != Unrecognised && ValidChecks(t.checks)
      && ValidWrites(t.writes, CheckedKeys(t.checks))
  }

  method ValidateChecks(checks: seq<Check>) returns (ok: bool, checked: set<Key>)
    ensures ok <==> ValidChecks(checks)
    ensures ok ==> checked == CheckedKeys(checks)
  {
    checked := {};
    if |checks| == 0 || |checks| > MAX_CHANGES { return false, checked; }
    for i := 0 to |checks|
      invariant forall j :: 0 <= j < i ==> checks[j].key in checked && DocumentKey(checks[j].key)
      invariant forall k :: k in checked ==> exists j :: 0 <= j < i && checks[j].key == k
      invariant forall j, l :: 0 <= j < l < i ==> checks[j].key != checks[l].key
    {
      if !DocumentKey(checks[i].key) || checks[i].key in checked { return false, checked; }
      checked := checked + {checks[i].key};
    }
    return true, checked;
  }

  method ValidateWrites(writes: seq<Write>, checked: set<Key>) returns (ok: bool)
    ensures ok <==> ValidWrites(writes, checked)
  {
    if |writes| == 0 || |writes| > MAX_CHANGES { return false; }
    var written: set<Key> := {};
    for i := 0 to |writes|
      invariant forall j :: 0 <= j < i ==> writes[j].key in written && writes[j].key in checked && ValidWrite(writes[j])
      invariant forall k :: k in written ==> exists j :: 0 <= j < i && writes[j].key == k
      invariant forall j, l :: 0 <= j < l < i ==> writes[j].key != writes[l].key
    {
      var w := writes[i];
      if w.key !in checked || w.key in written || !ValidWrite(w) { return false; }
      written := written + {w.key};
    }
    return true;
  }

  method ValidateTransaction(t: Transaction) returns (ok: bool)
    ensures ok <==> ValidTransaction(t)
  {
    if t.schema != 1 || t.durability == Unrecognised { return false; }
    var checksOk, checked := ValidateChecks(t.checks);
    if !checksOk { return false; }
    ok := ValidateWrites(t.writes, checked);
  }
}
