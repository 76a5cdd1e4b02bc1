/**
 The leader's speculative writer. The step functions say what each section that
 holds the writer's lock does to its fields; the class performs those sections.
 */
module Writer {
  import opened Wrappers
  import opened Projects
  import opened Kv
  import opened Fsm

  const MAX_PENDING: nat := 64
  const MAX_SEQUENCE: nat := 0xffff_ffff

  /* ---------- Which transactions may be acknowledged before replication ---------- */

  function DecodeProject(v: Value): Option<Project> {
    if v.length <= MAX_VALUE && v.body.ProjectBody? then Some(v.body.project) else None
  }

  function DecodeOperation(v: Value): Option<Operation> {
    if v.length <= MAX_VALUE && v.body.OperationBody? then Some(v.body.operation) else None
  }

  function DecodeName(v: Value): Option<string> {
    if v.length <= MAX_VALUE && v.body.NameBody? then Some(v.body.name) else None
  }

  const CONTENT_COLLECTIONS: set<string> := {"operations", "digests", "slugs", "quotas", "owner_projects"}

  predicate IndexesOperation(candidate: Write, id: string, indexKey: Key) {
    && candidate.key == Key("operations", id)
    && !candidate.isDelete
    && var op := DecodeOperation(candidate.value);
       op.Some? && op.value.id == id && op.value.state == Complete
         && indexKey == Key("versions_" + op.value.projectID, id)
  }

  predicate LocalProjectWrite(w: Write, records: Records) {
    var next := DecodeProject(w.value);
    && next.Some?
    && w.key == Key("projects", next.value.id)
    && (if VersionAt(records, w.key) == 0 then ContentOnlyChange(Absent, next.value)
        else
          var prior := DecodeProject(records[w.key].value);
          prior.Some? && ContentOnlyChange(Present(prior.value), next.value))
  }

  predicate LocalIndexWrite(w: Write, writes: seq<Write>) {
    && "versions_" <= w.key.collection
    && var id := DecodeName(w.value);
       id.Some? && exists i :: 0 <= i < |writes| && IndexesOperation(writes[i], id.value, w.key)
  }

  predicate LocalWrite(w: Write, writes: seq<Write>, records: Records) {
    && (w.isDelete ==> w.key.collection == "digests")
    && (if w.key.collection == "projects" then LocalProjectWrite(w, records)
        else w.key.collection in CONTENT_COLLECTIONS || LocalIndexWrite(w, writes))
  }

  /** A hint cannot downgrade security fields, unknown collections or deletions. */
  predicate LocalContentAllowed(t: Transaction, records: Records) {
    && t.durability == Local
    && (exists i :: 0 <= i < |t.writes| && t.writes[i].key.collection == "projects")
    && (forall i :: 0 <= i < |t.writes| ==> LocalWrite(t.writes[i], t.writes, records))
  }

  method MatchesOperation(w: Write, writes: seq<Write>) returns (matched: bool)
    ensures matched <==> LocalIndexWrite(w, writes)
  {
    var id := DecodeName(w.value);
    if !("versions_" <= w.key.collection) || id.None? { return false; }
    matched := false;
    for i := 0 to |writes|
      invariant matched <==> exists j :: 0 <= j < i && IndexesOperation(writes[j], id.value, w.key)
    {
      if IndexesOperation(writes[i], id.value, w.key) { matched := true; }
    }
  }

  method DecideLocal(t: Transaction, records: Records) returns (local: bool)
    ensures local <==> LocalContentAllowed(t, records)
  {
    if t.durability != Local { return false; }
    var found := false;
    for i := 0 to |t.writes|
      invariant found <==> exists j :: 0 <= j < i && t.writes[j].key.collection == "projects"
      invariant forall j :: 0 <= j < i ==> LocalWrite(t.writes[j], t.writes, records)
    {
      var w := t.writes[i];
      if w.isDelete && w.key.collection != "digests" { return false; }
      if w.key.collection == "projects" {
        if !LocalProjectWrite(w, records) { return false; }
        found := true;
      } else if w.key.collection !in CONTENT_COLLECTIONS {
        var matched := MatchesOperation(w, t.writes);
        if !matched { return false; }
      }
    }
    return found;
  }

  /* ---------- Lock-protected sections as functions of the writer's fields ---------- */

  datatype Proposal = Proposal(command: Command, term: Uint64)

  /** `view` is the speculative state served to clients, with the index its read stamps carry. */
  datatype State = State(
    view: Option<Replica>,
    term: Uint64,
    sequence: Uint64,
    failed: bool,
    outstanding: int,
    journal: set<Uint64>,
    queue: seq<Proposal>)

  const INITIAL: State := State(None, 0, 0, false, 0, {}, [])

  /** What Raft reports at the start of a section. `authoritative` is the two-clock lease test. */
  datatype RaftStatus = RaftStatus(fenced: bool, leader: bool, term: Uint64, authoritative: bool)

  /** The outcomes of the I/O that a rebuild performs, in order. */
  datatype RebuildIO = RebuildIO(barrier: bool, verified: bool, journalReset: bool, authoritative: bool)

  datatype CommitIO = CommitIO(voters: nat, journalled: bool, authoritative: bool)

  datatype CommitOutcome = Refused(error: Error) | Acknowledged | Waiting(proposal: Proposal, preview: Replica)

  function Revision(term: Uint64, sequence: Uint64): (r: Uint64)
    requires term <= MAX_SEQUENCE && sequence <= MAX_SEQUENCE
    ensures TermOf(r) == term && SequenceOf(r) == sequence
  {
    term * 0x1_0000_0000 + sequence
  }

  predicate Sane(w: State) { w.term <= MAX_SEQUENCE && w.sequence <= MAX_SEQUENCE }

  function Rebuilt(w: State, term: Uint64, fsm: Replica): State {
    w.(view := Some(fsm), term := term, sequence := if w.term != term then 0
       else w.sequence, failed := false, journal := {})
  }

  function EnsureStep(w: State, raft: RaftStatus, io: RebuildIO, fsm: Replica): (State, Option<Error>) {
    if raft.fenced || !raft.leader then (w, Some(ErrNotLeader))
    else if w.term == raft.term && !w.failed then (w, if raft.authoritative then None else Some(ErrNotLeader))
    else if w.outstanding != 0 then (w, Some(ErrNotLeader))
    else if raft.term == 0 || raft.term > MAX_SEQUENCE then (w, Some(ErrCapacity))
    else if !io.barrier || !io.verified then (w, Some(ErrNotLeader))
    else if !io.journalReset then (w, Some(ErrStorage))
    else (Rebuilt(w, raft.term, fsm), if io.authoritative then None else Some(ErrNotLeader))
  }

  predicate ClusterInternal(t: Transaction) {
    forall i :: 0 <= i < |t.writes| ==> "cluster_" <= t.writes[i].key.collection
  }

  /** The command that a commit proposes: the next revision of the term is written into the transaction. */
  function Proposed(w: State, t: Transaction, size: nat): Proposal
    requires Sane(w) && w.sequence < MAX_SEQUENCE
  {
    Proposal(Command(t.(revision := Revision(w.term, w.sequence + 1)), size), w.term)
  }

  /** Journals a previewed proposal and hands it to the worker; a local one is served at once. */
  function EnqueueStep(w: State, p: Proposal, preview: Replica, local: bool, io: CommitIO): (State, CommitOutcome)
    requires p.command.Command?
  {
    if |w.journal| >= MAX_PENDING then (w, Refused(ErrCapacity))
    else if !io.journalled then (w, Refused(ErrStorage))
    else
      var journalled := w.(journal := w.journal + {p.command.t.revision});
      if !io.authoritative then (journalled.(failed := true), Refused(ErrNotLeader))
      else if |w.queue| >= MAX_PENDING then (journalled.(failed := true), Refused(ErrCapacity))
      else
        var queued := journalled.(queue := w.queue + [p], outstanding := w.outstanding + 1);
        if local then (queued.(view := Some(preview)), Acknowledged) else (queued, Waiting(p, preview))
  }

  ghost function CommitStep(w: State, t: Transaction, size: nat, io: CommitIO): (State, CommitOutcome)
    requires Sane(w) && w.view.Some?
  {
    var core := w.view.value.core;
    var local := LocalContentAllowed(t, core.records);
    if !ValidTransaction(t) then (w, Refused(ErrInvalid))
    else if !ChecksHold(core.records, t.checks) then (w, Refused(ErrConflict))
    else if !local && io.voters < 2 && !ClusterInternal(t) then (w, Refused(ErrNotLeader))
    else if w.sequence >= MAX_SEQUENCE then (w, Refused(ErrCapacity))
    else
      var p := Proposed(w, t, size);
      var revision := p.command.t.revision;
      var numbered := w.(sequence := w.sequence + 1);
      if size > MAX_COMMAND then (numbered, Refused(ErrCapacity))
      else
        match Judge(core, Entry(revision, w.term, p.command))
        case Rejected(error) => (numbered, Refused(error))
        case Accepted(next) => EnqueueStep(numbered, p, Replica(next, revision), local, io)
  }

  /** The committer wakes up with the result of its proposal. */
  function FinishStep(w: State, p: Proposal, result: Option<Error>, preview: Replica, authoritative: bool)
    : (State, Option<Error>)
  {
    if result.Some? then (w, result)
    else if !authoritative || w.term != p.term || w.failed then
      (if w.term == p.term then w.(failed := true) else w, Some(ErrNotLeader))
    else (w.(view := Some(preview)), None)
  }

  function CancelStep(w: State): State { w.(failed := true) }

  predicate TakeValid(w: State, p: Proposal, authoritative: bool) { w.term == p.term && !w.failed && authoritative }

  function TakeStep(w: State): State
    requires w.queue != []
  {
    w.(queue := w.queue[1..])
  }

  /** The worker records the fate of the proposal it took. */
  function SettleStep(w: State, p: Proposal, result: Option<Error>, journalled: bool): (State, Option<Error>)
    requires p.command.Command?
  {
    var final := if result == None && !journalled then Some(ErrStorage) else result;
    var settled := w.(outstanding := w.outstanding - 1,
                      journal := if final == None then w.journal - {p.command.t.revision} else w.journal);
    (if final.Some? && w.term == p.term then settled.(failed := true) else settled, final)
  }

  datatype ReadStamp = ReadStamp(term: Uint64, index: Uint64)

  datatype ReadOutcome = ReadFailed(error: Error) | Read(records: Records, stamp: ReadStamp)

  /** `later` is the lease test repeated after the shared lock is taken. */
  function ReadStep(w: State, raft: RaftStatus, io: RebuildIO, fsm: Replica, later: bool, keys: set<Key>,
                    stamp: Option<ReadStamp>)
    : (State, ReadOutcome)
    requires w.term > 0 ==> w.view.Some?
  {
    var (served, err) := if w.term != raft.term || w.failed || !raft.authoritative then EnsureStep(w, raft, io, fsm)
      else (w, None);
    if err.Some? then (served, ReadFailed(err.value))
    else if served.failed || !later || served.view.None? then (served, ReadFailed(ErrNotLeader))
    else
      var current := ReadStamp(served.term, served.view.value.index);
      if stamp.Some? && stamp.value != current then (served, ReadFailed(ErrConflict))
      else (served, Read(map k | k in keys && k in served.view.value.core.records ::
                         served.view.value.core.records[k], current))
  }

  /* ---------- The mutable writer ---------- */

  class AsyncWriter {
    var view: MetadataState?
    var term: Uint64
    var sequence: Uint64
    var failed: bool
    var outstanding: int
    var journal: set<Uint64>
    var queue: seq<Proposal>

    ghost predicate Valid() reads this, view {
      (view != null ==> view.Valid()) && Sane(Model())
    }

    ghost function Model(): State reads this, view {
      State(if view == null then None
            else Some(Replica(view.Contents(), view.index)), term, sequence, failed, outstanding, journal, queue)
    }

    constructor ()
      ensures Valid() && Model() == INITIAL
    {
      view, term, sequence, failed, outstanding, journal, queue := null, 0, 0, false, 0, {}, [];
    }

    /** Establishes a committed baseline once per term, or again after a failure. */
    method Ensure(raft: RaftStatus, io: RebuildIO, fsm: MetadataState) returns (err: Option<Error>)
      requires Valid() && fsm.Valid()
      modifies this
      ensures Valid() && (view == old(view) || fresh(view))
      ensures (Model(), err) == EnsureStep(old(Model()), raft, io, Replica(fsm.Contents(), fsm.index))
    {
      if raft.fenced || !raft.leader { return Some(ErrNotLeader); }
      if term == raft.term && !failed {
        return if raft.authoritative then None else Some(ErrNotLeader);
      }
      if outstanding != 0 { return Some(ErrNotLeader); }
      if raft.term == 0 || raft.term > MAX_SEQUENCE { return Some(ErrCapacity); }
      if !io.barrier || !io.verified { return Some(ErrNotLeader); }
      var baseline := new MetadataState.Fork(fsm);
      if !io.journalReset { return Some(ErrStorage); }
      journal := {};
      view := baseline;
      if term != raft.term { sequence := 0; }
      term := raft.term;
      failed := false;
      return if io.authoritative then None else Some(ErrNotLeader);
    }

    method ChecksPass(checks: seq<Check>) returns (ok: bool)
      requires view != null
      ensures ok <==> ChecksHold(view.records, checks)
    {
      for i := 0 to |checks|
        invariant forall j :: 0 <= j < i ==> VersionAt(view.records, checks[j].key) == checks[j].version
      {
        if VersionAt(view.records, checks[i].key) != checks[i].version { return false; }
      }
      return true;
    }

    method Internal(t: Transaction) returns (internal: bool)
      ensures internal <==> ClusterInternal(t)
    {
      internal := true;
      for i := 0 to |t.writes|
        invariant internal <==> forall j :: 0 <= j < i ==> "cluster_" <= t.writes[j].key.collection
      {
        if !("cluster_" <= t.writes[i].key.collection) { internal := false; }
      }
    }

    method Enqueue(p: Proposal, preview: MetadataState, local: bool, io: CommitIO) returns (r: CommitOutcome)
      requires Valid() && preview.Valid() && p.command.Command?
      modifies this
      ensures Valid() && (view == old(view) || view == preview)
      ensures (Model(), r) == EnqueueStep(old(Model()), p, Replica(preview.Contents(), preview.index), local, io)
    {
      if |journal| >= MAX_PENDING { return Refused(ErrCapacity); }
      if !io.journalled { return Refused(ErrStorage); }
      journal := journal + {p.command.t.revision};
      if !io.authoritative { failed := true; return Refused(ErrNotLeader); }
      if |queue| >= MAX_PENDING { failed := true; return Refused(ErrCapacity); }
      queue, outstanding := queue + [p], outstanding + 1;
      if local {
        view := preview;
        return Acknowledged;
      }
      return Waiting(p, Replica(Core(preview.records, preview.versionCeiling, preview.historyDigest), preview.index));
    }

    /** The first locked section of a commit, after Ensure: everything up to the wait for replication. */
    method Commit(t: Transaction, size: nat, io: CommitIO) returns (r: CommitOutcome)
      requires Valid() && view != null
      modifies this
      ensures Valid() && (view == old(view) || fresh(view))
      ensures (Model(), r) == CommitStep(old(Model()), t, size, io)
    {
      hide ValidTransaction, LocalContentAllowed, ChecksHold, ClusterInternal, TermOf, SequenceOf;
      var valid := ValidateTransaction(t);
      if !valid { return Refused(ErrInvalid); }
      var current := ChecksPass(t.checks);
      if !current { return Refused(ErrConflict); }
      var local := DecideLocal(t, view.records);
      var internal := Internal(t);
      if !local && io.voters < 2 && !internal { return Refused(ErrNotLeader); }
      if sequence >= MAX_SEQUENCE { return Refused(ErrCapacity); }
      sequence := sequence + 1;
      var revision := Revision(term, sequence);
      var p := Proposal(Command(t.(revision := revision), size), term);
      if size > MAX_COMMAND { return Refused(ErrCapacity); }
      var preview := new MetadataState.Fork(view);
      var result := preview.Apply(Entry(revision, term, p.command));
      if result.Some? { return Refused(result.value); }
      r := Enqueue(p, preview, local, io);
    }

    /** The second locked section of a replicated commit; `preview` is the fork made by the first one. */
    method Finish(p: Proposal, result: Option<Error>, preview: MetadataState,
                  authoritative: bool) returns (err: Option<Error>)
      requires Valid() && preview.Valid()
      modifies this
      ensures Valid() && (view == old(view) || view == preview)
      ensures (Model(), err) ==
              FinishStep(old(Model()), p, result, Replica(preview.Contents(), preview.index), authoritative)
    {
      if result.Some? { return result; }
      if !authoritative || term != p.term || failed {
        if term == p.term { failed := true; }
        return Some(ErrNotLeader);
      }
      view := preview;
      return None;
    }

    /** The request deadline passes while the outcome is unknown. */
    method Cancel()
      requires Valid()
      modifies this`failed
      ensures Valid() && Model() == CancelStep(old(Model()))
    {
      failed := true;
    }

    method Take(authoritative: bool) returns (p: Proposal, valid: bool)
      requires Valid() && queue != []
      modifies this`queue
      ensures Valid() && Model() == TakeStep(old(Model())) && p == old(queue)[0]
              && valid == TakeValid(old(Model()), p, authoritative)
    {
      p, queue := queue[0], queue[1..];
      valid := term == p.term && !failed && authoritative;
    }

    method Settle(p: Proposal, result: Option<Error>, journalled: bool) returns (final: Option<Error>)
      requires Valid() && p.command.Command?
      modifies this`outstanding, this`journal, this`failed
      ensures Valid() && (Model(), final) == SettleStep(old(Model()), p, result, journalled)
    {
      outstanding := outstanding - 1;
      final := result;
      if final == None {
        if journalled { journal := journal - {p.command.t.revision}; } else { final := Some(ErrStorage); }
      }
      if final.Some? && term == p.term { failed := true; }
    }

    method ReadSnapshot(raft: RaftStatus, io: RebuildIO, fsm: MetadataState, later: bool, keys: set<Key>,
                        stamp: Option<ReadStamp>)
      returns (r: ReadOutcome)
      requires Valid() && fsm.Valid() && (term > 0 ==> view != null)
      modifies this
      ensures Valid() && (view == old(view) || fresh(view))
      ensures (Model(), r) == ReadStep(old(Model()), raft, io, Replica(fsm.Contents(), fsm.index), later, keys, stamp)
    {
      if term != raft.term || failed || !raft.authoritative {
        var err := Ensure(raft, io, fsm);
        if err.Some? { return ReadFailed(err.value); }
      }
      if failed || !later || view == null { return ReadFailed(ErrNotLeader); }
      var current := ReadStamp(term, view.index);
      if stamp.Some? && stamp.value != current { return ReadFailed(ErrConflict); }
      return Read(map k | k in keys && k in view.records :: view.records[k], current);
    }
  }
}
