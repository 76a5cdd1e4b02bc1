/** The sections of the speculative writer, told by when they succeed and what a caller then gets. */
module WriterLaws {
  import opened Wrappers
  import opened Projects
  import opened Kv
  import opened Fsm
  import opened Writer

  /* ---------- What may be acknowledged before replication ---------- */

  /** The fields of a project that a content change must leave alone. */
  predicate SamePolicy(p: Project, next: Project) {
    && next.id == p.id && next.owner == p.owner
    && next.slug == p.slug && next.initialSlug == p.initialSlug && next.initialSuffix == p.initialSuffix
    && next.aliasCount == p.aliasCount
    && next.isPrivate == p.isPrivate && next.passwordDigest == p.passwordDigest
    && next.passwordRevision == p.passwordRevision && next.policyRevision == p.policyRevision
    && next.watermarkDisabled == p.watermarkDisabled
    && next.storageApp == p.storageApp && next.storageGeneration == p.storageGeneration
  }

  /** A first publication may also set the dates, but neither add nor drop an expiry. */
  predicate SameLife(p: Project, next: Project) {
    || (next.status == p.status && next.createdAt == p.createdAt && next.expiresAt == p.expiresAt)
    || (p.status == Reserved && next.status == Active
        && (next.expiresAt == p.expiresAt || (p.expiresAt.At? && next.expiresAt.At?)))
  }

  lemma ContentExactly(p: Project, next: Project)
    ensures ContentOnlyProjectChange(p, next) <==>
              p.status != Deleted && next.status != Deleted && SamePolicy(p, next) && SameLife(p, next)
  {}

  const LONGEST_VALUE: nat := 64 * 1024

  predicate HasProject(v: Value) { v.length <= LONGEST_VALUE && v.body.ProjectBody? }

  /** A write to a project is content if it reserves a public one, or keeps the policy of the stored one. */
  ghost predicate ContentOfProject(w: Write, records: Records) {
    && HasProject(w.value) && w.key.id == w.value.body.project.id
    && var next := w.value.body.project;
       if w.key !in records || records[w.key].version == 0 then
         next.status == Reserved && !next.isPrivate && next.passwordDigest == "" && next.passwordRevision == 0
         && next.policyRevision == 1
       else
         && HasProject(records[w.key].value)
         && var stored := records[w.key].value.body.project;
            stored.status != Deleted && next.status != Deleted && SamePolicy(stored, next) && SameLife(stored, next)
  }

  /** An entry in a project's list of publications is content if the same transaction completes that publication. */
  ghost predicate ContentOfIndex(w: Write, writes: seq<Write>) {
    && w.value.length <= LONGEST_VALUE && w.value.body.NameBody?
    && exists i :: 0 <= i < |writes| && CompletesListed(writes[i], w.value.body.name, w.key)
  }

  ghost predicate CompletesListed(w: Write, id: string, listed: Key) {
    && w.key == Key("operations", id) && !w.isDelete && w.value.length <= LONGEST_VALUE && w.value.body.OperationBody?
    && var op := w.value.body.operation;
       op.id == id && op.state == Complete && listed == Key("versions_" + op.projectID, id)
  }

  /**
   Exactly these transactions may be acknowledged before replication: the caller asks for it, a project is written,
   nothing is deleted but digests, and every write is content.
   */
  lemma LocalExactly(t: Transaction, records: Records)
    ensures LocalContentAllowed(t, records) <==>
              && t.durability == Local
              && (exists i :: 0 <= i < |t.writes| && t.writes[i].key.collection == "projects")
              && (forall i :: 0 <= i < |t.writes| && t.writes[i].isDelete ==> t.writes[i].key.collection == "digests")
              && (forall i :: 0 <= i < |t.writes| && t.writes[i].key.collection == "projects" ==>
                    ContentOfProject(t.writes[i], records))
              && (forall i :: 0 <= i < |t.writes| && t.writes[i].key.collection != "projects" ==>
                    || t.writes[i].key.collection in {"operations", "digests", "slugs", "quotas", "owner_projects"}
                    || ("versions_" <= t.writes[i].key.collection && ContentOfIndex(t.writes[i], t.writes)))
  {
    hide ContentOfProject, ContentOfIndex, LocalProjectWrite, LocalIndexWrite;
    forall i | 0 <= i < |t.writes|
      ensures t.writes[i].key.collection == "projects" ==>
                (LocalProjectWrite(t.writes[i], records) <==> ContentOfProject(t.writes[i], records))
      ensures LocalIndexWrite(t.writes[i], t.writes) <==>
              "versions_" <= t.writes[i].key.collection && ContentOfIndex(t.writes[i], t.writes)
    {
      if t.writes[i].key.collection == "projects" { ProjectWriteMeans(t.writes[i], records); }
      IndexWriteMeans(t.writes[i], t.writes);
    }
  }

  lemma ProjectWriteMeans(w: Write, records: Records)
    requires w.key.collection == "projects"
    ensures LocalProjectWrite(w, records) <==> ContentOfProject(w, records)
  {
    hide SamePolicy, SameLife, ContentOnlyProjectChange;
    if HasProject(w.value) && w.key in records && HasProject(records[w.key].value) {
      ContentExactly(records[w.key].value.body.project, w.value.body.project);
    }
  }

  lemma IndexWriteMeans(w: Write, writes: seq<Write>)
    ensures LocalIndexWrite(w, writes) <==> "versions_" <= w.key.collection && ContentOfIndex(w, writes)
  {
    if w.value.body.NameBody? {
      var id := w.value.body.name;
      assert forall i :: 0 <= i < |writes| ==>
                (IndexesOperation(writes[i], id, w.key) <==> CompletesListed(writes[i], id, w.key));
    }
  }

  /* ---------- Commit ---------- */

  /** Some write lies outside the cluster's own records. */
  ghost predicate WritesUserData(t: Transaction) {
    exists i :: 0 <= i < |t.writes| && !("cluster_" <= t.writes[i].key.collection)
  }

  /** The command with the next revision of the term would be accepted by the served view. */
  ghost predicate WouldApply(w: State, t: Transaction, size: nat)
    requires Sane(w) && w.view.Some? && w.sequence < MAX_SEQUENCE
  {
    var revision := Revision(w.term, w.sequence + 1);
    Judge(w.view.value.core, Entry(revision, w.term, Command(t.(revision := revision), size))).Accepted?
  }

  /**
   A commit is taken on exactly if it is valid and current, a second voter exists or it needs none, a revision is left,
   the view would accept it, the journal and the queue have room, and the lease holds. It is then answered at once
   exactly if it may be acknowledged before replication.
   */
  lemma CommitExactly(w: State, t: Transaction, size: nat, io: CommitIO)
    requires Sane(w) && w.view.Some?
    ensures var local := LocalContentAllowed(t, w.view.value.core.records);
            !CommitStep(w, t, size, io).1.Refused? <==>
              && ValidTransaction(t) && ChecksHold(w.view.value.core.records, t.checks)
              && (local || io.voters >= 2 || !WritesUserData(t))
              && w.sequence < 0xffff_ffff && size <= 0x10_0000 && WouldApply(w, t, size)
              && |w.journal| < 64 && |w.queue| < 64 && io.journalled && io.authoritative
    ensures !CommitStep(w, t, size, io).1.Refused? ==>
              (CommitStep(w, t, size, io).1.Acknowledged? <==> LocalContentAllowed(t, w.view.value.core.records))
  {
    hide Judge, ValidTransaction, LocalContentAllowed, ChecksHold;
    assert WritesUserData(t) <==> !ClusterInternal(t);
  }

  /** A refusal for lack of voters names exactly that. */
  lemma RefusedForVoters(w: State, t: Transaction, size: nat, io: CommitIO)
    requires Sane(w) && w.view.Some? && ValidTransaction(t) && ChecksHold(w.view.value.core.records, t.checks)
    requires !LocalContentAllowed(t, w.view.value.core.records) && WritesUserData(t) && io.voters < 2
    ensures CommitStep(w, t, size, io) == (w, Refused(ErrNotLeader))
  {
    hide Judge, ValidTransaction, LocalContentAllowed, ChecksHold;
    assert !ClusterInternal(t);
  }

  /* ---------- Ensure and read ---------- */

  /** The writer serves the current term and has not failed. */
  predicate Serving(w: State, raft: RaftStatus) { w.term == raft.term && !w.failed }

  /**
   A leader may go on exactly if it serves its term under a valid lease, or it could rebuild: nothing is outstanding,
   barrier and verification succeed, the old journal is dropped and the new lease holds.
   */
  lemma EnsureExactly(w: State, raft: RaftStatus, io: RebuildIO, fsm: Replica)
    ensures EnsureStep(w, raft, io, fsm).1 == None <==>
              && !raft.fenced && raft.leader
              && (Serving(w, raft) ==> raft.authoritative)
              && (!Serving(w, raft) ==>
                    && w.outstanding == 0 && 0 < raft.term < 0x1_0000_0000 && io.barrier && io.verified
                    && io.journalReset && io.authoritative)
    ensures Serving(w, raft) || w.outstanding != 0 ==> EnsureStep(w, raft, io, fsm).0 == w
    ensures EnsureStep(w, raft, io, fsm).1 == None && !Serving(w, raft) ==>
              var next := EnsureStep(w, raft, io, fsm).0;
              && next.view == Some(fsm) && next.term == raft.term && !next.failed && next.journal == {}
              && next.sequence == (if w.term == raft.term then w.sequence else 0)
              && next.queue == w.queue && next.outstanding == 0
  {}

  /** A read is answered exactly if the leader may go on and the caller's stamp, if any, is still the current one. */
  lemma ReadExactly(w: State, raft: RaftStatus, io: RebuildIO, fsm: Replica, later: bool, keys: set<Key>,
                    stamp: Option<ReadStamp>)
    requires (w.term > 0 ==> w.view.Some?) && (Serving(w, raft) ==> w.term > 0)
    ensures var ready := (Serving(w, raft) && raft.authoritative) || EnsureStep(w, raft, io, fsm).1 == None;
            var served := if Serving(w, raft) && raft.authoritative then w else EnsureStep(w, raft, io, fsm).0;
            var r := ReadStep(w, raft, io, fsm, later, keys, stamp).1;
            && (r.Read? <==>
                  && ready && later && served.view.Some?
                  && (stamp.Some? ==> stamp.value == ReadStamp(served.term, served.view.value.index)))
            && (r.Read? ==>
                  && r.stamp == ReadStamp(served.term, served.view.value.index)
                  && forall k :: k in keys ==> Lookup(r.records, k) == Lookup(served.view.value.core.records, k))
  {}

  /* ---------- The end of a proposal ---------- */

  /**
   Success is reported if and only if Raft applied the entry and the journal forgot it; Raft's own error is passed on,
   and any failure fences the writer of that term. Nothing else changes.
   */
  lemma SettleExactly(w: State, p: Proposal, result: Option<Error>, journalled: bool)
    requires p.command.Command?
    ensures var (next, answer) := SettleStep(w, p, result, journalled);
            && (answer.None? <==> result.None? && journalled)
            && (result.Some? ==> answer == result)
            && (result.None? && !journalled ==> answer == Some(ErrStorage))
            && (next.failed <==> w.failed || (answer.Some? && w.term == p.term))
            && next == w.(outstanding := w.outstanding - 1, failed := next.failed, journal := next.journal)
            && (forall r :: r in next.journal <==>
                  r in w.journal && !(answer.None? && r == p.command.t.revision))
  {}

  /** The committer succeeds, and the preview is served, if and only if the proposal did under the same leadership. */
  lemma FinishExactly(w: State, p: Proposal, result: Option<Error>, preview: Replica, authoritative: bool)
    ensures var (next, answer) := FinishStep(w, p, result, preview, authoritative);
            && (answer.None? <==> result.None? && authoritative && w.term == p.term && !w.failed)
            && (answer.Some? ==> answer == if result.Some? then result else Some(ErrNotLeader))
            && next.view == (if answer.None? then Some(preview) else w.view)
            && (next.failed <==> w.failed || (result.None? && answer.Some? && w.term == p.term))
            && next == w.(view := next.view, failed := next.failed)
  {}
}
