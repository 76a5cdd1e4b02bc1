/**
 Which ledger transactions the repository may offer for acknowledgement before replication, judged by the change
 they make to their project.
 */
module LedgerDurability {
  import opened Wrappers
  import opened Projects
  import opened LedgerRules
  import opened LedgerInv
  import opened LedgerReserve
  import opened LedgerHistory
  import opened LedgerProgress
  import opened LedgerRuns
  import Kv
  import Tx
  import Writer

  /** A reservation changes only the content side of its project, whether the project is new or not. */
  lemma ReservationIsContent(l: Ledger, c: Limits, now: int, a: Actor, r: Reservation, offers: seq<Offer>,
                             opID: OperationId)
    requires Inv(l, c, now) && opID !in l.operations && Reserve(l, c, now, a, r, offers, opID).Ok?
    ensures var m := Reserve(l, c, now, a, r, offers, opID).value;
            && opID in m.operations && m.operations[opID].projectID in m.projects
            && ContentOnlyChange(Prior(l.projects, m.operations[opID].projectID),
                                 m.projects[m.operations[opID].projectID])
  {
    hide Inv, Reserve, Target, Targeted, Holds, VersionCharge;
    var m := Reserve(l, c, now, a, r, offers, opID).value;
    var p := ReservationHolds(l, c, now, a, r, offers, opID);
    HeldProject(l, m, a, r, opID, now, p);
    SamePlace(l, c, now, a, r, offers, opID, p);
    TargetShape(l, c, now, a, r, opID, p);
    HeldChange(l, m, a, r, opID, now, p);
  }

  lemma TargetShape(l: Ledger, c: Limits, now: int, a: Actor, r: Reservation, opID: OperationId, p: Project)
    requires Inv(l, c, now) && Target(l, now, a, r, opID) == Ok(p)
    ensures p.id in l.projects ==> p == l.projects[p.id] && p.status != Deleted
    ensures p.id !in l.projects ==>
            p.status == Reserved && !p.isPrivate && p.passwordDigest == "" && p.passwordRevision == 0
            && p.policyRevision == 1
  {
    hide Inv, ChooseSlug;
    InvIdentified(l, c, now);
  }

  lemma HeldChange(l: Ledger, m: Ledger, a: Actor, r: Reservation, opID: OperationId, now: int, p: Project)
    requires Holds(l, m, a, r, opID, now, p)
    requires p.id in l.projects ==>
             p == l.projects[p.id] && p.status != Deleted && m.projects[p.id].storageApp == p.storageApp
    requires p.id !in l.projects ==>
             p.status == Reserved && !p.isPrivate && p.passwordDigest == "" && p.passwordRevision == 0
             && p.policyRevision == 1
    ensures ContentOnlyChange(Prior(l.projects, p.id), m.projects[p.id])
  {
    hide Usable, VersionCharge;
  }

  /**
   A public activation is a content change exactly when the stored generation stays the same (and a new anonymous
   project already has an expiry, as reserved ones do): with generations in use, every activation has to wait for
   replication. A private one always has to.
   */
  lemma ActivationIsContent(l: Ledger, c: Limits, now: int, op: Operation, password: Password)
    requires Inv(l, c, now) && op.id in l.operations && op == l.operations[op.id] && op.state == Pending
             && op.projectID in l.projects
    ensures var p := l.projects[op.projectID];
            ContentOnlyProjectChange(p, Activated(p, op, password, now)) <==>
            password == Open && op.storageGeneration == p.storageGeneration
              && (op.isNew && p.owner.kind == Anonymous ==> p.expiresAt.At?)
  {
    hide Inv, PublishOk;
    PendingHere(l, c, now, op);
  }

  /* ---------- Changes of policy ---------- */

  lemma NotContent(p: Project, next: Project)
    requires PolicyOf(next) != PolicyOf(p) || next.status == Deleted
    ensures !ContentOnlyProjectChange(p, next)
  {}

  /** The project that a request of an owner, or an expiry, is about. */
  predicate ChangesPolicy(q: Request) {
    || q.DoRename? || q.DoSetPrivacy? || q.DoSetWatermark? || q.DoSelect? || q.DoTombstone? || q.DoExpire? || q.DoClaim?
       || q.DoRedeem?
  }

  function Subject(q: Request): string
    requires ChangesPolicy(q)
  {
    match q
    case DoRename(_, id, _, _, _) => id
    case DoSetPrivacy(_, id, _, _) => id
    case DoSetWatermark(_, id, _, _) => id
    case DoSelect(_, id, _, _) => id
    case DoTombstone(_, id, _) => id
    case DoExpire(id) => id
    case DoClaim(_, id, _) => id
    case DoRedeem(_, id, _) => id
  }

  /** What the request wrote is not a content change of its project. */
  ghost predicate Guarded(l: Ledger, m: Ledger, id: string) {
    id in l.projects && id in m.projects && !ContentOnlyProjectChange(l.projects[id], m.projects[id])
  }

  lemma SetPrivacyGuarded(l: Ledger, now: int, a: Actor, id: string, revision: int, password: Password)
    requires Identified(l.projects, l.operations) && SetPrivacy(l, now, a, id, revision, password).Ok?
    ensures Guarded(l, SetPrivacy(l, now, a, id, revision, password).value, id)
  {
    hide PutProject, ContentOnlyProjectChange;
    NotContent(l.projects[id], SetPrivacy(l, now, a, id, revision, password).value.projects[id]);
  }

  lemma SetWatermarkGuarded(l: Ledger, now: int, a: Actor, id: string, revision: int, enabled: bool)
    requires Identified(l.projects, l.operations)
    requires SetWatermark(l, now, a, id, revision, enabled).Ok?
             && SetWatermark(l, now, a, id, revision, enabled).value != l
    ensures Guarded(l, SetWatermark(l, now, a, id, revision, enabled).value, id)
  {
    hide PutProject, ContentOnlyProjectChange;
    NotContent(l.projects[id], SetWatermark(l, now, a, id, revision, enabled).value.projects[id]);
  }

  lemma RenameGuarded(l: Ledger, now: int, a: Actor, id: string, name: string, revision: int, hashed: string)
    requires Identified(l.projects, l.operations)
    requires Rename(l, now, a, id, name, revision, hashed).Ok?
             && Rename(l, now, a, id, name, revision, hashed).value != l
    ensures Guarded(l, Rename(l, now, a, id, name, revision, hashed).value, id)
  {
    hide PutProject, ChooseSlug, NewAlias, ContentOnlyProjectChange;
    NotContent(l.projects[id], Rename(l, now, a, id, name, revision, hashed).value.projects[id]);
  }

  lemma SelectGuarded(l: Ledger, now: int, a: Actor, id: string, opID: string, revision: int)
    requires Identified(l.projects, l.operations)
    requires SelectRevision(l, now, a, id, opID, revision).Ok?
             && SelectRevision(l, now, a, id, opID, revision).value != l
    ensures Guarded(l, SelectRevision(l, now, a, id, opID, revision).value, id)
  {
    hide PutProject, AvailableRevision, Release, ContentOnlyProjectChange;
    NotContent(l.projects[id], SelectRevision(l, now, a, id, opID, revision).value.projects[id]);
  }

  lemma DeletingGuarded(l: Ledger, p: Project)
    requires p.id in l.projects && p == l.projects[p.id] && Deleting(l, p).Ok?
    ensures Guarded(l, Deleting(l, p).value, p.id)
  {
    hide PutProject, Release, ReadQuota, ContentOnlyProjectChange;
    NotContent(p, Deleting(l, p).value.projects[p.id]);
  }

  lemma MovingGuarded(l: Ledger, c: Limits, p: Project, uid: string)
    requires p.id in l.projects && p == l.projects[p.id] && p.owner.kind == Anonymous && MoveToAccount(l, c, p, uid).Ok?
    ensures Guarded(l, MoveToAccount(l, c, p, uid).value, p.id)
  {
    hide PutProject, ReadQuota, FitsBytes, Limits.Count, Limits.Bytes, ContentOnlyProjectChange;
    NotContent(p, MoveToAccount(l, c, p, uid).value.projects[p.id]);
  }

  lemma TombstoneGuarded(l: Ledger, a: Actor, id: string, revision: int)
    requires Identified(l.projects, l.operations) && Tombstone(l, a, id, revision).Ok?
             && Tombstone(l, a, id, revision).value != l
    ensures Guarded(l, Tombstone(l, a, id, revision).value, id)
  {
    hide Deleting, Guarded;
    var closed := l.(transfers := l.transfers - {id});
    DeletingGuarded(closed, l.projects[id]);
    SameProjects(l, closed, Tombstone(l, a, id, revision).value, id);
  }

  lemma ClaimGuarded(l: Ledger, c: Limits, now: int, a: Actor, id: string, revision: int)
    requires Identified(l.projects, l.operations) && Claim(l, c, now, a, id, revision).Ok?
             && Claim(l, c, now, a, id, revision).value != l
    ensures Guarded(l, Claim(l, c, now, a, id, revision).value, id)
  {
    hide MoveToAccount, Guarded;
    MovingGuarded(l, c, l.projects[id], a.uid);
  }

  lemma RedeemGuarded(l: Ledger, c: Limits, now: int, a: Actor, id: string, digest: string)
    requires Identified(l.projects, l.operations) && Redeem(l, c, now, a, id, digest).Ok?
             && Redeem(l, c, now, a, id, digest).value != l
    ensures Guarded(l, Redeem(l, c, now, a, id, digest).value, id)
  {
    hide MoveToAccount, Guarded;
    MovingGuarded(l, c, l.projects[id], a.uid);
  }

  lemma PolicyChangesGuarded(l: Ledger, c: Limits, now: int, q: Request)
    requires Inv(l, c, now) && ChangesPolicy(q) && Perform(l, c, now, q).Ok? && Perform(l, c, now, q).value != l
    ensures Guarded(l, Perform(l, c, now, q).value, Subject(q))
  {
    hide Inv, Rename, SelectRevision, Deleting, SetPrivacy, SetWatermark, Guarded, Tombstone, Claim, Redeem;
    InvIdentified(l, c, now);
    match q {
      case DoRename(a, id, name, revision, hashed) => RenameGuarded(l, now, a, id, name, revision, hashed);
      case DoSetPrivacy(a, id, revision, password) => SetPrivacyGuarded(l, now, a, id, revision, password);
      case DoSetWatermark(a, id, revision, enabled) => SetWatermarkGuarded(l, now, a, id, revision, enabled);
      case DoSelect(a, id, opID, revision) => SelectGuarded(l, now, a, id, opID, revision);
      case DoTombstone(a, id, revision) => TombstoneGuarded(l, a, id, revision);
      case DoExpire(id) => DeletingGuarded(l, l.projects[id]);
      case DoClaim(a, id, revision) => ClaimGuarded(l, c, now, a, id, revision);
      case DoRedeem(a, id, digest) => RedeemGuarded(l, c, now, a, id, digest);
    }
  }

  /** The transaction writes a project of the new ledger over records that hold the old one. */
  ghost predicate StoresProject(t: Kv.Transaction, records: Kv.Records, l: Ledger, m: Ledger, id: string) {
    var k := Kv.Key("projects", id);
    && id in l.projects && id in m.projects && k in records && records[k].version > 0
    && Writer.DecodeProject(records[k].value) == Some(l.projects[id])
    && exists i :: 0 <= i < |t.writes| && t.writes[i].key == k
                   && Writer.DecodeProject(t.writes[i].value) == Some(m.projects[id])
  }

  lemma GuardedNeverLocal(t: Kv.Transaction, records: Kv.Records, l: Ledger, m: Ledger, id: string)
    requires Guarded(l, m, id) && StoresProject(t, records, l, m, id)
    ensures !Writer.LocalContentAllowed(t, records)
  {
    hide ContentOnlyProjectChange, Writer.DecodeProject;
    var k := Kv.Key("projects", id);
    var i :| 0 <= i < |t.writes| && t.writes[i].key == k
             && Writer.DecodeProject(t.writes[i].value) == Some(m.projects[id]);
    assert Writer.LocalContentAllowed(t, records) ==> Writer.LocalWrite(t.writes[i], t.writes, records);
  }

  /** Renaming, protecting, the watermark, selecting, deleting, expiring and moving always wait for replication. */
  lemma PolicyChangesReplicate(l: Ledger, c: Limits, now: int, q: Request, t: Kv.Transaction, records: Kv.Records)
    requires Inv(l, c, now) && ChangesPolicy(q) && Perform(l, c, now, q).Ok? && Perform(l, c, now, q).value != l
    requires StoresProject(t, records, l, Perform(l, c, now, q).value, Subject(q))
    ensures !Writer.LocalContentAllowed(t, records)
  {
    hide Inv, Perform, Guarded, StoresProject, Writer.LocalContentAllowed;
    PolicyChangesGuarded(l, c, now, q);
    GuardedNeverLocal(t, records, l, Perform(l, c, now, q).value, Subject(q));
  }

  lemma SameProjects(l: Ledger, k: Ledger, m: Ledger, id: string)
    requires k.projects == l.projects && Guarded(k, m, id)
    ensures Guarded(l, m, id)
  {}

  /* ---------- Pool records ---------- */

  /** Collections that no content transaction may write: pools, charges, removals, retirements, transfers and queues. */
  predicate Protected(k: Kv.Key) {
    || k.collection in {"storage_versions", "storage_allocations", "storage_operation_charges", "revision_removals",
                        "retirements", "transfers"}
    || "storage_gc_" <= k.collection
  }

  lemma ProtectedIsNotContent(k: Kv.Key, isDelete: bool)
    requires Protected(k)
    ensures !Tx.ContentWrite(k, isDelete)
  {
    if "storage_gc_" <= k.collection {
      assert k.collection[0] == "storage_gc_"[0] && k.collection[8] == "storage_gc_"[8];
    }
    assert k.collection[0] != 'p' && k.collection[0] != 'o' && k.collection[0] != 'd' && k.collection[0] != 'q'
           && k.collection[0] != 'v';
    assert k.collection != "slugs";
  }

  /** A transaction that writes or deletes a protected record is never acknowledged before replication. */
  lemma ProtectedNeverLocal(t: Kv.Transaction, records: Kv.Records, i: nat)
    requires i < |t.writes| && Protected(t.writes[i].key)
    ensures !Writer.LocalContentAllowed(t, records)
  {
    hide Tx.ContentWrite, Writer.LocalContentAllowed;
    ProtectedIsNotContent(t.writes[i].key, t.writes[i].isDelete);
    if Writer.LocalContentAllowed(t, records) { Tx.CoordinatorIsStricter(t, records, i); }
  }

  ghost predicate WritesVersion(t: Kv.Transaction) {
    exists i :: 0 <= i < |t.writes| && t.writes[i].key.collection == "storage_versions"
  }

  ghost predicate WritesQueue(t: Kv.Transaction) {
    exists i :: 0 <= i < |t.writes| && "storage_gc_" <= t.writes[i].key.collection
  }

  /** A command that turns one ledger into another writes every kind of pool record that differs. */
  ghost predicate Carries(t: Kv.Transaction, l: Ledger, m: Ledger) {
    (m.versions != l.versions ==> WritesVersion(t)) && (m.queue != l.queue ==> WritesQueue(t))
  }

  lemma PoolChangeReplicates(t: Kv.Transaction, records: Kv.Records, l: Ledger, m: Ledger)
    requires Carries(t, l, m) && (m.versions != l.versions || m.queue != l.queue)
    ensures !Writer.LocalContentAllowed(t, records)
  {
    hide Writer.LocalContentAllowed;
    if m.versions != l.versions {
      var i :| 0 <= i < |t.writes| && t.writes[i].key.collection == "storage_versions";
      ProtectedNeverLocal(t, records, i);
    } else {
      var i :| 0 <= i < |t.writes| && "storage_gc_" <= t.writes[i].key.collection;
      ProtectedNeverLocal(t, records, i);
    }
  }

  /** Every first reservation with measured storage charges a version, so it waits for replication. */
  lemma ReservationReplicates(l: Ledger, c: Limits, now: int, a: Actor, r: Reservation, offers: seq<Offer>,
                              opID: OperationId,
                              t: Kv.Transaction, records: Kv.Records)
    requires Inv(l, c, now) && opID !in l.operations && Reserve(l, c, now, a, r, offers, opID).Ok?
    requires Carries(t, l, Reserve(l, c, now, a, r, offers, opID).value)
    ensures !Writer.LocalContentAllowed(t, records)
  {
    hide Inv, Target, DigestBlocked, QuotaAfter, Allocate, Booked, ValidReservation, Evolves, Targeted, Granted,
      Writer.LocalContentAllowed, Carries;
    var p := Target(l, now, a, r, opID).value;
    var q := QuotaAfter(l.quotas, c, p, r.projectID == "", VersionCharge(r.bytes)).value;
    var grant := Allocate(l, p, r, offers, opID);
    ReserveFacts(l, c, now, a, r, offers, opID, p);
    BookedEvolves(l, c, now, a, r, p, opID, q, grant);
    GrantCharges(l, p, r, opID, grant.id, grant.version, grant.allocation);
    PoolChangeReplicates(t, records, l, Reserve(l, c, now, a, r, offers, opID).value);
  }

  lemma GrantCharges(l: Ledger, p: Project, r: Reservation, opID: string, id: VersionId, v: Version, a: Allocation)
    requires Granted(l, p, r, opID, id, v, a)
    ensures l.versions[id := v] != l.versions
  {
    hide StorageOk, MeasuredOk;
    assert id in l.versions ==> v.quotaBytes != l.versions[id].quotaBytes;
    assert l.versions[id := v][id] == v;
  }

  /** Every activation takes its version from the maintenance queue, so it waits for replication too. */
  lemma ActivationReplicates(l: Ledger, c: Limits, now: int, a: Actor, opID: string, password: Password,
                             t: Kv.Transaction, records: Kv.Records)
    requires Inv(l, c, now) && PendingQueued(l) && opID in l.operations && l.operations[opID].state == Pending
    requires Activate(l, now, a, opID, password).Ok? && Carries(t, l, Activate(l, now, a, opID, password).value)
    ensures !Writer.LocalContentAllowed(t, records)
  {
    hide Inv, Install, Usable, PendingQueued, Carries, Writer.LocalContentAllowed;
    InvIdentified(l, c, now);
    var op := l.operations[opID];
    InstallUnqueues(l, c, now, l.projects[op.projectID], op, password);
    PoolChangeReplicates(t, records, l, Activate(l, now, a, opID, password).value);
  }

  lemma InstallUnqueues(l: Ledger, c: Limits, now: int, p: Project, op: Operation, password: Password)
    requires Inv(l, c, now) && PendingQueued(l) && op.id in l.operations && op == l.operations[op.id]
             && op.state == Pending
    requires op.projectID in l.projects && p == l.projects[op.projectID] && Install(l, now, p, op, password).Ok?
    ensures Install(l, now, p, op, password).value.queue != l.queue
  {
    hide Inv, Release, Activated, ServingOk, PendingOk, PublishOk, LegacyFree, QueueKept, IndexAfter, LiveAfter;
    PendingPlace(l, c, now, op.id);
    PlacedHere(l, c, now, op.projectID);
    PendingHere(l, c, now, op);
    ActivatedCurrent(p, op, password, now);
    PublishedDigest(op, l);
    assert (p.storageApp, VersionOfOperation(op)) in l.queue;
    assert (p.storageApp, VersionOfOperation(op)) !in Install(l, now, p, op, password).value.queue;
  }

  lemma PublishedDigest(op: Operation, l: Ledger)
    requires PublishOk(op, l.versions, l.removals)
    ensures op.digest != ""
  {}

  lemma ActivatedCurrent(p: Project, op: Operation, password: Password, now: int)
    requires op.projectID == p.id
    ensures var next := Activated(p, op, password, now);
            && CurrentVersion(next) == VersionOfOperation(op) && next.id == p.id && next.storageApp == p.storageApp
            && next.status == Active && next.pendingOperation == "" && next.activeDigest == op.digest
  {}

  /** In every run from a ledger whose pending versions are queued, no command of a publication is local. */
  lemma PublicationReplicates(stages: seq<Stage>, requests: seq<Request>, c: Limits, i: nat, t: Kv.Transaction,
                              records: Kv.Records)
    requires IsRun(stages, requests, c) && i < |requests| && PendingQueued(stages[0].ledger)
    requires || (requests[i].DoReserve? && requests[i].op !in stages[i].ledger.operations)
             || (requests[i].DoActivate? && requests[i].opID in stages[i].ledger.operations
                 && stages[i].ledger.operations[requests[i].opID].state == Pending)
    requires Perform(stages[i].ledger, c, stages[i + 1].now, requests[i]).Ok?
             && Carries(t, stages[i].ledger, stages[i + 1].ledger)
    ensures !Writer.LocalContentAllowed(t, records)
  {
    hide Inv, Reserve, Activate, Carries, PendingQueued, Writer.LocalContentAllowed;
    var l, now := stages[i].ledger, stages[i + 1].now;
    RunInv(stages, requests, c, i);
    Later(l, c, stages[i].now, now);
    RunPendingQueued(stages, requests, c, i);
    match requests[i] {
      case DoReserve(a, r, offers, op) => ReservationReplicates(l, c, now, a, r, offers, op, t, records);
      case DoActivate(a, opID, password) => ActivationReplicates(l, c, now, a, opID, password, t, records);
    }
  }

  /** The empty ledger is such a start. */
  lemma EmptyPendingQueued()
    ensures PendingQueued(EMPTY)
  {}
}
