/** How records change from one state of the ledger to the next, and therefore over a whole run. */
module LedgerHistory {
  import opened Projects
  import opened LedgerRules
  import opened LedgerInv
  import opened LedgerSteps
  import opened LedgerPublish
  import opened LedgerStorage
  import opened LedgerReserve
  import opened LedgerRuns
  import F = Footprint
  import B = FootprintBounds
  import O = Ordering

  ghost predicate ProjectEvolves(p: Project, next: Project) {
    next.id == p.id && next.storageApp == p.storageApp && (p.status == Deleted ==> next.status == Deleted)
  }

  /** An operation is settled once, and never changes what it publishes. */
  ghost predicate OperationEvolves(op: Operation, next: Operation) {
    VersionOfOperation(next) == VersionOfOperation(op) && next.isNew == op.isNew && (op.state != Pending ==> next == op)
  }

  /** Nothing is forgotten: projects, operations, removals and the names of projects. */
  ghost predicate Evolves(l: Ledger, m: Ledger) {
    && (forall id :: id in l.projects ==> id in m.projects && ProjectEvolves(l.projects[id], m.projects[id]))
    && (forall o :: o in l.operations ==> o in m.operations && OperationEvolves(l.operations[o], m.operations[o]))
    && l.removals <= m.removals
    && (forall id :: id in l.projects ==> NamesAt(l.names, id) <= NamesAt(m.names, id))
  }

  /** A version leaves the queue only while its project is idle. */
  ghost predicate QueueStays(l: Ledger, m: Ledger) {
    forall x ::
      x in l.queue && x !in m.queue ==> x.1.project in m.projects && m.projects[x.1.project].pendingOperation == ""
  }

  /** No version changes, no reserve appears, and the queue keeps what is pending. */
  ghost predicate Steady(l: Ledger, m: Ledger) {
    && m.versions == l.versions && m.operations.Keys == l.operations.Keys
    && (LegacyFree(l.allocations) ==> LegacyFree(m.allocations))
    && QueueStays(l, m)
  }

  /** Beyond that, no publication is marked as removed and no name is taken. */
  ghost predicate Follows(l: Ledger, m: Ledger) {
    && Evolves(l, m) && Steady(l, m) && m.removals == l.removals
    && (forall s :: s in m.slugs ==> s in l.slugs && m.slugs[s] == l.slugs[s])
  }

  lemma Still(l: Ledger)
    ensures Evolves(l, l) && Steady(l, l) && Follows(l, l)
  {}

  lemma PutEvolves(l: Ledger, before: Ledger, next: Project)
    requires PutProject(before, next).Ok? && before.projects == l.projects && l.removals <= before.removals
    requires forall id :: id in l.projects ==> NamesAt(l.names, id) <= NamesAt(before.names, id)
    requires OperationsEvolve(l.operations, before.operations)
    requires next.id in l.projects ==> ProjectEvolves(l.projects[next.id], next)
    ensures Evolves(l, PutProject(before, next).value)
  {
    hide PutProject, OperationEvolves;
  }

  lemma PutSteady(l: Ledger, before: Ledger, next: Project)
    requires PutProject(before, next).Ok? && before.versions == l.versions && before.allocations == l.allocations
             && l.queue <= before.queue
    requires before.operations.Keys == l.operations.Keys
    ensures Steady(l, PutProject(before, next).value)
  {
    hide PutProject, LegacyFree;
  }

  lemma PutFollows(l: Ledger, before: Ledger, next: Project)
    requires PutProject(before, next).Ok? && before.projects == l.projects && before.removals == l.removals
             && before.names == l.names
    requires before.versions == l.versions && before.allocations == l.allocations && before.queue == l.queue
    requires forall s :: s in before.slugs ==> s in l.slugs && before.slugs[s] == l.slugs[s]
    requires OperationsEvolve(l.operations, before.operations) && before.operations.Keys == l.operations.Keys
    requires next.id in l.projects ==> ProjectEvolves(l.projects[next.id], next)
    ensures Follows(l, PutProject(before, next).value)
  {
    hide PutProject, Evolves, Steady, OperationsEvolve, ProjectEvolves;
    PutEvolves(l, before, next);
    PutSteady(l, before, next);
  }

  ghost predicate OperationsEvolve(a: OperationMap, b: OperationMap) {
    forall o :: o in a ==> o in b && OperationEvolves(a[o], b[o])
  }

  lemma Unsettled(operations: OperationMap)
    ensures OperationsEvolve(operations, operations)
  {}

  lemma Settled(operations: OperationMap, op: Operation)
    requires op.id in operations ==> OperationEvolves(operations[op.id], op)
    ensures OperationsEvolve(operations, operations[op.id := op])
  {}

  /** Nothing but records outside the history changed. */
  lemma Frame(l: Ledger, m: Ledger)
    requires m == l.(transfers := m.transfers, allocations := m.allocations)
    requires LegacyFree(l.allocations) ==> LegacyFree(m.allocations)
    ensures Follows(l, m)
  {}

  /* ---------- One lemma per transaction ---------- */

  lemma SetPrivacyEvolves(l: Ledger, now: int, a: Actor, id: string, revision: int, password: Password)
    requires Identified(l.projects, l.operations) && SetPrivacy(l, now, a, id, revision, password).Ok?
    ensures Follows(l, SetPrivacy(l, now, a, id, revision, password).value)
  {
    hide PutProject, Follows, OperationsEvolve;
    var p := l.projects[id];
    Unsettled(l.operations);
    PutFollows(l, l, p.(isPrivate := password.Protected?,
                        passwordDigest := if password.Protected? then password.digest else "",
                        passwordRevision := if password.Protected? then password.revision else 0,
                        revision := p.revision + 1, policyRevision := p.policyRevision + 1));
  }

  lemma SetWatermarkEvolves(l: Ledger, now: int, a: Actor, id: string, revision: int, enabled: bool)
    requires Identified(l.projects, l.operations) && SetWatermark(l, now, a, id, revision, enabled).Ok?
    ensures Follows(l, SetWatermark(l, now, a, id, revision, enabled).value)
  {
    hide PutProject, Follows, OperationsEvolve;
    var p := l.projects[id];
    Still(l);
    Unsettled(l.operations);
    if p.watermarkDisabled != !enabled {
      PutFollows(l, l, p.(watermarkDisabled := !enabled, revision := p.revision + 1, updatedAt := now));
    }
  }

  lemma RenameEvolves(l: Ledger, now: int, a: Actor, id: string, name: string, revision: int, hashed: string)
    requires Identified(l.projects, l.operations) && Rename(l, now, a, id, name, revision, hashed).Ok?
    ensures var m := Rename(l, now, a, id, name, revision, hashed).value;
            Evolves(l, m) && Steady(l, m) && m.removals == l.removals
  {
    hide PutProject, ChooseSlug, NewAlias, Evolves, Steady, OperationsEvolve;
    var p := l.projects[id];
    var choice := ChooseSlug(l, name, RenameSeed(p, hashed), id, SUFFIX_LENGTHS).value;
    Still(l);
    Unsettled(l.operations);
    if choice.slug != p.slug {
      var isNew := NewAlias(l, id, choice.slug);
      var before := if isNew then WithName(l, id, choice.slug) else l;
      PutEvolves(l, before, Renamed(p, choice, isNew));
      PutSteady(l, before, Renamed(p, choice, isNew));
    }
  }

  lemma DeletesEvolve(l: Ledger, p: Project)
    requires Identified(l.projects, l.operations) && p.id in l.projects && p == l.projects[p.id] && Deleting(l, p).Ok?
    ensures Follows(l, Deleting(l, p).value)
  {
    hide PutProject, Follows, OperationsEvolve;
    Unsettled(l.operations);
    var q := ReadQuota(l.quotas, p.owner).value;
    PutFollows(l, l.(quotas := l.quotas[p.owner := q.(count := q.count - 1)],
                     digests := Release(l.digests, p.activeDigest, p.id)),
               p.(status := Deleted, revision := p.revision + 1, policyRevision := p.policyRevision + 1));
  }

  lemma MovesEvolve(l: Ledger, c: Limits, p: Project, uid: string)
    requires Identified(l.projects, l.operations) && p.id in l.projects && p == l.projects[p.id]
             && MoveToAccount(l, c, p, uid).Ok?
    ensures Follows(l, MoveToAccount(l, c, p, uid).value)
  {
    hide PutProject, Follows, OperationsEvolve;
    Unsettled(l.operations);
    var account := Owner.Owner(Firebase, uid);
    var from, to := l.quotas[p.owner], QuotaAt(l.quotas, account);
    var quotas :=
      l.quotas[p.owner := Quota(from.count - 1, from.charged - p.chargedBytes)]
              [account := Quota(to.count + 1, to.charged + p.chargedBytes)];
    PutFollows(l, l.(quotas := quotas, transfers := l.transfers - {p.id}),
               p.(owner := account, expiresAt := Never, revision := p.revision + 1));
  }

  lemma InstallEvolves(l: Ledger, now: int, p: Project, op: Operation, password: Password)
    requires p.id in l.projects && p == l.projects[p.id] && p.status != Deleted && op.id in l.operations
             && op == l.operations[op.id] && op.state == Pending
    requires Install(l, now, p, op, password).Ok?
    ensures Follows(l, Install(l, now, p, op, password).value)
  {
    hide PutProject, Follows, OperationsEvolve, OperationEvolves, ProjectEvolves, Release, Activated;
    var done := op.(state := Complete, publishedAt := now);
    var released := if p.activeDigest != "" && p.activeDigest != op.digest then Release(l.digests, p.activeDigest, p.id)
      else l.digests;
    SettledBy(op, done);
    ActivatedEvolves(p, op, password, now);
    Settled(l.operations, done);
    PutFollows(l, l.(operations := l.operations[op.id := done],
                     digests := released[op.digest := DigestRecord(p.id, "")]), Activated(p, op, password, now));
  }

  lemma SettledBy(op: Operation, done: Operation)
    requires op.state == Pending && done == op.(state := done.state, publishedAt := done.publishedAt)
    ensures OperationEvolves(op, done)
  {}

  lemma ActivatedEvolves(p: Project, op: Operation, password: Password, now: int)
    requires p.status != Deleted
    ensures ProjectEvolves(p, Activated(p, op, password, now)) && Activated(p, op, password, now).id == p.id
  {
    ActivatedShape(p, op, password, now);
  }

  lemma ActivateEvolves(l: Ledger, now: int, a: Actor, opID: string, password: Password)
    requires Identified(l.projects, l.operations) && Activate(l, now, a, opID, password).Ok?
    ensures Follows(l, Activate(l, now, a, opID, password).value)
  {
    hide Install, Usable, Follows;
    Still(l);
    var op := l.operations[opID];
    if op.state == Pending { InstallEvolves(l, now, l.projects[op.projectID], op, password); }
  }

  /** Settling an aborted operation together with its project. */
  lemma WithdrawnFollows(l: Ledger, op: Operation, before: Ledger, next: Project)
    requires Identified(l.projects, l.operations) && op.id in l.operations && op == l.operations[op.id]
             && op.state == Pending && op.projectID in l.projects
    requires var p := l.projects[op.projectID];
             next == p.(pendingOperation := "", status := next.status)
             && (next.status == p.status || next.status == Deleted)
    requires before == l.(operations := l.operations[op.id := op.(state := Aborted)], digests := before.digests,
                          quotas := before.quotas, slugs := before.slugs)
    requires forall s :: s in before.slugs ==> s in l.slugs && before.slugs[s] == l.slugs[s]
    requires PutProject(before, next).Ok?
    ensures Follows(l, PutProject(before, next).value)
  {
    hide PutProject, Follows, OperationsEvolve;
    Settled(l.operations, op.(state := Aborted));
    PutFollows(l, before, next);
  }

  lemma AbortEvolves(l: Ledger, now: int, who: Aborter, opID: string)
    requires Identified(l.projects, l.operations) && Abort(l, now, who, opID).Ok?
    ensures Follows(l, Abort(l, now, who, opID).value)
  {
    hide PutProject, Withdrawn, Follows;
    var op := l.operations[opID];
    if op.state != Pending || (who.ByMaintenance? && now < op.expiresAt) {
      Still(l);
    } else {
      var p := l.projects[op.projectID];
      var withdrawn :=
        l.(digests := Withdrawn(l.digests, p, op), operations := l.operations[opID := op.(state := Aborted)]);
      if op.isNew {
        var q := ReadQuota(l.quotas, p.owner).value;
        WithdrawnFollows(l, op, withdrawn.(quotas := l.quotas[p.owner := q.(count := q.count - 1)],
                                           slugs := l.slugs - {p.slug}),
                         p.(pendingOperation := "", status := Deleted));
      } else {
        WithdrawnFollows(l, op, withdrawn, p.(pendingOperation := ""));
      }
    }
  }

  lemma ReselectEvolves(l: Ledger, now: int, p: Project, op: Operation)
    requires p.id in l.projects && p == l.projects[p.id] && Reselect(l, now, p, op).Ok?
    ensures Follows(l, Reselect(l, now, p, op).value)
  {
    hide PutProject, Release, Follows, OperationsEvolve;
    Unsettled(l.operations);
    var released := if p.activeDigest != op.digest then Release(l.digests, p.activeDigest, p.id) else l.digests;
    PutFollows(l, l.(digests := released[op.digest := DigestRecord(p.id, "")]), Reselected(p, op, now));
  }

  lemma SelectEvolves(l: Ledger, now: int, a: Actor, id: string, opID: string, revision: int)
    requires Identified(l.projects, l.operations) && SelectRevision(l, now, a, id, opID, revision).Ok?
    ensures Follows(l, SelectRevision(l, now, a, id, opID, revision).value)
  {
    hide Reselect, AvailableRevision, Follows;
    var p := l.projects[id];
    var op := AvailableRevision(l, p, opID).value;
    Still(l);
    if !(p.activeDigest == op.digest && p.storageGeneration == op.storageGeneration) {
      ReselectEvolves(l, now, p, op);
    }
  }

  lemma RemoveShape(l: Ledger, now: int, a: Actor, id: string, opID: string, revision: int)
    requires RemoveRevision(l, now, a, id, opID, revision).Ok?
    ensures id in l.projects && a.Owns(l.projects[id].owner) && opID in l.operations
            && l.operations[opID].state == Complete
    ensures l.operations[opID].projectID == l.projects[id].id
    ensures var p := l.projects[id];
            RemoveRevision(l, now, a, id, opID, revision) ==
              PutProject(Removed(l, p, l.operations[opID]), p.(revision := p.revision + 1, updatedAt := now))
  {
    hide PutProject, Removed;
  }

  /** Removing is the owner's explicit act on one completed publication. */
  lemma RemoveEvolves(l: Ledger, now: int, a: Actor, id: string, opID: string, revision: int)
    requires Identified(l.projects, l.operations) && RemoveRevision(l, now, a, id, opID, revision).Ok?
    ensures var m := RemoveRevision(l, now, a, id, opID, revision).value;
            Evolves(l, m) && Steady(l, m) && m.slugs == l.slugs
    ensures id in l.projects && a.Owns(l.projects[id].owner) && opID in l.operations
            && l.operations[opID].state == Complete
    ensures var v := VersionOfOperation(l.operations[opID]);
            v.project == id && RemoveRevision(l, now, a, id, opID, revision).value.removals == l.removals + {v}
  {
    hide PutProject, Evolves, Steady, OperationsEvolve, RemoveRevision;
    RemoveShape(l, now, a, id, opID, revision);
    var p := l.projects[id];
    var before := Removed(l, p, l.operations[opID]);
    Unsettled(l.operations);
    PutEvolves(l, before, p.(revision := p.revision + 1, updatedAt := now));
    PutSteady(l, before, p.(revision := p.revision + 1, updatedAt := now));
  }

  lemma ReserveEvolves(l: Ledger, c: Limits, now: int, a: Actor, r: Reservation, offers: seq<Offer>, opID: OperationId)
    requires Inv(l, c, now) && Reserve(l, c, now, a, r, offers, opID).Ok?
    ensures Evolves(l, Reserve(l, c, now, a, r, offers, opID).value)
  {
    hide Inv, Target, DigestBlocked, QuotaAfter, Allocate, Booked, ValidReservation, Evolves;
    Still(l);
    if opID !in l.operations {
      var p := Target(l, now, a, r, opID).value;
      var q := QuotaAfter(l.quotas, c, p, r.projectID == "", VersionCharge(r.bytes)).value;
      ReserveFacts(l, c, now, a, r, offers, opID, p);
      BookedEvolves(l, c, now, a, r, p, opID, q, Allocate(l, p, r, offers, opID));
    }
  }

  lemma BookedEvolves(l: Ledger, c: Limits, now: int, a: Actor, r: Reservation, p: Project, opID: OperationId, q: Quota,
                      grant: Offering)
    requires Inv(l, c, now) && Targeted(l, now, r, p) && opID !in l.operations && grant.Grant?
             && Granted(l, p, r, opID, grant.id, grant.version, grant.allocation)
    requires Booked(l, a, r, p, opID, now, q, grant).Ok?
    ensures Evolves(l, Booked(l, a, r, p, opID, now, q, grant).value)
    ensures Booked(l, a, r, p, opID, now, q, grant).value.versions == l.versions[grant.id := grant.version]
    ensures Booked(l, a, r, p, opID, now, q, grant).value.removals == l.removals
    ensures l.queue + {(grant.version.app, grant.id)} <= Booked(l, a, r, p, opID, now, q, grant).value.queue
  {
    hide Inv, PutProject, Booked, Granted, VersionCharge, Free, Targeted, Evolves, OperationsEvolve, BeforePut;
    TargetServed(l, c, now, r, p);
    GrantedPools(l, r, opID, p, grant.id, grant.version, grant.allocation);
    var before := BeforePut(l, r, p, grant.id, grant.version, grant.allocation, q);
    var next := Next(p, grant.version.app, VersionCharge(r.bytes), opID);
    BookedShape(l, a, r, p, opID, now, q, grant);
    BeforePutShape(l, r, p, grant.id, grant.version, grant.allocation, q);
    NamesElsewhere(l, before.names, p);
    Unsettled(l.operations);
    assert next.pendingOperation != "";
    PutEvolves(l, before, next);
    OneMore(l, PutProject(before, next).value, Booked(l, a, r, p, opID, now, q, grant).value, opID);
  }

  lemma BookedShape(l: Ledger, a: Actor, r: Reservation, p: Project, opID: OperationId, now: int, q: Quota,
                    grant: Offering)
    requires grant.Grant? && Booked(l, a, r, p, opID, now, q, grant).Ok?
    ensures var put :=
            PutProject(BeforePut(l, r, p, grant.id, grant.version, grant.allocation, q),
                       Next(p, grant.version.app, VersionCharge(r.bytes), opID));
            && put.Ok?
            && Booked(l, a, r, p, opID, now, q, grant).value ==
               put.value.(operations :=
                          put.value.operations[opID := PendingOperation(a, r, p, opID, grant.id.generation, now)],
                          digests := put.value.digests[r.digest := DigestRecord(p.id, opID)])
  {
    hide PutProject, Usable, VersionCharge;
  }

  lemma NamesElsewhere(l: Ledger, names: map<string, set<string>>, p: Project)
    requires names == l.names || (p.id !in l.projects && names == l.names[p.id := {p.slug}])
    ensures forall id :: id in l.projects ==> NamesAt(l.names, id) <= NamesAt(names, id)
  {}

  lemma OneMore(l: Ledger, m: Ledger, after: Ledger, opID: string)
    requires Evolves(l, m) && opID !in l.operations
    requires after == m.(operations := after.operations, digests := after.digests) && opID in after.operations
             && after.operations == m.operations[opID := after.operations[opID]]
    ensures Evolves(l, after)
  {
    hide OperationEvolves;
  }

  lemma RefundEvolves(l: Ledger, c: Limits, now: int, id: VersionId, v: Version)
    requires Inv(l, c, now) && id in l.versions && l.versions[id].state == Retiring
             && v == l.versions[id].(acknowledged := v.acknowledged)
    ensures Refunded(l, id, v).Ok? && Evolves(l, Refunded(l, id, v).value)
    ensures Refunded(l, id, v).value.versions == l.versions[id := v.(state := Reclaimed)]
    ensures Apart(l, Refunded(l, id, v).value) && Refunded(l, id, v).value.queue == l.queue - {(v.app, id)}
    ensures LegacyFree(l.allocations) ==> LegacyFree(Refunded(l, id, v).value.allocations)
  {
    hide Refund, Linked, Serving, Publishing, VersionsOk, BlocksOk, Pools, LiveOk, Queued, ProjectCharges, Quotas,
      Indexed, Digested, Named, AllocationsOk, Assigned, Refunded;
    RefundSucceeds(l, c, now, id, v);
  }

  predicate TouchesVersions(q: Request) { q.DoReserve? || q.DoRetire? || q.DoAcknowledge? || q.DoReconcile? }

  /** The transactions that touch no version, take no name and remove no publication. */
  predicate Plain(q: Request) { !TouchesVersions(q) && !q.DoRename? && !q.DoRemove? }

  lemma PlainFollows(l: Ledger, c: Limits, now: int, q: Request)
    requires Identified(l.projects, l.operations) && Perform(l, c, now, q).Ok? && Plain(q)
    ensures Follows(l, Perform(l, c, now, q).value)
  {
    hide Identified, Follows, Activate, Abort, Tombstone, Expire, SetPrivacy, SetWatermark, Claim, CreateTransfer,
      RevokeTransfer, Redeem, SelectRevision, SetControl;
    match q {
      case DoActivate(a, opID, password) => ActivateEvolves(l, now, a, opID, password);
      case DoAbort(who, opID) => AbortEvolves(l, now, who, opID);
      case DoTombstone(a, id, revision) => TombstoneEvolves(l, a, id, revision);
      case DoExpire(id) => ExpireEvolves(l, now, id);
      case DoSetPrivacy(a, id, revision, password) => SetPrivacyEvolves(l, now, a, id, revision, password);
      case DoSetWatermark(a, id, revision, enabled) => SetWatermarkEvolves(l, now, a, id, revision, enabled);
      case DoClaim(a, id, revision) => ClaimsEvolve(l, c, now, a, id, revision);
      case DoCreateTransfer(a, id, revision, digest) => CreateTransferEvolves(l, now, a, id, revision, digest);
      case DoRevokeTransfer(a, id, revision) => RevokeTransferEvolves(l, now, a, id, revision);
      case DoRedeem(a, id, digest) => RedeemsEvolve(l, c, now, a, id, digest);
      case DoSelect(a, id, opID, revision) => SelectEvolves(l, now, a, id, opID, revision);
      case DoSetControl(app, closed) => ControlEvolves(l, app, closed);
    }
  }

  /** Every transaction only adds to what is known. */
  lemma StepEvolves(l: Ledger, c: Limits, now: int, q: Request)
    requires Inv(l, c, now)
    ensures Evolves(l, Step(l, c, now, q))
  {
    hide Inv, Evolves, Steady, Identified, Reserve, Activate, Abort, Tombstone, Expire, SetPrivacy, SetWatermark,
      Rename, Claim, CreateTransfer, RevokeTransfer, Redeem, SelectRevision, RemoveRevision, Retire, Acknowledge,
      Reconcile, SetControl;
    Still(l);
    InvIdentified(l, c, now);
    if Perform(l, c, now, q).Ok? {
      match q {
        case DoReserve(a, r, offers, op) => ReserveEvolves(l, c, now, a, r, offers, op);
        case DoRename(a, id, name, revision, hashed) => RenameEvolves(l, now, a, id, name, revision, hashed);
        case DoRemove(a, id, opID, revision) => RemoveEvolves(l, now, a, id, opID, revision);
        case DoRetire(version, epoch, members) => RetireEvolves(l, now, version, epoch, members);
        case DoAcknowledge(version, epoch, member) => AcknowledgeEvolves(l, c, now, version, epoch, member);
        case DoReconcile(version, manifest) => ReconcileEvolves(l, version, manifest);
        case _ => PlainFollows(l, c, now, q);
      }
    }
  }

  lemma InvIdentified(l: Ledger, c: Limits, now: int)
    requires Inv(l, c, now)
    ensures Identified(l.projects, l.operations)
  {
    hide Linked, Serving, Publishing, VersionsOk, BlocksOk, Pools, LiveOk, Queued, ProjectCharges, Quotas, Indexed,
      Digested, Named, AllocationsOk, Assigned, Identified;
  }

  lemma TombstoneEvolves(l: Ledger, a: Actor, id: string, revision: int)
    requires Identified(l.projects, l.operations) && Tombstone(l, a, id, revision).Ok?
    ensures Follows(l, Tombstone(l, a, id, revision).value)
  {
    hide Deleting;
    Still(l);
    if l.projects[id].status != Deleted { DeletesEvolve(l.(transfers := l.transfers - {id}), l.projects[id]); }
  }

  lemma ExpireEvolves(l: Ledger, now: int, id: string)
    requires Identified(l.projects, l.operations) && Expire(l, now, id).Ok?
    ensures Follows(l, Expire(l, now, id).value)
  {
    hide Deleting, Follows;
    Still(l);
    if Expire(l, now, id).value != l { DeletesEvolve(l, l.projects[id]); }
  }

  lemma ClaimsEvolve(l: Ledger, c: Limits, now: int, a: Actor, id: string, revision: int)
    requires Identified(l.projects, l.operations) && Claim(l, c, now, a, id, revision).Ok?
    ensures Follows(l, Claim(l, c, now, a, id, revision).value)
  {
    hide MoveToAccount, Follows;
    Still(l);
    if l.projects[id].owner.kind != Firebase { MovesEvolve(l, c, l.projects[id], a.uid); }
  }

  lemma RedeemsEvolve(l: Ledger, c: Limits, now: int, a: Actor, id: string, digest: string)
    requires Identified(l.projects, l.operations) && Redeem(l, c, now, a, id, digest).Ok?
    ensures Follows(l, Redeem(l, c, now, a, id, digest).value)
  {
    hide MoveToAccount, Follows;
    MovesEvolve(l, c, l.projects[id], a.uid);
  }

  lemma CreateTransferEvolves(l: Ledger, now: int, a: Actor, id: string, revision: int, digest: string)
    requires CreateTransfer(l, now, a, id, revision, digest).Ok?
    ensures Follows(l, CreateTransfer(l, now, a, id, revision, digest).value)
  {
    hide Follows, LegacyFree;
    Frame(l, CreateTransfer(l, now, a, id, revision, digest).value);
  }

  lemma RevokeTransferEvolves(l: Ledger, now: int, a: Actor, id: string, revision: int)
    requires RevokeTransfer(l, now, a, id, revision).Ok?
    ensures Follows(l, RevokeTransfer(l, now, a, id, revision).value)
  {
    hide Follows, LegacyFree;
    Frame(l, RevokeTransfer(l, now, a, id, revision).value);
  }

  /** Names, marks and removals that a change of versions leaves alone. */
  ghost predicate Apart(l: Ledger, m: Ledger) {
    m.slugs == l.slugs && m.removals == l.removals && m.operations == l.operations
  }

  lemma RetireEvolves(l: Ledger, now: int, id: VersionId, epoch: string, members: seq<string>)
    requires Retire(l, now, id, epoch, members).Ok?
    ensures var m := Retire(l, now, id, epoch, members).value;
            Evolves(l, m) && Apart(l, m) && m.allocations == l.allocations && m.queue == l.queue
  {
    hide Retire, Evolves;
    RetireShape(l, now, id, epoch, members);
    Unmoved(l, Retire(l, now, id, epoch, members).value);
  }

  lemma RetireShape(l: Ledger, now: int, id: VersionId, epoch: string, members: seq<string>)
    requires Retire(l, now, id, epoch, members).Ok?
    ensures var m := Retire(l, now, id, epoch, members).value;
            m == l.(versions := m.versions, retirements := m.retirements)
  {
    hide Damaged, MayRetire, ValidMembers, Serves, Retired, ReadQuota, O.SortedList;
  }

  lemma Unmoved(l: Ledger, m: Ledger)
    requires m.projects == l.projects && m.operations == l.operations && m.removals == l.removals && m.names == l.names
    ensures Evolves(l, m)
  {}

  lemma AcknowledgeEvolves(l: Ledger, c: Limits, now: int, id: VersionId, epoch: string, member: string)
    requires Inv(l, c, now) && Acknowledge(l, id, epoch, member).Ok?
    ensures var m := Acknowledge(l, id, epoch, member).value;
            && Evolves(l, m) && Apart(l, m) && (LegacyFree(l.allocations) ==> LegacyFree(m.allocations))
            && id in l.versions && (m.queue == l.queue
                                    || (l.versions[id].state == Retiring
                                        && m.queue == l.queue - {(l.versions[id].app, id)}))
  {
    hide Inv, Refunded, AllAcknowledged, Evolves, LegacyFree;
    var v := l.versions[id];
    Still(l);
    if v.state == Retiring {
      var noted := v.(acknowledged := v.acknowledged + {member});
      if AllAcknowledged(noted) {
        RefundEvolves(l, c, now, id, noted);
      } else {
        Unmoved(l, l.(versions := l.versions[id := noted]));
      }
    }
  }

  lemma ReconcileEvolves(l: Ledger, id: VersionId, m: F.Manifest)
    requires Reconcile(l, id, m).Ok?
    ensures var n := Reconcile(l, id, m).value; Evolves(l, n) && Apart(l, n) && n.queue == l.queue
  {
    hide F.Allowance, Evolves, PriorBytes, PriorInodes;
    Still(l);
    Unmoved(l, Reconcile(l, id, m).value);
  }

  lemma ControlEvolves(l: Ledger, app: AppName, closed: bool)
    requires SetControl(l, app, closed).Ok?
    ensures Follows(l, SetControl(l, app, closed).value)
  {
    hide Follows;
    Frame(l, SetControl(l, app, closed).value);
  }

  /* ---------- Versions ---------- */

  /** The life of a version: retained, then retiring with a fixed membership, then reclaimed for good. */
  ghost predicate VersionEvolves(v: Version, w: Version) {
    && (v.state == Reclaimed ==> w == v)
    && (v.state == Retiring ==>
        w.state != Retained && w.epoch == v.epoch && w.members == v.members && v.acknowledged <= w.acknowledged)
    && (v.state == Retained ==> w.state != Reclaimed)
    && (w.state == Reclaimed ==> AllAcknowledged(w))
  }

  lemma ReserveVersions(l: Ledger, c: Limits, now: int, a: Actor, r: Reservation, offers: seq<Offer>, opID: OperationId,
                        id: VersionId)
    requires Inv(l, c, now) && Reserve(l, c, now, a, r, offers, opID).Ok? && id in l.versions
    ensures var w := Reserve(l, c, now, a, r, offers, opID).value.versions;
            id in w && w[id] == l.versions[id].(quotaBytes := w[id].quotaBytes)
              && (w[id] != l.versions[id] ==> l.versions[id].state == Retained)
  {
    hide Inv, Target, DigestBlocked, QuotaAfter, Allocate, Booked, ValidReservation, StorageOk, MeasuredOk,
      VersionCharge;
    if opID !in l.operations {
      var p := Target(l, now, a, r, opID).value;
      var q := QuotaAfter(l.quotas, c, p, r.projectID == "", VersionCharge(r.bytes)).value;
      ReserveFacts(l, c, now, a, r, offers, opID, p);
      BookedEvolves(l, c, now, a, r, p, opID, q, Allocate(l, p, r, offers, opID));
    }
  }

  lemma AcknowledgeVersions(l: Ledger, c: Limits, now: int, version: VersionId, epoch: string, member: string)
    requires Inv(l, c, now) && Acknowledge(l, version, epoch, member).Ok?
    ensures var w := Acknowledge(l, version, epoch, member).value.versions;
            && version in l.versions && version in w && w == l.versions[version := w[version]]
            && VersionEvolves(l.versions[version], w[version])
            && l.versions[version].state != Retained
  {
    hide Inv, Refunded, AllAcknowledged, LifecycleOk, VersionEvolves, Evolves;
    var v := l.versions[version];
    var w := Acknowledge(l, version, epoch, member).value.versions;
    if v.state == Reclaimed {
      Alive(l, c, now, version);
      Unchanged(v, l.projects[version.project].status == Deleted);
      assert w == l.versions[version := v];
    } else {
      var noted := v.(acknowledged := v.acknowledged + {member});
      if AllAcknowledged(noted) {
        RefundEvolves(l, c, now, version, noted);
        NotedEvolves(v, noted.(state := Reclaimed));
      } else {
        NotedEvolves(v, noted);
      }
    }
  }

  lemma NotedEvolves(v: Version, w: Version)
    requires v.state == Retiring && w == v.(acknowledged := w.acknowledged, state := w.state)
             && v.acknowledged <= w.acknowledged
    requires w.state == Retiring || (w.state == Reclaimed && AllAcknowledged(w.(state := Retiring)))
    ensures VersionEvolves(v, w)
  {}

  lemma Alive(l: Ledger, c: Limits, now: int, id: VersionId)
    requires Inv(l, c, now) && id in l.versions
    ensures id.project in l.projects && LifecycleOk(l.versions[id], l.projects[id.project].status == Deleted)
    ensures VersionsOk(l.versions, l.projects, l.measured)
  {
    hide Identified, Linked, Serving, Publishing, BlocksOk, Pools, LiveOk, Queued, ProjectCharges, Quotas, Indexed,
      Digested, Named, AllocationsOk, Assigned, MeasuredOk;
  }

  lemma RetireVersions(l: Ledger, now: int, version: VersionId, epoch: string, members: seq<string>)
    requires Retire(l, now, version, epoch, members).Ok?
    ensures var w := Retire(l, now, version, epoch, members).value.versions;
            && version in l.versions && version in w && w == l.versions[version := w[version]]
            && (w[version] == l.versions[version]
                || (l.versions[version].state != Reclaimed && version.project in l.projects
                    && w[version] == Retired(l.versions[version], l.projects[version.project], epoch,
                                             O.SortedList(members))))
            && (w[version].state != l.versions[version].state ==>
                MayRetire(l, l.projects[version.project], version) && !Serves(l.projects[version.project], version)
                && l.projects[version.project].pendingOperation == "")
  {
    hide Damaged, MayRetire, ValidMembers, Serves;
    assert l.versions == l.versions[version := l.versions[version]];
  }

  lemma RetireVersionEvolves(v: Version, p: Project, epoch: string, members: seq<string>)
    requires v.state != Reclaimed && (v.state == Retiring ==> v.epoch != "")
    ensures VersionEvolves(v, Retired(v, p, epoch, members))
  {}

  lemma Unchanged(v: Version, deleted: bool)
    requires LifecycleOk(v, deleted)
    ensures VersionEvolves(v, v)
  {}

  /** What one request can do to one stored version: retire it if that is allowed, or reclaim it. */
  ghost predicate VersionMoves(l: Ledger, m: Ledger, q: Request, id: VersionId)
    requires id in l.versions
  {
    && id in m.versions && VersionEvolves(l.versions[id], m.versions[id])
    && (l.versions[id].state == Retained && m.versions[id].state != Retained ==>
          q.DoRetire? && q.version == id && id.project in l.projects && MayRetire(l, l.projects[id.project], id))
    && (l.versions[id].state != Reclaimed && m.versions[id].state == Reclaimed ==>
          q.DoAcknowledge? && q.version == id && l.versions[id].state == Retiring)
  }

  /** A version that keeps its state moves nowhere. */
  lemma SameStateMoves(l: Ledger, m: Ledger, q: Request, id: VersionId)
    requires id in l.versions && id in m.versions && VersionEvolves(l.versions[id], m.versions[id])
             && m.versions[id].state == l.versions[id].state
    ensures VersionMoves(l, m, q, id)
  {
    hide VersionEvolves, MayRetire;
  }

  lemma ReserveMoves(l: Ledger, c: Limits, now: int, q: Request, id: VersionId)
    requires Inv(l, c, now) && id in l.versions && q.DoReserve? && Perform(l, c, now, q).Ok?
    ensures VersionMoves(l, Perform(l, c, now, q).value, q, id)
  {
    hide Inv, Reserve, VersionMoves, LifecycleOk, VersionsOk;
    var m := Perform(l, c, now, q).value;
    Alive(l, c, now, id);
    ReserveVersions(l, c, now, q.a, q.r, q.offers, q.op, id);
    QuotaOnly(l.versions[id], m.versions[id], l.projects[id.project].status == Deleted);
    SameStateMoves(l, m, q, id);
  }

  lemma RetireMoves(l: Ledger, c: Limits, now: int, q: Request, id: VersionId)
    requires Inv(l, c, now) && id in l.versions && q.DoRetire? && Perform(l, c, now, q).Ok?
    ensures VersionMoves(l, Perform(l, c, now, q).value, q, id)
  {
    hide Inv, Retire, LifecycleOk, VersionsOk, VersionEvolves, MayRetire, Serves, Retired;
    Alive(l, c, now, id);
    RetireVersions(l, now, q.version, q.epoch, q.members);
    RetireOne(l, now, q.version, q.epoch, q.members, id);
  }

  lemma AcknowledgeMoves(l: Ledger, c: Limits, now: int, q: Request, id: VersionId)
    requires Inv(l, c, now) && id in l.versions && q.DoAcknowledge? && Perform(l, c, now, q).Ok?
    ensures VersionMoves(l, Perform(l, c, now, q).value, q, id)
  {
    hide Inv, Acknowledge, LifecycleOk, VersionsOk, VersionEvolves, MayRetire;
    Alive(l, c, now, id);
    Unchanged(l.versions[id], l.projects[id.project].status == Deleted);
    AcknowledgeVersions(l, c, now, q.version, q.epoch, q.member);
    if id == q.version { AcknowledgeOne(l.versions[id], Perform(l, c, now, q).value.versions[id]); }
  }

  lemma OtherMoves(l: Ledger, c: Limits, now: int, q: Request, id: VersionId)
    requires Inv(l, c, now) && id in l.versions && Perform(l, c, now, q).Ok? && (q.DoReconcile? || !TouchesVersions(q))
    ensures VersionMoves(l, Perform(l, c, now, q).value, q, id)
  {
    hide Inv, Perform, LifecycleOk, VersionsOk, VersionEvolves, VersionMoves, Identified;
    var m := Perform(l, c, now, q).value;
    InvIdentified(l, c, now);
    Alive(l, c, now, id);
    if q.DoReconcile? {
      PerformReconcile(l, c, now, q);
      ReconcileVersions(l, q.version, q.manifest, id);
    } else {
      VersionsStay(l, c, now, q);
      Unchanged(l.versions[id], l.projects[id.project].status == Deleted);
    }
    SameStateMoves(l, m, q, id);
  }

  lemma PerformReconcile(l: Ledger, c: Limits, now: int, q: Request)
    requires q.DoReconcile?
    ensures Perform(l, c, now, q) == Reconcile(l, q.version, q.manifest)
  {}

  /** What one transaction can do to one stored version. */
  lemma StepVersions(l: Ledger, c: Limits, now: int, q: Request, id: VersionId)
    requires Inv(l, c, now) && id in l.versions
    ensures VersionMoves(l, Step(l, c, now, q), q, id)
  {
    hide Inv, Perform, LifecycleOk, VersionsOk, VersionEvolves, VersionMoves;
    if Perform(l, c, now, q).Err? {
      Alive(l, c, now, id);
      Unchanged(l.versions[id], l.projects[id.project].status == Deleted);
      SameStateMoves(l, l, q, id);
    } else if q.DoReserve? {
      ReserveMoves(l, c, now, q, id);
    } else if q.DoRetire? {
      RetireMoves(l, c, now, q, id);
    } else if q.DoAcknowledge? {
      AcknowledgeMoves(l, c, now, q, id);
    } else {
      OtherMoves(l, c, now, q, id);
    }
  }

  lemma VersionsStay(l: Ledger, c: Limits, now: int, q: Request)
    requires Identified(l.projects, l.operations) && Perform(l, c, now, q).Ok? && !TouchesVersions(q)
    ensures Perform(l, c, now, q).value.versions == l.versions
  {
    hide Identified, Evolves, QueueStays, LegacyFree, Activate, Abort, Tombstone, Expire, SetPrivacy, SetWatermark,
      Rename, Claim, CreateTransfer, RevokeTransfer, Redeem, SelectRevision, RemoveRevision, SetControl;
    match q {
      case DoRename(a, p, name, revision, hashed) => RenameEvolves(l, now, a, p, name, revision, hashed);
      case DoRemove(a, p, opID, revision) => RemoveEvolves(l, now, a, p, opID, revision);
      case _ => PlainFollows(l, c, now, q);
    }
  }

  lemma QuotaOnly(v: Version, w: Version, deleted: bool)
    requires LifecycleOk(v, deleted) && w == v.(quotaBytes := w.quotaBytes) && (w != v ==> v.state == Retained)
    ensures VersionEvolves(v, w) && w.state == v.state
  {}

  lemma RetireOne(l: Ledger, now: int, version: VersionId, epoch: string, members: seq<string>, id: VersionId)
    requires VersionsOk(l.versions, l.projects, l.measured) && id in l.versions
             && Retire(l, now, version, epoch, members).Ok?
    ensures var w := Retire(l, now, version, epoch, members).value.versions;
            id in w && VersionEvolves(l.versions[id], w[id])
              && (w[id].state == Reclaimed ==> l.versions[id].state == Reclaimed)
              && (id != version ==> w[id] == l.versions[id])
  {
    hide Retire, MeasuredOk, MayRetire, Serves;
    RetireVersions(l, now, version, epoch, members);
    assert LifecycleOk(l.versions[id], l.projects[id.project].status == Deleted);
    if id == version && l.versions[id].state != Reclaimed && id.project in l.projects {
      RetireVersionEvolves(l.versions[id], l.projects[id.project], epoch, O.SortedList(members));
    }
  }

  lemma AcknowledgeOne(v: Version, w: Version)
    requires VersionEvolves(v, w) && v.state != Retained
    ensures w.state == Reclaimed && v.state != Reclaimed ==> v.state == Retiring
    ensures w.state != Retained
  {}

  lemma ReconcileVersions(l: Ledger, version: VersionId, m: F.Manifest, id: VersionId)
    requires VersionsOk(l.versions, l.projects, l.measured) && id in l.versions && Reconcile(l, version, m).Ok?
    ensures var w := Reconcile(l, version, m).value.versions;
            id in w && w[id].state == l.versions[id].state && VersionEvolves(l.versions[id], w[id])
  {
    hide F.Allowance, MeasuredOk, PriorBytes, PriorInodes;
    assert LifecycleOk(l.versions[id], l.projects[id.project].status == Deleted);
  }

  /* ---------- Over whole runs ---------- */

  /** From one stage of a run to any later one: projects stay, deletion is final, operations are settled once, names
     stay. */
  lemma {:induction false} RunEvolves(stages: seq<Stage>, requests: seq<Request>, c: Limits, i: nat, j: nat)
    requires IsRun(stages, requests, c) && i <= j < |stages|
    ensures Evolves(stages[i].ledger, stages[j].ledger)
    decreases j - i
  {
    hide Inv, Step, Evolves;
    if i == j {
      Still(stages[i].ledger);
    } else {
      RunEvolves(stages, requests, c, i, j - 1);
      RunInv(stages, requests, c, j - 1);
      Later(stages[j - 1].ledger, c, stages[j - 1].now, stages[j].now);
      StepEvolves(stages[j - 1].ledger, c, stages[j].now, requests[j - 1]);
      EvolvesOn(stages[i].ledger, stages[j - 1].ledger, stages[j].ledger);
    }
  }

  lemma EvolvesOn(a: Ledger, b: Ledger, d: Ledger)
    requires Evolves(a, b) && Evolves(b, d)
    ensures Evolves(a, d)
  {}

  lemma {:induction false} RunVersions(stages: seq<Stage>, requests: seq<Request>, c: Limits, i: nat, j: nat,
                                       id: VersionId)
    requires IsRun(stages, requests, c) && i <= j < |stages| && id in stages[i].ledger.versions
    ensures id in stages[j].ledger.versions
    ensures stages[i].ledger.versions[id].state == Reclaimed ==>
            stages[j].ledger.versions[id] == stages[i].ledger.versions[id]
    ensures stages[i].ledger.versions[id].state == Retiring ==>
              var v, w := stages[i].ledger.versions[id], stages[j].ledger.versions[id];
                w.state != Retained && w.members == v.members && w.epoch == v.epoch
    decreases j - i
  {
    hide Inv, Step;
    if i < j {
      RunVersions(stages, requests, c, i, j - 1, id);
      RunInv(stages, requests, c, j - 1);
      Later(stages[j - 1].ledger, c, stages[j - 1].now, stages[j].now);
      StepVersions(stages[j - 1].ledger, c, stages[j].now, requests[j - 1], id);
    }
  }

  /** The step that reclaims a version. */
  ghost predicate Reclaims(stages: seq<Stage>, i: nat, id: VersionId) {
    && i + 1 < |stages|
    && id in stages[i].ledger.versions && id in stages[i + 1].ledger.versions
    && stages[i].ledger.versions[id].state != Reclaimed && stages[i + 1].ledger.versions[id].state == Reclaimed
  }

  /** The request is an acknowledgement of a retiring version, after which no pinned member is missing. */
  ghost predicate LastAcknowledged(stages: seq<Stage>, requests: seq<Request>, i: nat, id: VersionId) {
    && i < |requests| && i + 1 < |stages| && id in stages[i].ledger.versions && id in stages[i + 1].ledger.versions
    && requests[i].DoAcknowledge? && requests[i].version == id
    && var v, w := stages[i].ledger.versions[id], stages[i + 1].ledger.versions[id];
       v.state == Retiring && w.members == v.members && AllAcknowledged(w)
  }

  /** A version is refunded at most once, by an acknowledgement, and only after every pinned member has acknowledged. */
  lemma RefundedOnce(stages: seq<Stage>, requests: seq<Request>, c: Limits, i: nat, j: nat, id: VersionId)
    requires IsRun(stages, requests, c) && i <= j && Reclaims(stages, i, id) && Reclaims(stages, j, id)
    ensures i == j && LastAcknowledged(stages, requests, i, id)
  {
    hide Inv, Step;
    if i < j { RunVersions(stages, requests, c, i + 1, j, id); }
    RunInv(stages, requests, c, i);
    Later(stages[i].ledger, c, stages[i].now, stages[i + 1].now);
    StepVersions(stages[i].ledger, c, stages[i + 1].now, requests[i], id);
  }

  /** Whatever is served, and whatever a pending operation would install, is retained and was never removed. */
  lemma ServedIsRetained(stages: seq<Stage>, requests: seq<Request>, c: Limits, i: nat)
    requires IsRun(stages, requests, c) && i < |stages|
    ensures var l := stages[i].ledger;
            && (forall p :: p in l.projects && l.projects[p].status == Active ==>
                  var id := CurrentVersion(l.projects[p]);
                    id in l.versions && l.versions[id].state == Retained && id !in l.removals)
            && (forall o :: o in l.operations && l.operations[o].state == Pending ==>
                  var id := VersionOfOperation(l.operations[o]);
                    id in l.versions && l.versions[id].state == Retained && id !in l.removals)
  {
    hide Identified, Linked, VersionsOk, BlocksOk, Pools, LiveOk, Queued, ProjectCharges, Quotas, Indexed, Digested,
      Named, AllocationsOk, Assigned;
    RunInv(stages, requests, c, i);
    var l := stages[i].ledger;
    assert forall p :: p in l.projects ==> ServingOk(l.projects[p], l.versions, l.removals);
    assert forall o :: o in l.operations ==> PublishOk(l.operations[o], l.versions, l.removals);
  }

  lemma ReserveRemovals(l: Ledger, c: Limits, now: int, a: Actor, r: Reservation, offers: seq<Offer>, opID: OperationId)
    requires Inv(l, c, now) && Reserve(l, c, now, a, r, offers, opID).Ok?
    ensures Reserve(l, c, now, a, r, offers, opID).value.removals == l.removals
  {
    hide Inv, Target, DigestBlocked, QuotaAfter, Allocate, Booked, ValidReservation, Evolves, Targeted, Granted,
      VersionCharge;
    if opID !in l.operations {
      var p := Target(l, now, a, r, opID).value;
      var q := QuotaAfter(l.quotas, c, p, r.projectID == "", VersionCharge(r.bytes)).value;
      ReserveFacts(l, c, now, a, r, offers, opID, p);
      BookedEvolves(l, c, now, a, r, p, opID, q, Allocate(l, p, r, offers, opID));
    }
  }

  /** The request is its owner's removal of the publication stored as this version. */
  ghost predicate Removes(l: Ledger, q: Request, id: VersionId) {
    && q.DoRemove? && q.id == id.project && q.id in l.projects && q.a.Owns(l.projects[q.id].owner)
    && q.opID in l.operations && l.operations[q.opID].state == Complete
    && VersionOfOperation(l.operations[q.opID]) == id
  }

  /** Only an owner's removal marks a version as removed. */
  lemma StepRemovals(l: Ledger, c: Limits, now: int, q: Request, id: VersionId)
    requires Inv(l, c, now) && id !in l.removals && id in Step(l, c, now, q).removals
    ensures Removes(l, q, id) && Perform(l, c, now, q).Ok?
  {
    hide Inv, Evolves, Steady, Identified, Reserve, Activate, Abort, Tombstone, Expire, SetPrivacy, SetWatermark,
      Rename, Claim, CreateTransfer, RevokeTransfer, Redeem, SelectRevision, RemoveRevision, Retire, Acknowledge,
      Reconcile, SetControl, LegacyFree;
    InvIdentified(l, c, now);
    match q {
      case DoReserve(a, r, offers, op) => ReserveRemovals(l, c, now, a, r, offers, op);
      case DoRename(a, p, name, revision, hashed) => RenameEvolves(l, now, a, p, name, revision, hashed);
      case DoRemove(a, p, opID, revision) => RemoveEvolves(l, now, a, p, opID, revision);
      case DoRetire(version, epoch, members) => RetireEvolves(l, now, version, epoch, members);
      case DoAcknowledge(version, epoch, member) => AcknowledgeEvolves(l, c, now, version, epoch, member);
      case DoReconcile(version, manifest) => ReconcileEvolves(l, version, manifest);
      case _ => PlainFollows(l, c, now, q);
    }
  }

  /** Every mark goes back to a successful removal by the owner of the project at that time. */
  lemma {:induction false} RemovedByOwner(stages: seq<Stage>, requests: seq<Request>, c: Limits, i: nat, id: VersionId)
    returns (j: nat)
    requires IsRun(stages, requests, c) && i < |stages|
    requires id in stages[i].ledger.removals && id !in stages[0].ledger.removals
    ensures j < i && Removes(stages[j].ledger, requests[j], id)
            && Perform(stages[j].ledger, c, stages[j + 1].now, requests[j]).Ok?
  {
    hide Inv, Step, Perform, Removes;
    if id in stages[i - 1].ledger.removals {
      j := RemovedByOwner(stages, requests, c, i - 1, id);
    } else {
      j := i - 1;
      RunInv(stages, requests, c, j);
      Later(stages[j].ledger, c, stages[j].now, stages[i].now);
      StepRemovals(stages[j].ledger, c, stages[i].now, requests[j], id);
    }
  }

  /** A completed publication of an undeleted project stops being retained only if it is marked as removed. */
  lemma KeptUnlessMarked(stages: seq<Stage>, requests: seq<Request>, c: Limits, i: nat, opID: string)
    requires IsRun(stages, requests, c) && i + 1 < |stages|
    requires opID in stages[i].ledger.operations && stages[i].ledger.operations[opID].state == Complete
    requires var l, id := stages[i].ledger, VersionOfOperation(stages[i].ledger.operations[opID]);
             id in l.versions && l.versions[id].state == Retained && id.project in l.projects
               && l.projects[id.project].status != Deleted
    requires var m, id := stages[i + 1].ledger, VersionOfOperation(stages[i].ledger.operations[opID]);
             id in m.versions && m.versions[id].state != Retained
    ensures VersionOfOperation(stages[i].ledger.operations[opID]) in stages[i].ledger.removals
  {
    hide Inv, Step, IsRun;
    var l := stages[i].ledger;
    CompletedHere(stages, requests, c, i, opID);
    var id := VersionOfOperation(l.operations[opID]);
    StepVersions(l, c, stages[i + 1].now, requests[i], id);
  }

  /**
   A completed publication of an undeleted project stops being retained only after its owner successfully removed
   it, at an earlier step of the run.
   */
  lemma KeptUntilRemoved(stages: seq<Stage>, requests: seq<Request>, c: Limits, i: nat, opID: string) returns (j: nat)
    requires IsRun(stages, requests, c) && i + 1 < |stages| && stages[0].ledger.removals == {}
    requires opID in stages[i].ledger.operations && stages[i].ledger.operations[opID].state == Complete
    requires var l, id := stages[i].ledger, VersionOfOperation(stages[i].ledger.operations[opID]);
             id in l.versions && l.versions[id].state == Retained && id.project in l.projects
               && l.projects[id.project].status != Deleted
    requires var m, id := stages[i + 1].ledger, VersionOfOperation(stages[i].ledger.operations[opID]);
             id in m.versions && m.versions[id].state != Retained
    ensures j < i && Removes(stages[j].ledger, requests[j], VersionOfOperation(stages[i].ledger.operations[opID]))
    ensures Perform(stages[j].ledger, c, stages[j + 1].now, requests[j]).Ok?
  {
    hide IsRun, Perform, Removes;
    KeptUnlessMarked(stages, requests, c, i, opID);
    j := RemovedByOwner(stages, requests, c, i, VersionOfOperation(stages[i].ledger.operations[opID]));
  }

  lemma CompletedHere(stages: seq<Stage>, requests: seq<Request>, c: Limits, i: nat, opID: string)
    requires IsRun(stages, requests, c) && i + 1 < |stages| && opID in stages[i].ledger.operations
    ensures i < |requests| && Inv(stages[i].ledger, c, stages[i + 1].now)
            && stages[i + 1].ledger == Step(stages[i].ledger, c, stages[i + 1].now, requests[i])
    ensures var op := stages[i].ledger.operations[opID];
            op.id == opID && (op.storageGeneration == "" || op.storageGeneration == opID)
  {
    hide Linked, Serving, VersionsOk, BlocksOk, Pools, LiveOk, Queued, ProjectCharges, Quotas, Indexed, Named,
      AllocationsOk, Assigned, Step;
    RunInv(stages, requests, c, i);
    Later(stages[i].ledger, c, stages[i].now, stages[i + 1].now);
    assert PublishOk(stages[i].ledger.operations[opID], stages[i].ledger.versions, stages[i].ledger.removals);
  }

  /** One idempotency key is charged at most once: after the first success a repeated reservation changes nothing. */
  lemma ChargedOnce(stages: seq<Stage>, requests: seq<Request>, c: Limits, i: nat, j: nat)
    requires IsRun(stages, requests, c) && i < j < |requests| && requests[i].DoReserve? && requests[j].DoReserve?
             && requests[i].op == requests[j].op
    requires Perform(stages[i].ledger, c, stages[i + 1].now, requests[i]).Ok?
    ensures stages[j + 1].ledger == stages[j].ledger
  {
    hide Inv, Evolves;
    ReservationRecorded(stages[i].ledger, c, stages[i + 1].now, requests[i].a, requests[i].r, requests[i].offers,
                        requests[i].op);
    RunEvolves(stages, requests, c, i + 1, j);
    OperationsRemain(stages[i + 1].ledger, stages[j].ledger, requests[i].op);
    RetryChangesNothing(stages[j].ledger, c, stages[j + 1].now, requests[j]);
  }

  lemma OperationsRemain(l: Ledger, m: Ledger, o: string)
    requires Evolves(l, m) && o in l.operations
    ensures o in m.operations
  {}

  lemma ReservationRecorded(l: Ledger, c: Limits, now: int, a: Actor, r: Reservation, offers: seq<Offer>,
                            opID: OperationId)
    requires Reserve(l, c, now, a, r, offers, opID).Ok?
    ensures opID in Reserve(l, c, now, a, r, offers, opID).value.operations
  {
    hide Target, DigestBlocked, QuotaAfter, Allocate, ValidReservation, PutProject, Usable, Stored;
  }

  lemma RetryChangesNothing(l: Ledger, c: Limits, now: int, q: Request)
    requires q.DoReserve? && q.op in l.operations
    ensures Step(l, c, now, q) == l
  {
    hide Target, DigestBlocked, QuotaAfter, Allocate, ValidReservation, Usable, Booked;
  }

  lemma ReserveDeletesNothing(l: Ledger, c: Limits, now: int, a: Actor, r: Reservation, offers: seq<Offer>,
                              op: OperationId, id: string)
    requires Inv(l, c, now) && Reserve(l, c, now, a, r, offers, op).Ok? && id in l.projects
             && l.projects[id].status != Deleted
    ensures var m := Reserve(l, c, now, a, r, offers, op).value; id in m.projects && m.projects[id].status != Deleted
  {
    hide Inv, Target, DigestBlocked, QuotaAfter, Allocate, ValidReservation, PutProject, VersionCharge, Booked,
      Targeted, Granted, Free, BeforePut;
    if op !in l.operations {
      var p := Target(l, now, a, r, op).value;
      var quota := QuotaAfter(l.quotas, c, p, r.projectID == "", VersionCharge(r.bytes)).value;
      ReserveFacts(l, c, now, a, r, offers, op, p);
      TargetServed(l, c, now, r, p);
      BookedShape(l, a, r, p, op, now, quota, Allocate(l, p, r, offers, op));
      var grant := Allocate(l, p, r, offers, op);
      BeforePutShape(l, r, p, grant.id, grant.version, grant.allocation, quota);
    }
  }

  lemma RenameDeletesNothing(l: Ledger, now: int, a: Actor, p: string, name: string, revision: int, hashed: string,
                             id: string)
    requires Identified(l.projects, l.operations) && Rename(l, now, a, p, name, revision, hashed).Ok?
             && id in l.projects && l.projects[id].status != Deleted
    ensures var m := Rename(l, now, a, p, name, revision, hashed).value;
            id in m.projects && m.projects[id].status != Deleted
  {
    hide PutProject, ChooseSlug, NewAlias;
  }

  /** A reservation or a rename deletes nothing. */
  lemma TakingDeletesNothing(l: Ledger, c: Limits, now: int, q: Request, id: string)
    requires Inv(l, c, now) && (q.DoReserve? || q.DoRename?) && Perform(l, c, now, q).Ok? && id in l.projects
             && l.projects[id].status != Deleted
    ensures id in Perform(l, c, now, q).value.projects && Perform(l, c, now, q).value.projects[id].status != Deleted
  {
    hide Inv, Reserve, Rename;
    InvIdentified(l, c, now);
    match q {
      case DoReserve(a, r, offers, op) => ReserveDeletesNothing(l, c, now, a, r, offers, op, id);
      case DoRename(a, p, name, revision, hashed) => RenameDeletesNothing(l, now, a, p, name, revision, hashed, id);
    }
  }

  /** All names of a project become free together when it is deleted. */
  lemma NamesFreed(stages: seq<Stage>, requests: seq<Request>, c: Limits, i: nat, id: string, s: string)
    requires IsRun(stages, requests, c) && i + 1 < |stages| && id in stages[i].ledger.projects
             && id in stages[i + 1].ledger.projects
    requires stages[i].ledger.projects[id].status != Deleted && stages[i + 1].ledger.projects[id].status == Deleted
    requires s in NamesAt(stages[i].ledger.names, id)
    ensures SlugOwner(stages[i + 1].ledger, s) == Ok("")
  {
    hide Inv, Perform, NamesAt;
    var l, m, q := stages[i].ledger, stages[i + 1].ledger, requests[i];
    RunInv(stages, requests, c, i);
    Later(l, c, stages[i].now, stages[i + 1].now);
    assert m == Step(l, c, stages[i + 1].now, q) && Perform(l, c, stages[i + 1].now, q).Ok?;
    if q.DoReserve? || q.DoRename? {
      TakingDeletesNothing(l, c, stages[i + 1].now, q, id);
    } else {
      NoNameTaken(l, c, stages[i + 1].now, q);
    }
    NameIsOwn(l, c, stages[i].now, id, s);
  }

  lemma NoNameTaken(l: Ledger, c: Limits, now: int, q: Request)
    requires Inv(l, c, now) && Perform(l, c, now, q).Ok? && !q.DoReserve? && !q.DoRename?
    ensures var m := Perform(l, c, now, q).value; forall s :: s in m.slugs ==> s in l.slugs && m.slugs[s] == l.slugs[s]
  {
    hide Inv, Evolves, Steady, Identified, Activate, Abort, Tombstone, Expire, SetPrivacy, SetWatermark, Claim,
      CreateTransfer, RevokeTransfer, Redeem, SelectRevision, RemoveRevision, Retire, Acknowledge, Reconcile,
      SetControl, LegacyFree;
    InvIdentified(l, c, now);
    match q {
      case DoRemove(a, p, opID, revision) => RemoveEvolves(l, now, a, p, opID, revision);
      case DoRetire(version, epoch, members) => RetireEvolves(l, now, version, epoch, members);
      case DoAcknowledge(version, epoch, member) => AcknowledgeEvolves(l, c, now, version, epoch, member);
      case DoReconcile(version, manifest) => ReconcileEvolves(l, version, manifest);
      case _ => PlainFollows(l, c, now, q);
    }
  }

  lemma NameIsOwn(l: Ledger, c: Limits, now: int, id: string, s: string)
    requires Inv(l, c, now) && id in l.projects && l.projects[id].status != Deleted && s in NamesAt(l.names, id)
    ensures s in l.slugs && l.slugs[s] == id
  {
    hide Identified, Linked, Serving, Publishing, VersionsOk, BlocksOk, Pools, LiveOk, Queued, ProjectCharges, Quotas,
      Indexed, Digested, AllocationsOk, Assigned;
    assert NamesOk(l.projects[id], id, l.slugs, l.names);
  }

  /* ---------- Pools that were opened empty ---------- */

  lemma ReserveLegacyFree(l: Ledger, c: Limits, now: int, a: Actor, r: Reservation, offers: seq<Offer>,
                          opID: OperationId)
    requires Inv(l, c, now) && LegacyFree(l.allocations) && Reserve(l, c, now, a, r, offers, opID).Ok?
    ensures LegacyFree(Reserve(l, c, now, a, r, offers, opID).value.allocations)
  {
    hide Inv, Target, DigestBlocked, QuotaAfter, Allocate, Booked, ValidReservation, LegacyFree, Granted, Targeted,
      BeforePut, PutProject, VersionCharge;
    if opID !in l.operations {
      var p := Target(l, now, a, r, opID).value;
      var q := QuotaAfter(l.quotas, c, p, r.projectID == "", VersionCharge(r.bytes)).value;
      var grant := Allocate(l, p, r, offers, opID);
      ReserveFacts(l, c, now, a, r, offers, opID, p);
      GrantedPools(l, r, opID, p, grant.id, grant.version, grant.allocation);
      BookedShape(l, a, r, p, opID, now, q, grant);
      BeforePutShape(l, r, p, grant.id, grant.version, grant.allocation, q);
    }
  }

  /** Without a reserve there is nothing to measure later: reconciliation is refused. */
  lemma ReconcileLegacyFree(l: Ledger, id: VersionId, m: F.Manifest)
    requires LegacyFree(l.allocations) && Reconcile(l, id, m).Ok?
    ensures Reconcile(l, id, m).value == l
  {
    hide F.Allowance, PriorBytes, PriorInodes;
    var v := l.versions[id];
    if v.unverified {
      B.UsageBounds(m, l.allocations[v.app].block);
    }
  }

  lemma StepLegacyFree(l: Ledger, c: Limits, now: int, q: Request)
    requires Inv(l, c, now) && LegacyFree(l.allocations)
    ensures LegacyFree(Step(l, c, now, q).allocations)
  {
    hide Inv, LegacyFree, Evolves, QueueStays, Identified, Reserve, Activate, Abort, Tombstone, Expire, SetPrivacy,
      SetWatermark, Rename, Claim, CreateTransfer, RevokeTransfer, Redeem, SelectRevision, RemoveRevision, Retire,
      Acknowledge, Reconcile, SetControl;
    InvIdentified(l, c, now);
    if Perform(l, c, now, q).Ok? {
      match q {
        case DoReserve(a, r, offers, op) => ReserveLegacyFree(l, c, now, a, r, offers, op);
        case DoRename(a, id, name, revision, hashed) => RenameEvolves(l, now, a, id, name, revision, hashed);
        case DoRemove(a, id, opID, revision) => RemoveEvolves(l, now, a, id, opID, revision);
        case DoRetire(version, epoch, members) => RetireEvolves(l, now, version, epoch, members);
        case DoAcknowledge(version, epoch, member) => AcknowledgeEvolves(l, c, now, version, epoch, member);
        case DoReconcile(version, manifest) => ReconcileLegacyFree(l, version, manifest);
        case _ => PlainFollows(l, c, now, q);
      }
    }
  }

  lemma {:induction false} RunLegacyFree(stages: seq<Stage>, requests: seq<Request>, c: Limits, i: nat)
    requires IsRun(stages, requests, c) && i < |stages| && stages[0].ledger == EMPTY
    ensures LegacyFree(stages[i].ledger.allocations)
  {
    hide Inv, Step;
    if i > 0 {
      RunLegacyFree(stages, requests, c, i - 1);
      RunInv(stages, requests, c, i - 1);
      Later(stages[i - 1].ledger, c, stages[i - 1].now, stages[i].now);
      StepLegacyFree(stages[i - 1].ledger, c, stages[i].now, requests[i - 1]);
    }
  }

  /** From the empty ledger, through any run: once all versions of a pool are reclaimed, the pool is back at exactly
     zero. */
  lemma ReclaimedPoolIsZero(stages: seq<Stage>, requests: seq<Request>, c: Limits, i: nat, app: AppName)
    requires IsRun(stages, requests, c) && i < |stages| && stages[0].ledger == EMPTY
    requires app in stages[i].ledger.allocations && stages[i].ledger.allocations[app].schema == 2
    requires forall id ::
             id in stages[i].ledger.versions && stages[i].ledger.versions[id].app == app ==>
             stages[i].ledger.versions[id].state == Reclaimed
    ensures var a := stages[i].ledger.allocations[app];
            a.bytes == 0 && a.inodes == 0 && a.contentBytes == 0 && a.versions == 0 && a.liveBytes == 0
  {
    hide IsRun;
    RunLegacyFree(stages, requests, c, i);
    ReclaimedPoolIsEmpty(stages, requests, c, i, app);
  }

  /* ---------- What is pending is queued ---------- */

  /** The version of every pending operation is in the maintenance queue, even if its project serves it already. */
  ghost predicate PendingQueued(l: Ledger) {
    forall o :: o in l.operations && l.operations[o].state == Pending ==>
                  && VersionOfOperation(l.operations[o]) in l.versions
                  && (l.versions[VersionOfOperation(l.operations[o])].app,
                      VersionOfOperation(l.operations[o])) in l.queue
  }

  /** The queue after a step: it may lose what its project no longer waits for, or what has been reclaimed. */
  ghost predicate QueueMoves(l: Ledger, m: Ledger) {
    forall x :: x in l.queue && x !in m.queue ==>
                  || (x.1.project in m.projects && m.projects[x.1.project].pendingOperation == "")
                  || (x.1 in l.versions && l.versions[x.1].state == Retiring)
  }

  lemma ReserveQueue(l: Ledger, c: Limits, now: int, a: Actor, r: Reservation, offers: seq<Offer>, opID: OperationId)
    requires Inv(l, c, now) && Reserve(l, c, now, a, r, offers, opID).Ok?
    ensures var m := Reserve(l, c, now, a, r, offers, opID).value;
            && l.queue <= m.queue && m.operations.Keys == l.operations.Keys + {opID}
            && (forall o :: o in l.operations ==> m.operations[o] == l.operations[o])
            && (opID !in l.operations ==>
                  VersionOfOperation(m.operations[opID]) in m.versions
                  && (m.versions[VersionOfOperation(m.operations[opID])].app,
                      VersionOfOperation(m.operations[opID])) in m.queue)
  {
    hide Inv, Target, DigestBlocked, QuotaAfter, Allocate, Booked, ValidReservation, Evolves, Targeted, Granted,
      VersionCharge;
    if opID !in l.operations {
      var p := Target(l, now, a, r, opID).value;
      var q := QuotaAfter(l.quotas, c, p, r.projectID == "", VersionCharge(r.bytes)).value;
      var grant := Allocate(l, p, r, offers, opID);
      ReserveFacts(l, c, now, a, r, offers, opID, p);
      BookedEvolves(l, c, now, a, r, p, opID, q, grant);
      BookedOperation(l, c, a, r, p, opID, now, q, grant);
    }
  }

  lemma BookedOperation(l: Ledger, c: Limits, a: Actor, r: Reservation, p: Project, opID: OperationId, now: int,
                        q: Quota, grant: Offering)
    requires grant.Grant? && Booked(l, a, r, p, opID, now, q, grant).Ok?
             && Granted(l, p, r, opID, grant.id, grant.version, grant.allocation)
    ensures var m := Booked(l, a, r, p, opID, now, q, grant).value;
            && m.operations == l.operations[opID := PendingOperation(a, r, p, opID, grant.id.generation, now)]
            && VersionOfOperation(m.operations[opID]) == grant.id
  {
    hide PutProject, VersionCharge, Granted, Booked, BeforePut;
    BookedShape(l, a, r, p, opID, now, q, grant);
    BeforePutShape(l, r, p, grant.id, grant.version, grant.allocation, q);
    GrantedShape(l, p, r, opID, grant.id, grant.version, grant.allocation);
  }

  lemma StepQueue(l: Ledger, c: Limits, now: int, q: Request)
    requires Inv(l, c, now)
    ensures QueueMoves(l, Step(l, c, now, q))
  {
    hide Inv, Evolves, Identified, Reserve, Activate, Abort, Tombstone, Expire, SetPrivacy, SetWatermark, Rename, Claim,
      CreateTransfer, RevokeTransfer, Redeem, SelectRevision, RemoveRevision, Retire, Acknowledge, Reconcile,
      SetControl, LegacyFree;
    InvIdentified(l, c, now);
    if Perform(l, c, now, q).Ok? {
      match q {
        case DoReserve(a, r, offers, op) => ReserveQueue(l, c, now, a, r, offers, op);
        case DoRename(a, p, name, revision, hashed) => RenameEvolves(l, now, a, p, name, revision, hashed);
        case DoRemove(a, p, opID, revision) => RemoveEvolves(l, now, a, p, opID, revision);
        case DoRetire(version, epoch, members) => RetireEvolves(l, now, version, epoch, members);
        case DoAcknowledge(version, epoch, member) => AcknowledgeEvolves(l, c, now, version, epoch, member);
        case DoReconcile(version, manifest) => ReconcileEvolves(l, version, manifest);
        case _ => PlainFollows(l, c, now, q);
      }
    }
  }

  /** Only a first reservation adds an operation. */
  lemma NewOperation(l: Ledger, c: Limits, now: int, q: Request, o: string)
    requires Inv(l, c, now) && o in Step(l, c, now, q).operations && o !in l.operations
    ensures q.DoReserve? && q.op == o && Perform(l, c, now, q).Ok?
  {
    hide Inv, Evolves, QueueStays, Identified, Reserve, Activate, Abort, Tombstone, Expire, SetPrivacy, SetWatermark,
      Rename, Claim, CreateTransfer, RevokeTransfer, Redeem, SelectRevision, RemoveRevision, Retire, Acknowledge,
      Reconcile, SetControl, LegacyFree;
    InvIdentified(l, c, now);
    match q {
      case DoReserve(a, r, offers, op) => ReserveQueue(l, c, now, a, r, offers, op);
      case DoRename(a, p, name, revision, hashed) => RenameEvolves(l, now, a, p, name, revision, hashed);
      case DoRemove(a, p, opID, revision) => RemoveEvolves(l, now, a, p, opID, revision);
      case DoRetire(version, epoch, members) => RetireEvolves(l, now, version, epoch, members);
      case DoAcknowledge(version, epoch, member) => AcknowledgeEvolves(l, c, now, version, epoch, member);
      case DoReconcile(version, manifest) => ReconcileEvolves(l, version, manifest);
      case _ => PlainFollows(l, c, now, q);
    }
  }

  /** A pending operation of a consistent ledger: its version is retained in the pool of a project that waits for it. */
  lemma PendingPlace(l: Ledger, c: Limits, now: int, o: string)
    requires Inv(l, c, now) && o in l.operations && l.operations[o].state == Pending
    ensures var id := VersionOfOperation(l.operations[o]);
            && id in l.versions && l.versions[id].state == Retained && id.project in l.projects
            && l.projects[id.project].pendingOperation == o && o != ""
            && l.versions[id].app == l.projects[id.project].storageApp
  {
    hide BlocksOk, Pools, LiveOk, Queued, ProjectCharges, Quotas, Indexed, Digested, Named, AllocationsOk, Assigned,
      MeasuredOk, Serving;
    assert PublishOk(l.operations[o], l.versions, l.removals);
    PendingFacts(l, l.operations[o]);
  }

  lemma OnePendingQueued(l: Ledger, c: Limits, now: int, m: Ledger, o: string)
    requires Inv(l, c, now) && Inv(m, c, now) && PendingQueued(l) && Evolves(l, m) && QueueMoves(l, m)
    requires o in l.operations && o in m.operations && m.operations[o].state == Pending
    ensures VersionOfOperation(m.operations[o]) in m.versions
    ensures (m.versions[VersionOfOperation(m.operations[o])].app, VersionOfOperation(m.operations[o])) in m.queue
  {
    hide Inv;
    assert OperationEvolves(l.operations[o], m.operations[o]);
    PendingPlace(l, c, now, o);
    PendingPlace(m, c, now, o);
    var id := VersionOfOperation(l.operations[o]);
    assert ProjectEvolves(l.projects[id.project], m.projects[id.project]);
    assert (l.versions[id].app, id) in l.queue;
  }

  lemma StepPendingQueued(l: Ledger, c: Limits, now: int, q: Request)
    requires Inv(l, c, now) && PendingQueued(l)
    ensures PendingQueued(Step(l, c, now, q))
  {
    hide Inv, Evolves, QueueMoves, Reserve;
    var m := Step(l, c, now, q);
    PerformInv(l, c, now, q);
    StepEvolves(l, c, now, q);
    StepQueue(l, c, now, q);
    forall o | o in m.operations && m.operations[o].state == Pending
      ensures VersionOfOperation(m.operations[o]) in m.versions
      ensures (m.versions[VersionOfOperation(m.operations[o])].app, VersionOfOperation(m.operations[o])) in m.queue
    {
      if o in l.operations {
        OnePendingQueued(l, c, now, m, o);
      } else {
        NewOperation(l, c, now, q, o);
        ReserveQueue(l, c, now, q.a, q.r, q.offers, q.op);
      }
    }
  }

  /** In every state of every run that starts so, for example from the empty ledger. */
  lemma {:induction false} RunPendingQueued(stages: seq<Stage>, requests: seq<Request>, c: Limits, i: nat)
    requires IsRun(stages, requests, c) && i < |stages| && PendingQueued(stages[0].ledger)
    ensures PendingQueued(stages[i].ledger)
  {
    hide Inv, Step, PendingQueued;
    if i > 0 {
      RunPendingQueued(stages, requests, c, i - 1);
      RunInv(stages, requests, c, i - 1);
      Later(stages[i - 1].ledger, c, stages[i - 1].now, stages[i].now);
      StepPendingQueued(stages[i - 1].ledger, c, stages[i].now, requests[i - 1]);
    }
  }
}
