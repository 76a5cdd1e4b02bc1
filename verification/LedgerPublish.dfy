/** The transactions that settle a publication or choose among publications keep the ledger consistent. */
module LedgerPublish {
  import opened Projects
  import opened LedgerRules
  import opened LedgerInv
  import opened LedgerSteps

  lemma PublishingSettles(operations: OperationMap, versions: VersionMap, removals: set<VersionId>, op: Operation)
    requires Publishing(operations, versions, removals) && op.id in operations && op.state != Pending
    requires op == operations[op.id].(state := op.state, publishedAt := op.publishedAt)
    ensures Publishing(operations[op.id := op], versions, removals)
  {
    assert PublishOk(operations[op.id], versions, removals);
  }

  /* ---------- Activate ---------- */

  lemma PendingFacts(l: Ledger, op: Operation)
    requires Identified(l.projects, l.operations) && Linked(l.projects, l.operations)
             && Publishing(l.operations, l.versions, l.removals)
    requires op.id in l.operations && op == l.operations[op.id] && op.state == Pending
    ensures op.projectID in l.projects && l.projects[op.projectID].pendingOperation == op.id
            && l.projects[op.projectID].status != Deleted
    ensures op.isNew <==> l.projects[op.projectID].status == Reserved
    ensures PublishOk(op, l.versions, l.removals)
  {
    assert PendingOk(l.projects[op.projectID], l.operations);
  }

  lemma ActivatedServing(l: Ledger, p: Project, op: Operation, password: Password, now: int)
    requires PublishOk(op, l.versions, l.removals) && op.state == Pending && Usable(l, p, op)
    ensures ServingOk(Activated(p, op, password, now), l.versions, l.removals)
  {}

  /** The digest records after an activation. */
  lemma ActivatedDigests(l: Ledger, p: Project, op: Operation, next: Project, now: int)
    requires Identified(l.projects, l.operations) && Digested(l.digests, l.projects, now) && p.id in l.projects
             && p == l.projects[p.id]
    requires op.digest in l.digests && l.digests[op.digest] == DigestRecord(p.id, op.id)
    requires next.id == p.id && next.activeDigest == op.digest && (p.activeDigest == "" ==> p.status == Reserved)
    requires Serving(l.projects, l.versions, l.removals)
    ensures var released := if p.activeDigest != "" && p.activeDigest != op.digest
            then Release(l.digests, p.activeDigest, p.id) else l.digests;
            Digested(released[op.digest := DigestRecord(p.id, "")], l.projects[p.id := next], now)
  {
    if p.activeDigest == "" {
      forall id | id in l.projects && id != p.id && l.projects[id].Live(now)
        ensures l.projects[id].activeDigest != op.digest
      {
        assert ServingOk(l.projects[id], l.versions, l.removals);
      }
    } else {
      DigestedServe(l.digests, l.projects, now, next);
    }
  }

  lemma InstallInv(l: Ledger, c: Limits, now: int, p: Project, op: Operation, password: Password)
    requires Inv(l, c, now) && op.id in l.operations && op == l.operations[op.id] && op.state == Pending
             && op.projectID in l.projects && p == l.projects[op.projectID]
    requires Usable(l, p, op) && op.digest in l.digests && l.digests[op.digest] == DigestRecord(p.id, op.id)
             && Install(l, now, p, op, password).Ok?
    ensures Inv(Install(l, now, p, op, password).value, c, now)
  {
    hide Linked, Serving, Publishing, VersionsOk, BlocksOk, Pools, LiveOk, Queued, ProjectCharges, Quotas, Indexed,
      Digested, Named, AllocationsOk, PutProject, Activated, Usable, Assigned, Release;
    PendingFacts(l, op);
    ServedFacts(l, p);
    ActivatedServing(l, p, op, password, now);
    ActivatedShape(p, op, password, now);
    ActivatedDigests(l, p, op, Activated(p, op, password, now), now);
    var released := if p.activeDigest != "" && p.activeDigest != op.digest then Release(l.digests, p.activeDigest, p.id)
      else l.digests;
    SettledInv(l, c, now, Activated(p, op, password, now), op.(state := Complete, publishedAt := now),
               l.(operations := l.operations[op.id := op.(state := Complete, publishedAt := now)],
                  digests := released[op.digest := DigestRecord(p.id, "")]),
               Install(l, now, p, op, password).value);
  }

  lemma ActivateInv(l: Ledger, c: Limits, now: int, a: Actor, opID: string, password: Password)
    requires Inv(l, c, now) && Activate(l, now, a, opID, password).Ok?
    ensures Inv(Activate(l, now, a, opID, password).value, c, now)
  {
    hide Linked, Serving, Publishing, VersionsOk, BlocksOk, Pools, LiveOk, Queued, ProjectCharges, Quotas, Indexed,
      Digested, Named, AllocationsOk, Assigned, Install, Usable;
    var op := l.operations[opID];
    if op.state == Pending {
      InstallInv(l, c, now, l.projects[op.projectID], op, password);
    }
  }

  lemma ActivatedShape(p: Project, op: Operation, password: Password, now: int)
    ensures var next := Activated(p, op, password, now);
            && next.id == p.id && next.storageApp == p.storageApp && next.owner == p.owner && next.slug == p.slug
            && next.aliasCount == p.aliasCount
            && next.chargedBytes == p.chargedBytes && next.status == Active && next.pendingOperation == ""
            && next.activeDigest == op.digest
  {}

  /** A pending operation is settled and its undeleted project stays undeleted. */
  lemma SettledInv(l: Ledger, c: Limits, now: int, next: Project, op: Operation, before: Ledger, after: Ledger)
    requires Inv(l, c, now) && next.id in l.projects && PutProject(before, next) == Ok(after)
    requires before == l.(operations := l.operations[op.id := op], digests := before.digests)
    requires op.id in l.operations && op.id != "" && op.state != Pending
             && op == l.operations[op.id].(state := op.state, publishedAt := op.publishedAt)
    requires var p := l.projects[next.id];
             && next.storageApp == p.storageApp && next.owner == p.owner && next.slug == p.slug
             && next.aliasCount == p.aliasCount && next.chargedBytes == p.chargedBytes
             && p.status != Deleted && next.status == Active && next.pendingOperation == ""
             && p.pendingOperation == op.id
    requires op.projectID == next.id && ServingOk(next, l.versions, l.removals)
             && Digested(before.digests, l.projects[next.id := next], now)
    ensures Inv(after, c, now)
  {
    hide Linked, Serving, Publishing, VersionsOk, BlocksOk, Pools, LiveOk, Queued, ProjectCharges, Quotas, Indexed,
      Digested, Named, AllocationsOk, Assigned, Identified, PutProject, ServingOk, LegacyFree;
    IdentifiedSettles(l, next, op);
    PlacedFacts(l, next.id);
    PutDerived(before, next, after);
    LinkedSettles(l.projects, l.operations, next, op);
    PublishingSettles(l.operations, l.versions, l.removals, op);
    ServingPut(l.projects, l.versions, l.removals, next);
    VersionsPut(l.versions, l.projects, l.measured, next);
    AssignedPut(l.projects, l.allocations, next);
    ChargesPut(l.projects, l.versions, next);
    QuotasKeep(l.quotas, l.projects, c, next);
    NamedKeeps(l.slugs, l.names, l.projects, next);
  }

  lemma IdentifiedSettles(l: Ledger, next: Project, op: Operation)
    requires Identified(l.projects, l.operations) && next.id in l.projects && op.id in l.operations && op.id != ""
             && op.projectID == next.id
    ensures Identified(l.projects[next.id := next], l.operations[op.id := op])
    ensures forall id :: id in l.projects ==> l.projects[id].id == id
    ensures l.operations[op.id].id == op.id
  {}

  lemma PlacedFacts(l: Ledger, id: string)
    requires Assigned(l.projects, l.allocations) && Serving(l.projects, l.versions, l.removals) && id in l.projects
    ensures var p := l.projects[id];
            && p.storageApp != "" && p.storageApp in l.allocations && l.allocations[p.storageApp].schema == 2
            && (p.status == Active ==> p.activeDigest != "")
  {
    assert ServingOk(l.projects[id], l.versions, l.removals);
  }

  /* ---------- Abort ---------- */

  lemma WithdrawnDigests(l: Ledger, p: Project, op: Operation, next: Project, now: int)
    requires Digested(l.digests, l.projects, now) && p.id in l.projects && p == l.projects[p.id] && next.id == p.id
    requires next.Live(now) ==> p.Live(now) && next.activeDigest == p.activeDigest
    ensures Digested(Withdrawn(l.digests, p, op), l.projects[p.id := next], now)
  {}

  lemma AbortedUpdate(l: Ledger, c: Limits, now: int, op: Operation, after: Ledger)
    requires Inv(l, c, now) && op.id in l.operations && op == l.operations[op.id] && op.state == Pending && !op.isNew
    requires var p := l.projects[op.projectID];
             PutProject(l.(digests := Withdrawn(l.digests, p, op),
                           operations := l.operations[op.id := op.(state := Aborted)]), p.(pendingOperation := "")) ==
               Ok(after)
    ensures Inv(after, c, now)
  {
    hide Linked, Serving, Publishing, VersionsOk, BlocksOk, Pools, LiveOk, Queued, ProjectCharges, Quotas, Indexed,
      Digested, Named, AllocationsOk, PutProject, Assigned, Withdrawn;
    PendingFacts(l, op);
    var p := l.projects[op.projectID];
    var next := p.(pendingOperation := "");
    ServedFacts(l, p);
    WithdrawnDigests(l, p, op, next, now);
    SettledInv(l, c, now, next, op.(state := Aborted),
               l.(digests := Withdrawn(l.digests, p, op), operations := l.operations[op.id := op.(state := Aborted)]),
               after);
  }

  lemma NamedDrop(l: Ledger, p: Project, next: Project)
    requires Named(l.slugs, l.names, l.projects) && p.id in l.projects && p == l.projects[p.id] && p.status != Deleted
    requires next.id == p.id && next.status == Deleted
    ensures Named(l.slugs - {p.slug}, l.names, l.projects[p.id := next])
  {
    assert NamesOk(p, p.id, l.slugs, l.names);
    var projects := l.projects[p.id := next];
    forall id | id in projects
      ensures NamesOk(projects[id], id, l.slugs - {p.slug}, l.names)
    {
      if id != p.id { assert NamesOk(l.projects[id], id, l.slugs, l.names); }
    }
  }

  /** The records of a withdrawn new project that do not depend on names, digests or quotas. */
  lemma DroppedRecords(l: Ledger, c: Limits, now: int, p: Project, op: Operation, next: Project)
    requires Inv(l, c, now) && op.id in l.operations && op == l.operations[op.id] && op.state == Pending && op.isNew
    requires op.projectID in l.projects && p == l.projects[op.projectID]
    requires next == p.(pendingOperation := "", status := Deleted)
    ensures var projects, operations := l.projects[p.id := next], l.operations[op.id := op.(state := Aborted)];
            && p.id == op.projectID && p.status == Reserved && p.storageApp != "" && p.storageApp in l.allocations
            && l.allocations[p.storageApp].schema == 2
            && Identified(projects, operations) && Linked(projects, operations)
            && Serving(projects, l.versions, l.removals) && Publishing(operations, l.versions, l.removals)
            && VersionsOk(l.versions, projects, l.measured) && Assigned(projects, l.allocations)
            && ProjectCharges(projects, l.versions)
  {
    hide Linked, Serving, Publishing, VersionsOk, BlocksOk, Pools, LiveOk, Queued, ProjectCharges, Quotas, Indexed,
      Digested, Named, AllocationsOk;
    PendingFacts(l, op);
    ServedFacts(l, p);
    LinkedSettles(l.projects, l.operations, next, op.(state := Aborted));
    PublishingSettles(l.operations, l.versions, l.removals, op.(state := Aborted));
    ServingPut(l.projects, l.versions, l.removals, next);
    VersionsPut(l.versions, l.projects, l.measured, next);
    AssignedPut(l.projects, l.allocations, next);
    ChargesPut(l.projects, l.versions, next);
  }

  lemma AbortedNew(l: Ledger, c: Limits, now: int, op: Operation, q: Quota, after: Ledger)
    requires Inv(l, c, now) && op.id in l.operations && op == l.operations[op.id] && op.state == Pending && op.isNew
    requires var p := l.projects[op.projectID];
             && ReadQuota(l.quotas, p.owner) == Ok(q) && q.count > 0
             && PutProject(l.(digests := Withdrawn(l.digests, p, op),
                              operations := l.operations[op.id := op.(state := Aborted)],
                              quotas := l.quotas[p.owner := q.(count := q.count - 1)], slugs := l.slugs - {p.slug}),
                           p.(pendingOperation := "", status := Deleted)) == Ok(after)
    ensures Inv(after, c, now)
  {
    hide Linked, Serving, Publishing, VersionsOk, BlocksOk, Pools, LiveOk, Queued, ProjectCharges, Quotas, Indexed,
      Digested, Named, AllocationsOk, PutProject, Withdrawn, QuotaOk, Limits.Bytes, Limits.Count, Identified, Assigned;
    assert op.projectID in l.projects by { PendingFacts(l, op); }
    var p := l.projects[op.projectID];
    var next := p.(pendingOperation := "", status := Deleted);
    var before := l.(digests := Withdrawn(l.digests, p, op), operations := l.operations[op.id := op.(state := Aborted)],
                     quotas := l.quotas[p.owner := q.(count := q.count - 1)], slugs := l.slugs - {p.slug});
    DroppedRecords(l, c, now, p, op, next);
    PutDerived(before, next, after);
    OwnerQuota(l, c, p.owner);
    QuotasOne(l.quotas, q.(count := q.count - 1), l.projects, c, next);
    WithdrawnDigests(l, p, op, next, now);
    NamedDrop(l, p, next);
  }

  lemma AbortInv(l: Ledger, c: Limits, now: int, who: Aborter, opID: string)
    requires Inv(l, c, now) && Abort(l, now, who, opID).Ok?
    ensures Inv(Abort(l, now, who, opID).value, c, now)
  {
    hide Linked, Serving, Publishing, VersionsOk, BlocksOk, Pools, LiveOk, Queued, ProjectCharges, Quotas, Indexed,
      Digested, Named, AllocationsOk, PutProject, Assigned, Withdrawn;
    var op := l.operations[opID];
    var after := Abort(l, now, who, opID).value;
    if op.state == Pending && !(who.ByMaintenance? && now < op.expiresAt) {
      if op.isNew {
        AbortedNew(l, c, now, op, ReadQuota(l.quotas, l.projects[op.projectID].owner).value, after);
      } else {
        AbortedUpdate(l, c, now, op, after);
      }
    }
  }

  /* ---------- Revisions ---------- */

  lemma RevisionFacts(l: Ledger, p: Project, opID: string, op: Operation)
    requires Publishing(l.operations, l.versions, l.removals) && AvailableRevision(l, p, opID) == Ok(op)
    ensures op.digest != "" && VersionOfOperation(op) in l.versions && VersionOfOperation(op) !in l.removals
            && op.projectID == p.id
    ensures var v := l.versions[VersionOfOperation(op)];
            v.state == Retained && v.app == p.storageApp && v.contentBytes == op.bytes
  {
    assert PublishOk(l.operations[opID], l.versions, l.removals);
  }

  lemma ReselectInv(l: Ledger, c: Limits, now: int, p: Project, opID: string, op: Operation)
    requires Inv(l, c, now) && p.id in l.projects && p == l.projects[p.id] && p.status == Active
             && AvailableRevision(l, p, opID) == Ok(op)
    requires op.digest in l.digests ==> l.digests[op.digest].projectID == "" || l.digests[op.digest].projectID == p.id
    requires Reselect(l, now, p, op).Ok?
    ensures Inv(Reselect(l, now, p, op).value, c, now)
  {
    hide Linked, Serving, Publishing, VersionsOk, BlocksOk, Pools, LiveOk, Queued, ProjectCharges, Quotas, Indexed,
      Digested, Named, AllocationsOk, PutProject, AvailableRevision, Release;
    var next := Reselected(p, op, now);
    var released := if p.activeDigest != op.digest then Release(l.digests, p.activeDigest, p.id) else l.digests;
    RevisionFacts(l, p, opID, op);
    ServedFacts(l, p);
    PutDerived(l.(digests := released[op.digest := DigestRecord(p.id, "")]), next, Reselect(l, now, p, op).value);
    LinkedKeeps(l.projects, l.operations, next);
    ServingPut(l.projects, l.versions, l.removals, next);
    VersionsPut(l.versions, l.projects, l.measured, next);
    AssignedPut(l.projects, l.allocations, next);
    ChargesPut(l.projects, l.versions, next);
    QuotasKeep(l.quotas, l.projects, c, next);
    DigestedServe(l.digests, l.projects, now, next);
    NamedKeeps(l.slugs, l.names, l.projects, next);
  }

  lemma SelectInv(l: Ledger, c: Limits, now: int, a: Actor, id: string, opID: string, revision: int)
    requires Inv(l, c, now) && SelectRevision(l, now, a, id, opID, revision).Ok?
    ensures Inv(SelectRevision(l, now, a, id, opID, revision).value, c, now)
  {
    hide Linked, Serving, Publishing, VersionsOk, BlocksOk, Pools, LiveOk, Queued, ProjectCharges, Quotas, Indexed,
      Digested, Named, AllocationsOk, Assigned, AvailableRevision, Reselect;
    var p := l.projects[id];
    var op := AvailableRevision(l, p, opID).value;
    if !(p.activeDigest == op.digest && p.storageGeneration == op.storageGeneration) {
      ReselectInv(l, c, now, p, opID, op);
    }
  }

  /** A version that nothing serves and no pending operation installs can be marked as removed. */
  lemma RemovalKeeps(l: Ledger, id: VersionId)
    requires Serving(l.projects, l.versions, l.removals) && Publishing(l.operations, l.versions, l.removals)
             && Linked(l.projects, l.operations)
    requires Identified(l.projects, l.operations)
    requires id.project in l.projects && l.projects[id.project].pendingOperation == ""
             && !Serves(l.projects[id.project], id)
    ensures Serving(l.projects, l.versions, l.removals + {id})
            && Publishing(l.operations, l.versions, l.removals + {id})
  {
    forall p | p in l.projects
      ensures ServingOk(l.projects[p], l.versions, l.removals + {id})
    {
      assert ServingOk(l.projects[p], l.versions, l.removals);
    }
    forall o | o in l.operations
      ensures PublishOk(l.operations[o], l.versions, l.removals + {id})
    {
      assert PublishOk(l.operations[o], l.versions, l.removals);
    }
  }

  lemma QueuedMore(queue: set<(AppName, VersionId)>, more: set<(AppName, VersionId)>, versions: VersionMap,
                   projects: ProjectMap)
    requires Queued(queue, versions, projects) && queue <= more
    ensures Queued(more, versions, projects)
  {}

  lemma RemoveInv(l: Ledger, c: Limits, now: int, a: Actor, id: string, opID: string, revision: int)
    requires Inv(l, c, now) && RemoveRevision(l, now, a, id, opID, revision).Ok?
    ensures Inv(RemoveRevision(l, now, a, id, opID, revision).value, c, now)
  {
    hide Linked, Serving, Publishing, VersionsOk, BlocksOk, Pools, LiveOk, Queued, ProjectCharges, Quotas, Indexed,
      Digested, Named, AllocationsOk, Assigned, PutProject, AvailableRevision;
    var p := l.projects[id];
    var op := AvailableRevision(l, p, opID).value;
    var v := VersionOfOperation(op);
    var marked := Removed(l, p, op);
    RevisionFacts(l, p, opID, op);
    RemovalKeeps(l, v);
    QueuedMore(l.queue, marked.queue, l.versions, l.projects);
    KeptInv(marked, c, now, p.(revision := p.revision + 1, updatedAt := now),
            RemoveRevision(l, now, a, id, opID, revision).value);
  }
}
