/**
 What the records of the ledger have to do with each other, and how storing a
 project or a version keeps it so. Each predicate names only the records it is about.
 */
module LedgerInv {
  import opened Projects
  import opened LedgerRules
  import opened LedgerSums
  import F = Footprint
  import O = Ordering

  type ProjectMap = map<string, Project>
  type OperationMap = map<string, Operation>
  type VersionMap = map<VersionId, Version>
  type AllocationMap = map<AppName, Allocation>

  /* ---------- Operations and projects ---------- */

  ghost predicate Identified(projects: ProjectMap, operations: OperationMap) {
    && (forall id :: id in projects ==> projects[id].id == id && id != "")
    && (forall o :: o in operations ==> operations[o].id == o && o != "" && operations[o].projectID in projects)
  }

  ghost predicate PendingOk(p: Project, operations: OperationMap) {
    && (p.pendingOperation != "" ==>
          && p.pendingOperation in operations
          && var op := operations[p.pendingOperation];
             op.state == Pending && op.projectID == p.id && (op.isNew <==> p.status == Reserved))
    && (p.status == Reserved ==> p.pendingOperation != "")
    && (p.status == Deleted ==> p.pendingOperation == "")
  }

  /** A project waits for exactly the operation that is pending for it. */
  ghost predicate Linked(projects: ProjectMap, operations: OperationMap) {
    && (forall id :: id in projects ==> PendingOk(projects[id], operations))
    && (forall o :: o in operations && operations[o].state == Pending ==>
                      operations[o].projectID in projects && projects[operations[o].projectID].pendingOperation == o)
  }

  /* ---------- Content ---------- */

  /** The version an active project serves is stored, retained and was never removed. */
  ghost predicate ServingOk(p: Project, versions: VersionMap, removals: set<VersionId>) {
    && (p.status == Active ==>
          && p.activeDigest != "" && CurrentVersion(p) in versions && CurrentVersion(p) !in removals
          && var v := versions[CurrentVersion(p)];
             v.state == Retained && v.app == p.storageApp && v.contentBytes == p.activeBytes)
    && (p.status == Reserved ==> p.activeDigest == "")
  }

  ghost predicate Serving(projects: ProjectMap, versions: VersionMap, removals: set<VersionId>) {
    forall id :: id in projects ==> ServingOk(projects[id], versions, removals)
  }

  /** Every operation's version is stored, and a pending operation's version is retained and was never removed. */
  ghost predicate PublishOk(op: Operation, versions: VersionMap, removals: set<VersionId>) {
    && op.digest != "" && (op.storageGeneration == "" || op.storageGeneration == op.id)
    && VersionOfOperation(op) in versions
    && versions[VersionOfOperation(op)].contentBytes == op.bytes
    && (op.state == Pending ==>
        versions[VersionOfOperation(op)].state == Retained && VersionOfOperation(op) !in removals)
  }

  ghost predicate Publishing(operations: OperationMap, versions: VersionMap, removals: set<VersionId>) {
    forall o :: o in operations ==> PublishOk(operations[o], versions, removals)
  }

  /* ---------- Storage ---------- */

  ghost predicate Assigned(projects: ProjectMap, allocations: AllocationMap) {
    forall id :: id in projects ==>
                   projects[id].storageApp != "" && projects[id].storageApp in allocations
                     && allocations[projects[id].storageApp].schema == 2
  }

  ghost predicate AllocationOk(a: Allocation) {
    && (a.schema == 2 ==>
        a.fence == MEASURED_FENCE && 1 <= a.block <= F.MAX_BLOCK && a.legacyBytes >= 0 && a.legacyInodes >= 0)
    && (a.schema == 0 ==>
        a.contentBytes == 0 && a.liveBytes == 0 && a.versions == 0 && a.legacyBytes == 0 && a.legacyInodes == 0)
  }

  ghost predicate AllocationsOk(allocations: AllocationMap) {
    forall app :: app in allocations ==> AllocationOk(allocations[app])
  }

  /** A measured version records exactly its footprint at the block size it was measured with. */
  ghost predicate MeasuredOk(id: VersionId, v: Version, measured: map<VersionId, F.Manifest>) {
    && 1 <= v.block <= F.MAX_BLOCK && id in measured && v.inodes >= 0
    && F.Allowance(measured[id], v.block) == F.Measured(F.Usage(v.contentBytes, v.bytes, v.inodes))
  }

  ghost predicate BlockOk(v: Version, a: Allocation) {
    a.schema == 2 && (!v.unverified ==> 1 <= v.block <= a.block && a.block % v.block == 0)
  }

  ghost predicate LifecycleOk(v: Version, deleted: bool) {
    && 0 <= v.contentBytes <= F.MAX_CONTENT && v.quotaBytes > 0
    && (v.unverified ==> v.state == Retained)
    && (v.state == Retained ==> v.epoch == "")
    && (v.state == Retiring ==> |v.epoch| == 64 && !AllAcknowledged(v))
    && (v.state == Reclaimed ==> AllAcknowledged(v))
    && (v.projectDeleted ==> deleted)
  }

  ghost predicate VersionsOk(versions: VersionMap, projects: ProjectMap, measured: map<VersionId, F.Manifest>) {
    forall id :: id in versions ==>
                   && id.project in projects && projects[id.project].storageApp == versions[id].app
                   && LifecycleOk(versions[id], projects[id.project].status == Deleted)
                   && (!versions[id].unverified ==> MeasuredOk(id, versions[id], measured))
  }

  ghost predicate BlocksOk(versions: VersionMap, allocations: AllocationMap) {
    forall id ::
      id in versions ==> versions[id].app in allocations && BlockOk(versions[id], allocations[versions[id].app])
  }

  /** The exact contents of a pool. */
  ghost predicate PoolOk(a: Allocation, app: AppName, versions: VersionMap) {
    a.schema == 2 ==>
      && a.bytes == a.legacyBytes + Sum(versions, SpaceOf(app, a.block))
      && a.inodes == a.legacyInodes + Sum(versions, InodesOf(app))
      && a.contentBytes == Sum(versions, ContentOf(app))
      && a.versions == Sum(versions, NumberOf(app))
  }

  ghost predicate Pools(allocations: AllocationMap, versions: VersionMap) {
    forall app :: app in allocations ==> PoolOk(allocations[app], app, versions)
  }

  ghost predicate LiveOk(allocations: AllocationMap, projects: ProjectMap) {
    forall app ::
      app in allocations && allocations[app].schema == 2 ==> allocations[app].liveBytes == Total(projects, LiveOf(app))
  }

  /** Every stored version that is not being served is in its pool's maintenance queue. */
  ghost predicate Queued(queue: set<(AppName, VersionId)>, versions: VersionMap, projects: ProjectMap) {
    forall id ::
      id in versions && versions[id].state != Reclaimed
      && !(id.project in projects && Serves(projects[id.project], id)) ==>
                   (versions[id].app, id) in queue
  }

  /* ---------- Quotas ---------- */

  ghost predicate ProjectCharges(projects: ProjectMap, versions: VersionMap) {
    forall id :: id in projects ==> projects[id].chargedBytes == Sum(versions, QuotaOf(id))
  }

  ghost predicate QuotaOk(quotas: map<Owner, Quota>, projects: ProjectMap, c: Limits, o: Owner) {
    && QuotaAt(quotas, o).charged == Total(projects, ChargedOf(o))
    && QuotaAt(quotas, o).count == Total(projects, CountOf(o))
    && 0 <= QuotaAt(quotas, o).charged <= c.Bytes(o) && 0 <= QuotaAt(quotas, o).count <= c.Count(o)
  }

  ghost predicate Quotas(quotas: map<Owner, Quota>, projects: ProjectMap, c: Limits) {
    && (forall o :: QuotaOk(quotas, projects, c, o))
    && (forall id :: id in projects ==> projects[id].owner in quotas)
  }

  /* ---------- Indexes ---------- */

  ghost function OwnedBy(projects: ProjectMap, o: Owner): set<string> {
    set id | id in projects && projects[id].owner == o && projects[id].status != Deleted
  }

  ghost predicate IndexOk(ids: seq<string>, owned: set<string>) {
    O.Sorted(ids) && O.Elements(ids) == owned && |ids| <= MAX_INDEX
  }

  ghost predicate Indexed(index: map<Owner, seq<string>>, projects: ProjectMap) {
    forall o :: IndexOk(IndexAt(index, o), OwnedBy(projects, o))
  }

  /** Every live project holds the digest record of the content it serves. */
  ghost predicate Digested(digests: map<string, DigestRecord>, projects: ProjectMap, now: int) {
    forall id :: id in projects && projects[id].Live(now) ==>
                   projects[id].activeDigest in digests && digests[projects[id].activeDigest].projectID == id
  }

  ghost predicate NamesOk(p: Project, id: string, slugs: map<string, string>, names: map<string, set<string>>) {
    p.status != Deleted ==>
      && id in names && p.slug in names[id] && |names[id]| == p.aliasCount + 1
      && (forall s :: s in names[id] ==> s in slugs && slugs[s] == id)
  }

  /** Every name an undeleted project ever took points to it, and nothing else does. */
  ghost predicate Named(slugs: map<string, string>, names: map<string, set<string>>, projects: ProjectMap) {
    && (forall s :: s in slugs ==> slugs[s] in projects)
    && (forall id :: id in projects ==> NamesOk(projects[id], id, slugs, names))
    && (forall s ::
        s in slugs && slugs[s] in projects && projects[slugs[s]].status != Deleted ==> s in NamesAt(names, slugs[s]))
  }

  ghost predicate Inv(l: Ledger, c: Limits, now: int) {
    && Identified(l.projects, l.operations)
    && Linked(l.projects, l.operations)
    && Serving(l.projects, l.versions, l.removals)
    && Publishing(l.operations, l.versions, l.removals)
    && Assigned(l.projects, l.allocations)
    && AllocationsOk(l.allocations)
    && VersionsOk(l.versions, l.projects, l.measured)
    && BlocksOk(l.versions, l.allocations)
    && Pools(l.allocations, l.versions)
    && LiveOk(l.allocations, l.projects)
    && Queued(l.queue, l.versions, l.projects)
    && ProjectCharges(l.projects, l.versions)
    && Quotas(l.quotas, l.projects, c)
    && Indexed(l.index, l.projects)
    && Digested(l.digests, l.projects, now)
    && Named(l.slugs, l.names, l.projects)
  }

  lemma EmptyInv(c: Limits, now: int)
    ensures Inv(EMPTY, c, now)
  {
    forall o: Owner
      ensures QuotaOk(EMPTY.quotas, EMPTY.projects, c, o)
              && IndexOk(IndexAt(EMPTY.index, o), OwnedBy(EMPTY.projects, o))
    {
      TotalEmpty(ChargedOf(o));
      TotalEmpty(CountOf(o));
      assert OwnedBy(EMPTY.projects, o) == {};
    }
  }

  /** As time passes, fewer projects are live, so a later clock asks for less. */
  lemma Later(l: Ledger, c: Limits, now: int, later: int)
    requires Inv(l, c, now) && now <= later
    ensures Inv(l, c, later)
  {}

  /* ---------- Replacing one project ---------- */

  lemma LinkedKeeps(projects: ProjectMap, operations: OperationMap, next: Project)
    requires Linked(projects, operations) && next.id in projects
    requires next.status == projects[next.id].status && next.pendingOperation == projects[next.id].pendingOperation
             && projects[next.id].id == next.id
    ensures Linked(projects[next.id := next], operations)
  {}

  lemma LinkedIdle(projects: ProjectMap, operations: OperationMap, next: Project)
    requires Linked(projects, operations) && next.id in projects && projects[next.id].pendingOperation == ""
             && next.pendingOperation == "" && next.status != Reserved
    requires forall o :: o in operations ==> o != ""
    ensures Linked(projects[next.id := next], operations)
  {}

  lemma LinkedStarts(projects: ProjectMap, operations: OperationMap, next: Project, op: Operation)
    requires Linked(projects, operations) && op.id !in operations && op.id != ""
    requires next.id in projects ==> projects[next.id].pendingOperation == ""
    requires next.pendingOperation == op.id && op.state == Pending && op.projectID == next.id
             && (op.isNew <==> next.status == Reserved) && next.status != Deleted
    requires forall o :: o in operations ==> operations[o].projectID in projects && o != ""
    ensures Linked(projects[next.id := next], operations[op.id := op])
  {}

  lemma LinkedSettles(projects: ProjectMap, operations: OperationMap, next: Project, op: Operation)
    requires Linked(projects, operations) && next.id in projects && op.id in operations && op.id != ""
    requires projects[next.id].pendingOperation == op.id && operations[op.id].projectID == next.id
             && op.projectID == next.id
    requires next.pendingOperation == "" && next.status != Reserved && op.state != Pending
    requires forall id :: id in projects ==> projects[id].id == id
    ensures Linked(projects[next.id := next], operations[op.id := op])
  {
    forall id | id in projects && id != next.id
      ensures PendingOk(projects[id], operations[op.id := op])
    {
      assert PendingOk(projects[id], operations);
    }
  }

  lemma ServingPut(projects: ProjectMap, versions: VersionMap, removals: set<VersionId>, next: Project)
    requires Serving(projects, versions, removals) && ServingOk(next, versions, removals)
    ensures Serving(projects[next.id := next], versions, removals)
  {}

  lemma VersionsPut(versions: VersionMap, projects: ProjectMap, measured: map<VersionId, F.Manifest>, next: Project)
    requires VersionsOk(versions, projects, measured)
    requires next.id in projects ==>
             next.storageApp == projects[next.id].storageApp
             && (projects[next.id].status == Deleted ==> next.status == Deleted)
    ensures VersionsOk(versions, projects[next.id := next], measured)
  {
    hide MeasuredOk;
  }

  lemma AssignedPut(projects: ProjectMap, allocations: AllocationMap, next: Project)
    requires Assigned(projects, allocations) && next.id in projects && next.storageApp == projects[next.id].storageApp
    ensures Assigned(projects[next.id := next], allocations)
  {}

  lemma ChargesPut(projects: ProjectMap, versions: VersionMap, next: Project)
    requires ProjectCharges(projects, versions) && next.id in projects
             && next.chargedBytes == projects[next.id].chargedBytes
    ensures ProjectCharges(projects[next.id := next], versions)
  {
    hide Sum;
  }

  function PriorWeight(projects: ProjectMap, m: ProjectMeasure, id: string): int {
    if id in projects then WeighProject(m, projects[id]) else 0
  }

  /** The quota of one owner follows the change of one project. */
  lemma QuotaPut(quotas: map<Owner, Quota>, after: map<Owner, Quota>, projects: ProjectMap, c: Limits, next: Project,
                 o: Owner)
    requires QuotaOk(quotas, projects, c, o)
    requires QuotaAt(after, o).charged ==
             QuotaAt(quotas, o).charged - PriorWeight(projects, ChargedOf(o), next.id)
             + WeighProject(ChargedOf(o), next)
    requires QuotaAt(after, o).count ==
             QuotaAt(quotas, o).count - PriorWeight(projects, CountOf(o), next.id) + WeighProject(CountOf(o), next)
    requires 0 <= QuotaAt(after, o).charged <= c.Bytes(o) && 0 <= QuotaAt(after, o).count <= c.Count(o)
    ensures QuotaOk(after, projects[next.id := next], c, o)
  {
    hide Total;
    TotalUpdate(projects, ChargedOf(o), next.id, next);
    TotalUpdate(projects, CountOf(o), next.id, next);
  }

  /** A change of a project that its owner's quota does not depend on. */
  lemma QuotasKeep(quotas: map<Owner, Quota>, projects: ProjectMap, c: Limits, next: Project)
    requires Quotas(quotas, projects, c) && next.id in projects
    requires next.owner == projects[next.id].owner && next.chargedBytes == projects[next.id].chargedBytes
    requires next.status == Deleted <==> projects[next.id].status == Deleted
    ensures Quotas(quotas, projects[next.id := next], c)
  {
    hide QuotaOk;
    var after := projects[next.id := next];
    forall o: Owner
      ensures QuotaOk(quotas, after, c, o)
    {
      assert QuotaOk(quotas, projects, c, o);
      QuotaBounds(quotas, projects, c, o);
      QuotaPut(quotas, quotas, projects, c, next, o);
    }
  }

  lemma QuotaBounds(quotas: map<Owner, Quota>, projects: ProjectMap, c: Limits, o: Owner)
    requires QuotaOk(quotas, projects, c, o)
    ensures 0 <= QuotaAt(quotas, o).charged <= c.Bytes(o) && 0 <= QuotaAt(quotas, o).count <= c.Count(o)
  {}

  lemma DigestedKeeps(digests: map<string, DigestRecord>, projects: ProjectMap, now: int, next: Project)
    requires Digested(digests, projects, now) && next.id in projects
    requires next.status == projects[next.id].status && next.activeDigest == projects[next.id].activeDigest
             && next.expiresAt == projects[next.id].expiresAt
    ensures Digested(digests, projects[next.id := next], now)
  {}

  lemma NamedKeeps(slugs: map<string, string>, names: map<string, set<string>>, projects: ProjectMap, next: Project)
    requires Named(slugs, names, projects) && next.id in projects
    requires next.slug == projects[next.id].slug && next.aliasCount == projects[next.id].aliasCount
    requires projects[next.id].status == Deleted ==> next.status == Deleted
    ensures Named(slugs, names, projects[next.id := next])
  {}

  /* ---------- What PutProject keeps ---------- */

  ghost predicate OnlyLiveDiffers(a: AllocationMap, b: AllocationMap) {
    && a.Keys == b.Keys
    && (forall app :: app in a ==> b[app] == a[app].(liveBytes := b[app].liveBytes))
    && (forall app :: app in a && a[app].schema != 2 ==> b[app] == a[app])
  }

  lemma OnlyLiveKeeps(a: AllocationMap, b: AllocationMap, projects: ProjectMap, versions: VersionMap)
    requires OnlyLiveDiffers(a, b)
    ensures Assigned(projects, a) ==> Assigned(projects, b)
    ensures AllocationsOk(a) ==> AllocationsOk(b)
    ensures BlocksOk(versions, a) ==> BlocksOk(versions, b)
    ensures Pools(a, versions) ==> Pools(b, versions)
  {
    hide Sum;
    if AllocationsOk(a) {
      forall app | app in b
        ensures AllocationOk(b[app])
      {
        assert AllocationOk(a[app]);
      }
    }
    if Pools(a, versions) {
      forall app | app in b
        ensures PoolOk(b[app], app, versions)
      {
        assert PoolOk(a[app], app, versions);
      }
    }
  }

  lemma PutLive(allocations: AllocationMap, projects: ProjectMap, next: Project, after: AllocationMap)
    requires LiveOk(allocations, projects) && next.storageApp != "" && next.storageApp in allocations
             && allocations[next.storageApp].schema == 2
    requires next.id in projects ==> projects[next.id].storageApp == next.storageApp
    requires LiveAfter(allocations, Prior(projects, next.id), next) == Ok(after)
    ensures LiveOk(after, projects[next.id := next]) && OnlyLiveDiffers(allocations, after)
  {
    hide Total;
    forall app | app in after && after[app].schema == 2
      ensures after[app].liveBytes == Total(projects[next.id := next], LiveOf(app))
    {
      TotalUpdate(projects, LiveOf(app), next.id, next);
    }
  }

  lemma PutQueued(queue: set<(AppName, VersionId)>, versions: VersionMap, projects: ProjectMap, next: Project,
                  after: set<(AppName, VersionId)>)
    requires Queued(queue, versions, projects) && next.storageApp != ""
    requires next.id in projects ==> projects[next.id].id == next.id
    requires next.id in projects && projects[next.id].status == Active ==>
             projects[next.id].activeDigest != "" && next.status != Reserved
    requires QueueAfter(queue, versions, Prior(projects, next.id), next) == Ok(after)
    ensures Queued(after, versions, projects[next.id := next])
  {
    var projects' := projects[next.id := next];
    forall id | id in versions && versions[id].state != Reclaimed
      && !(id.project in projects' && Serves(projects'[id.project], id))
      ensures (versions[id].app, id) in after
    {
      if id.project == next.id {
        if next.id in projects && Serves(projects[next.id], id) {
          assert CurrentVersion(projects[next.id]) == id;
        } else {
          assert (versions[id].app, id) in queue;
        }
      } else {
        assert (versions[id].app, id) in queue;
      }
    }
  }

  lemma OwnedByPut(projects: ProjectMap, next: Project, o: Owner)
    ensures OwnedBy(projects[next.id := next], o) ==
            (if next.owner == o && next.status != Deleted then OwnedBy(projects, o) + {next.id}
             else OwnedBy(projects, o) - {next.id})
  {}

  lemma PutIndexed(index: map<Owner, seq<string>>, projects: ProjectMap, next: Project, after: map<Owner, seq<string>>)
    requires Indexed(index, projects)
    requires IndexAfter(index, Prior(projects, next.id), next) == Ok(after)
    ensures Indexed(after, projects[next.id := next])
  {
    hide O.Sorted, O.Insert, O.Remove, O.Elements;
    forall o: Owner
      ensures IndexOk(IndexAt(after, o), OwnedBy(projects[next.id := next], o))
    {
      assert IndexOk(IndexAt(index, o), OwnedBy(projects, o));
      OwnedByPut(projects, next, o);
      O.RemoveSorted(IndexAt(index, o), next.id);
      O.InsertSorted(IndexAt(index, o), next.id);
      O.InsertSorted(O.Remove(IndexAt(index, o), next.id), next.id);
      IndexOne(index, projects, next, after, o);
    }
  }

  lemma IndexOne(index: map<Owner, seq<string>>, projects: ProjectMap, next: Project, after: map<Owner, seq<string>>,
                 o: Owner)
    requires IndexAfter(index, Prior(projects, next.id), next) == Ok(after)
    ensures IndexAt(after, o) ==
            (var ids := IndexAt(index, o);
             var prior := Prior(projects, next.id);
             var cut :=
               if prior.Present? && prior.project.status != Deleted
               && (prior.project.owner != next.owner || next.status == Deleted) && prior.project.owner == o
                        then O.Remove(ids, next.id) else ids;
             if next.status != Deleted
               && (prior.Absent? || prior.project.owner != next.owner || prior.project.status == Deleted)
               && next.owner == o
             then O.Insert(cut, next.id) else cut)
    ensures next.status != Deleted
            && (Prior(projects, next.id).Absent? || Prior(projects, next.id).project.owner != next.owner
                || Prior(projects, next.id).project.status == Deleted) && next.owner == o ==>
              next.id in O.Elements(IndexAt(index, o)) || |IndexAt(index, o)| < MAX_INDEX
  {
    hide O.Insert, O.Remove, O.Elements;
  }

  /** Everything that storing a project keeps by itself. */
  lemma PutDerived(l: Ledger, next: Project, after: Ledger)
    requires PutProject(l, next) == Ok(after)
    requires Queued(l.queue, l.versions, l.projects) && Indexed(l.index, l.projects)
             && LiveOk(l.allocations, l.projects)
    requires AllocationsOk(l.allocations) && BlocksOk(l.versions, l.allocations) && Pools(l.allocations, l.versions)
    requires next.storageApp != "" && next.storageApp in l.allocations && l.allocations[next.storageApp].schema == 2
    requires next.id in l.projects ==>
             l.projects[next.id].id == next.id && l.projects[next.id].storageApp == next.storageApp
    requires next.id in l.projects && l.projects[next.id].status == Active ==>
             l.projects[next.id].activeDigest != "" && next.status != Reserved
    ensures after == l.(index := after.index, queue := after.queue, allocations := after.allocations,
                        projects := l.projects[next.id := next])
    ensures Queued(after.queue, after.versions, after.projects) && Indexed(after.index, after.projects)
            && LiveOk(after.allocations, after.projects)
    ensures AllocationsOk(after.allocations) && BlocksOk(after.versions, after.allocations)
            && Pools(after.allocations, after.versions)
    ensures forall ps :: Assigned(ps, l.allocations) ==> Assigned(ps, after.allocations)
  {
    hide Queued, Indexed, LiveOk, AllocationsOk, BlocksOk, Pools, Assigned, IndexAfter, QueueAfter, LiveAfter, Serves,
      OnlyLiveDiffers;
    PutQueued(l.queue, l.versions, l.projects, next, after.queue);
    PutIndexed(l.index, l.projects, next, after.index);
    PutLive(l.allocations, l.projects, next, after.allocations);
    OnlyLiveKeeps(l.allocations, after.allocations, after.projects, after.versions);
    forall ps | Assigned(ps, l.allocations)
      ensures Assigned(ps, after.allocations)
    {
      OnlyLiveKeeps(l.allocations, after.allocations, ps, after.versions);
    }
  }
}
