/** Retiring, reclaiming and measuring stored versions keep the ledger consistent. */
module LedgerStorage {
  import opened Projects
  import opened LedgerRules
  import opened LedgerSums
  import opened LedgerInv
  import opened LedgerSteps
  import F = Footprint
  import B = FootprintBounds
  import O = Ordering

  /* ---------- Replacing one version by one of the same size ---------- */

  ghost predicate SameSize(v: Version, w: Version) {
    w == v.(projectDeleted := w.projectDeleted, state := w.state, epoch := w.epoch, members := w.members,
            acknowledged := w.acknowledged)
  }

  lemma SumSame(versions: VersionMap, id: VersionId, w: Version, m: VersionMeasure)
    requires id in versions && SameSize(versions[id], w) && (versions[id].state == Reclaimed <==> w.state == Reclaimed)
    ensures Sum(versions[id := w], m) == Sum(versions, m)
  {
    hide Sum;
    SumUpdate(versions, m, id, w);
  }

  /** Nothing serves the version and no pending operation installs it. */
  ghost predicate Unused(l: Ledger, id: VersionId) {
    && (id.project in l.projects ==> !Serves(l.projects[id.project], id))
    && (forall o :: o in l.operations && l.operations[o].state == Pending ==> VersionOfOperation(l.operations[o]) != id)
  }

  lemma ContentSwap(l: Ledger, id: VersionId, w: Version)
    requires Identified(l.projects, l.operations) && Serving(l.projects, l.versions, l.removals)
             && Publishing(l.operations, l.versions, l.removals)
    requires id in l.versions && w.app == l.versions[id].app && w.contentBytes == l.versions[id].contentBytes
             && (w.state == Retained || Unused(l, id))
    ensures Serving(l.projects, l.versions[id := w], l.removals)
            && Publishing(l.operations, l.versions[id := w], l.removals)
  {
    var versions := l.versions[id := w];
    forall p | p in l.projects
      ensures ServingOk(l.projects[p], versions, l.removals)
    {
      assert ServingOk(l.projects[p], l.versions, l.removals);
    }
    forall o | o in l.operations
      ensures PublishOk(l.operations[o], versions, l.removals)
    {
      assert PublishOk(l.operations[o], l.versions, l.removals);
    }
  }

  lemma SizesSwap(l: Ledger, id: VersionId, w: Version)
    requires id in l.versions && SameSize(l.versions[id], w) && l.versions[id].state != Reclaimed
             && w.state != Reclaimed
    requires VersionsOk(l.versions, l.projects, l.measured) && BlocksOk(l.versions, l.allocations)
             && Pools(l.allocations, l.versions)
    requires ProjectCharges(l.projects, l.versions) && Queued(l.queue, l.versions, l.projects)
    requires id.project in l.projects && LifecycleOk(w, l.projects[id.project].status == Deleted)
    ensures VersionsOk(l.versions[id := w], l.projects, l.measured) && BlocksOk(l.versions[id := w], l.allocations)
            && Pools(l.allocations, l.versions[id := w])
    ensures ProjectCharges(l.projects, l.versions[id := w]) && Queued(l.queue, l.versions[id := w], l.projects)
  {
    hide Sum, LifecycleOk, F.Allowance;
    var versions := l.versions[id := w];
    forall m: VersionMeasure
      ensures Sum(versions, m) == Sum(l.versions, m)
    {
      SumSame(l.versions, id, w, m);
    }
    forall app | app in l.allocations
      ensures PoolOk(l.allocations[app], app, versions)
    {
      assert PoolOk(l.allocations[app], app, l.versions);
    }
  }

  lemma SwapInv(l: Ledger, c: Limits, now: int, id: VersionId, w: Version, after: Ledger)
    requires Inv(l, c, now) && id in l.versions && SameSize(l.versions[id], w) && l.versions[id].state != Reclaimed
             && w.state != Reclaimed
    requires id.project in l.projects && LifecycleOk(w, l.projects[id.project].status == Deleted)
             && (w.state == Retained || Unused(l, id))
    requires after == l.(versions := l.versions[id := w], retirements := after.retirements)
    ensures Inv(after, c, now)
  {
    hide Identified, Linked, Serving, Publishing, VersionsOk, BlocksOk, Pools, LiveOk, Queued, ProjectCharges, Quotas,
      Indexed, Digested, Named, AllocationsOk, Assigned, LifecycleOk, Unused;
    ContentSwap(l, id, w);
    SizesSwap(l, id, w);
  }

  /* ---------- The guards that protect a refund are never hit ---------- */

  lemma WeightNonNegative(m: VersionMeasure, id: VersionId, v: Version, a: Allocation, deleted: bool,
                          measured: map<VersionId, F.Manifest>)
    requires LifecycleOk(v, deleted) && BlockOk(v, a) && (!v.unverified ==> MeasuredOk(id, v, measured))
             && (m.SpaceOf? && m.app == v.app ==> m.block == a.block)
    ensures Weigh(m, id, v) >= 0
  {
    hide MeasuredOk, BlockOk;
    if !v.unverified {
      MeasuredBounds(id, v, measured);
      BlockFacts(v, a);
      Product(v.inodes, a.block - v.block);
    }
  }

  lemma BlockFacts(v: Version, a: Allocation)
    requires BlockOk(v, a) && !v.unverified
    ensures 1 <= v.block <= a.block && a.schema == 2
  {}

  lemma Product(x: int, y: int)
    requires x >= 0 && y >= 0
    ensures x * y >= 0
  {}

  lemma WeightsNonNegative(l: Ledger, m: VersionMeasure)
    requires VersionsOk(l.versions, l.projects, l.measured) && BlocksOk(l.versions, l.allocations)
    requires m.SpaceOf? ==> m.app in l.allocations && m.block == l.allocations[m.app].block
    ensures forall id :: id in l.versions ==> Weigh(m, id, l.versions[id]) >= 0
  {
    hide MeasuredOk, LifecycleOk, BlockOk, Weigh;
    forall id | id in l.versions
      ensures Weigh(m, id, l.versions[id]) >= 0
    {
      var v := l.versions[id];
      WeightNonNegative(m, id, v, l.allocations[v.app], l.projects[id.project].status == Deleted, l.measured);
    }
  }

  lemma MeasuredBounds(id: VersionId, v: Version, measured: map<VersionId, F.Manifest>)
    requires MeasuredOk(id, v, measured)
    ensures 0 < v.bytes <= B.MAX_VERSION && 0 < v.inodes <= B.MAX_INODES && 0 <= v.contentBytes <= F.MAX_CONTENT
  {
    hide F.Allowance;
    B.UsageBounds(measured[id], v.block);
  }

  /** A pool holds at least what each of its versions accounts for. */
  lemma PoolHolds(l: Ledger, id: VersionId)
    requires AllocationsOk(l.allocations) && VersionsOk(l.versions, l.projects, l.measured)
             && BlocksOk(l.versions, l.allocations) && Pools(l.allocations, l.versions)
    requires id in l.versions && l.versions[id].state != Reclaimed && !l.versions[id].unverified
    ensures var v := l.versions[id];
            && v.app in l.allocations
            && var a := l.allocations[v.app];
               && !Damaged(v, a) && a.block <= F.MAX_BLOCK && Refund(v, a) > 0
               && a.bytes >= Refund(v, a) && a.inodes >= v.inodes && a.contentBytes >= v.contentBytes && a.versions >= 1
  {
    hide Sum, MeasuredOk, VersionsOk, BlocksOk, Pools, AllocationsOk, PoolOk, BlockOk, AllocationOk, LifecycleOk;
    var v := l.versions[id];
    StoredFacts(l, id);
    var a := l.allocations[v.app];
    MeasuredBounds(id, v, l.measured);
    ShareWithin(l, SpaceOf(v.app, a.block), id);
    ShareWithin(l, InodesOf(v.app), id);
    ShareWithin(l, ContentOf(v.app), id);
    ShareWithin(l, NumberOf(v.app), id);
    PoolGuards(v, a, id, l.versions, l.projects[id.project].status == Deleted);
  }

  lemma StoredFacts(l: Ledger, id: VersionId)
    requires AllocationsOk(l.allocations) && VersionsOk(l.versions, l.projects, l.measured)
             && BlocksOk(l.versions, l.allocations) && Pools(l.allocations, l.versions) && id in l.versions
    ensures var v := l.versions[id];
            && id.project in l.projects && v.app in l.allocations && BlockOk(v, l.allocations[v.app])
            && AllocationOk(l.allocations[v.app])
            && PoolOk(l.allocations[v.app], v.app, l.versions)
            && LifecycleOk(v, l.projects[id.project].status == Deleted)
            && (!v.unverified ==> MeasuredOk(id, v, l.measured))
  {
    hide MeasuredOk, PoolOk, BlockOk, AllocationOk, LifecycleOk;
  }

  lemma PoolGuards(v: Version, a: Allocation, id: VersionId, versions: VersionMap, deleted: bool)
    requires BlockOk(v, a) && AllocationOk(a) && PoolOk(a, v.app, versions) && LifecycleOk(v, deleted)
             && v.state != Reclaimed && !v.unverified
    requires 0 < v.bytes <= B.MAX_VERSION && 0 < v.inodes <= B.MAX_INODES && 0 <= v.contentBytes <= F.MAX_CONTENT
    requires Weigh(SpaceOf(v.app, a.block), id, v) <= Sum(versions, SpaceOf(v.app, a.block))
             && Weigh(InodesOf(v.app), id, v) <= Sum(versions, InodesOf(v.app))
    requires Weigh(ContentOf(v.app), id, v) <= Sum(versions, ContentOf(v.app))
             && Weigh(NumberOf(v.app), id, v) <= Sum(versions, NumberOf(v.app))
    ensures !Damaged(v, a) && a.block <= F.MAX_BLOCK && Refund(v, a) > 0
    ensures a.bytes >= Refund(v, a) && a.inodes >= v.inodes && a.contentBytes >= v.contentBytes && a.versions >= 1
  {
    hide Sum, BlockOk;
    BlockFacts(v, a);
    Product(v.inodes, a.block - v.block);
  }

  lemma ShareWithin(l: Ledger, m: VersionMeasure, id: VersionId)
    requires VersionsOk(l.versions, l.projects, l.measured) && BlocksOk(l.versions, l.allocations) && id in l.versions
    requires m.SpaceOf? ==> m.app in l.allocations && m.block == l.allocations[m.app].block
    ensures 0 <= Weigh(m, id, l.versions[id]) <= Sum(l.versions, m)
  {
    hide VersionsOk, BlocksOk, Sum, Weigh;
    WeightsNonNegative(l, m);
    SumNonNegative(l.versions, m);
  }

  lemma ChargesNonNegative(l: Ledger, id: string)
    requires ProjectCharges(l.projects, l.versions) && VersionsOk(l.versions, l.projects, l.measured)
             && BlocksOk(l.versions, l.allocations) && id in l.projects
    ensures l.projects[id].chargedBytes >= 0
  {
    hide VersionsOk, BlocksOk, Sum, Weigh;
    WeightsNonNegative(l, QuotaOf(id));
    SumNonNegative(l.versions, QuotaOf(id));
  }

  /** A project is charged at least for each of its versions, and its owner at least for the project. */
  lemma QuotaHolds(l: Ledger, c: Limits, id: VersionId)
    requires VersionsOk(l.versions, l.projects, l.measured) && BlocksOk(l.versions, l.allocations)
             && ProjectCharges(l.projects, l.versions) && Quotas(l.quotas, l.projects, c)
    requires id in l.versions && l.versions[id].state != Reclaimed && id.project in l.projects
    ensures var p := l.projects[id.project];
            ReadQuota(l.quotas, p.owner).Ok?
              && l.versions[id].quotaBytes <= p.chargedBytes <= ReadQuota(l.quotas, p.owner).value.charged
  {
    hide VersionsOk, BlocksOk, Sum, Total, Limits.Bytes, Limits.Count;
    var p := l.projects[id.project];
    ShareWithin(l, QuotaOf(id.project), id);
    forall j | j in l.projects
      ensures WeighProject(ChargedOf(p.owner), l.projects[j]) >= 0
    {
      ChargesNonNegative(l, j);
    }
    TotalNonNegative(l.projects, ChargedOf(p.owner));
    assert WeighProject(ChargedOf(p.owner), l.projects[id.project]) == p.chargedBytes;
    assert QuotaOk(l.quotas, l.projects, c, p.owner);
  }

  /** Reclaiming a version that is not served leaves room for everything that is. */
  lemma LiveFitsWithout(l: Ledger, id: VersionId)
    requires Identified(l.projects, l.operations) && Serving(l.projects, l.versions, l.removals)
             && VersionsOk(l.versions, l.projects, l.measured)
    requires AllocationsOk(l.allocations) && BlocksOk(l.versions, l.allocations) && Pools(l.allocations, l.versions)
             && LiveOk(l.allocations, l.projects)
    requires id in l.versions && l.versions[id].state == Retiring
    ensures l.versions[id].app in l.allocations
    ensures var a := l.allocations[l.versions[id].app]; a.liveBytes <= a.contentBytes - l.versions[id].contentBytes
  {
    hide Sum, Total, F.Allowance;
    var v := l.versions[id];
    var rest := l.versions - {id};
    assert BlockOk(v, l.allocations[v.app]) && PoolOk(l.allocations[v.app], v.app, l.versions);
    SumWithout(l.versions, ContentOf(v.app), id);
    forall p | p in l.projects
      ensures l.projects[p].id == p && ServedStored(l.projects[p], rest)
    {
      assert ServingOk(l.projects[p], l.versions, l.removals);
    }
    forall j | j in rest
      ensures rest[j].contentBytes >= 0
    {
      assert LifecycleOk(l.versions[j], l.projects[j.project].status == Deleted);
    }
    LiveWithinContent(l.projects, rest, v.app);
  }

  /* ---------- Retire ---------- */

  lemma RetireUnused(l: Ledger, id: VersionId)
    requires Identified(l.projects, l.operations) && Linked(l.projects, l.operations)
    requires id.project in l.projects && l.projects[id.project].pendingOperation == ""
             && !Serves(l.projects[id.project], id)
    ensures Unused(l, id)
  {
    forall o | o in l.operations && l.operations[o].state == Pending
      ensures VersionOfOperation(l.operations[o]) != id
    {
      assert l.projects[l.operations[o].projectID].pendingOperation == o;
    }
  }

  lemma RetiredLifecycle(v: Version, p: Project, epoch: string, members: seq<string>)
    requires LifecycleOk(v, p.status == Deleted) && v.state != Reclaimed && !v.unverified && |epoch| == 64
             && members != []
    ensures LifecycleOk(Retired(v, p, epoch, members), p.status == Deleted)
            && SameSize(v, Retired(v, p, epoch, members))
    ensures Retired(v, p, epoch, members).state == Retiring
  {
    if v.epoch == "" {
      assert members[0] in members;
    }
  }

  lemma PinnedSomeone(members: seq<string>)
    requires ValidMembers(members)
    ensures O.SortedList(members) != []
  {}

  lemma RetireInv(l: Ledger, c: Limits, now: int, id: VersionId, epoch: string, members: seq<string>)
    requires Inv(l, c, now) && Retire(l, now, id, epoch, members).Ok?
    ensures Inv(Retire(l, now, id, epoch, members).value, c, now)
  {
    hide Linked, Identified, Serving, Publishing, BlocksOk, Pools, LiveOk, Queued, ProjectCharges, Quotas, Indexed,
      Digested, Named, AllocationsOk, Assigned, Unused, LifecycleOk, Retired, SameSize, ValidMembers, MayRetire,
      Damaged, MeasuredOk;
    var v := l.versions[id];
    if v.state != Reclaimed {
      var p := l.projects[id.project];
      RetireUnused(l, id);
      var pinned := O.SortedList(members);
      assert pinned != [] by { PinnedSomeone(members); }
      RetiredLifecycle(v, p, epoch, pinned);
      SwapInv(l, c, now, id, Retired(v, p, epoch, pinned), Retire(l, now, id, epoch, members).value);
    }
  }

  /* ---------- Acknowledge ---------- */

  /** Changing only what a project is charged touches no derived record. */
  lemma PutCharge(l: Ledger, p: Project, charged: int)
    requires p.id in l.projects && p == l.projects[p.id]
    ensures PutProject(l, p.(chargedBytes := charged)) ==
            Ok(l.(projects := l.projects[p.id := p.(chargedBytes := charged)]))
  {}

  lemma RetiringUnused(l: Ledger, id: VersionId)
    requires Identified(l.projects, l.operations) && Serving(l.projects, l.versions, l.removals)
             && Publishing(l.operations, l.versions, l.removals)
    requires id in l.versions && l.versions[id].state == Retiring
    ensures Unused(l, id)
  {
    if id.project in l.projects { assert ServingOk(l.projects[id.project], l.versions, l.removals); }
    forall o | o in l.operations && l.operations[o].state == Pending
      ensures VersionOfOperation(l.operations[o]) != id
    {
      assert PublishOk(l.operations[o], l.versions, l.removals);
    }
  }

  function Paid(a: Allocation, v: Version): Allocation {
    a.(bytes := a.bytes - Refund(v, a), inodes := a.inodes - v.inodes, contentBytes := a.contentBytes - v.contentBytes,
       versions := a.versions - 1)
  }

  function AfterRefund(l: Ledger, id: VersionId, v: Version, p: Project, a: Allocation, q: Quota): Ledger {
    l.(allocations := l.allocations[v.app := Paid(a, v)],
       quotas := l.quotas[p.owner := q.(charged := q.charged - v.quotaBytes)],
       projects := l.projects[p.id := p.(chargedBytes := p.chargedBytes - v.quotaBytes)],
       queue := l.queue - {(v.app, id)}, versions := l.versions[id := v.(state := Reclaimed)])
  }

  /**
   In a consistent ledger the last acknowledgement always goes through: none of the guards that protect the
   pool, the project or the owner from a negative balance can refuse it.
   */
  lemma RefundSucceeds(l: Ledger, c: Limits, now: int, id: VersionId, noted: Version)
    requires Inv(l, c, now) && id in l.versions && l.versions[id].state == Retiring
             && noted == l.versions[id].(acknowledged := noted.acknowledged)
    ensures id.project in l.projects && noted.app in l.allocations && l.projects[id.project].owner in l.quotas
    ensures Refunded(l, id, noted) ==
            Ok(AfterRefund(l, id, noted, l.projects[id.project], l.allocations[noted.app],
                           l.quotas[l.projects[id.project].owner]))
  {
    hide Linked, Serving, Publishing, BlocksOk, Pools, LiveOk, Queued, ProjectCharges, Quotas, Indexed, Digested, Named,
      AllocationsOk, Assigned, MeasuredOk, Damaged, PutProject, Refund;
    var v, p := l.versions[id], l.projects[id.project];
    assert LifecycleOk(v, p.status == Deleted);
    PoolHolds(l, id);
    QuotaHolds(l, c, id);
    LiveFitsWithout(l, id);
    RetiringUnused(l, id);
    SameGuards(v, noted, l.allocations[v.app]);
    var q := l.quotas[p.owner];
    var paid := Paid(l.allocations[noted.app], noted);
    PutCharge(l.(allocations := l.allocations[noted.app := paid],
                 quotas := l.quotas[p.owner := q.(charged := q.charged - noted.quotaBytes)]), p,
              p.chargedBytes - noted.quotaBytes);
  }

  lemma SameGuards(v: Version, w: Version, a: Allocation)
    requires w == v.(acknowledged := w.acknowledged)
    ensures Damaged(w, a) == Damaged(v, a) && Refund(w, a) == Refund(v, a)
  {}

  lemma PoolsAfterRefund(l: Ledger, id: VersionId, v: Version)
    requires Pools(l.allocations, l.versions) && id in l.versions && l.versions[id].state != Reclaimed && !v.unverified
             && v.app in l.allocations && l.allocations[v.app].schema == 2
    requires v == l.versions[id].(acknowledged := v.acknowledged)
    ensures Pools(l.allocations[v.app := Paid(l.allocations[v.app], v)], l.versions[id := v.(state := Reclaimed)])
  {
    hide Sum;
    var allocations, versions :=
      l.allocations[v.app := Paid(l.allocations[v.app], v)], l.versions[id := v.(state := Reclaimed)];
    forall app | app in allocations
      ensures PoolOk(allocations[app], app, versions)
    {
      assert PoolOk(l.allocations[app], app, l.versions);
      SumUpdate(l.versions, SpaceOf(app, allocations[app].block), id, v.(state := Reclaimed));
      SumUpdate(l.versions, InodesOf(app), id, v.(state := Reclaimed));
      SumUpdate(l.versions, ContentOf(app), id, v.(state := Reclaimed));
      SumUpdate(l.versions, NumberOf(app), id, v.(state := Reclaimed));
    }
  }

  lemma ChargesAfterRefund(l: Ledger, id: VersionId, v: Version, p: Project)
    requires ProjectCharges(l.projects, l.versions) && Identified(l.projects, l.operations) && id in l.versions
             && l.versions[id].state != Reclaimed
    requires v == l.versions[id].(acknowledged := v.acknowledged) && id.project in l.projects
             && p == l.projects[id.project]
    ensures ProjectCharges(l.projects[p.id := p.(chargedBytes := p.chargedBytes - v.quotaBytes)],
                           l.versions[id := v.(state := Reclaimed)])
  {
    hide Sum;
    forall j | j in l.projects
      ensures Sum(l.versions[id := v.(state := Reclaimed)], QuotaOf(j)) == Sum(l.versions, QuotaOf(j)) - if j ==
              id.project then v.quotaBytes else 0
    {
      SumUpdate(l.versions, QuotaOf(j), id, v.(state := Reclaimed));
    }
  }

  lemma RefundVersions(l: Ledger, id: VersionId, w: Version, next: Project, a: Allocation)
    requires VersionsOk(l.versions, l.projects, l.measured) && BlocksOk(l.versions, l.allocations)
    requires id in l.versions && SameSize(l.versions[id], w) && w.projectDeleted == l.versions[id].projectDeleted
             && w.state == Reclaimed && AllAcknowledged(w) && !w.unverified
    requires next.id in l.projects && next.storageApp == l.projects[next.id].storageApp
             && next.status == l.projects[next.id].status
    requires w.app in l.allocations && a.block == l.allocations[w.app].block && a.schema == l.allocations[w.app].schema
    ensures VersionsOk(l.versions[id := w], l.projects[next.id := next], l.measured)
            && BlocksOk(l.versions[id := w], l.allocations[w.app := a])
  {
    hide MeasuredOk, AllAcknowledged;
    var versions, allocations, projects := l.versions[id := w], l.allocations[w.app := a], l.projects[next.id := next];
    forall j | j in versions
      ensures versions[j].app in allocations && BlockOk(versions[j], allocations[versions[j].app])
    {
      assert BlockOk(l.versions[j], l.allocations[l.versions[j].app]);
    }
    forall j | j in versions && !versions[j].unverified
      ensures MeasuredOk(j, versions[j], l.measured)
    {
      assert MeasuredOk(j, l.versions[j], l.measured);
      if j == id { SameMeasured(id, l.versions[id], w, l.measured); }
    }
  }

  lemma RefundAllocations(l: Ledger, app: AppName, a: Allocation, next: Project)
    requires AllocationsOk(l.allocations) && Assigned(l.projects, l.allocations) && LiveOk(l.allocations, l.projects)
    requires app in l.allocations && l.allocations[app].schema == 2
    requires a == l.allocations[app].(bytes := a.bytes, inodes := a.inodes, contentBytes := a.contentBytes,
                                      versions := a.versions)
    requires next.id in l.projects && next == l.projects[next.id].(chargedBytes := next.chargedBytes)
    ensures AllocationsOk(l.allocations[app := a]) && Assigned(l.projects[next.id := next], l.allocations[app := a])
    ensures LiveOk(l.allocations[app := a], l.projects[next.id := next])
  {
    hide Total;
    var allocations := l.allocations[app := a];
    forall b | b in allocations
      ensures AllocationOk(allocations[b])
      ensures allocations[b].schema == 2 ==> allocations[b].liveBytes == Total(l.projects[next.id := next], LiveOf(b))
    {
      assert AllocationOk(l.allocations[b]);
      TotalUpdate(l.projects, LiveOf(b), next.id, next);
    }
  }

  lemma RefundQueue(l: Ledger, id: VersionId, w: Version, next: Project)
    requires Queued(l.queue, l.versions, l.projects) && w.state == Reclaimed
    requires next.id in l.projects && next == l.projects[next.id].(chargedBytes := next.chargedBytes)
    ensures Queued(l.queue - {(w.app, id)}, l.versions[id := w], l.projects[next.id := next])
  {}

  lemma SameMeasured(id: VersionId, v: Version, w: Version, measured: map<VersionId, F.Manifest>)
    requires MeasuredOk(id, v, measured) && w.block == v.block && w.contentBytes == v.contentBytes && w.bytes == v.bytes
             && w.inodes == v.inodes
    ensures MeasuredOk(id, w, measured)
  {
    hide F.Allowance;
  }

  lemma RefundStorage(l: Ledger, c: Limits, now: int, id: VersionId, v: Version, next: Project)
    requires Inv(l, c, now) && id in l.versions && l.versions[id].state == Retiring
             && v == l.versions[id].(acknowledged := v.acknowledged) && AllAcknowledged(v)
    requires id.project in l.projects && v.app in l.allocations
             && next == l.projects[id.project].(chargedBytes := l.projects[id.project].chargedBytes - v.quotaBytes)
    ensures var versions, allocations, projects :=
            l.versions[id := v.(state := Reclaimed)], l.allocations[v.app := Paid(l.allocations[v.app], v)],
            l.projects[next.id := next];
            && VersionsOk(versions, projects, l.measured) && BlocksOk(versions, allocations)
            && AllocationsOk(allocations) && Assigned(projects, allocations)
            && LiveOk(allocations, projects) && Pools(allocations, versions)
            && Queued(l.queue - {(v.app, id)}, versions, projects) && ProjectCharges(projects, versions)
            && Serving(projects, versions, l.removals) && Publishing(l.operations, versions, l.removals)
  {
    hide Linked, Serving, Publishing, Pools, LiveOk, Queued, ProjectCharges, Quotas, Indexed, Digested, Named,
      AllocationsOk, Assigned, MeasuredOk, Refund, AllAcknowledged, Unused;
    var w := v.(state := Reclaimed);
    assert LifecycleOk(l.versions[id], l.projects[id.project].status == Deleted)
           && BlockOk(l.versions[id], l.allocations[v.app]);
    AcknowledgedStays(v, w);
    RetiringUnused(l, id);
    ContentSwap(l, id, w);
    ServingCharge(l, next, w, id);
    RefundPool(l, id, v);
    ChargesAfterRefund(l, id, v, l.projects[id.project]);
    RefundVersions(l, id, w, next, Paid(l.allocations[v.app], v));
    RefundAllocations(l, v.app, Paid(l.allocations[v.app], v), next);
    RefundQueue(l, id, w, next);
  }

  lemma AcknowledgedStays(v: Version, w: Version)
    requires AllAcknowledged(v) && w.members == v.members && w.acknowledged == v.acknowledged
    ensures AllAcknowledged(w)
  {}

  lemma RefundInv(l: Ledger, c: Limits, now: int, id: VersionId, v: Version)
    requires Inv(l, c, now) && id in l.versions && l.versions[id].state == Retiring
             && v == l.versions[id].(acknowledged := v.acknowledged) && AllAcknowledged(v)
    ensures Refunded(l, id, v).Ok? && Inv(Refunded(l, id, v).value, c, now)
  {
    hide Linked, Serving, Publishing, VersionsOk, BlocksOk, Pools, LiveOk, Queued, ProjectCharges, Quotas, Indexed,
      Digested, Named, AllocationsOk, Assigned, Refunded, Refund, AllAcknowledged, QuotaOk, Limits.Bytes, Limits.Count,
      Paid;
    RefundSucceeds(l, c, now, id, v);
    var p := l.projects[id.project];
    var next := p.(chargedBytes := p.chargedBytes - v.quotaBytes);
    RefundStorage(l, c, now, id, v, next);
    LinkedKeeps(l.projects, l.operations, next);
    QuotaHolds(l, c, id);
    OwnerQuota(l, c, p.owner);
    PositiveQuota(l, id);
    QuotasOne(l.quotas, l.quotas[p.owner].(charged := l.quotas[p.owner].charged - v.quotaBytes), l.projects, c, next);
    DigestedKeeps(l.digests, l.projects, now, next);
    NamedKeeps(l.slugs, l.names, l.projects, next);
    IndexedKeeps(l.index, l.projects, next);
  }

  lemma PositiveQuota(l: Ledger, id: VersionId)
    requires VersionsOk(l.versions, l.projects, l.measured) && id in l.versions
    ensures l.versions[id].quotaBytes > 0
  {
    hide MeasuredOk;
    assert LifecycleOk(l.versions[id], l.projects[id.project].status == Deleted);
  }

  lemma RefundPool(l: Ledger, id: VersionId, v: Version)
    requires Pools(l.allocations, l.versions) && BlocksOk(l.versions, l.allocations)
             && VersionsOk(l.versions, l.projects, l.measured)
    requires id in l.versions && l.versions[id].state == Retiring
             && v == l.versions[id].(acknowledged := v.acknowledged)
    ensures v.app in l.allocations
            && Pools(l.allocations[v.app := Paid(l.allocations[v.app], v)], l.versions[id := v.(state := Reclaimed)])
  {
    hide Pools, MeasuredOk;
    assert BlockOk(l.versions[id], l.allocations[v.app])
           && LifecycleOk(l.versions[id], l.projects[id.project].status == Deleted);
    PoolsAfterRefund(l, id, v);
  }

  lemma ServingCharge(l: Ledger, next: Project, w: Version, id: VersionId)
    requires Serving(l.projects, l.versions[id := w], l.removals) && next.id in l.projects
             && next == l.projects[next.id].(chargedBytes := next.chargedBytes)
    ensures Serving(l.projects[next.id := next], l.versions[id := w], l.removals)
  {
    assert ServingOk(l.projects[next.id], l.versions[id := w], l.removals);
  }

  lemma IndexedKeeps(index: map<Owner, seq<string>>, projects: ProjectMap, next: Project)
    requires Indexed(index, projects) && next.id in projects && next.owner == projects[next.id].owner
             && (next.status == Deleted <==> projects[next.id].status == Deleted)
    ensures Indexed(index, projects[next.id := next])
  {
    hide O.Sorted, O.Elements;
    forall o: Owner
      ensures IndexOk(IndexAt(index, o), OwnedBy(projects[next.id := next], o))
    {
      assert IndexOk(IndexAt(index, o), OwnedBy(projects, o));
      assert OwnedBy(projects[next.id := next], o) == OwnedBy(projects, o);
    }
  }

  /** An acknowledgement from a pinned member is never refused, and keeps the ledger consistent. */
  lemma AcknowledgeInv(l: Ledger, c: Limits, now: int, id: VersionId, epoch: string, member: string)
    requires Inv(l, c, now)
    ensures |epoch| == 64 && id in l.versions && l.versions[id].state != Retained && l.versions[id].epoch == epoch
            && member in l.versions[id].members ==>
              Acknowledge(l, id, epoch, member).Ok?
    ensures Acknowledge(l, id, epoch, member).Ok? ==> Inv(Acknowledge(l, id, epoch, member).value, c, now)
  {
    hide Identified, Linked, Serving, Publishing, BlocksOk, Pools, LiveOk, Queued, ProjectCharges, Quotas, Indexed,
      Digested, Named, AllocationsOk, Assigned, MeasuredOk, Refunded, AllAcknowledged, Unused;
    if id in l.versions && l.versions[id].state == Retiring {
      var v := l.versions[id];
      assert LifecycleOk(v, l.projects[id.project].status == Deleted);
      var noted := v.(acknowledged := v.acknowledged + {member});
      if AllAcknowledged(noted) {
        RefundInv(l, c, now, id, noted);
      } else {
        RetiringUnused(l, id);
        SwapInv(l, c, now, id, noted, l.(versions := l.versions[id := noted]));
      }
    }
  }
}
