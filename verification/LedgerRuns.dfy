/** Whole histories of the ledger: what holds in every reachable state and across any two of them. */
module LedgerRuns {
  import opened Projects
  import opened LedgerRules
  import opened LedgerSums
  import opened LedgerInv
  import opened LedgerSteps
  import opened LedgerPublish
  import opened LedgerStorage
  import opened LedgerReserve
  import F = Footprint
  import O = Ordering

  lemma PerformInv(l: Ledger, c: Limits, now: int, q: Request)
    requires Inv(l, c, now)
    ensures Inv(Step(l, c, now, q), c, now)
  {
    hide Inv, Reserve, Activate, Abort, Tombstone, Expire, SetPrivacy, SetWatermark, Rename, Claim, CreateTransfer,
      RevokeTransfer, Redeem, SelectRevision, RemoveRevision, Retire, Acknowledge, Reconcile, SetControl;
    if Perform(l, c, now, q).Ok? {
      match q {
        case DoReserve(a, r, offers, op) => ReserveInv(l, c, now, a, r, offers, op);
        case DoActivate(a, opID, password) => ActivateInv(l, c, now, a, opID, password);
        case DoAbort(who, opID) => AbortInv(l, c, now, who, opID);
        case DoTombstone(a, id, revision) => TombstoneInv(l, c, now, a, id, revision);
        case DoExpire(id) => ExpireInv(l, c, now, id);
        case DoSetPrivacy(a, id, revision, password) => SetPrivacyInv(l, c, now, a, id, revision, password);
        case DoSetWatermark(a, id, revision, enabled) => SetWatermarkInv(l, c, now, a, id, revision, enabled);
        case DoRename(a, id, name, revision, hashed) => RenameInv(l, c, now, a, id, name, revision, hashed);
        case DoClaim(a, id, revision) => ClaimInv(l, c, now, a, id, revision);
        case DoCreateTransfer(a, id, revision, digest) => CreateTransferInv(l, c, now, a, id, revision, digest);
        case DoRevokeTransfer(a, id, revision) => RevokeTransferInv(l, c, now, a, id, revision);
        case DoRedeem(a, id, digest) => RedeemInv(l, c, now, a, id, digest);
        case DoSelect(a, id, opID, revision) => SelectInv(l, c, now, a, id, opID, revision);
        case DoRemove(a, id, opID, revision) => RemoveInv(l, c, now, a, id, opID, revision);
        case DoRetire(version, epoch, members) => RetireInv(l, c, now, version, epoch, members);
        case DoAcknowledge(version, epoch, member) => AcknowledgeInv(l, c, now, version, epoch, member);
        case DoReconcile(version, manifest) => ReconcileInv(l, c, now, version, manifest);
        case DoSetControl(app, closed) => SetControlInv(l, c, now, app, closed);
      }
    }
  }

  lemma CreateTransferInv(l: Ledger, c: Limits, now: int, a: Actor, id: string, revision: int, digest: string)
    requires Inv(l, c, now) && CreateTransfer(l, now, a, id, revision, digest).Ok?
    ensures Inv(CreateTransfer(l, now, a, id, revision, digest).value, c, now)
  {
    hide Identified, Linked, Serving, Publishing, VersionsOk, BlocksOk, Pools, LiveOk, Queued, ProjectCharges, Quotas,
      Indexed, Digested, Named, AllocationsOk, Assigned;
  }

  lemma RevokeTransferInv(l: Ledger, c: Limits, now: int, a: Actor, id: string, revision: int)
    requires Inv(l, c, now) && RevokeTransfer(l, now, a, id, revision).Ok?
    ensures Inv(RevokeTransfer(l, now, a, id, revision).value, c, now)
  {
    hide Identified, Linked, Serving, Publishing, VersionsOk, BlocksOk, Pools, LiveOk, Queued, ProjectCharges, Quotas,
      Indexed, Digested, Named, AllocationsOk, Assigned;
  }

  /* ---------- Runs ---------- */

  /** The ledger, and the time at which it was last looked at. */
  datatype Stage = Stage(ledger: Ledger, now: int)

  /** A history under fixed limits and a clock that does not go back, from a consistent ledger such as the empty one. */
  ghost predicate IsRun(stages: seq<Stage>, requests: seq<Request>, c: Limits) {
    && |stages| == |requests| + 1
    && Inv(stages[0].ledger, c, stages[0].now)
    && (forall i :: 0 <= i < |requests| ==>
                      && stages[i].now <= stages[i + 1].now
                      && stages[i + 1].ledger == Step(stages[i].ledger, c, stages[i + 1].now, requests[i]))
  }

  lemma {:induction false} RunInv(stages: seq<Stage>, requests: seq<Request>, c: Limits, i: nat)
    requires IsRun(stages, requests, c) && i < |stages|
    ensures Inv(stages[i].ledger, c, stages[i].now)
  {
    hide Inv, Step;
    if i > 0 {
      RunInv(stages, requests, c, i - 1);
      Later(stages[i - 1].ledger, c, stages[i - 1].now, stages[i].now);
      PerformInv(stages[i - 1].ledger, c, stages[i].now, requests[i - 1]);
    }
  }

  /** A run may start from the empty ledger at any time. */
  lemma StartsEmpty(c: Limits, now: int)
    ensures IsRun([Stage(EMPTY, now)], [], c)
  {
    hide Inv;
    EmptyInv(c, now);
  }

  /* ---------- Pools ---------- */

  /** A pool's charge is at least what measuring every stored manifest again, at the current block size, would give. */
  ghost function Remeasured(versions: VersionMap, measured: map<VersionId, F.Manifest>, app: AppName, block: int): int {
    if versions == map[] then 0
    else
      var id :| id in versions;
      RemeasuredOne(id, versions[id], measured, app, block) + Remeasured(versions - {id}, measured, app, block)
  }

  ghost function RemeasuredOne(id: VersionId, v: Version, measured: map<VersionId, F.Manifest>, app: AppName,
                               block: int): int {
    if v.app == app && v.state != Reclaimed && !v.unverified && id in measured
      && F.Allowance(measured[id], block).Measured?
    then F.Allowance(measured[id], block).usage.allocatedBytes else 0
  }

  lemma OneCovered(id: VersionId, v: Version, measured: map<VersionId, F.Manifest>, app: AppName, a: Allocation)
    requires v.app == app ==>
             BlockOk(v, a) && 1 <= a.block <= F.MAX_BLOCK && (!v.unverified ==> MeasuredOk(id, v, measured))
    ensures v.app == app && v.state != Reclaimed && !v.unverified ==>
            id in measured && F.Allowance(measured[id], a.block).Measured?
    ensures RemeasuredOne(id, v, measured, app, a.block) <= Weigh(SpaceOf(app, a.block), id, v)
  {
    hide F.Allowance;
    if v.app == app && v.state != Reclaimed && !v.unverified {
      F.MeasurableAnywhere(measured[id], v.block, a.block);
      F.GrowthCovered(measured[id], v.block, a.block);
    }
  }

  lemma {:induction false} AllCovered(versions: VersionMap, measured: map<VersionId, F.Manifest>, app: AppName,
                                      a: Allocation)
    requires forall id ::
             id in versions ==>
             RemeasuredOne(id, versions[id], measured, app, a.block) <= Weigh(SpaceOf(app, a.block), id, versions[id])
    ensures Remeasured(versions, measured, app, a.block) <= Sum(versions, SpaceOf(app, a.block))
    decreases |versions|
  {
    hide RemeasuredOne, Weigh, Sum;
    if versions == map[] {
      SumEmpty(SpaceOf(app, a.block));
    } else {
      var id :| id in versions
        && Remeasured(versions, measured, app, a.block) ==
        RemeasuredOne(id, versions[id], measured, app, a.block) + Remeasured(versions - {id}, measured, app, a.block);
      SumWithout(versions, SpaceOf(app, a.block), id);
      AllCovered(versions - {id}, measured, app, a);
    }
  }

  /**
   Conservation of a pool, in every state of every run: exact totals of space, inodes, content and versions,
   live content within stored content, and a charge that covers measuring everything again after any growth of
   the block size.
   */
  lemma PoolConserved(stages: seq<Stage>, requests: seq<Request>, c: Limits, i: nat, app: AppName)
    requires IsRun(stages, requests, c) && i < |stages| && app in stages[i].ledger.allocations
             && stages[i].ledger.allocations[app].schema == 2
    ensures var l := stages[i].ledger; var a := l.allocations[app];
            && a.bytes == a.legacyBytes + Sum(l.versions, SpaceOf(app, a.block))
            && a.inodes == a.legacyInodes + Sum(l.versions, InodesOf(app))
            && a.contentBytes == Sum(l.versions, ContentOf(app)) && a.versions == Sum(l.versions, NumberOf(app))
            && 0 <= a.liveBytes == Total(l.projects, LiveOf(app)) <= a.contentBytes
            && a.legacyBytes + Remeasured(l.versions, l.measured, app, a.block) <= a.bytes
  {
    RunInv(stages, requests, c, i);
    PoolHere(stages[i].ledger, c, stages[i].now, app);
  }

  lemma PoolHere(l: Ledger, c: Limits, now: int, app: AppName)
    requires Inv(l, c, now) && app in l.allocations && l.allocations[app].schema == 2
    ensures var a := l.allocations[app];
            && PoolOk(a, app, l.versions)
            && 0 <= a.liveBytes == Total(l.projects, LiveOf(app)) <= a.contentBytes
            && a.legacyBytes + Remeasured(l.versions, l.measured, app, a.block) <= a.bytes
  {
    hide Linked, Publishing, Queued, ProjectCharges, Quotas, Indexed, Digested, Named, Assigned, Sum, Total, Remeasured,
      F.Allowance, RemeasuredOne, Weigh;
    var a := l.allocations[app];
    assert PoolOk(a, app, l.versions) && AllocationOk(a);
    forall id | id in l.projects
      ensures l.projects[id].id == id && ServedStored(l.projects[id], l.versions)
    {
      assert ServingOk(l.projects[id], l.versions, l.removals);
    }
    forall id | id in l.versions
      ensures l.versions[id].contentBytes >= 0
      ensures RemeasuredOne(id, l.versions[id], l.measured, app, a.block)
              <= Weigh(SpaceOf(app, a.block), id, l.versions[id])
    {
      assert LifecycleOk(l.versions[id], l.projects[id.project].status == Deleted)
             && BlockOk(l.versions[id], l.allocations[l.versions[id].app]);
      OneCovered(id, l.versions[id], l.measured, app, a);
    }
    LiveNonNegative(l, app);
    LiveWithinContent(l.projects, l.versions, app);
    AllCovered(l.versions, l.measured, app, a);
  }

  lemma LiveNonNegative(l: Ledger, app: AppName)
    requires forall id :: id in l.projects ==> l.projects[id].id == id && ServedStored(l.projects[id], l.versions)
    requires forall id :: id in l.versions ==> l.versions[id].contentBytes >= 0
    ensures Total(l.projects, LiveOf(app)) >= 0
  {
    hide Total;
    forall id | id in l.projects
      ensures WeighProject(LiveOf(app), l.projects[id]) >= 0
    {
      assert ServedStored(l.projects[id], l.versions);
    }
    TotalNonNegative(l.projects, LiveOf(app));
  }

  /** A pool without a legacy reserve is exactly empty once all of its versions have been reclaimed. */
  lemma ReclaimedPoolIsEmpty(stages: seq<Stage>, requests: seq<Request>, c: Limits, i: nat, app: AppName)
    requires IsRun(stages, requests, c) && i < |stages| && app in stages[i].ledger.allocations
             && stages[i].ledger.allocations[app].schema == 2
    requires stages[i].ledger.allocations[app].legacyBytes == 0 && stages[i].ledger.allocations[app].legacyInodes == 0
    requires forall id ::
             id in stages[i].ledger.versions && stages[i].ledger.versions[id].app == app ==>
             stages[i].ledger.versions[id].state == Reclaimed
    ensures var a := stages[i].ledger.allocations[app];
            a.bytes == 0 && a.inodes == 0 && a.contentBytes == 0 && a.versions == 0 && a.liveBytes == 0
  {
    hide Inv, IsRun, Sum;
    PoolConserved(stages, requests, c, i, app);
    var l := stages[i].ledger;
    SumZero(l.versions, SpaceOf(app, l.allocations[app].block));
    SumZero(l.versions, InodesOf(app));
    SumZero(l.versions, ContentOf(app));
    SumZero(l.versions, NumberOf(app));
  }

  /** Retiring is refused for damaged accounting only if the version was never measured: the other guards cannot be
      hit. */
  lemma RetireGuardsUnreachable(l: Ledger, c: Limits, now: int, id: VersionId, epoch: string, members: seq<string>)
    requires Inv(l, c, now) && Retire(l, now, id, epoch, members) == Err(StorageUnavailable)
    ensures id in l.versions && l.versions[id].unverified
  {
    hide Linked, Serving, Publishing, Queued, Indexed, Digested, Named, LiveOk, Assigned, BlocksOk, Pools,
      AllocationsOk, ProjectCharges, Quotas, MeasuredOk, Damaged, ValidMembers, MayRetire, Serves;
    if id in l.versions && !l.versions[id].unverified && l.versions[id].state != Reclaimed {
      PoolHolds(l, id);
      QuotaHolds(l, c, id);
    }
  }

  /* ---------- Quotas ---------- */

  /**
   In every state of every run, an owner is charged exactly what all of their projects are charged, deleted
   ones included, a project exactly for its versions that have not been reclaimed, and both stay within limits.
   */
  lemma QuotaConserved(stages: seq<Stage>, requests: seq<Request>, c: Limits, i: nat, o: Owner)
    requires IsRun(stages, requests, c) && i < |stages|
    ensures var l := stages[i].ledger; var q := QuotaAt(l.quotas, o);
            && q.charged == Total(l.projects, ChargedOf(o)) && 0 <= q.charged <= c.Bytes(o)
            && q.count == |OwnedBy(l.projects, o)| && q.count <= c.Count(o)
            && (forall id :: id in l.projects ==> l.projects[id].chargedBytes == Sum(l.versions, QuotaOf(id)))
  {
    hide Total, Sum;
    RunInv(stages, requests, c, i);
    assert QuotaOk(stages[i].ledger.quotas, stages[i].ledger.projects, c, o);
    CountIsSize(stages[i].ledger.projects, o);
  }

  lemma {:induction false} CountIsSize(projects: ProjectMap, o: Owner)
    ensures Total(projects, CountOf(o)) == |OwnedBy(projects, o)|
    decreases |projects|
  {
    hide Total, OwnedBy;
    if projects == map[] {
      TotalEmpty(CountOf(o));
      OwnedSplit(projects, o, "");
    } else {
      var id :| id in projects;
      TotalWithout(projects, CountOf(o), id);
      CountIsSize(projects - {id}, o);
      OwnedSplit(projects, o, id);
    }
  }

  lemma OwnedSplit(projects: ProjectMap, o: Owner, id: string)
    ensures projects == map[] ==> OwnedBy(projects, o) == {}
    ensures id in projects ==>
              |OwnedBy(projects, o)| == |OwnedBy(projects - {id}, o)| + if projects[id].owner == o
                && projects[id].status != Deleted then 1 else 0
  {
    if id in projects {
      if projects[id].owner == o && projects[id].status != Deleted {
        assert OwnedBy(projects, o) == OwnedBy(projects - {id}, o) + {id};
      } else {
        assert OwnedBy(projects, o) == OwnedBy(projects - {id}, o);
      }
    }
  }

  /* ---------- Indexes, digests and names ---------- */

  /** The owner index is the one sorted duplicate-free list of the owner's undeleted projects. */
  lemma IndexExact(stages: seq<Stage>, requests: seq<Request>, c: Limits, i: nat, o: Owner, ids: seq<string>)
    requires IsRun(stages, requests, c) && i < |stages|
    requires O.Sorted(ids) && O.Elements(ids) == OwnedBy(stages[i].ledger.projects, o)
    ensures IndexAt(stages[i].ledger.index, o) == ids
  {
    hide O.Sorted, O.Elements;
    RunInv(stages, requests, c, i);
    assert IndexOk(IndexAt(stages[i].ledger.index, o), OwnedBy(stages[i].ledger.projects, o));
    O.SortedUnique(IndexAt(stages[i].ledger.index, o), ids);
  }

  /** Every stored version that is not the one its project serves waits in the maintenance queue. */
  lemma QueueComplete(stages: seq<Stage>, requests: seq<Request>, c: Limits, i: nat, id: VersionId)
    requires IsRun(stages, requests, c) && i < |stages| && id in stages[i].ledger.versions
             && stages[i].ledger.versions[id].state != Reclaimed
    ensures var l := stages[i].ledger;
            id.project in l.projects && (Serves(l.projects[id.project], id) || (l.versions[id].app, id) in l.queue)
  {
    hide MeasuredOk, Sum, Total;
    RunInv(stages, requests, c, i);
  }

  /** At any moment at most one live project serves a given content. */
  lemma OneProjectPerDigest(stages: seq<Stage>, requests: seq<Request>, c: Limits, i: nat, now: int, a: string,
                            b: string)
    requires IsRun(stages, requests, c) && i < |stages| && stages[i].now <= now
    requires a in stages[i].ledger.projects && b in stages[i].ledger.projects
    requires stages[i].ledger.projects[a].Live(now) && stages[i].ledger.projects[b].Live(now)
    requires stages[i].ledger.projects[a].activeDigest == stages[i].ledger.projects[b].activeDigest
    ensures a == b
  {
    hide MeasuredOk, Sum, Total;
    RunInv(stages, requests, c, i);
    Later(stages[i].ledger, c, stages[i].now, now);
  }

  /** Every name an undeleted project ever took resolves to it, so two undeleted projects share no name. */
  lemma NamesResolve(stages: seq<Stage>, requests: seq<Request>, c: Limits, i: nat, id: string, s: string)
    requires IsRun(stages, requests, c) && i < |stages| && id in stages[i].ledger.projects
             && stages[i].ledger.projects[id].status != Deleted
    ensures s in NamesAt(stages[i].ledger.names, id) <==> SlugOwner(stages[i].ledger, s) == Ok(id)
    ensures stages[i].ledger.projects[id].slug in NamesAt(stages[i].ledger.names, id)
    ensures |NamesAt(stages[i].ledger.names, id)| == stages[i].ledger.projects[id].aliasCount + 1
  {
    hide MeasuredOk, Sum, Total, Serving, Publishing, Linked, VersionsOk, BlocksOk, Pools, LiveOk, Queued,
      ProjectCharges, Quotas, Indexed, Digested, Assigned, AllocationsOk;
    RunInv(stages, requests, c, i);
    var l := stages[i].ledger;
    NamesOf(l, l.projects[id]);
    assert NamesOk(l.projects[id], id, l.slugs, l.names);
  }
}
