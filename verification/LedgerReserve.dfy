/** Reserving a publication, measuring an older version and closing a pool keep the ledger consistent. */
module LedgerReserve {
  import opened Projects
  import opened LedgerRules
  import opened LedgerSums
  import opened LedgerInv
  import opened LedgerSteps
  import opened LedgerStorage
  import F = Footprint

  /* ---------- Pools ---------- */

  /** Everything that ties the pools to versions and projects. */
  ghost predicate StorageOk(allocations: AllocationMap, versions: VersionMap, projects: ProjectMap) {
    AllocationsOk(allocations) && BlocksOk(versions, allocations) && Pools(allocations, versions)
      && LiveOk(allocations, projects) && Assigned(projects, allocations)
  }

  lemma {:induction false} NoLive(projects: ProjectMap, app: AppName)
    requires forall id :: id in projects ==> projects[id].storageApp != app
    ensures Total(projects, LiveOf(app)) == 0
    decreases |projects|
  {
    if projects != map[] {
      var id :| id in projects;
      TotalWithout(projects, LiveOf(app), id);
      NoLive(projects - {id}, app);
    }
  }

  /** A pool that is started was empty, and holds nothing. */
  lemma OpenedOk(allocations: AllocationMap, versions: VersionMap, projects: ProjectMap, offer: Offer)
    requires StorageOk(allocations, versions, projects) && 1 <= offer.block <= F.MAX_BLOCK
    ensures StorageOk(allocations[offer.app := Opened(AllocationAt(allocations, offer.app), offer)], versions, projects)
            || Opened(AllocationAt(allocations, offer.app), offer).schema != 2
  {
    hide Sum, Total;
    var app, a := offer.app, AllocationAt(allocations, offer.app);
    var started := Opened(a, offer);
    var after := allocations[app := started];
    assert app in allocations ==> AllocationOk(allocations[app]);
    if started == a {
      assert app in allocations ==> after == allocations;
    } else {
      forall id | id in versions
        ensures versions[id].app != app
      {
        assert BlockOk(versions[id], allocations[versions[id].app]);
      }
      SumZero(versions, SpaceOf(app, started.block));
      SumZero(versions, InodesOf(app));
      SumZero(versions, ContentOf(app));
      SumZero(versions, NumberOf(app));
      NoLive(projects, app);
      forall other | other in allocations && other != app
        ensures AllocationOk(after[other]) && PoolOk(after[other], other, versions)
      {
        assert AllocationOk(allocations[other]) && PoolOk(allocations[other], other, versions);
      }
      assert AllocationOk(started) && PoolOk(started, app, versions);
    }
  }

  lemma MultipleOfMultiple(a: int, b: int, c: int)
    requires a > 0 && b > 0 && b % a == 0 && c % b == 0
    ensures c % a == 0
  {
    var j, k := b / a, c / b;
    assert b == a * j && c == b * k;
    assert c == a * (j * k);
    Multiple(a, j * k);
  }

  lemma Multiple(a: int, n: int)
    requires a > 0
    ensures (a * n) % a == 0
  {
    var x := a * n;
    assert x == a * (x / a) + x % a;
    assert a * (n - x / a) == x % a;
    SmallMultiple(a, n - x / a);
  }

  lemma SmallMultiple(a: int, n: int)
    requires a > 0 && 0 <= a * n < a
    ensures n == 0
  {}

  lemma GrownSums(a: Allocation, versions: VersionMap, app: AppName, block: int)
    requires a.block >= 1 && a.schema == 2 && PoolOk(a, app, versions) && Grown(a, block).Ok?
    ensures PoolOk(Grown(a, block).value, app, versions)
  {
    hide Sum;
    if block > a.block {
      var delta := block - a.block;
      SpaceGrows(versions, app, a.block, block);
      Distribute(a.legacyInodes, Sum(versions, InodesOf(app)), delta);
    }
  }

  lemma GrownOk(allocations: AllocationMap, versions: VersionMap, projects: ProjectMap, app: AppName, block: int)
    requires StorageOk(allocations, versions, projects) && app in allocations && allocations[app].schema == 2
             && 1 <= allocations[app].block && block <= F.MAX_BLOCK
    requires Grown(allocations[app], block).Ok?
    ensures StorageOk(allocations[app := Grown(allocations[app], block).value], versions, projects)
  {
    hide Sum, Total, PoolOk;
    var a := allocations[app];
    var after := allocations[app := Grown(a, block).value];
    assert AllocationOk(a) && PoolOk(a, app, versions);
    GrownSums(a, versions, app, block);
    forall other | other in after
      ensures AllocationOk(after[other]) && PoolOk(after[other], other, versions)
    {
      assert AllocationOk(allocations[other]) && PoolOk(allocations[other], other, versions);
      GrownLegacy(a, block);
    }
    forall id | id in versions
      ensures versions[id].app in after && BlockOk(versions[id], after[versions[id].app])
    {
      assert BlockOk(versions[id], allocations[versions[id].app]);
      if versions[id].app == app && !versions[id].unverified && block > a.block {
        MultipleOfMultiple(versions[id].block, a.block, block);
      }
    }
  }

  lemma GrownLegacy(a: Allocation, block: int)
    requires a.block >= 1 && Grown(a, block).Ok? && a.legacyBytes >= 0 && a.legacyInodes >= 0
    ensures Grown(a, block).value.legacyBytes >= 0
  {}

  /** A version is charged to its pool: a new one with its whole footprint, an existing one not at all. */
  lemma ChargedOk(allocations: AllocationMap, versions: VersionMap, projects: ProjectMap, offer: Offer, usage: F.Usage,
                  id: VersionId, v: Version)
    requires StorageOk(allocations, versions, projects) && offer.app in allocations
             && allocations[offer.app].schema == 2
    requires id in versions ==> v == versions[id].(quotaBytes := v.quotaBytes) && v.app == offer.app
    requires id !in versions ==>
             v == FreshVersion(offer.app, usage, allocations[offer.app].block).(quotaBytes := v.quotaBytes)
    ensures StorageOk(allocations[offer.app := Charged(allocations[offer.app], offer, usage, id !in versions)],
                      versions[id := v], projects)
  {
    hide Total, AllocationOk, PoolOk;
    var after := allocations[offer.app := Charged(allocations[offer.app], offer, usage, id !in versions)];
    forall app | app in after
      ensures AllocationOk(after[app]) && PoolOk(after[app], app, versions[id := v])
    {
      assert AllocationOk(allocations[app]) && PoolOk(allocations[app], app, versions);
      ChargedPool(allocations, versions, offer, usage, id, v, app);
    }
    var versions' := versions[id := v];
    forall j | j in versions'
      ensures versions'[j].app in after && BlockOk(versions'[j], after[versions'[j].app])
    {
      if j in versions { assert BlockOk(versions[j], allocations[versions[j].app]); }
      if j == id && id !in versions { FreshBlock(allocations, offer); }
    }
  }

  lemma FreshBlock(allocations: AllocationMap, offer: Offer)
    requires AllocationsOk(allocations) && offer.app in allocations && allocations[offer.app].schema == 2
    ensures allocations[offer.app].block >= 1 && allocations[offer.app].block % allocations[offer.app].block == 0
  {
    assert AllocationOk(allocations[offer.app]);
    Multiple(allocations[offer.app].block, 1);
  }

  lemma ChargedPool(allocations: AllocationMap, versions: VersionMap, offer: Offer, usage: F.Usage, id: VersionId,
                    v: Version, app: AppName)
    requires offer.app in allocations && app in allocations && allocations[offer.app].schema == 2
    requires AllocationOk(allocations[app]) && PoolOk(allocations[app], app, versions)
    requires id in versions ==> v == versions[id].(quotaBytes := v.quotaBytes) && v.app == offer.app
    requires id !in versions ==>
             v == FreshVersion(offer.app, usage, allocations[offer.app].block).(quotaBytes := v.quotaBytes)
    ensures var after := allocations[offer.app := Charged(allocations[offer.app], offer, usage, id !in versions)];
            AllocationOk(after[app]) && PoolOk(after[app], app, versions[id := v])
  {
    hide Sum;
    SumUpdate(versions, SpaceOf(app, allocations[app].block), id, v);
    SumUpdate(versions, InodesOf(app), id, v);
    SumUpdate(versions, ContentOf(app), id, v);
    SumUpdate(versions, NumberOf(app), id, v);
  }

  /* ---------- What a grant means ---------- */

  lemma {:induction false} GrantedBy(l: Ledger, p: Project, r: Reservation, offers: seq<Offer>,
                                     opID: string) returns (offer: Offer)
    requires Allocate(l, p, r, offers, opID).Grant?
    ensures TryOffer(l, p, r, offer, opID) == Allocate(l, p, r, offers, opID)
  {
    hide TryOffer;
    if TryOffer(l, p, r, offers[0], opID).Skip? {
      offer := GrantedBy(l, p, r, offers[1..], opID);
    } else {
      offer := offers[0];
    }
  }

  /** What a granted version looks like, whichever offer granted it. */
  ghost predicate Granted(l: Ledger, p: Project, r: Reservation, opID: string, id: VersionId, v: Version,
                          a: Allocation) {
    && id == VersionId(p.id, r.digest, id.generation) && (id.generation == "" || id.generation == opID)
    && (p.storageApp != "" ==> p.storageApp == v.app)
    && v.contentBytes == r.bytes && v.state == Retained
    && (id in l.versions ==> v == l.versions[id].(quotaBytes := l.versions[id].quotaBytes + VersionCharge(r.bytes)))
    && (id !in l.versions ==>
          && v.quotaBytes == VersionCharge(r.bytes) && !v.unverified && v.epoch == "" && !v.projectDeleted
          && MeasuredOk(id, v, map[id := r.manifest]))
    && StorageOk(l.allocations[v.app := a], l.versions[id := v], l.projects)
    && a.schema == 2
    && (LegacyFree(l.allocations) ==> a.legacyBytes == 0 && a.legacyInodes == 0)
  }

  lemma PlaceGrants(l: Ledger, p: Project, r: Reservation, offer: Offer, opID: string, a: Allocation, grant: Offering)
    requires grant == Place(l, p, r, offer, opID, a, F.Allowance(r.manifest, a.block)) && grant.Grant?
    requires StorageOk(l.allocations[offer.app := a], l.versions, l.projects) && a.schema == 2
             && 1 <= a.block <= F.MAX_BLOCK
    requires p.storageApp != "" ==> p.storageApp == offer.app
    requires LegacyFree(l.allocations) ==> a.legacyBytes == 0 && a.legacyInodes == 0
    ensures Granted(l, p, r, opID, grant.id, grant.version, grant.allocation)
  {
    hide LegacyFree, StorageOk, F.Allowance, Roomy, VersionCharge, Charged;
    var usage := F.Allowance(r.manifest, a.block).usage;
    ChargedOk(l.allocations[offer.app := a], l.versions, l.projects, offer, usage, grant.id, grant.version);
    assert l.allocations[offer.app := a][offer.app := grant.allocation] == l.allocations[offer.app := grant.allocation];
    ChargedSchema(a, offer, usage, grant.id !in l.versions);
  }

  lemma ChargedSchema(a: Allocation, offer: Offer, usage: F.Usage, isFresh: bool)
    ensures Charged(a, offer, usage, isFresh).schema == a.schema
    ensures Charged(a, offer, usage, isFresh).legacyBytes == a.legacyBytes
            && Charged(a, offer, usage, isFresh).legacyInodes == a.legacyInodes
  {}

  lemma OfferGrants(l: Ledger, p: Project, r: Reservation, offer: Offer, opID: string)
    requires StorageOk(l.allocations, l.versions, l.projects) && TryOffer(l, p, r, offer, opID).Grant?
    ensures var grant := TryOffer(l, p, r, offer, opID);
            Granted(l, p, r, opID, grant.id, grant.version, grant.allocation)
  {
    hide StorageOk, F.Allowance, Place, Opened, Grown, LegacyFree;
    var app, started := offer.app, Opened(AllocationAt(l.allocations, offer.app), offer);
    var grown := Grown(started, offer.block).value;
    OpenedOk(l.allocations, l.versions, l.projects, offer);
    GrownOk(l.allocations[app := started], l.versions, l.projects, app, offer.block);
    assert l.allocations[app := started][app := grown] == l.allocations[app := grown];
    GrownBlock(started, offer.block);
    if LegacyFree(l.allocations) { GrownLegacyFree(l.allocations, offer); }
    PlaceGrants(l, p, r, offer, opID, grown, TryOffer(l, p, r, offer, opID));
  }

  lemma GrownLegacyFree(allocations: AllocationMap, offer: Offer)
    requires LegacyFree(allocations)
    ensures var started := Opened(AllocationAt(allocations, offer.app), offer);
            && started.legacyBytes == 0 && started.legacyInodes == 0
            && (started.block >= 1 && Grown(started, offer.block).Ok? ==>
                Grown(started, offer.block).value.legacyBytes == 0
                && Grown(started, offer.block).value.legacyInodes == 0)
  {}

  lemma GrownBlock(a: Allocation, block: int)
    requires 1 <= a.block <= F.MAX_BLOCK && block <= F.MAX_BLOCK && Grown(a, block).Ok?
    ensures Grown(a, block).value.schema == a.schema && 1 <= Grown(a, block).value.block <= F.MAX_BLOCK
  {}

  /* ---------- The project a reservation is for ---------- */

  lemma {:induction false} ChosenSlug(l: Ledger, name: string, seed: string, id: string, lengths: seq<nat>)
    requires ChooseSlug(l, name, seed, id, lengths).Ok?
    ensures var slug := ChooseSlug(l, name, seed, id, lengths).value.slug;
            ValidSlug(slug) && slug !in RESERVED_SLUGS && (SlugOwner(l, slug) == Ok("") || SlugOwner(l, slug) == Ok(id))
  {
    hide ValidSlug, SlugOwner;
    if |seed| < lengths[0] || Candidate(name, seed, lengths[0]).slug in RESERVED_SLUGS
      || !(SlugOwner(l, Candidate(name, seed, lengths[0]).slug) in {Ok(""), Ok(id)}) {
      ChosenSlug(l, name, seed, id, lengths[1..]);
    }
  }

  /** A reservation is for an unknown project with a free name, or for a live project that is idle. */
  ghost predicate Targeted(l: Ledger, now: int, r: Reservation, p: Project) {
    if r.projectID == "" then
      && p.id !in l.projects && p.id != "" && p.status == Reserved && p.chargedBytes == 0 && p.storageApp == ""
      && p.activeDigest == ""
      && p.aliasCount == 0 && Free(l.slugs, l.projects, p.slug)
    else
      p.id in l.projects && p == l.projects[p.id] && p.Live(now) && p.pendingOperation == ""
  }

  lemma TargetFacts(l: Ledger, c: Limits, now: int, a: Actor, r: Reservation, opID: OperationId)
    requires Identified(l.projects, l.operations) && Named(l.slugs, l.names, l.projects)
             && Target(l, now, a, r, opID).Ok?
    ensures Targeted(l, now, r, Target(l, now, a, r, opID).value)
  {
    hide ChooseSlug, ValidSlug;
    if r.projectID == "" {
      var name := if r.name == "" then DefaultName(opID) else r.name;
      ChosenSlug(l, name, r.digest, opID[..32], SUFFIX_LENGTHS);
      assert |opID[..32]| == 32;
    }
  }

  /* ---------- Reserve ---------- */

  lemma StoredVersions(l: Ledger, r: Reservation, opID: string, p: Project, next: Project, id: VersionId, v: Version,
                       a: Allocation)
    requires VersionsOk(l.versions, l.projects, l.measured) && Granted(l, p, r, opID, id, v, a) && next.id == p.id
             && next.storageApp == v.app && 0 <= r.bytes <= F.MAX_CONTENT
    requires p.id in l.projects ==> p == l.projects[p.id] && p.storageApp != "" && next.status == p.status
    ensures VersionsOk(l.versions[id := v], l.projects[p.id := next], if id in l.versions then l.measured
                       else l.measured[id := r.manifest])
  {
    hide F.Allowance, StorageOk;
    var versions, projects, measured := l.versions[id := v], l.projects[p.id := next], if id in l.versions
      then l.measured else l.measured[id := r.manifest];
    forall j | j in versions
      ensures j.project in projects && projects[j.project].storageApp == versions[j].app
      ensures LifecycleOk(versions[j], projects[j.project].status == Deleted)
      ensures !versions[j].unverified ==> MeasuredOk(j, versions[j], measured)
    {
      if j in l.versions {
        assert LifecycleOk(l.versions[j], l.projects[j.project].status == Deleted);
        assert !l.versions[j].unverified ==> MeasuredOk(j, l.versions[j], l.measured);
      }
    }
  }

  lemma StoredCharges(l: Ledger, r: Reservation, opID: string, p: Project, next: Project, id: VersionId, v: Version,
                      a: Allocation)
    requires ProjectCharges(l.projects, l.versions) && VersionsOk(l.versions, l.projects, l.measured)
             && Granted(l, p, r, opID, id, v, a)
    requires next.id == p.id && next.chargedBytes == p.chargedBytes + VersionCharge(r.bytes)
    requires if p.id in l.projects then p == l.projects[p.id] else p.chargedBytes == 0
    ensures ProjectCharges(l.projects[p.id := next], l.versions[id := v])
  {
    hide Sum, StorageOk, MeasuredOk, LifecycleOk;
    var projects := l.projects[p.id := next];
    forall j | j in projects
      ensures projects[j].chargedBytes == Sum(l.versions[id := v], QuotaOf(j))
    {
      SumUpdate(l.versions, QuotaOf(j), id, v);
      if j !in l.projects { SumZero(l.versions, QuotaOf(j)); }
    }
  }

  lemma StoredContent(l: Ledger, r: Reservation, opID: string, p: Project, next: Project, op: Operation, id: VersionId,
                      v: Version, a: Allocation)
    requires Identified(l.projects, l.operations) && Serving(l.projects, l.versions, l.removals)
             && Publishing(l.operations, l.versions, l.removals)
    requires Granted(l, p, r, opID, id, v, a) && id !in l.removals && r.digest != ""
    requires next == Next(p, v.app, VersionCharge(r.bytes), opID)
    requires if p.id in l.projects then p == l.projects[p.id] && p.storageApp != ""
             else p.status == Reserved && p.activeDigest == ""
    requires op.id == opID && op.digest == r.digest && op.projectID == p.id && op.storageGeneration == id.generation
             && op.bytes == r.bytes
    ensures Serving(l.projects[p.id := next], l.versions[id := v], l.removals)
    ensures Publishing(l.operations[opID := op], l.versions[id := v], l.removals)
  {
    hide StorageOk, MeasuredOk;
    var versions := l.versions[id := v];
    forall j | j in l.projects
      ensures ServingOk(l.projects[j], versions, l.removals)
    {
      assert ServingOk(l.projects[j], l.versions, l.removals);
    }
    assert p.id in l.projects ==> ServingOk(l.projects[p.id], versions, l.removals);
    forall o | o in l.operations
      ensures PublishOk(l.operations[o], versions, l.removals)
    {
      assert PublishOk(l.operations[o], l.versions, l.removals);
    }
    assert PublishOk(op, versions, l.removals);
  }

  lemma BlockedDigests(l: Ledger, now: int, a: Actor, digest: string, p: Project, next: Project, opID: string)
    requires Digested(l.digests, l.projects, now) && DigestBlocked(l, now, a, digest, p.id).None?
    requires next.id == p.id && next.activeDigest == p.activeDigest && next.status == p.status
             && next.expiresAt == p.expiresAt
    requires if p.id in l.projects then p == l.projects[p.id] else p.status == Reserved
    ensures Digested(l.digests[digest := DigestRecord(p.id, opID)], l.projects[p.id := next], now)
  {}

  lemma ReservedQuota(l: Ledger, c: Limits, p: Project, next: Project, isNew: bool, charge: int, q: Quota)
    requires Quotas(l.quotas, l.projects, c) && QuotaAfter(l.quotas, c, p, isNew, charge) == Ok(q)
    requires if isNew then p.id !in l.projects && p.chargedBytes == 0 && p.status == Reserved
             else p.id in l.projects && p == l.projects[p.id] && p.status != Deleted
    requires next.id == p.id && next.owner == p.owner && next.status == p.status
             && next.chargedBytes == p.chargedBytes + charge
    ensures Quotas(l.quotas[p.owner := q], l.projects[p.id := next], c)
  {
    hide QuotaOk, Limits.Bytes, Limits.Count;
    OwnerQuota(l, c, p.owner);
    QuotasOne(l.quotas, q, l.projects, c, next);
  }

  lemma ReservedNames(l: Ledger, p: Project, next: Project, isNew: bool)
    requires Named(l.slugs, l.names, l.projects) && next.id == p.id && next.slug == p.slug
             && next.aliasCount == p.aliasCount && next.status == p.status
    requires if isNew then p.id !in l.projects && p.aliasCount == 0 && Free(l.slugs, l.projects, p.slug)
             else p.id in l.projects && p == l.projects[p.id]
    ensures if isNew then Named(l.slugs[p.slug := p.id], l.names[p.id := {p.slug}], l.projects[p.id := next])
            else Named(l.slugs, l.names, l.projects[p.id := next])
  {
    hide Named;
    if isNew {
      NoNames(l, p.id);
      NamedTake(l.slugs, l.names, l.projects, next, {});
      assert {} + {p.slug} == {p.slug};
    } else {
      NamedKeeps(l.slugs, l.names, l.projects, next);
    }
  }

  lemma NoNames(l: Ledger, id: string)
    requires Named(l.slugs, l.names, l.projects) && id !in l.projects
    ensures forall s :: s in l.slugs ==> l.slugs[s] != id
  {}

  /** The records that a grant and the new operation concern. */
  lemma BookedRecords(l: Ledger, c: Limits, now: int, r: Reservation, p: Project, opID: OperationId, op: Operation,
                      id: VersionId, v: Version, a: Allocation)
    requires Inv(l, c, now) && Targeted(l, now, r, p) && Granted(l, p, r, opID, id, v, a) && id !in l.removals
             && ValidReservation(r) && opID !in l.operations
    requires op.id == opID && op.digest == r.digest && op.projectID == p.id && op.storageGeneration == id.generation
             && op.bytes == r.bytes && op.state == Pending && op.isNew == (r.projectID == "")
    ensures var next := Next(p, v.app, VersionCharge(r.bytes), opID);
            var projects, versions := l.projects[p.id := next], l.versions[id := v];
            && VersionsOk(versions, projects, if id in l.versions then l.measured else l.measured[id := r.manifest])
            && ProjectCharges(projects, versions)
            && Serving(projects, versions, l.removals) && Publishing(l.operations[opID := op], versions, l.removals)
            && Linked(projects, l.operations[opID := op]) && Identified(projects, l.operations[opID := op])
            && Queued(l.queue + {(v.app, id)}, versions, l.projects)
  {
    hide Serving, Publishing, VersionsOk, BlocksOk, Pools, LiveOk, ProjectCharges, Quotas, Indexed, Digested, Named,
      AllocationsOk, Granted, VersionCharge, Linked, Free;
    var next := Next(p, v.app, VersionCharge(r.bytes), opID);
    StoredVersions(l, r, opID, p, next, id, v, a);
    StoredCharges(l, r, opID, p, next, id, v, a);
    StoredContent(l, r, opID, p, next, op, id, v, a);
    LinkedStarts(l.projects, l.operations, next, op);
    StoredQueue(l, r, opID, p, id, v, a);
  }

  lemma StoredQueue(l: Ledger, r: Reservation, opID: string, p: Project, id: VersionId, v: Version, a: Allocation)
    requires Queued(l.queue, l.versions, l.projects) && Granted(l, p, r, opID, id, v, a)
    ensures Queued(l.queue + {(v.app, id)}, l.versions[id := v], l.projects)
  {
    hide StorageOk, MeasuredOk;
  }

  /** The pools that a grant leaves behind. */
  lemma GrantedPools(l: Ledger, r: Reservation, opID: string, p: Project, id: VersionId, v: Version, a: Allocation)
    requires Granted(l, p, r, opID, id, v, a)
    ensures AllocationsOk(l.allocations[v.app := a]) && BlocksOk(l.versions[id := v], l.allocations[v.app := a])
            && Pools(l.allocations[v.app := a], l.versions[id := v])
    ensures LiveOk(l.allocations[v.app := a], l.projects) && Assigned(l.projects, l.allocations[v.app := a])
            && a.schema == 2
    ensures p.storageApp != "" ==> p.storageApp == v.app
    ensures LegacyFree(l.allocations) ==> LegacyFree(l.allocations[v.app := a])
  {
    hide AllocationsOk, BlocksOk, Pools, LiveOk, MeasuredOk;
  }

  lemma BookedInv(l: Ledger, c: Limits, now: int, a: Actor, r: Reservation, p: Project, opID: OperationId, q: Quota,
                  grant: Offering)
    requires Inv(l, c, now) && Targeted(l, now, r, p) && ValidReservation(r) && opID !in l.operations && grant.Grant?
    requires Granted(l, p, r, opID, grant.id, grant.version, grant.allocation)
    requires QuotaAfter(l.quotas, c, p, r.projectID == "", VersionCharge(r.bytes)) == Ok(q)
             && DigestBlocked(l, now, a, r.digest, p.id).None?
    requires Booked(l, a, r, p, opID, now, q, grant).Ok?
    ensures Inv(Booked(l, a, r, p, opID, now, q, grant).value, c, now)
  {
    hide Serving, Publishing, VersionsOk, BlocksOk, Pools, LiveOk, ProjectCharges, Quotas, Indexed, Digested, Named,
      AllocationsOk, Granted, VersionCharge, Linked, Queued, PutProject, DigestBlocked, QuotaAfter, Free, Identified,
      Assigned;
    var id, v, alloc := grant.id, grant.version, grant.allocation;
    var next := Next(p, v.app, VersionCharge(r.bytes), opID);
    var op := PendingOperation(a, r, p, opID, id.generation, now);
    var named := BeforePut(l, r, p, id, v, alloc, q);
    var put := PutProject(named, next).value;
    GrantedShape(l, p, r, opID, id, v, alloc);
    BookedRecords(l, c, now, r, p, opID, op, id, v, alloc);
    GrantedPools(l, r, opID, p, id, v, alloc);
    TargetServed(l, c, now, r, p);
    PutDerived(named, next, put);
    AssignedNext(l.projects, named.allocations, next, p);
    ReservedQuota(l, c, p, next, r.projectID == "", VersionCharge(r.bytes), q);
    BlockedDigests(l, now, a, r.digest, p, next, opID);
    ReservedNames(l, p, next, r.projectID == "");
  }

  lemma BeforePutShape(l: Ledger, r: Reservation, p: Project, id: VersionId, v: Version, a: Allocation, q: Quota)
    ensures BeforePut(l, r, p, id, v, a, q).projects == l.projects
    ensures BeforePut(l, r, p, id, v, a, q).operations == l.operations
    ensures BeforePut(l, r, p, id, v, a, q).removals == l.removals
    ensures BeforePut(l, r, p, id, v, a, q).allocations == l.allocations[v.app := a]
    ensures BeforePut(l, r, p, id, v, a, q).queue == l.queue + {(v.app, id)}
    ensures BeforePut(l, r, p, id, v, a, q).versions == l.versions[id := v]
    ensures BeforePut(l, r, p, id, v, a, q).names == if r.projectID != "" then l.names else l.names[p.id := {p.slug}]
  {}

  lemma GrantedShape(l: Ledger, p: Project, r: Reservation, opID: string, id: VersionId, v: Version, a: Allocation)
    requires Granted(l, p, r, opID, id, v, a)
    ensures id == VersionId(p.id, r.digest, id.generation)
  {
    hide StorageOk, MeasuredOk;
  }

  lemma TargetServed(l: Ledger, c: Limits, now: int, r: Reservation, p: Project)
    requires Inv(l, c, now) && Targeted(l, now, r, p)
    ensures p.id != "" && (p.id in l.projects ==>
                           p == l.projects[p.id] && p.storageApp != "" && p.status == Active && p.activeDigest != "")
    ensures p.id in l.projects <==> r.projectID != ""
    ensures p.id !in l.projects ==>
            p.status == Reserved && p.chargedBytes == 0 && p.aliasCount == 0 && Free(l.slugs, l.projects, p.slug)
  {
    hide Publishing, VersionsOk, BlocksOk, Pools, LiveOk, ProjectCharges, Quotas, Indexed, Digested, Named,
      AllocationsOk, Linked, Queued, Free;
    if p.id in l.projects { assert ServingOk(l.projects[p.id], l.versions, l.removals); }
  }

  lemma AssignedNext(projects: ProjectMap, allocations: AllocationMap, next: Project, p: Project)
    requires Assigned(projects, allocations) && next.id == p.id && next.storageApp != ""
             && next.storageApp in allocations && allocations[next.storageApp].schema == 2
    ensures Assigned(projects[p.id := next], allocations)
  {}

  lemma ReserveInv(l: Ledger, c: Limits, now: int, a: Actor, r: Reservation, offers: seq<Offer>, opID: OperationId)
    requires Inv(l, c, now) && Reserve(l, c, now, a, r, offers, opID).Ok?
    ensures Inv(Reserve(l, c, now, a, r, offers, opID).value, c, now)
  {
    hide Inv, Target, DigestBlocked, QuotaAfter, Allocate, Booked, ValidReservation;
    if opID !in l.operations {
      var p := Target(l, now, a, r, opID).value;
      var q := QuotaAfter(l.quotas, c, p, r.projectID == "", VersionCharge(r.bytes)).value;
      var grant := Allocate(l, p, r, offers, opID);
      ReserveFacts(l, c, now, a, r, offers, opID, p);
      BookedInv(l, c, now, a, r, p, opID, q, grant);
    }
  }

  lemma ReserveFacts(l: Ledger, c: Limits, now: int, a: Actor, r: Reservation, offers: seq<Offer>, opID: OperationId,
                     p: Project)
    requires Inv(l, c, now) && Target(l, now, a, r, opID) == Ok(p) && Allocate(l, p, r, offers, opID).Grant?
    ensures Targeted(l, now, r, p)
    ensures var grant := Allocate(l, p, r, offers, opID);
            Granted(l, p, r, opID, grant.id, grant.version, grant.allocation)
  {
    hide Serving, Publishing, VersionsOk, BlocksOk, Pools, LiveOk, ProjectCharges, Quotas, Indexed, Digested, Named,
      AllocationsOk, Granted, Linked, Queued, Target, Allocate, TryOffer, Targeted, Assigned;
    TargetFacts(l, c, now, a, r, opID);
    var offer := GrantedBy(l, p, r, offers, opID);
    OfferGrants(l, p, r, offer, opID);
  }

  /* ---------- Measuring an older version, and closing a pool ---------- */

  lemma ReconciledPool(l: Ledger, id: VersionId, w: Version, a: Allocation, app: AppName)
    requires Pools(l.allocations, l.versions) && id in l.versions && l.versions[id].unverified
             && l.versions[id].state == Retained && app in l.allocations
    requires w == l.versions[id].(unverified := false, bytes := w.bytes, inodes := w.inodes, block := w.block)
    requires w.app in l.allocations && w.block == l.allocations[w.app].block
    requires var b := l.allocations[w.app];
             a == b.(bytes := a.bytes, inodes := a.inodes, legacyBytes := a.legacyBytes, legacyInodes := a.legacyInodes)
             && a.bytes - a.legacyBytes == b.bytes - b.legacyBytes + w.bytes
             && a.inodes - a.legacyInodes == b.inodes - b.legacyInodes + w.inodes
    ensures PoolOk(l.allocations[w.app := a][app], app, l.versions[id := w])
  {
    hide Sum;
    assert PoolOk(l.allocations[app], app, l.versions);
    SumUpdate(l.versions, SpaceOf(app, l.allocations[app].block), id, w);
    SumUpdate(l.versions, InodesOf(app), id, w);
    SumUpdate(l.versions, ContentOf(app), id, w);
    SumUpdate(l.versions, NumberOf(app), id, w);
  }

  lemma ReconciledStorage(l: Ledger, id: VersionId, w: Version, a: Allocation)
    requires StorageOk(l.allocations, l.versions, l.projects) && id in l.versions && l.versions[id].unverified
             && l.versions[id].state == Retained
    requires w == l.versions[id].(unverified := false, bytes := w.bytes, inodes := w.inodes, block := w.block)
    requires w.app in l.allocations && w.block == l.allocations[w.app].block && l.allocations[w.app].schema == 2
    requires var b := l.allocations[w.app];
             a == b.(bytes := a.bytes, inodes := a.inodes, legacyBytes := a.legacyBytes, legacyInodes := a.legacyInodes)
               && a.legacyBytes >= 0 && a.legacyInodes >= 0
             && a.bytes - a.legacyBytes == b.bytes - b.legacyBytes + w.bytes
             && a.inodes - a.legacyInodes == b.inodes - b.legacyInodes + w.inodes
    ensures StorageOk(l.allocations[w.app := a], l.versions[id := w], l.projects)
  {
    hide Total, PoolOk;
    var allocations, versions := l.allocations[w.app := a], l.versions[id := w];
    forall app | app in allocations
      ensures AllocationOk(allocations[app]) && PoolOk(allocations[app], app, versions)
    {
      assert AllocationOk(l.allocations[app]);
      ReconciledPool(l, id, w, a, app);
    }
    forall j | j in versions
      ensures versions[j].app in allocations && BlockOk(versions[j], allocations[versions[j].app])
    {
      assert BlockOk(l.versions[j], l.allocations[l.versions[j].app]) && AllocationOk(l.allocations[w.app]);
      if j == id { Multiple(w.block, 1); }
    }
  }

  lemma ReconciledVersions(l: Ledger, id: VersionId, w: Version, m: F.Manifest)
    requires VersionsOk(l.versions, l.projects, l.measured) && ProjectCharges(l.projects, l.versions)
             && Queued(l.queue, l.versions, l.projects)
    requires id in l.versions
             && w == l.versions[id].(unverified := false, bytes := w.bytes, inodes := w.inodes, block := w.block)
    requires MeasuredOk(id, w, map[id := m]) && l.versions[id].unverified
    ensures VersionsOk(l.versions[id := w], l.projects, l.measured[id := m])
            && ProjectCharges(l.projects, l.versions[id := w]) && Queued(l.queue, l.versions[id := w], l.projects)
  {
    hide Sum, F.Allowance;
    forall j | j in l.projects
      ensures Sum(l.versions[id := w], QuotaOf(j)) == Sum(l.versions, QuotaOf(j))
    {
      SumUpdate(l.versions, QuotaOf(j), id, w);
    }
    var versions, measured := l.versions[id := w], l.measured[id := m];
    forall j | j in versions
      ensures LifecycleOk(versions[j], l.projects[j.project].status == Deleted)
              && (!versions[j].unverified ==> MeasuredOk(j, versions[j], measured))
    {
      assert LifecycleOk(l.versions[j], l.projects[j.project].status == Deleted);
      assert !l.versions[j].unverified ==> MeasuredOk(j, l.versions[j], l.measured);
    }
  }

  lemma ReconcileInv(l: Ledger, c: Limits, now: int, id: VersionId, m: F.Manifest)
    requires Inv(l, c, now) && Reconcile(l, id, m).Ok?
    ensures Inv(Reconcile(l, id, m).value, c, now)
  {
    hide Identified, Linked, Serving, Publishing, VersionsOk, BlocksOk, Pools, LiveOk, Queued, ProjectCharges, Quotas,
      Indexed, Digested, Named, AllocationsOk, Assigned, F.Allowance, PriorBytes, PriorInodes, Unused;
    var v := l.versions[id];
    if v.unverified {
      var after := Reconcile(l, id, m).value;
      var w, a := after.versions[id], after.allocations[v.app];
      ReconciledStorage(l, id, w, a);
      ReconciledVersions(l, id, w, m);
      ContentSwap(l, id, w);
    }
  }

  lemma SetControlInv(l: Ledger, c: Limits, now: int, app: AppName, closed: bool)
    requires Inv(l, c, now) && SetControl(l, app, closed).Ok?
    ensures Inv(SetControl(l, app, closed).value, c, now)
  {
    hide Identified, Linked, Serving, Publishing, VersionsOk, Queued, ProjectCharges, Quotas, Indexed, Digested, Named,
      Sum, Total;
    var after := SetControl(l, app, closed).value;
    forall other | other in after.allocations
      ensures AllocationOk(after.allocations[other]) && PoolOk(after.allocations[other], other, l.versions)
    {
      assert AllocationOk(l.allocations[other]) && PoolOk(l.allocations[other], other, l.versions);
    }
  }
}
