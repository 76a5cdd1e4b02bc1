/**
 What a caller gets: sequences of transactions that must succeed in a consistent ledger, and what they achieve
 together. No internal guard can refuse them.
 */
module LedgerProgress {
  import opened Projects
  import opened LedgerRules
  import opened LedgerSums
  import opened LedgerInv
  import opened LedgerSteps
  import opened LedgerPublish
  import opened LedgerStorage
  import opened LedgerReserve
  import opened LedgerRuns
  import opened LedgerHistory
  import F = Footprint

  /* ---------- Storing a project never fails on a derived record ---------- */

  /** The pool's live bytes after a change, which the pool's guard compares with its stored bytes. */
  lemma LiveFits(l: Ledger, c: Limits, now: int, next: Project, app: AppName)
    requires Inv(l, c, now) && next.id in l.projects && app == l.projects[next.id].storageApp == next.storageApp
             && ServingOk(next, l.versions, l.removals)
    ensures app in l.allocations && l.allocations[app].schema == 2
    ensures 0 <= l.allocations[app].liveBytes
            + LiveBytesOf(next) - LiveBytesOf(l.projects[next.id]) <= l.allocations[app].contentBytes
  {
    hide Linked, Publishing, Queued, ProjectCharges, Quotas, Indexed, Digested, Named, Sum, Total, MeasuredOk;
    var after := l.(projects := l.projects[next.id := next]);
    forall id | id in after.projects
      ensures after.projects[id].id == id && ServedStored(after.projects[id], l.versions)
    {
      if id != next.id { assert ServingOk(l.projects[id], l.versions, l.removals); }
    }
    forall id | id in l.versions
      ensures l.versions[id].contentBytes >= 0
    {
      assert LifecycleOk(l.versions[id], l.projects[id.project].status == Deleted);
    }
    TotalUpdate(l.projects, LiveOf(app), next.id, next);
    LiveNonNegative(after, app);
    LiveWithinContent(after.projects, l.versions, app);
    assert PoolOk(l.allocations[app], app, l.versions);
  }

  /** A stored version belongs to the pool of its project. */
  lemma SamePool(l: Ledger, c: Limits, now: int, id: VersionId)
    requires Inv(l, c, now) && id in l.versions
    ensures id.project in l.projects && l.versions[id].app == l.projects[id.project].storageApp
  {
    hide Identified, Linked, Serving, Publishing, BlocksOk, Pools, LiveOk, Queued, ProjectCharges, Quotas, Indexed,
      Digested, Named, AllocationsOk, Assigned, MeasuredOk;
  }

  lemma PutSucceeds(l: Ledger, c: Limits, now: int, before: Ledger, next: Project)
    requires Inv(l, c, now) && next.id in l.projects && before.projects == l.projects && before.versions == l.versions
    requires before.index == l.index && before.queue == l.queue && before.allocations == l.allocations
    requires next.owner == l.projects[next.id].owner && next.storageApp == l.projects[next.id].storageApp
    requires l.projects[next.id].status == Deleted ==> next.status == Deleted
    requires ServingOk(next, l.versions, l.removals)
    ensures PutProject(before, next).Ok?
  {
    hide Inv, ServingOk, LegacyFree;
    var p := l.projects[next.id];
    InvIdentified(l, c, now);
    PlacedHere(l, c, now, next.id);
    LiveFits(l, c, now, next, next.storageApp);
    if CurrentVersion(p) in l.versions { SamePool(l, c, now, CurrentVersion(p)); }
  }

  lemma PlacedHere(l: Ledger, c: Limits, now: int, id: string)
    requires Inv(l, c, now) && id in l.projects
    ensures l.projects[id].storageApp != "" && l.projects[id].id == id && l.projects[id].owner in l.quotas
    ensures ServingOk(l.projects[id], l.versions, l.removals) && PendingOk(l.projects[id], l.operations)
  {
    hide Publishing, VersionsOk, BlocksOk, Pools, LiveOk, Queued, ProjectCharges, QuotaOk, Indexed, Digested, Named,
      AllocationsOk, ServingOk, PendingOk;
  }

  /** The quota of the owner of an undeleted project can be read and counts that project. */
  lemma OwnerCounted(l: Ledger, c: Limits, now: int, id: string)
    requires Inv(l, c, now) && id in l.projects
    ensures ReadQuota(l.quotas, l.projects[id].owner).Ok?
    ensures l.projects[id].status != Deleted ==> ReadQuota(l.quotas, l.projects[id].owner).value.count >= 1
  {
    hide Linked, Serving, Publishing, VersionsOk, BlocksOk, Pools, LiveOk, Queued, ProjectCharges, Indexed, Digested,
      Named, AllocationsOk, Assigned, Total, Limits.Bytes, Limits.Count;
    var o := l.projects[id].owner;
    assert QuotaOk(l.quotas, l.projects, c, o);
    TotalNonNegative(l.projects, CountOf(o));
    assert WeighProject(CountOf(o), l.projects[id]) == if l.projects[id].status != Deleted then 1 else 0;
  }

  /* ---------- Publishing ---------- */

  /** What a successful first reservation leaves behind. */
  ghost predicate Holds(l: Ledger, m: Ledger, a: Actor, r: Reservation, opID: OperationId, now: int, p: Project) {
    && opID in m.operations && opID != "" && p.id in m.projects && p.id != ""
    && var op := m.operations[opID];
       && op.id == opID && op.owner == a.Identity() && op.projectID == p.id && op.digest == r.digest
       && op.bytes == r.bytes
       && op.isNew == (r.projectID == "") && op.state == Pending && op.expiresAt == now + RESERVATION_LIFETIME
       && op.baseRevision == p.revision
       && Usable(m, m.projects[p.id], op)
       && m.projects[p.id] == p.(storageApp := m.projects[p.id].storageApp,
                                 chargedBytes := p.chargedBytes + VersionCharge(r.bytes), pendingOperation := opID)
       && r.digest in m.digests && m.digests[r.digest] == DigestRecord(p.id, opID)
       && p.owner in m.quotas
       && m.quotas[p.owner].charged == QuotaAt(l.quotas, p.owner).charged + VersionCharge(r.bytes)
       && m.quotas[p.owner].count == QuotaAt(l.quotas, p.owner).count + (if r.projectID == "" then 1 else 0)
       && (r.projectID == "" ==> p.slug in m.slugs && m.slugs[p.slug] == p.id)
  }

  lemma ReservationHolds(l: Ledger, c: Limits, now: int, a: Actor, r: Reservation, offers: seq<Offer>,
                         opID: OperationId) returns (p: Project)
    requires Inv(l, c, now) && opID !in l.operations && Reserve(l, c, now, a, r, offers, opID).Ok?
    ensures Target(l, now, a, r, opID) == Ok(p) && Targeted(l, now, r, p)
    ensures Holds(l, Reserve(l, c, now, a, r, offers, opID).value, a, r, opID, now, p)
  {
    hide Inv, Target, DigestBlocked, QuotaAfter, Allocate, Booked, ValidReservation, Targeted, Granted, Holds,
      VersionCharge;
    p := Target(l, now, a, r, opID).value;
    var q := QuotaAfter(l.quotas, c, p, r.projectID == "", VersionCharge(r.bytes)).value;
    var grant := Allocate(l, p, r, offers, opID);
    ReserveFacts(l, c, now, a, r, offers, opID, p);
    BookedHolds(l, c, now, a, r, p, opID, q, grant);
  }

  lemma BookedHolds(l: Ledger, c: Limits, now: int, a: Actor, r: Reservation, p: Project, opID: OperationId, q: Quota,
                    grant: Offering)
    requires Inv(l, c, now) && Targeted(l, now, r, p) && grant.Grant? && Booked(l, a, r, p, opID, now, q, grant).Ok?
    requires QuotaAfter(l.quotas, c, p, r.projectID == "", VersionCharge(r.bytes)) == Ok(q)
             && Granted(l, p, r, opID, grant.id, grant.version, grant.allocation)
    ensures Holds(l, Booked(l, a, r, p, opID, now, q, grant).value, a, r, opID, now, p)
  {
    hide Inv, Targeted, Granted, VersionCharge, PutProject, Free, BeforePut, Usable, FitsBytes, Limits.Bytes,
      Limits.Count, ReadQuota, Booked;
    TargetServed(l, c, now, r, p);
    GrantedShape(l, p, r, opID, grant.id, grant.version, grant.allocation);
    BookedShape(l, a, r, p, opID, now, q, grant);
    BeforePutShape(l, r, p, grant.id, grant.version, grant.allocation, q);
    BeforePutNames(l, r, p, grant.id, grant.version, grant.allocation, q);
    BookedUsable(l, a, r, p, opID, now, q, grant);
  }

  lemma BeforePutNames(l: Ledger, r: Reservation, p: Project, id: VersionId, v: Version, a: Allocation, q: Quota)
    ensures BeforePut(l, r, p, id, v, a, q).slugs == if r.projectID == "" then l.slugs[p.slug := p.id] else l.slugs
    ensures BeforePut(l, r, p, id, v, a, q).quotas == l.quotas[p.owner := q]
    ensures BeforePut(l, r, p, id, v, a, q).retirements == l.retirements
    ensures BeforePut(l, r, p, id, v, a, q).digests == l.digests
  {}

  lemma BookedUsable(l: Ledger, a: Actor, r: Reservation, p: Project, opID: OperationId, now: int, q: Quota,
                     grant: Offering)
    requires grant.Grant? && Booked(l, a, r, p, opID, now, q, grant).Ok?
    ensures Usable(Booked(l, a, r, p, opID, now, q, grant).value,
                   Next(p, grant.version.app, VersionCharge(r.bytes), opID),
                   PendingOperation(a, r, p, opID, grant.id.generation, now))
  {
    hide PutProject, VersionCharge;
    BookedShape(l, a, r, p, opID, now, q, grant);
    BeforePutShape(l, r, p, grant.id, grant.version, grant.allocation, q);
    BeforePutNames(l, r, p, grant.id, grant.version, grant.allocation, q);
  }

  /** The name that a new project asks for. */
  function AskedName(r: Reservation, opID: OperationId): string { if r.name == "" then DefaultName(opID) else r.name }

  /** While no name is taken, only a malformed one is refused; a reserved one gets a suffix of the content digest. */
  predicate NameFree(name: string, digest: string)
    requires |digest| == 64
  {
    ValidSlug(name) && (name in RESERVED_SLUGS ==> ValidSlug(name + "-" + digest[..6]))
  }

  /** The manifest can be measured and is the one that was announced. */
  ghost predicate Matching(r: Reservation, block: int) {
    var measured := F.Allowance(r.manifest, block);
    measured.Measured? && measured.usage.contentBytes == r.bytes && |r.manifest.files| == r.files
  }

  /** An unused pool in which the content would fit. */
  ghost predicate Suitable(r: Reservation, offer: Offer) {
    && 1 <= offer.block <= F.MAX_BLOCK && offer.limitBytes > 0 && Matching(r, offer.block)
    && Roomy(Opened(NO_ALLOCATION, offer), offer, F.Allowance(r.manifest, offer.block).usage)
  }

  /**
   In the empty ledger a reservation, named or not and with any list of offered pools, succeeds if and only if it is
   a valid one for a new project, its name is not malformed, it fits the quota, and some offered pool is suitable.
   */
  lemma FirstReservation(c: Limits, now: int, a: Actor, r: Reservation, offers: seq<Offer>, opID: OperationId)
    ensures Reserve(EMPTY, c, now, a, r, offers, opID).Ok? <==>
              && ValidReservation(r) && r.projectID == "" && NameFree(AskedName(r, opID), r.digest)
              && VersionCharge(r.bytes) <= c.Bytes(a.Identity())
              && exists i :: 0 <= i < |offers| && Suitable(r, offers[i])
  {
    hide ValidSlug, Suitable, RESERVED_SLUGS, PutProject, Limits.Bytes, Limits.Count, Booked, NameFree, Allocate,
      FirstGrant, DefaultName, ChooseSlug;
    if ValidReservation(r) && r.projectID == "" {
      var name := AskedName(r, opID);
      FirstName(name, r.digest, opID[..32]);
      if NameFree(name, r.digest) {
        var choice := ChooseSlug(EMPTY, name, r.digest, opID[..32], SUFFIX_LENGTHS).value;
        var p := NewProject(a.Identity(), opID, choice, now);
        assert Target(EMPTY, now, a, r, opID) == Ok(p);
        FirstQuota(c, p, VersionCharge(r.bytes));
        var i := FirstOffer(p, r, offers, opID);
        if i < |offers| { FirstBooking(c, now, a, r, p, offers[i], opID); }
      }
    }
  }

  lemma FirstQuota(c: Limits, p: Project, charge: int)
    requires 0 < charge
    ensures QuotaAfter(EMPTY.quotas, c, p, true, charge) ==
            if charge <= c.Bytes(p.owner) then Ok(Quota(1, charge)) else Err(QuotaExceeded)
  {}

  lemma FirstName(name: string, digest: string, id: string)
    requires |digest| == 64
    ensures ChooseSlug(EMPTY, name, digest, id, SUFFIX_LENGTHS).Ok? <==> NameFree(name, digest)
  {
    hide ValidSlug;
    var rest := SUFFIX_LENGTHS[1..];
    assert rest[0] == 6;
    var suffixed := name + "-" + digest[..6];
    assert suffixed[|name|] == '-';
    NotReserved(suffixed, |name|);
  }

  /** A name with a hyphen is not reserved. */
  lemma NotReserved(name: string, i: nat)
    requires i < |name| && name[i] == '-'
    ensures name !in RESERVED_SLUGS
  {}

  /** The version and the pool that a suitable offer grants. */
  ghost function FirstGrant(p: Project, r: Reservation, offer: Offer, opID: string): Offering
    requires F.Allowance(r.manifest, offer.block).Measured?
  {
    var usage := F.Allowance(r.manifest, offer.block).usage;
    Grant(VersionId(p.id, r.digest, if offer.generations then opID else ""),
          FreshVersion(offer.app, usage, offer.block).(quotaBytes := VersionCharge(r.bytes)),
          Charged(Opened(NO_ALLOCATION, offer), offer, usage, true))
  }

  /** What a single offer of an unused pool leads to. */
  lemma OneOffer(p: Project, r: Reservation, offer: Offer, opID: string)
    requires p.storageApp == ""
    ensures Suitable(r, offer) ==> TryOffer(EMPTY, p, r, offer, opID) == FirstGrant(p, r, offer, opID)
    ensures Suitable(r, offer) <==> TryOffer(EMPTY, p, r, offer, opID).Grant?
    ensures TryOffer(EMPTY, p, r, offer, opID).Refuse? ==> 1 <= offer.block <= F.MAX_BLOCK && !Matching(r, offer.block)
  {
    hide F.Allowance, Roomy, Charged;
    var a := Opened(NO_ALLOCATION, offer);
    assert 1 <= offer.block ==> Grown(a, offer.block) == Ok(a);
  }

  /** Whether it is does not depend on the block size. */
  lemma MatchingAnyBlock(r: Reservation, b: int, d: int)
    requires Matching(r, b) && 1 <= d <= F.MAX_BLOCK
    ensures Matching(r, d)
  {
    hide F.Allocated, F.Inodes, F.Admit;
  }

  /** The first suitable offer is granted, and without one nothing is. */
  lemma {:induction false} FirstOffer(p: Project, r: Reservation, offers: seq<Offer>, opID: string) returns (i: nat)
    requires p.storageApp == ""
    ensures i <= |offers|
    ensures i < |offers| ==>
              Suitable(r, offers[i]) && Allocate(EMPTY, p, r, offers, opID) == FirstGrant(p, r, offers[i], opID)
    ensures i == |offers| ==>
              !Allocate(EMPTY, p, r, offers, opID).Grant? && forall j :: 0 <= j < |offers| ==> !Suitable(r, offers[j])
  {
    hide Suitable, TryOffer, FirstGrant, Matching;
    if offers == [] { return 0; }
    OneOffer(p, r, offers[0], opID);
    if Suitable(r, offers[0]) { return 0; }
    if TryOffer(EMPTY, p, r, offers[0], opID).Refuse? {
      forall j | 0 <= j < |offers|
        ensures !Suitable(r, offers[j])
      {
        if Suitable(r, offers[j]) {
          SuitableMatches(r, offers[j]);
          MatchingAnyBlock(r, offers[j].block, offers[0].block);
        }
      }
      return |offers|;
    }
    var k := FirstOffer(p, r, offers[1..], opID);
    i := k + 1;
    if i == |offers| {
      forall j | 0 < j < |offers|
        ensures !Suitable(r, offers[j])
      {
        assert offers[1..][j - 1] == offers[j];
      }
    }
  }

  lemma SuitableMatches(r: Reservation, offer: Offer)
    requires Suitable(r, offer)
    ensures Matching(r, offer.block)
  {}

  lemma FirstBooking(c: Limits, now: int, a: Actor, r: Reservation, p: Project, offer: Offer, opID: OperationId)
    requires r.projectID == "" && p.status == Reserved && p.activeDigest == "" && Suitable(r, offer)
    ensures FirstGrant(p, r, offer, opID).Grant?
            && Booked(EMPTY, a, r, p, opID, now, Quota(1, VersionCharge(r.bytes)), FirstGrant(p, r, offer, opID)).Ok?
  {
    hide VersionCharge, Charged, LegacyFree, F.Allowance, Roomy;
    var grant := FirstGrant(p, r, offer, opID);
    var before := BeforePut(EMPTY, r, p, grant.id, grant.version, grant.allocation, Quota(1, VersionCharge(r.bytes)));
    var next := Next(p, grant.version.app, VersionCharge(r.bytes), opID);
    assert Prior(before.projects, next.id) == Absent;
    assert IndexAfter(before.index, Absent, next).Ok?;
    assert QueueAfter(before.queue, before.versions, Absent, next).Ok?;
    assert LiveAfter(before.allocations, Absent, next).Ok?;
  }

  /** A caller with some identity owns what is recorded under that identity. */
  lemma OwnsIdentity(a: Actor)
    requires a.uid != "" || a.anonymousID != ""
    ensures a.Owns(a.Identity())
  {}

  /** The caller owns the project of its reservation. */
  lemma TargetOwned(l: Ledger, now: int, a: Actor, r: Reservation, opID: OperationId, p: Project)
    requires Target(l, now, a, r, opID) == Ok(p) && (a.uid != "" || a.anonymousID != "")
    ensures a.Owns(p.owner) && p.pendingOperation == ""
            && (r.projectID == "" ==> p.expiresAt == Never || p.expiresAt == At(now + ANONYMOUS_LIFETIME))
  {
    hide ChooseSlug;
    OwnsIdentity(a);
  }

  /**
   Publishing: after a successful reservation, activating it within fifteen minutes, while the project has not
   expired, always succeeds, and the project then serves exactly the reserved content under its name.
   */
  lemma PublishSucceeds(l: Ledger, c: Limits, now: int, later: int, a: Actor, r: Reservation, offers: seq<Offer>,
                        opID: OperationId)
    requires Inv(l, c, now) && opID !in l.operations && (a.uid != "" || a.anonymousID != "")
    requires Reserve(l, c, now, a, r, offers, opID).Ok? && now <= later < now + RESERVATION_LIFETIME
    requires r.projectID != "" ==> r.projectID in l.projects && l.projects[r.projectID].Unexpired(later)
    ensures var m := Reserve(l, c, now, a, r, offers, opID).value;
            && Activate(m, later, a, opID, Open).Ok?
            && opID in m.operations
            && var k := Activate(m, later, a, opID, Open).value; var id := m.operations[opID].projectID;
               && id in k.projects && k.projects[id].Live(later) && k.projects[id].activeDigest == r.digest
               && k.projects[id].activeBytes == r.bytes
               && opID in k.operations && k.operations[opID].state == Complete
               && r.digest in k.digests && k.digests[r.digest] == DigestRecord(id, "")
               && SlugOwner(k, k.projects[id].slug) == Ok(id)
  {
    hide Inv, Reserve, Target, Targeted, Holds, Install, Activate, SlugOwner;
    var m := Reserve(l, c, now, a, r, offers, opID).value;
    var p := ReservationHolds(l, c, now, a, r, offers, opID);
    TargetOwned(l, now, a, r, opID, p);
    ReserveInv(l, c, now, a, r, offers, opID);
    Later(m, c, now, later);
    InvIdentified(l, c, now);
    TargetId(l, now, a, r, opID, p);
    ReservedUnexpired(l, now, later, r, p);
    HeldProject(l, m, a, r, opID, now, p);
    ActivationSucceeds(l, m, c, later, a, r, opID, now, p);
  }

  lemma TargetId(l: Ledger, now: int, a: Actor, r: Reservation, opID: OperationId, p: Project)
    requires Target(l, now, a, r, opID) == Ok(p) && Identified(l.projects, l.operations)
    ensures r.projectID != "" ==> r.projectID in l.projects && p == l.projects[r.projectID] && p.id == r.projectID
  {
    hide ChooseSlug;
  }

  lemma ReservedUnexpired(l: Ledger, now: int, later: int, r: Reservation, p: Project)
    requires later < now + RESERVATION_LIFETIME
             && (r.projectID == "" ==> p.expiresAt == Never || p.expiresAt == At(now + ANONYMOUS_LIFETIME))
    requires r.projectID != "" ==> r.projectID in l.projects && p == l.projects[r.projectID] && p.Unexpired(later)
    ensures p.Unexpired(later)
  {}

  lemma ActivationSucceeds(l: Ledger, m: Ledger, c: Limits, later: int, a: Actor, r: Reservation, opID: OperationId,
                           now: int, p: Project)
    requires Inv(m, c, later) && Holds(l, m, a, r, opID, now, p) && a.Owns(p.owner) && p.Unexpired(later)
             && now <= later < now + RESERVATION_LIFETIME
    ensures Activate(m, later, a, opID, Open).Ok?
    ensures var k := Activate(m, later, a, opID, Open).value;
            && p.id in k.projects && k.projects[p.id].Live(later) && k.projects[p.id].activeDigest == r.digest
            && k.projects[p.id].activeBytes == r.bytes
            && opID in k.operations && k.operations[opID].state == Complete
            && r.digest in k.digests && k.digests[r.digest] == DigestRecord(p.id, "")
            && SlugOwner(k, k.projects[p.id].slug) == Ok(p.id)
  {
    hide Inv, Install, Activate, SlugOwner, ServingOk, Holds;
    HeldProject(l, m, a, r, opID, now, p);
    ActivateIsInstall(l, m, c, later, a, r, opID, now, p);
    InstallSucceeds(m, c, later, m.projects[p.id], m.operations[opID]);
    ActivateInv(m, c, later, a, opID, Open);
    SlugResolves(Activate(m, later, a, opID, Open).value, c, later, p.id);
  }

  lemma HeldProject(l: Ledger, m: Ledger, a: Actor, r: Reservation, opID: OperationId, now: int, p: Project)
    requires Holds(l, m, a, r, opID, now, p)
    ensures opID in m.operations && m.operations[opID].projectID == p.id && m.operations[opID].id == opID
            && m.operations[opID].state == Pending
    ensures m.operations[opID].digest == r.digest && m.operations[opID].bytes == r.bytes
    ensures p.id in m.projects && m.projects[p.id].id == p.id && m.projects[p.id].expiresAt == p.expiresAt
    ensures Usable(m, m.projects[p.id], m.operations[opID])
  {
    hide Usable, VersionCharge;
  }

  lemma ActivateIsInstall(l: Ledger, m: Ledger, c: Limits, later: int, a: Actor, r: Reservation, opID: OperationId,
                          now: int, p: Project)
    requires Inv(m, c, later) && Holds(l, m, a, r, opID, now, p) && a.Owns(p.owner) && p.Unexpired(later)
             && later < now + RESERVATION_LIFETIME
    ensures opID in m.operations && p.id in m.projects
            && Activate(m, later, a, opID, Open) == Install(m, later, m.projects[p.id], m.operations[opID], Open)
  {
    hide Inv, Usable, Install, VersionCharge;
    PendingHere(m, c, later, m.operations[opID]);
  }

  lemma ActivatedReady(m: Ledger, c: Limits, later: int, q: Project, op: Operation)
    requires Inv(m, c, later) && op.id in m.operations && op == m.operations[op.id] && op.state == Pending
             && op.projectID == q.id && q.id in m.projects && q == m.projects[q.id]
    requires Usable(m, q, op) && q.Unexpired(later)
    ensures var next := Activated(q, op, Open, later);
            && next.id == q.id && next.owner == q.owner && next.storageApp == q.storageApp && q.status != Deleted
            && ServingOk(next, m.versions, m.removals)
            && next.Live(later) && next.activeDigest == op.digest && next.activeBytes == op.bytes
  {
    hide Inv, Usable, Activated, ServingOk, PublishOk, PendingOk;
    PendingHere(m, c, later, op);
    ActivatedServing(m, q, op, Open, later);
    ActivatedShape(q, op, Open, later);
    ActivatedLive(q, op, later);
  }

  /** What an activation leaves behind, whichever project it serves. */
  lemma InstallShape(m: Ledger, later: int, q: Project, op: Operation)
    requires Install(m, later, q, op, Open).Ok?
    ensures var k := Install(m, later, q, op, Open).value;
            && q.id in k.projects && k.projects[q.id] == Activated(q, op, Open, later)
            && op.id in k.operations && k.operations[op.id].state == Complete
            && op.digest in k.digests && k.digests[op.digest] == DigestRecord(q.id, "")
  {
    hide PutProject, Activated, Release, QueueKept;
    ActivatedShape(q, op, Open, later);
  }

  lemma InstallSucceeds(m: Ledger, c: Limits, later: int, q: Project, op: Operation)
    requires Inv(m, c, later) && op.id in m.operations && op == m.operations[op.id] && op.state == Pending
             && op.projectID == q.id && q.id in m.projects && q == m.projects[q.id]
    requires Usable(m, q, op) && q.Unexpired(later)
    ensures Install(m, later, q, op, Open).Ok?
    ensures var k := Install(m, later, q, op, Open).value;
            && q.id in k.projects && k.projects[q.id].Live(later) && k.projects[q.id].activeDigest == op.digest
            && k.projects[q.id].activeBytes == op.bytes
            && op.id in k.operations && k.operations[op.id].state == Complete
            && op.digest in k.digests && k.digests[op.digest] == DigestRecord(q.id, "")
  {
    hide Inv, Usable, PutProject, Activated, Release, ServingOk, Project.Live, Project.Unexpired, Install;
    ActivatedReady(m, c, later, q, op);
    InstallOk(m, c, later, q, op);
    InstallShape(m, later, q, op);
  }

  lemma InstallOk(m: Ledger, c: Limits, later: int, q: Project, op: Operation)
    requires Inv(m, c, later) && q.id in m.projects && q == m.projects[q.id] && q.status != Deleted
    requires ServingOk(Activated(q, op, Open, later), m.versions, m.removals)
    ensures Install(m, later, q, op, Open).Ok?
  {
    hide Inv, PutProject, Activated, Release, ServingOk, QueueKept;
    ActivatedShape(q, op, Open, later);
    var released :=
      if q.activeDigest != "" && q.activeDigest != op.digest then Release(m.digests, q.activeDigest, q.id)
      else m.digests;
    PutSucceeds(m, c, later,
                m.(operations := m.operations[op.id := op.(state := Complete, publishedAt := later)],
                   digests := released[op.digest := DigestRecord(q.id, "")]), Activated(q, op, Open, later));
  }

  lemma PendingHere(m: Ledger, c: Limits, now: int, op: Operation)
    requires Inv(m, c, now) && op.id in m.operations && op == m.operations[op.id] && op.state == Pending
    ensures PublishOk(op, m.versions, m.removals) && op.projectID in m.projects
            && m.projects[op.projectID].status != Deleted
    ensures m.projects[op.projectID].pendingOperation == op.id
            && (op.isNew <==> m.projects[op.projectID].status == Reserved)
  {
    hide VersionsOk, BlocksOk, Pools, LiveOk, Queued, ProjectCharges, Quotas, Indexed, Digested, Named, AllocationsOk,
      Assigned, Serving;
    PendingFacts(m, op);
  }

  lemma ActivatedLive(p: Project, op: Operation, now: int)
    requires p.Unexpired(now)
    ensures Activated(p, op, Open, now).Live(now) && Activated(p, op, Open, now).activeBytes == op.bytes
  {}

  lemma SlugResolves(l: Ledger, c: Limits, now: int, id: string)
    requires Inv(l, c, now) && id in l.projects && l.projects[id].status != Deleted
    ensures SlugOwner(l, l.projects[id].slug) == Ok(id)
  {
    hide Identified, Linked, Serving, Publishing, VersionsOk, BlocksOk, Pools, LiveOk, Queued, ProjectCharges, Quotas,
      Indexed, Digested, AllocationsOk, Assigned;
    assert NamesOk(l.projects[id], id, l.slugs, l.names);
  }

  /**
   Giving up: a reservation can always be aborted by its owner. An existing project is left exactly as it was
   except for what it is charged; a new one is gone and its owner's project count is what it was before.
   */
  lemma AbortUndoes(l: Ledger, c: Limits, now: int, later: int, a: Actor, r: Reservation, offers: seq<Offer>,
                    opID: OperationId)
    requires Inv(l, c, now) && opID !in l.operations && (a.uid != "" || a.anonymousID != "")
    requires Reserve(l, c, now, a, r, offers, opID).Ok? && now <= later
    ensures var m := Reserve(l, c, now, a, r, offers, opID).value;
            && Abort(m, later, ByOwner(a), opID).Ok?
            && opID in m.operations
            && var k := Abort(m, later, ByOwner(a), opID).value; var id := m.operations[opID].projectID;
               && opID in k.operations && k.operations[opID].state == Aborted && id in k.projects
               && (r.projectID != "" ==>
                   id in l.projects && k.projects[id] ==
                   l.projects[id].(chargedBytes := l.projects[id].chargedBytes + VersionCharge(r.bytes)))
               && (r.projectID == "" ==>
                     k.projects[id].status == Deleted
                       && QuotaAt(k.quotas, k.projects[id].owner).count == QuotaAt(l.quotas, k.projects[id].owner).count
                       && k.projects[id].slug !in k.slugs)
  {
    hide Inv, Reserve, Target, Targeted, Holds, Abort, VersionCharge;
    var m := Reserve(l, c, now, a, r, offers, opID).value;
    var p := ReservationHolds(l, c, now, a, r, offers, opID);
    TargetOwned(l, now, a, r, opID, p);
    ReserveInv(l, c, now, a, r, offers, opID);
    Later(m, c, now, later);
    InvIdentified(l, c, now);
    TargetId(l, now, a, r, opID, p);
    SamePlace(l, c, now, a, r, offers, opID, p);
    HeldProject(l, m, a, r, opID, now, p);
    AbortSucceeds(l, m, c, later, a, r, opID, now, p);
  }

  lemma SamePlace(l: Ledger, c: Limits, now: int, a: Actor, r: Reservation, offers: seq<Offer>, opID: OperationId,
                  p: Project)
    requires Inv(l, c, now) && Reserve(l, c, now, a, r, offers, opID).Ok? && Target(l, now, a, r, opID) == Ok(p)
             && opID !in l.operations
    ensures p.id in l.projects ==> var m := Reserve(l, c, now, a, r, offers, opID).value;
            p.id in m.projects && m.projects[p.id].storageApp == l.projects[p.id].storageApp
  {
    hide Inv, Reserve;
    ReserveEvolves(l, c, now, a, r, offers, opID);
  }

  lemma AbortSucceeds(l: Ledger, m: Ledger, c: Limits, later: int, a: Actor, r: Reservation, opID: OperationId,
                      now: int, p: Project)
    requires Inv(m, c, later) && Holds(l, m, a, r, opID, now, p) && a.Owns(p.owner) && p.pendingOperation == ""
    requires r.projectID != "" ==>
             p.id in l.projects && p == l.projects[p.id] && m.projects[p.id].storageApp == p.storageApp
    ensures Abort(m, later, ByOwner(a), opID).Ok?
    ensures var k := Abort(m, later, ByOwner(a), opID).value;
            && opID in k.operations && k.operations[opID].state == Aborted && p.id in k.projects
            && (r.projectID != "" ==>
                k.projects[p.id] == l.projects[p.id].(chargedBytes := l.projects[p.id].chargedBytes
                                                      + VersionCharge(r.bytes)))
            && (r.projectID == "" ==>
                k.projects[p.id].status == Deleted
                && QuotaAt(k.quotas, k.projects[p.id].owner).count == QuotaAt(l.quotas, k.projects[p.id].owner).count
                && k.projects[p.id].slug !in k.slugs)
  {
    hide Inv, Usable, PutProject, Withdrawn, VersionCharge, ServingOk, PublishOk, PendingOk;
    var op, held := m.operations[opID], m.projects[p.id];
    PendingHere(m, c, later, op);
    PlacedHere(m, c, later, p.id);
    OwnerCounted(m, c, later, p.id);
    var q := ReadQuota(m.quotas, held.owner).value;
    var withdrawn :=
      m.(digests := Withdrawn(m.digests, held, op), operations := m.operations[opID := op.(state := Aborted)]);
    if op.isNew {
      var gone := held.(pendingOperation := "", status := Deleted);
      DeletedServes(gone, m);
      PutSucceeds(m, c, later,
                  withdrawn.(quotas := m.quotas[held.owner := q.(count := q.count - 1)],
                             slugs := m.slugs - {held.slug}), gone);
    } else {
      StillServes(held, held.(pendingOperation := ""), m);
      PutSucceeds(m, c, later, withdrawn, held.(pendingOperation := ""));
    }
  }

  lemma DeletedServes(p: Project, l: Ledger)
    requires p.status == Deleted
    ensures ServingOk(p, l.versions, l.removals)
  {}

  lemma StillServes(p: Project, next: Project, l: Ledger)
    requires ServingOk(p, l.versions, l.removals) && next == p.(pendingOperation := next.pendingOperation)
    ensures ServingOk(next, l.versions, l.removals)
  {}

  /* ---------- Deleting ---------- */

  /** An owner can always delete an idle project: it stops counting, and its name is free at once. */
  lemma DeleteSucceeds(l: Ledger, c: Limits, now: int, a: Actor, id: string)
    requires Inv(l, c, now) && id in l.projects && a.Owns(l.projects[id].owner) && l.projects[id].status != Deleted
             && l.projects[id].pendingOperation == "" && l.projects[id].revision >= 1
    ensures Tombstone(l, a, id, l.projects[id].revision).Ok?
    ensures var k := Tombstone(l, a, id, l.projects[id].revision).value; var p := l.projects[id];
            && id in k.projects && k.projects[id].status == Deleted && k.projects[id].chargedBytes == p.chargedBytes
            && QuotaAt(k.quotas, p.owner) ==
               Quota(QuotaAt(l.quotas, p.owner).count - 1, QuotaAt(l.quotas, p.owner).charged)
            && SlugOwner(k, p.slug) == Ok("")
            && (forall j :: j in l.projects && j != id ==> j in k.projects && k.projects[j] == l.projects[j])
  {
    hide Inv, PutProject, ServingOk, PendingOk, Release;
    var p := l.projects[id];
    PlacedHere(l, c, now, id);
    OwnerCounted(l, c, now, id);
    var q := ReadQuota(l.quotas, p.owner).value;
    var next := p.(status := Deleted, revision := p.revision + 1, policyRevision := p.policyRevision + 1);
    var cleared := l.(transfers := l.transfers - {id});
    DeletedServes(next, l);
    PutSucceeds(l, c, now, cleared.(quotas := l.quotas[p.owner := q.(count := q.count - 1)],
                                    digests := Release(l.digests, p.activeDigest, p.id)), next);
    OwnName(l, c, now, id);
  }

  lemma OwnName(l: Ledger, c: Limits, now: int, id: string)
    requires Inv(l, c, now) && id in l.projects && l.projects[id].status != Deleted
    ensures l.projects[id].slug in l.slugs && l.slugs[l.projects[id].slug] == id
  {
    hide Identified, Linked, Serving, Publishing, VersionsOk, BlocksOk, Pools, LiveOk, Queued, ProjectCharges, Quotas,
      Indexed, Digested, AllocationsOk, Assigned;
    assert NamesOk(l.projects[id], id, l.slugs, l.names);
  }

  /* ---------- Going back to an earlier publication ---------- */

  /** The publication with this identifier is what the project serves now. */
  ghost predicate ServedBy(l: Ledger, p: Project, opID: string) {
    opID in l.operations && AvailableRevision(l, p, opID).Ok?
      && VersionOfOperation(l.operations[opID]) == CurrentVersion(p) && l.operations[opID].bytes == p.activeBytes
  }

  lemma ReselectSucceeds(l: Ledger, c: Limits, now: int, p: Project, opID: string)
    requires Inv(l, c, now) && p.id in l.projects && p == l.projects[p.id] && p.Live(now)
             && AvailableRevision(l, p, opID).Ok?
    ensures Reselect(l, now, p, AvailableRevision(l, p, opID).value).Ok?
    ensures var op, k :=
            AvailableRevision(l, p, opID).value, Reselect(l, now, p, AvailableRevision(l, p, opID).value).value;
            && k.projects == l.projects[p.id := Reselected(p, op, now)] && k.operations == l.operations
            && k.removals == l.removals && k.versions == l.versions
            && (p.activeDigest != op.digest ==> p.activeDigest !in k.digests)
  {
    hide Inv, PutProject, AvailableRevision, ServingOk, PendingOk;
    var op := AvailableRevision(l, p, opID).value;
    AvailableHere(l, c, now, p, opID);
    PlacedHere(l, c, now, p.id);
    DigestHeld(l, c, now, p);
    ReselectedServes(l, p, op, now);
    PutSucceeds(l, c, now, l.(digests := (if p.activeDigest != op.digest then Release(l.digests, p.activeDigest, p.id)
                                          else l.digests)[op.digest := DigestRecord(p.id, "")]),
                Reselected(p, op, now));
  }

  lemma AvailableHere(l: Ledger, c: Limits, now: int, p: Project, opID: string)
    requires Inv(l, c, now) && AvailableRevision(l, p, opID).Ok?
    ensures opID in l.operations && AvailableRevision(l, p, opID) == Ok(l.operations[opID])
            && l.operations[opID].projectID == p.id && l.operations[opID].digest != ""
    ensures var id := VersionOfOperation(l.operations[opID]);
            id in l.versions && id !in l.removals && l.versions[id].state == Retained
              && l.versions[id].app == p.storageApp && l.versions[id].contentBytes == l.operations[opID].bytes
  {
    hide Identified, Linked, Serving, VersionsOk, BlocksOk, Pools, LiveOk, Queued, ProjectCharges, Quotas, Indexed,
      Digested, Named, AllocationsOk, Assigned;
    assert PublishOk(l.operations[opID], l.versions, l.removals);
  }

  lemma DigestHeld(l: Ledger, c: Limits, now: int, p: Project)
    requires Inv(l, c, now) && p.id in l.projects && p == l.projects[p.id] && p.Live(now)
    ensures p.activeDigest in l.digests && l.digests[p.activeDigest].projectID == p.id
  {
    hide Identified, Linked, Serving, Publishing, VersionsOk, BlocksOk, Pools, LiveOk, Queued, ProjectCharges, Quotas,
      Indexed, Named, AllocationsOk, Assigned;
  }

  lemma ReselectedServes(l: Ledger, p: Project, op: Operation, now: int)
    requires p.status == Active && op.digest != "" && op.projectID == p.id
    requires var id := VersionOfOperation(op);
             id in l.versions && id !in l.removals && l.versions[id].state == Retained
             && l.versions[id].app == p.storageApp && l.versions[id].contentBytes == op.bytes
    ensures ServingOk(Reselected(p, op, now), l.versions, l.removals)
  {}

  /**
   Selecting another publication and then the first one again always succeeds the second time, and brings back
   exactly the content that was served before; only the revision counters have moved on.
   */
  lemma SelectBack(l: Ledger, c: Limits, now: int, a: Actor, id: string, here: string, there: string)
    requires Inv(l, c, now) && id in l.projects && l.projects[id].Live(now) && l.projects[id].revision >= 1
             && ServedBy(l, l.projects[id], here)
    requires SelectRevision(l, now, a, id, there, l.projects[id].revision).Ok?
             && SelectRevision(l, now, a, id, there, l.projects[id].revision).value != l
    ensures var m := SelectRevision(l, now, a, id, there, l.projects[id].revision).value; var p := l.projects[id];
            && id in m.projects && !ServedBy(m, m.projects[id], here)
            && SelectRevision(m, now, a, id, here, m.projects[id].revision).Ok?
            && var k := SelectRevision(m, now, a, id, here, m.projects[id].revision).value;
               id in k.projects && k.projects[id] ==
                 p.(revision := p.revision + 2, policyRevision := p.policyRevision + 2, updatedAt := now)
  {
    hide Inv, PutProject, AvailableRevision, Reselect, Release;
    var p := l.projects[id];
    InvIdentified(l, c, now);
    AvailableHere(l, c, now, p, there);
    AvailableHere(l, c, now, p, here);
    ReselectSucceeds(l, c, now, p, there);
    SelectInv(l, c, now, a, id, there, p.revision);
    var m := SelectRevision(l, now, a, id, there, p.revision).value;
    SameAvailability(l, m, p, m.projects[id], here);
    AvailableHere(m, c, now, m.projects[id], here);
    ReselectSucceeds(m, c, now, m.projects[id], here);
    DigestHeld(m, c, now, m.projects[id]);
  }

  lemma SameAvailability(l: Ledger, m: Ledger, p: Project, q: Project, opID: string)
    requires m.operations == l.operations && m.removals == l.removals && m.versions == l.versions && q.id == p.id
             && q.storageApp == p.storageApp
    ensures AvailableRevision(m, q, opID) == AvailableRevision(l, p, opID)
  {}

  /* ---------- Reclaiming ---------- */

  /** Acknowledgements from members, one after another. */
  ghost function AcknowledgeAll(l: Ledger, id: VersionId, epoch: string, members: seq<string>): Ledger {
    if members == [] then l
    else
      var before := AcknowledgeAll(l, id, epoch, members[..|members| - 1]);
      match Acknowledge(before, id, epoch, members[|members| - 1])
      case Ok(after) => after
      case Err(_) => before
  }

  lemma {:induction false} AcknowledgedSoFar(l: Ledger, c: Limits, now: int, id: VersionId, epoch: string,
                                             members: seq<string>)
    requires Inv(l, c, now) && id in l.versions && l.versions[id].state == Retiring && l.versions[id].epoch == epoch
             && |epoch| == 64
    requires forall m :: m in members ==> m in l.versions[id].members
    ensures var k := AcknowledgeAll(l, id, epoch, members);
            && Inv(k, c, now) && id in k.versions && k.versions[id].state != Retained && k.versions[id].epoch == epoch
            && k.versions[id].members == l.versions[id].members
            && (k.versions[id].state == Retiring ==> forall m :: m in members ==> m in k.versions[id].acknowledged)
  {
    hide Inv, Acknowledge, AllAcknowledged, VersionEvolves;
    if members != [] {
      var n := |members| - 1;
      var before := AcknowledgeAll(l, id, epoch, members[..n]);
      AcknowledgedSoFar(l, c, now, id, epoch, members[..n]);
      AcknowledgeInv(before, c, now, id, epoch, members[n]);
      AcknowledgeVersions(before, c, now, id, epoch, members[n]);
      OneAcknowledged(before, id, epoch, members[n]);
      EvolvedRetiring(before.versions[id], Acknowledge(before, id, epoch, members[n]).value.versions[id]);
      assert members == members[..n] + [members[n]];
    }
  }

  lemma OneAcknowledged(l: Ledger, id: VersionId, epoch: string, member: string)
    requires Acknowledge(l, id, epoch, member).Ok? && id in l.versions
             && id in Acknowledge(l, id, epoch, member).value.versions
    ensures Acknowledge(l, id, epoch, member).value.versions[id].state == Retiring ==>
            member in Acknowledge(l, id, epoch, member).value.versions[id].acknowledged
  {
    hide PutProject, Damaged, AllAcknowledged, Serves;
  }

  lemma EvolvedRetiring(v: Version, w: Version)
    requires VersionEvolves(v, w) && v.state != Retained
    ensures w.state != Retained && w.epoch == v.epoch && w.members == v.members
            && (w.state == Retiring ==> v.state == Retiring && v.acknowledged <= w.acknowledged)
  {}

  /**
   Reclaiming completes: once every pinned member of a retiring version has acknowledged, in any order and with
   any repetitions, the version is reclaimed.
   */
  lemma ReclaimCompletes(l: Ledger, c: Limits, now: int, id: VersionId, epoch: string, members: seq<string>)
    requires Inv(l, c, now) && id in l.versions && l.versions[id].state == Retiring && l.versions[id].epoch == epoch
    requires forall m :: m in members <==> m in l.versions[id].members
    ensures var k := AcknowledgeAll(l, id, epoch, members);
            Inv(k, c, now) && id in k.versions && k.versions[id].state == Reclaimed
  {
    hide Inv, AcknowledgeAll;
    Alive(l, c, now, id);
    AcknowledgedSoFar(l, c, now, id, epoch, members);
    Alive(AcknowledgeAll(l, id, epoch, members), c, now, id);
  }
}
