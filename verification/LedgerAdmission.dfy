/** When a reservation is granted, told by what the caller sends and what is stored; nothing inside can refuse it
    then. */
module LedgerAdmission {
  import opened Projects
  import opened LedgerRules
  import opened LedgerSums
  import opened LedgerInv
  import opened LedgerStorage
  import opened LedgerReserve
  import opened LedgerHistory
  import opened LedgerProgress
  import opened LedgerEdits
  import opened LedgerAuthority

  /* ---------- Names ---------- */

  /** A candidate that may be used: well formed, not reserved, and nobody's or the project's own. */
  predicate Takeable(l: Ledger, slug: string, id: string) {
    && slug !in {"api", "admin", "agents", "agent", "oauth", "unlock", "healthz", "readyz"}
    && (slug in l.slugs && l.slugs[slug] in l.projects ==>
        l.slugs[slug] == id || l.projects[l.slugs[slug]].status == Deleted)
  }

  /** The name with the first bytes of the seed appended. */
  function Suffixed(name: string, seed: string, n: nat): string
    requires n <= |seed|
  {
    if n == 0 then name else name + "-" + seed[..n]
  }

  /** Some length gives a usable name, and every shorter one a well-formed name that is reserved or taken. */
  ghost predicate NameFound(l: Ledger, name: string, seed: string, id: string, lengths: seq<nat>) {
    exists k :: 0 <= k < |lengths| && NameFoundAt(l, name, seed, id, lengths, k)
  }

  ghost predicate NameFoundAt(l: Ledger, name: string, seed: string, id: string, lengths: seq<nat>, k: nat)
    requires k < |lengths|
  {
    && lengths[k] <= |seed| && ValidSlug(Suffixed(name, seed, lengths[k]))
    && Takeable(l, Suffixed(name, seed, lengths[k]), id)
    && forall j :: 0 <= j < k && lengths[j] <= |seed| ==>
         ValidSlug(Suffixed(name, seed, lengths[j])) && !Takeable(l, Suffixed(name, seed, lengths[j]), id)
  }

  lemma {:induction false} NameExactly(l: Ledger, name: string, seed: string, id: string, lengths: seq<nat>)
    requires id != "" && (forall s :: s in l.slugs ==> l.slugs[s] in l.projects)
             && (forall p :: p in l.projects ==> p != "")
    ensures ChooseSlug(l, name, seed, id, lengths).Ok? <==> NameFound(l, name, seed, id, lengths)
  {
    hide ValidSlug, Takeable;
    if lengths != [] {
      var rest := lengths[1..];
      NameExactly(l, name, seed, id, rest);
      if lengths[0] <= |seed| { CandidateMeans(l, name, seed, id, lengths[0]); }
      if k :| 0 <= k < |lengths| && NameFoundAt(l, name, seed, id, lengths, k) {
        if k > 0 {
          assert lengths[k] == rest[k - 1];
          assert forall j :: 0 <= j < k - 1 ==> rest[j] == lengths[j + 1];
          assert NameFoundAt(l, name, seed, id, rest, k - 1);
        }
      }
      if k :| 0 <= k < |rest| && NameFoundAt(l, name, seed, id, rest, k) {
        if |seed| < lengths[0] || (ValidSlug(Suffixed(name, seed, lengths[0]))
                                   && !Takeable(l, Suffixed(name, seed, lengths[0]), id)) {
          forall j | 0 <= j < k + 1 && lengths[j] <= |seed|
            ensures ValidSlug(Suffixed(name, seed, lengths[j])) && !Takeable(l, Suffixed(name, seed, lengths[j]), id)
          {
            if j > 0 { assert rest[j - 1] == lengths[j]; }
          }
          assert NameFoundAt(l, name, seed, id, lengths, k + 1);
        }
      }
      if lengths[0] <= |seed| && ValidSlug(Suffixed(name, seed, lengths[0]))
        && Takeable(l, Suffixed(name, seed, lengths[0]), id) {
        assert NameFoundAt(l, name, seed, id, lengths, 0);
      }
    }
  }

  lemma CandidateMeans(l: Ledger, name: string, seed: string, id: string, n: nat)
    requires n <= |seed| && id != "" && (forall s :: s in l.slugs ==> l.slugs[s] in l.projects)
             && (forall p :: p in l.projects ==> p != "")
    ensures Candidate(name, seed, n).slug == Suffixed(name, seed, n)
    ensures var slug := Suffixed(name, seed, n);
            && SlugOwner(l, slug).Ok?
            && (Takeable(l, slug, id) <==>
                  slug !in RESERVED_SLUGS && (SlugOwner(l, slug).value == "" || SlugOwner(l, slug).value == id))
  {}

  /* ---------- Pools ---------- */

  /** A pool that has never been used. */
  predicate Untouched(a: Allocation) { a.schema == 0 && a.bytes == 0 && a.inodes == 0 }

  /** The block size that a new version in the pool is accounted with. */
  function BlockFor(a: Allocation, offer: Offer): int {
    if Untouched(a) || a.block < offer.block then offer.block else a.block
  }

  /** What the pool holds at that block size. */
  function HeldBytes(a: Allocation, offer: Offer): int {
    if Untouched(a) then 0 else a.bytes + a.inodes * (BlockFor(a, offer) - a.block)
  }

  /** The pool is meant for this project, works with sensible blocks, and is open and accounted for. */
  predicate Offered(l: Ledger, p: Project, offer: Offer) {
    var a := AllocationAt(l.allocations, offer.app);
    && p.storageApp in {"", offer.app} && 1 <= offer.block <= 0x10_0000 && offer.limitBytes > 0
    && !a.closed && (Untouched(a) || a.schema == 2)
  }

  /** Its accounting can be moved to the offered block. */
  predicate Growable(a: Allocation, offer: Offer) {
    || Untouched(a) || offer.block <= a.block
    || (a.block > 0 && offer.block % a.block == 0 && HeldBytes(a, offer) <= MAX_INT64)
  }

  /** The version fits under both limits, and twice its size is free. */
  predicate Spacious(a: Allocation, offer: Offer, usage: F.Usage) {
    && HeldBytes(a, offer) + usage.allocatedBytes <= offer.limitBytes
    && (a.limitBytes > 0 ==> HeldBytes(a, offer) + usage.allocatedBytes <= a.limitBytes)
    && 2 * usage.allocatedBytes <= offer.availableBytes
    && (offer.tracksInodes ==>
          && a.inodes + usage.inodes <= offer.limitInodes
          && (a.limitInodes > 0 ==> a.inodes + usage.inodes <= a.limitInodes)
          && 2 * usage.inodes <= offer.availableInodes)
  }

  function VersionFor(p: Project, r: Reservation, op: string, offer: Offer): VersionId {
    VersionId(p.id, r.digest, if offer.generations then op else "")
  }

  /** The pool takes the content: as one more version with room for it, or as the version it already stores. */
  ghost predicate Accepts(l: Ledger, p: Project, r: Reservation, op: string, offer: Offer) {
    var a, id := AllocationAt(l.allocations, offer.app), VersionFor(p, r, op, offer);
    && Offered(l, p, offer) && Growable(a, offer) && Matching(r, BlockFor(a, offer))
    && (if id in l.versions
        then l.versions[id].app == offer.app && l.versions[id].contentBytes == r.bytes
          && l.versions[id].state == Retained
        else Spacious(a, offer, F.Allowance(r.manifest, BlockFor(a, offer)).usage))
  }

  /** The pool is passed over: it is not on offer, or has no room for one more version. */
  ghost predicate Passes(l: Ledger, p: Project, r: Reservation, op: string, offer: Offer) {
    var a := AllocationAt(l.allocations, offer.app);
    Offered(l, p, offer) ==>
      && Growable(a, offer) && Matching(r, BlockFor(a, offer)) && VersionFor(p, r, op, offer) !in l.versions
      && !Spacious(a, offer, F.Allowance(r.manifest, BlockFor(a, offer)).usage)
  }

  /** What a consistent pool is like. */
  predicate Healthy(a: Allocation) {
    && a.bytes >= 0 && a.inodes >= 0
    && (a.schema == 2 ==> a.fence == MEASURED_FENCE && 1 <= a.block <= F.MAX_BLOCK && a.legacyInodes <= a.inodes)
  }

  lemma GrownMeans(a: Allocation, offer: Offer)
    requires Healthy(a) && (Untouched(a) || a.schema == 2) && 1 <= offer.block <= F.MAX_BLOCK
    ensures Opened(a, offer).block >= 1
    ensures Grown(Opened(a, offer), offer.block).Ok? <==> Growable(a, offer)
    ensures Grown(Opened(a, offer), offer.block).Ok? ==>
              var g := Grown(Opened(a, offer), offer.block).value;
              && g.block == BlockFor(a, offer) && g.bytes == HeldBytes(a, offer) && g.inodes == a.inodes
              && g.limitBytes == a.limitBytes && g.limitInodes == a.limitInodes
  {
    if !Untouched(a) && offer.block > a.block {
      var delta := offer.block - a.block;
      if a.inodes > MAX_INT64 / delta { Overflow(a.inodes, delta); }
    }
  }

  lemma Overflow(n: int, delta: int)
    requires delta > 0 && n > MAX_INT64 / delta
    ensures n * delta > MAX_INT64
  {
    var q := MAX_INT64 / delta;
    Quotient(MAX_INT64, delta);
    F.Ordered(q + 1, n, delta);
  }

  lemma Quotient(x: int, d: int)
    requires d > 0
    ensures (x / d + 1) * d > x
  {
    var q, r := x / d, x % d;
    assert x == d * q + r;
  }

  lemma RoomyMeans(g: Allocation, a: Allocation, offer: Offer, usage: F.Usage)
    requires g.bytes == HeldBytes(a, offer) >= 0 && g.inodes == a.inodes >= 0 && g.limitBytes == a.limitBytes
             && g.limitInodes == a.limitInodes && usage.allocatedBytes > 0 && usage.inodes >= 0
    ensures Roomy(g, offer, usage) <==> Spacious(a, offer, usage)
  {}

  lemma HealthyHere(l: Ledger, c: Limits, now: int, app: AppName)
    requires Inv(l, c, now)
    ensures var a := AllocationAt(l.allocations, app); Untouched(a) || a.schema == 2 ==> Healthy(a)
  {
    hide Linked, Serving, Publishing, LiveOk, Queued, ProjectCharges, Quotas, Indexed, Digested, Named, Assigned,
      Identified, Sum, MeasuredOk;
    if app in l.allocations && l.allocations[app].schema == 2 {
      var a := l.allocations[app];
      assert PoolOk(a, app, l.versions) && AllocationOk(a);
      WeightsNonNegative(l, SpaceOf(app, a.block));
      SumNonNegative(l.versions, SpaceOf(app, a.block));
      WeightsNonNegative(l, InodesOf(app));
      SumNonNegative(l.versions, InodesOf(app));
    }
  }

  /** What becomes of one offer. */
  lemma OfferMeans(l: Ledger, c: Limits, now: int, p: Project, r: Reservation, op: string, offer: Offer)
    requires Inv(l, c, now)
    ensures TryOffer(l, p, r, offer, op).Grant? <==> Accepts(l, p, r, op, offer)
    ensures TryOffer(l, p, r, offer, op).Skip? <==> Passes(l, p, r, op, offer)
    ensures TryOffer(l, p, r, offer, op).Grant? ==>
              TryOffer(l, p, r, offer, op).id == VersionFor(p, r, op, offer)
              && TryOffer(l, p, r, offer, op).version.app == offer.app
  {
    hide Inv, Grown, Opened, Growable, Healthy, Roomy, Spacious, F.Allowance, BlockFor, HeldBytes, Charged;
    HealthyHere(l, c, now, offer.app);
    var a := AllocationAt(l.allocations, offer.app);
    if Offered(l, p, offer) {
      OfferedMeans(l, p, offer);
      GrownMeans(a, offer);
      if Grown(Opened(a, offer), offer.block).Ok? {
        var g := Grown(Opened(a, offer), offer.block).value;
        HeldNonNegative(a, offer);
        if Matching(r, g.block) {
          B.UsageBounds(r.manifest, g.block);
          RoomyMeans(g, a, offer, F.Allowance(r.manifest, g.block).usage);
        }
      }
    } else {
      NotOffered(l, p, offer);
    }
  }

  lemma HeldNonNegative(a: Allocation, offer: Offer)
    requires Healthy(a) && (Untouched(a) || a.schema == 2)
    ensures HeldBytes(a, offer) >= 0 && a.inodes >= 0
  {
    if !Untouched(a) && a.block < offer.block { Product(a.inodes, offer.block - a.block); }
  }

  lemma OfferedMeans(l: Ledger, p: Project, offer: Offer)
    requires Offered(l, p, offer) && Healthy(AllocationAt(l.allocations, offer.app))
    ensures var a := AllocationAt(l.allocations, offer.app); var o := Opened(a, offer);
            && (p.storageApp == "" || p.storageApp == offer.app) && 1 <= offer.block <= F.MAX_BLOCK
            && offer.limitBytes > 0
            && !a.closed && o.schema == 2 && o.fence == MEASURED_FENCE && 1 <= o.block <= F.MAX_BLOCK
  {}

  lemma NotOffered(l: Ledger, p: Project, offer: Offer)
    requires !Offered(l, p, offer)
    ensures var a := AllocationAt(l.allocations, offer.app); var o := Opened(a, offer);
            || (p.storageApp != "" && p.storageApp != offer.app) || offer.block < 1 || offer.block > F.MAX_BLOCK
            || offer.limitBytes <= 0 || a.closed || o.schema != 2
  {}

  /** The first pool that is not passed over takes the content. */
  ghost predicate PoolFound(l: Ledger, p: Project, r: Reservation, op: string, offers: seq<Offer>, i: nat)
    requires i < |offers|
  {
    Accepts(l, p, r, op, offers[i]) && forall j :: 0 <= j < i ==> Passes(l, p, r, op, offers[j])
  }

  lemma FoundLater(l: Ledger, p: Project, r: Reservation, op: string, offers: seq<Offer>, m: nat)
    requires 0 < m < |offers| && PoolFound(l, p, r, op, offers, m)
    ensures PoolFound(l, p, r, op, offers[1..], m - 1)
  {
    hide Accepts, Passes;
  }

  lemma {:induction false} AllocateExactly(l: Ledger, c: Limits, now: int, p: Project, r: Reservation, op: string,
                                           offers: seq<Offer>) returns (i: nat)
    requires Inv(l, c, now)
    ensures Allocate(l, p, r, offers, op).Grant? <==> i < |offers|
    ensures i < |offers| ==>
              && PoolFound(l, p, r, op, offers, i)
              && Allocate(l, p, r, offers, op).id == VersionFor(p, r, op, offers[i])
              && Allocate(l, p, r, offers, op).version.app == offers[i].app
    ensures i >= |offers| ==> forall k :: 0 <= k < |offers| ==> !PoolFound(l, p, r, op, offers, k)
  {
    hide Inv, TryOffer, Accepts, Passes;
    if offers == [] { return 0; }
    OfferMeans(l, c, now, p, r, op, offers[0]);
    if TryOffer(l, p, r, offers[0], op).Grant? { return 0; }
    if !TryOffer(l, p, r, offers[0], op).Skip? { return |offers|; }
    var rest := offers[1..];
    assert forall j :: 0 <= j < |rest| ==> rest[j] == offers[j + 1];
    var k := AllocateExactly(l, c, now, p, r, op, rest);
    i := k + 1;
    if k < |rest| {
      forall j | 0 <= j < i
        ensures Passes(l, p, r, op, offers[j])
      {
        if j > 0 { assert Passes(l, p, r, op, rest[j - 1]); }
      }
    } else {
      forall m | 0 <= m < |offers|
        ensures !PoolFound(l, p, r, op, offers, m)
      {
        if m > 0 && PoolFound(l, p, r, op, offers, m) { FoundLater(l, p, r, op, offers, m); }
      }
    }
  }

  /* ---------- The whole reservation ---------- */

  function ChargeFor(bytes: int): int { if bytes < 0x10_0000 then 0x10_0000 else bytes }

  /** Another project shows this content, or waits to. */
  predicate ContentTaken(l: Ledger, now: int, digest: string, id: string) {
    && digest in l.digests && l.digests[digest].projectID != id && l.digests[digest].projectID in l.projects
    && var other := l.projects[l.digests[digest].projectID];
       && !Expired(other, now)
       && ((other.status == Active && other.activeDigest == digest)
           || (other.status != Deleted && other.pendingOperation == l.digests[digest].operationID))
  }

  /** One more charge, and for a new project one more count, is within the owner's limits. */
  predicate WithinQuota(l: Ledger, c: Limits, o: Owner, charge: int, isNew: bool) {
    var q := if o in l.quotas then l.quotas[o] else Quota(0, 0);
    q.charged + charge <= c.Bytes(o) && (isNew ==> q.count < c.Count(o) && q.count < 1000)
  }

  /** The content may be stored again: it was neither removed nor fenced off. */
  predicate NotWithdrawn(l: Ledger, id: VersionId) {
    id !in l.removals && (id.generation == "" ==> (id.project, id.digest) !in l.retirements)
  }

  /** The content is placed in the first pool that is not passed over. */
  ghost predicate Placed(l: Ledger, p: Project, r: Reservation, op: string, offers: seq<Offer>) {
    exists i ::
      0 <= i < |offers| && PoolFound(l, p, r, op, offers, i) && NotWithdrawn(l, VersionFor(p, r, op, offers[i]))
  }

  predicate GoodReservation(r: Reservation) {
    && |r.digest| == 64 && 0 <= r.bytes <= 200 * 0x10_0000
    && (r.projectID == "" ==> r.expectedRevision == 0)
    && (r.projectID != "" ==> r.name == "" && r.expectedRevision >= 1)
  }

  /** Storing a reserved project: an existing one always, a new one while the owner's index has room. */
  lemma ReservedPut(before: Ledger, p: Project, next: Project)
    requires next.id == p.id && next.storageApp != "" && next.owner == p.owner
             && next == p.(storageApp := next.storageApp, chargedBytes := next.chargedBytes,
                           pendingOperation := next.pendingOperation) && next.pendingOperation != ""
    requires p.id in before.projects ==> p == before.projects[p.id] && p.status == Active
    requires p.id !in before.projects ==> p.status == Reserved && p.id !in O.Elements(IndexAt(before.index, p.owner))
    ensures PutProject(before, next).Ok? <==> (p.id in before.projects || |IndexAt(before.index, p.owner)| < 1000)
  {
    hide O.Elements, O.Insert;
  }

  lemma BookedExactly(l: Ledger, c: Limits, now: int, a: Actor, r: Reservation, p: Project, op: OperationId, q: Quota,
                      grant: Offering)
    requires Inv(l, c, now) && grant.Grant? && Granted(l, p, r, op, grant.id, grant.version, grant.allocation)
             && Targeted(l, now, r, p)
    ensures Booked(l, a, r, p, op, now, q, grant).Ok? <==>
            NotWithdrawn(l, grant.id) && (r.projectID == "" ==> |IndexAt(l.index, p.owner)| < 1000)
  {
    hide Inv, Granted, Targeted, PutProject, VersionCharge, QueueKept, Usable;
    TargetHere(l, c, now, r, p);
    UsableMeans(l, a, r, p, op, now, grant);
    GrantedShape(l, p, r, op, grant.id, grant.version, grant.allocation);
    var before := BeforePut(l, r, p, grant.id, grant.version, grant.allocation, q);
    ReservedPut(before, p, Next(p, grant.version.app, VersionCharge(r.bytes), op));
  }

  lemma TargetHere(l: Ledger, c: Limits, now: int, r: Reservation, p: Project)
    requires Inv(l, c, now) && Targeted(l, now, r, p)
    ensures r.projectID == "" <==> p.id !in l.projects
    ensures p.id in l.projects ==> p == l.projects[p.id] && p.status == Active && p.storageApp != ""
    ensures p.id !in l.projects ==> p.status == Reserved && p.id !in O.Elements(IndexAt(l.index, p.owner))
  {
    hide Inv, O.Elements;
    IndexLength(l, c, now, p.owner);
    if p.id in l.projects { PlacedHere(l, c, now, p.id); }
  }

  lemma UsableMeans(l: Ledger, a: Actor, r: Reservation, p: Project, op: OperationId, now: int, grant: Offering)
    requires grant.Grant? && Granted(l, p, r, op, grant.id, grant.version, grant.allocation)
    ensures NotWithdrawn(l, grant.id) <==>
            Usable(Stored(l, r, grant.id, grant.version, grant.allocation),
                   Next(p, grant.version.app, VersionCharge(r.bytes), op),
                   PendingOperation(a, r, p, op, grant.id.generation, now))
  {
    hide VersionCharge, StorageOk, MeasuredOk, LegacyFree;
  }

  lemma DigestMeans(l: Ledger, now: int, a: Actor, digest: string, id: string)
    ensures DigestBlocked(l, now, a, digest, id).None? <==> !ContentTaken(l, now, digest, id)
  {
    hide Actor.Owns;
  }

  lemma QuotaMeans(l: Ledger, c: Limits, now: int, p: Project, isNew: bool, bytes: int)
    requires Inv(l, c, now) && (isNew <==> p.id !in l.projects)
             && (!isNew ==> p == l.projects[p.id] && p.status == Active)
    ensures var charge := ChargeFor(bytes);
            QuotaAfter(l.quotas, c, p, isNew, charge).Ok? && (isNew ==> |IndexAt(l.index, p.owner)| < 1000) <==>
            WithinQuota(l, c, p.owner, charge, isNew)
  {
    hide Inv, Limits.Bytes, Limits.Count;
    IndexLength(l, c, now, p.owner);
    if !isNew { ChargedHere(l, c, now, p); }
  }

  /** The project that a reservation is for, if the caller may have it. */
  ghost predicate TargetGiven(l: Ledger, now: int, a: Actor, r: Reservation, op: OperationId) {
    if r.projectID == "" then
      && op[..32] !in l.projects
      && NameFound(l, if r.name == "" then DefaultName(op) else r.name, r.digest, op[..32], [0, 6, 10, 16, 32, 64])
    else r.projectID in l.projects && Current(l.projects[r.projectID], now, a, r.expectedRevision)
  }

  lemma TargetExactly(l: Ledger, c: Limits, now: int, a: Actor, r: Reservation, op: OperationId)
    requires Inv(l, c, now) && GoodReservation(r)
    ensures Target(l, now, a, r, op).Ok? <==> TargetGiven(l, now, a, r, op)
  {
    hide Inv, ChooseSlug, NameFound, Controls, Actor.Owns, DefaultName;
    if r.projectID == "" {
      InvIdentified(l, c, now);
      forall s | s in l.slugs
        ensures l.slugs[s] in l.projects
      {
        SlugsKnown(l, c, now, s);
      }
      assert |op[..32]| == 32;
      NameExactly(l, if r.name == "" then DefaultName(op) else r.name, r.digest, op[..32], SUFFIX_LENGTHS);
    } else if r.projectID in l.projects {
      OwnsMeans(a, l.projects[r.projectID].owner);
    }
  }

  /** The project as the reservation finds it, or as it would be created. */
  ghost function TargetOf(l: Ledger, now: int, a: Actor, r: Reservation, op: OperationId): Project
    requires Target(l, now, a, r, op).Ok?
  {
    Target(l, now, a, r, op).value
  }

  /**
   A new reservation is granted if and only if it is well formed, its project is the caller's current one or a new one
   that finds a name, nobody else shows or waits for the content, the owner's quota has room, and the content is placed.
   */
  lemma ReserveExactly(l: Ledger, c: Limits, now: int, a: Actor, r: Reservation, offers: seq<Offer>, op: OperationId)
    requires Inv(l, c, now) && op !in l.operations
    ensures Reserve(l, c, now, a, r, offers, op).Ok? <==>
              && GoodReservation(r) && TargetGiven(l, now, a, r, op)
              && Target(l, now, a, r, op).Ok?
              && var p := TargetOf(l, now, a, r, op);
                 && !ContentTaken(l, now, r.digest, p.id)
                 && WithinQuota(l, c, p.owner, ChargeFor(r.bytes), r.projectID == "")
                 && Placed(l, p, r, op, offers)
    ensures Reserve(l, c, now, a, r, offers, op).Ok? ==>
              var p := TargetOf(l, now, a, r, op);
              if r.projectID == "" then p.id == op[..32] && p.owner == Caller(a) else p == l.projects[r.projectID]
  {
    hide Inv, Target, TargetGiven, DigestBlocked, ContentTaken, QuotaAfter, WithinQuota, Allocate, Booked, PoolFound,
      NotWithdrawn, Targeted, Granted, Current;
    assert ValidReservation(r) <==> GoodReservation(r);
    assert VersionCharge(r.bytes) == ChargeFor(r.bytes);
    if GoodReservation(r) {
      TargetExactly(l, c, now, a, r, op);
      if Target(l, now, a, r, op).Ok? {
        var p := Target(l, now, a, r, op).value;
        InvIdentified(l, c, now);
        TargetMeans(l, now, a, r, op, p);
        TargetedHere(l, c, now, a, r, op);
        TargetHere(l, c, now, r, p);
        DigestMeans(l, now, a, r.digest, p.id);
        QuotaMeans(l, c, now, p, r.projectID == "", r.bytes);
        var i := AllocateExactly(l, c, now, p, r, op, offers);
        FirstPool(l, p, r, op, offers, i);
        if i < |offers| && QuotaAfter(l.quotas, c, p, r.projectID == "", ChargeFor(r.bytes)).Ok? {
          ReserveFacts(l, c, now, a, r, offers, op, p);
          BookedExactly(l, c, now, a, r, p, op, QuotaAfter(l.quotas, c, p, r.projectID == "", ChargeFor(r.bytes)).value,
                        Allocate(l, p, r, offers, op));
        }
      }
    }
  }

  lemma TargetedHere(l: Ledger, c: Limits, now: int, a: Actor, r: Reservation, op: OperationId)
    requires Inv(l, c, now) && Target(l, now, a, r, op).Ok?
    ensures Targeted(l, now, r, Target(l, now, a, r, op).value)
  {
    hide Linked, Serving, Publishing, VersionsOk, BlocksOk, Pools, LiveOk, Queued, ProjectCharges, Quotas, Indexed,
      Digested, AllocationsOk, Assigned, Target, Targeted, Named;
    TargetFacts(l, c, now, a, r, op);
  }

  /** Only one pool can be the first that is not passed over. */
  lemma FirstPool(l: Ledger, p: Project, r: Reservation, op: string, offers: seq<Offer>, i: nat)
    requires i < |offers| ==> PoolFound(l, p, r, op, offers, i)
    requires i >= |offers| ==> forall k :: 0 <= k < |offers| ==> !PoolFound(l, p, r, op, offers, k)
    ensures Placed(l, p, r, op, offers) <==> i < |offers| && NotWithdrawn(l, VersionFor(p, r, op, offers[i]))
  {
    hide NotWithdrawn, Accepts, Passes;
    forall k | 0 <= k < |offers| && PoolFound(l, p, r, op, offers, k)
      ensures k == i
    {
      NotBoth(l, p, r, op, offers[k]);
      if i < |offers| { NotBoth(l, p, r, op, offers[i]); }
    }
  }

  lemma NotBoth(l: Ledger, p: Project, r: Reservation, op: string, offer: Offer)
    ensures !(Accepts(l, p, r, op, offer) && Passes(l, p, r, op, offer))
  {
    hide Growable, Spacious, F.Allowance;
  }

  /**
   A repeated request is answered again exactly if it is the same request of the same caller, was not aborted, its time
   is not up before it was published, and its content can still be shown; the answer changes nothing.
   */
  lemma RetryExactly(l: Ledger, c: Limits, now: int, a: Actor, r: Reservation, offers: seq<Offer>, op: OperationId)
    requires Inv(l, c, now) && op in l.operations && GoodReservation(r)
    ensures l.operations[op].projectID in l.projects
    ensures Reserve(l, c, now, a, r, offers, op) == Ok(l) <==>
              var o := l.operations[op]; var p := l.projects[o.projectID];
              var id := VersionId(o.projectID, o.digest, o.storageGeneration);
              && o.fingerprint == r.fingerprint && o.owner == Caller(a) && Controls(a, p.owner)
              && (o.state == Complete || (o.state == Pending && now < o.expiresAt))
              && p.status != Deleted && !Expired(p, now)
              && NotWithdrawn(l, id) && id in l.versions && l.versions[id].state == Retained
    ensures Reserve(l, c, now, a, r, offers, op).Ok? ==> Reserve(l, c, now, a, r, offers, op) == Ok(l)
  {
    hide Inv, Controls, Actor.Owns, Actor.Identity, Caller, Usable;
    RetryFacts(l, c, now, op);
    OwnsMeans(a, l.projects[l.operations[op].projectID].owner);
  }

  lemma RetryFacts(l: Ledger, c: Limits, now: int, op: OperationId)
    requires Inv(l, c, now) && op in l.operations
    ensures l.operations[op].projectID in l.projects
    ensures var o := l.operations[op]; var id := VersionId(o.projectID, o.digest, o.storageGeneration);
            Usable(l, l.projects[o.projectID], o) <==>
            NotWithdrawn(l, id) && id in l.versions && l.versions[id].state == Retained
  {
    hide Linked, Serving, BlocksOk, Pools, LiveOk, Queued, ProjectCharges, Quotas, Indexed, Digested, Named,
      AllocationsOk, Assigned, MeasuredOk;
    assert PublishOk(l.operations[op], l.versions, l.removals);
  }
}
