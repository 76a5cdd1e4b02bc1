/**
 The project ledger: projects, publication operations, names, content digests,
 quotas, owner indexes, storage pools and stored versions, and the transactions
 that change them. Each transaction is one atomic step.
 */
module LedgerRules {
  import opened Projects
  import opened Wrappers
  import F = Footprint
  import O = Ordering

  /* ---------- Records ---------- */

  type AppName = s: string | s != "" witness "app"

  /** A SHA-256 digest in hexadecimal, as every idempotency key is turned into. */
  type OperationId = s: string | |s| == 64 witness seq(64, i => '0')

  const MAX_INT64: nat := 0x7fff_ffff_ffff_ffff
  const MEBIBYTE: nat := 0x10_0000
  const RESERVATION_LIFETIME: int := 15 * 60
  const ANONYMOUS_LIFETIME: int := 7 * 24 * 3600
  const MAX_INDEX: nat := 1000
  const MAX_ALIASES: nat := 100
  const MEASURED_FENCE: int := -2

  datatype Failure = NotFound | Conflict | Forbidden | QuotaExceeded | Malformed | StorageUnavailable
    | Duplicate(slug: string)

  datatype Result<+T> = Ok(value: T) | Err(failure: Failure)

  datatype Quota = Quota(count: int, charged: int)

  /** Who holds a content digest; the operation is empty once the content is published. */
  datatype DigestRecord = DigestRecord(projectID: string, operationID: string)

  datatype Transfer = Transfer(owner: Owner, digest: string, expiresAt: int)

  /** Hash identities are injective, so a version is named by what is hashed. */
  datatype VersionId = VersionId(project: string, digest: string, generation: string)

  datatype VersionState = Retained | Retiring | Reclaimed

  datatype Version = Version(
    app: AppName,
    contentBytes: int,
    bytes: int,
    quotaBytes: int,
    block: int,
    inodes: int,
    unverified: bool,
    legacyOperations: int,
    projectDeleted: bool,
    state: VersionState,
    epoch: string,
    members: seq<string>,
    acknowledged: set<string>)

  datatype Allocation = Allocation(
    schema: int,
    fence: int,
    block: int,
    bytes: int,
    inodes: int,
    contentBytes: int,
    liveBytes: int,
    versions: int,
    legacyBytes: int,
    legacyInodes: int,
    limitBytes: int,
    limitInodes: int,
    closed: bool)

  const NO_ALLOCATION: Allocation := Allocation(0, 0, 0, 0, 0, 0, 0, 0, 0, 0, 0, 0, false)

  datatype Offer = Offer(
    app: AppName,
    limitBytes: int,
    availableBytes: int,
    block: int,
    limitInodes: int,
    availableInodes: int,
    tracksInodes: bool,
    generations: bool)

  datatype Reservation = Reservation(
    projectID: string,
    name: string,
    digest: string,
    bytes: int,
    expectedRevision: int,
    files: int,
    manifest: F.Manifest,
    fingerprint: string)

  datatype Limits = Limits(anonymousCount: int, accountCount: int, anonymousBytes: int, accountBytes: int) {
    function Count(o: Owner): (n: int)
      ensures n > 0
    {
      if o.kind == Anonymous then (if anonymousCount > 0 then anonymousCount else 10)
      else if accountCount > 0 then accountCount else 100
    }

    function Bytes(o: Owner): (n: int)
      ensures n > 0
    {
      if o.kind == Anonymous then (if anonymousBytes > 0 then anonymousBytes else 0x4000_0000)
      else if accountBytes > 0 then accountBytes else 10 * 0x4000_0000
    }
  }

  /**
   The stored records. `names` and `measured` are history: every name a project ever took, and the
   manifest each version was measured from.
   */
  datatype Ledger = Ledger(
    projects: map<string, Project>,
    operations: map<string, Operation>,
    slugs: map<string, string>,
    digests: map<string, DigestRecord>,
    quotas: map<Owner, Quota>,
    index: map<Owner, seq<string>>,
    allocations: map<AppName, Allocation>,
    versions: map<VersionId, Version>,
    queue: set<(AppName, VersionId)>,
    removals: set<VersionId>,
    retirements: set<(string, string)>,
    transfers: map<string, Transfer>,
    names: map<string, set<string>>,
    measured: map<VersionId, F.Manifest>)

  const EMPTY: Ledger := Ledger(map[], map[], map[], map[], map[], map[], map[], map[], {}, {}, {}, map[], map[], map[])

  function VersionOfOperation(op: Operation): VersionId { VersionId(op.projectID, op.digest, op.storageGeneration) }

  function CurrentVersion(p: Project): VersionId { VersionId(p.id, p.activeDigest, p.storageGeneration) }

  function QuotaAt(quotas: map<Owner, Quota>, o: Owner): Quota { if o in quotas then quotas[o] else Quota(0, 0) }

  function AllocationAt(allocations: map<AppName, Allocation>, app: AppName): Allocation {
    if app in allocations then allocations[app] else NO_ALLOCATION
  }

  function IndexAt(index: map<Owner, seq<string>>, o: Owner): seq<string> { if o in index then index[o] else [] }

  function NamesAt(names: map<string, set<string>>, id: string): set<string> { if id in names then names[id] else {} }

  /** Reads a quota and refuses a damaged one. */
  function ReadQuota(quotas: map<Owner, Quota>, o: Owner): Result<Quota> {
    if o !in quotas then Err(NotFound)
    else if quotas[o].count < 0 || quotas[o].charged < 0 then Err(Conflict)
    else Ok(quotas[o])
  }

  /** Very small versions are charged as one mebibyte. */
  function VersionCharge(bytes: int): int { if bytes < MEBIBYTE then MEBIBYTE else bytes }

  predicate FitsBytes(current: int, extra: int, limit: int) {
    current >= 0 && extra > 0 && current <= limit && extra <= limit - current
  }

  /* ---------- Storing a project keeps the derived records ---------- */

  /** The owner index after a project changes from `prior` to `next`. */
  function IndexAfter(index: map<Owner, seq<string>>, prior: PriorProject,
                      next: Project): Result<map<Owner, seq<string>>> {
    var removed :=
      if prior.Present? && prior.project.status != Deleted
        && (prior.project.owner != next.owner || next.status == Deleted)
      then index[prior.project.owner := O.Remove(IndexAt(index, prior.project.owner), next.id)]
      else index;
    if next.status != Deleted
      && (prior.Absent? || prior.project.owner != next.owner || prior.project.status == Deleted) then
      var ids := IndexAt(removed, next.owner);
      if next.id !in O.Elements(ids) && |ids| >= MAX_INDEX then Err(QuotaExceeded)
      else Ok(removed[next.owner := O.Insert(ids, next.id)])
    else Ok(removed)
  }

  function LiveBytesOf(p: Project): int { if p.status == Active then p.activeBytes else 0 }

  function PriorLive(prior: PriorProject): int { if prior.Present? then LiveBytesOf(prior.project) else 0 }

  predicate SameServing(a: Project, b: Project) {
    a.status == b.status && a.activeDigest == b.activeDigest && a.storageGeneration == b.storageGeneration
      && a.pendingOperation == b.pendingOperation
  }

  /** Obsolete versions join the maintenance queue, and the version being served leaves it. */
  function QueueAfter(queue: set<(AppName, VersionId)>, versions: map<VersionId, Version>, prior: PriorProject,
                      next: Project)
    : Result<set<(AppName, VersionId)>>
  {
    if next.storageApp == "" || (prior.Present? && SameServing(prior.project, next)) then Ok(queue)
    else
      var abandoned := prior.Present? && prior.project.activeDigest != "" &&
                       (next.status == Deleted || prior.project.activeDigest != next.activeDigest
                        || prior.project.storageGeneration != next.storageGeneration);
      if abandoned && CurrentVersion(prior.project) in versions
        && versions[CurrentVersion(prior.project)].app != next.storageApp then Err(StorageUnavailable)
      else
        var grown :=
          if abandoned && CurrentVersion(prior.project) in versions
            && versions[CurrentVersion(prior.project)].state != Reclaimed
          then queue + {(next.storageApp, CurrentVersion(prior.project))} else queue;
        Ok(if next.status == Active && next.pendingOperation == "" && next.activeDigest != ""
           then grown - {(next.storageApp, CurrentVersion(next))} else grown)
  }

  /** The pool's count of live bytes follows what its active projects serve. */
  function LiveAfter(allocations: map<AppName, Allocation>, prior: PriorProject,
                     next: Project): Result<map<AppName, Allocation>> {
    if next.storageApp == "" || PriorLive(prior) == LiveBytesOf(next) then Ok(allocations)
    else if next.storageApp !in allocations then Err(NotFound)
    else
      var a := allocations[next.storageApp];
      var value := a.liveBytes + LiveBytesOf(next) - PriorLive(prior);
      if a.schema != 2 then Ok(allocations)
      else if value < 0 || value > a.contentBytes then Err(StorageUnavailable)
      else Ok(allocations[next.storageApp := a.(liveBytes := value)])
  }

  function Prior(projects: map<string, Project>, id: string): PriorProject {
    if id in projects then Present(projects[id]) else Absent
  }

  /** No pool holds a reserve for content from before measuring. */
  ghost predicate LegacyFree(allocations: map<AppName, Allocation>) {
    forall app :: app in allocations ==> allocations[app].legacyBytes == 0 && allocations[app].legacyInodes == 0
  }

  /** Storing a project takes from the queue at most versions of that project, and only while it is idle. */
  ghost predicate QueueKept(queue: set<(AppName, VersionId)>, after: set<(AppName, VersionId)>, next: Project) {
    forall x :: x in queue && x !in after ==> x.1.project == next.id && next.pendingOperation == ""
  }

  /** Writes a project together with every record derived from it. */
  function PutProject(l: Ledger, next: Project): (r: Result<Ledger>)
    ensures r.Ok? && LegacyFree(l.allocations) ==> LegacyFree(r.value.allocations)
    ensures r.Ok? ==> QueueKept(l.queue, r.value.queue, next)
    ensures r.Ok? ==>
            r.value == l.(index := r.value.index, queue := r.value.queue, allocations := r.value.allocations,
                          projects := l.projects[next.id := next])
  {
    var prior := Prior(l.projects, next.id);
    match IndexAfter(l.index, prior, next)
    case Err(e) => Err(e)
    case Ok(index) =>
      match QueueAfter(l.queue, l.versions, prior, next)
      case Err(e) => Err(e)
      case Ok(queue) =>
        match LiveAfter(l.allocations, prior, next)
        case Err(e) => Err(e)
        case Ok(allocations) =>
          Ok(l.(index := index, queue := queue, allocations := allocations, projects := l.projects[next.id := next]))
  }

  /* ---------- Names ---------- */

  /** A slug record counts only while its project is not deleted; a dangling one fails closed. */
  function SlugOwner(l: Ledger, slug: string): Result<string> {
    if slug !in l.slugs then Ok("")
    else if l.slugs[slug] !in l.projects then Err(NotFound)
    else if l.projects[l.slugs[slug]].status == Deleted then Ok("")
    else Ok(l.slugs[slug])
  }

  predicate SlugChar(c: char) { 'a' <= c <= 'z' || '0' <= c <= '9' }

  predicate ValidSlug(s: string) {
    && 1 <= |s| <= 113
    && SlugChar(s[0]) && SlugChar(s[|s| - 1])
    && (forall i :: 0 <= i < |s| ==> SlugChar(s[i]) || s[i] == '-')
  }

  const RESERVED_SLUGS: set<string> := {"api", "admin", "agents", "agent", "oauth", "unlock", "healthz", "readyz"}

  const SUFFIX_LENGTHS: seq<nat> := [0, 6, 10, 16, 32, 64]

  datatype SlugChoice = SlugChoice(slug: string, suffix: string)

  function Candidate(name: string, seed: string, length: nat): SlugChoice
    requires length <= |seed|
  {
    if length == 0 then SlugChoice(name, "") else SlugChoice(name + "-" + seed[..length], seed[..length])
  }

  /** The first candidate that is free or already belongs to the project. */
  function ChooseSlug(l: Ledger, name: string, seed: string, id: string, lengths: seq<nat>): Result<SlugChoice> {
    if lengths == [] then Err(Conflict)
    else if |seed| < lengths[0] then ChooseSlug(l, name, seed, id, lengths[1..])
    else
      var choice := Candidate(name, seed, lengths[0]);
      if !ValidSlug(choice.slug) then Err(Malformed)
      else if choice.slug in RESERVED_SLUGS then ChooseSlug(l, name, seed, id, lengths[1..])
      else
        match SlugOwner(l, choice.slug)
        case Err(e) => Err(e)
        case Ok(owner) => if owner == "" || owner == id then Ok(choice) else ChooseSlug(l, name, seed, id, lengths[1..])
  }

  /* ---------- Storage ---------- */

  function Opened(a: Allocation, offer: Offer): Allocation {
    if a.schema == 0 && a.bytes == 0 && a.inodes == 0
      then a.(schema := 2, fence := MEASURED_FENCE, block := offer.block) else a
  }

  /** Moves a pool to a larger accounting block by a surcharge on every inode. */
  function Grown(a: Allocation, block: int): Result<Allocation>
    requires a.block >= 1
  {
    if block <= a.block then Ok(a)
    else if block % a.block != 0 then Err(StorageUnavailable)
    else
      var delta := block - a.block;
      if a.inodes > MAX_INT64 / delta || a.bytes < 0 || a.inodes * delta > MAX_INT64 - a.bytes
        || a.legacyInodes > a.inodes then Err(StorageUnavailable)
      else Ok(a.(bytes := a.bytes + a.inodes * delta, legacyBytes := a.legacyBytes + a.legacyInodes * delta,
                 block := block))
  }

  function Tighter(own: int, offered: int): int { if own > 0 && own < offered then own else offered }

  datatype Offering = Skip | Refuse(failure: Failure) | Grant(id: VersionId, version: Version, allocation: Allocation)

  function FreshVersion(app: AppName, usage: F.Usage, block: int): Version {
    Version(app, usage.contentBytes, usage.allocatedBytes, 0, block, usage.inodes, false, 0, false, Retained, "", [],
            {})
  }

  predicate Roomy(a: Allocation, offer: Offer, usage: F.Usage) {
    var limitBytes, limitInodes := Tighter(a.limitBytes, offer.limitBytes), Tighter(a.limitInodes, offer.limitInodes);
    && !(usage.allocatedBytes <= 0 || a.bytes < 0 || a.bytes > limitBytes || usage.allocatedBytes > limitBytes - a.bytes
         || offer.availableBytes < usage.allocatedBytes * 2)
    && !(offer.tracksInodes && (a.inodes > limitInodes || usage.inodes > limitInodes - a.inodes
                                || offer.availableInodes < usage.inodes * 2))
  }

  function Charged(a: Allocation, offer: Offer, usage: F.Usage, isFresh: bool): Allocation {
    var limited :=
      a.(limitBytes := Tighter(a.limitBytes, offer.limitBytes),
         limitInodes := Tighter(a.limitInodes, offer.limitInodes));
    if isFresh then limited.(bytes := a.bytes + usage.allocatedBytes, inodes := a.inodes + usage.inodes,
                             contentBytes := a.contentBytes + usage.contentBytes, versions := a.versions + 1)
    else limited
  }

  /** The part of an offer that is examined once the pool's accounting block is settled. */
  function Place(l: Ledger, p: Project, r: Reservation, offer: Offer, opID: string, a: Allocation,
                 measured: F.Measurement): Offering {
    if !measured.Measured? || measured.usage.contentBytes != r.bytes || |r.manifest.files| != r.files
      then Refuse(Malformed)
    else
      var id := VersionId(p.id, r.digest, if offer.generations then opID else "");
      if id in l.versions && (l.versions[id].app != offer.app || l.versions[id].contentBytes != r.bytes
                              || l.versions[id].state != Retained) then Refuse(Conflict)
      else if id !in l.versions && !Roomy(a, offer, measured.usage) then Skip
      else
        var v := if id in l.versions then l.versions[id] else FreshVersion(offer.app, measured.usage, a.block);
        Grant(id, v.(quotaBytes := v.quotaBytes + VersionCharge(r.bytes)),
              Charged(a, offer, measured.usage, id !in l.versions))
  }

  ghost function TryOffer(l: Ledger, p: Project, r: Reservation, offer: Offer, opID: string): Offering {
    if (p.storageApp != "" && p.storageApp != offer.app) || offer.block < 1 || offer.block > F.MAX_BLOCK
      || offer.limitBytes <= 0 then Skip
    else if AllocationAt(l.allocations, offer.app).closed then Skip
    else
      var a := Opened(AllocationAt(l.allocations, offer.app), offer);
      if a.schema != 2 || a.fence != MEASURED_FENCE || a.block < 1 || a.block > F.MAX_BLOCK then Skip
      else
        match Grown(a, offer.block)
        case Err(e) => Refuse(e)
        case Ok(grown) => Place(l, p, r, offer, opID, grown, F.Allowance(r.manifest, grown.block))
  }

  /** The first offer that is not skipped decides. */
  ghost function Allocate(l: Ledger, p: Project, r: Reservation, offers: seq<Offer>, opID: string): Offering {
    if offers == [] then Refuse(StorageUnavailable)
    else if TryOffer(l, p, r, offers[0], opID).Skip? then Allocate(l, p, r, offers[1..], opID)
    else TryOffer(l, p, r, offers[0], opID)
  }

  /** The records after a grant; the manifest of a version that existed before is not measured again. */
  function Stored(l: Ledger, r: Reservation, id: VersionId, v: Version, a: Allocation): Ledger {
    l.(versions := l.versions[id := v], allocations := l.allocations[v.app := a], queue := l.queue + {(v.app, id)},
       measured := if id in l.versions then l.measured else l.measured[id := r.manifest])
  }

  /** The content of an operation may still be published. */
  predicate Usable(l: Ledger, p: Project, op: Operation) {
    var id := VersionOfOperation(op);
    && id !in l.removals
    && (if op.storageGeneration == "" then (p.id, op.digest) !in l.retirements else op.storageGeneration == op.id)
    && id in l.versions && l.versions[id].app == p.storageApp && id.project == p.id && l.versions[id].state == Retained
  }

  /* ---------- Reserve ---------- */

  predicate ValidReservation(r: Reservation) {
    && |r.digest| == 64 && 0 <= r.bytes <= F.MAX_CONTENT
    && (if r.projectID == "" then r.expectedRevision == 0 else r.expectedRevision >= 1 && r.name == "")
  }

  const ADJECTIVES: seq<string> := ["quiet", "bright", "gentle", "bold"]
  const NOUNS: seq<string> := ["pine", "river", "cloud", "meadow"]

  function DefaultName(opID: OperationId): string {
    ADJECTIVES[opID[0] as int % 4] + "-" + NOUNS[opID[1] as int % 4] + "-" + opID[2..6]
  }

  function NewProject(owner: Owner, opID: OperationId, choice: SlugChoice, now: int): Project {
    Project(opID[..32], "", "", owner, choice.slug, "", 0, choice.suffix, "", 0, 0, 0, 1, false, false, "", 0, Reserved,
            "", now, 0,
            if owner.kind == Anonymous then At(now + ANONYMOUS_LIFETIME) else Never)
  }

  /** The project a reservation is for: a new one with a free name, or the caller's own idle one. */
  function Target(l: Ledger, now: int, a: Actor, r: Reservation, opID: OperationId): Result<Project> {
    if r.projectID == "" then
      if opID[..32] in l.projects then Err(Conflict)
      else
        match ChooseSlug(l, if r.name == "" then DefaultName(opID) else r.name, r.digest, opID[..32], SUFFIX_LENGTHS)
        case Err(e) => Err(e)
        case Ok(choice) => Ok(NewProject(a.Identity(), opID, choice, now))
    else if r.projectID !in l.projects then Err(NotFound)
    else
      var p := l.projects[r.projectID];
      if !a.Owns(p.owner) || !p.Live(now) then Err(NotFound)
      else if p.revision != r.expectedRevision || p.pendingOperation != "" then Err(Conflict)
      else Ok(p)
  }

  /** Another project that serves this content, or holds a reservation for it, blocks the digest. */
  function DigestBlocked(l: Ledger, now: int, a: Actor, digest: string, id: string): Option<Failure> {
    if digest !in l.digests || l.digests[digest].projectID == id || l.digests[digest].projectID !in l.projects then None
    else
      var record, other := l.digests[digest], l.projects[l.digests[digest].projectID];
      if other.Live(now) && other.activeDigest == digest then
        Some(if !other.isPrivate || a.Owns(other.owner) then Duplicate(other.slug) else Conflict)
      else if other.status != Deleted && other.pendingOperation == record.operationID && other.Unexpired(now)
        then Some(Conflict)
      else None
  }

  /** The quota with one more charged version, or why it does not fit. */
  function QuotaAfter(quotas: map<Owner, Quota>, c: Limits, p: Project, isNew: bool, charge: int): Result<Quota> {
    if p.owner in quotas && ReadQuota(quotas, p.owner).Err? then Err(Conflict)
    else
      var q := QuotaAt(quotas, p.owner);
      if isNew && q.count >= c.Count(p.owner) then Err(QuotaExceeded)
      else if !isNew && (p.chargedBytes <= 0 || p.chargedBytes > q.charged) then Err(Conflict)
      else if !FitsBytes(q.charged, charge, c.Bytes(p.owner)) then Err(QuotaExceeded)
      else Ok(Quota(if isNew then q.count + 1 else q.count, q.charged + charge))
  }

  function PendingOperation(a: Actor, r: Reservation, p: Project, opID: OperationId, generation: string,
                            now: int): Operation {
    Operation(opID, r.fingerprint, a.Identity(), p.id, r.digest, r.bytes, p.revision, r.projectID == "", Pending,
              now + RESERVATION_LIFETIME, 0, generation)
  }

  /** A retried request repeats the answer of the first one and changes nothing. */
  function Retried(l: Ledger, now: int, a: Actor, r: Reservation, opID: OperationId): Result<Ledger>
    requires opID in l.operations
  {
    var op := l.operations[opID];
    if op.fingerprint != r.fingerprint || op.owner != a.Identity() || op.state == Aborted then Err(Conflict)
    else if op.projectID !in l.projects then Err(NotFound)
    else
      var p := l.projects[op.projectID];
      if !a.Owns(p.owner) || p.status == Deleted || !p.Unexpired(now) then Err(NotFound)
      else if op.state != Complete && now >= op.expiresAt then Err(Conflict)
      else if !Usable(l, p, op) then Err(Conflict)
      else Ok(l)
  }

  function Next(p: Project, app: AppName, charge: int, opID: string): Project {
    p.(storageApp := app, chargedBytes := p.chargedBytes + charge, pendingOperation := opID)
  }

  /** The ledger just before the reserved project is stored. */
  function BeforePut(l: Ledger, r: Reservation, p: Project, id: VersionId, v: Version, a: Allocation,
                     q: Quota): Ledger {
    Stored(l, r, id, v, a).(
      slugs := if r.projectID == "" then l.slugs[p.slug := p.id] else l.slugs,
      names := if r.projectID == "" then l.names[p.id := {p.slug}] else l.names,
      quotas := l.quotas[p.owner := q])
  }

  /** Writes a granted reservation. */
  function Booked(l: Ledger, a: Actor, r: Reservation, p: Project, opID: OperationId, now: int, q: Quota,
                  grant: Offering): Result<Ledger>
    requires grant.Grant?
  {
    var next := Next(p, grant.version.app, VersionCharge(r.bytes), opID);
    var op := PendingOperation(a, r, p, opID, grant.id.generation, now);
    if !Usable(Stored(l, r, grant.id, grant.version, grant.allocation), next, op) then Err(Conflict)
    else
      match PutProject(BeforePut(l, r, p, grant.id, grant.version, grant.allocation, q), next)
      case Err(e) => Err(e)
      case Ok(put) =>
        Ok(put.(operations := put.operations[opID := op], digests := put.digests[r.digest := DigestRecord(p.id, opID)]))
  }

  ghost function Reserve(l: Ledger, c: Limits, now: int, a: Actor, r: Reservation, offers: seq<Offer>,
                         opID: OperationId): Result<Ledger> {
    if !ValidReservation(r) then Err(Malformed)
    else if opID in l.operations then Retried(l, now, a, r, opID)
    else
      match Target(l, now, a, r, opID)
      case Err(e) => Err(e)
      case Ok(p) =>
        if DigestBlocked(l, now, a, r.digest, p.id).Some? then Err(DigestBlocked(l, now, a, r.digest, p.id).value)
        else
          match QuotaAfter(l.quotas, c, p, r.projectID == "", VersionCharge(r.bytes))
          case Err(e) => Err(e)
          case Ok(q) =>
            match Allocate(l, p, r, offers, opID)
            case Refuse(e) => Err(e)
            case Skip => Err(StorageUnavailable)
            case Grant(id, v, alloc) => Booked(l, a, r, p, opID, now, q, Grant(id, v, alloc))
  }

  /* ---------- Activate and abort ---------- */

  datatype Password = Open | Protected(digest: string, revision: int)

  function Activated(p: Project, op: Operation, password: Password, now: int): Project {
    var served := p.(activeDigest := op.digest, activeBytes := op.bytes, status := Active, pendingOperation := "",
                     storageGeneration := op.storageGeneration, revision := p.revision + 1, updatedAt := now);
    var guarded := match password
      case Open => served
      case Protected(digest, revision) =>
        served.(isPrivate := true, passwordDigest := digest, passwordRevision := revision,
                policyRevision := p.policyRevision + 1);
    if op.isNew
      then guarded.(createdAt := now,
                    expiresAt := if p.owner.kind == Anonymous then At(now + ANONYMOUS_LIFETIME) else p.expiresAt)
    else guarded
  }

  /** Frees the digest record of `digest` if the project holds it. */
  function Release(digests: map<string, DigestRecord>, digest: string, id: string): map<string, DigestRecord> {
    if digest in digests && digests[digest].projectID == id then digests - {digest} else digests
  }

  /** Makes the content of a pending operation the content that its project serves. */
  function Install(l: Ledger, now: int, p: Project, op: Operation, password: Password): Result<Ledger> {
    var released := if p.activeDigest != "" && p.activeDigest != op.digest then Release(l.digests, p.activeDigest, p.id)
      else l.digests;
    PutProject(l.(operations := l.operations[op.id := op.(state := Complete, publishedAt := now)],
                  digests := released[op.digest := DigestRecord(p.id, "")]), Activated(p, op, password, now))
  }

  function Activate(l: Ledger, now: int, a: Actor, opID: string, password: Password): Result<Ledger> {
    if password.Protected? && password.revision < 2 then Err(Malformed)
    else if opID !in l.operations || l.operations[opID].owner != a.Identity()
      || l.operations[opID].projectID !in l.projects then Err(NotFound)
    else
      var op := l.operations[opID];
      var p := l.projects[op.projectID];
      if !a.Owns(p.owner) || p.status == Deleted || !p.Unexpired(now) then Err(NotFound)
      else if !Usable(l, p, op) then Err(Conflict)
      else if op.state == Complete then (if password.Protected? && !p.isPrivate then Err(Conflict) else Ok(l))
      else if op.state != Pending || now >= op.expiresAt || p.pendingOperation != op.id || p.revision != op.baseRevision
        then Err(Conflict)
      else if password.Protected?
        && (!op.isNew || p.policyRevision == MAX_INT64 || password.revision != p.policyRevision + 1) then Err(Conflict)
      else if op.digest !in l.digests then Err(NotFound)
      else if l.digests[op.digest] != DigestRecord(p.id, op.id) then Err(Conflict)
      else Install(l, now, p, op, password)
  }

  /** An owner aborts a pending operation, or maintenance aborts one that has expired. */
  datatype Aborter = ByOwner(a: Actor) | ByMaintenance

  /** The digest record after an abort: it falls back to the published content, or is freed. */
  function Withdrawn(digests: map<string, DigestRecord>, p: Project, op: Operation): map<string, DigestRecord> {
    if op.digest in digests && digests[op.digest] == DigestRecord(p.id, op.id) then
      if p.activeDigest == op.digest then digests[op.digest := DigestRecord(p.id, "")] else digests - {op.digest}
    else digests
  }

  function Abort(l: Ledger, now: int, who: Aborter, opID: string): Result<Ledger> {
    if opID !in l.operations || (who.ByOwner? && l.operations[opID].owner != who.a.Identity()) then Err(NotFound)
    else
      var op := l.operations[opID];
      if op.state != Pending || (who.ByMaintenance? && now < op.expiresAt) then Ok(l)
      else if op.projectID !in l.projects then Err(NotFound)
      else
        var p := l.projects[op.projectID];
        if (who.ByOwner? && !who.a.Owns(p.owner)) || p.pendingOperation != op.id then Err(Conflict)
        else
          match ReadQuota(l.quotas, p.owner)
          case Err(e) => Err(e)
          case Ok(q) =>
            if op.isNew && q.count <= 0 then Err(Conflict)
            else
              var withdrawn :=
                l.(digests := Withdrawn(l.digests, p, op), operations := l.operations[opID := op.(state := Aborted)]);
              if !op.isNew then PutProject(withdrawn, p.(pendingOperation := ""))
              else PutProject(withdrawn.(quotas := l.quotas[p.owner := q.(count := q.count - 1)],
                                         slugs := l.slugs - {p.slug}),
                              p.(pendingOperation := "", status := Deleted))
  }

  /* ---------- Delete ---------- */

  function Deleting(l: Ledger, p: Project): Result<Ledger> {
    match ReadQuota(l.quotas, p.owner)
    case Err(e) => Err(e)
    case Ok(q) =>
      if q.count <= 0 then Err(Conflict)
      else PutProject(l.(quotas := l.quotas[p.owner := q.(count := q.count - 1)],
                         digests := Release(l.digests, p.activeDigest, p.id)),
                      p.(status := Deleted, revision := p.revision + 1, policyRevision := p.policyRevision + 1))
  }

  function Tombstone(l: Ledger, a: Actor, id: string, revision: int): Result<Ledger> {
    if revision < 1 then Err(Malformed)
    else if id !in l.projects || !a.Owns(l.projects[id].owner) then Err(NotFound)
    else if l.projects[id].status == Deleted then Ok(l)
    else if l.projects[id].revision != revision || l.projects[id].pendingOperation != "" then Err(Conflict)
    else Deleting(l.(transfers := l.transfers - {id}), l.projects[id])
  }

  function Expire(l: Ledger, now: int, id: string): Result<Ledger> {
    if id !in l.projects then Ok(l)
    else
      var p := l.projects[id];
      if p.status != Active || p.owner.kind != Anonymous || p.Unexpired(now) || p.pendingOperation != "" then Ok(l)
      else Deleting(l, p)
  }

  /* ---------- Changes that keep the content ---------- */

  /** The owner's live, idle project at the expected revision. */
  function Editable(l: Ledger, now: int, a: Actor, id: string, revision: int): Result<Project> {
    if revision < 1 then Err(Malformed)
    else if id !in l.projects || !a.Owns(l.projects[id].owner) || !l.projects[id].Live(now) then Err(NotFound)
    else if l.projects[id].revision != revision || l.projects[id].pendingOperation != "" then Err(Conflict)
    else Ok(l.projects[id])
  }

  function SetPrivacy(l: Ledger, now: int, a: Actor, id: string, revision: int, password: Password): Result<Ledger> {
    if password.Protected? && password.revision < 1 then Err(Malformed)
    else
      match Editable(l, now, a, id, revision)
      case Err(e) => Err(e)
      case Ok(p) =>
        if p.policyRevision == MAX_INT64 || (password.Protected? && password.revision != p.policyRevision + 1)
          then Err(Conflict)
        else PutProject(l, p.(isPrivate := password.Protected?,
                              passwordDigest := if password.Protected? then password.digest else "",
                              passwordRevision := if password.Protected? then password.revision else 0,
                              revision := p.revision + 1, policyRevision := p.policyRevision + 1))
  }

  function SetWatermark(l: Ledger, now: int, a: Actor, id: string, revision: int, enabled: bool): Result<Ledger> {
    match Editable(l, now, a, id, revision)
    case Err(e) => Err(e)
    case Ok(p) =>
      if p.revision == MAX_INT64 then Err(Conflict)
      else if p.watermarkDisabled == !enabled then Ok(l)
      else PutProject(l, p.(watermarkDisabled := !enabled, revision := p.revision + 1, updatedAt := now))
  }

  /** The seed of the name suffix; `hashed` is the digest of the project id. */
  function RenameSeed(p: Project, hashed: string): string {
    if p.initialSuffix != "" then p.initialSuffix + hashed else p.activeDigest
  }

  /** The name has no record, or its record is left over from a deleted project. */
  predicate NewAlias(l: Ledger, id: string, slug: string) {
    slug !in l.slugs || (l.slugs[slug] != id && SlugOwner(l, slug) == Ok(""))
  }

  function Renamed(p: Project, choice: SlugChoice, isNew: bool): Project {
    p.(initialSlug := if p.initialSlug == "" then p.slug else p.initialSlug,
       slug := choice.slug, initialSuffix := choice.suffix,
       revision := p.revision + 1, policyRevision := p.policyRevision + 1,
       aliasCount := if isNew then p.aliasCount + 1 else p.aliasCount)
  }

  function WithName(l: Ledger, id: string, slug: string): Ledger {
    l.(slugs := l.slugs[slug := id], names := l.names[id := NamesAt(l.names, id) + {slug}])
  }

  function Rename(l: Ledger, now: int, a: Actor, id: string, name: string, revision: int,
                  hashed: string): Result<Ledger> {
    match Editable(l, now, a, id, revision)
    case Err(e) => Err(e)
    case Ok(p) =>
      match ChooseSlug(l, name, RenameSeed(p, hashed), id, SUFFIX_LENGTHS)
      case Err(e) => Err(e)
      case Ok(choice) =>
        var isNew := NewAlias(l, id, choice.slug);
        if choice.slug == p.slug then Ok(l)
        else if !isNew && l.slugs[choice.slug] != id then Err(Conflict)
        else if isNew && p.aliasCount >= MAX_ALIASES then Err(QuotaExceeded)
        else PutProject(if isNew then WithName(l, id, choice.slug) else l, Renamed(p, choice, isNew))
  }

  /* ---------- Moving a project to an account ---------- */

  function MoveToAccount(l: Ledger, c: Limits, p: Project, uid: string): Result<Ledger> {
    var account := Owner.Owner(Firebase, uid);
    match ReadQuota(l.quotas, p.owner)
    case Err(e) => Err(e)
    case Ok(from) =>
      if account in l.quotas && ReadQuota(l.quotas, account).Err? then Err(Conflict)
      else
        var to := QuotaAt(l.quotas, account);
        if to.count >= c.Count(account) then Err(QuotaExceeded)
        else if from.count < 1 || p.chargedBytes <= 0 || p.chargedBytes > from.charged then Err(Conflict)
        else if !FitsBytes(to.charged, p.chargedBytes, c.Bytes(account)) then Err(QuotaExceeded)
        else
          var quotas := l.quotas[p.owner := Quota(from.count - 1, from.charged - p.chargedBytes)]
                                [account := Quota(to.count + 1, to.charged + p.chargedBytes)];
          PutProject(l.(quotas := quotas, transfers := l.transfers - {p.id}),
                     p.(owner := account, expiresAt := Never, revision := p.revision + 1))
  }

  function Claim(l: Ledger, c: Limits, now: int, a: Actor, id: string, revision: int): Result<Ledger> {
    if a.uid == "" then Err(Forbidden)
    else
      match Editable(l, now, a, id, revision)
      case Err(e) => Err(e)
      case Ok(p) => if p.owner.kind == Firebase then Ok(l) else MoveToAccount(l, c, p, a.uid)
  }

  function CreateTransfer(l: Ledger, now: int, a: Actor, id: string, revision: int, digest: string): Result<Ledger> {
    match Editable(l, now, a, id, revision)
    case Err(e) => Err(e)
    case Ok(p) =>
      if p.owner.kind != Anonymous then Err(NotFound)
      else Ok(l.(transfers := l.transfers[id := Transfer(p.owner, digest, now + 24 * 3600)]))
  }

  function RevokeTransfer(l: Ledger, now: int, a: Actor, id: string, revision: int): Result<Ledger> {
    if revision < 1 then Err(Malformed)
    else if id !in l.projects || !a.Owns(l.projects[id].owner) || l.projects[id].owner.kind != Anonymous
      || !l.projects[id].Live(now) then Err(NotFound)
    else if l.projects[id].revision != revision then Err(Conflict)
    else Ok(l.(transfers := l.transfers - {id}))
  }

  function Redeem(l: Ledger, c: Limits, now: int, a: Actor, id: string, digest: string): Result<Ledger> {
    if a.uid == "" then Err(Forbidden)
    else if id !in l.transfers || id !in l.projects then Err(NotFound)
    else
      var t, p := l.transfers[id], l.projects[id];
      if t.digest != digest || now >= t.expiresAt then Err(NotFound)
      else if !p.Live(now) || p.owner != t.owner || p.owner.kind != Anonymous || p.pendingOperation != ""
        then Err(NotFound)
      else MoveToAccount(l, c, p, a.uid)
  }

  /* ---------- Revisions ---------- */

  /** A completed publication of the project whose content is still there. */
  function AvailableRevision(l: Ledger, p: Project, opID: string): Result<Operation> {
    if opID !in l.operations then Err(NotFound)
    else
      var op := l.operations[opID];
      var id := VersionOfOperation(op);
      if op.id != opID || op.projectID != p.id || op.state != Complete || id in l.removals || id !in l.versions
        then Err(NotFound)
      else if l.versions[id].app != p.storageApp || l.versions[id].state != Retained || l.versions[id].unverified
        then Err(NotFound)
      else Ok(op)
  }

  predicate Serves(p: Project, id: VersionId) { p.status == Active && CurrentVersion(p) == id }

  function Reselected(p: Project, op: Operation, now: int): Project {
    p.(activeDigest := op.digest, activeBytes := op.bytes, storageGeneration := op.storageGeneration,
       policyRevision := p.policyRevision + 1, revision := p.revision + 1, updatedAt := now)
  }

  /** Makes an earlier publication the one that its project serves. */
  function Reselect(l: Ledger, now: int, p: Project, op: Operation): Result<Ledger> {
    var released := if p.activeDigest != op.digest then Release(l.digests, p.activeDigest, p.id) else l.digests;
    PutProject(l.(digests := released[op.digest := DigestRecord(p.id, "")]), Reselected(p, op, now))
  }

  function SelectRevision(l: Ledger, now: int, a: Actor, id: string, opID: string, revision: int): Result<Ledger> {
    match Editable(l, now, a, id, revision)
    case Err(e) => Err(e)
    case Ok(p) =>
      match AvailableRevision(l, p, opID)
      case Err(e) => Err(e)
      case Ok(op) =>
        if p.activeDigest == op.digest && p.storageGeneration == op.storageGeneration then Ok(l)
        else if op.digest in l.digests && l.digests[op.digest].projectID != "" && l.digests[op.digest].projectID != p.id
          then Err(Conflict)
        else Reselect(l, now, p, op)
  }

  /** A removed publication is marked, and handed to maintenance or, outside any pool, fenced by its digest. */
  function Removed(l: Ledger, p: Project, op: Operation): Ledger {
    l.(removals := l.removals + {VersionOfOperation(op)},
       retirements := if p.storageApp == "" then l.retirements + {(p.id, op.digest)} else l.retirements,
       queue := if p.storageApp == "" then l.queue else l.queue + {(p.storageApp, VersionOfOperation(op))})
  }

  function RemoveRevision(l: Ledger, now: int, a: Actor, id: string, opID: string, revision: int): Result<Ledger> {
    match Editable(l, now, a, id, revision)
    case Err(e) => Err(e)
    case Ok(p) =>
      match AvailableRevision(l, p, opID)
      case Err(e) => Err(e)
      case Ok(op) =>
        if p.activeDigest == op.digest && p.storageGeneration == op.storageGeneration then Err(Conflict)
        else PutProject(Removed(l, p, op), p.(revision := p.revision + 1, updatedAt := now))
  }

  /* ---------- Reclamation ---------- */

  /** Between 1 and 64 different names, in any order. */
  predicate ValidMembers(members: seq<string>) {
    && 1 <= |members| <= 64
    && |O.SortedList(members)| == |members|
    && (forall i :: 0 <= i < |members| ==> 1 <= |members[i]| <= 128)
  }

  /** Successful publications of an undeleted project are kept until their owner removes them. */
  predicate MayRetire(l: Ledger, p: Project, id: VersionId)
    requires id in l.versions
  {
    || p.status == Deleted
    || l.versions[id].state != Retained
    || id in l.removals
    || (id.generation != "" && id.generation in l.operations &&
        var op := l.operations[id.generation];
        op.projectID == p.id && VersionOfOperation(op) == id && op.state == Aborted)
  }

  predicate Damaged(v: Version, a: Allocation) {
    || a.schema != 2 || a.fence != MEASURED_FENCE || v.block < 1 || v.block > a.block
    || v.bytes <= 0 || v.bytes > 0x100_0000_0000 || v.inodes > 0x10_0000 || v.contentBytes < 0
       || v.contentBytes > F.MAX_CONTENT || v.quotaBytes <= 0
  }

  function Retired(v: Version, p: Project, epoch: string, members: seq<string>): Version {
    var fenced := v.(state := Retiring, projectDeleted := p.status == Deleted);
    if v.epoch == "" then fenced.(epoch := epoch, members := members, acknowledged := {}) else fenced
  }

  function Retire(l: Ledger, now: int, id: VersionId, epoch: string, members: seq<string>): Result<Ledger> {
    if |epoch| != 64 || !ValidMembers(members) then Err(Malformed)
    else if id !in l.versions then Err(NotFound)
    else
      var v, pinned := l.versions[id], O.SortedList(members);
      if v.unverified then Err(StorageUnavailable)
      else if v.state == Reclaimed then (if v.epoch != epoch || v.members != pinned then Err(Conflict) else Ok(l))
      else if id.project !in l.projects then Err(NotFound)
      else
        var p := l.projects[id.project];
        if p.storageApp != v.app || (p.status != Deleted && p.status != Active) || p.pendingOperation != ""
          || Serves(p, id) then Err(Conflict)
        else if p.status != Deleted && !p.Unexpired(now) then Err(Conflict)
        else if !MayRetire(l, p, id) then Err(Conflict)
        else if v.app !in l.allocations then Err(NotFound)
        else
          match ReadQuota(l.quotas, p.owner)
          case Err(e) => Err(e)
          case Ok(q) =>
            if Damaged(v, l.allocations[v.app]) || p.chargedBytes < v.quotaBytes || q.charged < p.chargedBytes
              then Err(StorageUnavailable)
            else if v.epoch != "" && (v.epoch != epoch || v.members != pinned) then Err(Conflict)
            else Ok(l.(versions := l.versions[id := Retired(v, p, epoch, pinned)],
                       retirements := if id.generation == "" then l.retirements + {(id.project, id.digest)}
                      else l.retirements))
  }

  function Refund(v: Version, a: Allocation): int { v.bytes + v.inodes * (a.block - v.block) }

  predicate AllAcknowledged(v: Version) { forall m :: m in v.members ==> m in v.acknowledged }

  /** The refund of a fully acknowledged version. */
  function Refunded(l: Ledger, id: VersionId, v: Version): Result<Ledger> {
    if id.project !in l.projects then Err(NotFound)
    else
      var p := l.projects[id.project];
      if p.storageApp != v.app || (v.projectDeleted && p.status != Deleted) || Serves(p, id) then Err(Conflict)
      else if v.app !in l.allocations then Err(NotFound)
      else
        var a := l.allocations[v.app];
        if Damaged(v, a) || a.block > F.MAX_BLOCK then Err(StorageUnavailable)
        else
          match ReadQuota(l.quotas, p.owner)
          case Err(e) => Err(e)
          case Ok(q) =>
            var refund := Refund(v, a);
            if refund <= 0 || a.bytes < refund || a.inodes < v.inodes || a.contentBytes < v.contentBytes
              || a.versions < 1 || p.chargedBytes < v.quotaBytes || q.charged < v.quotaBytes
              || a.liveBytes > a.contentBytes - v.contentBytes
            then Err(StorageUnavailable)
            else
              var paid :=
                a.(bytes := a.bytes - refund, inodes := a.inodes - v.inodes,
                   contentBytes := a.contentBytes - v.contentBytes, versions := a.versions - 1);
              match PutProject(l.(allocations := l.allocations[v.app := paid],
                                  quotas := l.quotas[p.owner := q.(charged := q.charged - v.quotaBytes)]),
                               p.(chargedBytes := p.chargedBytes - v.quotaBytes))
              case Err(e) => Err(e)
              case Ok(put) =>
                Ok(put.(queue := put.queue - {(v.app, id)}, versions := put.versions[id := v.(state := Reclaimed)]))
  }

  function Acknowledge(l: Ledger, id: VersionId, epoch: string, member: string): Result<Ledger> {
    if |epoch| != 64 then Err(Malformed)
    else if id !in l.versions then Err(NotFound)
    else
      var v := l.versions[id];
      if v.state == Retained || v.epoch != epoch || member !in v.members then Err(Conflict)
      else if v.state == Reclaimed then Ok(l)
      else
        var noted := v.(acknowledged := v.acknowledged + {member});
        if !AllAcknowledged(noted) then Ok(l.(versions := l.versions[id := noted])) else Refunded(l, id, noted)
  }

  /** What the pool held in reserve for a version before it was measured. */
  function PriorInodes(m: F.Manifest, v: Version): int { (|m.files| * 21 + 64) * v.legacyOperations }

  function PriorBytes(m: F.Manifest, v: Version, block: int): int {
    (v.contentBytes + 8 * MEBIBYTE) * v.legacyOperations + PriorInodes(m, v) * block
  }

  /** Replaces the conservative reserve of a version from before measuring by its exact footprint. */
  ghost function Reconcile(l: Ledger, id: VersionId, m: F.Manifest): Result<Ledger> {
    if id !in l.versions then Err(NotFound)
    else
      var v := l.versions[id];
      if !v.unverified then Ok(l)
      else if id.generation != "" || v.legacyOperations < 1 || v.legacyOperations > 50000 || v.state != Retained
        then Err(StorageUnavailable)
      else if v.app !in l.allocations then Err(NotFound)
      else
        var a := l.allocations[v.app];
        if a.schema != 2 || a.fence != MEASURED_FENCE || a.block < 1 || a.block > F.MAX_BLOCK
          then Err(StorageUnavailable)
        else
          match F.Allowance(m, a.block)
          case Invalid => Err(StorageUnavailable)
          case TooLarge => Err(StorageUnavailable)
          case Measured(usage) =>
            var bytes, inodes := PriorBytes(m, v, a.block), PriorInodes(m, v);
            if usage.contentBytes != v.contentBytes then Err(StorageUnavailable)
            else if bytes < usage.allocatedBytes || a.legacyBytes < bytes || a.bytes < bytes || a.legacyInodes < inodes
              || a.inodes < inodes then Err(StorageUnavailable)
            else Ok(l.(allocations :=
                       l.allocations[v.app := a.(bytes := a.bytes + usage.allocatedBytes - bytes,
                                                 inodes := a.inodes - inodes + usage.inodes,
                                                 legacyBytes := a.legacyBytes - bytes,
                                                 legacyInodes := a.legacyInodes - inodes)],
                       versions :=
                      l.versions[id := v.(unverified := false, bytes := usage.allocatedBytes, inodes := usage.inodes,
                                          block := a.block)],
                       measured := l.measured[id := m]))
  }

  /** An administrator closes a pool to new versions, or reopens it. */
  function SetControl(l: Ledger, app: AppName, closed: bool): Result<Ledger> {
    if app !in l.allocations then Err(NotFound)
      else Ok(l.(allocations := l.allocations[app := l.allocations[app].(closed := closed)]))
  }

  /* ---------- Runs ---------- */

  datatype Request =
    | DoReserve(a: Actor, r: Reservation, offers: seq<Offer>, op: OperationId)
    | DoActivate(a: Actor, opID: string, password: Password)
    | DoAbort(who: Aborter, opID: string)
    | DoTombstone(a: Actor, id: string, revision: int)
    | DoExpire(id: string)
    | DoSetPrivacy(a: Actor, id: string, revision: int, password: Password)
    | DoSetWatermark(a: Actor, id: string, revision: int, enabled: bool)
    | DoRename(a: Actor, id: string, name: string, revision: int, hashed: string)
    | DoClaim(a: Actor, id: string, revision: int)
    | DoCreateTransfer(a: Actor, id: string, revision: int, digest: string)
    | DoRevokeTransfer(a: Actor, id: string, revision: int)
    | DoRedeem(a: Actor, id: string, digest: string)
    | DoSelect(a: Actor, id: string, opID: string, revision: int)
    | DoRemove(a: Actor, id: string, opID: string, revision: int)
    | DoRetire(version: VersionId, epoch: string, members: seq<string>)
    | DoAcknowledge(version: VersionId, epoch: string, member: string)
    | DoReconcile(version: VersionId, manifest: F.Manifest)
    | DoSetControl(app: AppName, closed: bool)

  ghost function Perform(l: Ledger, c: Limits, now: int, q: Request): Result<Ledger> {
    match q
    case DoReserve(a, r, offers, op) => Reserve(l, c, now, a, r, offers, op)
    case DoActivate(a, opID, password) => Activate(l, now, a, opID, password)
    case DoAbort(who, opID) => Abort(l, now, who, opID)
    case DoTombstone(a, id, revision) => Tombstone(l, a, id, revision)
    case DoExpire(id) => Expire(l, now, id)
    case DoSetPrivacy(a, id, revision, password) => SetPrivacy(l, now, a, id, revision, password)
    case DoSetWatermark(a, id, revision, enabled) => SetWatermark(l, now, a, id, revision, enabled)
    case DoRename(a, id, name, revision, hashed) => Rename(l, now, a, id, name, revision, hashed)
    case DoClaim(a, id, revision) => Claim(l, c, now, a, id, revision)
    case DoCreateTransfer(a, id, revision, digest) => CreateTransfer(l, now, a, id, revision, digest)
    case DoRevokeTransfer(a, id, revision) => RevokeTransfer(l, now, a, id, revision)
    case DoRedeem(a, id, digest) => Redeem(l, c, now, a, id, digest)
    case DoSelect(a, id, opID, revision) => SelectRevision(l, now, a, id, opID, revision)
    case DoRemove(a, id, opID, revision) => RemoveRevision(l, now, a, id, opID, revision)
    case DoRetire(version, epoch, members) => Retire(l, now, version, epoch, members)
    case DoAcknowledge(version, epoch, member) => Acknowledge(l, version, epoch, member)
    case DoReconcile(version, manifest) => Reconcile(l, version, manifest)
    case DoSetControl(app, closed) => SetControl(l, app, closed)
  }

  /** A refused transaction leaves every record as it was. */
  ghost function Step(l: Ledger, c: Limits, now: int, q: Request): Ledger {
    match Perform(l, c, now, q)
    case Ok(next) => next
    case Err(_) => l
  }
}
