/**
 The repository that performs the transactions: each method works on its own copy of the records, as a
 transaction does, and stores it only at the end. Its contract is the rule of the same name.
 */
module LedgerRepository {
  import opened Wrappers
  import opened Projects
  import opened LedgerRules
  import L = LedgerRules
  import F = Footprint
  import O = Ordering
  import opened LedgerInv
  import opened LedgerStorage
  import opened LedgerRuns

  /** What the caller of a transaction is told. */
  function Failed(outcome: Result<Ledger>): Option<Failure> { if outcome.Ok? then None else Some(outcome.failure) }

  /** Runs through the candidate suffix lengths until a name is free. */
  method PickSlug(l: Ledger, name: string, seed: string, id: string) returns (r: Result<SlugChoice>)
    ensures r == ChooseSlug(l, name, seed, id, SUFFIX_LENGTHS)
  {
    hide ValidSlug, SlugOwner, Candidate, RESERVED_SLUGS;
    var i := 0;
    while i < |SUFFIX_LENGTHS|
      invariant 0 <= i <= |SUFFIX_LENGTHS|
      invariant ChooseSlug(l, name, seed, id, SUFFIX_LENGTHS) == ChooseSlug(l, name, seed, id, SUFFIX_LENGTHS[i..])
    {
      var length := SUFFIX_LENGTHS[i];
      i := i + 1;
      assert SUFFIX_LENGTHS[i - 1..][1..] == SUFFIX_LENGTHS[i..];
      if |seed| < length { continue; }
      var choice := Candidate(name, seed, length);
      if !ValidSlug(choice.slug) { return Err(Malformed); }
      if choice.slug in RESERVED_SLUGS { continue; }
      var owner := SlugOwner(l, choice.slug);
      if owner.Err? { return Err(owner.failure); }
      if owner.value == "" || owner.value == id { return Ok(choice); }
    }
    return Err(Conflict);
  }

  method ExamineOffer(l: Ledger, p: Project, r: Reservation, offer: Offer, opID: string) returns (g: Offering)
    ensures g == TryOffer(l, p, r, offer, opID)
  {
    hide F.Allowance;
    if (p.storageApp != "" && p.storageApp != offer.app) || offer.block < 1 || offer.block > F.MAX_BLOCK
      || offer.limitBytes <= 0 {
      return Skip;
    }
    var a := AllocationAt(l.allocations, offer.app);
    if a.closed { return Skip; }
    if a.schema == 0 && a.bytes == 0 && a.inodes == 0 {
      a := a.(schema := 2, fence := MEASURED_FENCE, block := offer.block);
    }
    if a.schema != 2 || a.fence != MEASURED_FENCE || a.block < 1 || a.block > F.MAX_BLOCK { return Skip; }
    var grown := Grown(a, offer.block);
    if grown.Err? { return Refuse(grown.failure); }
    var usage := F.Measure(r.manifest, grown.value.block);
    return Place(l, p, r, offer, opID, grown.value, usage);
  }

  /** Goes through the offers in order; an offer that does not fit is skipped. */
  method AllocateMeasuredStorage(l: Ledger, p: Project, r: Reservation, offers: seq<Offer>,
                                 opID: string) returns (g: Offering)
    ensures g == Allocate(l, p, r, offers, opID)
  {
    hide TryOffer;
    for i := 0 to |offers|
      invariant Allocate(l, p, r, offers, opID) == Allocate(l, p, r, offers[i..], opID)
    {
      g := ExamineOffer(l, p, r, offers[i], opID);
      assert offers[i..][1..] == offers[i + 1..];
      if !g.Skip? { return g; }
    }
    return Refuse(StorageUnavailable);
  }

  /** Adds an identifier to an owner's sorted index, or takes it out. */
  method UpdateIndex(index: map<Owner, seq<string>>, owner: Owner, id: string,
                     add: bool) returns (r: Result<map<Owner, seq<string>>>)
    requires O.Sorted(IndexAt(index, owner))
    ensures add ==>
            r == (if id !in O.Elements(IndexAt(index, owner)) && |IndexAt(index, owner)| >= MAX_INDEX
                  then Err(QuotaExceeded)
                          else Ok(index[owner := O.Insert(IndexAt(index, owner), id)]))
    ensures !add ==> r == Ok(index[owner := O.Remove(IndexAt(index, owner), id)])
  {
    var ids := IndexAt(index, owner);
    if add {
      var pos := O.Search(ids, id);
      if (pos == |ids| || ids[pos] != id) && |ids| >= MAX_INDEX { return Err(QuotaExceeded); }
      var grown := O.Add(ids, id);
      return Ok(index[owner := grown]);
    }
    var shrunk := O.Drop(ids, id);
    return Ok(index[owner := shrunk]);
  }

  method IndexProject(index: map<Owner, seq<string>>, prior: PriorProject,
                      next: Project) returns (r: Result<map<Owner, seq<string>>>)
    requires forall o :: O.Sorted(IndexAt(index, o))
    ensures r == IndexAfter(index, prior, next)
  {
    hide O.Insert, O.Remove, O.Elements, O.Sorted;
    var sofar := index;
    if prior.Present? && prior.project.status != Deleted
      && (prior.project.owner != next.owner || next.status == Deleted) {
      var cut := UpdateIndex(index, prior.project.owner, next.id, false);
      sofar := cut.value;
      O.RemoveSorted(IndexAt(index, prior.project.owner), next.id);
    }
    if next.status != Deleted
      && (prior.Absent? || prior.project.owner != next.owner || prior.project.status == Deleted) {
      r := UpdateIndex(sofar, next.owner, next.id, true);
      return r;
    }
    return Ok(sofar);
  }

  method Store(l: Ledger, next: Project) returns (r: Result<Ledger>)
    requires forall o :: O.Sorted(IndexAt(l.index, o))
    ensures r == PutProject(l, next)
  {
    hide IndexAfter, QueueAfter, LiveAfter;
    var prior := Prior(l.projects, next.id);
    var index := IndexProject(l.index, prior, next);
    if index.Err? { return Err(index.failure); }
    var queue := QueueAfter(l.queue, l.versions, prior, next);
    if queue.Err? { return Err(queue.failure); }
    var allocations := LiveAfter(l.allocations, prior, next);
    if allocations.Err? { return Err(allocations.failure); }
    return Ok(l.(index := index.value, queue := queue.value, allocations := allocations.value,
                 projects := l.projects[next.id := next]));
  }

  class RaftRepository {
    const limits: Limits
    var records: Ledger
    var clock: int

    /** The stored records are consistent at the time of the last transaction. */
    ghost predicate Valid() reads this { Inv(records, limits, clock) }

    constructor (limits: Limits, now: int)
      ensures Valid() && records == EMPTY && this.limits == limits && clock == now
    {
      this.limits := limits;
      records := EMPTY;
      clock := now;
      EmptyInv(limits, now);
    }

    /** Stores the outcome of a transaction that the rules allow, or drops it. */
    method Commit(now: int, q: Request, outcome: Result<Ledger>) returns (r: Option<Failure>)
      requires Valid() && clock <= now && outcome == Perform(records, limits, now, q)
      modifies this`records, this`clock
      ensures Valid() && clock == now && records == Step(old(records), limits, now, q)
      ensures r == Failed(outcome)
    {
      hide Inv, Perform;
      Later(records, limits, clock, now);
      PerformInv(records, limits, now, q);
      clock := now;
      if outcome.Err? { return Some(outcome.failure); }
      records := outcome.value;
      return None;
    }

    method Find(now: int, a: Actor, r: Reservation, opID: OperationId) returns (p: Result<Project>)
      ensures p == Target(records, now, a, r, opID)
    {
      hide ChooseSlug;
      if r.projectID == "" {
        if opID[..32] in records.projects { return Err(Conflict); }
        var choice := PickSlug(records, if r.name == "" then DefaultName(opID) else r.name, r.digest, opID[..32]);
        if choice.Err? { return Err(choice.failure); }
        return Ok(NewProject(a.Identity(), opID, choice.value, now));
      }
      if r.projectID !in records.projects { return Err(NotFound); }
      var found := records.projects[r.projectID];
      if !a.Owns(found.owner) || !found.Live(now) { return Err(NotFound); }
      if found.revision != r.expectedRevision || found.pendingOperation != "" { return Err(Conflict); }
      return Ok(found);
    }

    method TryReserve(now: int, a: Actor, r: Reservation, offers: seq<Offer>,
                      opID: OperationId) returns (result: Result<Ledger>)
      requires Valid()
      ensures result == L.Reserve(records, limits, now, a, r, offers, opID)
    {
      hide Inv, Target, ChooseSlug, DigestBlocked, QuotaAfter, Allocate, Usable, Stored, PutProject, ValidReservation;
      if !ValidReservation(r) { return Err(Malformed); }
      if opID in records.operations { return Retried(records, now, a, r, opID); }
      var target := Find(now, a, r, opID);
      if target.Err? { return Err(target.failure); }
      var p := target.value;
      var blocked := DigestBlocked(records, now, a, r.digest, p.id);
      if blocked.Some? { return Err(blocked.value); }
      var q := QuotaAfter(records.quotas, limits, p, r.projectID == "", VersionCharge(r.bytes));
      if q.Err? { return Err(q.failure); }
      var grant := AllocateMeasuredStorage(records, p, r, offers, opID);
      if !grant.Grant? { return Err(if grant.Refuse? then grant.failure else StorageUnavailable); }
      var tx := Stored(records, r, grant.id, grant.version, grant.allocation);
      p := p.(storageApp := grant.version.app, chargedBytes := p.chargedBytes + VersionCharge(r.bytes));
      var op := PendingOperation(a, r, target.value, opID, grant.id.generation, now);
      p := p.(pendingOperation := opID);
      if !Usable(tx, p, op) { return Err(Conflict); }
      IndexSorted(records, limits, clock);
      tx := BeforePut(records, r, target.value, grant.id, grant.version, grant.allocation, q.value);
      BeforePutIndex(records, r, target.value, grant.id, grant.version, grant.allocation, q.value);
      var put := Store(tx, p);
      if put.Err? { return put; }
      tx := put.value;
      tx := tx.(operations := tx.operations[opID := op]);
      tx := tx.(digests := tx.digests[r.digest := DigestRecord(p.id, opID)]);
      return Ok(tx);
    }

    method Reserve(now: int, a: Actor, r: Reservation, offers: seq<Offer>,
                   opID: OperationId) returns (failure: Option<Failure>)
      requires Valid() && clock <= now
      modifies this`records, this`clock
      ensures Valid() && clock == now && records == Step(old(records), limits, now, DoReserve(a, r, offers, opID))
      ensures failure == Failed(L.Reserve(old(records), limits, now, a, r, offers, opID))
    {
      hide Inv, L.Reserve;
      var outcome := TryReserve(now, a, r, offers, opID);
      failure := Commit(now, DoReserve(a, r, offers, opID), outcome);
    }

    method TryActivate(now: int, a: Actor, opID: string, password: Password) returns (result: Result<Ledger>)
      requires Valid()
      ensures result == L.Activate(records, now, a, opID, password)
    {
      hide Inv, Usable, PutProject, Activated;
      if password.Protected? && password.revision < 2 { return Err(Malformed); }
      if opID !in records.operations { return Err(NotFound); }
      var op := records.operations[opID];
      if op.owner != a.Identity() || op.projectID !in records.projects { return Err(NotFound); }
      var p := records.projects[op.projectID];
      if !a.Owns(p.owner) || p.status == Deleted || !p.Unexpired(now) { return Err(NotFound); }
      if !Usable(records, p, op) { return Err(Conflict); }
      if op.state == Complete {
        return if password.Protected? && !p.isPrivate then Err(Conflict) else Ok(records);
      }
      if op.state != Pending || now >= op.expiresAt || p.pendingOperation != op.id || p.revision != op.baseRevision {
        return Err(Conflict);
      }
      if password.Protected? && (!op.isNew || p.policyRevision == MAX_INT64
                                 || password.revision != p.policyRevision + 1) {
        return Err(Conflict);
      }
      if op.digest !in records.digests { return Err(NotFound); }
      if records.digests[op.digest] != DigestRecord(p.id, op.id) { return Err(Conflict); }
      var tx := records;
      if p.activeDigest != "" && p.activeDigest != op.digest && p.activeDigest in tx.digests
        && tx.digests[p.activeDigest].projectID == p.id {
        tx := tx.(digests := tx.digests - {p.activeDigest});
      }
      tx := tx.(operations := tx.operations[op.id := op.(state := Complete, publishedAt := now)]);
      tx := tx.(digests := tx.digests[op.digest := DigestRecord(p.id, "")]);
      IndexSorted(records, limits, clock);
      result := Store(tx, Activated(p, op, password, now));
    }

    method Activate(now: int, a: Actor, opID: string, password: Password) returns (failure: Option<Failure>)
      requires Valid() && clock <= now
      modifies this`records, this`clock
      ensures Valid() && clock == now && records == Step(old(records), limits, now, DoActivate(a, opID, password))
      ensures failure == Failed(L.Activate(old(records), now, a, opID, password))
    {
      hide Inv, L.Activate;
      var outcome := TryActivate(now, a, opID, password);
      failure := Commit(now, DoActivate(a, opID, password), outcome);
    }

    static method Withdraw(digests: map<string, DigestRecord>, p: Project,
                           op: Operation) returns (r: map<string, DigestRecord>)
      ensures r == Withdrawn(digests, p, op)
    {
      r := digests;
      if op.digest in digests && digests[op.digest] == DigestRecord(p.id, op.id) {
        if p.activeDigest == op.digest {
          r := r[op.digest := DigestRecord(p.id, "")];
        } else {
          r := r - {op.digest};
        }
      }
    }

    method TryAbort(now: int, who: Aborter, opID: string) returns (result: Result<Ledger>)
      requires Valid()
      ensures result == L.Abort(records, now, who, opID)
    {
      hide Inv, PutProject, Withdrawn, ReadQuota;
      if opID !in records.operations { return Err(NotFound); }
      var op := records.operations[opID];
      if who.ByOwner? && op.owner != who.a.Identity() { return Err(NotFound); }
      if op.state != Pending || (who.ByMaintenance? && now < op.expiresAt) { return Ok(records); }
      if op.projectID !in records.projects { return Err(NotFound); }
      var p := records.projects[op.projectID];
      if (who.ByOwner? && !who.a.Owns(p.owner)) || p.pendingOperation != op.id { return Err(Conflict); }
      var q := ReadQuota(records.quotas, p.owner);
      if q.Err? { return Err(q.failure); }
      var tx := records;
      var withdrawn := Withdraw(tx.digests, p, op);
      tx := tx.(digests := withdrawn);
      p := p.(pendingOperation := "");
      tx := tx.(operations := tx.operations[opID := op.(state := Aborted)]);
      if op.isNew {
        p := p.(status := Deleted);
        if q.value.count <= 0 { return Err(Conflict); }
        tx := tx.(quotas := tx.quotas[p.owner := q.value.(count := q.value.count - 1)]);
        tx := tx.(slugs := tx.slugs - {p.slug});
      }
      IndexSorted(records, limits, clock);
      result := Store(tx, p);
    }

    method Abort(now: int, who: Aborter, opID: string) returns (failure: Option<Failure>)
      requires Valid() && clock <= now
      modifies this`records, this`clock
      ensures Valid() && clock == now && records == Step(old(records), limits, now, DoAbort(who, opID))
      ensures failure == Failed(L.Abort(old(records), now, who, opID))
    {
      hide Inv, L.Abort;
      var outcome := TryAbort(now, who, opID);
      failure := Commit(now, DoAbort(who, opID), outcome);
    }

    /** One transaction for both choices among past publications. */
    method TryChangeRevision(now: int, a: Actor, id: string, opID: string, revision: int,
                             remove: bool) returns (result: Result<Ledger>)
      requires Valid()
      ensures result == if remove then L.RemoveRevision(records, now, a, id, opID, revision)
              else L.SelectRevision(records, now, a, id, opID, revision)
    {
      hide Inv, PutProject, AvailableRevision;
      var editable := Editable(records, now, a, id, revision);
      if editable.Err? { return Err(editable.failure); }
      var p := editable.value;
      var available := AvailableRevision(records, p, opID);
      if available.Err? { return Err(available.failure); }
      var op := available.value;
      if p.activeDigest == op.digest && p.storageGeneration == op.storageGeneration {
        return if remove then Err(Conflict) else Ok(records);
      }
      var tx := records;
      IndexSorted(records, limits, clock);
      if remove {
        tx := tx.(removals := tx.removals + {VersionOfOperation(op)});
        if p.storageApp == "" {
          tx := tx.(retirements := tx.retirements + {(p.id, op.digest)});
        } else {
          tx := tx.(queue := tx.queue + {(p.storageApp, VersionOfOperation(op))});
        }
        result := Store(tx, p.(revision := p.revision + 1, updatedAt := now));
      } else {
        if op.digest in tx.digests && tx.digests[op.digest].projectID != "" && tx.digests[op.digest].projectID != p.id {
          return Err(Conflict);
        }
        if p.activeDigest in tx.digests && tx.digests[p.activeDigest].projectID == p.id && p.activeDigest != op.digest {
          tx := tx.(digests := tx.digests - {p.activeDigest});
        }
        tx := tx.(digests := tx.digests[op.digest := DigestRecord(p.id, "")]);
        result := Store(tx, Reselected(p, op, now));
      }
    }

    method ChangeRevision(now: int, a: Actor, id: string, opID: string, revision: int,
                          remove: bool) returns (failure: Option<Failure>)
      requires Valid() && clock <= now
      modifies this`records, this`clock
      ensures Valid() && clock == now
      ensures records == Step(old(records), limits, now, if remove then DoRemove(a, id, opID, revision)
                              else DoSelect(a, id, opID, revision))
      ensures var outcome := if remove then L.RemoveRevision(old(records), now, a, id, opID, revision)
                             else L.SelectRevision(old(records), now, a, id, opID, revision);
              failure == Failed(outcome)
    {
      hide Inv, L.SelectRevision, L.RemoveRevision;
      var outcome := TryChangeRevision(now, a, id, opID, revision, remove);
      failure :=
        Commit(now, if remove then DoRemove(a, id, opID, revision) else DoSelect(a, id, opID, revision), outcome);
    }

    method TryTombstone(a: Actor, id: string, revision: int) returns (result: Result<Ledger>)
      requires Valid()
      ensures result == L.Tombstone(records, a, id, revision)
    {
      hide Inv, PutProject;
      if revision < 1 { return Err(Malformed); }
      if id !in records.projects { return Err(NotFound); }
      var p := records.projects[id];
      if !a.Owns(p.owner) { return Err(NotFound); }
      if p.status == Deleted { return Ok(records); }
      if p.revision != revision || p.pendingOperation != "" { return Err(Conflict); }
      result := Delete(records.(transfers := records.transfers - {id}), p);
    }

    static method Free(digests: map<string, DigestRecord>, digest: string,
                       id: string) returns (r: map<string, DigestRecord>)
      ensures r == Release(digests, digest, id)
    {
      r := digests;
      if digest in digests && digests[digest].projectID == id { r := r - {digest}; }
    }

    /** The part that an owner's deletion and an expiry share. */
    method Delete(start: Ledger, p: Project) returns (result: Result<Ledger>)
      requires Valid() && start.index == records.index
      ensures result == Deleting(start, p)
    {
      hide Inv, PutProject, Release, ReadQuota;
      var q := ReadQuota(start.quotas, p.owner);
      if q.Err? { return Err(q.failure); }
      var tx := start;
      var released := Free(tx.digests, p.activeDigest, p.id);
      tx := tx.(digests := released);
      if q.value.count <= 0 { return Err(Conflict); }
      tx := tx.(quotas := tx.quotas[p.owner := q.value.(count := q.value.count - 1)]);
      IndexSorted(records, limits, clock);
      result := Store(tx, p.(status := Deleted, revision := p.revision + 1, policyRevision := p.policyRevision + 1));
    }

    method Tombstone(now: int, a: Actor, id: string, revision: int) returns (failure: Option<Failure>)
      requires Valid() && clock <= now
      modifies this`records, this`clock
      ensures Valid() && clock == now && records == Step(old(records), limits, now, DoTombstone(a, id, revision))
      ensures failure == Failed(L.Tombstone(old(records), a, id, revision))
    {
      hide Inv, L.Tombstone;
      var outcome := TryTombstone(a, id, revision);
      failure := Commit(now, DoTombstone(a, id, revision), outcome);
    }

    method ExpireProject(now: int, id: string) returns (failure: Option<Failure>)
      requires Valid() && clock <= now
      modifies this`records, this`clock
      ensures Valid() && clock == now && records == Step(old(records), limits, now, DoExpire(id))
      ensures failure == Failed(L.Expire(old(records), now, id))
    {
      hide Inv, PutProject, Deleting;
      var outcome: Result<Ledger> := Ok(records);
      if id in records.projects {
        var p := records.projects[id];
        if p.status == Active && p.owner.kind == Anonymous && !p.Unexpired(now) && p.pendingOperation == "" {
          outcome := Delete(records, p);
        }
      }
      failure := Commit(now, DoExpire(id), outcome);
    }

    method TryMove(p: Project, uid: string) returns (result: Result<Ledger>)
      requires Valid()
      ensures result == MoveToAccount(records, limits, p, uid)
    {
      hide Inv, PutProject, ReadQuota, FitsBytes, Limits.Bytes, Limits.Count;
      var account := Owner.Owner(Firebase, uid);
      var oldQuota := ReadQuota(records.quotas, p.owner);
      if oldQuota.Err? { return Err(oldQuota.failure); }
      if account in records.quotas && ReadQuota(records.quotas, account).Err? { return Err(Conflict); }
      var from, to := oldQuota.value, QuotaAt(records.quotas, account);
      if to.count >= limits.Count(account) { return Err(QuotaExceeded); }
      if from.count < 1 || p.chargedBytes <= 0 || p.chargedBytes > from.charged { return Err(Conflict); }
      if !FitsBytes(to.charged, p.chargedBytes, limits.Bytes(account)) { return Err(QuotaExceeded); }
      from := Quota(from.count - 1, from.charged - p.chargedBytes);
      to := Quota(to.count + 1, to.charged + p.chargedBytes);
      var tx := records;
      var quotas := tx.quotas[p.owner := from];
      quotas := quotas[account := to];
      tx := tx.(quotas := quotas, transfers := tx.transfers - {p.id});
      IndexSorted(records, limits, clock);
      result := Store(tx, p.(owner := account, expiresAt := Never, revision := p.revision + 1));
    }

    method RedeemTransfer(now: int, a: Actor, id: string, digest: string) returns (failure: Option<Failure>)
      requires Valid() && clock <= now
      modifies this`records, this`clock
      ensures Valid() && clock == now && records == Step(old(records), limits, now, DoRedeem(a, id, digest))
      ensures failure == Failed(L.Redeem(old(records), limits, now, a, id, digest))
    {
      hide Inv, MoveToAccount;
      var outcome: Result<Ledger> := Err(NotFound);
      if a.uid == "" {
        outcome := Err(Forbidden);
      } else if id in records.transfers && id in records.projects {
        var t, p := records.transfers[id], records.projects[id];
        if t.digest == digest && now < t.expiresAt && p.Live(now) && p.owner == t.owner && p.owner.kind == Anonymous
          && p.pendingOperation == "" {
          outcome := TryMove(p, a.uid);
        }
      }
      failure := Commit(now, DoRedeem(a, id, digest), outcome);
    }

    method TryRename(now: int, a: Actor, id: string, name: string, revision: int,
                     hashed: string) returns (result: Result<Ledger>)
      requires Valid()
      ensures result == L.Rename(records, now, a, id, name, revision, hashed)
    {
      hide Inv, PutProject, ChooseSlug;
      var editable := Editable(records, now, a, id, revision);
      if editable.Err? { return Err(editable.failure); }
      var p := editable.value;
      var choice := PickSlug(records, name, RenameSeed(p, hashed), id);
      if choice.Err? { return Err(choice.failure); }
      var slug := choice.value.slug;
      if slug == p.slug { return Ok(records); }
      var isNew := NewAlias(records, id, slug);
      if !isNew && records.slugs[slug] != id { return Err(Conflict); }
      if isNew && p.aliasCount >= MAX_ALIASES { return Err(QuotaExceeded); }
      var tx := records;
      if isNew {
        tx := tx.(slugs := tx.slugs[slug := id], names := tx.names[id := NamesAt(tx.names, id) + {slug}]);
      }
      IndexSorted(records, limits, clock);
      result := Store(tx, Renamed(p, choice.value, isNew));
    }

    method Rename(now: int, a: Actor, id: string, name: string, revision: int,
                  hashed: string) returns (failure: Option<Failure>)
      requires Valid() && clock <= now
      modifies this`records, this`clock
      ensures Valid() && clock == now
              && records == Step(old(records), limits, now, DoRename(a, id, name, revision, hashed))
      ensures failure == Failed(L.Rename(old(records), now, a, id, name, revision, hashed))
    {
      hide Inv, L.Rename;
      var outcome := TryRename(now, a, id, name, revision, hashed);
      failure := Commit(now, DoRename(a, id, name, revision, hashed), outcome);
    }

    /** Sorts the members and refuses an empty, long or repeated name. */
    static method PinMembers(members: seq<string>) returns (ok: bool, pinned: seq<string>)
      ensures ok <==> ValidMembers(members)
      ensures pinned == O.SortedList(members)
    {
      pinned := O.SortList(members);
      if |members| < 1 || |members| > 64 || |pinned| != |members| { return false, pinned; }
      for i := 0 to |members|
        invariant forall j :: 0 <= j < i ==> 1 <= |members[j]| <= 128
      {
        if members[i] == "" || |members[i]| > 128 { return false, pinned; }
      }
      return true, pinned;
    }

    method TryRetire(now: int, id: VersionId, epoch: string, members: seq<string>) returns (result: Result<Ledger>)
      ensures result == L.Retire(records, now, id, epoch, members)
    {
      hide ValidMembers, MayRetire, Damaged, Serves, ReadQuota, Retired, O.SortedList;
      var ok, pinned := PinMembers(members);
      if |epoch| != 64 || !ok { return Err(Malformed); }
      if id !in records.versions { return Err(NotFound); }
      var v := records.versions[id];
      if v.unverified { return Err(StorageUnavailable); }
      if v.state == Reclaimed {
        return if v.epoch != epoch || v.members != pinned then Err(Conflict) else Ok(records);
      }
      if id.project !in records.projects { return Err(NotFound); }
      var p := records.projects[id.project];
      if p.storageApp != v.app || (p.status != Deleted && p.status != Active) || p.pendingOperation != ""
        || Serves(p, id) {
        return Err(Conflict);
      }
      if p.status != Deleted && !p.Unexpired(now) { return Err(Conflict); }
      if !MayRetire(records, p, id) { return Err(Conflict); }
      if v.app !in records.allocations { return Err(NotFound); }
      var q := ReadQuota(records.quotas, p.owner);
      if q.Err? { return Err(q.failure); }
      if Damaged(v, records.allocations[v.app]) || p.chargedBytes < v.quotaBytes || q.value.charged < p.chargedBytes {
        return Err(StorageUnavailable);
      }
      if v.epoch != "" && (v.epoch != epoch || v.members != pinned) { return Err(Conflict); }
      var tx := records;
      if id.generation == "" { tx := tx.(retirements := tx.retirements + {(id.project, id.digest)}); }
      tx := tx.(versions := tx.versions[id := Retired(v, p, epoch, pinned)]);
      return Ok(tx);
    }

    method RetireStorageVersion(now: int, id: VersionId, epoch: string,
                                members: seq<string>) returns (failure: Option<Failure>)
      requires Valid() && clock <= now
      modifies this`records, this`clock
      ensures Valid() && clock == now && records == Step(old(records), limits, now, DoRetire(id, epoch, members))
      ensures failure == Failed(L.Retire(old(records), now, id, epoch, members))
      ensures failure == Some(StorageUnavailable) ==>
              id in old(records).versions && old(records).versions[id].unverified
    {
      hide Inv, Retire;
      var outcome := TryRetire(now, id, epoch, members);
      Later(records, limits, clock, now);
      if outcome == Err(StorageUnavailable) { RetireGuardsUnreachable(records, limits, now, id, epoch, members); }
      failure := Commit(now, DoRetire(id, epoch, members), outcome);
    }

    /** Looks for a pinned member whose acknowledgement is still missing. */
    method EveryoneAcknowledged(v: Version) returns (all: bool)
      ensures all == AllAcknowledged(v)
    {
      for i := 0 to |v.members|
        invariant forall j :: 0 <= j < i ==> v.members[j] in v.acknowledged
      {
        if v.members[i] !in v.acknowledged { return false; }
      }
      return true;
    }

    method TryRefund(id: VersionId, v: Version) returns (result: Result<Ledger>)
      requires Valid()
      ensures result == Refunded(records, id, v)
    {
      hide Inv, PutProject, Damaged, Serves;
      if id.project !in records.projects { return Err(NotFound); }
      var p := records.projects[id.project];
      if p.storageApp != v.app || (v.projectDeleted && p.status != Deleted) || Serves(p, id) { return Err(Conflict); }
      if v.app !in records.allocations { return Err(NotFound); }
      var a := records.allocations[v.app];
      if Damaged(v, a) || a.block > F.MAX_BLOCK { return Err(StorageUnavailable); }
      var refund := v.bytes + v.inodes * (a.block - v.block);
      var q := ReadQuota(records.quotas, p.owner);
      if q.Err? { return Err(q.failure); }
      if refund <= 0 || a.bytes < refund || a.inodes < v.inodes || a.contentBytes < v.contentBytes || a.versions < 1
         || p.chargedBytes < v.quotaBytes || q.value.charged < v.quotaBytes { return Err(StorageUnavailable); }
      a := a.(bytes := a.bytes - refund, inodes := a.inodes - v.inodes, contentBytes := a.contentBytes - v.contentBytes,
              versions := a.versions - 1);
      if a.liveBytes > a.contentBytes { return Err(StorageUnavailable); }
      var tx := records;
      tx := tx.(allocations := tx.allocations[v.app := a]);
      tx := tx.(quotas := tx.quotas[p.owner := q.value.(charged := q.value.charged - v.quotaBytes)]);
      IndexSorted(records, limits, clock);
      var put := Store(tx, p.(chargedBytes := p.chargedBytes - v.quotaBytes));
      if put.Err? { return put; }
      tx := put.value;
      tx := tx.(queue := tx.queue - {(v.app, id)});
      tx := tx.(versions := tx.versions[id := v.(state := Reclaimed)]);
      return Ok(tx);
    }

    /** An acknowledgement of a pinned member always succeeds, and the last one refunds. */
    method AcknowledgeStorageReclamation(now: int, id: VersionId, epoch: string,
                                         member: string) returns (failure: Option<Failure>)
      requires Valid() && clock <= now
      modifies this`records, this`clock
      ensures Valid() && clock == now && records == Step(old(records), limits, now, DoAcknowledge(id, epoch, member))
      ensures failure == Failed(L.Acknowledge(old(records), id, epoch, member))
      ensures var l := old(records);
              |epoch| == 64 && id in l.versions && l.versions[id].state != Retained && l.versions[id].epoch == epoch ==>
                member in l.versions[id].members ==> failure == None
    {
      hide Inv, Refunded, AllAcknowledged;
      var outcome: Result<Ledger>;
      Later(records, limits, clock, now);
      AcknowledgeInv(records, limits, now, id, epoch, member);
      if |epoch| != 64 {
        outcome := Err(Malformed);
      } else if id !in records.versions {
        outcome := Err(NotFound);
      } else {
        var v := records.versions[id];
        if v.state == Retained || v.epoch != epoch || member !in v.members {
          outcome := Err(Conflict);
        } else if v.state == Reclaimed {
          outcome := Ok(records);
        } else {
          v := v.(acknowledged := v.acknowledged + {member});
          var all := EveryoneAcknowledged(v);
          if all {
            outcome := TryRefund(id, v);
          } else {
            outcome := Ok(records.(versions := records.versions[id := v]));
          }
        }
      }
      failure := Commit(now, DoAcknowledge(id, epoch, member), outcome);
    }

    method TryReconcile(id: VersionId, m: F.Manifest) returns (result: Result<Ledger>)
      ensures result == L.Reconcile(records, id, m)
    {
      hide F.Allowance, PriorBytes, PriorInodes;
      if id !in records.versions { return Err(NotFound); }
      var v := records.versions[id];
      if !v.unverified { return Ok(records); }
      if id.generation != "" || v.legacyOperations < 1 || v.legacyOperations > 50000 || v.state != Retained {
        return Err(StorageUnavailable);
      }
      if v.app !in records.allocations { return Err(NotFound); }
      var budget := records.allocations[v.app];
      if budget.schema != 2 || budget.fence != MEASURED_FENCE || budget.block < 1 || budget.block > F.MAX_BLOCK {
        return Err(StorageUnavailable);
      }
      var measured := F.Measure(m, budget.block);
      if !measured.Measured? || measured.usage.contentBytes != v.contentBytes { return Err(StorageUnavailable); }
      var usage := measured.usage;
      var bytes, inodes := PriorBytes(m, v, budget.block), PriorInodes(m, v);
      if bytes < usage.allocatedBytes || budget.legacyBytes < bytes || budget.bytes < bytes
        || budget.legacyInodes < inodes || budget.inodes < inodes {
        return Err(StorageUnavailable);
      }
      budget :=
        budget.(bytes := budget.bytes + usage.allocatedBytes - bytes, inodes := budget.inodes - inodes + usage.inodes);
      budget := budget.(legacyBytes := budget.legacyBytes - bytes, legacyInodes := budget.legacyInodes - inodes);
      var current :=
        v.(unverified := false, bytes := usage.allocatedBytes, inodes := usage.inodes, block := budget.block);
      return Ok(records.(versions := records.versions[id := current],
                         allocations := records.allocations[v.app := budget], measured := records.measured[id := m]));
    }

    method ReconcileUnverified(now: int, id: VersionId, m: F.Manifest) returns (failure: Option<Failure>)
      requires Valid() && clock <= now
      modifies this`records, this`clock
      ensures Valid() && clock == now && records == Step(old(records), limits, now, DoReconcile(id, m))
      ensures failure == Failed(L.Reconcile(old(records), id, m))
    {
      hide Inv, L.Reconcile;
      var outcome := TryReconcile(id, m);
      failure := Commit(now, DoReconcile(id, m), outcome);
    }
  }

  lemma IndexSorted(l: Ledger, c: Limits, now: int)
    requires Inv(l, c, now)
    ensures forall o :: O.Sorted(IndexAt(l.index, o))
  {
    hide Identified, Linked, Serving, Publishing, VersionsOk, BlocksOk, Pools, LiveOk, Queued, ProjectCharges, Quotas,
      Digested, Named, AllocationsOk, Assigned, O.Sorted, O.Elements;
    forall o: Owner
      ensures O.Sorted(IndexAt(l.index, o))
    {
      assert IndexOk(IndexAt(l.index, o), OwnedBy(l.projects, o));
    }
  }

  lemma BeforePutIndex(l: Ledger, r: Reservation, p: Project, id: VersionId, v: Version, a: Allocation, q: Quota)
    ensures BeforePut(l, r, p, id, v, a, q).index == l.index
  {}
}
