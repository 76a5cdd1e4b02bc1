/**
 Who may change a project, when, and into what. For every request that edits a project this is exact: the project
 changes if and only if the guard holds, it then becomes exactly the stated one, and no other project changes.
 */
module LedgerEdits {
  import opened Projects
  import opened LedgerRules
  import opened LedgerSums
  import opened LedgerInv
  import opened LedgerPublish
  import opened LedgerStorage
  import opened LedgerRuns
  import opened LedgerHistory
  import opened LedgerProgress

  /* ---------- The guards, as a caller can check them ---------- */

  /** The caller has proved to be this owner, by account or by anonymous identity. */
  predicate Controls(a: Actor, o: Owner) {
    || (a.uid != "" && o == Owner.Owner(Firebase, a.uid))
    || (a.anonymousID != "" && o == Owner.Owner(Anonymous, a.anonymousID))
  }

  function Caller(a: Actor): Owner {
    if a.uid == "" then Owner.Owner(Anonymous, a.anonymousID) else Owner.Owner(Firebase, a.uid)
  }

  predicate Expired(p: Project, now: int) { p.expiresAt.At? && p.expiresAt.time <= now }

  /** The caller's own published and unexpired project. */
  predicate Own(p: Project, now: int, a: Actor) { Controls(a, p.owner) && p.status == Active && !Expired(p, now) }

  /** Idle besides, and at the revision the caller has seen. */
  predicate Current(p: Project, now: int, a: Actor, revision: int) {
    Own(p, now, a) && p.pendingOperation == "" && revision >= 1 && revision == p.revision
  }

  /** One more project and its charge fit the account. */
  predicate RoomFor(l: Ledger, c: Limits, p: Project, uid: string) {
    var account := Owner.Owner(Firebase, uid);
    var q := if account in l.quotas then l.quotas[account] else Quota(0, 0);
    q.count < c.Count(account) && q.count < 1000 && q.charged + p.chargedBytes <= c.Bytes(account)
  }

  /** A completed publication of the project whose content is stored, measured and not removed. */
  predicate Restorable(l: Ledger, p: Project, opID: string) {
    && opID in l.operations
    && var op := l.operations[opID]; var id := VersionId(op.projectID, op.digest, op.storageGeneration);
       && op.projectID == p.id && op.state == Complete && id !in l.removals
       && id in l.versions && l.versions[id].state == Retained && !l.versions[id].unverified
  }

  predicate Showing(p: Project, op: Operation) {
    p.activeDigest == op.digest && p.storageGeneration == op.storageGeneration
  }

  /** The project that a request is about. */
  function SubjectOf(l: Ledger, q: Request): string {
    match q
    case DoActivate(_, opID, _) => if opID in l.operations then l.operations[opID].projectID else ""
    case DoAbort(_, opID) => if opID in l.operations then l.operations[opID].projectID else ""
    case DoTombstone(_, id, _) => id
    case DoExpire(id) => id
    case DoSetPrivacy(_, id, _, _) => id
    case DoSetWatermark(_, id, _, _) => id
    case DoClaim(_, id, _) => id
    case DoRedeem(_, id, _) => id
    case DoSelect(_, id, _, _) => id
    case DoRemove(_, id, _, _) => id
    case _ => ""
  }

  /** The requests whose effect on their project depends on nothing but stored records and the clock. */
  predicate IsEdit(q: Request) {
    || q.DoActivate? || q.DoAbort? || q.DoTombstone? || q.DoExpire? || q.DoSetPrivacy? || q.DoSetWatermark?
       || q.DoClaim?
    || q.DoRedeem? || q.DoSelect? || q.DoRemove?
  }

  /** The caller's own operation on a project that is still the caller's. */
  predicate OwnOperation(l: Ledger, now: int, a: Actor, opID: string, p: Project) {
    && opID in l.operations && l.operations[opID].owner == Caller(a)
    && Controls(a, p.owner) && p.status != Deleted && !Expired(p, now)
  }

  /** The operation that the project waits for, in time, with a password that suits it. */
  predicate Ready(l: Ledger, now: int, a: Actor, opID: string, password: Password, p: Project) {
    && OwnOperation(l, now, a, opID, p) && opID != "" && p.pendingOperation == opID
    && var op := l.operations[opID];
       && now < op.expiresAt && p.revision == op.baseRevision
       && (op.storageGeneration == "" ==> (p.id, op.digest) !in l.retirements)
       && (password.Protected? ==>
           op.isNew && p.policyRevision != MAX_INT64 && password.revision >= 2
           && password.revision == p.policyRevision + 1)
  }

  predicate MayActivate(l: Ledger, now: int, a: Actor, opID: string, password: Password, p: Project) {
    && Ready(l, now, a, opID, password, p)
    && l.operations[opID].digest in l.digests && l.digests[l.operations[opID].digest] == DigestRecord(p.id, opID)
  }

  predicate MayAbort(l: Ledger, now: int, who: Aborter, opID: string, p: Project) {
    && opID in l.operations && opID != "" && p.pendingOperation == opID
    && match who
       case ByOwner(a) => l.operations[opID].owner == Caller(a) && Controls(a, p.owner)
       case ByMaintenance => l.operations[opID].expiresAt <= now
  }

  /** The secret names a transfer in force of a live and idle anonymous project. */
  predicate Redeemable(l: Ledger, now: int, digest: string, p: Project) {
    && p.id in l.transfers
    && l.transfers[p.id].digest == digest && now < l.transfers[p.id].expiresAt && l.transfers[p.id].owner == p.owner
    && p.owner.kind == Anonymous && p.status == Active && !Expired(p, now) && p.pendingOperation == ""
  }

  predicate MayRedeem(l: Ledger, c: Limits, now: int, a: Actor, digest: string, p: Project) {
    a.uid != "" && Redeemable(l, now, digest, p) && RoomFor(l, c, p, a.uid)
  }

  /** When the request changes the stored project `p`, its subject. */
  predicate Guard(l: Ledger, c: Limits, now: int, q: Request, p: Project) {
    match q
    case DoActivate(a, opID, password) => MayActivate(l, now, a, opID, password, p)
    case DoAbort(who, opID) => MayAbort(l, now, who, opID, p)
    case DoTombstone(a, id, revision) =>
      Controls(a, p.owner) && p.status != Deleted && p.pendingOperation == "" && revision >= 1 && revision == p.revision
    case DoExpire(id) => p.status == Active && p.owner.kind == Anonymous && Expired(p, now) && p.pendingOperation == ""
    case DoSetPrivacy(a, id, revision, password) =>
      && Current(p, now, a, revision) && p.policyRevision != MAX_INT64
      && (password.Protected? ==> password.revision >= 1 && password.revision == p.policyRevision + 1)
    case DoSetWatermark(a, id, revision, enabled) =>
      Current(p, now, a, revision) && p.revision != MAX_INT64 && p.watermarkDisabled == enabled
    case DoClaim(a, id, revision) =>
      a.uid != "" && Current(p, now, a, revision) && p.owner.kind == Anonymous && RoomFor(l, c, p, a.uid)
    case DoRedeem(a, id, digest) => MayRedeem(l, c, now, a, digest, p)
    case DoSelect(a, id, opID, revision) =>
      && Current(p, now, a, revision) && Restorable(l, p, opID) && !Showing(p, l.operations[opID])
      && var digest := l.operations[opID].digest;
         digest in l.digests ==> l.digests[digest].projectID in {"", p.id}
    case DoRemove(a, id, opID, revision) =>
      Current(p, now, a, revision) && Restorable(l, p, opID) && !Showing(p, l.operations[opID])
    case _ => false
  }

  /* ---------- The effects ---------- */

  /** What the project becomes; everything that is not named stays. */
  function Edited(l: Ledger, now: int, q: Request, p: Project): Project {
    var later := p.(revision := p.revision + 1);
    match q
    case DoActivate(a, opID, password) =>
      if opID !in l.operations then p
      else
        var op := l.operations[opID];
        var shown :=
          later.(status := Active, pendingOperation := "", activeDigest := op.digest, activeBytes := op.bytes,
                            storageGeneration := op.storageGeneration, updatedAt := now,
                            createdAt := if op.isNew then now else p.createdAt,
                            expiresAt := if op.isNew && p.owner.kind == Anonymous then At(now + 7 * 24 * 3600)
                                         else p.expiresAt);
        if password.Open? then shown
        else shown.(isPrivate := true, passwordDigest := password.digest, passwordRevision := password.revision,
                    policyRevision := p.policyRevision + 1)
    case DoAbort(_, opID) =>
      p.(pendingOperation := "", status := if p.status == Reserved then Deleted else p.status)
    case DoTombstone(_, _, _) => later.(status := Deleted, policyRevision := p.policyRevision + 1)
    case DoExpire(_) => later.(status := Deleted, policyRevision := p.policyRevision + 1)
    case DoSetPrivacy(_, _, _, password) =>
      match password {
        case Open =>
          later.(isPrivate := false, passwordDigest := "", passwordRevision := 0,
                 policyRevision := p.policyRevision + 1)
        case Protected(digest, revision) =>
          later.(isPrivate := true, passwordDigest := digest, passwordRevision := revision,
                 policyRevision := p.policyRevision + 1)
      }
    case DoSetWatermark(_, _, _, enabled) => later.(watermarkDisabled := !enabled, updatedAt := now)
    case DoClaim(a, _, _) => later.(owner := Owner.Owner(Firebase, a.uid), expiresAt := Never)
    case DoRedeem(a, _, _) => later.(owner := Owner.Owner(Firebase, a.uid), expiresAt := Never)
    case DoSelect(_, _, opID, _) =>
      if opID !in l.operations then p
      else
        var op := l.operations[opID];
        later.(activeDigest := op.digest, activeBytes := op.bytes, storageGeneration := op.storageGeneration,
               policyRevision := p.policyRevision + 1, updatedAt := now)
    case DoRemove(_, _, _, _) => later.(updatedAt := now)
    case _ => p
  }

  /* ---------- The other answers ---------- */

  /** The operation's content is stored and the owner has not removed it. */
  predicate ContentHeld(l: Ledger, op: Operation) {
    var id := VersionId(op.projectID, op.digest, op.storageGeneration);
    && id !in l.removals && id in l.versions && l.versions[id].state == Retained
    && (op.storageGeneration == "" ==> (op.projectID, op.digest) !in l.retirements)
  }

  /** What the request asks for holds already, so a repetition succeeds and changes nothing. */
  predicate Settled(l: Ledger, now: int, q: Request, p: Project) {
    match q
    case DoActivate(a, opID, password) =>
      && OwnOperation(l, now, a, opID, p) && l.operations[opID].state == Complete && ContentHeld(l, l.operations[opID])
      && (password.Protected? ==> p.isPrivate)
    case DoAbort(who, opID) =>
      && opID in l.operations && (who.ByOwner? ==> l.operations[opID].owner == Caller(who.a))
      && (l.operations[opID].state != Pending || (who.ByMaintenance? && now < l.operations[opID].expiresAt))
    case DoTombstone(a, _, _) => Controls(a, p.owner) && p.status == Deleted
    case DoSetWatermark(a, _, revision, enabled) =>
      Current(p, now, a, revision) && p.revision != MAX_INT64 && p.watermarkDisabled != enabled
    case DoClaim(a, _, revision) => a.uid != "" && Current(p, now, a, revision) && p.owner.kind == Firebase
    case DoSelect(a, _, opID, revision) =>
      Current(p, now, a, revision) && Restorable(l, p, opID) && Showing(p, l.operations[opID])
    case _ => false
  }

  predicate SignedIn(q: Request) {
    match q
    case DoClaim(a, _, _) => a.uid != ""
    case DoRedeem(a, _, _) => a.uid != ""
    case _ => true
  }

  predicate WellFormed(q: Request) {
    match q
    case DoActivate(_, _, password) => password.Protected? ==> password.revision >= 2
    case DoTombstone(_, _, revision) => revision >= 1
    case DoSetPrivacy(_, _, revision, password) => revision >= 1 && (password.Protected? ==> password.revision >= 1)
    case DoSetWatermark(_, _, revision, _) => revision >= 1
    case DoClaim(_, _, revision) => revision >= 1
    case DoSelect(_, _, _, revision) => revision >= 1
    case DoRemove(_, _, _, revision) => revision >= 1
    case _ => true
  }

  /** The caller may know that the subject exists. */
  predicate Visible(l: Ledger, now: int, q: Request, p: Project) {
    match q
    case DoActivate(a, opID, password) =>
      && OwnOperation(l, now, a, opID, p)
      && (Ready(l, now, a, opID, password, p) ==> l.operations[opID].digest in l.digests)
    case DoAbort(who, opID) => opID in l.operations && (who.ByOwner? ==> l.operations[opID].owner == Caller(who.a))
    case DoTombstone(a, _, _) => Controls(a, p.owner)
    case DoSetPrivacy(a, _, _, _) => Own(p, now, a)
    case DoSetWatermark(a, _, _, _) => Own(p, now, a)
    case DoClaim(a, _, _) => Own(p, now, a)
    case DoRedeem(a, _, digest) => Redeemable(l, now, digest, p)
    case DoSelect(a, _, opID, revision) =>
      Own(p, now, a) && (Current(p, now, a, revision) ==> Restorable(l, p, opID))
    case DoRemove(a, _, opID, revision) =>
      Own(p, now, a) && (Current(p, now, a, revision) ==> Restorable(l, p, opID))
    case _ => true
  }

  /** Why a request that neither changes anything nor is settled fails. */
  function Reason(l: Ledger, now: int, q: Request): Failure {
    var id := SubjectOf(l, q);
    if !SignedIn(q) then Forbidden
    else if !WellFormed(q) then Malformed
    else if id !in l.projects || !Visible(l, now, q, l.projects[id]) then NotFound
    else if q.DoRedeem? || (q.DoClaim? && Current(l.projects[id], now, q.a, q.revision)) then QuotaExceeded
    else Conflict
  }

  /**
   The subject changes if the guard holds, and nobody else does; otherwise the whole ledger stays as it is, and the
   answer is success if the request is settled and one reason if not.
   */
  ghost predicate EditsExactly(l: Ledger, c: Limits, now: int, q: Request, r: Result<Ledger>) {
    var id := SubjectOf(l, q);
    if id in l.projects && Guard(l, c, now, q, l.projects[id])
    then r.Ok? && r.value.projects == l.projects[id := Edited(l, now, q, l.projects[id])]
    else if q.DoExpire? || (id in l.projects && WellFormed(q) && Settled(l, now, q, l.projects[id])) then r == Ok(l)
    else r == Err(Reason(l, now, q))
  }

  /* ---------- One lemma per request ---------- */

  lemma OwnsMeans(a: Actor, o: Owner)
    ensures a.Owns(o) <==> Controls(a, o)
    ensures a.Identity() == Caller(a)
  {}

  lemma EditableMeans(l: Ledger, now: int, a: Actor, id: string, revision: int)
    ensures Editable(l, now, a, id, revision).Ok? <==> id in l.projects && Current(l.projects[id], now, a, revision)
    ensures Editable(l, now, a, id, revision).Ok? ==> Editable(l, now, a, id, revision).value == l.projects[id]
    ensures Editable(l, now, a, id, revision).Ok? ==> revision >= 1 && Own(l.projects[id], now, a)
    ensures Editable(l, now, a, id, revision).Err? ==>
            Editable(l, now, a, id, revision).failure ==
            if revision < 1 then Malformed
            else if id !in l.projects || !Own(l.projects[id], now, a) then NotFound else Conflict
  {
    hide Controls, Actor.Owns;
    if id in l.projects { OwnsMeans(a, l.projects[id].owner); }
  }

  /** A change that keeps owner, status and what is served touches no derived record, so it can always be stored. */
  lemma QuietPut(before: Ledger, next: Project)
    requires next.id in before.projects
    requires var p := before.projects[next.id];
             next.owner == p.owner && next.status == p.status && next.activeDigest == p.activeDigest
             && next.activeBytes == p.activeBytes && next.storageGeneration == p.storageGeneration
             && next.pendingOperation == p.pendingOperation
    ensures PutProject(before, next).Ok? && PutProject(before, next).value.projects == before.projects[next.id := next]
  {}

  lemma SetPrivacyExactly(l: Ledger, c: Limits, now: int, a: Actor, id: string, revision: int, password: Password)
    requires Inv(l, c, now)
    ensures EditsExactly(l, c, now, DoSetPrivacy(a, id, revision, password),
                         SetPrivacy(l, now, a, id, revision, password))
  {
    hide Inv, PutProject, Current, Editable, QueueKept;
    EditableMeans(l, now, a, id, revision);
    InvIdentified(l, c, now);
    if id in l.projects && Guard(l, c, now, DoSetPrivacy(a, id, revision, password), l.projects[id]) {
      QuietPut(l, Edited(l, now, DoSetPrivacy(a, id, revision, password), l.projects[id]));
    }
  }

  lemma SetWatermarkExactly(l: Ledger, c: Limits, now: int, a: Actor, id: string, revision: int, enabled: bool)
    requires Inv(l, c, now)
    ensures EditsExactly(l, c, now, DoSetWatermark(a, id, revision, enabled),
                         SetWatermark(l, now, a, id, revision, enabled))
  {
    hide Inv, PutProject, Current, Editable, QueueKept;
    EditableMeans(l, now, a, id, revision);
    InvIdentified(l, c, now);
    if id in l.projects && Current(l.projects[id], now, a, revision) {
      var p := l.projects[id];
      QuietPut(l, p.(watermarkDisabled := !enabled, revision := p.revision + 1, updatedAt := now));
    }
  }

  lemma DeletingExactly(l: Ledger, c: Limits, now: int, before: Ledger, p: Project)
    requires Inv(l, c, now) && p.id in l.projects && p == l.projects[p.id] && p.status != Deleted
    requires before == l.(transfers := before.transfers)
    ensures Deleting(before, p).Ok?
            && Deleting(before, p).value.projects ==
               l.projects[p.id := p.(status := Deleted, revision := p.revision + 1,
                                     policyRevision := p.policyRevision + 1)]
  {
    hide Inv, PutProject, ServingOk, PendingOk, Release, QueueKept;
    PlacedHere(l, c, now, p.id);
    OwnerCounted(l, c, now, p.id);
    var q := ReadQuota(l.quotas, p.owner).value;
    var next := p.(status := Deleted, revision := p.revision + 1, policyRevision := p.policyRevision + 1);
    DeletedServes(next, l);
    PutSucceeds(l, c, now, before.(quotas := l.quotas[p.owner := q.(count := q.count - 1)],
                                   digests := Release(l.digests, p.activeDigest, p.id)), next);
  }

  lemma TombstoneExactly(l: Ledger, c: Limits, now: int, a: Actor, id: string, revision: int)
    requires Inv(l, c, now)
    ensures EditsExactly(l, c, now, DoTombstone(a, id, revision), Tombstone(l, a, id, revision))
  {
    hide Inv, Deleting, Controls, Actor.Owns;
    InvIdentified(l, c, now);
    if id in l.projects {
      OwnsMeans(a, l.projects[id].owner);
      if l.projects[id].status != Deleted {
        DeletingExactly(l, c, now, l.(transfers := l.transfers - {id}), l.projects[id]);
      }
    }
  }

  lemma ExpireExactly(l: Ledger, c: Limits, now: int, id: string)
    requires Inv(l, c, now)
    ensures EditsExactly(l, c, now, DoExpire(id), Expire(l, now, id))
  {
    hide Inv, Deleting;
    InvIdentified(l, c, now);
    if id in l.projects && l.projects[id].status != Deleted { DeletingExactly(l, c, now, l, l.projects[id]); }
  }

  /* ---------- Moving ---------- */

  /** A published project is charged, and its owner is charged and counted for it. */
  lemma ChargedHere(l: Ledger, c: Limits, now: int, p: Project)
    requires Inv(l, c, now) && p.id in l.projects && p == l.projects[p.id] && p.status == Active
    ensures 0 < p.chargedBytes && p.owner in l.quotas && ReadQuota(l.quotas, p.owner).Ok?
    ensures var q := l.quotas[p.owner]; p.chargedBytes <= q.charged && q.count >= 1
  {
    hide Linked, Publishing, VersionsOk, BlocksOk, Pools, LiveOk, Queued, Indexed, Digested, Named, AllocationsOk,
      Assigned, Total, Sum, Limits.Bytes, Limits.Count, Identified;
    var id := CurrentVersion(p);
    assert ServingOk(p, l.versions, l.removals);
    ChargeOfVersion(l, c, now, id);
    OwnerCounted(l, c, now, p.id);
    ChargeOfProject(l, c, now, p);
  }

  lemma ChargeOfVersion(l: Ledger, c: Limits, now: int, id: VersionId)
    requires Inv(l, c, now) && id in l.versions && l.versions[id].state != Reclaimed
    ensures id.project in l.projects && 0 < l.versions[id].quotaBytes <= l.projects[id.project].chargedBytes
  {
    hide Linked, Serving, Publishing, BlocksOk, Pools, LiveOk, Queued, Quotas, Indexed, Digested, Named, AllocationsOk,
      Assigned, Sum, MeasuredOk, Identified;
    forall k | k in l.versions
      ensures Weigh(QuotaOf(id.project), k, l.versions[k]) >= 0
    {
      assert LifecycleOk(l.versions[k], l.projects[k.project].status == Deleted);
    }
    SumNonNegative(l.versions, QuotaOf(id.project));
    assert LifecycleOk(l.versions[id], l.projects[id.project].status == Deleted);
    assert Weigh(QuotaOf(id.project), id, l.versions[id]) == l.versions[id].quotaBytes;
  }

  lemma ChargeOfProject(l: Ledger, c: Limits, now: int, p: Project)
    requires Inv(l, c, now) && p.id in l.projects && p == l.projects[p.id]
    ensures p.chargedBytes <= QuotaAt(l.quotas, p.owner).charged
  {
    hide Linked, Serving, Publishing, BlocksOk, Pools, LiveOk, Queued, Indexed, Digested, Named, AllocationsOk,
      Assigned, Sum, Total, VersionsOk, Limits.Bytes, Limits.Count, Identified, ProjectCharges;
    assert QuotaOk(l.quotas, l.projects, c, p.owner);
    forall k | k in l.projects
      ensures WeighProject(ChargedOf(p.owner), l.projects[k]) >= 0
    {
      NotNegative(l, c, now, k);
    }
    TotalNonNegative(l.projects, ChargedOf(p.owner));
    assert WeighProject(ChargedOf(p.owner), p) == p.chargedBytes;
  }

  lemma NotNegative(l: Ledger, c: Limits, now: int, id: string)
    requires Inv(l, c, now) && id in l.projects
    ensures l.projects[id].chargedBytes >= 0
  {
    hide Linked, Serving, Publishing, BlocksOk, Pools, LiveOk, Queued, Indexed, Digested, Named, AllocationsOk,
      Assigned, Sum, Quotas, MeasuredOk;
    ChargesNonNegative(l, id);
  }

  /** The index of an account is as long as its count. */
  lemma IndexLength(l: Ledger, c: Limits, now: int, o: Owner)
    requires Inv(l, c, now)
    ensures |IndexAt(l.index, o)| == QuotaAt(l.quotas, o).count
    ensures forall id :: id in O.Elements(IndexAt(l.index, o)) ==> id in l.projects && l.projects[id].owner == o
    ensures 0 <= QuotaAt(l.quotas, o).charged && (o in l.quotas ==> ReadQuota(l.quotas, o).Ok?)
  {
    hide Linked, Serving, Publishing, VersionsOk, BlocksOk, Pools, LiveOk, Queued, ProjectCharges, Digested, Named,
      AllocationsOk, Assigned, Total, O.Sorted, O.Elements, Limits.Bytes, Limits.Count;
    assert QuotaOk(l.quotas, l.projects, c, o) && IndexOk(IndexAt(l.index, o), OwnedBy(l.projects, o));
    CountIsSize(l.projects, o);
    SortedLength(IndexAt(l.index, o));
  }

  lemma {:induction false} SortedLength(ids: seq<string>)
    requires O.Sorted(ids)
    ensures |O.Elements(ids)| == |ids|
  {
    if ids != [] {
      O.SplitFirst(ids);
      SortedLength(ids[1..]);
    }
  }

  /** Storing a project under another owner fails only if that owner's index is full. */
  lemma MovedPut(before: Ledger, next: Project)
    requires next.id in before.projects
    requires var p := before.projects[next.id];
             && next == p.(owner := next.owner, expiresAt := next.expiresAt, revision := next.revision)
             && next.owner != p.owner && p.status != Deleted
    requires next.id !in O.Elements(IndexAt(before.index, next.owner))
    ensures PutProject(before, next).Ok? <==> |IndexAt(before.index, next.owner)| < 1000
    ensures PutProject(before, next).Err? ==> PutProject(before, next).failure == QuotaExceeded
    ensures PutProject(before, next).Ok? ==> PutProject(before, next).value.projects == before.projects[next.id := next]
  {
    hide O.Elements, O.Insert, O.Remove;
  }

  lemma MoveExactly(l: Ledger, c: Limits, now: int, p: Project, uid: string)
    requires Inv(l, c, now) && p.id in l.projects && p == l.projects[p.id] && p.status == Active
             && p.owner.kind == Anonymous
    ensures MoveToAccount(l, c, p, uid).Ok? <==> RoomFor(l, c, p, uid)
    ensures MoveToAccount(l, c, p, uid).Err? ==> MoveToAccount(l, c, p, uid).failure == QuotaExceeded
    ensures MoveToAccount(l, c, p, uid).Ok? ==>
            MoveToAccount(l, c, p, uid).value.projects ==
            l.projects[p.id := p.(owner := Owner.Owner(Firebase, uid), expiresAt := Never, revision := p.revision + 1)]
  {
    hide Inv, PutProject, O.Elements, Limits.Bytes, Limits.Count, QueueKept;
    var account := Owner.Owner(Firebase, uid);
    ChargedHere(l, c, now, p);
    IndexLength(l, c, now, account);
    var from, to := l.quotas[p.owner], QuotaAt(l.quotas, account);
    var quotas := l.quotas[p.owner := Quota(from.count - 1, from.charged - p.chargedBytes)]
                          [account := Quota(to.count + 1, to.charged + p.chargedBytes)];
    MovedPut(l.(quotas := quotas, transfers := l.transfers - {p.id}),
             p.(owner := account, expiresAt := Never, revision := p.revision + 1));
  }

  lemma ClaimExactly(l: Ledger, c: Limits, now: int, a: Actor, id: string, revision: int)
    requires Inv(l, c, now)
    ensures EditsExactly(l, c, now, DoClaim(a, id, revision), Claim(l, c, now, a, id, revision))
  {
    hide Inv, MoveToAccount, RoomFor, Editable;
    EditableMeans(l, now, a, id, revision);
    InvIdentified(l, c, now);
    if id in l.projects && l.projects[id].status == Active && l.projects[id].owner.kind == Anonymous {
      MoveExactly(l, c, now, l.projects[id], a.uid);
    }
  }

  lemma RedeemExactly(l: Ledger, c: Limits, now: int, a: Actor, id: string, digest: string)
    requires Inv(l, c, now)
    ensures EditsExactly(l, c, now, DoRedeem(a, id, digest), Redeem(l, c, now, a, id, digest))
  {
    hide Inv, MoveToAccount, RoomFor;
    InvIdentified(l, c, now);
    if id in l.projects && l.projects[id].status == Active && l.projects[id].owner.kind == Anonymous {
      MoveExactly(l, c, now, l.projects[id], a.uid);
    }
  }

  /* ---------- Publications ---------- */

  lemma AvailableMeans(l: Ledger, c: Limits, now: int, p: Project, opID: string)
    requires Inv(l, c, now) && p.id in l.projects && p == l.projects[p.id]
    ensures AvailableRevision(l, p, opID).Ok? <==> Restorable(l, p, opID)
    ensures AvailableRevision(l, p, opID).Ok? ==> AvailableRevision(l, p, opID).value == l.operations[opID]
    ensures AvailableRevision(l, p, opID).Err? ==> AvailableRevision(l, p, opID).failure == NotFound
  {
    hide Linked, Serving, Publishing, BlocksOk, Pools, LiveOk, Queued, ProjectCharges, Quotas, Indexed, Digested, Named,
      AllocationsOk, Assigned, MeasuredOk;
  }

  lemma SelectExactly(l: Ledger, c: Limits, now: int, a: Actor, id: string, opID: string, revision: int)
    requires Inv(l, c, now)
    ensures EditsExactly(l, c, now, DoSelect(a, id, opID, revision), SelectRevision(l, now, a, id, opID, revision))
  {
    hide Inv, Reselect, Editable, AvailableRevision, Current;
    EditableMeans(l, now, a, id, revision);
    InvIdentified(l, c, now);
    if id in l.projects && Current(l.projects[id], now, a, revision) {
      var p := l.projects[id];
      AvailableMeans(l, c, now, p, opID);
      LiveNow(p, now, a, revision);
      if Restorable(l, p, opID) { ReselectSucceeds(l, c, now, p, opID); }
    }
  }

  lemma LiveNow(p: Project, now: int, a: Actor, revision: int)
    requires Current(p, now, a, revision)
    ensures p.Live(now) && p.pendingOperation == "" && p.status == Active
  {}

  lemma RemoveExactly(l: Ledger, c: Limits, now: int, a: Actor, id: string, opID: string, revision: int)
    requires Inv(l, c, now)
    ensures EditsExactly(l, c, now, DoRemove(a, id, opID, revision), RemoveRevision(l, now, a, id, opID, revision))
  {
    hide Inv, PutProject, Editable, AvailableRevision, Current, QueueKept;
    EditableMeans(l, now, a, id, revision);
    InvIdentified(l, c, now);
    if id in l.projects && Current(l.projects[id], now, a, revision) {
      var p := l.projects[id];
      AvailableMeans(l, c, now, p, opID);
      if Restorable(l, p, opID) {
        QuietPut(Removed(l, p, l.operations[opID]), p.(revision := p.revision + 1, updatedAt := now));
      }
    }
  }

  /** What is known of a pending operation and its project. */
  lemma PendingMeans(l: Ledger, c: Limits, now: int, opID: string)
    requires Inv(l, c, now) && opID in l.operations
    ensures var op := l.operations[opID];
            && op.id == opID && opID != "" && op.projectID in l.projects && l.projects[op.projectID].id == op.projectID
            && (op.state == Pending <==> l.projects[op.projectID].pendingOperation == opID)
            && (op.state == Complete ==> (Usable(l, l.projects[op.projectID], op) <==> ContentHeld(l, op)))
            && (op.state == Pending ==>
                  && l.projects[op.projectID].status != Deleted
                  && (op.isNew <==> l.projects[op.projectID].status == Reserved)
                  && (Usable(l, l.projects[op.projectID], op) <==>
                        (op.storageGeneration == "" ==> (op.projectID, op.digest) !in l.retirements)))
  {
    hide BlocksOk, Pools, LiveOk, Queued, ProjectCharges, Quotas, Indexed, Digested, Named, AllocationsOk, Assigned,
      MeasuredOk, Serving;
    var op := l.operations[opID];
    assert PendingOk(l.projects[op.projectID], l.operations) && PublishOk(op, l.versions, l.removals);
  }

  lemma ActivatedIsEdited(l: Ledger, now: int, p: Project, a: Actor, opID: string, password: Password)
    requires opID in l.operations
    ensures Edited(l, now, DoActivate(a, opID, password), p) == Activated(p, l.operations[opID], password, now)
  {}

  lemma InstallsAny(l: Ledger, c: Limits, now: int, p: Project, op: Operation, password: Password)
    requires Inv(l, c, now) && op.id in l.operations && op == l.operations[op.id] && op.state == Pending
             && op.projectID == p.id && p.id in l.projects && p == l.projects[p.id] && Usable(l, p, op)
    ensures Install(l, now, p, op, password).Ok?
            && Install(l, now, p, op, password).value.projects == l.projects[p.id := Activated(p, op, password, now)]
  {
    hide Inv, PutProject, Activated, Release, ServingOk, QueueKept, Usable, PublishOk;
    PendingHere(l, c, now, op);
    ActivatedServing(l, p, op, password, now);
    ActivatedShape(p, op, password, now);
    var released :=
      if p.activeDigest != "" && p.activeDigest != op.digest then Release(l.digests, p.activeDigest, p.id)
      else l.digests;
    PutSucceeds(l, c, now,
                l.(operations := l.operations[op.id := op.(state := Complete, publishedAt := now)],
                   digests := released[op.digest := DigestRecord(p.id, "")]), Activated(p, op, password, now));
  }

  lemma ActivateExactly(l: Ledger, c: Limits, now: int, a: Actor, opID: string, password: Password)
    requires Inv(l, c, now)
    ensures EditsExactly(l, c, now, DoActivate(a, opID, password), Activate(l, now, a, opID, password))
  {
    hide Inv, Install, Usable, Controls, Actor.Owns, Edited, Actor.Identity, Caller;
    if opID in l.operations {
      PendingMeans(l, c, now, opID);
      var op := l.operations[opID];
      var p := l.projects[op.projectID];
      OwnsMeans(a, p.owner);
      ActivatedIsEdited(l, now, p, a, opID, password);
      if op.state == Pending && Usable(l, p, op) { InstallsAny(l, c, now, p, op, password); }
    }
  }

  lemma WithdrawsAny(l: Ledger, c: Limits, now: int, p: Project, op: Operation)
    requires Inv(l, c, now) && op.id in l.operations && op == l.operations[op.id] && op.state == Pending
             && op.projectID == p.id && p.id in l.projects && p == l.projects[p.id]
    ensures ReadQuota(l.quotas, p.owner).Ok? && ReadQuota(l.quotas, p.owner).value.count >= 1
    ensures var q := ReadQuota(l.quotas, p.owner).value;
            var withdrawn :=
              l.(digests := Withdrawn(l.digests, p, op), operations := l.operations[op.id := op.(state := Aborted)]);
            && PutProject(withdrawn, p.(pendingOperation := "")).Ok?
            && PutProject(withdrawn.(quotas := l.quotas[p.owner := q.(count := q.count - 1)],
                                     slugs := l.slugs - {p.slug}),
                          p.(pendingOperation := "", status := Deleted)).Ok?
  {
    hide Inv, PutProject, Withdrawn, ServingOk, PublishOk, PendingOk;
    PendingHere(l, c, now, op);
    PlacedHere(l, c, now, p.id);
    OwnerCounted(l, c, now, p.id);
    var q := ReadQuota(l.quotas, p.owner).value;
    var withdrawn :=
      l.(digests := Withdrawn(l.digests, p, op), operations := l.operations[op.id := op.(state := Aborted)]);
    var gone := p.(pendingOperation := "", status := Deleted);
    DeletedServes(gone, l);
    PutSucceeds(l, c, now, withdrawn.(quotas := l.quotas[p.owner := q.(count := q.count - 1)],
                                      slugs := l.slugs - {p.slug}), gone);
    StillServes(p, p.(pendingOperation := ""), l);
    PutSucceeds(l, c, now, withdrawn, p.(pendingOperation := ""));
  }

  lemma AbortExactly(l: Ledger, c: Limits, now: int, who: Aborter, opID: string)
    requires Inv(l, c, now)
    ensures EditsExactly(l, c, now, DoAbort(who, opID), Abort(l, now, who, opID))
  {
    hide Inv, Controls, Actor.Owns, Actor.Identity, Caller, PutProject, Usable, Withdrawn, QueueKept;
    if opID in l.operations {
      PendingMeans(l, c, now, opID);
      var op := l.operations[opID];
      var p := l.projects[op.projectID];
      if who.ByOwner? { OwnsMeans(who.a, p.owner); }
      if op.state == Pending { WithdrawsAny(l, c, now, p, op); }
    }
  }

  /**
   Every edit is exact: its subject changes if and only if the guard holds, it becomes exactly the edited project, and
   nothing inside the ledger can refuse it then.
   */
  lemma EditsAreExact(l: Ledger, c: Limits, now: int, q: Request)
    requires Inv(l, c, now) && IsEdit(q)
    ensures EditsExactly(l, c, now, q, Perform(l, c, now, q))
  {
    hide Inv, EditsExactly, Activate, Abort, Tombstone, Expire, SetPrivacy, SetWatermark, Claim, Redeem, SelectRevision,
      RemoveRevision;
    match q {
      case DoActivate(a, opID, password) => ActivateExactly(l, c, now, a, opID, password);
      case DoAbort(who, opID) => AbortExactly(l, c, now, who, opID);
      case DoTombstone(a, id, revision) => TombstoneExactly(l, c, now, a, id, revision);
      case DoExpire(id) => ExpireExactly(l, c, now, id);
      case DoSetPrivacy(a, id, revision, password) => SetPrivacyExactly(l, c, now, a, id, revision, password);
      case DoSetWatermark(a, id, revision, enabled) => SetWatermarkExactly(l, c, now, a, id, revision, enabled);
      case DoClaim(a, id, revision) => ClaimExactly(l, c, now, a, id, revision);
      case DoRedeem(a, id, digest) => RedeemExactly(l, c, now, a, id, digest);
      case DoSelect(a, id, opID, revision) => SelectExactly(l, c, now, a, id, opID, revision);
      case DoRemove(a, id, opID, revision) => RemoveExactly(l, c, now, a, id, opID, revision);
    }
  }

  /* ---------- Renaming ---------- */

  /** A well-formed name that is not reserved, and that nobody or the project itself holds. */
  predicate NameAvailable(l: Ledger, id: string, name: string) {
    && ValidSlug(name) && name !in {"api", "admin", "agents", "agent", "oauth", "unlock", "healthz", "readyz"}
    && (name in l.slugs && l.slugs[name] in l.projects ==>
        l.slugs[name] == id || l.projects[l.slugs[name]].status == Deleted)
  }

  /** The project under another name; a name it has not had before counts as one more. */
  ghost predicate RenamedTo(p: Project, next: Project, name: string) {
    && next.slug == (if next.initialSuffix == "" then name else name + "-" + next.initialSuffix)
    && next.initialSlug == (if p.initialSlug == "" then p.slug else p.initialSlug)
    && next.aliasCount in {p.aliasCount, p.aliasCount + 1}
    && next == p.(slug := next.slug, initialSlug := next.initialSlug, initialSuffix := next.initialSuffix,
                  aliasCount := next.aliasCount, revision := p.revision + 1, policyRevision := p.policyRevision + 1)
  }

  /** A rename needs the current project of its owner, changes nothing but names, and gives the name or one derived from
     it. */
  lemma RenameOnly(l: Ledger, c: Limits, now: int, a: Actor, id: string, name: string, revision: int, hashed: string)
    requires Inv(l, c, now) && Rename(l, now, a, id, name, revision, hashed).Ok?
    ensures var m := Rename(l, now, a, id, name, revision, hashed).value;
            && id in l.projects && Current(l.projects[id], now, a, revision)
            && (m.projects == l.projects
                || (id in m.projects && m.projects == l.projects[id := m.projects[id]]
                    && RenamedTo(l.projects[id], m.projects[id], name)))
  {
    hide Inv, PutProject, Current, Editable, QueueKept, ChooseSlug;
    EditableMeans(l, now, a, id, revision);
    InvIdentified(l, c, now);
    var p := l.projects[id];
    var seed := RenameSeed(p, hashed);
    var choice := ChooseSlug(l, name, seed, id, SUFFIX_LENGTHS).value;
    ChosenShape(l, name, seed, id, SUFFIX_LENGTHS);
    assert RenamedTo(p, Renamed(p, choice, NewAlias(l, id, choice.slug)), name);
  }

  lemma {:induction false} ChosenShape(l: Ledger, name: string, seed: string, id: string, lengths: seq<nat>)
    requires ChooseSlug(l, name, seed, id, lengths).Ok?
    ensures var choice := ChooseSlug(l, name, seed, id, lengths).value;
            choice.slug == if choice.suffix == "" then name else name + "-" + choice.suffix
  {
    if lengths != [] && (|seed| < lengths[0]
                         || ChooseSlug(l, name, seed, id, lengths[1..]) == ChooseSlug(l, name, seed, id, lengths)) {
      ChosenShape(l, name, seed, id, lengths[1..]);
    }
  }

  /** An owner gets the name that was asked for, if it is available and not one too many. */
  lemma RenameSucceeds(l: Ledger, c: Limits, now: int, a: Actor, id: string, name: string, revision: int,
                       hashed: string)
    requires Inv(l, c, now) && id in l.projects && Current(l.projects[id], now, a, revision)
    requires NameAvailable(l, id, name) && l.projects[id].aliasCount < 100
    ensures Rename(l, now, a, id, name, revision, hashed).Ok?
    ensures id in Rename(l, now, a, id, name, revision, hashed).value.projects
            && Rename(l, now, a, id, name, revision, hashed).value.projects[id].slug == name
  {
    hide Inv, Current, Editable, NameAvailable, Rename;
    EditableMeans(l, now, a, id, revision);
    InvIdentified(l, c, now);
    SlugsKnown(l, c, now, name);
    FirstChoice(l, name, RenameSeed(l.projects[id], hashed), id);
    RenameChosen(l, now, a, id, name, revision, hashed, SlugChoice(name, ""));
  }

  lemma RenameChosen(l: Ledger, now: int, a: Actor, id: string, name: string, revision: int, hashed: string,
                     choice: SlugChoice)
    requires Editable(l, now, a, id, revision).Ok? && id in l.projects
             && Editable(l, now, a, id, revision).value == l.projects[id] && l.projects[id].id == id
    requires ChooseSlug(l, name, RenameSeed(l.projects[id], hashed), id, SUFFIX_LENGTHS) == Ok(choice)
    requires l.projects[id].aliasCount < 100
             && (!NewAlias(l, id, choice.slug) ==> choice.slug in l.slugs && l.slugs[choice.slug] == id)
    ensures Rename(l, now, a, id, name, revision, hashed).Ok?
    ensures id in Rename(l, now, a, id, name, revision, hashed).value.projects
            && Rename(l, now, a, id, name, revision, hashed).value.projects[id].slug == choice.slug
  {
    hide Editable, ChooseSlug, NewAlias, PutProject, Renamed, QueueKept, RenameSeed;
    var p, isNew := l.projects[id], NewAlias(l, id, choice.slug);
    RenamedPut(if isNew then WithName(l, id, choice.slug) else l, p, choice, isNew);
  }

  lemma RenamedPut(before: Ledger, p: Project, choice: SlugChoice, isNew: bool)
    requires p.id in before.projects && p == before.projects[p.id]
    ensures PutProject(before, Renamed(p, choice, isNew)).Ok?
    ensures PutProject(before, Renamed(p, choice, isNew)).value.projects ==
            before.projects[p.id := Renamed(p, choice, isNew)]
    ensures Renamed(p, choice, isNew).slug == choice.slug
  {
    hide PutProject, QueueKept;
    QuietPut(before, Renamed(p, choice, isNew));
  }

  lemma FirstChoice(l: Ledger, name: string, seed: string, id: string)
    requires NameAvailable(l, id, name) && (name in l.slugs ==> l.slugs[name] in l.projects)
    ensures ChooseSlug(l, name, seed, id, SUFFIX_LENGTHS) == Ok(SlugChoice(name, ""))
    ensures !NewAlias(l, id, name) ==> name in l.slugs && l.slugs[name] == id
  {
    hide ValidSlug;
    assert SUFFIX_LENGTHS[0] == 0;
    assert Candidate(name, seed, 0) == SlugChoice(name, "");
  }

  lemma SlugsKnown(l: Ledger, c: Limits, now: int, name: string)
    requires Inv(l, c, now)
    ensures name in l.slugs ==> l.slugs[name] in l.projects
  {
    hide Identified, Linked, Serving, Publishing, VersionsOk, BlocksOk, Pools, LiveOk, Queued, ProjectCharges, Quotas,
      Indexed, Digested, AllocationsOk, Assigned, NamesOk;
  }
}
