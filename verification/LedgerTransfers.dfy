/** How a project changes hands: by its owner's claim, or through a transfer that its owner created and left
    standing. */
module LedgerTransfers {
  import opened Projects
  import opened LedgerRules
  import opened LedgerInv
  import opened LedgerRuns
  import opened LedgerHistory
  import opened LedgerEdits
  import opened LedgerAuthority

  const TRANSFER_LIFETIME: int := 24 * 3600

  /* ---------- Creating and revoking ---------- */

  /** The caller's own live anonymous project, at the revision the caller has seen; it need not be idle. */
  predicate MayRevoke(l: Ledger, now: int, a: Actor, id: string, revision: int) {
    && id in l.projects
    && var p := l.projects[id];
       Controls(a, p.owner) && p.owner.kind == Anonymous && p.status == Active && !Expired(p, now) && revision >= 1
       && revision == p.revision
  }

  lemma CreateExactly(l: Ledger, now: int, a: Actor, id: string, revision: int, digest: string)
    ensures CreateTransfer(l, now, a, id, revision, digest).Ok? <==>
            id in l.projects && Current(l.projects[id], now, a, revision) && l.projects[id].owner.kind == Anonymous
    ensures CreateTransfer(l, now, a, id, revision, digest).Ok? ==>
            CreateTransfer(l, now, a, id, revision, digest).value ==
            l.(transfers := l.transfers[id := Transfer(l.projects[id].owner, digest, now + TRANSFER_LIFETIME)])
    ensures CreateTransfer(l, now, a, id, revision, digest).Err? ==>
            CreateTransfer(l, now, a, id, revision, digest).failure ==
            if revision < 1 then Malformed
            else if id !in l.projects || !Own(l.projects[id], now, a) then NotFound
            else if Current(l.projects[id], now, a, revision) then NotFound else Conflict
  {
    hide Editable, Current;
    EditableMeans(l, now, a, id, revision);
  }

  lemma RevokeExactly(l: Ledger, now: int, a: Actor, id: string, revision: int)
    ensures RevokeTransfer(l, now, a, id, revision).Ok? <==> MayRevoke(l, now, a, id, revision)
    ensures RevokeTransfer(l, now, a, id, revision).Ok? ==>
            RevokeTransfer(l, now, a, id, revision).value == l.(transfers := l.transfers - {id})
    ensures RevokeTransfer(l, now, a, id, revision).Err? ==>
            RevokeTransfer(l, now, a, id, revision).failure ==
            if revision < 1 then Malformed
            else if id !in l.projects || !Own(l.projects[id], now, a) || l.projects[id].owner.kind != Anonymous
              then NotFound
            else Conflict
  {
    hide Controls, Actor.Owns;
    if id in l.projects { OwnsMeans(a, l.projects[id].owner); }
  }

  /* ---------- One step ---------- */

  /** The step replaces or takes back the transfer of this project. */
  predicate Renews(q: Request, id: string) { (q.DoCreateTransfer? || q.DoRevokeTransfer?) && q.id == id }

  lemma MoveTransfers(l: Ledger, c: Limits, p: Project, uid: string)
    requires MoveToAccount(l, c, p, uid).Ok?
    ensures MoveToAccount(l, c, p, uid).value.transfers == l.transfers - {p.id}
  {
    hide PutProject, QueueKept, Limits.Bytes, Limits.Count, FitsBytes;
  }

  lemma DeletingTransfers(l: Ledger, p: Project)
    requires Deleting(l, p).Ok?
    ensures Deleting(l, p).value.transfers == l.transfers
  {
    hide PutProject, QueueKept, Release;
  }

  /** A deletion ends the transfer. */
  lemma TombstoneTransfers(l: Ledger, a: Actor, id: string, revision: int)
    requires Tombstone(l, a, id, revision).Ok?
    ensures id in l.projects
    ensures Tombstone(l, a, id, revision).value.transfers ==
            if l.projects[id].status == Deleted then l.transfers else l.transfers - {id}
  {
    hide Deleting, Actor.Owns;
    if l.projects[id].status != Deleted { DeletingTransfers(l.(transfers := l.transfers - {id}), l.projects[id]); }
  }

  lemma ExpireTransfers(l: Ledger, now: int, id: string)
    requires Expire(l, now, id).Ok?
    ensures Expire(l, now, id).value.transfers == l.transfers
  {
    hide Deleting;
    if id in l.projects && Deleting(l, l.projects[id]).Ok? { DeletingTransfers(l, l.projects[id]); }
  }

  /** So does a move, by whichever way. */
  lemma ClaimTransfers(l: Ledger, c: Limits, now: int, a: Actor, id: string, revision: int)
    requires Claim(l, c, now, a, id, revision).Ok? && Identified(l.projects, l.operations)
    ensures id in l.projects
    ensures Claim(l, c, now, a, id, revision).value.transfers ==
            if l.projects[id].owner.kind == Firebase then l.transfers else l.transfers - {id}
  {
    hide MoveToAccount, Editable, Current;
    EditableMeans(l, now, a, id, revision);
    if l.projects[id].owner.kind == Anonymous { MoveTransfers(l, c, l.projects[id], a.uid); }
  }

  lemma RedeemTransfers(l: Ledger, c: Limits, now: int, a: Actor, id: string, digest: string)
    requires Redeem(l, c, now, a, id, digest).Ok? && Identified(l.projects, l.operations)
    ensures Redeem(l, c, now, a, id, digest).value.transfers == l.transfers - {id}
  {
    hide MoveToAccount;
    MoveTransfers(l, c, l.projects[id], a.uid);
  }

  lemma ReserveTransfers(l: Ledger, c: Limits, now: int, a: Actor, r: Reservation, offers: seq<Offer>, op: OperationId)
    requires Reserve(l, c, now, a, r, offers, op).Ok?
    ensures Reserve(l, c, now, a, r, offers, op).value.transfers == l.transfers
  {
    hide Target, DigestBlocked, QuotaAfter, Allocate, ValidReservation, PutProject, Usable, QueueKept, VersionCharge;
  }

  lemma AcknowledgeTransfers(l: Ledger, id: VersionId, epoch: string, member: string)
    requires Acknowledge(l, id, epoch, member).Ok?
    ensures Acknowledge(l, id, epoch, member).value.transfers == l.transfers
  {
    hide Refunded, AllAcknowledged;
    var v := l.versions[id];
    var noted := v.(acknowledged := v.acknowledged + {member});
    if v.state == Retiring && AllAcknowledged(noted) { RefundedTransfers(l, id, noted); }
  }

  lemma RefundedTransfers(l: Ledger, id: VersionId, v: Version)
    requires Refunded(l, id, v).Ok?
    ensures Refunded(l, id, v).value.transfers == l.transfers
  {
    hide PutProject, QueueKept, Refund, Damaged;
  }

  lemma RetireTransfers(l: Ledger, now: int, id: VersionId, epoch: string, members: seq<string>)
    requires Retire(l, now, id, epoch, members).Ok?
    ensures Retire(l, now, id, epoch, members).value.transfers == l.transfers
  {
    hide Damaged, MayRetire, ValidMembers, Retired;
  }

  lemma ActivateTransfers(l: Ledger, now: int, a: Actor, opID: string, password: Password)
    requires Activate(l, now, a, opID, password).Ok?
    ensures Activate(l, now, a, opID, password).value.transfers == l.transfers
  {
    hide PutProject, QueueKept, Usable, Activated, Release, Actor.Owns;
  }

  lemma AbortTransfers(l: Ledger, now: int, who: Aborter, opID: string)
    requires Abort(l, now, who, opID).Ok?
    ensures Abort(l, now, who, opID).value.transfers == l.transfers
  {
    hide PutProject, QueueKept, Withdrawn, Actor.Owns, ReadQuota;
    var op := l.operations[opID];
    if op.state == Pending && !(who.ByMaintenance? && now < op.expiresAt) {
      var p := l.projects[op.projectID];
      var q := ReadQuota(l.quotas, p.owner).value;
      var withdrawn :=
        l.(digests := Withdrawn(l.digests, p, op), operations := l.operations[opID := op.(state := Aborted)]);
      if op.isNew {
        var gone := withdrawn.(quotas := l.quotas[p.owner := q.(count := q.count - 1)], slugs := l.slugs - {p.slug});
        PutTransfers(gone, p.(pendingOperation := "", status := Deleted));
      } else {
        PutTransfers(withdrawn, p.(pendingOperation := ""));
      }
    }
  }

  lemma PutTransfers(l: Ledger, next: Project)
    ensures PutProject(l, next).Ok? ==> PutProject(l, next).value.transfers == l.transfers
  {
    hide PutProject, QueueKept;
  }

  lemma PolicyTransfers(l: Ledger, now: int, a: Actor, id: string, revision: int, password: Password, enabled: bool)
    ensures SetPrivacy(l, now, a, id, revision, password).Ok? ==>
            SetPrivacy(l, now, a, id, revision, password).value.transfers == l.transfers
    ensures SetWatermark(l, now, a, id, revision, enabled).Ok? ==>
            SetWatermark(l, now, a, id, revision, enabled).value.transfers == l.transfers
  {
    hide PutProject, QueueKept, Editable;
  }

  lemma SelectTransfers(l: Ledger, now: int, a: Actor, id: string, opID: string, revision: int)
    requires SelectRevision(l, now, a, id, opID, revision).Ok?
    ensures SelectRevision(l, now, a, id, opID, revision).value.transfers == l.transfers
  {
    hide PutProject, QueueKept, Editable, Release, AvailableRevision, Reselected;
  }

  lemma RemoveTransfers(l: Ledger, now: int, a: Actor, id: string, opID: string, revision: int)
    requires RemoveRevision(l, now, a, id, opID, revision).Ok?
    ensures RemoveRevision(l, now, a, id, opID, revision).value.transfers == l.transfers
  {
    hide PutProject, QueueKept, Editable, AvailableRevision;
  }

  lemma RenameTransfers(l: Ledger, now: int, a: Actor, id: string, name: string, revision: int, hashed: string)
    requires Rename(l, now, a, id, name, revision, hashed).Ok?
    ensures Rename(l, now, a, id, name, revision, hashed).value.transfers == l.transfers
  {
    hide PutProject, QueueKept, Editable, ChooseSlug, NewAlias, Renamed;
  }

  lemma ReconcileTransfers(l: Ledger, c: Limits, now: int, q: Request)
    requires Perform(l, c, now, q).Ok? && (q.DoReconcile? || q.DoSetControl?)
    ensures Perform(l, c, now, q).value.transfers == l.transfers
  {}

  /** A successful request of this kind deletes its project or moves it to an account. */
  predicate Ends(l: Ledger, q: Request) {
    || (q.DoTombstone? && q.id in l.projects && l.projects[q.id].status != Deleted)
    || (q.DoClaim? && q.id in l.projects && l.projects[q.id].owner.kind == Anonymous)
    || q.DoRedeem?
  }

  /** A request that neither creates nor revokes a transfer ends at most that of a project it deletes or moves. */
  lemma TransfersAfter(l: Ledger, c: Limits, now: int, q: Request)
    requires Inv(l, c, now) && Perform(l, c, now, q).Ok? && !q.DoCreateTransfer? && !q.DoRevokeTransfer?
    ensures var m := Perform(l, c, now, q).value;
            m.transfers == if Ends(l, q) then l.transfers - {q.id} else l.transfers
  {
    hide Inv, Identified, Reserve, Activate, Abort, Tombstone, Expire, SetPrivacy, SetWatermark, Rename, Claim, Redeem,
      SelectRevision, RemoveRevision, Retire, Acknowledge;
    InvIdentified(l, c, now);
    match q {
      case DoReserve(a, r, offers, op) => ReserveTransfers(l, c, now, a, r, offers, op);
      case DoActivate(a, opID, password) => ActivateTransfers(l, now, a, opID, password);
      case DoAbort(who, opID) => AbortTransfers(l, now, who, opID);
      case DoTombstone(a, id, revision) => TombstoneTransfers(l, a, id, revision);
      case DoExpire(id) => ExpireTransfers(l, now, id);
      case DoSetPrivacy(a, id, revision, password) => PolicyTransfers(l, now, a, id, revision, password, true);
      case DoSetWatermark(a, id, revision, enabled) => PolicyTransfers(l, now, a, id, revision, Open, enabled);
      case DoRename(a, id, name, revision, hashed) => RenameTransfers(l, now, a, id, name, revision, hashed);
      case DoClaim(a, id, revision) => ClaimTransfers(l, c, now, a, id, revision);
      case DoRedeem(a, id, digest) => RedeemTransfers(l, c, now, a, id, digest);
      case DoSelect(a, id, opID, revision) => SelectTransfers(l, now, a, id, opID, revision);
      case DoRemove(a, id, opID, revision) => RemoveTransfers(l, now, a, id, opID, revision);
      case DoRetire(version, epoch, members) => RetireTransfers(l, now, version, epoch, members);
      case DoAcknowledge(version, epoch, member) => AcknowledgeTransfers(l, version, epoch, member);
      case DoReconcile(_, _) => ReconcileTransfers(l, c, now, q);
      case DoSetControl(_, _) => ReconcileTransfers(l, c, now, q);
    }
  }

  /* ---------- Over a run ---------- */

  /** Step j of the run created the transfer of this project that carries the digest. */
  ghost predicate CreatedAt(stages: seq<Stage>, requests: seq<Request>, c: Limits, j: nat, id: string, t: Transfer) {
    && j < |requests| && j + 1 < |stages| && requests[j].DoCreateTransfer? && requests[j].id == id
    && Perform(stages[j].ledger, c, stages[j + 1].now, requests[j]).Ok? && id in stages[j].ledger.projects
    && Controls(requests[j].a, stages[j].ledger.projects[id].owner)
    && t == Transfer(stages[j].ledger.projects[id].owner, requests[j].digest, stages[j + 1].now + TRANSFER_LIFETIME)
  }

  /** Step k neither created nor revoked a transfer of the project, nor deleted it on request, nor moved it. */
  ghost predicate Undisturbed(stages: seq<Stage>, requests: seq<Request>, c: Limits, k: nat, id: string) {
    k < |requests| && k + 1 < |stages| && Perform(stages[k].ledger, c, stages[k + 1].now, requests[k]).Ok? ==>
      !Renews(requests[k], id) && !(Ends(stages[k].ledger, requests[k]) && requests[k].id == id)
  }

  /** One step: a transfer that is there afterwards was created by it, or was there before and left alone. */
  lemma TransferSurvives(stages: seq<Stage>, requests: seq<Request>, c: Limits, k: nat, id: string)
    requires IsRun(stages, requests, c) && k < |requests| && id in stages[k + 1].ledger.transfers
    ensures CreatedAt(stages, requests, c, k, id, stages[k + 1].ledger.transfers[id])
            || (id in stages[k].ledger.transfers && stages[k + 1].ledger.transfers[id] == stages[k].ledger.transfers[id]
                && Undisturbed(stages, requests, c, k, id))
  {
    hide Inv, Perform, Current;
    var l, now, q := stages[k].ledger, stages[k + 1].now, requests[k];
    RunInv(stages, requests, c, k);
    Later(l, c, stages[k].now, now);
    if Perform(l, c, now, q).Ok? {
      if q.DoCreateTransfer? {
        PerformCreate(l, c, now, q);
        CreateExactly(l, now, q.a, q.id, q.revision, q.digest);
        if q.id == id { CurrentControls(l.projects[id], now, q.a, q.revision); }
      } else if q.DoRevokeTransfer? {
        PerformCreate(l, c, now, q);
        RevokeExactly(l, now, q.a, q.id, q.revision);
      } else {
        TransfersAfter(l, c, now, q);
      }
    }
  }

  lemma PerformCreate(l: Ledger, c: Limits, now: int, q: Request)
    ensures q.DoCreateTransfer? ==> Perform(l, c, now, q) == CreateTransfer(l, now, q.a, q.id, q.revision, q.digest)
    ensures q.DoRevokeTransfer? ==> Perform(l, c, now, q) == RevokeTransfer(l, now, q.a, q.id, q.revision)
  {}

  lemma CurrentControls(p: Project, now: int, a: Actor, revision: int)
    requires Current(p, now, a, revision)
    ensures Controls(a, p.owner)
  {}

  /** Every outstanding transfer was created by the owner, and nothing that would end it has happened since. */
  lemma {:induction false} TransferTraced(stages: seq<Stage>, requests: seq<Request>, c: Limits, i: nat, id: string)
    returns (j: nat)
    requires IsRun(stages, requests, c) && i < |stages| && id in stages[i].ledger.transfers
             && id !in stages[0].ledger.transfers
    ensures j < i && CreatedAt(stages, requests, c, j, id, stages[i].ledger.transfers[id])
    ensures forall k :: j < k < i ==> Undisturbed(stages, requests, c, k, id)
  {
    hide IsRun, CreatedAt, Undisturbed;
    RunLength(stages, requests, c);
    TransferSurvives(stages, requests, c, i - 1, id);
    if CreatedAt(stages, requests, c, i - 1, id, stages[i].ledger.transfers[id]) {
      j := i - 1;
    } else {
      j := TransferTraced(stages, requests, c, i - 1, id);
    }
  }

  lemma RunLength(stages: seq<Stage>, requests: seq<Request>, c: Limits)
    requires IsRun(stages, requests, c)
    ensures |stages| == |requests| + 1
  {
    hide Inv, Step;
  }

  /** A step that changes the owner is a claim or a redemption whose guard holds. */
  lemma MovesOnly(l: Ledger, c: Limits, now: int, q: Request, id: string)
    requires Inv(l, c, now) && Perform(l, c, now, q).Ok? && id in l.projects
             && id in Perform(l, c, now, q).value.projects
    requires Perform(l, c, now, q).value.projects[id].owner != l.projects[id].owner
    ensures (q.DoClaim? || q.DoRedeem?) && q.id == id && Guard(l, c, now, q, l.projects[id])
    ensures Perform(l, c, now, q).value.projects[id].owner == Owner.Owner(Firebase, q.a.uid)
  {
    hide Inv, Perform, Guard;
    InvIdentified(l, c, now);
    if IsEdit(q) {
      EditsAreExact(l, c, now, q);
      EditedOwner(l, now, q, l.projects[id]);
    } else {
      OtherOwners(l, c, now, q, id);
    }
  }

  lemma EditedOwner(l: Ledger, now: int, q: Request, p: Project)
    ensures Edited(l, now, q, p).owner != p.owner ==> q.DoClaim? || q.DoRedeem?
    ensures q.DoClaim? || q.DoRedeem? ==> Edited(l, now, q, p).owner == Owner.Owner(Firebase, q.a.uid)
  {}

  lemma OtherOwners(l: Ledger, c: Limits, now: int, q: Request, id: string)
    requires Inv(l, c, now) && Perform(l, c, now, q).Ok? && id in l.projects && !IsEdit(q)
    ensures id in Perform(l, c, now, q).value.projects
            && Perform(l, c, now, q).value.projects[id].owner == l.projects[id].owner
  {
    hide Inv, Reserve, Rename, Acknowledge, Retire, Reconcile, SetControl, CreateTransfer, RevokeTransfer, Current;
    InvIdentified(l, c, now);
    if q.DoReserve? {
      ReservesOnly(l, c, now, q.a, q.r, q.offers, q.op);
    } else if q.DoRename? {
      RenameOnly(l, c, now, q.a, q.id, q.name, q.revision, q.hashed);
    } else if q.DoAcknowledge? {
      AcknowledgeOnly(l, c, now, q.version, q.epoch, q.member);
    } else {
      ProjectsStay(l, c, now, q);
    }
  }

  /**
   Over every run without transfers at its start: a project changes hands only by a claim of its owner, or by a
   redemption with the digest of a transfer that its owner created less than a day before and that nobody has renewed,
   revoked, or ended by deleting or moving the project. The new owner is the account of the caller.
   */
  lemma HandsChange(stages: seq<Stage>, requests: seq<Request>, c: Limits, i: nat, id: string) returns (j: nat)
    requires IsRun(stages, requests, c) && i < |requests| && stages[0].ledger.transfers == map[]
    requires id in stages[i].ledger.projects && id in stages[i + 1].ledger.projects
             && stages[i + 1].ledger.projects[id].owner != stages[i].ledger.projects[id].owner
    ensures requests[i].DoClaim? || requests[i].DoRedeem?
    ensures requests[i].id == id && requests[i].a.uid != ""
            && stages[i + 1].ledger.projects[id].owner == Owner.Owner(Firebase, requests[i].a.uid)
    ensures requests[i].DoClaim? ==> Controls(requests[i].a, stages[i].ledger.projects[id].owner)
    ensures requests[i].DoRedeem? ==>
              && j < i && id in stages[i].ledger.transfers
              && CreatedAt(stages, requests, c, j, id, stages[i].ledger.transfers[id])
              && requests[j].digest == requests[i].digest && stages[i + 1].now < stages[j + 1].now + 24 * 3600
              && stages[j].ledger.projects[id].owner == stages[i].ledger.projects[id].owner
              && forall k :: j < k < i ==> Undisturbed(stages, requests, c, k, id)
  {
    hide Inv, Perform, RoomFor, Controls;
    var l, now, q := stages[i].ledger, stages[i + 1].now, requests[i];
    RunInv(stages, requests, c, i);
    Later(l, c, stages[i].now, now);
    MovesOnly(l, c, now, q, id);
    j := 0;
    InvIdentified(l, c, now);
    if q.DoRedeem? { j := TransferTraced(stages, requests, c, i, id); }
  }
}
