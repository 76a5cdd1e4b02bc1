/**
 Nobody but its owner changes a project, with three exceptions that are stated here, and a project changes hands only by
 its owner's claim or through a transfer that its owner created and has not taken back.
 */
module LedgerAuthority {
  import opened Projects
  import opened LedgerRules
  import opened LedgerInv
  import opened LedgerReserve
  import opened LedgerRuns
  import opened LedgerHistory
  import opened LedgerProgress
  import opened LedgerEdits

  /* ---------- Requests that are not edits ---------- */

  /** A reservation charges the caller's current project and marks it as waiting, or adds a project of the caller's. */
  ghost predicate Reserves(l: Ledger, now: int, a: Actor, r: Reservation, op: OperationId, m: Ledger) {
    || m.projects == l.projects
    || (r.projectID != "" && r.projectID in l.projects
        && Current(l.projects[r.projectID], now, a, r.expectedRevision)
        && var p := l.projects[r.projectID];
           var charge := if r.bytes < 0x10_0000 then 0x10_0000 else r.bytes;
           m.projects == l.projects[p.id := p.(chargedBytes := p.chargedBytes + charge, pendingOperation := op)])
    || (r.projectID == "" && op[..32] !in l.projects && op[..32] in m.projects
        && m.projects == l.projects[op[..32] := m.projects[op[..32]]]
        && m.projects[op[..32]].owner == Caller(a) && m.projects[op[..32]].status == Reserved
        && m.projects[op[..32]].pendingOperation == op)
  }

  lemma ReservesOnly(l: Ledger, c: Limits, now: int, a: Actor, r: Reservation, offers: seq<Offer>, op: OperationId)
    requires Inv(l, c, now) && Reserve(l, c, now, a, r, offers, op).Ok?
    ensures Reserves(l, now, a, r, op, Reserve(l, c, now, a, r, offers, op).value)
  {
    hide Inv, Target, DigestBlocked, QuotaAfter, Allocate, Booked, Targeted, Granted, Current, VersionCharge,
      ValidReservation;
    if op !in l.operations {
      var p := Target(l, now, a, r, op).value;
      var q := QuotaAfter(l.quotas, c, p, r.projectID == "", VersionCharge(r.bytes)).value;
      var grant := Allocate(l, p, r, offers, op);
      InvIdentified(l, c, now);
      TargetMeans(l, now, a, r, op, p);
      ReserveFacts(l, c, now, a, r, offers, op, p);
      BookedProjects(l, a, r, p, op, now, q, grant);
      SamePlace(l, c, now, a, r, offers, op, p);
    }
  }

  lemma TargetMeans(l: Ledger, now: int, a: Actor, r: Reservation, op: OperationId, p: Project)
    requires Target(l, now, a, r, op) == Ok(p) && ValidReservation(r) && Identified(l.projects, l.operations)
    ensures r.projectID != "" ==>
              r.projectID in l.projects && p == l.projects[r.projectID] && p.id == r.projectID
              && Current(p, now, a, r.expectedRevision)
    ensures r.projectID == "" ==>
              p.id == op[..32] && p.id !in l.projects && p.owner == Caller(a) && p.status == Reserved
  {
    hide ChooseSlug, Controls, Actor.Owns;
    if r.projectID != "" && r.projectID in l.projects { OwnsMeans(a, l.projects[r.projectID].owner); }
    OwnsMeans(a, p.owner);
  }

  lemma BookedProjects(l: Ledger, a: Actor, r: Reservation, p: Project, op: OperationId, now: int, q: Quota,
                       grant: Offering)
    requires grant.Grant? && Booked(l, a, r, p, op, now, q, grant).Ok?
    ensures Booked(l, a, r, p, op, now, q, grant).value.projects ==
            l.projects[p.id := p.(storageApp := grant.version.app,
                                  chargedBytes := p.chargedBytes + if r.bytes < 0x10_0000 then 0x10_0000 else r.bytes,
                                  pendingOperation := op)]
  {
    hide PutProject, Usable, QueueKept;
  }

  /** An acknowledgement touches at most what one project is charged. */
  lemma AcknowledgeOnly(l: Ledger, c: Limits, now: int, id: VersionId, epoch: string, member: string)
    requires Inv(l, c, now) && Acknowledge(l, id, epoch, member).Ok?
    ensures var m := Acknowledge(l, id, epoch, member).value;
            && id.project in l.projects && id.project in m.projects
            && m.projects == l.projects[id.project :=
                                        l.projects[id.project].(chargedBytes := m.projects[id.project].chargedBytes)]
  {
    hide Inv, Refunded, AllAcknowledged, Acknowledge;
    SamePool(l, c, now, HeldVersion(l, id, epoch, member));
    InvIdentified(l, c, now);
    var p := l.projects[id.project];
    assert l.projects[id.project := p.(chargedBytes := p.chargedBytes)] == l.projects;
    AcknowledgeCases(l, id, epoch, member);
  }

  /** The version that an acknowledgement is about. */
  ghost function HeldVersion(l: Ledger, id: VersionId, epoch: string, member: string): (v: VersionId)
    requires Acknowledge(l, id, epoch, member).Ok?
    ensures v == id && id in l.versions
  {
    id
  }

  lemma AcknowledgeCases(l: Ledger, id: VersionId, epoch: string, member: string)
    requires Acknowledge(l, id, epoch, member).Ok?
    ensures var m := Acknowledge(l, id, epoch, member).value;
            || m.projects == l.projects
            || (id.project in l.projects && id in l.versions
                && var p := l.projects[id.project];
                   m.projects == l.projects[p.id := p.(chargedBytes := p.chargedBytes - l.versions[id].quotaBytes)])
  {
    hide Refunded, AllAcknowledged;
    var v := l.versions[id];
    var noted := v.(acknowledged := v.acknowledged + {member});
    if v.state == Retiring && AllAcknowledged(noted) { RefundedOnly(l, id, noted); }
  }

  lemma RefundedOnly(l: Ledger, id: VersionId, v: Version)
    requires Refunded(l, id, v).Ok?
    ensures id.project in l.projects
    ensures var p := l.projects[id.project];
            Refunded(l, id, v).value.projects == l.projects[p.id := p.(chargedBytes := p.chargedBytes - v.quotaBytes)]
  {
    hide PutProject, QueueKept, Refund, Damaged;
  }

  /* ---------- Authority ---------- */

  /** Who may change the project in anything but its charge. */
  predicate Authorized(l: Ledger, now: int, q: Request, p: Project) {
    match q
    case DoReserve(a, _, _, _) => Controls(a, p.owner)
    case DoActivate(a, _, _) => Controls(a, p.owner)
    case DoAbort(who, _) =>
      match who {
        case ByOwner(a) => Controls(a, p.owner)
        case ByMaintenance => p.pendingOperation in l.operations && l.operations[p.pendingOperation].expiresAt <= now
      }
    case DoTombstone(a, _, _) => Controls(a, p.owner)
    case DoExpire(_) => p.owner.kind == Anonymous && Expired(p, now)
    case DoSetPrivacy(a, _, _, _) => Controls(a, p.owner)
    case DoSetWatermark(a, _, _, _) => Controls(a, p.owner)
    case DoRename(a, _, _, _, _) => Controls(a, p.owner)
    case DoClaim(a, _, _) => Controls(a, p.owner)
    case DoRedeem(a, _, digest) =>
      a.uid != "" && p.id in l.transfers && l.transfers[p.id].owner == p.owner && l.transfers[p.id].digest == digest
        && now < l.transfers[p.id].expiresAt
    case DoSelect(a, _, _, _) => Controls(a, p.owner)
    case DoRemove(a, _, _, _) => Controls(a, p.owner)
    case _ => false
  }

  lemma GuardAuthorizes(l: Ledger, c: Limits, now: int, q: Request, p: Project)
    requires Guard(l, c, now, q, p)
    ensures Authorized(l, now, q, p)
  {
    hide Controls, RoomFor;
  }

  /** How one step treats one stored project. */
  ghost predicate TreatsFairly(l: Ledger, now: int, q: Request, m: Ledger, id: string)
    requires id in l.projects
  {
    && id in m.projects
    && (m.projects[id] != l.projects[id].(chargedBytes := m.projects[id].chargedBytes) ==>
        Authorized(l, now, q, l.projects[id]))
    && (m.projects[id].chargedBytes != l.projects[id].chargedBytes ==> q.DoReserve? || q.DoAcknowledge?)
  }

  lemma EditIsFair(l: Ledger, c: Limits, now: int, q: Request, id: string)
    requires Inv(l, c, now) && IsEdit(q) && Perform(l, c, now, q).Ok? && id in l.projects
    ensures TreatsFairly(l, now, q, Perform(l, c, now, q).value, id)
  {
    hide Inv, Perform, Guard, Authorized, Edited;
    EditsAreExact(l, c, now, q);
    var subject := SubjectOf(l, q);
    if subject in l.projects && Guard(l, c, now, q, l.projects[subject]) {
      GuardAuthorizes(l, c, now, q, l.projects[subject]);
      EditKeepsCharge(l, now, q, l.projects[subject]);
    }
  }

  lemma EditKeepsCharge(l: Ledger, now: int, q: Request, p: Project)
    ensures Edited(l, now, q, p).chargedBytes == p.chargedBytes
  {}

  lemma OtherIsFair(l: Ledger, c: Limits, now: int, q: Request, id: string)
    requires Inv(l, c, now) && !IsEdit(q) && Perform(l, c, now, q).Ok? && id in l.projects
    ensures TreatsFairly(l, now, q, Perform(l, c, now, q).value, id)
  {
    hide Inv, Reserve, Rename, Acknowledge, TreatsFairly, Retire, Reconcile, SetControl, CreateTransfer, RevokeTransfer;
    if q.DoReserve? {
      ReserveIsFair(l, c, now, q.a, q.r, q.offers, q.op, id);
    } else if q.DoRename? {
      RenameIsFair(l, c, now, q.a, q.id, q.name, q.revision, q.hashed, id);
    } else if q.DoAcknowledge? {
      AcknowledgeIsFair(l, c, now, q.version, q.epoch, q.member, id);
    } else {
      ProjectsStay(l, c, now, q);
      StillFair(l, now, q, Perform(l, c, now, q).value, id);
    }
  }

  /** The remaining requests do not touch any project. */
  lemma ProjectsStay(l: Ledger, c: Limits, now: int, q: Request)
    requires q.DoCreateTransfer? || q.DoRevokeTransfer? || q.DoRetire? || q.DoReconcile? || q.DoSetControl?
    ensures Perform(l, c, now, q).Ok? ==> Perform(l, c, now, q).value.projects == l.projects
  {
    hide Editable, Damaged, MayRetire, ValidMembers;
  }

  lemma StillFair(l: Ledger, now: int, q: Request, m: Ledger, id: string)
    requires id in l.projects && m.projects == l.projects
    ensures TreatsFairly(l, now, q, m, id)
  {}

  lemma ReserveIsFair(l: Ledger, c: Limits, now: int, a: Actor, r: Reservation, offers: seq<Offer>, op: OperationId,
                      id: string)
    requires Inv(l, c, now) && Reserve(l, c, now, a, r, offers, op).Ok? && id in l.projects
    ensures TreatsFairly(l, now, DoReserve(a, r, offers, op), Reserve(l, c, now, a, r, offers, op).value, id)
  {
    hide Inv, Reserve, Controls;
    InvIdentified(l, c, now);
    ReservesOnly(l, c, now, a, r, offers, op);
  }

  lemma RenameIsFair(l: Ledger, c: Limits, now: int, a: Actor, p: string, name: string, revision: int, hashed: string,
                     id: string)
    requires Inv(l, c, now) && Rename(l, now, a, p, name, revision, hashed).Ok? && id in l.projects
    ensures TreatsFairly(l, now, DoRename(a, p, name, revision, hashed),
                         Rename(l, now, a, p, name, revision, hashed).value, id)
  {
    hide Inv, Rename, Controls;
    RenameOnly(l, c, now, a, p, name, revision, hashed);
  }

  lemma AcknowledgeIsFair(l: Ledger, c: Limits, now: int, version: VersionId, epoch: string, member: string, id: string)
    requires Inv(l, c, now) && Acknowledge(l, version, epoch, member).Ok? && id in l.projects
    ensures TreatsFairly(l, now, DoAcknowledge(version, epoch, member), Acknowledge(l, version, epoch, member).value,
                         id)
  {
    hide Inv, Acknowledge;
    AcknowledgeOnly(l, c, now, version, epoch, member);
  }

  /**
   In every run, whoever asks for whatever: a project changes in anything but its charge only by its owner, by an
   expiry that has passed, by maintenance after the operation's time is up, or through an outstanding transfer.
   */
  lemma OnlyOwnersChange(stages: seq<Stage>, requests: seq<Request>, c: Limits, i: nat, id: string)
    requires IsRun(stages, requests, c) && i < |requests| && id in stages[i].ledger.projects
    ensures TreatsFairly(stages[i].ledger, stages[i + 1].now, requests[i], stages[i + 1].ledger, id)
  {
    hide Inv, Perform, Authorized, IsEdit;
    var l, now, q := stages[i].ledger, stages[i + 1].now, requests[i];
    RunInv(stages, requests, c, i);
    Later(l, c, stages[i].now, now);
    if Perform(l, c, now, q).Ok? {
      if IsEdit(q) { EditIsFair(l, c, now, q, id); } else { OtherIsFair(l, c, now, q, id); }
    }
  }
}
