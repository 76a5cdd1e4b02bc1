/**
 What an edit does to the records beside the project: the operation, the digest records, the names, the removal marks.
 Together with the exact effect on the project this leaves an edit no freedom; quotas, indexes and pool totals are
 fixed by the invariant. And what a refusal tells a caller who is not the owner: nothing.
 */
module LedgerRecords {
  import opened Projects
  import opened LedgerRules
  import opened LedgerInv
  import opened LedgerRuns
  import opened LedgerHistory
  import opened LedgerEdits
  import opened LedgerTransfers

  /* ---------- The digest records ---------- */

  /** The content that the request makes its project serve, or that a withdrawn operation leaves it serving. */
  predicate Keeps(l: Ledger, q: Request, p: Project, d: string) {
    match q
    case DoActivate(_, opID, _) => opID in l.operations && d == l.operations[opID].digest
    case DoSelect(_, _, opID, _) => opID in l.operations && d == l.operations[opID].digest
    case DoAbort(_, opID) => Withdraws(l, p, opID, d) && p.activeDigest == d
    case _ => false
  }

  /** The digest record still waits for this operation. */
  predicate Withdraws(l: Ledger, p: Project, opID: string, d: string) {
    opID in l.operations && l.operations[opID].digest == d && d in l.digests && l.digests[d] == DigestRecord(p.id, opID)
  }

  /** The content that its project no longer serves, or never will. */
  predicate Frees(l: Ledger, q: Request, p: Project, d: string) {
    match q
    case DoActivate(_, _, _) => d == p.activeDigest && d != ""
    case DoSelect(_, _, _, _) => d == p.activeDigest
    case DoTombstone(_, _, _) => d == p.activeDigest
    case DoExpire(_) => d == p.activeDigest
    case DoAbort(_, opID) => Withdraws(l, p, opID, d)
    case _ => false
  }

  ghost predicate DigestsExactly(l: Ledger, q: Request, p: Project, digests: map<string, DigestRecord>) {
    forall d: string ::
      if Keeps(l, q, p, d) then d in digests && digests[d] == DigestRecord(p.id, "")
      else if d !in l.digests || (Frees(l, q, p, d) && l.digests[d].projectID == p.id) then d !in digests
      else d in digests && digests[d] == l.digests[d]
  }

  /* ---------- All other records ---------- */

  function OperationsAfter(l: Ledger, now: int, q: Request): map<string, Operation> {
    match q
    case DoActivate(_, opID, _) =>
      if opID !in l.operations then l.operations
      else l.operations[opID := l.operations[opID].(state := Complete, publishedAt := now)]
    case DoAbort(_, opID) =>
      if opID !in l.operations then l.operations
      else l.operations[opID := l.operations[opID].(state := Aborted)]
    case _ => l.operations
  }

  /** The version that the owner removes. */
  function Unwanted(l: Ledger, q: Request): set<VersionId> {
    if q.DoRemove? && q.opID in l.operations then
      var op := l.operations[q.opID]; {VersionId(op.projectID, op.digest, op.storageGeneration)}
    else {}
  }

  /** Outside any pool its digest is fenced, too. */
  function Fenced(l: Ledger, q: Request, p: Project): set<(string, string)> {
    if q.DoRemove? && q.opID in l.operations && p.storageApp == "" then {(p.id, l.operations[q.opID].digest)} else {}
  }

  /** The name of a first publication that is withdrawn. */
  function Unnamed(l: Ledger, q: Request, p: Project): set<string> {
    if q.DoAbort? && p.status == Reserved then {p.slug} else {}
  }

  ghost predicate RecordsExactly(l: Ledger, now: int, q: Request, p: Project, m: Ledger) {
    && m.operations == OperationsAfter(l, now, q)
    && DigestsExactly(l, q, p, m.digests)
    && m.slugs == l.slugs - Unnamed(l, q, p)
    && m.removals == l.removals + Unwanted(l, q)
    && m.retirements == l.retirements + Fenced(l, q, p)
    && m.transfers == (if Ends(l, q) then l.transfers - {q.id} else l.transfers)
    && m.versions == l.versions && m.names == l.names && m.measured == l.measured
  }

  /** Nothing happened, or exactly this. */
  ghost predicate EffectOk(l: Ledger, now: int, q: Request, m: Ledger) {
    var id := SubjectOf(l, q);
    m == l || (id in l.projects && RecordsExactly(l, now, q, l.projects[id], m))
  }

  /* ---------- One lemma per request ---------- */

  lemma InstallRecords(l: Ledger, now: int, p: Project, op: Operation, password: Password, a: Actor)
    requires op.id in l.operations && op == l.operations[op.id]
    requires Install(l, now, p, op, password).Ok?
    ensures RecordsExactly(l, now, DoActivate(a, op.id, password), p, Install(l, now, p, op, password).value)
  {
    hide PutProject, QueueKept, Activated, DigestsExactly, Release;
    var released := if p.activeDigest != "" && p.activeDigest != op.digest then Release(l.digests, p.activeDigest, p.id)
      else l.digests;
    ShownRecords(l, DoActivate(a, op.id, password), p, op.digest, released);
  }

  /** New content takes the place of what was served before. */
  lemma ShownRecords(l: Ledger, q: Request, p: Project, shown: string, released: map<string, DigestRecord>)
    requires q.DoActivate? || q.DoSelect?
    requires q.opID in l.operations && shown == l.operations[q.opID].digest
    requires released == (if (q.DoActivate? ==> p.activeDigest != "") && p.activeDigest != shown
                          then Release(l.digests, p.activeDigest, p.id) else l.digests)
    ensures DigestsExactly(l, q, p, released[shown := DigestRecord(p.id, "")])
  {}

  lemma ActivateRecords(l: Ledger, now: int, a: Actor, opID: string, password: Password)
    requires Identified(l.projects, l.operations) && Activate(l, now, a, opID, password).Ok?
    ensures EffectOk(l, now, DoActivate(a, opID, password), Activate(l, now, a, opID, password).value)
  {
    hide Install, Usable, Actor.Owns, RecordsExactly;
    var op := l.operations[opID];
    if op.state != Complete { InstallRecords(l, now, l.projects[op.projectID], op, password, a); }
  }

  /** What an abort stores, and upon what. */
  ghost function WithdrawnLedger(l: Ledger, opID: string, p: Project): Ledger
    requires opID in l.operations
  {
    var op := l.operations[opID];
    var withdrawn :=
      l.(digests := Withdrawn(l.digests, p, op), operations := l.operations[opID := op.(state := Aborted)]);
    if op.isNew then
      var q := QuotaAt(l.quotas, p.owner);
      withdrawn.(quotas := l.quotas[p.owner := q.(count := q.count - 1)], slugs := l.slugs - {p.slug})
    else withdrawn
  }

  lemma AbortIs(l: Ledger, now: int, who: Aborter, opID: string)
    requires Abort(l, now, who, opID).Ok? && Abort(l, now, who, opID).value != l
    ensures opID in l.operations && l.operations[opID].projectID in l.projects
    ensures l.operations[opID].state == Pending
    ensures var op := l.operations[opID]; var p := l.projects[op.projectID];
            && Abort(l, now, who, opID) ==
               PutProject(WithdrawnLedger(l, opID, p),
                          if op.isNew then p.(pendingOperation := "", status := Deleted)
                          else p.(pendingOperation := ""))
  {
    hide PutProject, QueueKept, Actor.Owns, Withdrawn;
  }

  lemma WithdrawnEffect(l: Ledger, now: int, who: Aborter, opID: string, p: Project, next: Project)
    requires opID in l.operations && l.operations[opID].id == opID
    requires l.operations[opID].isNew <==> p.status == Reserved
    requires PutProject(WithdrawnLedger(l, opID, p), next).Ok?
    ensures RecordsExactly(l, now, DoAbort(who, opID), p, PutProject(WithdrawnLedger(l, opID, p), next).value)
  {
    hide PutProject, QueueKept, Withdrawn, DigestsExactly;
    WithdrawnRecords(l, now, who, opID, p);
  }

  lemma AbortRecords(l: Ledger, c: Limits, now: int, who: Aborter, opID: string)
    requires Inv(l, c, now) && Abort(l, now, who, opID).Ok?
    ensures EffectOk(l, now, DoAbort(who, opID), Abort(l, now, who, opID).value)
  {
    hide Inv, Abort, PutProject, WithdrawnLedger, RecordsExactly, Usable, ContentHeld;
    if Abort(l, now, who, opID).value != l {
      AbortIs(l, now, who, opID);
      PendingMeans(l, c, now, opID);
      var op := l.operations[opID];
      var p := l.projects[op.projectID];
      WithdrawnEffect(l, now, who, opID, p,
                      if op.isNew then p.(pendingOperation := "", status := Deleted) else p.(pendingOperation := ""));
    }
  }

  lemma WithdrawnRecords(l: Ledger, now: int, who: Aborter, opID: string, p: Project)
    requires opID in l.operations && l.operations[opID].id == opID
    ensures DigestsExactly(l, DoAbort(who, opID), p, Withdrawn(l.digests, p, l.operations[opID]))
  {}

  lemma PutRecords(l: Ledger, next: Project)
    ensures PutProject(l, next).Ok? ==>
            var m := PutProject(l, next).value;
            m == l.(index := m.index, queue := m.queue, allocations := m.allocations,
                    projects := l.projects[next.id := next])
  {
    hide PutProject, QueueKept;
  }

  lemma DeletingRecords(l: Ledger, p: Project)
    requires Deleting(l, p).Ok?
    ensures var m := Deleting(l, p).value;
            m == l.(quotas := m.quotas, digests := Release(l.digests, p.activeDigest, p.id), index := m.index,
                    queue := m.queue, allocations := m.allocations, projects := m.projects)
  {
    hide PutProject, QueueKept, Release;
  }

  lemma ReleasedRecords(l: Ledger, q: Request, p: Project)
    requires q.DoTombstone? || q.DoExpire?
    ensures DigestsExactly(l, q, p, Release(l.digests, p.activeDigest, p.id))
  {}

  lemma TombstoneRecords(l: Ledger, now: int, a: Actor, id: string, revision: int)
    requires Identified(l.projects, l.operations) && Tombstone(l, a, id, revision).Ok?
    ensures EffectOk(l, now, DoTombstone(a, id, revision), Tombstone(l, a, id, revision).value)
  {
    hide Deleting, Actor.Owns, Release, DigestsExactly;
    var p := l.projects[id];
    if p.status != Deleted {
      DeletingRecords(l.(transfers := l.transfers - {id}), p);
      ReleasedRecords(l, DoTombstone(a, id, revision), p);
    }
  }

  lemma ExpireRecords(l: Ledger, now: int, id: string)
    requires Identified(l.projects, l.operations) && Expire(l, now, id).Ok?
    ensures EffectOk(l, now, DoExpire(id), Expire(l, now, id).value)
  {
    hide Deleting, Release, DigestsExactly;
    if id in l.projects && Deleting(l, l.projects[id]).Ok? {
      DeletingRecords(l, l.projects[id]);
      ReleasedRecords(l, DoExpire(id), l.projects[id]);
    }
  }

  /** An edit of the project alone. */
  lemma QuietRecords(l: Ledger, now: int, q: Request, next: Project)
    requires q.DoSetPrivacy? || q.DoSetWatermark?
    requires SubjectOf(l, q) in l.projects && PutProject(l, next).Ok?
    ensures EffectOk(l, now, q, PutProject(l, next).value)
  {
    hide PutProject, QueueKept;
  }

  lemma PolicyRecords(l: Ledger, c: Limits, now: int, q: Request)
    requires (q.DoSetPrivacy? || q.DoSetWatermark?) && Perform(l, c, now, q).Ok?
    ensures EffectOk(l, now, q, Perform(l, c, now, q).value)
  {
    hide PutProject, QueueKept, Editable, Current, RecordsExactly;
    EditableMeans(l, now, q.a, q.id, q.revision);
    if Perform(l, c, now, q).value != l {
      var p := l.projects[q.id];
      var next :=
        if q.DoSetWatermark? then p.(watermarkDisabled := !q.enabled, revision := p.revision + 1, updatedAt := now)
        else p.(isPrivate := q.password.Protected?,
                passwordDigest := if q.password.Protected? then q.password.digest else "",
                passwordRevision := if q.password.Protected? then q.password.revision else 0,
                revision := p.revision + 1, policyRevision := p.policyRevision + 1);
      assert Perform(l, c, now, q) == PutProject(l, next);
      QuietRecords(l, now, q, next);
    }
  }

  lemma MoveRecords(l: Ledger, c: Limits, p: Project, uid: string)
    requires MoveToAccount(l, c, p, uid).Ok?
    ensures var m := MoveToAccount(l, c, p, uid).value;
            m == l.(quotas := m.quotas, transfers := l.transfers - {p.id}, index := m.index, queue := m.queue,
                    allocations := m.allocations, projects := m.projects)
  {
    hide PutProject, QueueKept, Limits.Bytes, Limits.Count, FitsBytes;
  }

  lemma ClaimRecords(l: Ledger, c: Limits, now: int, a: Actor, id: string, revision: int)
    requires Identified(l.projects, l.operations) && Claim(l, c, now, a, id, revision).Ok?
    ensures EffectOk(l, now, DoClaim(a, id, revision), Claim(l, c, now, a, id, revision).value)
  {
    hide MoveToAccount, Editable, Current;
    EditableMeans(l, now, a, id, revision);
    if l.projects[id].owner.kind == Anonymous { MoveRecords(l, c, l.projects[id], a.uid); }
  }

  lemma RedeemRecords(l: Ledger, c: Limits, now: int, a: Actor, id: string, digest: string)
    requires Identified(l.projects, l.operations) && Redeem(l, c, now, a, id, digest).Ok?
    ensures EffectOk(l, now, DoRedeem(a, id, digest), Redeem(l, c, now, a, id, digest).value)
  {
    hide MoveToAccount;
    MoveRecords(l, c, l.projects[id], a.uid);
  }

  lemma SelectRecords(l: Ledger, now: int, a: Actor, id: string, opID: string, revision: int)
    requires Identified(l.projects, l.operations) && SelectRevision(l, now, a, id, opID, revision).Ok?
    ensures EffectOk(l, now, DoSelect(a, id, opID, revision), SelectRevision(l, now, a, id, opID, revision).value)
  {
    hide Reselect, Editable, Current, RecordsExactly, AvailableRevision, Identified;
    EditableMeans(l, now, a, id, revision);
    AvailableIs(l, l.projects[id], opID);
    if Reselect(l, now, l.projects[id], l.operations[opID]).Ok? {
      ReselectRecords(l, now, DoSelect(a, id, opID, revision), l.projects[id]);
    }
  }

  lemma ReselectRecords(l: Ledger, now: int, q: Request, p: Project)
    requires q.DoSelect? && q.opID in l.operations && Reselect(l, now, p, l.operations[q.opID]).Ok?
    ensures RecordsExactly(l, now, q, p, Reselect(l, now, p, l.operations[q.opID]).value)
  {
    hide PutProject, QueueKept, Reselected, Release, DigestsExactly;
    var op := l.operations[q.opID];
    var released := if p.activeDigest != op.digest then Release(l.digests, p.activeDigest, p.id) else l.digests;
    ShownRecords(l, q, p, op.digest, released);
  }

  lemma AvailableIs(l: Ledger, p: Project, opID: string)
    requires AvailableRevision(l, p, opID).Ok?
    ensures opID in l.operations && AvailableRevision(l, p, opID).value == l.operations[opID]
  {}

  lemma RemoveRecords(l: Ledger, now: int, a: Actor, id: string, opID: string, revision: int)
    requires Identified(l.projects, l.operations) && RemoveRevision(l, now, a, id, opID, revision).Ok?
    ensures EffectOk(l, now, DoRemove(a, id, opID, revision), RemoveRevision(l, now, a, id, opID, revision).value)
  {
    hide PutProject, QueueKept, Editable, Current;
    EditableMeans(l, now, a, id, revision);
  }

  /* ---------- Every edit ---------- */

  lemma EditLeaves(l: Ledger, c: Limits, now: int, q: Request)
    requires Inv(l, c, now) && IsEdit(q) && Perform(l, c, now, q).Ok?
    ensures EffectOk(l, now, q, Perform(l, c, now, q).value)
  {
    hide Inv, EffectOk, Activate, Abort, Tombstone, Expire, SetPrivacy, SetWatermark, Claim, Redeem, SelectRevision,
      RemoveRevision, Identified;
    InvIdentified(l, c, now);
    match q {
      case DoActivate(a, opID, password) => ActivateRecords(l, now, a, opID, password);
      case DoAbort(who, opID) => AbortRecords(l, c, now, who, opID);
      case DoTombstone(a, id, revision) => TombstoneRecords(l, now, a, id, revision);
      case DoExpire(id) => ExpireRecords(l, now, id);
      case DoSetPrivacy(_, _, _, _) => PolicyRecords(l, c, now, q);
      case DoSetWatermark(_, _, _, _) => PolicyRecords(l, c, now, q);
      case DoClaim(a, id, revision) => ClaimRecords(l, c, now, a, id, revision);
      case DoRedeem(a, id, digest) => RedeemRecords(l, c, now, a, id, digest);
      case DoSelect(a, id, opID, revision) => SelectRecords(l, now, a, id, opID, revision);
      case DoRemove(a, id, opID, revision) => RemoveRecords(l, now, a, id, opID, revision);
    }
  }

  /** An edit whose guard holds always changes its project. */
  lemma EditIsSeen(l: Ledger, c: Limits, now: int, q: Request, p: Project)
    requires IsEdit(q) && Guard(l, c, now, q, p)
    ensures Edited(l, now, q, p) != p
  {
    hide Controls, Caller, RoomFor;
    assert q.DoAbort? ==> Edited(l, now, q, p).pendingOperation != p.pendingOperation;
    assert !q.DoAbort? ==> Edited(l, now, q, p).revision == p.revision + 1;
  }

  /** When the guard of an edit holds, all records after it are determined. */
  lemma EditsRecords(l: Ledger, c: Limits, now: int, q: Request)
    requires Inv(l, c, now) && IsEdit(q)
    requires SubjectOf(l, q) in l.projects && Guard(l, c, now, q, l.projects[SubjectOf(l, q)])
    ensures Perform(l, c, now, q).Ok?
            && RecordsExactly(l, now, q, l.projects[SubjectOf(l, q)], Perform(l, c, now, q).value)
  {
    hide Inv, Perform, Guard, Edited, RecordsExactly;
    var id := SubjectOf(l, q);
    EditsAreExact(l, c, now, q);
    EditIsSeen(l, c, now, q, l.projects[id]);
    EditLeaves(l, c, now, q);
    assert Perform(l, c, now, q).value.projects[id] != l.projects[id];
  }

  /* ---------- What a stranger learns ---------- */

  /** A request about a project that is named by its identifier, and the caller who has to own it. */
  predicate NamesProject(q: Request) {
    || q.DoTombstone? || q.DoSetPrivacy? || q.DoSetWatermark? || q.DoClaim? || q.DoSelect? || q.DoRemove?
    || q.DoRename? || q.DoCreateTransfer? || q.DoRevokeTransfer?
  }

  predicate Stranger(l: Ledger, q: Request)
    requires NamesProject(q)
  {
    q.id in l.projects ==> !Controls(q.a, l.projects[q.id].owner)
  }

  /** The same answer whether the project exists, is deleted, expired or busy, or is somebody else's. */
  lemma StrangersLearnNothing(l: Ledger, m: Ledger, c: Limits, now: int, q: Request)
    requires Inv(l, c, now) && Inv(m, c, now) && NamesProject(q) && Stranger(l, q) && Stranger(m, q)
    ensures Perform(l, c, now, q).Err? && Perform(l, c, now, q) == Perform(m, c, now, q)
  {
    StrangerRefused(l, c, now, q);
    StrangerRefused(m, c, now, q);
  }

  lemma StrangerRefused(l: Ledger, c: Limits, now: int, q: Request)
    requires Inv(l, c, now) && NamesProject(q) && Stranger(l, q)
    ensures Perform(l, c, now, q) ==
            Err(if !SignedIn(q) then Forbidden
                else if !WellFormed(q) || q.revision < 1 then Malformed else NotFound)
  {
    hide Inv, Controls, Actor.Owns, ChooseSlug, Editable, RenameSeed, NewAlias;
    EditableMeans(l, now, q.a, q.id, q.revision);
    if q.id in l.projects { OwnsMeans(q.a, l.projects[q.id].owner); }
  }
}
