/**
 The records that describe a published site: owners, projects and publication
 operations, and the predicate that separates a content change from a policy change.
 */
module Projects {
  datatype OwnerKind = Anonymous | Firebase

  datatype Owner = Owner(kind: OwnerKind, id: string)

  /** A verified caller. An empty string means that the credential is absent. */
  datatype Actor = Actor(anonymousID: string, uid: string) {
    function Identity(): (o: Owner) {
      if uid != "" then Owner.Owner(Firebase, uid) else Owner.Owner(Anonymous, anonymousID)
    }

    predicate Owns(o: Owner) {
      o.id != "" && (match o.kind
                     case Anonymous => o.id == anonymousID
                     case Firebase => uid != "" && o.id == uid)
    }
  }

  datatype Status = Reserved | Active | Deleted

  datatype Expiry = Never | At(time: int)

  /** A site. The empty string stands for an unset digest, application or operation. */
  datatype Project = Project(
    id: string,
    storageApp: string,
    storageGeneration: string,
    owner: Owner,
    slug: string,
    initialSlug: string,
    aliasCount: int,
    initialSuffix: string,
    activeDigest: string,
    activeBytes: int,
    chargedBytes: int,
    revision: int,
    policyRevision: int,
    watermarkDisabled: bool,
    isPrivate: bool,
    passwordDigest: string,
    passwordRevision: int,
    status: Status,
    pendingOperation: string,
    createdAt: int,
    updatedAt: int,
    expiresAt: Expiry)
  {
    predicate Unexpired(now: int) {
      expiresAt.At? ==> now < expiresAt.time
    }

    predicate Live(now: int) {
      status == Active && Unexpired(now)
    }
  }

  datatype OperationState = Pending | Complete | Aborted

  /** One publication attempt, identified by its idempotency key. */
  datatype Operation = Operation(
    id: string,
    fingerprint: string,
    owner: Owner,
    projectID: string,
    digest: string,
    bytes: int,
    baseRevision: int,
    isNew: bool,
    state: OperationState,
    expiresAt: int,
    publishedAt: int,
    storageGeneration: string)

  /** The part of a project that decides who may see it and under which name. */
  datatype Policy = Policy(
    owner: Owner,
    slug: string,
    isPrivate: bool,
    passwordDigest: string,
    passwordRevision: int,
    policyRevision: int,
    watermarkDisabled: bool)

  function PolicyOf(p: Project): Policy {
    Policy(p.owner, p.slug, p.isPrivate, p.passwordDigest, p.passwordRevision, p.policyRevision, p.watermarkDisabled)
  }

  /**
   Overwrites in `prior` exactly the fields that a reviewed content change may touch.
   Every field that is not listed here keeps its old value, so a change to it makes
   the comparison in ContentOnlyProjectChange fail.
   */
  function AllowedContent(prior: Project, next: Project): Project {
    var allowed := prior.(
                   activeDigest := next.activeDigest,
                   activeBytes := next.activeBytes,
                   chargedBytes := next.chargedBytes,
                   revision := next.revision,
                   pendingOperation := next.pendingOperation,
                   updatedAt := next.updatedAt);
    if prior.status == Reserved && next.status == Active then
      allowed.(
      status := next.status,
      createdAt := next.createdAt,
      expiresAt := if prior.expiresAt.At? && next.expiresAt.At? then next.expiresAt else prior.expiresAt)
    else
      allowed
  }

  predicate ContentOnlyProjectChange(prior: Project, next: Project) {
    prior.status != Deleted && next.status != Deleted && AllowedContent(prior, next) == next
  }

  datatype PriorProject = Absent | Present(project: Project)

  predicate ContentOnlyChange(prior: PriorProject, next: Project) {
    match prior
    case Absent =>
      next.status == Reserved && !next.isPrivate && next.passwordDigest == "" &&
      next.passwordRevision == 0 && next.policyRevision == 1
    case Present(p) => ContentOnlyProjectChange(p, next)
  }
}
