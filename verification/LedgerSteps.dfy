/** The transactions that change one project and no stored version keep the ledger consistent. */
module LedgerSteps {
  import opened Projects
  import opened LedgerRules
  import opened LedgerSums
  import opened LedgerInv

  /* ---------- Quotas and digests under a change of one project ---------- */

  ghost predicate QuotaFollows(quotas: map<Owner, Quota>, after: map<Owner, Quota>, projects: ProjectMap, c: Limits,
                               next: Project, o: Owner) {
    && QuotaAt(after, o).charged ==
       QuotaAt(quotas, o).charged - PriorWeight(projects, ChargedOf(o), next.id) + WeighProject(ChargedOf(o), next)
    && QuotaAt(after, o).count ==
       QuotaAt(quotas, o).count - PriorWeight(projects, CountOf(o), next.id) + WeighProject(CountOf(o), next)
    && 0 <= QuotaAt(after, o).charged <= c.Bytes(o) && 0 <= QuotaAt(after, o).count <= c.Count(o)
  }

  lemma QuotasPut(quotas: map<Owner, Quota>, after: map<Owner, Quota>, projects: ProjectMap, c: Limits, next: Project)
    requires Quotas(quotas, projects, c) && quotas.Keys <= after.Keys && next.owner in after
    requires forall o :: QuotaFollows(quotas, after, projects, c, next, o)
    ensures Quotas(after, projects[next.id := next], c)
  {
    hide QuotaOk;
    var projects' := projects[next.id := next];
    forall o: Owner
      ensures QuotaOk(after, projects', c, o)
    {
      assert QuotaOk(quotas, projects, c, o) && QuotaFollows(quotas, after, projects, c, next, o);
      QuotaPut(quotas, after, projects, c, next, o);
    }
  }

  /** One owner's quota changes as the project does, and nobody else's. */
  lemma QuotasOne(quotas: map<Owner, Quota>, q: Quota, projects: ProjectMap, c: Limits, next: Project)
    requires Quotas(quotas, projects, c)
    requires next.id in projects ==> projects[next.id].owner == next.owner
    requires QuotaFollows(quotas, quotas[next.owner := q], projects, c, next, next.owner)
    ensures Quotas(quotas[next.owner := q], projects[next.id := next], c)
  {
    hide QuotaOk, Limits.Bytes, Limits.Count;
    var after := quotas[next.owner := q];
    forall o: Owner
      ensures QuotaFollows(quotas, after, projects, c, next, o)
    {
      assert QuotaOk(quotas, projects, c, o);
      QuotaBounds(quotas, projects, c, o);
    }
    QuotasPut(quotas, after, projects, c, next);
  }

  /** Freeing a digest that a project no longer serves takes it from nobody else. */
  lemma DigestedRelease(digests: map<string, DigestRecord>, projects: ProjectMap, now: int, next: Project,
                        digest: string)
    requires Digested(digests, projects, now) && !(next.Live(now) && next.activeDigest == digest)
    requires next.Live(now) ==> next.activeDigest in digests && digests[next.activeDigest].projectID == next.id
    ensures Digested(Release(digests, digest, next.id), projects[next.id := next], now)
  {}

  /** A project changes what it serves, holding the new digest. */
  lemma DigestedServe(digests: map<string, DigestRecord>, projects: ProjectMap, now: int, next: Project)
    requires Digested(digests, projects, now)
    requires next.activeDigest in digests ==>
             digests[next.activeDigest].projectID == next.id || digests[next.activeDigest].projectID == ""
    requires forall id :: id in projects ==> id != ""
    requires next.id in projects
    ensures var released := if projects[next.id].activeDigest != next.activeDigest
            then Release(digests, projects[next.id].activeDigest, next.id) else digests;
            Digested(released[next.activeDigest := DigestRecord(next.id, "")], projects[next.id := next], now)
  {}

  /* ---------- Changes that keep content, name and owner ---------- */

  ghost predicate Kept(p: Project, next: Project) {
    next == p.(initialSlug := next.initialSlug, initialSuffix := next.initialSuffix, revision := next.revision,
               policyRevision := next.policyRevision,
               watermarkDisabled := next.watermarkDisabled, isPrivate := next.isPrivate,
               passwordDigest := next.passwordDigest,
               passwordRevision := next.passwordRevision, createdAt := next.createdAt, updatedAt := next.updatedAt)
  }

  lemma KeptInv(l: Ledger, c: Limits, now: int, next: Project, after: Ledger)
    requires Inv(l, c, now) && next.id in l.projects && Kept(l.projects[next.id], next)
             && PutProject(l, next) == Ok(after)
    ensures Inv(after, c, now)
  {
    hide Linked, Serving, Publishing, VersionsOk, BlocksOk, Pools, LiveOk, Queued, ProjectCharges, Quotas, Indexed,
      Digested, Named, AllocationsOk, PutProject;
    var p := l.projects[next.id];
    ServedFacts(l, p);
    PutDerived(l, next, after);
    LinkedKeeps(l.projects, l.operations, next);
    ServingPut(l.projects, l.versions, l.removals, next);
    VersionsPut(l.versions, l.projects, l.measured, next);
    AssignedPut(l.projects, l.allocations, next);
    ChargesPut(l.projects, l.versions, next);
    QuotasKeep(l.quotas, l.projects, c, next);
    DigestedKeeps(l.digests, l.projects, now, next);
    NamedKeeps(l.slugs, l.names, l.projects, next);
  }

  lemma ServedFacts(l: Ledger, p: Project)
    requires Serving(l.projects, l.versions, l.removals) && p.id in l.projects && p == l.projects[p.id]
    ensures ServingOk(p, l.versions, l.removals)
    ensures p.status == Active ==> p.activeDigest != ""
  {}

  lemma SetPrivacyInv(l: Ledger, c: Limits, now: int, a: Actor, id: string, revision: int, password: Password)
    requires Inv(l, c, now) && SetPrivacy(l, now, a, id, revision, password).Ok?
    ensures Inv(SetPrivacy(l, now, a, id, revision, password).value, c, now)
  {
    hide Linked, Serving, Publishing, VersionsOk, BlocksOk, Pools, LiveOk, Queued, ProjectCharges, Quotas, Indexed,
      Digested, Named, AllocationsOk, PutProject;
    var p := l.projects[id];
    var next :=
      p.(isPrivate := password.Protected?, passwordDigest := if password.Protected? then password.digest else "",
         passwordRevision := if password.Protected? then password.revision else 0,
         revision := p.revision + 1, policyRevision := p.policyRevision + 1);
    KeptInv(l, c, now, next, SetPrivacy(l, now, a, id, revision, password).value);
  }

  lemma SetWatermarkInv(l: Ledger, c: Limits, now: int, a: Actor, id: string, revision: int, enabled: bool)
    requires Inv(l, c, now) && SetWatermark(l, now, a, id, revision, enabled).Ok?
    ensures Inv(SetWatermark(l, now, a, id, revision, enabled).value, c, now)
  {
    hide Linked, Serving, Publishing, VersionsOk, BlocksOk, Pools, LiveOk, Queued, ProjectCharges, Quotas, Indexed,
      Digested, Named, AllocationsOk, PutProject;
    var p := l.projects[id];
    if p.watermarkDisabled != !enabled {
      KeptInv(l, c, now, p.(watermarkDisabled := !enabled, revision := p.revision + 1, updatedAt := now),
              SetWatermark(l, now, a, id, revision, enabled).value);
    }
  }

  /* ---------- Rename ---------- */

  lemma NamedReuse(slugs: map<string, string>, names: map<string, set<string>>, projects: ProjectMap, next: Project)
    requires Named(slugs, names, projects) && next.id in projects && projects[next.id].status != Deleted
    requires next.slug in slugs && slugs[next.slug] == next.id && next.aliasCount == projects[next.id].aliasCount
    ensures Named(slugs, names, projects[next.id := next])
  {
    assert NamesOk(projects[next.id], next.id, slugs, names);
    assert next.slug in NamesAt(names, next.id);
  }

  /** A name is free when its record is missing or belongs to a deleted project. */
  ghost predicate Free(slugs: map<string, string>, projects: ProjectMap, s: string) {
    s in slugs ==> slugs[s] in projects && projects[slugs[s]].status == Deleted
  }

  lemma NamedTake(slugs: map<string, string>, names: map<string, set<string>>, projects: ProjectMap, next: Project,
                  taken: set<string>)
    requires Named(slugs, names, projects) && Free(slugs, projects, next.slug)
    requires forall s :: s in taken ==> s in slugs && slugs[s] == next.id
    requires forall s :: s in slugs && slugs[s] == next.id ==> s in taken
    requires |taken| + 1 == next.aliasCount + 1 && next.slug !in taken
    ensures Named(slugs[next.slug := next.id], names[next.id := taken + {next.slug}], projects[next.id := next])
  {
    var slugs', names', projects' :=
      slugs[next.slug := next.id], names[next.id := taken + {next.slug}], projects[next.id := next];
    forall id | id in projects'
      ensures NamesOk(projects'[id], id, slugs', names')
    {
      if id != next.id {
        assert NamesOk(projects[id], id, slugs, names);
      }
    }
  }

  lemma RenameNames(l: Ledger, c: Limits, now: int, p: Project, choice: SlugChoice)
    requires Inv(l, c, now) && p.id in l.projects && p == l.projects[p.id] && p.status != Deleted
    requires NewAlias(l, p.id, choice.slug) || l.slugs[choice.slug] == p.id
    ensures var isNew := NewAlias(l, p.id, choice.slug);
            var named := if isNew then WithName(l, p.id, choice.slug) else l;
            Named(named.slugs, named.names, l.projects[p.id := Renamed(p, choice, isNew)])
  {
    hide Linked, Serving, Publishing, VersionsOk, BlocksOk, Pools, LiveOk, Queued, ProjectCharges, Quotas, Indexed,
      Digested, Named, AllocationsOk;
    var next := Renamed(p, choice, NewAlias(l, p.id, choice.slug));
    if NewAlias(l, p.id, choice.slug) {
      NamesOf(l, p);
      NamedTake(l.slugs, l.names, l.projects, next, NamesAt(l.names, p.id));
    } else {
      NamedReuse(l.slugs, l.names, l.projects, next);
    }
  }

  lemma RenameInv(l: Ledger, c: Limits, now: int, a: Actor, id: string, name: string, revision: int, hashed: string)
    requires Inv(l, c, now) && Rename(l, now, a, id, name, revision, hashed).Ok?
    ensures Inv(Rename(l, now, a, id, name, revision, hashed).value, c, now)
  {
    hide Linked, Serving, Publishing, VersionsOk, BlocksOk, Pools, LiveOk, Queued, ProjectCharges, Quotas, Indexed,
      Digested, Named, AllocationsOk, Assigned, PutProject, ChooseSlug, NewAlias;
    var p := l.projects[id];
    var choice := ChooseSlug(l, name, RenameSeed(p, hashed), id, SUFFIX_LENGTHS).value;
    if choice.slug != p.slug {
      var isNew := NewAlias(l, id, choice.slug);
      RenameNames(l, c, now, p, choice);
      RenamedInv(l, c, now, Renamed(p, choice, isNew), if isNew then WithName(l, id, choice.slug)
                 else l, Rename(l, now, a, id, name, revision, hashed).value);
    }
  }

  lemma NamesOf(l: Ledger, p: Project)
    requires Named(l.slugs, l.names, l.projects) && p.id in l.projects && p == l.projects[p.id] && p.status != Deleted
    ensures |NamesAt(l.names, p.id)| == p.aliasCount + 1
    ensures forall s :: s in NamesAt(l.names, p.id) <==> s in l.slugs && l.slugs[s] == p.id
  {
    assert NamesOk(p, p.id, l.slugs, l.names);
  }

  lemma RenamedInv(l: Ledger, c: Limits, now: int, next: Project, named: Ledger, after: Ledger)
    requires Inv(l, c, now) && next.id in l.projects && PutProject(named, next) == Ok(after)
    requires named == l.(slugs := named.slugs, names := named.names)
    requires var p := l.projects[next.id]; Kept(p, next.(slug := p.slug, aliasCount := p.aliasCount))
    requires Named(named.slugs, named.names, l.projects[next.id := next])
    ensures Inv(after, c, now)
  {
    hide Linked, Serving, Publishing, VersionsOk, BlocksOk, Pools, LiveOk, Queued, ProjectCharges, Quotas, Indexed,
      Digested, Named, AllocationsOk, PutProject;
    var p := l.projects[next.id];
    ServedFacts(l, p);
    PutDerived(named, next, after);
    LinkedKeeps(l.projects, l.operations, next);
    ServingPut(l.projects, l.versions, l.removals, next);
    VersionsPut(l.versions, l.projects, l.measured, next);
    AssignedPut(l.projects, l.allocations, next);
    ChargesPut(l.projects, l.versions, next);
    QuotasKeep(l.quotas, l.projects, c, next);
    DigestedKeeps(l.digests, l.projects, now, next);
  }

  /* ---------- Delete ---------- */

  lemma DeletingInv(l: Ledger, c: Limits, now: int, p: Project)
    requires Inv(l, c, now) && p.id in l.projects && p == l.projects[p.id] && p.status != Deleted
             && p.pendingOperation == ""
    requires Deleting(l, p).Ok?
    ensures Inv(Deleting(l, p).value, c, now)
  {
    hide Linked, Serving, Publishing, VersionsOk, BlocksOk, Pools, LiveOk, Queued, ProjectCharges, Quotas, Indexed,
      Digested, Named, AllocationsOk, PutProject, Limits.Bytes, Limits.Count, QuotaOk;
    var q := l.quotas[p.owner].(count := l.quotas[p.owner].count - 1);
    var next := p.(status := Deleted, revision := p.revision + 1, policyRevision := p.policyRevision + 1);
    var before := l.(quotas := l.quotas[p.owner := q], digests := Release(l.digests, p.activeDigest, p.id));
    var after := Deleting(l, p).value;
    ServedFacts(l, p);
    PutDerived(before, next, after);
    LinkedIdle(l.projects, l.operations, next);
    ServingPut(l.projects, l.versions, l.removals, next);
    VersionsPut(l.versions, l.projects, l.measured, next);
    AssignedPut(l.projects, l.allocations, next);
    ChargesPut(l.projects, l.versions, next);
    OwnerQuota(l, c, p.owner);
    QuotasOne(l.quotas, q, l.projects, c, next);
    DigestedRelease(l.digests, l.projects, now, next, p.activeDigest);
    NamedKeeps(l.slugs, l.names, l.projects, next);
  }

  lemma OwnerQuota(l: Ledger, c: Limits, o: Owner)
    requires Quotas(l.quotas, l.projects, c)
    ensures QuotaOk(l.quotas, l.projects, c, o)
    ensures 0 <= QuotaAt(l.quotas, o).charged <= c.Bytes(o) && 0 <= QuotaAt(l.quotas, o).count <= c.Count(o)
  {
    hide Limits.Bytes, Limits.Count;
    assert QuotaOk(l.quotas, l.projects, c, o);
  }

  lemma TombstoneInv(l: Ledger, c: Limits, now: int, a: Actor, id: string, revision: int)
    requires Inv(l, c, now) && Tombstone(l, a, id, revision).Ok?
    ensures Inv(Tombstone(l, a, id, revision).value, c, now)
  {
    hide Linked, Serving, Publishing, VersionsOk, BlocksOk, Pools, LiveOk, Queued, ProjectCharges, Quotas, Indexed,
      Digested, Named, AllocationsOk, Assigned, Deleting;
    if l.projects[id].status != Deleted {
      DeletingInv(l.(transfers := l.transfers - {id}), c, now, l.projects[id]);
    }
  }

  lemma ExpireInv(l: Ledger, c: Limits, now: int, id: string)
    requires Inv(l, c, now) && Expire(l, now, id).Ok?
    ensures Inv(Expire(l, now, id).value, c, now)
  {
    hide Linked, Serving, Publishing, VersionsOk, BlocksOk, Pools, LiveOk, Queued, ProjectCharges, Quotas, Indexed,
      Digested, Named, AllocationsOk, Assigned, Deleting;
    if Expire(l, now, id).value != l {
      DeletingInv(l, c, now, l.projects[id]);
    }
  }

  /* ---------- Move to an account ---------- */

  lemma MoveQuotas(l: Ledger, c: Limits, p: Project, next: Project, quotas: map<Owner, Quota>)
    requires Quotas(l.quotas, l.projects, c) && p.id in l.projects && p == l.projects[p.id] && p.status != Deleted
    requires next == p.(owner := next.owner, expiresAt := Never, revision := p.revision + 1) && next.owner != p.owner
    requires p.owner in l.quotas
    requires var from, to := l.quotas[p.owner], QuotaAt(l.quotas, next.owner);
             && quotas == l.quotas[p.owner := Quota(from.count - 1, from.charged - p.chargedBytes)]
                               [next.owner := Quota(to.count + 1, to.charged + p.chargedBytes)]
             && to.count < c.Count(next.owner) && from.count >= 1 && 0 < p.chargedBytes <= from.charged
             && FitsBytes(to.charged, p.chargedBytes, c.Bytes(next.owner))
    ensures Quotas(quotas, l.projects[next.id := next], c)
  {
    hide QuotaOk, Limits.Bytes, Limits.Count;
    forall o: Owner
      ensures QuotaFollows(l.quotas, quotas, l.projects, c, next, o)
    {
      assert QuotaOk(l.quotas, l.projects, c, o);
      QuotaBounds(l.quotas, l.projects, c, o);
    }
    QuotasPut(l.quotas, quotas, l.projects, c, next);
  }

  lemma MovedInv(l: Ledger, c: Limits, now: int, next: Project, before: Ledger, after: Ledger)
    requires Inv(l, c, now) && next.id in l.projects && l.projects[next.id].Live(now)
             && PutProject(before, next) == Ok(after)
    requires next == l.projects[next.id].(owner := next.owner, expiresAt := Never, revision := next.revision)
    requires before == l.(quotas := before.quotas, transfers := before.transfers)
             && Quotas(before.quotas, l.projects[next.id := next], c)
    ensures Inv(after, c, now)
  {
    hide Linked, Serving, Publishing, VersionsOk, BlocksOk, Pools, LiveOk, Queued, ProjectCharges, Quotas, Indexed,
      Digested, Named, AllocationsOk, PutProject;
    ServedFacts(l, l.projects[next.id]);
    PutDerived(before, next, after);
    LinkedKeeps(l.projects, l.operations, next);
    ServingPut(l.projects, l.versions, l.removals, next);
    VersionsPut(l.versions, l.projects, l.measured, next);
    AssignedPut(l.projects, l.allocations, next);
    ChargesPut(l.projects, l.versions, next);
    DigestedLonger(l.digests, l.projects, now, next);
    NamedKeeps(l.slugs, l.names, l.projects, next);
  }

  lemma MoveInv(l: Ledger, c: Limits, now: int, p: Project, uid: string)
    requires Inv(l, c, now) && p.id in l.projects && p == l.projects[p.id] && p.Live(now) && p.pendingOperation == ""
             && p.owner.kind == Anonymous
    requires MoveToAccount(l, c, p, uid).Ok?
    ensures Inv(MoveToAccount(l, c, p, uid).value, c, now)
  {
    hide Linked, Serving, Publishing, VersionsOk, BlocksOk, Pools, LiveOk, Queued, ProjectCharges, Quotas, Indexed,
      Digested, Named, AllocationsOk, Assigned, Identified, PutProject, Limits.Bytes, Limits.Count;
    var account := Owner.Owner(Firebase, uid);
    var from, to := l.quotas[p.owner], QuotaAt(l.quotas, account);
    var quotas :=
      l.quotas[p.owner := Quota(from.count - 1, from.charged - p.chargedBytes)]
              [account := Quota(to.count + 1, to.charged + p.chargedBytes)];
    var next := p.(owner := account, expiresAt := Never, revision := p.revision + 1);
    MoveQuotas(l, c, p, next, quotas);
    MovedInv(l, c, now, next, l.(quotas := quotas, transfers := l.transfers - {p.id}),
             MoveToAccount(l, c, p, uid).value);
  }

  lemma DigestedLonger(digests: map<string, DigestRecord>, projects: ProjectMap, now: int, next: Project)
    requires Digested(digests, projects, now) && next.id in projects && projects[next.id].Live(now)
             && next.activeDigest == projects[next.id].activeDigest
    ensures Digested(digests, projects[next.id := next], now)
  {}

  lemma ClaimInv(l: Ledger, c: Limits, now: int, a: Actor, id: string, revision: int)
    requires Inv(l, c, now) && Claim(l, c, now, a, id, revision).Ok?
    ensures Inv(Claim(l, c, now, a, id, revision).value, c, now)
  {
    hide Linked, Serving, Publishing, VersionsOk, BlocksOk, Pools, LiveOk, Queued, ProjectCharges, Quotas, Indexed,
      Digested, Named, AllocationsOk, Assigned, MoveToAccount;
    var p := l.projects[id];
    if p.owner.kind != Firebase {
      MoveInv(l, c, now, p, a.uid);
    }
  }

  lemma RedeemInv(l: Ledger, c: Limits, now: int, a: Actor, id: string, digest: string)
    requires Inv(l, c, now) && Redeem(l, c, now, a, id, digest).Ok?
    ensures Inv(Redeem(l, c, now, a, id, digest).value, c, now)
  {
    hide Linked, Serving, Publishing, VersionsOk, BlocksOk, Pools, LiveOk, Queued, ProjectCharges, Quotas, Indexed,
      Digested, Named, AllocationsOk, Assigned, MoveToAccount;
    MoveInv(l, c, now, l.projects[id], a.uid);
  }
}
