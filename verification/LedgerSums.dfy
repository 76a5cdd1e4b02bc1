/** Totals over the stored versions and over the projects, and how one update changes them. */
module LedgerSums {
  import opened Projects
  import opened LedgerRules
  import Sums

  /** What is added up over the versions that have not been reclaimed. */
  datatype VersionMeasure =
    | QuotaOf(project: string)
    | ContentOf(app: AppName)
    | NumberOf(app: AppName)
    | InodesOf(app: AppName)
    | SpaceOf(app: AppName, block: int)

  /** Space and inodes are counted for measured versions only; older ones are held in the pool's legacy reserve. */
  function Weigh(m: VersionMeasure, id: VersionId, v: Version): int {
    if v.state == Reclaimed then 0
    else match m
         case QuotaOf(project) => if id.project == project then v.quotaBytes else 0
         case ContentOf(app) => if v.app == app then v.contentBytes else 0
         case NumberOf(app) => if v.app == app then 1 else 0
         case InodesOf(app) => if v.app == app && !v.unverified then v.inodes else 0
         case SpaceOf(app, block) => if v.app == app && !v.unverified then v.bytes + v.inodes * (block - v.block) else 0
  }

  ghost function Weighing(m: VersionMeasure): (VersionId, Version) -> int { (id, v) => Weigh(m, id, v) }

  ghost function Sum(versions: map<VersionId, Version>, m: VersionMeasure): int { Sums.OverMap(versions, Weighing(m)) }

  lemma SumWithout(versions: map<VersionId, Version>, m: VersionMeasure, id: VersionId)
    requires id in versions
    ensures Sum(versions, m) == Weigh(m, id, versions[id]) + Sum(versions - {id}, m)
  {
    Sums.MapWithout(versions, Weighing(m), id);
  }

  /** Replacing or adding one version changes a total by that version's share. */
  lemma SumUpdate(versions: map<VersionId, Version>, m: VersionMeasure, id: VersionId, v: Version)
    ensures Sum(versions[id := v], m) ==
            Sum(versions, m) - (if id in versions then Weigh(m, id, versions[id]) else 0) + Weigh(m, id, v)
  {
    hide Weigh;
    Sums.MapUpdate(versions, Weighing(m), id, v);
  }

  lemma SumNonNegative(versions: map<VersionId, Version>, m: VersionMeasure)
    requires forall id :: id in versions ==> Weigh(m, id, versions[id]) >= 0
    ensures Sum(versions, m) >= 0
    ensures forall id :: id in versions ==> Weigh(m, id, versions[id]) <= Sum(versions, m)
  {
    hide Weigh;
    Sums.MapNonNegative(versions, Weighing(m));
    forall id | id in versions
      ensures Weigh(m, id, versions[id]) <= Sum(versions, m)
    {
      assert Weighing(m)(id, versions[id]) == Weigh(m, id, versions[id]);
    }
  }

  lemma SumEmpty(m: VersionMeasure)
    ensures Sum(map[], m) == 0
  {}

  /** Moving to another accounting block costs the difference on every measured inode. */
  lemma {:induction false} SpaceGrows(versions: map<VersionId, Version>, app: AppName, b: int, c: int)
    ensures Sum(versions, SpaceOf(app, c)) == Sum(versions, SpaceOf(app, b)) + Sum(versions, InodesOf(app)) * (c - b)
    decreases |versions|
  {
    hide Weigh, Sum;
    if versions == map[] {
      SumEmpty(SpaceOf(app, c));
      SumEmpty(SpaceOf(app, b));
      SumEmpty(InodesOf(app));
    } else {
      var id :| id in versions;
      SumWithout(versions, SpaceOf(app, c), id);
      SumWithout(versions, SpaceOf(app, b), id);
      SumWithout(versions, InodesOf(app), id);
      SpaceGrows(versions - {id}, app, b, c);
      SpaceOne(id, versions[id], app, b, c);
      Distribute(Weigh(InodesOf(app), id, versions[id]), Sum(versions - {id}, InodesOf(app)), c - b);
    }
  }

  lemma Distribute(x: int, y: int, z: int)
    ensures (x + y) * z == x * z + y * z
  {}

  lemma SpaceOne(id: VersionId, v: Version, app: AppName, b: int, c: int)
    ensures Weigh(SpaceOf(app, c), id, v) == Weigh(SpaceOf(app, b), id, v) + Weigh(InodesOf(app), id, v) * (c - b)
  {
    assert v.inodes * (c - v.block) == v.inodes * (b - v.block) + v.inodes * (c - b);
  }

  /** A total that no version contributes to. */
  lemma SumZero(versions: map<VersionId, Version>, m: VersionMeasure)
    requires forall id :: id in versions ==> Weigh(m, id, versions[id]) == 0
    ensures Sum(versions, m) == 0
  {
    hide Weigh;
    Sums.MapZero(versions, Weighing(m));
  }

  /* ---------- Projects ---------- */

  datatype ProjectMeasure = ChargedOf(owner: Owner) | CountOf(owner: Owner) | LiveOf(app: AppName)

  function WeighProject(m: ProjectMeasure, p: Project): int {
    match m
    case ChargedOf(owner) => if p.owner == owner then p.chargedBytes else 0
    case CountOf(owner) => if p.owner == owner && p.status != Deleted then 1 else 0
    case LiveOf(app) => if p.storageApp == app then LiveBytesOf(p) else 0
  }

  ghost function WeighingProject(m: ProjectMeasure): (string, Project) -> int { (id, p) => WeighProject(m, p) }

  ghost function Total(projects: map<string, Project>, m: ProjectMeasure): int {
    Sums.OverMap(projects, WeighingProject(m))
  }

  lemma TotalWithout(projects: map<string, Project>, m: ProjectMeasure, id: string)
    requires id in projects
    ensures Total(projects, m) == WeighProject(m, projects[id]) + Total(projects - {id}, m)
  {
    hide WeighProject;
    Sums.MapWithout(projects, WeighingProject(m), id);
  }

  lemma TotalUpdate(projects: map<string, Project>, m: ProjectMeasure, id: string, p: Project)
    ensures Total(projects[id := p], m) ==
            Total(projects, m) - (if id in projects then WeighProject(m, projects[id]) else 0) + WeighProject(m, p)
  {
    hide WeighProject;
    Sums.MapUpdate(projects, WeighingProject(m), id, p);
  }

  lemma TotalNonNegative(projects: map<string, Project>, m: ProjectMeasure)
    requires forall id :: id in projects ==> WeighProject(m, projects[id]) >= 0
    ensures Total(projects, m) >= 0
    ensures forall id :: id in projects ==> WeighProject(m, projects[id]) <= Total(projects, m)
  {
    hide WeighProject;
    Sums.MapNonNegative(projects, WeighingProject(m));
    forall id | id in projects
      ensures WeighProject(m, projects[id]) <= Total(projects, m)
    {
      assert WeighingProject(m)(id, projects[id]) == WeighProject(m, projects[id]);
    }
  }

  lemma TotalEmpty(m: ProjectMeasure)
    ensures Total(map[], m) == 0
  {}

  /* ---------- Live content is stored content ---------- */

  /** The version a project serves is stored in the project's pool and has the size the project reports. */
  ghost predicate ServedStored(p: Project, versions: map<VersionId, Version>) {
    p.status == Active ==>
      && CurrentVersion(p) in versions
      && var v := versions[CurrentVersion(p)];
         v.app == p.storageApp && v.state != Reclaimed && v.contentBytes == p.activeBytes
  }

  /** Different projects serve different versions, so live bytes never exceed stored bytes. */
  lemma {:induction false} LiveWithinContent(projects: map<string, Project>, versions: map<VersionId, Version>,
                                             app: AppName)
    requires forall id :: id in projects ==> projects[id].id == id && ServedStored(projects[id], versions)
    requires forall id :: id in versions ==> versions[id].contentBytes >= 0
    ensures Total(projects, LiveOf(app)) <= Sum(versions, ContentOf(app))
    decreases |projects|
  {
    hide Sum, Total, ServedStored, Weigh, WeighProject;
    if projects == map[] {
      TotalEmpty(LiveOf(app));
      ContentNonNegative(versions, app);
    } else {
      var id :| id in projects;
      var p := projects[id];
      TotalWithout(projects, LiveOf(app), id);
      if p.status == Active {
        var current := CurrentVersion(p);
        OneServed(p, versions, app);
        SumWithout(versions, ContentOf(app), current);
        forall j | j in projects - {id}
          ensures ServedStored(projects[j], versions - {current})
        {
          ServedElsewhere(projects[j], versions, current);
        }
        LiveWithinContent(projects - {id}, versions - {current}, app);
      } else {
        OneServed(p, versions, app);
        LiveWithinContent(projects - {id}, versions, app);
      }
    }
  }

  lemma ContentNonNegative(versions: map<VersionId, Version>, app: AppName)
    requires forall id :: id in versions ==> versions[id].contentBytes >= 0
    ensures Sum(versions, ContentOf(app)) >= 0
  {
    hide Sum;
    SumNonNegative(versions, ContentOf(app));
  }

  /** What a project serves is no more than what its current version stores. */
  lemma OneServed(p: Project, versions: map<VersionId, Version>, app: AppName)
    requires ServedStored(p, versions)
    ensures p.status == Active ==>
            CurrentVersion(p) in versions
            && WeighProject(LiveOf(app), p) == Weigh(ContentOf(app), CurrentVersion(p), versions[CurrentVersion(p)])
    ensures p.status != Active ==> WeighProject(LiveOf(app), p) == 0
  {}

  lemma ServedElsewhere(p: Project, versions: map<VersionId, Version>, other: VersionId)
    requires ServedStored(p, versions) && p.id != other.project
    ensures ServedStored(p, versions - {other})
  {}
}
