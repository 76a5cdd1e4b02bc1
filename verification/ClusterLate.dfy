/**
 A run in which a write that was acknowledged before replication is committed and refused: its leader loses the
 leadership and regains it before the worker hands the write to Raft, which stamps it with the later term.
 */
module ClusterLate {
  import opened Wrappers
  import opened Projects
  import opened Kv
  import opened Fsm
  import opened Writer
  import opened Cluster
  import opened ClusterSteps

  const SITE: Project :=
    Project("p", "", "", Owner(Firebase, "u"), "s", "", 0, "", "", 0, 0, 1, 1, false, false, "", 0, Reserved, "", 0, 0,
            Never)
  const SITE_KEY: Key := Key("projects", "p")
  const NEW_SITE: Transaction :=
    Transaction(1, [Check(SITE_KEY, 0)], [Write(SITE_KEY, Value(ProjectBody(SITE), 2, true), false)], Local, 0)
  const ONE_VOTER: CommitIO := CommitIO(1, true, true)

  lemma NewSiteValid(revision: Uint64)
    ensures ValidTransaction(NEW_SITE.(revision := revision))
  {
    assert NEW_SITE.checks[0].key == SITE_KEY;
    assert SITE_KEY in CheckedKeys(NEW_SITE.checks);
    assert DocumentKey(SITE_KEY);
  }

  lemma NewSiteFits(version: Uint64)
    ensures Fits(WriteAll(map[], NEW_SITE.writes, version))
  {
    var w := NEW_SITE.writes[0];
    assert NEW_SITE.writes[..0] == [];
    assert WriteAll(map[], NEW_SITE.writes, version) == WriteOne(map[], w, version);
    TotalBytesAfterWrite(map[], w, version);
  }

  /** An empty writer acknowledges the reservation of a new site before replication. */
  lemma NewSiteAcknowledged(w: State)
    requires w.view == Some(FRESH) && w.term == 1 && w.sequence == 0 && w.journal == {} && w.queue == []
    ensures var (next, outcome) := CommitStep(w, NEW_SITE, 2, ONE_VOTER);
            && outcome == Acknowledged && next.view.Some?
            && next == w.(view := next.view, sequence := 1, journal := next.journal,
                          queue := [Proposed(w, NEW_SITE, 2)], outstanding := w.outstanding + 1)
  {
    hide Fits, ValidTransaction, WriteAll, DocumentKey;
    NewSiteValid(0);
    NewSiteValid(Revision(1, 1));
    assert LocalWrite(NEW_SITE.writes[0], NEW_SITE.writes, map[]);
    assert LocalContentAllowed(NEW_SITE, map[]);
    NewSiteFits(Revision(1, 1));
  }

  /** The leader of term 1 has acknowledged the new site, and its worker has not come to it yet. */
  ghost predicate Queued(s: System, n: NodeId) {
    && n in s.nodes && s.nodes[n].leader && s.nodes[n].raftTerm == 1 && s.nodes[n].w.term == 1 && !s.nodes[n].w.failed
    && s.nodes[n].worker == Idle
    && s.nodes[n].w.queue == [Proposal(Command(NEW_SITE.(revision := Revision(1, 1)), 2), 1)]
    && s.leaders == map[1 := n] && s.log == [] && s.floor == 1
  }

  lemma WriterReachable(n: NodeId) returns (states: seq<System>, actions: seq<Action>)
    ensures IsRun(states, actions) && |states| == 4
    ensures states[3].nodes.Keys == {n} && states[3].leaders == map[1 := n] && states[3].log == []
            && states[3].floor == 1 && states[3].served == {Observation(SITE_KEY, None)}
    ensures var node := states[3].nodes[n];
            && node.leader && node.raftTerm == 1 && node.worker == Idle && node.committer == Free
            && node.w == State(Some(FRESH), 1, 0, false, 0, {}, [])
  {
    hide Judge;
    var s0 := System(map[n := FRESH_NODE], map[], [], 0, {}, map[], {});
    var s1 := Next(s0, Elect(n, 1));
    var s2 := Next(s1, Rebuild(n, 0));
    var s3 := Next(s2, Observe(n, SITE_KEY));
    states, actions := [s0, s1, s2, s3], [Elect(n, 1), Rebuild(n, 0), Observe(n, SITE_KEY)];
  }

  lemma QueuedReachable(n: NodeId) returns (states: seq<System>, actions: seq<Action>)
    ensures IsRun(states, actions) && |states| == 5 == |actions| + 1 && n in states[3].nodes
    ensures actions[3].Commit? && actions[3].n == n && actions[3].t == NEW_SITE
    ensures var w := states[3].nodes[n].w;
            Sane(w) && w.view.Some? && CommitStep(w, NEW_SITE, 2, ONE_VOTER).1.Acknowledged?
    ensures Queued(states[4], n)
  {
    hide CommitStep, Init, Replay;
    var prefix, done := WriterReachable(n);
    NewSiteAcknowledged(prefix[3].nodes[n].w);
    var commit := Commit(n, NEW_SITE, 2, ONE_VOTER, [Observation(SITE_KEY, None)]);
    RunExtends(prefix, done, commit);
    states, actions := prefix + [Next(prefix[3], commit)], done + [commit];
  }

  /** A run followed by one more step is a run. */
  lemma RunExtends(states: seq<System>, actions: seq<Action>, a: Action)
    requires IsRun(states, actions) && Enabled(states[|actions|], a)
    ensures IsRun(states + [Next(states[|actions|], a)], actions + [a])
  {
    hide Enabled, Next, Init;
    var all, steps := states + [Next(states[|actions|], a)], actions + [a];
    forall i | 0 <= i < |steps|
      ensures Enabled(all[i], steps[i]) && all[i + 1] == Next(all[i], steps[i])
    {
      if i < |actions| { assert Enabled(states[i], actions[i]) && states[i + 1] == Next(states[i], actions[i]); }
    }
  }

  /** The node steps down and is elected again, and its worker still finds the proposal valid. */
  lemma TakenReachable(n: NodeId) returns (states: seq<System>, actions: seq<Action>)
    ensures IsRun(states, actions) && |states| == 8 == |actions| + 1 && n in states[3].nodes
    ensures actions[3].Commit? && actions[3].n == n && actions[3].t == NEW_SITE
    ensures var w := states[3].nodes[n].w;
            Sane(w) && w.view.Some? && CommitStep(w, NEW_SITE, 2, ONE_VOTER).1.Acknowledged?
    ensures var s := states[7];
            && n in s.nodes && s.leaders == map[1 := n, 2 := n] && s.log == [] && s.floor == 1
            && s.nodes[n].worker ==
               Taken(Proposal(Command(NEW_SITE.(revision := Revision(1, 1)), 2), 1), true, Unapplied)
  {
    hide CommitStep, Init, Replay, IsRun;
    var prefix, done := QueuedReachable(n);
    var s5 := Next(prefix[4], StepDown(n, 1));
    var s6 := Next(s5, Elect(n, 2));
    RunExtends(prefix, done, StepDown(n, 1));
    RunExtends(prefix + [s5], done + [StepDown(n, 1)], Elect(n, 2));
    RunExtends(prefix + [s5] + [s6], done + [StepDown(n, 1)] + [Elect(n, 2)], Take(n, true));
    states := prefix + [s5] + [s6] + [Next(s6, Take(n, true))];
    actions := done + [StepDown(n, 1)] + [Elect(n, 2)] + [Take(n, true)];
  }

  /** Raft then stamps the proposal with the new term, and the committed entry is refused. */
  lemma LocalAckRefused(n: NodeId) returns (states: seq<System>, actions: seq<Action>)
    ensures IsRun(states, actions) && |states| == 9 && n in states[3].nodes && n in states[8].nodes
    ensures actions[3].Commit? && actions[3].n == n && actions[3].t == NEW_SITE
    ensures var w := states[3].nodes[n].w;
            Sane(w) && w.view.Some? && CommitStep(w, NEW_SITE, 2, ONE_VOTER).1.Acknowledged?
    ensures states[8].log == [Entry(1, 2, Command(NEW_SITE.(revision := Revision(1, 1)), 2))]
    ensures states[8].nodes[n].worker.Taken? && states[8].nodes[n].worker.fate == AppliedRejected(ErrInvalid)
    ensures states[8].Replicated() == Replica(EMPTY_CORE, 1)
  {
    hide CommitStep, Init, Judge, IsRun;
    var prefix, done := TakenReachable(n);
    var e := Entry(1, 2, prefix[7].nodes[n].worker.p.command);
    LateRefused(EMPTY_CORE, e);
    assert [e][..0] == [];
    RunExtends(prefix, done, Append(n, 2, 1));
    states, actions := prefix + [Next(prefix[7], Append(n, 2, 1))], done + [Append(n, 2, 1)];
  }
}
