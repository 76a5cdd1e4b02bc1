/**
 Who gets an acknowledgement: a replicated one of user data always had a second voter, a working leader with room does
 not refuse a valid commit, and such an acknowledgement is reachable.
 */
module ClusterAck {
  import opened Wrappers
  import opened Kv
  import opened Fsm
  import opened Writer
  import opened WriterLaws
  import opened Cluster
  import opened ClusterInv
  import opened ClusterSteps
  import opened ClusterHistory
  import opened ClusterLate

  /* ---------- Where a waiting committer comes from ---------- */

  /** The step is the commit section of this node that began to wait for this proposal. */
  ghost predicate BeginsWaiting(s: System, a: Action, n: NodeId, p: Proposal) {
    && n in s.nodes && a.Commit? && a.n == n
    && var w := s.nodes[n].w;
       && Sane(w) && w.view.Some? && CommitStep(w, a.t, a.size, a.io).1.Waiting?
       && CommitStep(w, a.t, a.size, a.io).1.proposal == p
  }

  lemma CommitterStep(s: System, a: Action, n: NodeId)
    requires Enabled(s, a) && n in s.nodes && n in Next(s, a).nodes && Next(s, a).nodes[n].committer.Blocked?
    ensures var p := Next(s, a).nodes[n].committer.p;
            BeginsWaiting(s, a, n, p) || (s.nodes[n].committer.Blocked? && s.nodes[n].committer.p == p)
  {
    hide Replay, Judge, ReadsMatch, AllServed, ValidTransaction, LeftInDoubt, TakeValid, CommitStep,
      FinishStep, SettleStep, FreshIndex;
    match a {
      case Commit(m, t, size, io, observed) =>
        var (w, outcome) := CommitStep(s.nodes[m].w, t, size, io);
        assert m == n && outcome.Waiting? ==> Next(s, a).nodes[n].committer.p == outcome.proposal;
      case _ =>
    }
  }

  /** Every waiting committer began with a commit of its node. */
  lemma {:induction false} WaitingTraced(states: seq<System>, actions: seq<Action>, j: nat, n: NodeId)
    returns (i: nat)
    requires IsRun(states, actions) && j < |states| && n in states[j].nodes && states[j].nodes[n].committer.Blocked?
    ensures i < j && BeginsWaiting(states[i], actions[i], n, states[j].nodes[n].committer.p)
  {
    hide Enabled, Next, BeginsWaiting, Inv;
    InitFree(states[0]);
    NodesRemain(states[j - 1], actions[j - 1]);
    CommitterStep(states[j - 1], actions[j - 1], n);
    if BeginsWaiting(states[j - 1], actions[j - 1], n, states[j].nodes[n].committer.p) {
      i := j - 1;
    } else {
      i := WaitingTraced(states, actions, j - 1, n);
    }
  }

  lemma InitFree(s: System)
    requires Init(s)
    ensures forall n :: n in s.nodes ==> s.nodes[n].committer == Free
  {}

  /**
   Whenever a commit that writes user data is reported as replicated, it was accepted for replication by a commit
   section of the same node that saw at least two voters.
   */
  lemma ReplicatedAckHasQuorum(states: seq<System>, actions: seq<Action>, j: nat, n: NodeId, authoritative: bool)
    returns (i: nat)
    requires IsRun(states, actions) && j < |states| && n in states[j].nodes
    requires AcknowledgesReplicated(states[j].nodes[n], authoritative)
    requires states[j].nodes[n].committer.p.command.Command?
             && WritesUserData(states[j].nodes[n].committer.p.command.t)
    ensures i < j && actions[i].Commit? && actions[i].n == n && actions[i].io.voters >= 2
    ensures var t := states[j].nodes[n].committer.p.command.t; t == actions[i].t.(revision := t.revision)
  {
    hide CommitStep, AcknowledgesReplicated, Next, Enabled, Init, LocalContentAllowed, ValidTransaction;
    IsBlocked(states[j].nodes[n], authoritative);
    i := WaitingTraced(states, actions, j, n);
    var w, a := states[i].nodes[n].w, actions[i];
    WaitingShape(w, a.t, a.size, a.io);
    CommitExactly(w, a.t, a.size, a.io);
  }

  lemma IsBlocked(node: Node, authoritative: bool)
    requires AcknowledgesReplicated(node, authoritative)
    ensures node.committer.Blocked?
  {}

  lemma WaitingShape(w: State, t: Transaction, size: nat, io: CommitIO)
    requires Sane(w) && w.view.Some? && CommitStep(w, t, size, io).1.Waiting?
    ensures w.sequence < MAX_SEQUENCE && CommitStep(w, t, size, io).1.proposal == Proposed(w, t, size)
  {
    hide Judge, ValidTransaction, LocalContentAllowed, ChecksHold;
  }

  /* ---------- A working leader serves ---------- */

  /**
   The section that prepares a writer is the cluster's rebuild action: it leaves the writer alone or rebuilds it from
   the log that the barrier has applied, and it does rebuild whenever that is possible and its I/O succeeds.
   */
  lemma EnsureIsRebuild(s: System, n: NodeId, raft: RaftStatus, io: RebuildIO, upto: nat)
    requires n in s.nodes && raft.leader == s.nodes[n].leader && raft.term == s.nodes[n].raftTerm
    requires upto <= |s.log| && (s.floor <= raft.term ==> upto == |s.log|)
    ensures var w := s.nodes[n].w; var next := EnsureStep(w, raft, io, Replay(FRESH, s.log[..upto])).0;
            next == w || (Enabled(s, Rebuild(n, upto)) && next == Next(s, Rebuild(n, upto)).nodes[n].w)
    ensures Enabled(s, Rebuild(n, upto)) && !raft.fenced && io.barrier && io.verified && io.journalReset ==>
            EnsureStep(s.nodes[n].w, raft, io, Replay(FRESH, s.log[..upto])).0 == Next(s, Rebuild(n, upto)).nodes[n].w
  {
    hide Replay;
  }

  /**
   In any reachable state a working leader with room in its journal and a revision left takes on every valid, current
   transaction that fits, if there are two voters and the journal and the lease hold.
   */
  lemma WorkingLeaderCommits(states: seq<System>, actions: seq<Action>, i: nat, n: NodeId, t: Transaction, size: nat,
                             io: CommitIO)
    requires IsRun(states, actions) && i < |states| && n in states[i].nodes
    requires var w := states[i].nodes[n].w;
             w.view.Some? && !w.failed && |w.journal| < 64 && w.sequence < 0xffff_ffff
    requires ValidTransaction(t) && size <= 0x10_0000 && io.voters >= 2 && io.journalled && io.authoritative
    requires var records := states[i].nodes[n].w.view.value.core.records;
             && (forall k :: 0 <= k < |t.checks| ==> VersionAt(records, t.checks[k].key) == t.checks[k].version)
             && forall version :: Fits(WriteAll(records, t.writes, version))
    ensures Sane(states[i].nodes[n].w) && !CommitStep(states[i].nodes[n].w, t, size, io).1.Refused?
  {
    hide Inv, IsRun, CommitStep, ValidTransaction, LocalContentAllowed, Fits, WriteAll;
    var w := states[i].nodes[n].w;
    RunInv(states, actions, i);
    SaneHere(states[i], n);
    JournalBounded(states, actions, i, n);
    RevisionAccepted(w, t, size);
    CommitExactly(w, t, size, io);
  }

  lemma SaneHere(s: System, n: NodeId)
    requires Inv(s) && n in s.nodes
    ensures Sane(s.nodes[n].w) && (s.nodes[n].w.view.Some? ==> s.nodes[n].w.term > 0)
  {
    hide Registry, DoubtsOk, CurrentOk, SelfConsistent, HistoryRecorded, Stamped;
    assert NodeOk(n, s.nodes[n], s.leaders, s.floor, s.issued, s.log);
  }

  lemma RevisionAccepted(w: State, t: Transaction, size: nat)
    requires Sane(w) && w.view.Some? && w.term > 0 && w.sequence < MAX_SEQUENCE && ValidTransaction(t)
             && size <= MAX_COMMAND && ChecksHold(w.view.value.core.records, t.checks)
    requires forall version :: Fits(WriteAll(w.view.value.core.records, t.writes, version))
    ensures WouldApply(w, t, size)
  {
    hide Fits, WriteAll, ValidChecks, ValidWrites;
  }

  /* ---------- Such an acknowledgement is reachable ---------- */

  const SAFE_SITE: Transaction := NEW_SITE.(durability := Replicated)
  const THREE_VOTERS: CommitIO := CommitIO(3, true, true)
  const SAFE_PROPOSAL: Proposal := Proposal(Command(SAFE_SITE.(revision := Revision(1, 1)), 2), 1)
  const SAFE_PREVIEW: Replica :=
    Replica(Core(map[SITE_KEY := Record(Revision(1, 1), NEW_SITE.writes[0].value)], Revision(1, 1),
                 Link(Genesis, SAFE_PROPOSAL.command)), Revision(1, 1))

  lemma SafeSiteValid(revision: Uint64)
    ensures ValidTransaction(SAFE_SITE.(revision := revision))
  {
    NewSiteValid(revision);
  }

  /** The empty state accepts the proposal and becomes the preview. */
  lemma SafeSiteApplies(index: Uint64)
    ensures Judge(EMPTY_CORE, Entry(index, 1, SAFE_PROPOSAL.command)) == Accepted(SAFE_PREVIEW.core)
  {
    hide Fits, ValidTransaction, DocumentKey;
    var e := Entry(index, 1, SAFE_PROPOSAL.command);
    SafeSiteValid(Revision(1, 1));
    NewSiteFits(Revision(1, 1));
    assert Objection(map[], e) == None;
    var writes := NEW_SITE.writes;
    assert writes[..0] == [] && WriteAll(map[], writes[..0], Revision(1, 1)) == map[];
    assert WriteAll(map[], writes, Revision(1, 1)) == map[SITE_KEY := Record(Revision(1, 1), writes[0].value)];
  }

  lemma SafeSiteWaits(w: State)
    requires w == State(Some(FRESH), 1, 0, false, 0, {}, [])
    ensures CommitStep(w, SAFE_SITE, 2, THREE_VOTERS) ==
            (w.(sequence := 1, journal := {Revision(1, 1)}, queue := [SAFE_PROPOSAL], outstanding := 1),
             Waiting(SAFE_PROPOSAL, SAFE_PREVIEW))
  {
    hide Judge, ValidTransaction, LocalContentAllowed;
    SafeSiteValid(0);
    SafeSiteApplies(Revision(1, 1));
    assert !LocalContentAllowed(SAFE_SITE, map[]) by { NotLocal(SAFE_SITE, map[]); }
    assert SAFE_SITE.(revision := 0) == SAFE_SITE;
    assert Proposed(w, SAFE_SITE, 2) == SAFE_PROPOSAL;
    assert {} + {Revision(1, 1)} == {Revision(1, 1)} && [] + [SAFE_PROPOSAL] == [SAFE_PROPOSAL];
  }

  lemma NotLocal(t: Transaction, records: Records)
    requires t.durability == Replicated
    ensures !LocalContentAllowed(t, records)
  {}

  lemma WaitingReachable(n: NodeId) returns (states: seq<System>, actions: seq<Action>)
    ensures IsRun(states, actions) && |states| == 5 == |actions| + 1 && n in states[4].nodes
    ensures actions[3].Commit? && actions[3].n == n && actions[3].t == SAFE_SITE && actions[3].size == 2
            && actions[3].io == THREE_VOTERS
    ensures var s, node := states[4], states[4].nodes[n];
            && node.leader && node.raftTerm == 1 && node.worker == Idle && s.leaders == map[1 := n] && s.log == []
            && s.floor == 1
            && node.committer == Blocked(SAFE_PROPOSAL, SAFE_PREVIEW, Unsettled)
            && node.w == State(Some(FRESH), 1, 1, false, 1, {Revision(1, 1)}, [SAFE_PROPOSAL])
  {
    hide CommitStep, Init, Replay, Judge, ValidTransaction, LocalContentAllowed;
    var prefix, done := WriterReachable(n);
    SafeSiteWaits(prefix[3].nodes[n].w);
    var commit := Commit(n, SAFE_SITE, 2, THREE_VOTERS, [Observation(SITE_KEY, None)]);
    RunExtends(prefix, done, commit);
    states, actions := prefix + [Next(prefix[3], commit)], done + [commit];
  }

  /** The worker takes the proposal and Raft applies it. */
  lemma AppliedReachable(n: NodeId) returns (states: seq<System>, actions: seq<Action>)
    ensures IsRun(states, actions) && |states| == 7 == |actions| + 1 && n in states[6].nodes
    ensures actions[3].Commit? && actions[3].n == n && actions[3].t == SAFE_SITE && actions[3].size == 2
            && actions[3].io == THREE_VOTERS
    ensures var s, node := states[6], states[6].nodes[n];
            && s.log == [Entry(1, 1, SAFE_PROPOSAL.command)] && s.leaders == map[1 := n]
            && node.worker == Taken(SAFE_PROPOSAL, true, AppliedOk)
            && node.committer == Blocked(SAFE_PROPOSAL, SAFE_PREVIEW, Unsettled)
            && node.w == State(Some(FRESH), 1, 1, false, 1, {Revision(1, 1)}, [])
  {
    hide CommitStep, Init, Judge, IsRun;
    var prefix, done := WaitingReachable(n);
    var taken := Next(prefix[4], Take(n, true));
    SafeSiteApplies(1);
    RunExtends(prefix, done, Take(n, true));
    RunExtends(prefix + [taken], done + [Take(n, true)], Append(n, 1, 1));
    states := prefix + [taken] + [Next(taken, Append(n, 1, 1))];
    actions := done + [Take(n, true)] + [Append(n, 1, 1)];
  }

  /** A commit of user data in a cluster of three voters that is reported as replicated. */
  lemma ReplicatedAckReachable(n: NodeId) returns (states: seq<System>, actions: seq<Action>)
    ensures IsRun(states, actions) && |states| == 9 && n in states[7].nodes && n in states[8].nodes
    ensures actions[3].Commit? && actions[3].n == n && actions[3].t == SAFE_SITE && actions[3].io.voters == 3
            && actions[7] == Finish(n, true)
    ensures AcknowledgesReplicated(states[7].nodes[n], true) && WritesUserData(SAFE_SITE)
    ensures states[8].nodes[n].w.view == Some(SAFE_PREVIEW) && states[8].nodes[n].committer == Free
            && states[8].nodes[n].w.journal == {}
  {
    hide CommitStep, Init, Judge, IsRun, Replay;
    assert !("cluster_" <= SITE_KEY.collection) by { assert SITE_KEY.collection[0] == 'p'; }
    assert SAFE_SITE.writes[0].key == SITE_KEY;
    var prefix, done := AppliedReachable(n);
    var settle := Settle(n, true, true, 1);
    var settled := Next(prefix[6], settle);
    RunExtends(prefix, done, settle);
    RunExtends(prefix + [settled], done + [settle], Finish(n, true));
    states := prefix + [settled] + [Next(settled, Finish(n, true))];
    actions := done + [settle] + [Finish(n, true)];
  }
}
