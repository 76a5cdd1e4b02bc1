/**
 Consequences over whole runs: what a replicated acknowledgement implies for the
 local ones before it, what discarding speculative history can lose, the bound on
 the journal, and what a read stamp names.
 */
module ClusterHistory {
  import opened Wrappers
  import opened Projects
  import opened Kv
  import opened Fsm
  import opened Writer
  import opened Cluster
  import opened ClusterInv
  import opened ClusterProof
  import opened ClusterSteps
  import opened ClusterTheorems

  /* ---------- Settled proposals form a gap-free prefix ---------- */

  /** The applied prefix of a history stands in the log, in order and without gaps, right after the rebuild point. */
  ghost predicate PrefixLogged(chain: seq<Issue>, applied: nat, mark: nat, log: seq<Entry>) {
    && applied <= |chain| && mark + applied <= |log|
    && (forall i :: 0 <= i < applied ==> Holds(log[mark + i], chain[i].p))
  }

  ghost predicate SettledInOrder(node: Node, log: seq<Entry>) {
    node.w.view.Some? ==>
      && Progress(node.chain, |node.chain| - |node.w.queue|, node.w.failed, node.worker, node.applied, node.seen)
      && PrefixLogged(node.chain, node.applied, node.mark, log)
  }

  lemma SettledLater(node: Node, next: Node, log: seq<Entry>, later: seq<Entry>)
    requires SettledInOrder(node, log) && log <= later
    requires next == node.(leader := next.leader, raftTerm := next.raftTerm)
    ensures SettledInOrder(next, later)
  {}

  lemma CurrentSettled(n: NodeId, node: Node, s: System)
    requires NodeOk(n, node, s.leaders, s.floor, s.issued, s.log) && CurrentOk(node, s.floor, s.log, s.doubt)
             && node.w.term == s.floor
    ensures SettledInOrder(node, s.log)
  {
    hide SelfConsistent, HistoryRecorded, Stamped, Replay, DoubtIsNext;
  }

  lemma GrownSettled(node: Node, next: Node, x: Issue, log: seq<Entry>)
    requires SettledInOrder(node, log) && node.w.view.Some? && !node.w.failed && node.seen == |node.chain|
             && next.chain == node.chain + [x]
    requires next == node.(chain := next.chain, seen := next.seen, w := next.w, committer := next.committer)
    requires next.seen == if x.local then |next.chain| else node.seen
    requires !next.w.failed && |next.w.queue| == |node.w.queue| + 1
    ensures SettledInOrder(next, log)
  {}

  lemma RefusedSettled(node: Node, w: State, log: seq<Entry>)
    requires SettledInOrder(node, log) && w.view == node.w.view && w.queue == node.w.queue
             && (node.w.failed ==> w.failed)
    ensures SettledInOrder(node.(w := w), log)
  {}

  lemma AllSeen(n: NodeId, node: Node, s: System)
    requires NodeOk(n, node, s.leaders, s.floor, s.issued, s.log) && node.w.view.Some? && !node.w.failed
             && node.committer == Free
    ensures node.seen == |node.chain|
  {}

  lemma CommitSettled(s: System, n: NodeId, tx: Transaction, size: nat, io: CommitIO, observed: seq<Observation>)
    requires Inv(s) && n in s.nodes && Enabled(s, Commit(n, tx, size, io, observed))
             && SettledInOrder(s.nodes[n], s.log)
    ensures n in Next(s, Commit(n, tx, size, io, observed)).nodes
            && SettledInOrder(Next(s, Commit(n, tx, size, io, observed)).nodes[n], s.log)
  {
    hide Registry, DoubtsOk, NodeOk, CurrentOk, CommitStep, ReadsMatch, AllServed, ValidTransaction, Links,
      SettledInOrder;
    var node := s.nodes[n];
    var (w, outcome) := CommitStep(node.w, tx, size, io);
    var next := Next(s, Commit(n, tx, size, io, observed)).nodes[n];
    assert NodeOk(n, node, s.leaders, s.floor, s.issued, s.log);
    AllSeen(n, node, s);
    match outcome
    case Refused(_) =>
      RefusedShape(node.w, tx, size, io, w);
      RefusedSettled(node, w, s.log);
    case Acknowledged =>
      AcknowledgedView(node.w, tx, size, io);
      EnqueuedShape(node.w, tx, size, io, w, outcome, w.view.value.core);
      GrownSettled(node, next, next.chain[|node.chain|], s.log);
    case Waiting(p, preview) =>
      EnqueuedShape(node.w, tx, size, io, w, outcome, preview.core);
      GrownSettled(node, next, next.chain[|node.chain|], s.log);
  }

  lemma FinishSettled(n: NodeId, node: Node, authoritative: bool, s: System)
    requires NodeOk(n, node, s.leaders, s.floor, s.issued, s.log) && SettledInOrder(node, s.log)
    requires node.committer.Blocked? && !node.committer.result.Unsettled?
    ensures SettledInOrder(FinishEffect(node, authoritative), s.log)
  {
    hide Linked, Numbered, Journalled, HistoryRecorded, Stamped;
    var next := FinishEffect(node, authoritative);
    assert Queueing(node.chain, node.w.queue, node.w.outstanding, node.worker);
    FinishNode(n, node, next, authoritative, s);
  }

  lemma SettleSettled(node: Node, future: bool, journalled: bool, log: seq<Entry>)
    requires SelfConsistent(node) && SettledInOrder(node, log)
    requires node.worker.Taken? && node.worker.p.command.Command?
    ensures SettledInOrder(SettleEffect(node, future, journalled), log)
  {
    hide Linked, Journalled, PrefixLogged;
    SettleLocal(node, future, journalled, SettleEffect(node, future, journalled));
  }

  lemma TakeSettled(node: Node, authoritative: bool, log: seq<Entry>)
    requires SettledInOrder(node, log) && node.worker == Idle && node.w.queue != []
    ensures SettledInOrder(node.(w := TakeStep(node.w),
                                 worker := Taken(node.w.queue[0], TakeValid(node.w, node.w.queue[0], authoritative),
                                                 Unapplied)), log)
  {}

  lemma RebuildSettled(s: System, n: NodeId, upto: nat)
    requires Inv(s) && Enabled(s, Rebuild(n, upto))
    ensures SettledInOrder(Next(s, Rebuild(n, upto)).nodes[n], s.log)
  {
    hide Registry, DoubtsOk, HistoryRecorded, Stamped, CurrentOk, Replay, Linked, Numbered, Journalled, Shown, Waits;
    assert NodeOk(n, s.nodes[n], s.leaders, s.floor, s.issued, s.log);
  }

  /** Which node an action is a section of, if it changes a writer's own history. */
  ghost predicate SectionOf(a: Action, n: NodeId) {
    match a
    case Restart(m, _) => m == n
    case Rebuild(m, _) => m == n
    case Commit(m, _, _, _, _) => m == n
    case Finish(m, _) => m == n
    case Cancel(m) => m == n
    case Take(m, _) => m == n
    case Settle(m, _, _, _) => m == n
    case _ => false
  }

  lemma SectionSettled(s: System, a: Action, n: NodeId)
    requires Inv(s) && Enabled(s, a) && SectionOf(a, n) && SettledInOrder(s.nodes[n], s.log)
    ensures n in Next(s, a).nodes && Next(s, a).log == s.log && SettledInOrder(Next(s, a).nodes[n], s.log)
  {
    hide SettledInOrder, SelfConsistent, CommitEffect, Registry, DoubtsOk, HistoryRecorded, Stamped, CurrentOk,
      Positioned, ReadsMatch, Sane, CommitStep;
    assert NodeOk(n, s.nodes[n], s.leaders, s.floor, s.issued, s.log);
    match a {
      case Restart(_, _) =>
        FreshSettled(s.nodes[n], s.log);
      case Rebuild(_, upto) => RebuildSettled(s, n, upto);
      case Commit(_, tx, size, io, observed) =>
        CommitSettled(s, n, tx, size, io, observed);
        CommitKeeps(s, n, tx, size, io, observed);
        CommitNodes(s, n, tx, size, io, observed);
      case Finish(_, authoritative) => FinishSettled(n, s.nodes[n], authoritative, s);
      case Cancel(_) => CancelSettled(s.nodes[n], s.log);
      case Take(_, authoritative) => TakeSettled(s.nodes[n], authoritative, s.log);
      case Settle(_, future, journalled, _) => SettleSettled(s.nodes[n], future, journalled, s.log);
    }
  }

  lemma CommitNodes(s: System, n: NodeId, tx: Transaction, size: nat, io: CommitIO, observed: seq<Observation>)
    requires Enabled(s, Commit(n, tx, size, io, observed))
    ensures var t := CommitEffect(s, n, tx, size, io, observed);
            t.nodes.Keys == s.nodes.Keys && forall m :: m in s.nodes && m != n ==> t.nodes[m] == s.nodes[m]
  {
    hide CommitStep, ReadsMatch, AllServed;
  }

  lemma FreshSettled(node: Node, log: seq<Entry>)
    ensures SettledInOrder(FRESH_NODE.(raftTerm := node.raftTerm, w := INITIAL.(journal := node.w.journal)), log)
  {}

  lemma CancelSettled(node: Node, log: seq<Entry>)
    requires SettledInOrder(node, log)
    ensures SettledInOrder(node.(w := CancelStep(node.w), committer := Free), log)
  {}

  /** The log has refused the entry that the worker handed over too late, and nothing else has changed. */
  ghost predicate RefusedLate(node: Node, next: Node) {
    HandedToRaft(node.worker) && next == node.(worker := node.worker.(fate := AppliedRejected(ErrInvalid)))
  }

  lemma RefusedLateSettled(node: Node, next: Node, log: seq<Entry>, later: seq<Entry>)
    requires SettledInOrder(node, log) && log <= later && RefusedLate(node, next)
    ensures SettledInOrder(next, later)
  {}

  /** A step that is not a section of node n leaves n's history alone, unless it applies an entry of n's current
      term or refuses a late one. */
  lemma OutsideStep(s: System, a: Action, n: NodeId)
    requires Inv(s) && Enabled(s, a) && !SectionOf(a, n) && n in Next(s, a).nodes
    ensures var t := Next(s, a);
            && n in s.nodes && s.log <= t.log
            && (t.nodes[n] == s.nodes[n].(leader := t.nodes[n].leader, raftTerm := t.nodes[n].raftTerm)
                || (t.nodes[n].w.term == t.floor && t.nodes[n].chain == s.nodes[n].chain)
                || RefusedLate(s.nodes[n], t.nodes[n]))
  {
    hide Inv, Replay, Judge, ReadsMatch, AllServed, CommitEffect, ValidTransaction, FinishEffect, SettleEffect,
      RebuiltNode, LeftInDoubt, TakeValid;
    match a {
      case Append(m, term, index) =>
        TakenTerm(s, m);
        if term != s.nodes[m].worker.p.term {
          var x := LateFacts(s, m, term);
          LateRefused(s.Replicated().core, Entry(index, term, x.p.command));
        }
      case Commit(m, tx, size, io, observed) =>
        CommitNodes(s, m, tx, size, io, observed);
        CommitKeeps(s, m, tx, size, io, observed);
      case _ =>
    }
  }

  lemma TakenTerm(s: System, n: NodeId)
    requires Inv(s) && n in s.nodes && s.nodes[n].worker.Taken?
    ensures s.nodes[n].worker.p.term == s.nodes[n].w.term
  {
    hide Registry, DoubtsOk, HistoryRecorded, Stamped, CurrentOk, Linked, Shown, Waits, Journalled;
    var node := s.nodes[n];
    assert NodeOk(n, node, s.leaders, s.floor, s.issued, s.log);
    assert IssueNumbered(node.chain[|node.chain| - |node.w.queue| - 1], node.w.term, node.w.sequence);
  }

  lemma StepSettled(s: System, a: Action, n: NodeId)
    requires Inv(s) && Enabled(s, a) && n in Next(s, a).nodes
    requires n in s.nodes ==> SettledInOrder(s.nodes[n], s.log)
    ensures SettledInOrder(Next(s, a).nodes[n], Next(s, a).log)
  {
    hide Enabled, Next, SettledInOrder, NodeOk, CurrentOk, Registry, DoubtsOk;
    var t := Next(s, a);
    if SectionOf(a, n) {
      ActsOnNode(s, a, n);
      SectionSettled(s, a, n);
    } else {
      OutsideStep(s, a, n);
      StepInv(s, a);
      if t.nodes[n].w.term == t.floor {
        CurrentSettled(n, t.nodes[n], t);
      } else if RefusedLate(s.nodes[n], t.nodes[n]) {
        RefusedLateSettled(s.nodes[n], t.nodes[n], s.log, t.log);
      } else {
        SettledLater(s.nodes[n], t.nodes[n], s.log, t.log);
      }
    }
  }

  lemma ActsOnNode(s: System, a: Action, n: NodeId)
    requires Enabled(s, a) && SectionOf(a, n)
    ensures n in s.nodes
  {
    hide ReadsMatch, AllServed;
  }

  /** In every state of every run, a writer's settled proposals are a gap-free prefix of the enqueued ones. */
  lemma {:induction false} RunSettled(states: seq<System>, actions: seq<Action>, i: nat, n: NodeId)
    requires IsRun(states, actions) && i < |states| && n in states[i].nodes
    ensures SettledInOrder(states[i].nodes[n], states[i].log)
  {
    hide Inv, Enabled, Next, SettledInOrder;
    if i == 0 {
      InitSettled(states[0], n);
    } else {
      RunInv(states, actions, i - 1);
      if n in states[i - 1].nodes { RunSettled(states, actions, i - 1, n); }
      StepSettled(states[i - 1], actions[i - 1], n);
    }
  }

  lemma InitSettled(s: System, n: NodeId)
    requires Init(s) && n in s.nodes
    ensures SettledInOrder(s.nodes[n], s.log)
  {}

  /** The only entry whose fate can be open at the highest committed term is the first one the log has not applied. */
  lemma OnlyNextInDoubt(states: seq<System>, actions: seq<Action>, i: nat, n: NodeId, d: Doubt)
    requires IsRun(states, actions) && i < |states| && n in states[i].nodes
    requires states[i].nodes[n].w.term == states[i].floor > 0 && d in states[i].doubt && d.term == states[i].floor
    ensures states[i].nodes[n].w.failed
    ensures states[i].nodes[n].applied < |states[i].nodes[n].chain|
            && d.issue == states[i].nodes[n].chain[states[i].nodes[n].applied]
  {
    RunInv(states, actions, i);
    DoubtHere(states[i], n, d);
  }

  lemma DoubtHere(s: System, n: NodeId, d: Doubt)
    requires Inv(s) && n in s.nodes && s.nodes[n].w.term == s.floor > 0 && d in s.doubt && d.term == s.floor
    ensures s.nodes[n].w.failed && s.nodes[n].applied < |s.nodes[n].chain|
            && d.issue == s.nodes[n].chain[s.nodes[n].applied]
  {
    hide Registry, NodeOk, DoubtsOk, Replay, Progress, Logged;
    assert CurrentOk(s.nodes[n], s.floor, s.log, s.doubt);
  }

  /* ---------- A replicated acknowledgement covers every earlier one ---------- */

  /** Steps that start a new history on node n. */
  predicate StartsOver(a: Action, n: NodeId) { (a.Rebuild? && a.n == n) || (a.Restart? && a.n == n) }

  lemma CommitGrows(s: System, n: NodeId, tx: Transaction, size: nat, io: CommitIO, observed: seq<Observation>)
    requires Enabled(s, Commit(n, tx, size, io, observed))
    ensures n in s.nodes && n in CommitEffect(s, n, tx, size, io, observed).nodes
            && s.nodes[n].chain <= CommitEffect(s, n, tx, size, io, observed).nodes[n].chain
  {
    hide CommitStep, ReadsMatch, AllServed;
  }

  lemma HistoryGrows(s: System, a: Action, n: NodeId)
    requires Inv(s) && Enabled(s, a) && n in s.nodes && n in Next(s, a).nodes && !StartsOver(a, n)
    ensures s.nodes[n].chain <= Next(s, a).nodes[n].chain
  {
    hide Inv, Replay, Judge, ReadsMatch, AllServed, CommitEffect, ValidTransaction, RebuiltNode, LeftInDoubt, TakeValid,
      FinishStep, SettleStep;
    match a {
      case Commit(m, tx, size, io, observed) =>
        CommitGrows(s, m, tx, size, io, observed);
        CommitNodes(s, m, tx, size, io, observed);
      case _ =>
    }
  }

  lemma {:induction false} HistoryKept(states: seq<System>, actions: seq<Action>, i: nat, j: nat, n: NodeId)
    requires IsRun(states, actions) && i <= j < |states| && n in states[i].nodes
    requires forall k :: i <= k < j ==> !StartsOver(actions[k], n)
    ensures n in states[j].nodes && states[i].nodes[n].chain <= states[j].nodes[n].chain
    decreases j - i
  {
    hide Inv, Enabled, Next, StartsOver;
    if i < j {
      HistoryKept(states, actions, i, j - 1, n);
      RunInv(states, actions, j - 1);
      NodesRemain(states[j - 1], actions[j - 1]);
      HistoryGrows(states[j - 1], actions[j - 1], n);
    }
  }

  lemma NodesRemain(s: System, a: Action)
    requires Enabled(s, a)
    ensures Next(s, a).nodes.Keys == s.nodes.Keys
  {
    hide Replay, Judge, ReadsMatch, AllServed, CommitEffect, ValidTransaction, RebuiltNode, LeftInDoubt, TakeValid,
      FinishEffect, SettleEffect;
    match a {
      case Commit(m, tx, size, io, observed) => CommitNodes(s, m, tx, size, io, observed);
      case _ =>
    }
  }

  /** A commit section with these arguments answers its caller before replication. */
  ghost predicate AcknowledgesLocally(w: State, t: Transaction, size: nat, io: CommitIO) {
    Sane(w) && w.view.Some? && w.sequence < MAX_SEQUENCE && CommitStep(w, t, size, io).1.Acknowledged?
  }

  /** The waiting committer of this node wakes up and reports success. */
  ghost predicate AcknowledgesReplicated(node: Node, authoritative: bool) {
    && node.committer.Blocked? && node.committer.result == SettledOk
    && FinishStep(node.w, node.committer.p, None, node.committer.preview, authoritative).1.None?
  }

  /** What the committer is told when it wakes up. */
  function Report(node: Node): Option<Error>
    requires node.committer.Blocked? && !node.committer.result.Unsettled?
  {
    if node.committer.result.SettledOk? then None else Some(node.committer.result.error)
  }

  lemma AcknowledgedEntersHistory(s: System, n: NodeId, t: Transaction, size: nat, io: CommitIO,
                                  observed: seq<Observation>)
    requires n in s.nodes && AcknowledgesLocally(s.nodes[n].w, t, size, io)
    ensures var after := CommitEffect(s, n, t, size, io, observed);
            && n in after.nodes && |after.nodes[n].chain| == |s.nodes[n].chain| + 1
            && after.nodes[n].chain[|s.nodes[n].chain|].p == Proposed(s.nodes[n].w, t, size)
            && after.nodes[n].chain[|s.nodes[n].chain|].local
  {
    hide CommitStep;
    AcknowledgedView(s.nodes[n].w, t, size, io);
  }

  /** When a replicated commit succeeds, the log holds the whole history since the rebuild. */
  lemma ReplicatedIsLast(s: System, n: NodeId, authoritative: bool)
    requires Inv(s) && n in s.nodes && AcknowledgesReplicated(s.nodes[n], authoritative)
             && SettledInOrder(s.nodes[n], s.log)
    ensures s.nodes[n].w.view.Some? && s.nodes[n].applied == |s.nodes[n].chain|
            && PrefixLogged(s.nodes[n].chain, |s.nodes[n].chain|, s.nodes[n].mark, s.log)
    ensures s.nodes[n].chain != [] && s.nodes[n].chain[|s.nodes[n].chain| - 1].p == s.nodes[n].committer.p
  {
    hide Registry, DoubtsOk, HistoryRecorded, Stamped, CurrentOk, Linked, Journalled, Numbered, PrefixLogged;
    var node := s.nodes[n];
    assert NodeOk(n, node, s.leaders, s.floor, s.issued, s.log);
    assert Confirming(node.committer, node.w.term);
    assert node.w.term == 0 ==> node.chain == [];
  }

  /** Nothing is outstanding any more, so nothing is journalled. */
  lemma ReplicatedIsUnjournalled(s: System, n: NodeId, authoritative: bool)
    requires Inv(s) && n in s.nodes && AcknowledgesReplicated(s.nodes[n], authoritative) && s.nodes[n].w.view.Some?
    ensures s.nodes[n].w.journal == {}
  {
    hide Registry, DoubtsOk, HistoryRecorded, Stamped, CurrentOk, Linked, Numbered, Queueing, Shown;
    var node := s.nodes[n];
    assert NodeOk(n, node, s.leaders, s.floor, s.issued, s.log);
    AllCommands(node.chain, node.w.term, node.w.sequence);
    assert Revisions(node.chain, |node.chain|) == {};
  }

  /** The entry at this position is this proposal, in its own term, and the log accepted it. */
  ghost predicate AppliedAt(s: System, q: nat, p: Proposal) {
    q < |s.log| && Holds(s.log[q], p) && Judge(Replay(FRESH, s.log[..q]).core, s.log[q]).Accepted?
  }

  /** What stands in the applied prefix of a history was accepted. */
  lemma PrefixAccepted(states: seq<System>, actions: seq<Action>, i: nat, n: NodeId, k: nat)
    requires IsRun(states, actions) && i < |states| && n in states[i].nodes && states[i].nodes[n].w.view.Some?
             && k < states[i].nodes[n].applied
    ensures k < |states[i].nodes[n].chain|
            && AppliedAt(states[i], states[i].nodes[n].mark + k, states[i].nodes[n].chain[k].p)
  {
    hide Inv, SettledInOrder, Replay, Judge, Step;
    var s, node := states[i], states[i].nodes[n];
    RunInv(states, actions, i);
    RunSettled(states, actions, i, n);
    PrefixFacts(node, s.log);
    PredictionsHold(states, actions, i, node.mark + k);
    NumberedHere(s, n, k);
  }

  lemma NumberedHere(s: System, n: NodeId, k: nat)
    requires Inv(s) && n in s.nodes && k < |s.nodes[n].chain|
    ensures var p := s.nodes[n].chain[k].p; p.command.Command? && Rev(p) != 0 && TermOf(Rev(p)) == p.term
  {
    hide Registry, DoubtsOk, CurrentOk, HistoryRecorded, Stamped, Queueing, Linked, Shown, Waits, Journalled;
    assert NodeOk(n, s.nodes[n], s.leaders, s.floor, s.issued, s.log);
    assert IssueNumbered(s.nodes[n].chain[k], s.nodes[n].w.term, s.nodes[n].w.sequence);
  }

  /**
   A replicated commit reports success only if its command stands in the log and was accepted there, is no longer
   journalled, and the writer still serves the term and has authority.
   */
  lemma OnlySettledSucceeds(states: seq<System>, actions: seq<Action>, j: nat, n: NodeId, authoritative: bool)
    returns (q: nat)
    requires IsRun(states, actions) && j < |states| && n in states[j].nodes
    requires states[j].nodes[n].committer.Blocked? && !states[j].nodes[n].committer.result.Unsettled?
    requires var node := states[j].nodes[n];
             FinishStep(node.w, node.committer.p, Report(node), node.committer.preview, authoritative).1.None?
    ensures AppliedAt(states[j], q, states[j].nodes[n].committer.p)
    ensures states[j].nodes[n].w.journal == {} && states[j].nodes[n].w.outstanding == 0
    ensures authoritative && !states[j].nodes[n].w.failed
            && states[j].nodes[n].w.term == states[j].nodes[n].committer.p.term
  {
    hide Inv, Enabled, Next, SettledInOrder, AppliedAt;
    RunInv(states, actions, j);
    RunSettled(states, actions, j, n);
    ReplicatedIsLast(states[j], n, authoritative);
    ReplicatedIsUnjournalled(states[j], n, authoritative);
    NothingOutstanding(states[j], n, authoritative);
    q := states[j].nodes[n].mark + |states[j].nodes[n].chain| - 1;
    PrefixAccepted(states, actions, j, n, |states[j].nodes[n].chain| - 1);
  }

  lemma NothingOutstanding(s: System, n: NodeId, authoritative: bool)
    requires Inv(s) && n in s.nodes && AcknowledgesReplicated(s.nodes[n], authoritative)
    ensures s.nodes[n].w.outstanding == 0
  {
    hide Registry, DoubtsOk, HistoryRecorded, Stamped, CurrentOk, Linked, Numbered, Queueing, Shown, Journalled;
    assert NodeOk(n, s.nodes[n], s.leaders, s.floor, s.issued, s.log);
  }

  /**
   If a write was acknowledged locally at step i, a replicated one at step j, and the writer was neither
   rebuilt nor restarted in between, then at step j the log has accepted the earlier write, and the later one
   behind it.
   */
  lemma ReplicatedAckCoversLocal(states: seq<System>, actions: seq<Action>, i: nat, j: nat, n: NodeId,
                                 t: Transaction, size: nat, io: CommitIO, observed: seq<Observation>,
                                 authoritative: bool)
    returns (p: nat, q: nat)
    requires IsRun(states, actions) && i < j < |actions| && n in states[i].nodes && n in states[j].nodes
    requires actions[i] == Commit(n, t, size, io, observed) && AcknowledgesLocally(states[i].nodes[n].w, t, size, io)
    requires actions[j] == Finish(n, authoritative) && AcknowledgesReplicated(states[j].nodes[n], authoritative)
    requires forall k :: i <= k < j ==> !StartsOver(actions[k], n)
    ensures p < q
    ensures AppliedAt(states[j], p, Proposed(states[i].nodes[n].w, t, size))
    ensures AppliedAt(states[j], q, states[j].nodes[n].committer.p)
  {
    hide Inv, Enabled, SettledInOrder, CommitStep, FinishStep, CommitEffect, AppliedAt;
    AcknowledgedEntersHistory(states[i], n, t, size, io, observed);
    HistoryKept(states, actions, i + 1, j, n);
    RunInv(states, actions, j);
    RunSettled(states, actions, j, n);
    ReplicatedIsLast(states[j], n, authoritative);
    var node := states[j].nodes[n];
    var at := |states[i].nodes[n].chain|;
    p, q := node.mark + at, node.mark + |node.chain| - 1;
    assert states[i + 1] == CommitEffect(states[i], n, t, size, io, observed);
    assert node.chain[at] == states[i + 1].nodes[n].chain[at];
    LocalIsNotLast(states[j], n, at, authoritative);
    PrefixAccepted(states, actions, j, n, at);
    PrefixAccepted(states, actions, j, n, |node.chain| - 1);
  }

  /** The proposal that a committer waits for is the only one that was not acknowledged locally. */
  lemma LocalIsNotLast(s: System, n: NodeId, at: nat, authoritative: bool)
    requires Inv(s) && n in s.nodes && AcknowledgesReplicated(s.nodes[n], authoritative) && at < |s.nodes[n].chain|
    requires s.nodes[n].chain[at].local
    ensures at < |s.nodes[n].chain| - 1
  {
    hide Registry, DoubtsOk, HistoryRecorded, Stamped, CurrentOk, Linked, Journalled, Numbered, Queueing;
    assert NodeOk(n, s.nodes[n], s.leaders, s.floor, s.issued, s.log);
    assert Confirming(s.nodes[n].committer, s.nodes[n].w.term);
  }

  /* ---------- Discarding speculative history keeps policy ---------- */

  /** Every project of the first records exists in the second ones with the same policy. */
  ghost predicate PolicyKept(records: Records, later: Records) {
    forall k :: k in records && k.collection == "projects" && DecodeProject(records[k].value).Some? ==>
                  && k in later && DecodeProject(later[k].value).Some?
                  && PolicyOf(DecodeProject(later[k].value).value) == PolicyOf(DecodeProject(records[k].value).value)
  }

  ghost predicate Versioned(records: Records) { forall k :: k in records ==> records[k].version > 0 }

  /** A transaction that may be acknowledged locally keeps the policy of every existing project. */
  lemma LocalKeepsPolicy(before: Core, x: Issue)
    requires Links(before, x) && x.local && Versioned(before.records)
    ensures PolicyKept(before.records, x.preview.records)
  {
    hide Judge, WriteAll, Fits, Objection;
    var t := x.p.command.t;
    forall k | k in before.records && k.collection == "projects" && DecodeProject(before.records[k].value).Some?
      ensures k in x.preview.records && DecodeProject(x.preview.records[k].value).Some?
      ensures PolicyOf(DecodeProject(x.preview.records[k].value).value) ==
              PolicyOf(DecodeProject(before.records[k].value).value)
    {
      AcceptedValid(before, x);
      WriteAllAt(before.records, t.writes, AssignedVersion(t, Rev(x.p)), k);
      if i :| 0 <= i < |t.writes| && t.writes[i].key == k {
        assert LocalWrite(t.writes[i], t.writes, before.records);
      } else {
        assert Lookup(x.preview.records, k) == Lookup(before.records, k);
      }
    }
  }

  lemma AcceptedValid(before: Core, x: Issue)
    requires Links(before, x)
    ensures DistinctWrites(x.p.command.t.writes)
    ensures x.preview.records ==
            WriteAll(before.records, x.p.command.t.writes, AssignedVersion(x.p.command.t, Rev(x.p)))
  {
    hide Fits, LocalContentAllowed, WriteAll;
  }

  lemma PolicyReflexive(records: Records)
    ensures PolicyKept(records, records)
  {}

  lemma PolicyTransitive(a: Records, b: Records, c: Records)
    requires PolicyKept(a, b) && PolicyKept(b, c)
    ensures PolicyKept(a, c)
  {}

  lemma {:induction false} LocalStretch(base: Core, chain: seq<Issue>, from: nat, upto: nat)
    requires Linked(base, chain) && from <= upto <= |chain|
    requires forall i :: from <= i < upto ==> chain[i].local
    requires forall i :: from <= i <= upto ==> Versioned(After(base, chain, i).records)
    ensures PolicyKept(After(base, chain, from).records, After(base, chain, upto).records)
    decreases upto - from
  {
    hide Links, Versioned, PolicyKept;
    if from == upto {
      PolicyReflexive(After(base, chain, from).records);
    } else {
      LocalStretch(base, chain, from, upto - 1);
      assert Links(After(base, chain, upto - 1), chain[upto - 1]);
      LocalKeepsPolicy(After(base, chain, upto - 1), chain[upto - 1]);
      PolicyTransitive(After(base, chain, from).records, After(base, chain, upto - 1).records,
                       After(base, chain, upto).records);
    }
  }

  lemma BackedVersioned(s: System, c: Core)
    requires Registry(s) && CoreBacked(s.issued, c)
    ensures Versioned(c.records)
  {
    hide Spent, EntryOk, PrefixesBacked, Increasing, ObservationBacked;
    forall k | k in c.records
      ensures c.records[k].version > 0
    {
      assert Backed(s.issued, k, c.records[k]);
      assert IssuedOk(c.records[k].version, s.issued[c.records[k].version], s.served);
    }
  }

  /** The replicated state is behind the view only by local writes, or ahead of it by one replicated write. */
  ghost predicate OnlyContentDiffers(replicated: Core, view: Core, unconfirmed: seq<Issue>) {
    || PolicyKept(replicated.records, view.records)
    || (|unconfirmed| == 1 && !unconfirmed[0].local && Links(view, unconfirmed[0])
        && unconfirmed[0].preview == replicated)
  }

  /** The log position up to which a writer's history has been applied. */
  function AppliedUpTo(node: Node): nat { node.mark + node.applied }

  /** At that position the replicated state is the point of the history reached so far, at whatever term. */
  lemma AppliedState(states: seq<System>, actions: seq<Action>, i: nat, m: NodeId)
    requires IsRun(states, actions) && i < |states| && m in states[i].nodes && states[i].nodes[m].w.view.Some?
    ensures var node, log := states[i].nodes[m], states[i].log;
            && node.applied <= |node.chain| && AppliedUpTo(node) <= |log|
            && Replay(FRESH, log[..AppliedUpTo(node)]).core == After(node.base, node.chain, node.applied)
  {
    hide Inv, SettledInOrder, PredictedEntry, Replay;
    var s, node := states[i], states[i].nodes[m];
    RunInv(states, actions, i);
    RunSettled(states, actions, i, m);
    PrefixFacts(node, s.log);
    BaseReplayed(s, m);
    if node.applied > 0 {
      PredictionsHold(states, actions, i, AppliedUpTo(node) - 1);
      LastApplied(s, m);
    }
  }

  lemma PrefixFacts(node: Node, log: seq<Entry>)
    requires SettledInOrder(node, log) && node.w.view.Some?
    ensures PrefixLogged(node.chain, node.applied, node.mark, log)
  {}

  lemma BaseReplayed(s: System, m: NodeId)
    requires Inv(s) && m in s.nodes && s.nodes[m].w.view.Some?
    ensures s.nodes[m].mark <= |s.log| && s.nodes[m].base == Replay(FRESH, s.log[..s.nodes[m].mark]).core
  {
    hide Registry, DoubtsOk, HistoryRecorded, CurrentOk, SelfConsistent, Replay;
    assert NodeOk(m, s.nodes[m], s.leaders, s.floor, s.issued, s.log);
  }

  lemma LastApplied(s: System, m: NodeId)
    requires Inv(s) && m in s.nodes && s.nodes[m].applied > 0
    requires PrefixLogged(s.nodes[m].chain, s.nodes[m].applied, s.nodes[m].mark, s.log)
    requires PredictedEntry(s, AppliedUpTo(s.nodes[m]) - 1)
    ensures var node := s.nodes[m];
            Replay(FRESH, s.log[..AppliedUpTo(node)]).core == node.chain[node.applied - 1].preview
  {
    hide Registry, DoubtsOk, CurrentOk, Judge, Queueing, Linked, Shown, Waits, Journalled, Stamped, CoreBacked, TermOf,
      SequenceOf;
    var node, k := s.nodes[m], AppliedUpTo(s.nodes[m]);
    assert NodeOk(m, node, s.leaders, s.floor, s.issued, s.log);
    var x := node.chain[node.applied - 1];
    assert IssueNumbered(x, node.w.term, node.w.sequence) && Recorded(x, s.issued);
    assert Holds(s.log[k - 1], x.p);
    RevisionNonZero(x, node.w.term, node.w.sequence);
    assert s.log[..k][..k - 1] == s.log[..k - 1] && s.log[..k][k - 1] == s.log[k - 1];
  }

  lemma RevisionNonZero(x: Issue, term: Uint64, sequence: Uint64)
    requires IssueNumbered(x, term, sequence)
    ensures Rev(x.p) != 0
  {}

  /** The view is a point of the history, and everything from the applied prefix up to it was acknowledged locally. */
  lemma ViewInHistory(s: System, m: NodeId)
    requires Inv(s) && m in s.nodes && s.nodes[m].w.view.Some? && SettledInOrder(s.nodes[m], s.log)
    ensures var node := s.nodes[m];
            && node.seen <= |node.chain| <= node.seen + 1 && Linked(node.base, node.chain)
            && node.w.view.value.core == After(node.base, node.chain, node.seen)
            && (node.seen < |node.chain| ==> !node.chain[node.seen].local)
            && (forall i :: node.applied <= i < node.seen ==> node.chain[i].local)
            && HistoryRecorded(node.base, node.chain, s.issued) && Registry(s)
  {
    hide Registry, DoubtsOk, HistoryRecorded, Stamped, CurrentOk, Linked, Numbered, Queueing, Waits, Journalled;
    assert NodeOk(m, s.nodes[m], s.leaders, s.floor, s.issued, s.log);
  }

  /**
   At any time and whatever terms have passed, the view of a writer and the replicated state at the position up to
   which its history was applied differ in content only - or the view lacks one replicated write it has not confirmed.
   */
  lemma PolicyOfView(states: seq<System>, actions: seq<Action>, i: nat, m: NodeId)
    requires IsRun(states, actions) && i < |states| && m in states[i].nodes && states[i].nodes[m].w.view.Some?
    ensures var node, log := states[i].nodes[m], states[i].log;
            && AppliedUpTo(node) <= |log| && node.seen <= |node.chain|
            && OnlyContentDiffers(Replay(FRESH, log[..AppliedUpTo(node)]).core, node.w.view.value.core,
                                  node.chain[node.seen..])
  {
    hide Inv, SettledInOrder, Replay, Links, Registry, HistoryRecorded, Versioned, PolicyKept;
    var s, node := states[i], states[i].nodes[m];
    RunInv(states, actions, i);
    RunSettled(states, actions, i, m);
    AppliedState(states, actions, i, m);
    ViewInHistory(s, m);
    if node.applied <= node.seen {
      forall j | node.applied <= j <= node.seen
        ensures Versioned(After(node.base, node.chain, j).records)
      {
        PointBacked(node, s.issued, j);
        BackedVersioned(s, After(node.base, node.chain, j));
      }
      LocalStretch(node.base, node.chain, node.applied, node.seen);
    } else {
      assert Links(After(node.base, node.chain, node.seen), node.chain[node.seen]);
    }
  }

  lemma PointBacked(node: Node, issued: map<Uint64, Issued>, i: nat)
    requires HistoryRecorded(node.base, node.chain, issued) && i <= |node.chain|
    ensures CoreBacked(issued, After(node.base, node.chain, i))
  {
    hide CoreBacked;
    if i > 0 { assert Recorded(node.chain[i - 1], issued); }
  }

  /** A new baseline always contains the log position that any other writer's history has reached, unless it is
     outdated. */
  lemma BaselineIsAhead(states: seq<System>, actions: seq<Action>, i: nat, n: NodeId, upto: nat, m: NodeId)
    requires IsRun(states, actions) && i < |actions| && actions[i] == Rebuild(n, upto)
    requires m in states[i].nodes && states[i].nodes[m].w.view.Some?
    requires n in states[i].nodes && states[i].floor <= states[i].nodes[n].raftTerm
    ensures AppliedUpTo(states[i].nodes[m]) <= upto
  {
    hide Inv, Replay, OnlyContentDiffers;
    PolicyOfView(states, actions, i, m);
    assert Enabled(states[i], actions[i]);
  }

  /**
   Whoever rebuilds, at whatever term, and whichever writer's speculative history is thereby abandoned: at the log
   position k that the abandoned history had reached, every project has the same owner, name, privacy, password,
   policy revision and watermark as in the abandoned view - or the view was itself behind, by one replicated write it
   had not confirmed. The new baseline is that state plus the entries committed since, so it differs in policy only
   through them.
   */
  lemma PolicyNeverRolledBack(states: seq<System>, actions: seq<Action>, i: nat, n: NodeId, upto: nat, m: NodeId)
    requires IsRun(states, actions) && i < |actions| && actions[i] == Rebuild(n, upto)
    requires m in states[i].nodes && states[i].nodes[m].w.view.Some? && AppliedUpTo(states[i].nodes[m]) <= upto
    ensures var node, log, k := states[i].nodes[m], states[i].log, AppliedUpTo(states[i].nodes[m]);
            && k <= upto <= |log| && node.seen <= |node.chain|
            && OnlyContentDiffers(Replay(FRESH, log[..k]).core, node.w.view.value.core, node.chain[node.seen..])
            && n in states[i + 1].nodes
            && states[i + 1].nodes[n].w.view == Some(Replay(Replay(FRESH, log[..k]), log[k..upto]))
  {
    hide Inv, Replay, OnlyContentDiffers;
    PolicyOfView(states, actions, i, m);
    assert Enabled(states[i], actions[i]) && states[i + 1] == Next(states[i], actions[i]);
    var log, k := states[i].log, AppliedUpTo(states[i].nodes[m]);
    assert log[..upto] == log[..k] + log[k..upto];
    ReplayConcat(FRESH, log[..k], log[k..upto]);
  }

  /* ---------- The journal ---------- */

  lemma {:induction false} RevisionCount(chain: seq<Issue>, term: Uint64, sequence: Uint64, first: nat)
    requires Numbered(chain, term, sequence) && first <= |chain|
    requires forall i :: 0 <= i < |chain| ==> chain[i].p.command.Command?
    ensures |Revisions(chain, first)| == |chain| - first
    decreases |chain| - first
  {
    if first == |chain| {
      assert Revisions(chain, first) == {};
    } else {
      RevisionCount(chain, term, sequence, first + 1);
      assert Revisions(chain, first) == Revisions(chain, first + 1) + {Rev(chain[first].p)};
      assert Rev(chain[first].p) !in Revisions(chain, first + 1);
    }
  }

  /** A working writer journals exactly its outstanding proposals, at most 64, so its queue never overflows. */
  lemma JournalBounded(states: seq<System>, actions: seq<Action>, i: nat, n: NodeId)
    requires IsRun(states, actions) && i < |states| && n in states[i].nodes
    requires states[i].nodes[n].w.view.Some? && !states[i].nodes[n].w.failed
    ensures var w := states[i].nodes[n].w;
            |w.journal| == w.outstanding <= MAX_PENDING && (|w.journal| < MAX_PENDING ==> |w.queue| < MAX_PENDING)
  {
    hide Registry, DoubtsOk, HistoryRecorded, Stamped, Linked, Shown, Waits, CurrentOk;
    var node := states[i].nodes[n];
    RunInv(states, actions, i);
    assert NodeOk(n, node, states[i].leaders, states[i].floor, states[i].issued, states[i].log);
    RevisionCount(node.chain, node.w.term, node.w.sequence, |node.chain| - node.w.outstanding);
  }

  /* ---------- Read stamps ---------- */

  /** An index below 2^32 stands for a prefix of the log, a larger one for a registered prediction. */
  ghost predicate Means(s: System, index: Uint64, c: Core) {
    if index < TWO_TO_32 then exists k :: 0 <= k <= |s.log| && Replay(FRESH, s.log[..k]) == Replica(c, index)
    else index in s.issued && s.issued[index].preview == c
  }

  lemma ReplayIndex(log: seq<Entry>, k: nat)
    requires k <= |log|
    ensures Replay(FRESH, log[..k]).index == if k == 0 then 0 else log[k - 1].index
  {
    hide Judge, Step;
    if k > 0 { assert log[..k][k - 1] == log[k - 1]; }
  }

  lemma MeansOne(s: System, index: Uint64, a: Core, b: Core)
    requires Inv(s) && Means(s, index, a) && Means(s, index, b)
    ensures a == b
  {
    hide NodeOk, CurrentOk, DoubtsOk, Replay, IssuedOk, Spent, PrefixesBacked, ObservationBacked;
    if index < TWO_TO_32 {
      var k :| 0 <= k <= |s.log| && Replay(FRESH, s.log[..k]) == Replica(a, index);
      var l :| 0 <= l <= |s.log| && Replay(FRESH, s.log[..l]) == Replica(b, index);
      ReplayIndex(s.log, k);
      ReplayIndex(s.log, l);
      assert forall i :: 0 <= i < |s.log| ==> EntryOk(s, s.log[i]);
      assert k == l;
    }
  }

  lemma MeansLater(s: System, t: System, index: Uint64, c: Core)
    requires Means(s, index, c) && s.log <= t.log && Keeps(s.issued, t.issued)
    ensures Means(t, index, c)
  {
    hide Replay;
    if index < TWO_TO_32 {
      var k :| 0 <= k <= |s.log| && Replay(FRESH, s.log[..k]) == Replica(c, index);
      assert t.log[..k] == s.log[..k];
    }
  }

  lemma ViewMeans(s: System, n: NodeId)
    requires Inv(s) && n in s.nodes && s.nodes[n].w.view.Some?
    ensures Means(s, s.nodes[n].w.view.value.index, s.nodes[n].w.view.value.core)
  {
    hide CurrentOk, DoubtsOk, Replay, IssuedOk, Spent, PrefixesBacked, ObservationBacked, Increasing, Linked, Queueing,
      Waits, Journalled, CoreBacked;
    var node := s.nodes[n];
    assert NodeOk(n, node, s.leaders, s.floor, s.issued, s.log);
    if node.seen == 0 {
      ReplayIndex(s.log, node.mark);
      if node.mark > 0 { assert EntryOk(s, s.log[node.mark - 1]); }
    } else {
      var x := node.chain[node.seen - 1];
      assert IssueNumbered(x, node.w.term, node.w.sequence) && Recorded(x, s.issued);
      assert Rev(x.p) >= TWO_TO_32;
    }
  }

  lemma {:induction false} RunGrows(states: seq<System>, actions: seq<Action>, i: nat, j: nat)
    requires IsRun(states, actions) && i <= j < |states|
    ensures states[i].log <= states[j].log && Keeps(states[i].issued, states[j].issued)
    decreases j - i
  {
    hide Inv, Enabled, Next, PredictedEntry;
    if i < j {
      RunGrows(states, actions, i, j - 1);
      RunInv(states, actions, j - 1);
      StepPredicted(states[j - 1], actions[j - 1]);
    }
  }

  /**
   Two read stamps with the same index, taken anywhere and at any two times of a run, name the same state:
   records, ceiling and history digest.
   */
  lemma StampsNameStates(states: seq<System>, actions: seq<Action>, i: nat, j: nat, n: NodeId, m: NodeId)
    requires IsRun(states, actions) && i <= j < |states| && n in states[i].nodes && m in states[j].nodes
    requires states[i].nodes[n].w.view.Some? && states[j].nodes[m].w.view.Some?
    requires states[i].nodes[n].w.view.value.index == states[j].nodes[m].w.view.value.index
    ensures states[i].nodes[n].w.view.value.core == states[j].nodes[m].w.view.value.core
  {
    hide Inv, Means, Keeps;
    RunInv(states, actions, i);
    RunInv(states, actions, j);
    ViewMeans(states[i], n);
    ViewMeans(states[j], m);
    RunGrows(states, actions, i, j);
    var index := states[i].nodes[n].w.view.value.index;
    MeansLater(states[i], states[j], index, states[i].nodes[n].w.view.value.core);
    MeansOne(states[j], index, states[i].nodes[n].w.view.value.core, states[j].nodes[m].w.view.value.core);
  }
}
