/** Every action of the cluster preserves the invariant. */
module ClusterProof {
  import opened Wrappers
  import opened Kv
  import opened Fsm
  import opened Writer
  import opened Cluster
  import opened ClusterInv

  /* ---------- Framing ---------- */

  ghost predicate Keeps(issued: map<Uint64, Issued>, later: map<Uint64, Issued>) {
    forall v :: v in issued ==> v in later && later[v] == issued[v]
  }

  ghost predicate LeadersKept(leaders: map<Uint64, NodeId>, later: map<Uint64, NodeId>) {
    forall term :: term in leaders ==> term in later && later[term] == leaders[term]
  }

  lemma BackedLater(issued: map<Uint64, Issued>, later: map<Uint64, Issued>, c: Core)
    requires Keeps(issued, later) && CoreBacked(issued, c)
    ensures CoreBacked(later, c)
  {
    forall k | k in c.records
      ensures Backed(later, k, c.records[k])
    {
      assert Backed(issued, k, c.records[k]);
    }
  }

  lemma RecordedLater(issued: map<Uint64, Issued>, later: map<Uint64, Issued>, x: Issue)
    requires Keeps(issued, later) && Recorded(x, issued)
    ensures Recorded(x, later)
  {
    BackedLater(issued, later, x.preview);
  }

  lemma HistoryLater(base: Core, chain: seq<Issue>, issued: map<Uint64, Issued>, later: map<Uint64, Issued>)
    requires Keeps(issued, later) && HistoryRecorded(base, chain, issued)
    ensures HistoryRecorded(base, chain, later)
  {
    hide Recorded, CoreBacked;
    BackedLater(issued, later, base);
    forall i | 0 <= i < |chain|
      ensures Recorded(chain[i], later)
    {
      RecordedLater(issued, later, chain[i]);
    }
  }

  lemma StampedLater(node: Node, log: seq<Entry>, later: seq<Entry>)
    requires log <= later && Stamped(node.w.view, node.mark, node.base, node.chain, node.seen, log)
    ensures Stamped(node.w.view, node.mark, node.base, node.chain, node.seen, later)
  {
    hide Replay;
    if node.w.view.Some? {
      assert later[..node.mark] == log[..node.mark];
    }
  }

  /** A node that does not change stays well formed while the rest of the system grows. */
  lemma NodeFrame(n: NodeId, node: Node, s: System, t: System)
    requires NodeOk(n, node, s.leaders, s.floor, s.issued, s.log)
    requires Keeps(s.issued, t.issued) && s.log <= t.log && s.floor <= t.floor && LeadersKept(s.leaders, t.leaders)
    requires forall term :: term in t.leaders && t.leaders[term] == n ==> term in s.leaders
    ensures NodeOk(n, node, t.leaders, t.floor, t.issued, t.log)
  {
    hide SelfConsistent, HistoryRecorded, Stamped;
    HistoryLater(node.base, node.chain, s.issued, t.issued);
    StampedLater(node, s.log, t.log);
  }

  lemma PrefixesLater(issued: map<Uint64, Issued>, later: map<Uint64, Issued>, log: seq<Entry>)
    requires Keeps(issued, later) && PrefixesBacked(issued, log)
    ensures PrefixesBacked(later, log)
  {
    hide CoreBacked, Replay;
    forall k | 0 <= k <= |log|
      ensures CoreBacked(later, Replay(FRESH, log[..k]).core)
    {
      BackedLater(issued, later, Replay(FRESH, log[..k]).core);
    }
  }

  /** Registry facts survive when only nodes change and no used revision becomes available again. */
  lemma RegistryFrame(s: System, t: System)
    requires Registry(s)
    requires t.issued == s.issued && t.log == s.log && s.floor <= t.floor && t.served == s.served
    requires forall v :: v in s.issued ==> Spent(t, v)
    ensures Registry(t)
  {
    hide IssuedOk, PrefixesBacked, Increasing, ObservationBacked, Spent;
    forall i | 0 <= i < |t.log|
      ensures EntryOk(t, t.log[i])
    {
      assert EntryOk(s, s.log[i]);
    }
  }

  lemma DoubtFrame(s: System, t: System, d: Doubt)
    requires DoubtOk(s, d)
    requires t.issued == s.issued && t.log == s.log && s.floor <= t.floor
    requires LeadersKept(s.leaders, t.leaders) && s.nodes.Keys <= t.nodes.Keys
    ensures DoubtOk(t, d) && d.issue.p.term <= s.floor
  {
    hide Links, Recorded, Replay;
  }

  lemma DoubtsFrame(s: System, t: System)
    requires DoubtsOk(s)
    requires t.issued == s.issued && t.log == s.log && s.floor <= t.floor && t.doubt <= s.doubt
    requires LeadersKept(s.leaders, t.leaders) && s.nodes.Keys <= t.nodes.Keys
    ensures DoubtsOk(t)
  {
    hide DoubtOk, LeadersKept;
    forall d | d in t.doubt
      ensures DoubtOk(t, d) && d.issue.p.term <= s.floor
    {
      DoubtFrame(s, t, d);
    }
  }

  /** When the floor rises above a writer's term, nothing is claimed about its progress any more. */
  lemma CurrentFrame(node: Node, floor: Uint64, later: Uint64, log: seq<Entry>, doubt: set<Doubt>, fewer: set<Doubt>)
    requires CurrentOk(node, floor, log, doubt) && node.w.term <= floor <= later && fewer <= doubt
    ensures CurrentOk(node, later, log, fewer)
  {
    hide Progress, Logged, Replay;
  }

  lemma SpentFrame(s: System, t: System)
    requires Registry(s)
    requires t.issued == s.issued && t.log == s.log && LeadersKept(s.leaders, t.leaders) && t.nodes.Keys == s.nodes.Keys
    requires forall n :: n in s.nodes ==>
               || t.nodes[n] == s.nodes[n]
               || (s.nodes[n].raftTerm <= t.nodes[n].raftTerm && !t.nodes[n].leader)
               || s.nodes[n].raftTerm < t.nodes[n].raftTerm
               || (t.nodes[n].raftTerm == s.nodes[n].raftTerm && s.nodes[n].leader && t.nodes[n].leader &&
                   t.nodes[n].w.term == s.nodes[n].w.term && s.nodes[n].w.sequence <= t.nodes[n].w.sequence)
               || (t.nodes[n].raftTerm == s.nodes[n].raftTerm && !s.nodes[n].leader && !t.nodes[n].leader)
    ensures forall v :: v in s.issued ==> Spent(t, v)
  {
    hide IssuedOk, EntryOk, Increasing, PrefixesBacked, ObservationBacked;
    forall v | v in s.issued
      ensures Spent(t, v)
    {
      assert Spent(s, v);
    }
  }

  /* ---------- Raft events without a log command ---------- */

  /** A node's role and Raft term do not enter its local invariant. */
  lemma RoleChange(n: NodeId, node: Node, role: Node, s: System, t: System)
    requires NodeOk(n, node, s.leaders, s.floor, s.issued, s.log) && CurrentOk(node, s.floor, s.log, s.doubt)
    requires role == node.(leader := role.leader, raftTerm := role.raftTerm)
    requires t.issued == s.issued && t.log == s.log && t.floor == s.floor && t.doubt == s.doubt
    requires Positioned(n, role, t.leaders, t.floor)
    ensures NodeOk(n, role, t.leaders, t.floor, t.issued, t.log) && CurrentOk(role, t.floor, t.log, t.doubt)
  {
    hide Queueing, Numbered, Linked, Shown, Waits, Journalled, HistoryRecorded, Stamped, Progress, Logged, DoubtIsNext,
      Replay;
  }

  /** Elections and step-downs change one role and possibly the table of leaders. */
  lemma RoleStepInv(s: System, t: System, n: NodeId)
    requires Inv(s)
    requires t == s.(nodes := t.nodes, leaders := t.leaders) && t.nodes.Keys == s.nodes.Keys
    requires forall m :: m in s.nodes && m != n ==> t.nodes[m] == s.nodes[m]
    requires n in s.nodes ==>
               && t.nodes[n] == s.nodes[n].(leader := t.nodes[n].leader, raftTerm := t.nodes[n].raftTerm)
               && s.nodes[n].raftTerm <= t.nodes[n].raftTerm
               && (t.nodes[n].leader ==> s.nodes[n].raftTerm < t.nodes[n].raftTerm)
               && Positioned(n, t.nodes[n], t.leaders, t.floor)
    requires LeadersKept(s.leaders, t.leaders)
    requires forall term :: term in t.leaders && t.leaders[term] != n ==> term in s.leaders
    ensures Inv(t)
  {
    hide Registry, DoubtsOk, NodeOk, CurrentOk, Positioned;
    SpentFrame(s, t);
    RegistryFrame(s, t);
    DoubtsFrame(s, t);
    forall m | m in t.nodes
      ensures NodeOk(m, t.nodes[m], t.leaders, t.floor, t.issued, t.log)
              && CurrentOk(t.nodes[m], t.floor, t.log, t.doubt)
    {
      assert NodeOk(m, s.nodes[m], s.leaders, s.floor, s.issued, s.log)
             && CurrentOk(s.nodes[m], s.floor, s.log, s.doubt);
      if m == n {
        RoleChange(n, s.nodes[n], t.nodes[n], s, t);
      } else {
        NodeFrame(m, s.nodes[m], s, t);
      }
    }
  }

  lemma StepDownInv(s: System, n: NodeId, term: Uint64)
    requires Inv(s) && Enabled(s, StepDown(n, term))
    ensures Inv(Next(s, StepDown(n, term)))
  {
    hide SelfConsistent, HistoryRecorded, Stamped, CurrentOk, Registry, DoubtsOk;
    assert NodeOk(n, s.nodes[n], s.leaders, s.floor, s.issued, s.log);
    RoleStepInv(s, Next(s, StepDown(n, term)), n);
  }

  lemma ElectInv(s: System, n: NodeId, term: Uint64)
    requires Inv(s) && Enabled(s, Elect(n, term))
    ensures Inv(Next(s, Elect(n, term)))
  {
    hide SelfConsistent, HistoryRecorded, Stamped, CurrentOk, Registry, DoubtsOk;
    if n in s.nodes {
      assert NodeOk(n, s.nodes[n], s.leaders, s.floor, s.issued, s.log);
    }
    RoleStepInv(s, Next(s, Elect(n, term)), n);
  }

  lemma CommitNoopInv(s: System, term: Uint64)
    requires Inv(s) && Enabled(s, CommitNoop(term))
    ensures Inv(Next(s, CommitNoop(term)))
  {
    hide Registry, DoubtsOk, SelfConsistent, HistoryRecorded, Stamped, CurrentOk;
    var t := Next(s, CommitNoop(term));
    SpentFrame(s, t);
    RegistryFrame(s, t);
    DoubtsFrame(s, t);
    forall m | m in t.nodes
      ensures NodeOk(m, t.nodes[m], t.leaders, t.floor, t.issued, t.log)
              && CurrentOk(t.nodes[m], t.floor, t.log, t.doubt)
    {
      assert NodeOk(m, s.nodes[m], s.leaders, s.floor, s.issued, s.log)
             && CurrentOk(s.nodes[m], s.floor, s.log, s.doubt);
      NodeFrame(m, s.nodes[m], s, t);
      CurrentFrame(s.nodes[m], s.floor, t.floor, s.log, s.doubt, t.doubt);
    }
  }

  lemma ViewBacked(node: Node, issued: map<Uint64, Issued>)
    requires SelfConsistent(node) && HistoryRecorded(node.base, node.chain, issued) && node.w.view.Some?
    ensures CoreBacked(issued, node.w.view.value.core)
  {
    hide Queueing, Numbered, Linked, Waits, Journalled, Backed;
    if node.seen > 0 { assert Recorded(node.chain[node.seen - 1], issued); }
  }

  lemma ServedLater(s: System, t: System, o: Observation)
    requires Registry(s) && t == s.(served := s.served + {o}) && ObservationBacked(s.issued, o)
    ensures Registry(t)
  {
    hide PrefixesBacked, Increasing, ObservationBacked;
    forall v | v in t.issued
      ensures IssuedOk(v, t.issued[v], t.served) && Spent(t, v)
    {
      assert IssuedOk(v, s.issued[v], s.served) && Spent(s, v);
    }
    forall i | 0 <= i < |t.log|
      ensures EntryOk(t, t.log[i])
    {
      assert EntryOk(s, s.log[i]);
    }
  }

  lemma ObserveInv(s: System, n: NodeId, key: Key)
    requires Inv(s) && Enabled(s, Observe(n, key))
    ensures Inv(Next(s, Observe(n, key)))
  {
    hide Registry, DoubtsOk, SelfConsistent, HistoryRecorded, Stamped, CurrentOk, Backed;
    var t := Next(s, Observe(n, key));
    var node := s.nodes[n];
    assert NodeOk(n, node, s.leaders, s.floor, s.issued, s.log);
    ViewBacked(node, s.issued);
    ServedLater(s, t, Observation(key, Lookup(node.w.view.value.core.records, key)));
    DoubtsFrame(s, t);
  }

  lemma ObserveReplicaInv(s: System, upto: nat, key: Key)
    requires Inv(s) && Enabled(s, ObserveReplica(upto, key))
    ensures Inv(Next(s, ObserveReplica(upto, key)))
  {
    hide Registry, DoubtsOk, NodeOk, CurrentOk, Backed, Replay;
    var t := Next(s, ObserveReplica(upto, key));
    PrefixBacked(s, upto);
    ServedLater(s, t, Observation(key, Lookup(Replay(FRESH, s.log[..upto]).core.records, key)));
    DoubtsFrame(s, t);
  }

  lemma PrefixBacked(s: System, upto: nat)
    requires Registry(s) && upto <= |s.log|
    ensures CoreBacked(s.issued, Replay(FRESH, s.log[..upto]).core)
  {
    hide Replay, CoreBacked, IssuedOk, Spent, EntryOk, ObservationBacked, Increasing;
  }

  /* ---------- Sections of one node that leave the log and the registry alone ---------- */

  lemma OtherCurrent(s: System, m: NodeId, n: NodeId, doubt: set<Doubt>)
    requires m in s.nodes && m != n
    requires NodeOk(m, s.nodes[m], s.leaders, s.floor, s.issued, s.log)
             && CurrentOk(s.nodes[m], s.floor, s.log, s.doubt)
    requires forall x ::
             x in doubt - s.doubt && x.term == s.floor ==> x.term in s.leaders && s.leaders[x.term] == n
    ensures CurrentOk(s.nodes[m], s.floor, s.log, doubt)
  {
    hide Progress, Logged, Replay, SelfConsistent, HistoryRecorded, Stamped;
    if s.nodes[m].w.term > 0 && s.nodes[m].w.term == s.floor {
      forall x | x in doubt && x.term == s.floor
        ensures x in s.doubt
      {}
    }
  }

  /** What a change to one node must establish for the invariant of the whole system. */
  lemma NodeStepInv(s: System, n: NodeId, node: Node, doubt: set<Doubt>)
    requires Inv(s) && n in s.nodes
    requires node.raftTerm == s.nodes[n].raftTerm
    requires !node.leader || (s.nodes[n].leader && node.w.term == s.nodes[n].w.term
                              && s.nodes[n].w.sequence <= node.w.sequence)
    requires NodeOk(n, node, s.leaders, s.floor, s.issued, s.log)
    requires CurrentOk(node, s.floor, s.log, doubt)
    requires DoubtsOk(s.(doubt := doubt))
    requires forall x ::
             x in doubt - s.doubt && x.term == s.floor ==> x.term in s.leaders && s.leaders[x.term] == n
    ensures Inv(With(s, n, node).(doubt := doubt))
  {
    hide Registry, DoubtsOk, NodeOk, CurrentOk;
    var t := With(s, n, node).(doubt := doubt);
    SpentFrame(s, t);
    RegistryFrame(s, t);
    DoubtsFrame(s.(doubt := doubt), t);
    forall m | m in t.nodes
      ensures NodeOk(m, t.nodes[m], t.leaders, t.floor, t.issued, t.log)
              && CurrentOk(t.nodes[m], t.floor, t.log, t.doubt)
    {
      if m != n {
        OtherCurrent(s, m, n, doubt);
      }
    }
  }

  /** The parts of a node's invariant that a section can only lose through its own fields. */
  ghost predicate SameHistory(a: Node, b: Node) {
    && b.raftTerm == a.raftTerm && b.leader == a.leader
    && b.mark == a.mark && b.base == a.base && b.chain == a.chain
    && b.w.term == a.w.term && a.w.sequence <= b.w.sequence <= MAX_SEQUENCE
  }

  lemma SectionOk(n: NodeId, a: Node, b: Node, s: System)
    requires NodeOk(n, a, s.leaders, s.floor, s.issued, s.log) && SameHistory(a, b)
    requires b.w.view == a.w.view && b.seen == a.seen
    requires Queueing(b.chain, b.w.queue, b.w.outstanding, b.worker)
    requires Waits(b.w, b.committer, b.worker, b.chain, b.seen)
    requires (forall i :: 0 <= i < |b.chain| ==> b.chain[i].p.command.Command?) ==> Journalled(b.w, b.chain)
    ensures NodeOk(n, b, s.leaders, s.floor, s.issued, s.log)
  {
    hide Queueing, Linked, Shown, Waits, Journalled, HistoryRecorded, Stamped;
    forall i | 0 <= i < |b.chain|
      ensures IssueNumbered(b.chain[i], b.w.term, b.w.sequence)
    {
      assert IssueNumbered(a.chain[i], a.w.term, a.w.sequence);
    }
  }

  lemma CancelNode(n: NodeId, node: Node, next: Node, s: System)
    requires NodeOk(n, node, s.leaders, s.floor, s.issued, s.log)
    requires next == node.(w := CancelStep(node.w), committer := Free)
    ensures NodeOk(n, next, s.leaders, s.floor, s.issued, s.log)
  {
    hide HistoryRecorded, Stamped, Numbered, Linked, Shown, Revisions;
    SectionOk(n, node, next, s);
  }

  lemma CancelCurrent(node: Node, next: Node, floor: Uint64, log: seq<Entry>, doubt: set<Doubt>)
    requires CurrentOk(node, floor, log, doubt) && next == node.(w := CancelStep(node.w), committer := Free)
    ensures CurrentOk(next, floor, log, doubt)
  {
    hide Logged, Replay;
  }

  lemma CancelInv(s: System, n: NodeId)
    requires Inv(s) && Enabled(s, Cancel(n))
    ensures Inv(Next(s, Cancel(n)))
  {
    hide Registry, DoubtsOk, NodeOk, CurrentOk;
    var node := s.nodes[n];
    var next := node.(w := CancelStep(node.w), committer := Free);
    CancelNode(n, node, next, s);
    CancelCurrent(node, next, s.floor, s.log, s.doubt);
    NodeStepInv(s, n, next, s.doubt);
    assert Next(s, Cancel(n)) == With(s, n, next).(doubt := s.doubt);
  }

  lemma TakeLocal(node: Node, p: Proposal, valid: bool, next: Node)
    requires SelfConsistent(node) && node.worker == Idle && node.w.queue != [] && p == node.w.queue[0]
    requires valid ==> !node.w.failed
    requires next == node.(w := TakeStep(node.w), worker := Taken(p, valid, Unapplied))
    ensures Queueing(next.chain, next.w.queue, next.w.outstanding, next.worker)
    ensures Waits(next.w, next.committer, next.worker, next.chain, next.seen)
    ensures Journalled(next.w, next.chain)
  {
    hide Linked, Shown, Awaited;
  }

  lemma TakeInv(s: System, n: NodeId, authoritative: bool)
    requires Inv(s) && Enabled(s, Take(n, authoritative))
    ensures Inv(Next(s, Take(n, authoritative)))
  {
    hide Registry, DoubtsOk, HistoryRecorded, Stamped, Replay, Queueing, Numbered, Linked, Logged, Shown, Waits,
      Journalled;
    var node := s.nodes[n];
    var p := node.w.queue[0];
    var next := node.(w := TakeStep(node.w), worker := Taken(p, TakeValid(node.w, p, authoritative), Unapplied));
    assert NodeOk(n, node, s.leaders, s.floor, s.issued, s.log) && CurrentOk(node, s.floor, s.log, s.doubt);
    TakeLocal(node, p, TakeValid(node.w, p, authoritative), next);
    SectionOk(n, node, next, s);
    NodeStepInv(s, n, next, s.doubt);
    assert Next(s, Take(n, authoritative)) == With(s, n, next).(doubt := s.doubt);
  }

  /* ---------- The committer wakes up ---------- */

  lemma FinishLocal(node: Node, authoritative: bool, next: Node)
    requires SelfConsistent(node) && node.committer.Blocked? && !node.committer.result.Unsettled?
    requires (node.w.term > 0 <==> node.w.view.Some?) && (node.w.term == 0 ==> node.chain == [])
    requires next == FinishEffect(node, authoritative)
    ensures Queueing(next.chain, next.w.queue, next.w.outstanding, next.worker)
    ensures Waits(next.w, next.committer, next.worker, next.chain, next.seen)
    ensures Journalled(next.w, next.chain)
    ensures Shown(next.w.view, next.base, next.chain, next.seen)
    ensures next.w.view != node.w.view || next.seen != node.seen ==>
              Awaited(node.committer, node.chain, node.seen) && next.w.view == Some(node.committer.preview)
                && next.seen == |node.chain| && !node.w.failed && node.w.outstanding == 0
  {
    hide Linked;
  }

  ghost predicate Installs(node: Node, next: Node) {
    && Awaited(node.committer, node.chain, node.seen) && next.w.view == Some(node.committer.preview)
    && next.seen == |node.chain|
    && !node.w.failed && node.w.outstanding == 0
  }

  lemma FinishCurrent(node: Node, next: Node, floor: Uint64, log: seq<Entry>, doubt: set<Doubt>)
    requires CurrentOk(node, floor, log, doubt) && Queueing(node.chain, node.w.queue, node.w.outstanding, node.worker)
    requires next == node.(w := next.w, committer := next.committer, seen := next.seen)
    requires next.w.term == node.w.term && next.w.queue == node.w.queue && (node.w.failed ==> next.w.failed)
    requires next.seen == node.seen || Installs(node, next)
    ensures CurrentOk(next, floor, log, doubt)
  {
    hide Logged, Replay, Awaited;
  }

  lemma FinishNode(n: NodeId, node: Node, next: Node, authoritative: bool, s: System)
    requires NodeOk(n, node, s.leaders, s.floor, s.issued, s.log)
    requires node.committer.Blocked? && !node.committer.result.Unsettled? && next == FinishEffect(node, authoritative)
    ensures NodeOk(n, next, s.leaders, s.floor, s.issued, s.log)
    ensures next.seen == node.seen || Installs(node, next)
  {
    hide Queueing, Linked, Shown, Waits, Journalled, HistoryRecorded, Replay, Numbered;
    FinishLocal(node, authoritative, next);
  }

  lemma FinishInv(s: System, n: NodeId, authoritative: bool)
    requires Inv(s) && Enabled(s, Finish(n, authoritative))
    ensures Inv(Next(s, Finish(n, authoritative)))
  {
    hide Registry, DoubtsOk, HistoryRecorded, Stamped, Positioned, CurrentOk, Numbered, Linked, Shown, Waits,
      Journalled, Queueing;
    var node := s.nodes[n];
    var next := FinishEffect(node, authoritative);
    assert NodeOk(n, node, s.leaders, s.floor, s.issued, s.log) && CurrentOk(node, s.floor, s.log, s.doubt);
    FinishNode(n, node, next, authoritative, s);
    FinishCurrent(node, next, s.floor, s.log, s.doubt);
    NodeStepInv(s, n, next, s.doubt);
    assert Next(s, Finish(n, authoritative)) == With(s, n, next).(doubt := s.doubt);
  }

  /* ---------- The worker settles, or the process dies with an entry in flight ---------- */

  /** The entry handed to Raft is the next one the replicated state expects. */
  lemma InFlightFacts(n: NodeId, node: Node, s: System, x: Issue)
    requires NodeOk(n, node, s.leaders, s.floor, s.issued, s.log) && CurrentOk(node, s.floor, s.log, s.doubt)
    requires HandedToRaft(node.worker) && |node.w.queue| < |node.chain|
             && x == node.chain[|node.chain| - |node.w.queue| - 1]
    ensures IssueNumbered(x, node.w.term, node.w.sequence) && Recorded(x, s.issued) && x.p == node.worker.p
    ensures node.w.term > 0 && node.w.term in s.leaders && s.leaders[node.w.term] == n && node.w.term <= s.floor
    ensures node.w.term == s.floor ==>
              && Links(s.Replicated().core, x) && node.applied == |node.chain| - |node.w.queue| - 1
              && forall y :: y in s.doubt ==> y.term != s.floor
  {
    hide Replay, Links, Recorded, Shown, Waits, Journalled, Stamped, Logged, Numbered, Linked, HistoryRecorded,
      IssueNumbered;
    var i := |node.chain| - |node.w.queue| - 1;
    AtPosition(node, s.issued, i);
  }

  lemma AtPosition(node: Node, issued: map<Uint64, Issued>, i: nat)
    requires Numbered(node.chain, node.w.term, node.w.sequence) && Linked(node.base, node.chain)
             && HistoryRecorded(node.base, node.chain, issued)
    requires i < |node.chain|
    ensures IssueNumbered(node.chain[i], node.w.term, node.w.sequence)
    ensures Links(After(node.base, node.chain, i), node.chain[i]) && Recorded(node.chain[i], issued)
  {
    hide Links, Recorded, IssueNumbered, CoreBacked;
  }

  lemma LeftInDoubtOk(s: System, n: NodeId, handed: Uint64)
    requires Inv(s) && n in s.nodes && MayHandIn(s, n, handed)
    ensures DoubtsOk(s.(doubt := s.doubt + LeftInDoubt(s.nodes[n], handed)))
    ensures forall d :: d in LeftInDoubt(s.nodes[n], handed) ==> d.term in s.leaders && s.leaders[d.term] == n
  {
    hide Registry, Replay, Links, Recorded, NodeOk, CurrentOk;
    var node := s.nodes[n];
    var t := s.(doubt := s.doubt + LeftInDoubt(node, handed));
    assert NodeOk(n, node, s.leaders, s.floor, s.issued, s.log) && CurrentOk(node, s.floor, s.log, s.doubt);
    if HandedToRaft(node.worker) && |node.w.queue| < |node.chain| {
      var x := node.chain[|node.chain| - |node.w.queue| - 1];
      var d := Doubt(x, handed);
      InFlightFacts(n, node, s, x);
      assert t.doubt == s.doubt + {d};
      assert DoubtOk(t, d);
      forall y | y in s.doubt
        ensures DoubtOk(t, y)
      {
        assert DoubtOk(s, y);
      }
    } else {
      assert t.doubt == s.doubt;
      assert t == s;
    }
  }

  lemma SettleLocal(node: Node, future: bool, journalled: bool, next: Node)
    requires SelfConsistent(node) && node.worker.Taken? && node.worker.p.command.Command?
    requires next == SettleEffect(node, future, journalled)
    ensures Queueing(next.chain, next.w.queue, next.w.outstanding, next.worker)
    ensures Waits(next.w, next.committer, next.worker, next.chain, next.seen)
    ensures !next.w.failed ==> node.worker.valid && node.worker.fate.AppliedOk? && !node.w.failed
    ensures next.w.failed || next.w.journal == node.w.journal - {Rev(node.worker.p)}
  {
    hide Linked, Shown, Journalled;
    var k := |node.chain| - |node.w.queue| - 1;
    assert IssueNumbered(node.chain[k], node.w.term, node.w.sequence);
    if node.committer.Blocked? && node.committer.p == node.worker.p {
      assert node.chain[node.seen].p == node.chain[k].p;
      assert node.seen == k;
    }
  }

  lemma SettleJournal(node: Node, future: bool, journalled: bool, next: Node)
    requires SelfConsistent(node) && node.worker.Taken? && node.worker.p.command.Command?
    requires next == SettleEffect(node, future, journalled)
    requires next.w.failed || next.w.journal == node.w.journal - {Rev(node.worker.p)}
    ensures Journalled(next.w, next.chain)
  {
    hide Linked, Shown, Waits;
    var k := |node.chain| - |node.w.queue| - 1;
    if !next.w.failed {
      assert next.w.journal <= node.w.journal;
      assert Revisions(node.chain, k + 1) == Revisions(node.chain, k) - {Rev(node.chain[k].p)};
    }
    assert |next.w.journal| <= |node.w.journal| by {
      assert next.w.journal <= node.w.journal;
      SubsetSize(next.w.journal, node.w.journal);
    }
  }

  lemma SubsetSize(a: set<Uint64>, b: set<Uint64>)
    requires a <= b
    ensures |a| <= |b|
  {
    assert b == a + (b - a);
  }

  lemma SettleNode(n: NodeId, node: Node, next: Node, future: bool, journalled: bool, s: System)
    requires NodeOk(n, node, s.leaders, s.floor, s.issued, s.log) && node.worker.Taken?
             && node.worker.p.command.Command?
    requires next == SettleEffect(node, future, journalled)
    ensures NodeOk(n, next, s.leaders, s.floor, s.issued, s.log)
    ensures !next.w.failed ==> node.worker.valid && node.worker.fate.AppliedOk? && !node.w.failed
  {
    hide HistoryRecorded, Replay, Queueing, Numbered, Linked, Shown, Waits, Journalled, Stamped;
    SettleLocal(node, future, journalled, next);
    SettleJournal(node, future, journalled, next);
    SectionOk(n, node, next, s);
  }

  lemma SettleCurrent(node: Node, next: Node, future: bool, journalled: bool, handed: Uint64, floor: Uint64,
                      log: seq<Entry>, doubt: set<Doubt>)
    requires CurrentOk(node, floor, log, doubt) && Queueing(node.chain, node.w.queue, node.w.outstanding, node.worker)
    requires node.worker.Taken? && node.worker.p.command.Command? && next == SettleEffect(node, future, journalled)
    requires !next.w.failed ==> node.worker.valid && node.worker.fate.AppliedOk? && !node.w.failed
    ensures CurrentOk(next, floor, log, doubt + LeftInDoubt(node, handed))
  {
    hide Logged, Replay;
  }

  lemma SettleInv(s: System, n: NodeId, future: bool, journalled: bool, handed: Uint64)
    requires Inv(s) && Enabled(s, Settle(n, future, journalled, handed))
    ensures Inv(Next(s, Settle(n, future, journalled, handed)))
  {
    hide Registry, DoubtsOk, CurrentOk, Positioned, HistoryRecorded, Numbered, Linked, Shown, Waits, Journalled,
      Stamped, LeftInDoubt, Queueing;
    var node := s.nodes[n];
    var next := SettleEffect(node, future, journalled);
    var doubt := s.doubt + LeftInDoubt(node, handed);
    assert NodeOk(n, node, s.leaders, s.floor, s.issued, s.log) && CurrentOk(node, s.floor, s.log, s.doubt);
    SettleNode(n, node, next, future, journalled, s);
    SettleCurrent(node, next, future, journalled, handed, s.floor, s.log, s.doubt);
    LeftInDoubtOk(s, n, handed);
    NodeStepInv(s, n, next, doubt);
    assert Next(s, Settle(n, future, journalled, handed)) == With(s, n, next).(doubt := doubt);
  }

  lemma RestartInv(s: System, n: NodeId, handed: Uint64)
    requires Inv(s) && Enabled(s, Restart(n, handed))
    ensures Inv(Next(s, Restart(n, handed)))
  {
    hide Registry, DoubtsOk, Replay, Numbered, Linked, Logged, Waits, Stamped, HistoryRecorded, Queueing, Shown;
    var node := s.nodes[n];
    var next := FRESH_NODE.(raftTerm := node.raftTerm, w := INITIAL.(journal := node.w.journal));
    assert NodeOk(n, node, s.leaders, s.floor, s.issued, s.log);
    FreshOk(n, node, next, s);
    LeftInDoubtOk(s, n, handed);
    NodeStepInv(s, n, next, s.doubt + LeftInDoubt(node, handed));
    assert Next(s, Restart(n, handed)) == With(s, n, next).(doubt := s.doubt + LeftInDoubt(node, handed));
  }

  lemma FreshOk(n: NodeId, node: Node, next: Node, s: System)
    requires NodeOk(n, node, s.leaders, s.floor, s.issued, s.log)
    requires next == FRESH_NODE.(raftTerm := node.raftTerm, w := INITIAL.(journal := node.w.journal))
    ensures NodeOk(n, next, s.leaders, s.floor, s.issued, s.log)
  {}
}
