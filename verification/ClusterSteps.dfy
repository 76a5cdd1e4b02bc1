/** The actions that rebuild a view, extend the log, or assign a revision preserve the invariant. */
module ClusterSteps {
  import opened Wrappers
  import opened Kv
  import opened Fsm
  import opened Writer
  import opened Cluster
  import opened ClusterInv
  import opened ClusterProof

  /* ---------- Rebuild ---------- */

  lemma RebuiltOk(n: NodeId, node: Node, next: Node, upto: nat, s: System, floor: Uint64)
    requires NodeOk(n, node, s.leaders, s.floor, s.issued, s.log)
    requires node.leader && 0 < node.raftTerm <= MAX_SEQUENCE && node.w.outstanding == 0 && upto <= |s.log|
    requires node.w.term != node.raftTerm || node.w.failed
    requires s.floor <= floor && node.raftTerm <= floor
    requires CoreBacked(s.issued, Replay(FRESH, s.log[..upto]).core)
    requires next == RebuiltNode(node, upto, Replay(FRESH, s.log[..upto]))
    ensures NodeOk(n, next, s.leaders, floor, s.issued, s.log)
  {
    hide CoreBacked, Replay, Linked, Shown, Stamped;
    RebuiltHistory(next, s.log, s.issued, upto);
    assert Queueing(next.chain, next.w.queue, next.w.outstanding, next.worker);
    assert Waits(next.w, next.committer, next.worker, next.chain, next.seen);
    assert Revisions(next.chain, 0) == {};
  }

  lemma RebuiltHistory(next: Node, log: seq<Entry>, issued: map<Uint64, Issued>, upto: nat)
    requires upto <= |log| && CoreBacked(issued, Replay(FRESH, log[..upto]).core)
    requires next.w.view == Some(Replay(FRESH, log[..upto])) && next.mark == upto
             && next.base == Replay(FRESH, log[..upto]).core
    requires next.chain == [] && next.seen == 0
    ensures HistoryRecorded(next.base, next.chain, issued) && Linked(next.base, next.chain)
    ensures Shown(next.w.view, next.base, next.chain, next.seen)
    ensures Stamped(next.w.view, next.mark, next.base, next.chain, next.seen, log)
  {
    hide Replay, CoreBacked;
  }

  lemma RebuildSpent(s: System, t: System, n: NodeId, upto: nat)
    requires Inv(s) && Enabled(s, Rebuild(n, upto)) && t == Next(s, Rebuild(n, upto))
    ensures forall v :: v in s.issued ==> Spent(t, v)
  {
    hide NodeOk, CurrentOk, DoubtsOk, IssuedOk, EntryOk, Increasing, PrefixesBacked, ObservationBacked, Replay;
    forall v | v in s.issued
      ensures Spent(t, v)
    {
      assert Spent(s, v);
    }
  }

  lemma RebuildInv(s: System, n: NodeId, upto: nat)
    requires Inv(s) && Enabled(s, Rebuild(n, upto))
    ensures Inv(Next(s, Rebuild(n, upto)))
  {
    hide DoubtsOk, SelfConsistent, HistoryRecorded, Stamped, CurrentOk, CoreBacked, IssuedOk, EntryOk, Increasing,
      ObservationBacked, Spent, Replay;
    var t := Next(s, Rebuild(n, upto));
    var node := s.nodes[n];
    assert NodeOk(n, node, s.leaders, s.floor, s.issued, s.log);
    RebuildSpent(s, t, n, upto);
    RegistryFrame(s, t);
    DoubtsFrame(s, t);
    RebuiltOk(n, node, t.nodes[n], upto, s, t.floor);
    forall m | m in t.nodes
      ensures NodeOk(m, t.nodes[m], t.leaders, t.floor, t.issued, t.log)
              && CurrentOk(t.nodes[m], t.floor, t.log, t.doubt)
    {
      if m == n {
        QueueOf(n, node, s);
        RebuiltCurrent(node, t.nodes[n], upto, s.log, t.floor, t.doubt);
      } else {
        assert NodeOk(m, s.nodes[m], s.leaders, s.floor, s.issued, s.log)
               && CurrentOk(s.nodes[m], s.floor, s.log, s.doubt);
        NodeFrame(m, s.nodes[m], s, t);
        CurrentFrame(s.nodes[m], s.floor, t.floor, s.log, s.doubt, t.doubt);
      }
    }
  }

  lemma QueueOf(n: NodeId, node: Node, s: System)
    requires NodeOk(n, node, s.leaders, s.floor, s.issued, s.log)
    ensures Queueing(node.chain, node.w.queue, node.w.outstanding, node.worker)
  {}

  lemma RebuiltCurrent(node: Node, next: Node, upto: nat, log: seq<Entry>, floor: Uint64, doubt: set<Doubt>)
    requires Queueing(node.chain, node.w.queue, node.w.outstanding, node.worker) && node.w.outstanding == 0
             && upto <= |log|
    requires next == RebuiltNode(node, upto, Replay(FRESH, log[..upto])) && (node.raftTerm == floor ==> upto == |log|)
    requires forall d :: d in doubt ==> d.term != node.raftTerm
    ensures CurrentOk(next, floor, log, doubt)
  {
    hide Replay;
    if next.w.term == floor {
      assert log[..upto] == log;
    }
  }

  /* ---------- Extending the log ---------- */

  lemma ReplayAppend(log: seq<Entry>, e: Entry)
    ensures Replay(FRESH, log + [e]) == ApplyTo(Replay(FRESH, log), e)
  {
    assert (log + [e])[..|log|] == log;
  }

  /** The index of an entry that carries a revision does not influence the decision. */
  lemma IndexIrrelevant(c: Core, x: Issue, index: Uint64)
    requires Links(c, x) && Rev(x.p) != 0
    ensures Judge(c, Entry(index, x.p.term, x.p.command)) == Accepted(x.preview)
  {}

  /** An accepted command leaves only records that the registry backs. */
  lemma AcceptedBacked(issued: map<Uint64, Issued>, c: Core, e: Entry)
    requires CoreBacked(issued, c) && Judge(c, e).Accepted?
    requires AssignedVersion(e.data.t, e.index) in issued
             && issued[AssignedVersion(e.data.t, e.index)].command == e.data
    ensures CoreBacked(issued, Judge(c, e).core)
  {
    var t := e.data.t;
    var version := AssignedVersion(t, e.index);
    var next := Judge(c, e).core;
    forall k | k in next.records
      ensures Backed(issued, k, next.records[k])
    {
      WriteAllAt(c.records, t.writes, version, k);
      if i :| 0 <= i < |t.writes| && t.writes[i].key == k {
        assert t.writes[i] == Write(k, next.records[k].value, false);
      } else {
        assert Lookup(next.records, k) == Lookup(c.records, k);
        assert Backed(issued, k, c.records[k]);
      }
    }
  }

  lemma PrefixesExtend(issued: map<Uint64, Issued>, log: seq<Entry>, e: Entry)
    requires PrefixesBacked(issued, log) && CoreBacked(issued, Replay(FRESH, log + [e]).core)
    ensures PrefixesBacked(issued, log + [e])
  {
    hide CoreBacked, Replay;
    var longer := log + [e];
    forall k | 0 <= k <= |longer|
      ensures CoreBacked(issued, Replay(FRESH, longer[..k]).core)
    {
      if k <= |log| {
        assert longer[..k] == log[..k];
      } else {
        assert longer[..k] == longer;
      }
    }
  }

  lemma IndexesExtend(s: System, e: Entry)
    requires Increasing(s.log) && s.LastIndex() < e.index
    ensures Increasing(s.log + [e])
  {}

  /** Appending a registered entry keeps the registry, whatever happens to the nodes' histories. */
  lemma RegistryAppend(s: System, t: System, e: Entry)
    requires Registry(s) && s.LastIndex() < e.index < TWO_TO_32
    requires t.log == s.log + [e] && t.floor == e.term && s.floor <= t.floor
    requires t.issued == s.issued && t.served == s.served && t.leaders == s.leaders && t.nodes.Keys == s.nodes.Keys
    requires forall n ::
             n in s.nodes ==>
             t.nodes[n].raftTerm == s.nodes[n].raftTerm && t.nodes[n].leader == s.nodes[n].leader
             && t.nodes[n].w == s.nodes[n].w
    requires EntryOk(t, e) && CoreBacked(s.issued, Replay(FRESH, t.log).core)
    ensures Registry(t)
  {
    hide IssuedOk, ObservationBacked, Replay, CoreBacked, PrefixesBacked, Increasing;
    PrefixesExtend(s.issued, s.log, e);
    IndexesExtend(s, e);
    forall v | v in t.issued
      ensures Spent(t, v)
    {
      assert Spent(s, v);
    }
    forall i | 0 <= i < |t.log|
      ensures EntryOk(t, t.log[i])
    {
      if i < |s.log| { assert EntryOk(s, s.log[i]); }
    }
  }

  /** A well-formed entry that Raft commits for a writer's history, in whatever term. */
  lemma HistoryEntryOk(s: System, t: System, x: Issue, e: Entry)
    requires Recorded(x, s.issued) && Rev(x.p) != 0 && 0 < e.index < TWO_TO_32 && t.issued == s.issued
             && e.data == x.p.command && e.term <= t.floor
    ensures EntryOk(t, e)
  {}

  lemma DoubtsAfterAppend(s: System, t: System, e: Entry)
    requires DoubtsOk(s) && t.doubt <= s.doubt && s.floor <= t.floor == e.term && t.log == s.log + [e]
    requires Keeps(s.issued, t.issued) && t.leaders == s.leaders && t.nodes.Keys == s.nodes.Keys
    requires forall d :: d in t.doubt ==> !TimelyAt(d, t.floor)
    ensures DoubtsOk(t)
  {
    hide Replay, Links;
    forall d | d in t.doubt
      ensures DoubtOk(t, d)
    {
      assert DoubtOk(s, d);
      RecordedLater(s.issued, t.issued, d.issue);
    }
  }

  /** One more applied entry: the worker's own, or one that was in doubt. */
  lemma AdvanceCurrent(node: Node, next: Node, x: Issue, e: Entry, s: System, doubt: set<Doubt>)
    requires CurrentOk(node, s.floor, s.log, s.doubt) && node.w.term > 0 && node.w.term == s.floor
    requires next.w == node.w && next.mark == node.mark && next.base == node.base && next.chain == node.chain
             && next.seen == node.seen
    requires next.applied == node.applied + 1 && node.applied < |node.chain| && x == node.chain[node.applied]
    requires Links(s.Replicated().core, x) && Rev(x.p) != 0 && e == Entry(e.index, x.p.term, x.p.command)
    requires Progress(next.chain, |next.chain| - |next.w.queue|, next.w.failed, next.worker, next.applied, next.seen)
    requires !RefusedByLog(next.worker) && forall y :: y in doubt ==> y.term != s.floor
    ensures CurrentOk(next, s.floor, s.log + [e], doubt)
    ensures Replay(FRESH, s.log + [e]).core == x.preview
  {
    hide Progress, Links, Replay, DoubtIsNext, Logged, Judge;
    IndexIrrelevant(s.Replicated().core, x, e.index);
    ReplayAppend(s.log, e);
    LoggedNext(node.chain, node.applied, node.mark, s.log, e);
    NoDoubt(next, doubt, s.floor);
  }

  lemma LoggedNext(chain: seq<Issue>, applied: nat, mark: nat, log: seq<Entry>, e: Entry)
    requires Logged(chain, applied, mark, log) && applied < |chain| && Holds(e, chain[applied].p)
    ensures Logged(chain, applied + 1, mark, log + [e])
  {}

  lemma NoDoubt(node: Node, doubt: set<Doubt>, floor: Uint64)
    requires forall y :: y in doubt ==> y.term != floor
    ensures DoubtIsNext(node.chain, |node.chain| - |node.w.queue|, node.w.failed, node.worker, node.applied, doubt,
                        floor)
  {}

  /** The worker's entry is the next one of the current history. */
  lemma AppendFacts(s: System, n: NodeId, index: Uint64) returns (x: Issue)
    requires Inv(s) && n in s.nodes && s.nodes[n].worker.Taken?
             && Enabled(s, Append(n, s.nodes[n].worker.p.term, index))
    ensures var node := s.nodes[n];
            && node.worker.Taken? && node.worker.valid && x.p == node.worker.p && x.p.command.Command?
            && x.p.term == s.floor && node.w.term == s.floor > 0
            && s.floor in s.leaders && s.leaders[s.floor] == n
            && node.applied == |node.chain| - |node.w.queue| - 1 && node.applied < |node.chain|
            && x == node.chain[node.applied]
            && Links(s.Replicated().core, x) && Rev(x.p) != 0 && Recorded(x, s.issued)
    ensures forall y :: y in s.doubt ==> y.term != s.floor
  {
    hide Registry, DoubtsOk, HistoryRecorded, Stamped, Links, Recorded, Replay, Numbered, Linked, Shown, Waits,
      Journalled, CurrentOk;
    var node := s.nodes[n];
    assert NodeOk(n, node, s.leaders, s.floor, s.issued, s.log) && CurrentOk(node, s.floor, s.log, s.doubt);
    x := node.chain[|node.chain| - |node.w.queue| - 1];
    InFlightFacts(n, node, s, x);
  }

  lemma AppendRegistered(s: System, t: System, x: Issue, e: Entry)
    requires Inv(s) && Recorded(x, s.issued) && Rev(x.p) != 0 && Links(s.Replicated().core, x) && x.p.term == s.floor
    requires e == Entry(e.index, x.p.term, x.p.command) && FreshIndex(s, e.index)
    requires t.log == s.log + [e] && t.floor == s.floor && t.issued == s.issued && t.served == s.served
             && t.leaders == s.leaders
    requires t.doubt <= s.doubt && t.nodes.Keys == s.nodes.Keys
             && forall y :: y in t.doubt ==> !TimelyAt(y, s.floor)
    requires forall m :: m in s.nodes ==>
                           t.nodes[m].raftTerm == s.nodes[m].raftTerm && t.nodes[m].leader == s.nodes[m].leader
                             && t.nodes[m].w == s.nodes[m].w
    ensures Registry(t) && DoubtsOk(t)
  {
    hide Registry, DoubtsOk, NodeOk, CurrentOk, Links, Replay, EntryOk, CoreBacked, Recorded;
    HistoryEntryOk(s, t, x, e);
    IndexIrrelevant(s.Replicated().core, x, e.index);
    ReplayAppend(s.log, e);
    PreviewBacked(x, s.issued);
    RegistryAppend(s, t, e);
    DoubtsAfterAppend(s, t, e);
  }

  lemma AppendAdvances(s: System, n: NodeId, next: Node, x: Issue, e: Entry)
    requires Inv(s) && n in s.nodes && e == Entry(e.index, x.p.term, x.p.command)
    requires var node := s.nodes[n];
             && node.worker.Taken? && node.worker.valid && node.w.term == s.floor > 0
             && node.applied == |node.chain| - |node.w.queue| - 1 && node.applied < |node.chain|
             && x == node.chain[node.applied]
             && next == node.(worker := node.worker.(fate := AppliedOk), applied := node.applied + 1)
    requires Links(s.Replicated().core, x) && Rev(x.p) != 0 && forall y :: y in s.doubt ==> y.term != s.floor
    ensures CurrentOk(next, s.floor, s.log + [e], s.doubt)
  {
    hide Registry, DoubtsOk, NodeOk, Links, Replay, Logged, DoubtIsNext;
    var node := s.nodes[n];
    assert CurrentOk(node, s.floor, s.log, s.doubt);
    AdvanceCurrent(node, next, x, e, s, s.doubt);
  }

  lemma TimelyAppendInv(s: System, n: NodeId, index: Uint64)
    requires Inv(s) && n in s.nodes && s.nodes[n].worker.Taken?
             && Enabled(s, Append(n, s.nodes[n].worker.p.term, index))
    ensures Inv(Next(s, Append(n, s.nodes[n].worker.p.term, index)))
  {
    hide Inv, Links, Recorded, Replay, CurrentOk, Judge, Registry, DoubtsOk;
    var t := Next(s, Append(n, s.nodes[n].worker.p.term, index));
    var x := AppendFacts(s, n, index);
    var e := Entry(index, x.p.term, x.p.command);
    IndexIrrelevant(s.Replicated().core, x, index);
    AppendAdvances(s, n, t.nodes[n], x, e);
    AppendRegistered(s, t, x, e);
    AppendNodes(s, t, n, e);
  }

  /** An entry that was numbered for one term and is committed in another is refused and changes only the index. */
  lemma LateRefused(c: Core, e: Entry)
    requires e.data.Command? && e.data.t.revision != 0 && e.term != TermOf(e.data.t.revision)
    ensures Judge(c, e) == Rejected(ErrInvalid) && Step(c, e) == c
  {}

  /** Raft commits an entry in a later term than it was made for: the replicated state does not move. */
  lemma LateRegistered(s: System, t: System, x: Issue, e: Entry)
    requires Inv(s) && Recorded(x, s.issued) && TermOf(Rev(x.p)) == x.p.term && Rev(x.p) != 0
    requires e == Entry(e.index, e.term, x.p.command) && e.term != x.p.term && s.floor <= e.term
             && FreshIndex(s, e.index)
    requires t.log == s.log + [e] && t.floor == e.term && t.issued == s.issued && t.served == s.served
             && t.leaders == s.leaders && t.doubt <= s.doubt && t.nodes.Keys == s.nodes.Keys
    requires forall m :: m in s.nodes ==>
                           t.nodes[m].raftTerm == s.nodes[m].raftTerm && t.nodes[m].leader == s.nodes[m].leader
                             && t.nodes[m].w == s.nodes[m].w
    ensures Registry(t) && DoubtsOk(t)
  {
    hide DoubtsOk, NodeOk, CurrentOk, Replay, EntryOk, CoreBacked, Recorded, Judge, Step, IssuedOk, Spent, Increasing,
      ObservationBacked;
    HistoryEntryOk(s, t, x, e);
    LateRefused(s.Replicated().core, e);
    ReplayAppend(s.log, e);
    WholePrefix(s.issued, s.log);
    RegistryAppend(s, t, e);
    DoubtsUnmoved(s, t);
  }

  lemma DoubtsUnmoved(s: System, t: System)
    requires DoubtsOk(s) && t.doubt <= s.doubt && s.floor <= t.floor && t.Replicated().core == s.Replicated().core
    requires t.issued == s.issued && t.leaders == s.leaders && t.nodes.Keys == s.nodes.Keys
    ensures DoubtsOk(t)
  {
    hide Replay, Links, Recorded;
    forall d | d in t.doubt
      ensures DoubtOk(t, d) && d.issue.p.term <= s.floor
    {
      assert DoubtOk(s, d);
    }
  }

  /** No writer serves the term of a late entry, so nothing is claimed about anybody's progress. */
  lemma LateNodes(s: System, t: System, e: Entry)
    requires Inv(s) && t.leaders == s.leaders && s.floor <= t.floor == e.term && t.log == s.log + [e]
             && t.issued == s.issued && t.nodes.Keys == s.nodes.Keys
    requires forall m :: m in s.nodes ==>
               && s.nodes[m].w.term != e.term
               && (t.nodes[m] == s.nodes[m]
                   || (HandedToRaft(s.nodes[m].worker)
                       && t.nodes[m] == s.nodes[m].(worker := s.nodes[m].worker.(fate := AppliedRejected(ErrInvalid)))))
    requires Registry(t) && DoubtsOk(t)
    ensures Inv(t)
  {
    hide Registry, DoubtsOk, SelfConsistent, HistoryRecorded, Stamped, Replay, Progress, Logged, DoubtIsNext;
    forall m | m in t.nodes
      ensures NodeOk(m, t.nodes[m], t.leaders, t.floor, t.issued, t.log)
              && CurrentOk(t.nodes[m], t.floor, t.log, t.doubt)
    {
      assert NodeOk(m, s.nodes[m], s.leaders, s.floor, s.issued, s.log);
      NodeFrame(m, s.nodes[m], s, t);
      FateKeeps(s.nodes[m], t.nodes[m]);
    }
  }

  /** A writer whose proposal reaches Raft in a later term has not been rebuilt in that term, and nobody else can be. */
  lemma LateFacts(s: System, n: NodeId, term: Uint64) returns (x: Issue)
    requires Inv(s) && n in s.nodes && HandedToRaft(s.nodes[n].worker) && s.nodes[n].worker.p.term < term
             && term in s.leaders && s.leaders[term] == n
    ensures x.p == s.nodes[n].worker.p && x.p.command.Command? && Recorded(x, s.issued)
            && TermOf(Rev(x.p)) == x.p.term && Rev(x.p) != 0
    ensures forall m :: m in s.nodes ==> s.nodes[m].w.term != term
  {
    hide Registry, DoubtsOk, HistoryRecorded, Stamped, Recorded, Replay, Numbered, Linked, Shown, Waits, Journalled,
      CurrentOk;
    var node := s.nodes[n];
    assert NodeOk(n, node, s.leaders, s.floor, s.issued, s.log) && CurrentOk(node, s.floor, s.log, s.doubt);
    x := node.chain[|node.chain| - |node.w.queue| - 1];
    InFlightFacts(n, node, s, x);
    forall m | m in s.nodes
      ensures s.nodes[m].w.term != term
    {
      assert NodeOk(m, s.nodes[m], s.leaders, s.floor, s.issued, s.log);
    }
  }

  lemma AppendInv(s: System, n: NodeId, term: Uint64, index: Uint64)
    requires Inv(s) && Enabled(s, Append(n, term, index))
    ensures Inv(Next(s, Append(n, term, index)))
  {
    hide Inv, Recorded, Replay, Judge, Registry, DoubtsOk;
    if term == s.nodes[n].worker.p.term {
      TimelyAppendInv(s, n, index);
    } else {
      var t := Next(s, Append(n, term, index));
      var x := LateFacts(s, n, term);
      var e := Entry(index, term, x.p.command);
      LateRefused(s.Replicated().core, e);
      LateRegistered(s, t, x, e);
      LateNodes(s, t, e);
    }
  }

  lemma PreviewBacked(x: Issue, issued: map<Uint64, Issued>)
    requires Recorded(x, issued)
    ensures CoreBacked(issued, x.preview)
  {}

  /** The nodes after an append at the highest committed term, of which `n` is the leader. */
  lemma AppendNodes(s: System, t: System, n: NodeId, e: Entry)
    requires Inv(s) && n in s.nodes && t.leaders == s.leaders && t.floor == s.floor && t.log == s.log + [e]
             && t.issued == s.issued
    requires t.nodes.Keys == s.nodes.Keys && forall m :: m in s.nodes && m != n ==> t.nodes[m] == s.nodes[m]
    requires s.floor in s.leaders && s.leaders[s.floor] == n
    requires t.nodes[n] == s.nodes[n].(worker := t.nodes[n].worker, applied := t.nodes[n].applied)
    requires t.nodes[n].worker == s.nodes[n].worker ||
             (s.nodes[n].worker.Taken? && s.nodes[n].worker.valid
              && t.nodes[n].worker == s.nodes[n].worker.(fate := AppliedOk))
    requires CurrentOk(t.nodes[n], t.floor, t.log, t.doubt)
    requires Registry(t) && DoubtsOk(t)
    ensures Inv(t)
  {
    hide Registry, DoubtsOk, SelfConsistent, HistoryRecorded, Stamped, Replay, Progress, Logged, DoubtIsNext;
    forall m | m in t.nodes
      ensures NodeOk(m, t.nodes[m], t.leaders, t.floor, t.issued, t.log)
              && CurrentOk(t.nodes[m], t.floor, t.log, t.doubt)
    {
      assert NodeOk(m, s.nodes[m], s.leaders, s.floor, s.issued, s.log);
      NodeFrame(m, s.nodes[m], s, t);
      if m == n { FateKeeps(s.nodes[n], t.nodes[n]); }
    }
  }

  lemma FateKeeps(node: Node, next: Node)
    requires SelfConsistent(node)
    requires next == node.(worker := next.worker, applied := next.applied)
    requires next.worker == node.worker ||
             (node.worker.Taken? && node.worker.valid
              && next.worker.Taken? && next.worker == Taken(node.worker.p, true, next.worker.fate))
    ensures SelfConsistent(next)
  {
    hide Numbered, Linked, Shown, Journalled, Awaited;
  }

  /** A timely entry in doubt can only be committed at the highest committed term, where it is the only one. */
  lemma DoubtFacts(s: System, d: Doubt, index: Uint64) returns (n: NodeId)
    requires Inv(s) && Enabled(s, AppendDoubt(d, index)) && d.term == d.issue.p.term
    ensures var x := d.issue;
            && x.p.command.Command? && x.p.term == s.floor > 0 && s.floor in s.leaders && s.leaders[s.floor] == n
            && n in s.nodes && Rev(x.p) != 0
            && Links(s.Replicated().core, x) && Recorded(x, s.issued)
    ensures forall y :: y in s.doubt - {d} ==> !TimelyAt(y, s.floor)
  {
    hide Registry, NodeOk, CurrentOk, Links, Recorded, Replay;
    assert DoubtOk(s, d);
    n := s.leaders[d.term];
  }

  lemma DoubtAdvances(s: System, n: NodeId, next: Node, d: Doubt, e: Entry)
    requires Inv(s) && n in s.nodes && e == Entry(e.index, d.term, d.issue.p.command) && d in s.doubt
             && TimelyAt(d, s.floor) && s.floor > 0
    requires s.nodes[n].w.term == s.floor && next == s.nodes[n].(applied := s.nodes[n].applied + 1)
    requires d.issue.p.command.Command? && Links(s.Replicated().core, d.issue) && Rev(d.issue.p) != 0
    ensures CurrentOk(next, s.floor, s.log + [e], s.doubt - {d})
  {
    hide Registry, DoubtsOk, NodeOk, Links, Replay, Logged, Judge;
    var node := s.nodes[n];
    assert CurrentOk(node, s.floor, s.log, s.doubt);
    AdvanceCurrent(node, next, d.issue, e, s, s.doubt - {d});
  }

  lemma TimelyDoubtInv(s: System, d: Doubt, index: Uint64)
    requires Inv(s) && Enabled(s, AppendDoubt(d, index)) && d.term == d.issue.p.term
    ensures Inv(Next(s, AppendDoubt(d, index)))
  {
    hide Inv, Links, Recorded, Replay, Judge, Registry, DoubtsOk, Progress, Logged, DoubtIsNext;
    var t := Next(s, AppendDoubt(d, index));
    var e := t.log[|s.log|];
    var n := DoubtFacts(s, d, index);
    AppendRegistered(s, t, d.issue, e);
    if s.nodes[n].w.term == s.floor {
      DoubtAdvances(s, n, t.nodes[n], d, e);
    }
    AppendNodes(s, t, n, e);
  }

  /** While a writer serves the term of an entry in doubt, that entry is its own and timely. */
  lemma LateDoubtFacts(s: System, d: Doubt)
    requires Inv(s) && d in s.doubt && s.floor <= d.term && d.term != d.issue.p.term
    ensures d.issue.p.command.Command? && Recorded(d.issue, s.issued) && TermOf(Rev(d.issue.p)) == d.issue.p.term
            && Rev(d.issue.p) != 0
    ensures forall m :: m in s.nodes ==> s.nodes[m].w.term != d.term
  {
    hide Registry, HistoryRecorded, Stamped, Recorded, Replay, Linked, Shown, Waits, Journalled, Links, Progress,
      Logged, Queueing;
    assert DoubtOk(s, d);
    forall m | m in s.nodes
      ensures s.nodes[m].w.term != d.term
    {
      var node := s.nodes[m];
      assert NodeOk(m, node, s.leaders, s.floor, s.issued, s.log) && CurrentOk(node, s.floor, s.log, s.doubt);
    }
  }

  lemma AppendDoubtInv(s: System, d: Doubt, index: Uint64)
    requires Inv(s) && Enabled(s, AppendDoubt(d, index))
    ensures Inv(Next(s, AppendDoubt(d, index)))
  {
    hide Inv, Recorded, Replay, Judge, Registry, DoubtsOk;
    if d.term == d.issue.p.term {
      TimelyDoubtInv(s, d, index);
    } else {
      var t := Next(s, AppendDoubt(d, index));
      var e := t.log[|s.log|];
      LateDoubtFacts(s, d);
      LateRegistered(s, t, d.issue, e);
      LateNodes(s, t, e);
    }
  }

  /* ---------- Commands of nodes without a speculative writer ---------- */

  lemma NoWriterAt(s: System, term: Uint64)
    requires Inv(s) && s.floor <= term && term in s.leaders && s.leaders[term] !in s.nodes
    ensures forall m :: m in s.nodes ==> s.nodes[m].w.term != term || s.nodes[m].w.term == 0
    ensures forall d :: d in s.doubt ==> d.issue.p.term != term
  {
    hide Registry, SelfConsistent, HistoryRecorded, Stamped, CurrentOk, Replay, Links, Recorded;
    forall m | m in s.nodes
      ensures s.nodes[m].w.term != term || s.nodes[m].w.term == 0
    {
      assert NodeOk(m, s.nodes[m], s.leaders, s.floor, s.issued, s.log);
    }
    forall d | d in s.doubt
      ensures d.issue.p.term != term
    {
      assert DoubtOk(s, d);
    }
  }

  /** Registering one more command under an unused version. */
  lemma RegistryGrow(s: System, t: System, v: Uint64)
    requires Registry(s) && v !in s.issued && v in t.issued && t.issued == s.issued[v := t.issued[v]]
    requires t.log == s.log && t.floor == s.floor && t.served == s.served
    requires forall u :: u in s.issued ==> Spent(t, u)
    requires IssuedOk(v, t.issued[v], t.served) && Spent(t, v)
    ensures Registry(t)
  {
    hide IssuedOk, Spent, Increasing, PrefixesBacked, ObservationBacked;
    assert Keeps(s.issued, t.issued);
    PrefixesLater(s.issued, t.issued, s.log);
    forall i | 0 <= i < |t.log|
      ensures EntryOk(t, t.log[i])
    {
      assert EntryOk(s, s.log[i]);
    }
    forall o | o in t.served
      ensures ObservationBacked(t.issued, o)
    {
      ObservationLater(s.issued, t.issued, o);
    }
  }

  lemma ObservationLater(issued: map<Uint64, Issued>, later: map<Uint64, Issued>, o: Observation)
    requires Keeps(issued, later) && ObservationBacked(issued, o)
    ensures ObservationBacked(later, o)
  {}

  lemma LegacyRegistry(s: System, t: System, e: Entry, observed: seq<Observation>)
    requires Registry(s) && s.LastIndex() < e.index < TWO_TO_32 && s.floor <= e.term
    requires e.data.Command? && e.data.t.revision == 0 && ValidTransaction(e.data.t) && ReadsMatch(e.data.t, observed)
             && AllServed(observed, s.served)
    requires t == s.(log := s.log + [e], floor := e.term,
                     issued := s.issued[e.index := Issued(e.data, observed, Step(s.Replicated().core, e))])
    ensures Registry(t) && Keeps(s.issued, t.issued)
  {
    hide IssuedOk, ObservationBacked, Replay, CoreBacked, PrefixesBacked, Increasing, ValidTransaction, Judge;
    var core := s.Replicated().core;
    assert e.index in s.issued ==> Spent(s, e.index);
    assert Keeps(s.issued, t.issued);
    PrefixesLater(s.issued, t.issued, s.log);
    ReplayAppend(s.log, e);
    assert CoreBacked(t.issued, core) by { assert s.log[..|s.log|] == s.log; WholePrefix(t.issued, s.log); }
    if Judge(core, e).Accepted? { AcceptedBacked(t.issued, core, e); }
    PrefixesExtend(t.issued, s.log, e);
    IndexesExtend(s, e);
    LegacyIssued(t, e, observed);
    forall v | v in t.issued
      ensures Spent(t, v)
    {
      if v != e.index { assert Spent(s, v); }
    }
    forall i | 0 <= i < |t.log|
      ensures EntryOk(t, t.log[i])
    {
      if i < |s.log| { assert EntryOk(s, s.log[i]); }
    }
    forall o | o in t.served
      ensures ObservationBacked(t.issued, o)
    {
      ObservationLater(s.issued, t.issued, o);
    }
  }

  lemma WholePrefix(issued: map<Uint64, Issued>, log: seq<Entry>)
    requires PrefixesBacked(issued, log)
    ensures CoreBacked(issued, Replay(FRESH, log).core)
  {
    assert log[..|log|] == log;
  }

  lemma LegacyIssued(t: System, e: Entry, observed: seq<Observation>)
    requires e.index in t.issued && t.issued[e.index].command == e.data && t.issued[e.index].observed == observed
    requires 0 < e.index < TWO_TO_32 && e.data.Command? && e.data.t.revision == 0 && ValidTransaction(e.data.t)
    requires ReadsMatch(e.data.t, observed) && AllServed(observed, t.served)
    ensures IssuedOk(e.index, t.issued[e.index], t.served)
  {}

  lemma LegacyAppendInv(s: System, n: NodeId, term: Uint64, tx: Transaction, size: nat, index: Uint64,
                        observed: seq<Observation>)
    requires Inv(s) && Enabled(s, LegacyAppend(n, term, tx, size, index, observed))
    ensures Inv(Next(s, LegacyAppend(n, term, tx, size, index, observed)))
  {
    hide Registry, DoubtsOk, SelfConsistent, HistoryRecorded, Stamped, Replay, Progress, Logged, DoubtIsNext,
      ValidTransaction;
    var t := Next(s, LegacyAppend(n, term, tx, size, index, observed));
    var e := t.log[|s.log|];
    NoWriterAt(s, term);
    LegacyRegistry(s, t, e, observed);
    DoubtsAfterAppend(s, t, e);
    forall m | m in t.nodes
      ensures NodeOk(m, t.nodes[m], t.leaders, t.floor, t.issued, t.log)
              && CurrentOk(t.nodes[m], t.floor, t.log, t.doubt)
    {
      assert NodeOk(m, s.nodes[m], s.leaders, s.floor, s.issued, s.log);
      NodeFrame(m, s.nodes[m], s, t);
    }
  }

  /* ---------- Commit ---------- */

  /** A refused commit may use up a revision or fence the writer, and changes nothing else. */
  lemma RefusedShape(w: State, t: Transaction, size: nat, io: CommitIO, next: State)
    requires Sane(w) && w.view.Some? && CommitStep(w, t, size, io).0 == next && CommitStep(w, t, size, io).1.Refused?
    ensures next == w.(sequence := next.sequence, journal := next.journal, failed := next.failed)
    ensures w.sequence <= next.sequence <= MAX_SEQUENCE
    ensures next.journal == w.journal || (next.failed && |next.journal| <= MAX_PENDING)
    ensures w.failed ==> next.failed
  {
    hide Judge, ValidTransaction, LocalContentAllowed;
  }

  /** The outcome of a commit that was enqueued. */
  lemma EnqueuedShape(w: State, t: Transaction, size: nat, io: CommitIO, next: State, outcome: CommitOutcome,
                      preview: Core)
    requires Sane(w) && w.view.Some? && CommitStep(w, t, size, io) == (next, outcome) && !outcome.Refused?
    requires outcome.Acknowledged? ==> next.view.Some? && preview == next.view.value.core
    requires outcome.Waiting? ==> preview == outcome.preview.core
    ensures w.sequence < MAX_SEQUENCE && ValidTransaction(t) && |w.journal| < MAX_PENDING
    ensures var x := Issue(Proposed(w, t, size), preview, outcome.Acknowledged?);
            && Links(w.view.value.core, x)
            && next == w.(view := if x.local then Some(Replica(preview, Rev(x.p))) else w.view,
                          sequence := w.sequence + 1, journal := w.journal + {Rev(x.p)},
                          queue := w.queue + [x.p], outstanding := w.outstanding + 1)
            && (!x.local ==> outcome == Waiting(x.p, Replica(preview, Rev(x.p))))
  {
    hide Judge, ValidTransaction;
    assert LocalContentAllowed(Proposed(w, t, size).command.t, w.view.value.core.records) ==
           LocalContentAllowed(t, w.view.value.core.records);
  }

  lemma RefusedInv(s: System, n: NodeId, w: State)
    requires Inv(s) && n in s.nodes && s.nodes[n].committer == Free
    requires w == s.nodes[n].w.(sequence := w.sequence, journal := w.journal, failed := w.failed)
    requires s.nodes[n].w.sequence <= w.sequence <= MAX_SEQUENCE
    requires w.journal == s.nodes[n].w.journal || (w.failed && |w.journal| <= MAX_PENDING)
    requires s.nodes[n].w.failed ==> w.failed
    ensures Inv(With(s, n, s.nodes[n].(w := w)))
  {
    hide Registry, DoubtsOk, HistoryRecorded, Stamped, Replay, Numbered, Linked, Logged, Shown;
    var node := s.nodes[n];
    var next := node.(w := w);
    assert NodeOk(n, node, s.leaders, s.floor, s.issued, s.log) && CurrentOk(node, s.floor, s.log, s.doubt);
    SectionOk(n, node, next, s);
    NodeStepInv(s, n, next, s.doubt);
    assert With(s, n, next) == With(s, n, next).(doubt := s.doubt);
  }

  lemma RevisionOrder(a: Uint64, b: Uint64)
    requires TermOf(a) == TermOf(b) && SequenceOf(a) < SequenceOf(b)
    ensures a < b
  {}

  lemma NumberedGrows(chain: seq<Issue>, x: Issue, term: Uint64, sequence: Uint64)
    requires sequence < MAX_SEQUENCE
    requires Numbered(chain, term, sequence) && IssueNumbered(x, term, sequence + 1)
             && SequenceOf(Rev(x.p)) == sequence + 1
    ensures Numbered(chain + [x], term, sequence + 1)
  {
    hide TermOf, SequenceOf;
    var longer := chain + [x];
    forall i | 0 <= i < |longer|
      ensures IssueNumbered(longer[i], term, sequence + 1)
    {
      if i < |chain| { assert IssueNumbered(chain[i], term, sequence); }
    }
    forall i | 0 <= i < |chain|
      ensures Rev(chain[i].p) < Rev(x.p)
    {
      assert IssueNumbered(chain[i], term, sequence);
      RevisionOrder(Rev(chain[i].p), Rev(x.p));
    }
  }

  /** A history grows by one linked proposal. */
  lemma LinkedGrows(base: Core, chain: seq<Issue>, x: Issue)
    requires Linked(base, chain) && Links(After(base, chain, |chain|), x)
    ensures Linked(base, chain + [x])
  {
    hide Links;
    var longer := chain + [x];
    forall i | 0 <= i < |longer|
      ensures Links(After(base, longer, i), longer[i])
    {
      if i < |chain| {
        assert Links(After(base, chain, i), chain[i]);
        assert After(base, longer, i) == After(base, chain, i);
      }
    }
  }

  lemma JournalGrows(w: State, next: State, chain: seq<Issue>, x: Issue)
    requires (forall i :: 0 <= i < |chain| ==> chain[i].p.command.Command?) && x.p.command.Command?
    requires Journalled(w, chain) && w.view.Some? && !w.failed && |w.journal| < MAX_PENDING
             && 0 <= w.outstanding <= |chain|
    requires next.journal == w.journal + {Rev(x.p)} && next.outstanding == w.outstanding + 1
    ensures Journalled(next, chain + [x])
  {
    var longer := chain + [x];
    assert forall i :: 0 <= i < |longer| ==> longer[i].p.command.Command?;
    assert Revisions(longer, |chain| - w.outstanding) == Revisions(chain, |chain| - w.outstanding) + {Rev(x.p)} by {
      assert longer[|chain|] == x;
      assert forall i :: 0 <= i < |chain| ==> longer[i] == chain[i];
    }
  }

  lemma GrownLocal(node: Node, next: Node, x: Issue)
    requires SelfConsistent(node) && node.w.view.Some? && !node.w.failed && node.committer == Free
             && node.w.sequence < MAX_SEQUENCE
    requires IssueNumbered(x, node.w.term, node.w.sequence + 1) && SequenceOf(Rev(x.p)) == node.w.sequence + 1
    requires Links(node.w.view.value.core, x) && |node.w.journal| < MAX_PENDING
    requires next == node.(chain := node.chain + [x], seen := if x.local then |node.chain| + 1 else node.seen,
                           w := node.w.(view := if x.local then Some(Replica(x.preview, Rev(x.p))) else node.w.view,
                                        sequence := node.w.sequence + 1, journal := node.w.journal + {Rev(x.p)},
                                        queue := node.w.queue + [x.p], outstanding := node.w.outstanding + 1),
                           committer :=
                             if x.local then Free else Blocked(x.p, Replica(x.preview, Rev(x.p)), Unsettled))
    ensures SelfConsistent(next) && node.seen == |node.chain|
  {
    hide Links, Linked, Numbered, Journalled, TermOf, SequenceOf;
    assert node.seen == |node.chain|;
    LinkedGrows(node.base, node.chain, x);
    NumberedGrows(node.chain, x, node.w.term, node.w.sequence);
    AllCommands(node.chain, node.w.term, node.w.sequence);
    JournalGrows(node.w, next.w, node.chain, x);
    assert After(next.base, next.chain, |node.chain|) == After(node.base, node.chain, |node.chain|);
  }

  lemma AllCommands(chain: seq<Issue>, term: Uint64, sequence: Uint64)
    requires Numbered(chain, term, sequence)
    ensures forall i :: 0 <= i < |chain| ==> chain[i].p.command.Command?
  {
    hide TermOf, SequenceOf;
    forall i | 0 <= i < |chain|
      ensures chain[i].p.command.Command?
    {
      assert IssueNumbered(chain[i], term, sequence);
    }
  }

  lemma GrownRecorded(node: Node, next: Node, x: Issue, issued: map<Uint64, Issued>, later: map<Uint64, Issued>)
    requires HistoryRecorded(node.base, node.chain, issued) && Keeps(issued, later) && next.base == node.base
             && next.chain == node.chain + [x]
    requires Recorded(x, later)
    ensures HistoryRecorded(next.base, next.chain, later)
  {
    hide Recorded, CoreBacked;
    HistoryLater(node.base, node.chain, issued, later);
  }

  lemma GrownCurrent(node: Node, next: Node, x: Issue, floor: Uint64, log: seq<Entry>, doubt: set<Doubt>)
    requires CurrentOk(node, floor, log, doubt) && !node.w.failed && node.seen == |node.chain|
             && next.chain == node.chain + [x]
    requires next == node.(chain := next.chain, seen := next.seen, w := next.w, committer := next.committer)
    requires next.seen == if x.local then |next.chain| else node.seen
    requires next.w.term == node.w.term && next.w.failed == node.w.failed && |next.w.queue| == |node.w.queue| + 1
    ensures CurrentOk(next, floor, log, doubt)
  {
    hide Replay;
    assert forall i :: 0 <= i <= |node.chain| ==> After(node.base, next.chain, i) == After(node.base, node.chain, i);
  }

  lemma CommitRegistry(s: System, t: System, n: NodeId, x: Issue, tx: Transaction, observed: seq<Observation>)
    requires Registry(s) && n in s.nodes && s.nodes[n].leader && s.nodes[n].w.term == s.nodes[n].raftTerm > 0
             && Sane(s.nodes[n].w) && s.nodes[n].w.sequence < MAX_SEQUENCE
    requires s.nodes[n].w.term in s.leaders && s.leaders[s.nodes[n].w.term] == n
    requires x.p.command.Command?
             && x.p.command.t == tx.(revision := Revision(s.nodes[n].w.term, s.nodes[n].w.sequence + 1))
    requires ValidTransaction(tx) && ReadsMatch(tx, observed) && AllServed(observed, s.served)
    requires n in t.nodes && t ==
             With(s, n, t.nodes[n]).(issued := s.issued[Rev(x.p) := Issued(x.p.command, observed, x.preview)])
    requires t.nodes[n].leader && t.nodes[n].raftTerm == s.nodes[n].raftTerm && t.nodes[n].w.term == s.nodes[n].w.term
             && t.nodes[n].w.sequence == s.nodes[n].w.sequence + 1
    ensures Registry(t) && Keeps(s.issued, t.issued)
  {
    hide EntryOk, PrefixesBacked, ObservationBacked, Increasing;
    var v := Rev(x.p);
    assert v in s.issued ==> Spent(s, v);
    assert v >= TWO_TO_32;
    forall u | u in s.issued
      ensures Spent(t, u)
    {
      assert Spent(s, u);
    }
    RegistryGrow(s, t, v);
  }

  lemma PreviewOfView(issued: map<Uint64, Issued>, c: Core, x: Issue)
    requires CoreBacked(issued, c) && Links(c, x) && Rev(x.p) in issued && Rev(x.p) != 0
    requires issued[Rev(x.p)].command == x.p.command && issued[Rev(x.p)].preview == x.preview
    ensures Recorded(x, issued)
  {
    AcceptedBacked(issued, c, Entry(Rev(x.p), x.p.term, x.p.command));
  }

  lemma DoubtsGrow(s: System, t: System)
    requires DoubtsOk(s) && Keeps(s.issued, t.issued) && t.doubt == s.doubt && t.log == s.log && t.floor == s.floor
    requires t.leaders == s.leaders && t.nodes.Keys == s.nodes.Keys
    ensures DoubtsOk(t)
  {
    hide Links, Replay, Recorded;
    forall d | d in t.doubt
      ensures DoubtOk(t, d)
    {
      assert DoubtOk(s, d);
      RecordedLater(s.issued, t.issued, d.issue);
    }
  }

  lemma EnqueuedRecorded(node: Node, next: Node, x: Issue, issued: map<Uint64, Issued>, later: map<Uint64, Issued>)
    requires SelfConsistent(node) && HistoryRecorded(node.base, node.chain, issued) && node.w.view.Some?
    requires Keeps(issued, later) && Links(node.w.view.value.core, x) && Rev(x.p) in later && Rev(x.p) != 0
    requires later[Rev(x.p)].command == x.p.command && later[Rev(x.p)].preview == x.preview
    requires next.base == node.base && next.chain == node.chain + [x]
    ensures HistoryRecorded(next.base, next.chain, later)
  {
    hide SelfConsistent, HistoryRecorded, Links, Keeps, CoreBacked, Recorded;
    ViewBacked(node, issued);
    BackedLater(issued, later, node.w.view.value.core);
    PreviewOfView(later, node.w.view.value.core, x);
    GrownRecorded(node, next, x, issued, later);
  }

  lemma EnqueuedNode(s: System, t: System, n: NodeId, x: Issue, tx: Transaction, size: nat,
                     observed: seq<Observation>)
    requires Inv(s) && n in s.nodes && s.nodes[n].leader && s.nodes[n].w.term == s.nodes[n].raftTerm
             && !s.nodes[n].w.failed
    requires s.nodes[n].w.view.Some? && s.nodes[n].committer == Free && Sane(s.nodes[n].w)
             && s.nodes[n].w.sequence < MAX_SEQUENCE
    requires x.p == Proposed(s.nodes[n].w, tx, size)
    requires ValidTransaction(tx) && ReadsMatch(tx, observed) && AllServed(observed, s.served)
    requires Links(s.nodes[n].w.view.value.core, x) && |s.nodes[n].w.journal| < MAX_PENDING
    requires n in t.nodes && t ==
             With(s, n, t.nodes[n]).(issued := s.issued[Rev(x.p) := Issued(x.p.command, observed, x.preview)])
    requires var node := s.nodes[n];
             t.nodes[n] == node.(chain := node.chain + [x], seen := if x.local then |node.chain| + 1 else node.seen,
                           w := node.w.(view := if x.local then Some(Replica(x.preview, Rev(x.p))) else node.w.view,
                                        sequence := node.w.sequence + 1, journal := node.w.journal + {Rev(x.p)},
                                        queue := node.w.queue + [x.p], outstanding := node.w.outstanding + 1),
                                 committer :=
                             if x.local then Free else Blocked(x.p, Replica(x.preview, Rev(x.p)), Unsettled))
    ensures Registry(t) && DoubtsOk(t) && Keeps(s.issued, t.issued)
    ensures NodeOk(n, t.nodes[n], t.leaders, t.floor, t.issued, t.log) && CurrentOk(t.nodes[n], t.floor, t.log, t.doubt)
  {
    hide Registry, DoubtsOk, HistoryRecorded, Links, Replay, SelfConsistent, CurrentOk, ValidTransaction, CoreBacked,
      Recorded, Keeps, AllServed, ReadsMatch, Judge, IssuedOk;
    var node, next := s.nodes[n], t.nodes[n];
    assert NodeOk(n, node, s.leaders, s.floor, s.issued, s.log) && CurrentOk(node, s.floor, s.log, s.doubt);
    CommitRegistry(s, t, n, x, tx, observed);
    GrownLocal(node, next, x);
    EnqueuedRecorded(node, next, x, s.issued, t.issued);
    GrownCurrent(node, next, x, s.floor, s.log, s.doubt);
    DoubtsGrow(s, t);
  }

  /** A proposal is enqueued: the registry and one history grow together. */
  lemma EnqueuedInv(s: System, t: System, n: NodeId, x: Issue, tx: Transaction, size: nat, observed: seq<Observation>)
    requires Inv(s) && n in s.nodes && s.nodes[n].leader && s.nodes[n].w.term == s.nodes[n].raftTerm
             && !s.nodes[n].w.failed
    requires s.nodes[n].w.view.Some? && s.nodes[n].committer == Free && Sane(s.nodes[n].w)
             && s.nodes[n].w.sequence < MAX_SEQUENCE
    requires x.p == Proposed(s.nodes[n].w, tx, size)
    requires ValidTransaction(tx) && ReadsMatch(tx, observed) && AllServed(observed, s.served)
    requires Links(s.nodes[n].w.view.value.core, x) && |s.nodes[n].w.journal| < MAX_PENDING
    requires n in t.nodes && t ==
             With(s, n, t.nodes[n]).(issued := s.issued[Rev(x.p) := Issued(x.p.command, observed, x.preview)])
    requires var node := s.nodes[n];
             t.nodes[n] == node.(chain := node.chain + [x], seen := if x.local then |node.chain| + 1 else node.seen,
                           w := node.w.(view := if x.local then Some(Replica(x.preview, Rev(x.p))) else node.w.view,
                                        sequence := node.w.sequence + 1, journal := node.w.journal + {Rev(x.p)},
                                        queue := node.w.queue + [x.p], outstanding := node.w.outstanding + 1),
                                 committer :=
                             if x.local then Free else Blocked(x.p, Replica(x.preview, Rev(x.p)), Unsettled))
    ensures Inv(t)
  {
    hide Registry, DoubtsOk, NodeOk, CurrentOk, Links, ValidTransaction, Keeps, AllServed, ReadsMatch;
    EnqueuedNode(s, t, n, x, tx, size, observed);
    forall m | m in t.nodes && m != n
      ensures NodeOk(m, t.nodes[m], t.leaders, t.floor, t.issued, t.log)
              && CurrentOk(t.nodes[m], t.floor, t.log, t.doubt)
    {
      NodeFrame(m, s.nodes[m], s, t);
    }
  }

  lemma CommitInv(s: System, n: NodeId, tx: Transaction, size: nat, io: CommitIO, observed: seq<Observation>)
    requires Inv(s) && Enabled(s, Commit(n, tx, size, io, observed))
    ensures Inv(Next(s, Commit(n, tx, size, io, observed)))
  {
    hide Inv, CommitStep, ValidTransaction, ReadsMatch, AllServed, Links;
    var node := s.nodes[n];
    var (w, outcome) := CommitStep(node.w, tx, size, io);
    var t := Next(s, Commit(n, tx, size, io, observed));
    match outcome
    case Refused(_) =>
      RefusedShape(node.w, tx, size, io, w);
      RefusedInv(s, n, w);
    case Acknowledged =>
      AcknowledgedView(node.w, tx, size, io);
      EnqueuedShape(node.w, tx, size, io, w, outcome, w.view.value.core);
      EnqueuedInv(s, t, n, Issue(Proposed(node.w, tx, size), w.view.value.core, true), tx, size, observed);
    case Waiting(p, preview) =>
      EnqueuedShape(node.w, tx, size, io, w, outcome, preview.core);
      EnqueuedInv(s, t, n, Issue(p, preview.core, false), tx, size, observed);
  }

  lemma AcknowledgedView(w: State, t: Transaction, size: nat, io: CommitIO)
    requires Sane(w) && w.view.Some? && CommitStep(w, t, size, io).1.Acknowledged?
    ensures CommitStep(w, t, size, io).0.view.Some?
  {
    hide Judge, ValidTransaction, LocalContentAllowed;
  }

  /* ---------- Runs ---------- */

  lemma StepInv(s: System, a: Action)
    requires Inv(s) && Enabled(s, a)
    ensures Inv(Next(s, a))
  {
    match a {
      case Elect(n, term) => ElectInv(s, n, term);
      case StepDown(n, term) => StepDownInv(s, n, term);
      case Restart(n, handed) => RestartInv(s, n, handed);
      case CommitNoop(term) => CommitNoopInv(s, term);
      case Rebuild(n, upto) => RebuildInv(s, n, upto);
      case Observe(n, key) => ObserveInv(s, n, key);
      case ObserveReplica(upto, key) => ObserveReplicaInv(s, upto, key);
      case Commit(n, t, size, io, observed) => CommitInv(s, n, t, size, io, observed);
      case Finish(n, authoritative) => FinishInv(s, n, authoritative);
      case Cancel(n) => CancelInv(s, n);
      case Take(n, authoritative) => TakeInv(s, n, authoritative);
      case Append(n, term, index) => AppendInv(s, n, term, index);
      case AppendDoubt(d, index) => AppendDoubtInv(s, d, index);
      case Settle(n, future, journalled, handed) => SettleInv(s, n, future, journalled, handed);
      case LegacyAppend(n, term, t, size, index, observed) => LegacyAppendInv(s, n, term, t, size, index, observed);
    }
  }

  /** The invariant holds in every state of every run. */
  lemma {:induction false} RunInv(states: seq<System>, actions: seq<Action>, i: nat)
    requires IsRun(states, actions) && i < |states|
    ensures Inv(states[i])
  {
    hide Inv, Init, Enabled, Next;
    if i == 0 {
      InitInv(states[0]);
    } else {
      RunInv(states, actions, i - 1);
      StepInv(states[i - 1], actions[i - 1]);
    }
  }
}
