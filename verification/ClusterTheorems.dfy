/** What the cluster promises in every state of every run. */
module ClusterTheorems {
  import opened Wrappers
  import opened Kv
  import opened Fsm
  import opened Writer
  import opened Cluster
  import opened ClusterInv
  import opened ClusterProof
  import opened ClusterSteps

  /* ---------- Speculation refines the log ---------- */

  /** Applies proposals in order; None as soon as one is refused. */
  ghost function RunAll(c: Core, ps: seq<Proposal>): Option<Core>
    decreases |ps|
  {
    if ps == [] then Some(c)
    else if ps[0].command.Malformed? then None
    else
      match Judge(c, Entry(Rev(ps[0]), ps[0].term, ps[0].command))
      case Rejected(_) => None
      case Accepted(next) => RunAll(next, ps[1..])
  }

  /** The proposals that were enqueued and that the log has not applied yet. */
  function Unsettled(node: Node): seq<Proposal> {
    (if node.worker.Taken? && node.worker.fate.Unapplied? then [node.worker.p] else []) + node.w.queue
  }

  lemma {:induction false} NextRuns(node: Node, ps: seq<Proposal>, from: nat)
    requires Linked(node.base, node.chain) && from < |node.chain| && |ps| > 0 && ps[0] == node.chain[from].p
    ensures RunAll(After(node.base, node.chain, from), ps) == RunAll(After(node.base, node.chain, from + 1), ps[1..])
  {
    hide Judge, LocalContentAllowed;
    assert Links(After(node.base, node.chain, from), node.chain[from]);
  }

  lemma {:induction false} RunChain(node: Node, ps: seq<Proposal>, from: nat)
    requires Linked(node.base, node.chain) && from + |ps| == |node.chain|
    requires forall i :: 0 <= i < |ps| ==> ps[i] == node.chain[from + i].p
    ensures RunAll(After(node.base, node.chain, from), ps) == Some(After(node.base, node.chain, |node.chain|))
    decreases |ps|
  {
    hide Judge, LocalContentAllowed;
    if ps != [] {
      hide Linked, RunAll;
      NextRuns(node, ps, from);
      RunChain(node, ps[1..], from + 1);
    }
  }

  /** The served view, or the state a pending replicated write will install. */
  ghost function Predicted(node: Node): Core
    requires node.w.view.Some?
  {
    if Confirming(node.committer, node.w.term) then node.committer.preview.core else node.w.view.value.core
  }

  /**
   While a writer has not failed and its term is the highest committed one, applying its unsettled
   proposals in order to the replicated state accepts every one of them and ends exactly in the state
   the leader serves, plus at most one replicated write that is still being confirmed.
   */
  lemma SpeculationRefinesLog(states: seq<System>, actions: seq<Action>, i: nat, n: NodeId)
    requires IsRun(states, actions) && i < |states| && n in states[i].nodes
    requires var node := states[i].nodes[n];
             node.w.view.Some? && !node.w.failed && node.w.term == states[i].floor
    ensures var node := states[i].nodes[n];
            && RunAll(states[i].Replicated().core, Unsettled(node)) == Some(Predicted(node))
            && (Confirming(node.committer, node.w.term) ==>
                  && node.committer.p.command.Command?
                  && Judge(node.w.view.value.core,
                           Entry(Rev(node.committer.p), node.committer.p.term, node.committer.p.command)) ==
                     Accepted(node.committer.preview.core))
  {
    RunInv(states, actions, i);
    PredictedHere(states[i], n);
  }

  /** The unsettled proposals are the part of the history that the log has not reached. */
  lemma UnsettledTail(node: Node)
    requires Queueing(node.chain, node.w.queue, node.w.outstanding, node.worker)
    requires Progress(node.chain, |node.chain| - |node.w.queue|, false, node.worker, node.applied, node.seen)
             && !RefusedByLog(node.worker)
    ensures |Unsettled(node)| == |node.chain| - node.applied
    ensures forall i :: 0 <= i < |Unsettled(node)| ==> Unsettled(node)[i] == node.chain[node.applied + i].p
  {}

  lemma AwaitedLinks(node: Node)
    requires Linked(node.base, node.chain) && Shown(node.w.view, node.base, node.chain, node.seen) && node.w.view.Some?
    requires Awaited(node.committer, node.chain, node.seen)
    ensures node.committer.preview.core == After(node.base, node.chain, |node.chain|)
    ensures node.committer.p.command.Command?
    ensures Judge(node.w.view.value.core,
                  Entry(Rev(node.committer.p), node.committer.p.term, node.committer.p.command)) ==
            Accepted(node.committer.preview.core)
  {
    hide Judge, LocalContentAllowed;
    assert Links(After(node.base, node.chain, node.seen), node.chain[node.seen]);
  }

  lemma PredictedHere(s: System, n: NodeId)
    requires Inv(s) && n in s.nodes
    requires s.nodes[n].w.view.Some? && !s.nodes[n].w.failed && s.nodes[n].w.term == s.floor
    ensures RunAll(s.Replicated().core, Unsettled(s.nodes[n])) == Some(Predicted(s.nodes[n]))
    ensures Confirming(s.nodes[n].committer, s.nodes[n].w.term) ==>
              var node := s.nodes[n];
              && node.committer.p.command.Command?
              && Judge(node.w.view.value.core,
                       Entry(Rev(node.committer.p), node.committer.p.term, node.committer.p.command)) ==
                 Accepted(node.committer.preview.core)
  {
    hide Registry, DoubtsOk, HistoryRecorded, Stamped, Replay, Judge, Links, Linked, Journalled, Numbered, RunAll,
      Unsettled, Queueing, Progress, DoubtIsNext, Awaited, Confirming;
    var node := s.nodes[n];
    assert NodeOk(n, node, s.leaders, s.floor, s.issued, s.log) && CurrentOk(node, s.floor, s.log, s.doubt);
    UnsettledTail(node);
    RunChain(node, Unsettled(node), node.applied);
    if Confirming(node.committer, node.w.term) {
      AwaitedLinks(node);
    }
  }

  /** The theorem speaks of something: any node can become a working leader of the current term. */
  lemma WorkingLeaderReachable(n: NodeId) returns (states: seq<System>, actions: seq<Action>)
    ensures IsRun(states, actions) && |states| == 3 && n in states[2].nodes
    ensures states[2].nodes[n].w.view.Some? && !states[2].nodes[n].w.failed
            && states[2].nodes[n].w.term == states[2].floor && states[2].nodes[n].leader
  {
    var s := System(map[n := FRESH_NODE], map[], [], 0, {}, map[], {});
    var elected := Next(s, Elect(n, 1));
    var rebuilt := Next(elected, Rebuild(n, 0));
    states, actions := [s, elected, rebuilt], [Elect(n, 1), Rebuild(n, 0)];
  }

  /* ---------- When the log does what a leader predicted ---------- */

  /**
   An entry with a revision is accepted if and only if it is committed in the term it was numbered for. Then it
   produces the state that was registered for it; otherwise it is refused as invalid and changes only the index.
   */
  ghost predicate PredictedEntry(s: System, j: nat)
    requires j < |s.log|
  {
    s.log[j].data.Command? && s.log[j].data.t.revision != 0 ==>
      var e, before := s.log[j], Replay(FRESH, s.log[..j]).core;
      && e.data.t.revision in s.issued
      && (Judge(before, e).Accepted? <==> e.term == TermOf(e.data.t.revision))
      && (Judge(before, e).Accepted? ==> Judge(before, e) == Accepted(s.issued[e.data.t.revision].preview))
      && (!Judge(before, e).Accepted? ==> Judge(before, e) == Rejected(ErrInvalid) && Step(before, e) == before)
  }

  lemma PredictedLater(s: System, t: System, j: nat)
    requires j < |s.log| && s.log <= t.log && Keeps(s.issued, t.issued) && PredictedEntry(s, j)
    ensures PredictedEntry(t, j)
  {
    hide Judge, Replay;
    assert t.log[..j] == s.log[..j];
  }

  /** Every action extends the log by at most one entry, and a speculative entry fares as predicted. */
  lemma StepPredicted(s: System, a: Action)
    requires Inv(s) && Enabled(s, a)
    ensures var t := Next(s, a);
            && Keeps(s.issued, t.issued) && s.log <= t.log && |t.log| <= |s.log| + 1
            && (|t.log| > |s.log| ==> PredictedEntry(t, |s.log|))
  {
    hide Inv, Enabled, Next, PredictedEntry, Keeps;
    match a {
      case Append(n, term, index) =>
        AppendPredicted(s, n, term, index);
        QuietStep(s, a);
      case AppendDoubt(d, index) =>
        DoubtPredicted(s, d, index);
        QuietStep(s, a);
      case Commit(n, tx, size, io, observed) =>
        CommitKeeps(s, n, tx, size, io, observed);
      case LegacyAppend(n, term, tx, size, index, observed) =>
        LegacyKeeps(s, n, term, tx, size, index, observed);
      case _ =>
        QuietStep(s, a);
    }
  }

  /** Only a commit and a legacy command register anything, and only appends change the log. */
  lemma QuietStep(s: System, a: Action)
    requires Enabled(s, a) && !a.Commit? && !a.LegacyAppend?
    ensures Next(s, a).issued == s.issued && Keeps(s.issued, s.issued)
    ensures s.log <= Next(s, a).log && |Next(s, a).log| == |s.log| + if a.Append? || a.AppendDoubt? then 1 else 0
  {
    hide Replay, Judge, ValidTransaction, FinishEffect, SettleEffect, CountApplied, RebuiltNode, Replay, LeftInDoubt,
      TakeValid;
  }

  lemma CommitKeeps(s: System, n: NodeId, tx: Transaction, size: nat, io: CommitIO, observed: seq<Observation>)
    requires Inv(s) && Enabled(s, Commit(n, tx, size, io, observed))
    ensures var t := Next(s, Commit(n, tx, size, io, observed)); t.log == s.log && Keeps(s.issued, t.issued)
  {
    hide Inv, CommitStep, ReadsMatch, AllServed;
    CommitFresh(s, n, tx, size, io);
  }

  lemma LegacyKeeps(s: System, n: NodeId, term: Uint64, tx: Transaction, size: nat, index: Uint64,
                    observed: seq<Observation>)
    requires Inv(s) && Enabled(s, LegacyAppend(n, term, tx, size, index, observed))
    ensures var t := Next(s, LegacyAppend(n, term, tx, size, index, observed));
            Keeps(s.issued, t.issued) && s.log <= t.log && |t.log| == |s.log| + 1 && PredictedEntry(t, |s.log|)
  {
    hide NodeOk, CurrentOk, DoubtsOk, Replay, Judge, ValidTransaction, EntryOk, PrefixesBacked, ObservationBacked,
      IssuedOk, Increasing;
    assert forall v :: v in s.issued && v == index ==> Spent(s, v);
  }

  lemma CommitFresh(s: System, n: NodeId, tx: Transaction, size: nat, io: CommitIO)
    requires Inv(s) && n in s.nodes && s.nodes[n].leader && s.nodes[n].w.term == s.nodes[n].raftTerm
             && Sane(s.nodes[n].w) && s.nodes[n].w.view.Some?
    ensures s.nodes[n].w.sequence < MAX_SEQUENCE ==> Rev(Proposed(s.nodes[n].w, tx, size)) !in s.issued
    ensures !CommitStep(s.nodes[n].w, tx, size, io).1.Refused? ==>
              && s.nodes[n].w.sequence < MAX_SEQUENCE
              && (CommitStep(s.nodes[n].w, tx, size, io).1.Waiting? ==>
                  CommitStep(s.nodes[n].w, tx, size, io).1.proposal == Proposed(s.nodes[n].w, tx, size))
  {
    hide SelfConsistent, HistoryRecorded, Stamped, CurrentOk, DoubtsOk, IssuedOk, EntryOk, PrefixesBacked,
      ObservationBacked, Increasing, Judge, ValidTransaction, LocalContentAllowed;
    var w := s.nodes[n].w;
    assert NodeOk(n, s.nodes[n], s.leaders, s.floor, s.issued, s.log);
    if w.sequence < MAX_SEQUENCE {
      var v := Rev(Proposed(w, tx, size));
      assert forall u :: u in s.issued && u == v ==> Spent(s, u);
      assert v >= TWO_TO_32;
    }
  }

  lemma TimelyPredicted(s: System, t: System, x: Issue, e: Entry)
    requires x.p.command.Command? && Recorded(x, s.issued) && TermOf(Rev(x.p)) == x.p.term && Rev(x.p) != 0
    requires t.log == s.log + [e] && t.issued == s.issued && e.data == x.p.command
    requires e.term == x.p.term ==> Links(s.Replicated().core, x)
    ensures PredictedEntry(t, |s.log|)
  {
    hide Replay, Judge, Links, Step, CoreBacked;
    assert t.log[..|s.log|] == s.log;
    if e.term == x.p.term {
      IndexIrrelevant(s.Replicated().core, x, e.index);
    } else {
      LateRefused(s.Replicated().core, e);
    }
  }

  lemma AppendPredicted(s: System, n: NodeId, term: Uint64, index: Uint64)
    requires Inv(s) && Enabled(s, Append(n, term, index))
    ensures PredictedEntry(Next(s, Append(n, term, index)), |s.log|)
  {
    hide Inv, Replay, Judge, Links, Recorded, PredictedEntry;
    var t := Next(s, Append(n, term, index));
    var e := Entry(index, term, s.nodes[n].worker.p.command);
    if term == s.nodes[n].worker.p.term {
      var x := AppendFacts(s, n, index);
      TimelyTerm(s, n, x);
      TimelyPredicted(s, t, x, e);
    } else {
      var x := LateFacts(s, n, term);
      TimelyPredicted(s, t, x, e);
    }
  }

  lemma TimelyTerm(s: System, n: NodeId, x: Issue)
    requires Inv(s) && n in s.nodes && s.nodes[n].applied < |s.nodes[n].chain|
             && x == s.nodes[n].chain[s.nodes[n].applied]
    ensures x.p.command.Command? && TermOf(Rev(x.p)) == x.p.term
  {
    hide Registry, DoubtsOk, CurrentOk, HistoryRecorded, Stamped, Queueing, Linked, Shown, Waits, Journalled;
    assert NodeOk(n, s.nodes[n], s.leaders, s.floor, s.issued, s.log);
    assert IssueNumbered(x, s.nodes[n].w.term, s.nodes[n].w.sequence);
  }

  lemma DoubtPredicted(s: System, d: Doubt, index: Uint64)
    requires Inv(s) && Enabled(s, AppendDoubt(d, index))
    ensures PredictedEntry(Next(s, AppendDoubt(d, index)), |s.log|)
  {
    hide Registry, NodeOk, CurrentOk, Replay, Judge, Links, Recorded, PredictedEntry;
    assert DoubtOk(s, d);
    TimelyPredicted(s, Next(s, AppendDoubt(d, index)), d.issue, Entry(index, d.term, d.issue.p.command));
  }

  /**
   In every run, every speculative entry that Raft ever commits - including one whose outcome its leader never
   learned - is accepted if and only if it is committed in the term it was made for, and then produces exactly the
   state its leader predicted. One that reached Raft only after its node had been elected again is refused.
   */
  lemma {:induction false} PredictionsHold(states: seq<System>, actions: seq<Action>, i: nat, j: nat)
    requires IsRun(states, actions) && i < |states| && j < |states[i].log|
    ensures PredictedEntry(states[i], j)
  {
    hide Inv, Enabled, Next, PredictedEntry;
    if i > 0 {
      RunInv(states, actions, i - 1);
      StepPredicted(states[i - 1], actions[i - 1]);
      if j < |states[i - 1].log| {
        PredictionsHold(states, actions, i - 1, j);
        PredictedLater(states[i - 1], states[i], j);
      }
    }
  }

  /* ---------- Serializability ---------- */

  /** One version of one key names one value, in whichever states the two records were seen. */
  lemma VersionNamesValue(s: System, k: Key, a: Record, b: Record)
    requires Inv(s) && Backed(s.issued, k, a) && Backed(s.issued, k, b) && a.version == b.version
    ensures a == b
  {
    hide NodeOk, CurrentOk, DoubtsOk, EntryOk, Spent, PrefixesBacked, ObservationBacked, Increasing;
    var v := a.version;
    assert IssuedOk(v, s.issued[v], s.served);
    var t := s.issued[v].command.t;
    var i :| 0 <= i < |t.writes| && t.writes[i] == Write(k, a.value, false);
    var j :| 0 <= j < |t.writes| && t.writes[j] == Write(k, b.value, false);
    assert DistinctWrites(t.writes);
    assert i == j;
  }

  ghost predicate SeesState(observed: seq<Observation>, records: Records) {
    forall i :: 0 <= i < |observed| ==> observed[i].record == Lookup(records, observed[i].key)
  }

  /** Reads that contain the same observations, in whatever order and however often, see the same states. */
  lemma SameReadsSeeSame(a: seq<Observation>, b: seq<Observation>, records: Records)
    requires SeesState(a, records) && forall o :: o in b ==> o in a
    ensures SeesState(b, records)
  {
    forall i | 0 <= i < |b|
      ensures b[i].record == Lookup(records, b[i].key)
    {
      assert b[i] in b;
      var j :| 0 <= j < |a| && a[j] == b[i];
    }
  }

  /**
   A deterministic callback: what it does next is a function of what it has read. It may read its keys in any
   order and repeatedly, and leaves behind a set of pending writes.
   */
  datatype ClientStep = ReadKey(key: Key) | Propose(pending: set<Write>, durability: Durability) | GiveUp

  type Client = seq<Observation> -> ClientStep

  ghost predicate Conducts(client: Client, reading: seq<Observation>, pending: set<Write>, durability: Durability) {
    && (forall i :: 0 <= i < |reading| ==> client(reading[..i]) == ReadKey(reading[i].key))
    && client(reading) == Propose(pending, durability)
  }

  /** On one state a callback has only one run. */
  lemma {:induction false} OneRunPerState(client: Client, a: seq<Observation>, b: seq<Observation>,
                                          wa: set<Write>, wb: set<Write>, d: Durability, e: Durability,
                                          records: Records, k: nat)
    requires Conducts(client, a, wa, d) && Conducts(client, b, wb, e) && SeesState(a, records) && SeesState(b, records)
    requires k <= |a| && k <= |b|
    ensures a[..k] == b[..k]
  {
    if k > 0 {
      OneRunPerState(client, a, b, wa, wb, d, e, records, k - 1);
      assert a[k - 1].key == b[k - 1].key;
      assert a[..k] == a[..k - 1] + [a[k - 1]];
      assert b[..k] == b[..k - 1] + [b[k - 1]];
    }
  }

  /** The writes of a command are these, in some order, each key once. */
  ghost predicate Lists(writes: seq<Write>, pending: set<Write>) {
    DistinctWrites(writes) && forall w :: w in writes <==> w in pending
  }

  /** The order in which a command lists its writes is irrelevant. */
  lemma OrderIrrelevant(records: Records, a: seq<Write>, b: seq<Write>, pending: set<Write>, version: Uint64)
    requires Lists(a, pending) && Lists(b, pending)
    ensures WriteAll(records, a, version) == WriteAll(records, b, version)
  {
    hide WriteAll;
    var x, y := WriteAll(records, a, version), WriteAll(records, b, version);
    forall k: Key
      ensures Lookup(x, k) == Lookup(y, k)
    {
      WriteAllAt(records, a, version, k);
      WriteAllAt(records, b, version, k);
      if i :| 0 <= i < |a| && a[i].key == k {
        assert a[i] in pending;
        var j :| 0 <= j < |b| && b[j] == a[i];
      } else {
        assert forall j :: 0 <= j < |b| ==> b[j] in a;
      }
    }
    SameLookups(x, y);
  }

  lemma SameLookups(x: Records, y: Records)
    requires forall k: Key :: Lookup(x, k) == Lookup(y, k)
    ensures x == y
  {
    forall k: Key
      ensures k in x <==> k in y
      ensures k in x ==> x[k] == y[k]
    {
      assert Lookup(x, k) == Lookup(y, k);
    }
  }

  lemma ReadsAreCurrent(s: System, j: nat)
    requires Inv(s) && j < |s.log| && Judge(Replay(FRESH, s.log[..j]).core, s.log[j]).Accepted?
    requires s.log[j].data.Command? && AssignedVersion(s.log[j].data.t, s.log[j].index) in s.issued
    ensures SeesState(s.issued[AssignedVersion(s.log[j].data.t, s.log[j].index)].observed,
                      Replay(FRESH, s.log[..j]).core.records)
  {
    hide NodeOk, CurrentOk, DoubtsOk, Replay, Spent, ObservationBacked, Backed, ValidTransaction, Increasing, WriteAll;
    var e := s.log[j];
    var v := AssignedVersion(e.data.t, e.index);
    var x := s.issued[v];
    var core := Replay(FRESH, s.log[..j]).core;
    assert EntryOk(s, s.log[j]) && IssuedOk(v, x, s.served);
    assert ChecksHold(core.records, e.data.t.checks);
    assert CoreBacked(s.issued, core);
    forall i | 0 <= i < |x.observed|
      ensures x.observed[i].record == Lookup(core.records, x.observed[i].key)
    {
      var o := x.observed[i];
      assert o in s.served && e.data.t.checks[i] == Check(o.key, o.Version());
      assert ObservationBacked(s.issued, o);
      OneRead(s, core, o);
    }
  }

  lemma OneRead(s: System, core: Core, o: Observation)
    requires Inv(s) && CoreBacked(s.issued, core) && ObservationBacked(s.issued, o)
             && VersionAt(core.records, o.key) == o.Version()
    ensures o.record == Lookup(core.records, o.key)
  {
    hide NodeOk, CurrentOk, DoubtsOk, EntryOk, Spent, PrefixesBacked, Increasing, ValidTransaction, WritesValue;
    if o.key in core.records {
      var r := core.records[o.key];
      assert Backed(s.issued, o.key, r);
      assert IssuedOk(r.version, s.issued[r.version], s.served);
      assert o.record.Some?;
      VersionNamesValue(s, o.key, r, o.record.value);
    } else {
      assert forall v :: v in s.issued ==> IssuedOk(v, s.issued[v], s.served);
    }
  }

  /** The version under which the command at a log position was registered. */
  function VersionOf(e: Entry): Uint64
    requires e.data.Command?
  {
    AssignedVersion(e.data.t, e.index)
  }

  /** Every position of the log holds a registered command together with the reads it was based on. */
  lemma LogRegistered(s: System, j: nat)
    requires Inv(s) && j < |s.log|
    ensures s.log[j].data.Command? && VersionOf(s.log[j]) in s.issued
    ensures s.issued[VersionOf(s.log[j])].command == s.log[j].data
  {
    hide NodeOk, CurrentOk, DoubtsOk, Replay, Spent, PrefixesBacked, ObservationBacked, Increasing;
    assert EntryOk(s, s.log[j]);
  }

  /**
   The command at position j is what this callback produced when it ran: the callback read exactly the
   observations the command is based on, in an order of its own, and left exactly the command's writes.
   */
  ghost predicate ProducedBy(s: System, j: nat, client: Client)
    requires j < |s.log|
  {
    && s.log[j].data.Command? && VersionOf(s.log[j]) in s.issued
    && exists reading, pending, durability ::
         Produced(client, s.issued[VersionOf(s.log[j])].observed, s.log[j].data.t.writes, reading, pending, durability)
  }

  ghost predicate Produced(client: Client, observed: seq<Observation>, writes: seq<Write>,
                           reading: seq<Observation>, pending: set<Write>, durability: Durability) {
    && Conducts(client, reading, pending, durability)
    && (forall o :: o in reading <==> o in observed)
    && (forall w :: w in writes <==> w in pending)
  }

  /** A callback run alone on a state: its reads see that state and its writes are installed under a version. */
  ghost function RunAlone(client: Client, records: Records, version: Uint64): Records {
    if reading, pending, durability, writes :|
         Conducts(client, reading, pending, durability) && SeesState(reading, records) && Lists(writes, pending)
    then WriteAll(records, writes, version)
    else records
  }

  /** Runs the accepted callbacks one after another in log order, each on the state its predecessors left. */
  ghost function RunSerially(log: seq<Entry>, clients: seq<Client>): Records
    requires |clients| == |log|
  {
    if log == [] then map[]
    else
      var last := |log| - 1;
      var records := RunSerially(log[..last], clients[..last]);
      if log[last].data.Command? && Judge(Replay(FRESH, log[..last]).core, log[last]).Accepted?
      then RunAlone(clients[last], records, VersionOf(log[last])) else records
  }

  lemma AloneAgrees(client: Client, records: Records, version: Uint64,
                    reading: seq<Observation>, pending: set<Write>, durability: Durability, writes: seq<Write>)
    requires Conducts(client, reading, pending, durability) && SeesState(reading, records) && Lists(writes, pending)
    ensures RunAlone(client, records, version) == WriteAll(records, writes, version)
  {
    hide WriteAll;
    var o, p, d, ws :| Conducts(client, o, p, d) && SeesState(o, records) && Lists(ws, p)
                       && RunAlone(client, records, version) == WriteAll(records, ws, version);
    var k := if |o| <= |reading| then |o| else |reading|;
    OneRunPerState(client, o, reading, p, pending, d, durability, records, k);
    assert o[..|o|] == o && reading[..|reading|] == reading;
    OrderIrrelevant(records, ws, writes, pending, version);
  }

  lemma {:induction false} SerialPrefix(s: System, clients: seq<Client>, k: nat)
    requires Inv(s) && |clients| == |s.log| && k <= |s.log|
    requires forall j :: 0 <= j < |s.log| ==> ProducedBy(s, j, clients[j])
    ensures Replay(FRESH, s.log[..k]).core.records == RunSerially(s.log[..k], clients[..k])
  {
    hide Inv, Judge, WriteAll, ProducedBy, RunAlone;
    if k > 0 {
      var j := k - 1;
      SerialPrefix(s, clients, j);
      assert s.log[..k][..j] == s.log[..j] && clients[..k][..j] == clients[..j];
      LogRegistered(s, j);
      if Judge(Replay(FRESH, s.log[..j]).core, s.log[j]).Accepted? {
        AcceptedAlone(s, j, clients[j]);
      }
    }
  }

  /** An accepted command does what its callback does when it runs alone on the state before it. */
  lemma AcceptedAlone(s: System, j: nat, client: Client)
    requires Inv(s) && j < |s.log| && ProducedBy(s, j, client) && s.log[j].data.Command?
    requires Judge(Replay(FRESH, s.log[..j]).core, s.log[j]).Accepted?
    ensures Step(Replay(FRESH, s.log[..j]).core, s.log[j]).records ==
            RunAlone(client, Replay(FRESH, s.log[..j]).core.records, VersionOf(s.log[j]))
  {
    hide Inv, Judge, WriteAll, Conducts, RunAlone, Replay, SeesState, Step;
    var e, core := s.log[j], Replay(FRESH, s.log[..j]).core;
    var observed := s.issued[VersionOf(e)].observed;
    var reading, pending, durability :| Produced(client, observed, e.data.t.writes, reading, pending, durability);
    ReadsAreCurrent(s, j);
    SameReadsSeeSame(observed, reading, core.records);
    AcceptedWrites(core, e);
    AloneAgrees(client, core.records, VersionOf(e), reading, pending, durability, e.data.t.writes);
  }

  lemma AcceptedWrites(c: Core, e: Entry)
    requires e.data.Command? && Judge(c, e).Accepted?
    ensures Step(c, e).records == WriteAll(c.records, e.data.t.writes, VersionOf(e)) && DistinctWrites(e.data.t.writes)
  {}

  /**
   Serializability: over any interleaving of clients and nodes, elections, failures and restarts, and for
   callbacks that read their keys in any order, the replicated records equal those of running the committed callbacks
   alone, one after another in log
   order, each seeing exactly the state its predecessors left.
   */
  lemma Serializable(states: seq<System>, actions: seq<Action>, i: nat, clients: seq<Client>)
    requires IsRun(states, actions) && i < |states| && |clients| == |states[i].log|
    requires forall j :: 0 <= j < |clients| ==> ProducedBy(states[i], j, clients[j])
    ensures states[i].Replicated().core.records == RunSerially(states[i].log, clients)
  {
    hide Inv, Replay, RunSerially, ProducedBy;
    RunInv(states, actions, i);
    SerialPrefix(states[i], clients, |clients|);
    assert states[i].log[..|clients|] == states[i].log && clients[..|clients|] == clients;
  }
}
