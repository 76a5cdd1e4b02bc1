/**
 Many nodes, each with a speculative writer, over one Raft log.

 Raft enters only through its contract: a term has one leader, the committed log
 never accepts an entry below the highest committed term (`floor`), an entry is
 stamped with the term in which its node leads when Raft receives it, a successful
 future means that the entry was applied, and a failed one leaves that single
 entry in doubt until a later barrier. A proposal may reach Raft in a later term
 than the one it was made for, if its node has been elected again. Actions are the sections that hold a
 writer's lock and the events of Raft between them. A client may read a writer's
 view, or the applied state of any replica at any point of the log.
 */
module Cluster {
  import opened Wrappers
  import opened Kv
  import opened Fsm
  import opened Writer

  type NodeId = nat

  /** An enqueued proposal, the state its coordinator predicted, and how it was to be acknowledged. */
  datatype Issue = Issue(p: Proposal, preview: Core, local: bool)

  datatype Fate = Unapplied | AppliedOk | AppliedRejected(error: Error)

  /** The worker loop between taking a proposal off the queue and settling it. */
  datatype Worker = Idle | Taken(p: Proposal, valid: bool, fate: Fate)

  datatype Settlement = Unsettled | SettledOk | SettledError(error: Error)

  /** The committer that holds the write lock while it waits for replication. */
  datatype Committer = Free | Blocked(p: Proposal, preview: Replica, result: Settlement)

  /**
   One node. The last five fields are history since the last rebuild: the log
   position and state it started from, every proposal enqueued, how many of them
   the log has applied, and how many the served view contains.
   */
  datatype Node = Node(
    w: State,
    leader: bool,
    raftTerm: Uint64,
    worker: Worker,
    committer: Committer,
    mark: nat,
    base: Core,
    chain: seq<Issue>,
    applied: nat,
    seen: nat)

  /** One key as a client saw it; None when the record was absent. */
  datatype Observation = Observation(key: Key, record: Option<Record>) {
    function Version(): Uint64 { if record.Some? then record.value.version else 0 }
  }

  /** A command that was given a version, the reads it is based on, and the predicted state. */
  datatype Issued = Issued(command: Command, observed: seq<Observation>, preview: Core)

  /** An entry that Raft received in a term and that it may still commit. */
  datatype Doubt = Doubt(issue: Issue, term: Uint64)

  datatype System = System(
    nodes: map<NodeId, Node>,
    leaders: map<Uint64, NodeId>,
    log: seq<Entry>,
    floor: Uint64,
    doubt: set<Doubt>,
    issued: map<Uint64, Issued>,
    served: set<Observation>)
  {
    ghost function Replicated(): Replica { Replay(FRESH, log) }

    function LastIndex(): Uint64 { if log == [] then 0 else log[|log| - 1].index }
  }

  const FRESH_NODE: Node := Node(INITIAL, false, 0, Idle, Free, 0, EMPTY_CORE, [], 0, 0)

  ghost predicate Init(s: System) {
    && (forall n :: n in s.nodes ==> s.nodes[n] == FRESH_NODE)
    && s.leaders == map[] && s.log == [] && s.floor == 0 && s.doubt == {} && s.issued == map[] && s.served == {}
  }

  datatype Action =
    | Elect(n: NodeId, term: Uint64)
    | StepDown(n: NodeId, term: Uint64)
    | Restart(n: NodeId, handed: Uint64)
    | CommitNoop(term: Uint64)
    | Rebuild(n: NodeId, upto: nat)
    | Observe(n: NodeId, key: Key)
    | ObserveReplica(upto: nat, key: Key)
    | Commit(n: NodeId, t: Transaction, size: nat, io: CommitIO, observed: seq<Observation>)
    | Finish(n: NodeId, authoritative: bool)
    | Cancel(n: NodeId)
    | Take(n: NodeId, authoritative: bool)
    | Append(n: NodeId, term: Uint64, index: Uint64)
    | AppendDoubt(doubt: Doubt, index: Uint64)
    | Settle(n: NodeId, future: bool, journalled: bool, handed: Uint64)
    | LegacyAppend(n: NodeId, term: Uint64, t: Transaction, size: nat, index: Uint64, observed: seq<Observation>)

  /** The checks of a transaction are exactly the versions its client read. */
  predicate ReadsMatch(t: Transaction, observed: seq<Observation>) {
    && |t.checks| == |observed|
    && forall i :: 0 <= i < |observed| ==> t.checks[i] == Check(observed[i].key, observed[i].Version())
  }

  predicate AllServed(observed: seq<Observation>, served: set<Observation>) {
    forall i :: 0 <= i < |observed| ==> observed[i] in served
  }

  predicate FreshIndex(s: System, index: Uint64) { s.LastIndex() < index < TWO_TO_32 }

  function FateOf(v: Verdict): Fate {
    match v
    case Accepted(_) => AppliedOk
    case Rejected(error) => AppliedRejected(error)
  }

  /** The error the worker reports: `future` says whether Raft's future succeeded. */
  function WorkerResult(worker: Worker, future: bool): Option<Error>
    requires worker.Taken?
  {
    if !worker.valid || !future || worker.fate.Unapplied? then Some(ErrNotLeader)
    else match worker.fate
         case AppliedOk => None
         case AppliedRejected(error) => Some(error)
         case Unapplied => Some(ErrNotLeader)
  }

  function Settled(result: Option<Error>): Settlement {
    match result
    case None => SettledOk
    case Some(error) => SettledError(error)
  }

  predicate HandedToRaft(worker: Worker) { worker.Taken? && worker.valid && worker.fate.Unapplied? }

  /** If the worker has handed its proposal to Raft, it may have done so in this term, which its node has led. */
  predicate MayHandIn(s: System, n: NodeId, term: Uint64)
    requires n in s.nodes
  {
    HandedToRaft(s.nodes[n].worker) ==>
      s.nodes[n].worker.p.term <= term && term in s.leaders && s.leaders[term] == n
  }

  ghost predicate Enabled(s: System, a: Action) {
    match a
    case Elect(n, term) => term !in s.leaders && (n in s.nodes ==> s.nodes[n].raftTerm < term)
    case StepDown(n, term) => n in s.nodes && s.nodes[n].raftTerm <= term
    case Restart(n, handed) => n in s.nodes && MayHandIn(s, n, handed)
    case CommitNoop(term) => term in s.leaders && s.floor <= term
    case Rebuild(n, upto) =>
      && n in s.nodes && s.nodes[n].leader
      && var node := s.nodes[n];
         && 0 < node.raftTerm <= MAX_SEQUENCE
         && (node.w.term != node.raftTerm || node.w.failed)
         && node.w.outstanding == 0
         && upto <= |s.log|
         && (s.floor <= node.raftTerm ==> upto == |s.log|)
    case Observe(n, key) => n in s.nodes && s.nodes[n].w.view.Some? && !s.nodes[n].w.failed
    case ObserveReplica(upto, key) => upto <= |s.log|
    case Commit(n, t, size, io, observed) =>
      && n in s.nodes && s.nodes[n].leader
      && var node := s.nodes[n];
         && node.w.term == node.raftTerm && !node.w.failed && node.w.view.Some? && Sane(node.w)
         && node.committer == Free
         && t.revision == 0 && ReadsMatch(t, observed) && AllServed(observed, s.served)
    case Finish(n, _) => n in s.nodes && s.nodes[n].committer.Blocked? && !s.nodes[n].committer.result.Unsettled?
    case Cancel(n) => n in s.nodes && s.nodes[n].committer.Blocked?
    case Take(n, _) => n in s.nodes && s.nodes[n].worker == Idle && s.nodes[n].w.queue != []
    case Append(n, term, index) =>
      && n in s.nodes && HandedToRaft(s.nodes[n].worker)
      && MayHandIn(s, n, term) && s.floor <= term && FreshIndex(s, index)
    case AppendDoubt(d, index) => d in s.doubt && s.floor <= d.term && FreshIndex(s, index)
    case Settle(n, future, _, handed) =>
      && n in s.nodes && s.nodes[n].worker.Taken? && s.nodes[n].worker.p.command.Command?
      && MayHandIn(s, n, handed)
      && (future ==> !s.nodes[n].worker.fate.Unapplied?)
    case LegacyAppend(n, term, t, size, index, observed) =>
      && n !in s.nodes && term in s.leaders && s.leaders[term] == n && s.floor <= term
      && t.revision == 0 && ValidTransaction(t) && size <= MAX_COMMAND && FreshIndex(s, index)
      && ReadsMatch(t, observed) && AllServed(observed, s.served)
  }

  /** Replaces one node. */
  function With(s: System, n: NodeId, node: Node): System { s.(nodes := s.nodes[n := node]) }

  /** What remains uncertain when a worker gives up on the entry it handed to Raft in a term. */
  function LeftInDoubt(node: Node, handed: Uint64): set<Doubt> {
    if HandedToRaft(node.worker) && |node.w.queue| < |node.chain|
    then {Doubt(node.chain[|node.chain| - |node.w.queue| - 1], handed)} else {}
  }

  function RebuiltNode(node: Node, upto: nat, replica: Replica): Node {
    node.(w := Rebuilt(node.w, node.raftTerm, replica), mark := upto, base := replica.core, chain := [], applied := 0,
          seen := 0)
  }

  /** A commit section, with the bookkeeping of what it enqueued. */
  ghost function CommitEffect(s: System, n: NodeId, t: Transaction, size: nat, io: CommitIO,
                              observed: seq<Observation>): System
    requires n in s.nodes && s.nodes[n].w.view.Some? && Sane(s.nodes[n].w)
  {
    var node := s.nodes[n];
    var (w, outcome) := CommitStep(node.w, t, size, io);
    match outcome
    case Refused(_) => With(s, n, node.(w := w))
    case Acknowledged =>
      var p := Proposed(node.w, t, size);
      var chain := node.chain + [Issue(p, w.view.value.core, true)];
      var issued := s.issued[p.command.t.revision := Issued(p.command, observed, w.view.value.core)];
      With(s, n, node.(w := w, chain := chain, seen := |chain|)).(issued := issued)
    case Waiting(p, preview) =>
      var chain := node.chain + [Issue(p, preview.core, false)];
      var issued := s.issued[Proposed(node.w, t, size).command.t.revision := Issued(p.command, observed, preview.core)];
      With(s, n, node.(w := w, chain := chain, committer := Blocked(p, preview, Unsettled))).(issued := issued)
  }

  function FinishEffect(node: Node, authoritative: bool): Node
    requires node.committer.Blocked? && !node.committer.result.Unsettled?
  {
    var c := node.committer;
    var (w, err) :=
      FinishStep(node.w, c.p, if c.result.SettledOk? then None else Some(c.result.error), c.preview, authoritative);
    node.(w := w, committer := Free, seen := if err == None then |node.chain| else node.seen)
  }

  function SettleEffect(node: Node, future: bool, journalled: bool): Node
    requires node.worker.Taken? && node.worker.p.command.Command?
  {
    var p := node.worker.p;
    var (w, final) := SettleStep(node.w, p, WorkerResult(node.worker, future), journalled);
    node.(w := w, worker := Idle,
          committer := if node.committer.Blocked? && node.committer.p == p
                       then node.committer.(result := Settled(final)) else node.committer)
  }

  /** The node that has an entry in its history counts it as applied. */
  function CountApplied(nodes: map<NodeId, Node>, leaders: map<Uint64, NodeId>, term: Uint64): map<NodeId, Node> {
    if term in leaders && leaders[term] in nodes && nodes[leaders[term]].w.term == term
    then nodes[leaders[term] := nodes[leaders[term]].(applied := nodes[leaders[term]].applied + 1)]
    else nodes
  }

  ghost function Next(s: System, a: Action): System
    requires Enabled(s, a)
  {
    match a
    case Elect(n, term) =>
      var elected := s.(leaders := s.leaders[term := n]);
      if n in s.nodes then With(elected, n, s.nodes[n].(leader := true, raftTerm := term)) else elected
    case StepDown(n, term) => With(s, n, s.nodes[n].(leader := false, raftTerm := term))
    case Restart(n, handed) =>
      With(s, n, FRESH_NODE.(raftTerm := s.nodes[n].raftTerm, w := INITIAL.(journal := s.nodes[n].w.journal)))
      .(doubt := s.doubt + LeftInDoubt(s.nodes[n], handed))
    case CommitNoop(term) => s.(floor := term)
    case Rebuild(n, upto) =>
      var term := s.nodes[n].raftTerm;
      With(s, n, RebuiltNode(s.nodes[n], upto, Replay(FRESH, s.log[..upto])))
      .(floor := Max(s.floor, term), doubt := set d | d in s.doubt && term < d.term)
    case Observe(n, key) =>
      s.(served := s.served + {Observation(key, Lookup(s.nodes[n].w.view.value.core.records, key))})
    case ObserveReplica(upto, key) =>
      s.(served := s.served + {Observation(key, Lookup(Replay(FRESH, s.log[..upto]).core.records, key))})
    case Commit(n, t, size, io, observed) => CommitEffect(s, n, t, size, io, observed)
    case Finish(n, authoritative) => With(s, n, FinishEffect(s.nodes[n], authoritative))
    case Cancel(n) => With(s, n, s.nodes[n].(w := CancelStep(s.nodes[n].w), committer := Free))
    case Take(n, authoritative) =>
      var node := s.nodes[n];
      With(s, n, node.(w := TakeStep(node.w),
                       worker := Taken(node.w.queue[0], TakeValid(node.w, node.w.queue[0], authoritative), Unapplied)))
    case Append(n, term, index) =>
      var node := s.nodes[n];
      var e := Entry(index, term, node.worker.p.command);
      With(s, n, node.(worker := node.worker.(fate := FateOf(Judge(s.Replicated().core, e))),
                       applied := if term == node.worker.p.term then node.applied + 1 else node.applied))
      .(log := s.log + [e], floor := term)
    case AppendDoubt(d, index) =>
      s.(log := s.log + [Entry(index, d.term, d.issue.p.command)], floor := d.term,
         doubt := s.doubt - {d},
         nodes := if d.term == d.issue.p.term then CountApplied(s.nodes, s.leaders, d.term) else s.nodes)
    case Settle(n, future, journalled, handed) =>
      With(s, n, SettleEffect(s.nodes[n], future, journalled)).(doubt := s.doubt + LeftInDoubt(s.nodes[n], handed))
    case LegacyAppend(n, term, t, size, index, observed) =>
      var e := Entry(index, term, Command(t, size));
      s.(log := s.log + [e], floor := term,
         issued := s.issued[index := Issued(e.data, observed, Step(s.Replicated().core, e))])
  }

  /** A finite execution: it starts in an initial state and every step performs an enabled action. */
  ghost predicate IsRun(states: seq<System>, actions: seq<Action>) {
    && |states| == |actions| + 1
    && Init(states[0])
    && forall i :: 0 <= i < |actions| ==> Enabled(states[i], actions[i]) && states[i + 1] == Next(states[i], actions[i])
  }
}
