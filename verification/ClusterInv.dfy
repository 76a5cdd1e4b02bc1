/**
 The inductive invariant of the cluster: every version names one written value,
 every writer's history is a chain of predicted states, and while a writer's term
 is the highest committed one the replicated state is a point on that chain.
 */
module ClusterInv {
  import opened Wrappers
  import opened Kv
  import opened Fsm
  import opened Writer
  import opened Cluster

  /* ---------- Versions name values ---------- */

  ghost predicate WritesValue(t: Transaction, k: Key, v: Value) {
    exists i :: 0 <= i < |t.writes| && t.writes[i] == Write(k, v, false)
  }

  /** The command issued under the record's version wrote exactly this value to this key. */
  ghost predicate Backed(issued: map<Uint64, Issued>, k: Key, r: Record) {
    r.version in issued && issued[r.version].command.Command? && WritesValue(issued[r.version].command.t, k, r.value)
  }

  ghost predicate CoreBacked(issued: map<Uint64, Issued>, c: Core) {
    forall k :: k in c.records ==> Backed(issued, k, c.records[k])
  }

  ghost predicate ObservationBacked(issued: map<Uint64, Issued>, o: Observation) {
    o.record.Some? ==> Backed(issued, o.key, o.record.value)
  }

  ghost predicate IssuedOk(v: Uint64, x: Issued, served: set<Observation>) {
    && v > 0
    && x.command.Command?
    && ValidTransaction(x.command.t)
    && x.command.t.revision == (if v < TWO_TO_32 then 0 else v)
    && ReadsMatch(x.command.t, x.observed)
    && AllServed(x.observed, served)
  }

  /** A revision that was used is below anything its leader can still assign. */
  ghost predicate Spent(s: System, v: Uint64) {
    if v < TWO_TO_32 then v <= s.LastIndex()
    else
      var term := TermOf(v);
      && term in s.leaders && s.leaders[term] in s.nodes
      && var node := s.nodes[s.leaders[term]];
         || term < node.raftTerm
         || (term == node.raftTerm && (!node.leader || (node.w.term == term && SequenceOf(v) <= node.w.sequence)))
  }

  ghost predicate EntryOk(s: System, e: Entry) {
    && e.data.Command? && 0 < e.index < TWO_TO_32 && e.term <= s.floor
    && var v := AssignedVersion(e.data.t, e.index);
       v in s.issued && s.issued[v].command == e.data
  }

  ghost predicate Increasing(log: seq<Entry>) {
    forall i, j :: 0 <= i < j < |log| ==> log[i].index < log[j].index
  }

  ghost predicate PrefixesBacked(issued: map<Uint64, Issued>, log: seq<Entry>) {
    forall k :: 0 <= k <= |log| ==> CoreBacked(issued, Replay(FRESH, log[..k]).core)
  }

  ghost predicate Registry(s: System) {
    && (forall v :: v in s.issued ==> IssuedOk(v, s.issued[v], s.served))
    && (forall v :: v in s.issued ==> Spent(s, v))
    && (forall i :: 0 <= i < |s.log| ==> EntryOk(s, s.log[i]))
    && Increasing(s.log)
    && PrefixesBacked(s.issued, s.log)
    && (forall o :: o in s.served ==> ObservationBacked(s.issued, o))
  }

  /* ---------- One node ---------- */

  function Rev(p: Proposal): Uint64
    requires p.command.Command?
  {
    p.command.t.revision
  }

  /** The state after the first `i` proposals of a history. */
  function After(base: Core, chain: seq<Issue>, i: nat): Core
    requires i <= |chain|
  {
    if i == 0 then base else chain[i - 1].preview
  }

  /** The queue is the tail of the history, and the worker holds the proposal just before it. */
  ghost predicate Queueing(chain: seq<Issue>, queue: seq<Proposal>, outstanding: int, worker: Worker) {
    && |queue| <= |chain|
    && (forall i :: 0 <= i < |queue| ==> queue[i] == chain[|chain| - |queue| + i].p)
    && outstanding == |queue| + (if worker.Taken? then 1 else 0)
    && (worker.Taken? ==> |queue| < |chain| && worker.p == chain[|chain| - |queue| - 1].p)
    && (worker.Taken? && !worker.valid ==> worker.fate.Unapplied?)
  }

  ghost predicate IssueNumbered(x: Issue, term: Uint64, sequence: Uint64) {
    && x.p.command.Command? && x.p.term == term
    && TermOf(Rev(x.p)) == term && 0 < SequenceOf(Rev(x.p)) <= sequence
  }

  ghost predicate Numbered(chain: seq<Issue>, term: Uint64, sequence: Uint64) {
    && (forall i :: 0 <= i < |chain| ==> IssueNumbered(chain[i], term, sequence))
    && (forall i, j :: 0 <= i < j < |chain| ==> Rev(chain[i].p) < Rev(chain[j].p))
  }

  /** The proposal was accepted by the state before it, and produced the predicted one. */
  ghost predicate Links(before: Core, x: Issue) {
    && x.p.command.Command?
    && Judge(before, Entry(Rev(x.p), x.p.term, x.p.command)) == Accepted(x.preview)
    && (x.local ==> LocalContentAllowed(x.p.command.t, before.records))
  }

  ghost predicate Linked(base: Core, chain: seq<Issue>) {
    forall i :: 0 <= i < |chain| ==> Links(After(base, chain, i), chain[i])
  }

  ghost predicate Confirming(committer: Committer, term: Uint64) {
    committer.Blocked? && (committer.result.Unsettled? || (committer.result.SettledOk? && committer.p.term == term))
  }

  /** The committer waits for the last proposal of the history, which the view does not contain yet. */
  ghost predicate Awaited(committer: Committer, chain: seq<Issue>, seen: nat) {
    && committer.Blocked? && |chain| == seen + 1
    && chain[seen].p == committer.p && !chain[seen].local && chain[seen].p.command.Command?
    && committer.preview == Replica(chain[seen].preview, Rev(chain[seen].p))
  }

  /** The view holds all of the history except possibly one last replicated proposal. */
  ghost predicate Shown(view: Option<Replica>, base: Core, chain: seq<Issue>, seen: nat) {
    && seen <= |chain| <= seen + 1
    && (seen < |chain| ==> !chain[seen].local)
    && (view.Some? ==> view.value.core == After(base, chain, seen))
  }

  ghost predicate Waits(w: State, committer: Committer, worker: Worker, chain: seq<Issue>, seen: nat) {
    && (Confirming(committer, w.term) ==> Awaited(committer, chain, seen))
    && (w.view.Some? && !w.failed && !Confirming(committer, w.term) ==> seen == |chain|)
    && (committer.Blocked? ==> committer.p.term <= w.term)
    && (committer.Blocked? && committer.result.Unsettled? ==>
        w.outstanding > 0 && (worker.Taken? && worker.valid ==> !w.failed))
    && (committer.Blocked? && !committer.result.Unsettled? ==> w.outstanding == 0)
    && (committer.Blocked? && committer.result.SettledOk? && committer.p.term == w.term ==> !w.failed)
  }

  ghost function Revisions(chain: seq<Issue>, first: int): set<Uint64>
    requires forall i :: 0 <= i < |chain| ==> chain[i].p.command.Command?
  {
    set i | 0 <= i < |chain| && first <= i :: Rev(chain[i].p)
  }

  /** While the writer has not failed, its journal holds exactly the outstanding proposals. */
  ghost predicate Journalled(w: State, chain: seq<Issue>)
    requires forall i :: 0 <= i < |chain| ==> chain[i].p.command.Command?
  {
    && |w.journal| <= MAX_PENDING
    && (w.view.Some? && !w.failed ==> w.journal == Revisions(chain, |chain| - w.outstanding))
  }

  ghost predicate SelfConsistent(node: Node) {
    && Queueing(node.chain, node.w.queue, node.w.outstanding, node.worker)
    && Numbered(node.chain, node.w.term, node.w.sequence)
    && Linked(node.base, node.chain)
    && Shown(node.w.view, node.base, node.chain, node.seen)
    && Waits(node.w, node.committer, node.worker, node.chain, node.seen)
    && Journalled(node.w, node.chain)
  }

  ghost predicate Positioned(n: NodeId, node: Node, leaders: map<Uint64, NodeId>, floor: Uint64) {
    && Sane(node.w)
    && (node.w.term > 0 <==> node.w.view.Some?)
    && (node.w.term > 0 ==>
        node.w.term in leaders && leaders[node.w.term] == n && node.w.term <= floor && node.w.term <= node.raftTerm)
    && (node.w.term == 0 ==> node.chain == [])
    && (node.leader ==> node.raftTerm in leaders && leaders[node.raftTerm] == n)
    && (forall term :: term in leaders && leaders[term] == n ==> term <= node.raftTerm)
  }

  /** The history is recorded in the registry, and every state on it is backed by it. */
  ghost predicate Recorded(x: Issue, issued: map<Uint64, Issued>) {
    && x.p.command.Command? && Rev(x.p) in issued
    && issued[Rev(x.p)].command == x.p.command && issued[Rev(x.p)].preview == x.preview
    && CoreBacked(issued, x.preview)
  }

  ghost predicate HistoryRecorded(base: Core, chain: seq<Issue>, issued: map<Uint64, Issued>) {
    CoreBacked(issued, base) && forall i :: 0 <= i < |chain| ==> Recorded(chain[i], issued)
  }

  /** What the index of the served view stands for. */
  ghost predicate Stamped(view: Option<Replica>, mark: nat, base: Core, chain: seq<Issue>, seen: nat, log: seq<Entry>) {
    view.Some? ==>
      && mark <= |log|
      && base == Replay(FRESH, log[..mark]).core
      && (seen == 0 ==> view.value.index == Replay(FRESH, log[..mark]).index)
      && (0 < seen <= |chain| ==> chain[seen - 1].p.command.Command? && view.value.index == Rev(chain[seen - 1].p))
  }

  ghost predicate NodeOk(n: NodeId, node: Node, leaders: map<Uint64, NodeId>, floor: Uint64,
                         issued: map<Uint64, Issued>, log: seq<Entry>) {
    && SelfConsistent(node)
    && Positioned(n, node, leaders, floor)
    && HistoryRecorded(node.base, node.chain, issued)
    && Stamped(node.w.view, node.mark, node.base, node.chain, node.seen, log)
  }

  /* ---------- The current term ---------- */

  /** The entry is this proposal, committed in the term it was made for. */
  predicate Holds(e: Entry, p: Proposal) { e.data == p.command && e.term == p.term }

  /** How far the log has come along the history, where `taken` proposals have left the queue. */
  ghost predicate Progress(chain: seq<Issue>, taken: int, failed: bool, worker: Worker, applied: nat, seen: nat) {
    && applied <= taken
    && (worker.Taken? && worker.valid ==> applied == if worker.fate.AppliedOk? then taken else taken - 1)
    && (worker.Taken? && !worker.valid && !failed ==> applied == taken - 1)
    && (worker.Idle? && !failed ==> applied == taken)
    && (forall i :: applied <= i < seen && i < |chain| ==> chain[i].local)
  }

  /** The log since the rebuild is exactly the applied prefix of the history, each entry in the term it was made for. */
  ghost predicate Logged(chain: seq<Issue>, applied: nat, mark: nat, log: seq<Entry>) {
    && applied <= |chain|
    && |log| == mark + applied
    && (forall i :: 0 <= i < applied ==> Holds(log[mark + i], chain[i].p))
  }

  ghost predicate RefusedByLog(worker: Worker) { worker.Taken? && worker.fate.AppliedRejected? }

  ghost predicate DoubtIsNext(chain: seq<Issue>, taken: int, failed: bool, worker: Worker, applied: nat,
                              doubt: set<Doubt>, floor: Uint64) {
    forall d :: d in doubt && d.term == floor ==>
                  failed && applied < taken && applied < |chain| && d.issue == chain[applied] && !HandedToRaft(worker)
  }

  ghost predicate CurrentOk(node: Node, floor: Uint64, log: seq<Entry>, doubt: set<Doubt>) {
    node.w.term > 0 && node.w.term == floor ==>
      var taken := |node.chain| - |node.w.queue|;
      && Progress(node.chain, taken, node.w.failed, node.worker, node.applied, node.seen)
      && !RefusedByLog(node.worker)
      && Logged(node.chain, node.applied, node.mark, log)
      && Replay(FRESH, log).core == After(node.base, node.chain, node.applied)
      && DoubtIsNext(node.chain, taken, node.w.failed, node.worker, node.applied, doubt, floor)
  }

  /** Raft received the entry in the term it was made for, which is the highest committed one. */
  predicate TimelyAt(d: Doubt, floor: Uint64) { d.term == floor && d.issue.p.term == floor }

  /** A timely entry in doubt at the highest committed term is the only one, and the replicated state would accept it
      as predicted. */
  ghost predicate DoubtOk(s: System, d: Doubt) {
    var x := d.issue;
    && x.p.command.Command? && x.p.term <= s.floor && x.p.term in s.leaders && s.leaders[x.p.term] in s.nodes
    && x.p.term <= d.term && d.term in s.leaders && s.leaders[d.term] == s.leaders[x.p.term]
    && TermOf(Rev(x.p)) == x.p.term && x.p.term > 0 && SequenceOf(Rev(x.p)) != 0
    && Recorded(x, s.issued)
    && (TimelyAt(d, s.floor) ==> Links(s.Replicated().core, x))
  }

  ghost predicate DoubtsOk(s: System) {
    && (forall d :: d in s.doubt ==> DoubtOk(s, d))
    && (forall d, e :: d in s.doubt && e in s.doubt && TimelyAt(d, s.floor) && TimelyAt(e, s.floor) ==> d == e)
  }

  ghost predicate Inv(s: System) {
    && Registry(s)
    && (forall n :: n in s.nodes ==> NodeOk(n, s.nodes[n], s.leaders, s.floor, s.issued, s.log))
    && (forall n :: n in s.nodes ==> CurrentOk(s.nodes[n], s.floor, s.log, s.doubt))
    && DoubtsOk(s)
  }

  lemma InitInv(s: System)
    requires Init(s)
    ensures Inv(s)
  {
    forall n | n in s.nodes
      ensures NodeOk(n, s.nodes[n], s.leaders, s.floor, s.issued, s.log)
              && CurrentOk(s.nodes[n], s.floor, s.log, s.doubt)
    {
      assert Revisions(s.nodes[n].chain, 0) == {};
    }
  }
}
