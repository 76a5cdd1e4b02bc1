/**
 What a transaction reads through stamped snapshots: whichever nodes served it and whatever happened in between, all
 of its reads are lookups in one state.
 */
module ClusterReads {
  import opened Wrappers
  import opened Kv
  import opened Fsm
  import opened Writer
  import opened Cluster
  import opened ClusterHistory

  /** One successful snapshot read: where in the run it was served, and the arguments of the writer's read section. */
  datatype SnapshotRead = SnapshotRead(
    at: nat,
    n: NodeId,
    before: State,
    raft: RaftStatus,
    io: RebuildIO,
    fsm: Replica,
    later: bool,
    keys: set<Key>,
    records: Records,
    stamp: ReadStamp)

  /** The read section, under a stamp or not, left the writer as the run has it and returned this answer. */
  ghost predicate Performed(states: seq<System>, r: SnapshotRead, stamp: Option<ReadStamp>) {
    && r.at < |states| && r.n in states[r.at].nodes && (r.before.term > 0 ==> r.before.view.Some?)
    && ReadStep(r.before, r.raft, r.io, r.fsm, r.later, r.keys, stamp) ==
       (states[r.at].nodes[r.n].w, Read(r.records, r.stamp))
  }

  /** The reads of one transaction: the first is free, the others carry the first one's stamp. */
  ghost predicate OneTransaction(states: seq<System>, snapshots: seq<SnapshotRead>) {
    forall i :: 0 <= i < |snapshots| ==>
                  Performed(states, snapshots[i], if i == 0 then None else Some(snapshots[0].stamp))
  }

  /** A read returns the served view's records, and its stamp carries the view's index. */
  lemma ReadIsLookup(states: seq<System>, r: SnapshotRead, stamp: Option<ReadStamp>)
    requires Performed(states, r, stamp)
    ensures var view := states[r.at].nodes[r.n].w.view;
            && view.Some? && r.stamp.index == view.value.index && (stamp.Some? ==> r.stamp == stamp.value)
            && forall k :: k in r.keys ==> Lookup(r.records, k) == Lookup(view.value.core.records, k)
  {
    hide EnsureStep;
  }

  /**
   All reads of one stamped transaction, on whatever nodes and at whatever steps of the run, are lookups in the state
   that served the first one, so a reader that skips the final check has read one state.
   */
  lemma SnapshotCoherent(states: seq<System>, actions: seq<Action>, snapshots: seq<SnapshotRead>) returns (core: Core)
    requires IsRun(states, actions) && snapshots != [] && OneTransaction(states, snapshots)
    ensures forall i, k :: 0 <= i < |snapshots| && k in snapshots[i].keys ==>
              Lookup(snapshots[i].records, k) == Lookup(core.records, k)
    ensures snapshots[0].at < |states| && snapshots[0].n in states[snapshots[0].at].nodes
            && states[snapshots[0].at].nodes[snapshots[0].n].w.view == Some(Replica(core, snapshots[0].stamp.index))
  {
    hide IsRun, Performed;
    var first := snapshots[0];
    assert Performed(states, first, None);
    ReadIsLookup(states, first, None);
    PerformedAt(states, first, None);
    core := states[first.at].nodes[first.n].w.view.value.core;
    forall i | 0 <= i < |snapshots|
      ensures forall k :: k in snapshots[i].keys ==> Lookup(snapshots[i].records, k) == Lookup(core.records, k)
    {
      var r, stamp := snapshots[i], if i == 0 then None else Some(first.stamp);
      assert Performed(states, r, stamp);
      ReadIsLookup(states, r, stamp);
      PerformedAt(states, r, stamp);
      if r.at < first.at {
        StampsNameStates(states, actions, r.at, first.at, r.n, first.n);
      } else {
        StampsNameStates(states, actions, first.at, r.at, first.n, r.n);
      }
    }
  }

  lemma PerformedAt(states: seq<System>, r: SnapshotRead, stamp: Option<ReadStamp>)
    requires Performed(states, r, stamp)
    ensures r.at < |states| && r.n in states[r.at].nodes
  {}
}
