/**
 The generation handshake that guards the Raft transport. Forced recovery starts a new generation of the
 history; two nodes exchange Raft bytes only if both record the same generation and lineage.
 */
module Generation {
  import opened Wrappers

  datatype Recovery = Recovery(generation: nat, lineage: string)

  const ORIGINAL: Recovery := Recovery(0, "")

  predicate ValidRecovery(r: Recovery) {
    (r.generation == 0 && r.lineage == "") || (r.generation > 0 && |r.lineage| == 32)
  }

  /** Nothing but the original history is of generation 0, and any later one has a lineage of 32 characters. */
  lemma OneOriginal(r: Recovery)
    ensures r.generation == 0 ==> (ValidRecovery(r) <==> r == ORIGINAL)
    ensures r.generation > 0 ==> (ValidRecovery(r) <==> |r.lineage| == 32)
  {}

  datatype Hello = Hello(cluster: string, node: string, recovery: Recovery, empty: bool)

  /** One end of a connection: what it is bound to, what its replicated state says, and whether it has any history. */
  datatype End = End(cluster: string, node: string, binding: Option<Recovery>, current: Recovery, empty: bool,
                     pending: bool)

  /** The replicated state holds a valid generation, and none before the first log entry. */
  predicate Sound(e: End) {
    && ValidRecovery(e.current) && (e.binding.Some? ==> ValidRecovery(e.binding.value))
    && (e.empty ==> e.current == ORIGINAL)
    && e.node != ""
  }

  /** A binding overrides an older or a different history of the same generation. */
  function Effective(e: End): Recovery {
    if e.binding.Some? && (e.binding.value.generation > e.current.generation
                           || (e.binding.value.generation == e.current.generation && e.binding.value != e.current))
    then e.binding.value else e.current
  }

  /** Catches up with a newer generation in the replicated state. */
  function Refreshed(e: End): End {
    if e.current.generation > 0 && (e.binding.None? || e.current.generation > e.binding.value.generation)
      then e.(binding := Some(e.current)) else e
  }

  function Greeting(e: End): Hello { Hello(e.cluster, e.node, Effective(e), e.empty) }

  /** An end without history and without binding takes the generation of the first peer it talks to. */
  function Adopted(e: End, peer: Hello): End {
    if e.binding.None? && e.empty then e.(binding := Some(peer.recovery)) else e
  }

  predicate Admissible(e: End, peer: Hello) {
    !e.pending && peer.cluster == e.cluster && peer.node != "" && ValidRecovery(peer.recovery)
  }

  /** `member` says whether the peer is in this end's configuration. */
  predicate Accepts(e: End, peer: Hello, member: bool) {
    && Admissible(e, peer)
    && var own := Effective(Adopted(e, peer));
       own == peer.recovery || (peer.empty && peer.recovery.generation < own.generation && member)
  }

  predicate Committed(e: End) { e.binding.Some? || !e.empty }

  /** The newer of the binding and the replicated state counts, and the binding if they are of the same generation. */
  lemma EffectiveMeans(e: End)
    ensures e.binding.None? ==> Effective(e) == e.current
    ensures e.binding.Some? ==>
              Effective(e) == if e.current.generation > e.binding.value.generation then e.current else e.binding.value
  {}

  /** An end that has neither a history nor a binding. */
  predicate Unbound(e: End) { e.binding.None? && e.empty }

  /**
   A peer of the same cluster is accepted exactly by an end that is bound to nothing yet, by one with the same
   generation and lineage, and, if it is an empty member of the configuration, by one with a newer generation.
   */
  lemma AcceptsExactly(e: End, peer: Hello, member: bool)
    requires Sound(e)
    ensures Accepts(e, peer, member) <==>
              && !e.pending && peer.cluster == e.cluster && peer.node != "" && ValidRecovery(peer.recovery)
              && (Unbound(e) || peer.recovery == Effective(e)
                  || (peer.empty && member && peer.recovery.generation < Effective(e).generation))
  {}

  /** Ends of one cluster with the same history always meet, and a new member always finds its way in. */
  lemma HandshakeSucceeds(a: End, b: End, aMember: bool, bMember: bool)
    requires Sound(a) && Sound(b) && a.cluster == b.cluster && !a.pending && !b.pending
    ensures Effective(a) == Effective(b) ==> Accepts(a, Greeting(b), bMember) && Accepts(b, Greeting(a), aMember)
    ensures Unbound(a) && aMember ==> Accepts(a, Greeting(b), bMember) && Accepts(b, Greeting(a), aMember)
  {
    hide Accepts;
    AcceptsExactly(a, Greeting(b), bMember);
    AcceptsExactly(b, Greeting(a), aMember);
  }

  /**
   If both ends accept hellos that describe their current state, they record the same generation and lineage,
   and an end that was bound or has a history keeps its own.
   */
  lemma HandshakeAgrees(a: End, b: End, aMember: bool, bMember: bool)
    requires Sound(a) && Sound(b)
    requires Accepts(a, Greeting(b), bMember) && Accepts(b, Greeting(a), aMember)
    ensures Effective(Adopted(a, Greeting(b))) == Effective(Adopted(b, Greeting(a)))
    ensures Committed(a) ==> Effective(Adopted(a, Greeting(b))) == Effective(a)
    ensures Committed(b) ==> Effective(Adopted(b, Greeting(a))) == Effective(b)
  {
    var ownA, ownB := Effective(Adopted(a, Greeting(b))), Effective(Adopted(b, Greeting(a)));
    if !Committed(a) {
      assert ownA == Effective(b) && Effective(a) == ORIGINAL;
      if !Committed(b) { assert ownB == ORIGINAL; }
    } else if !Committed(b) {
      assert ownB == Effective(a) && Effective(b) == ORIGINAL;
    }
  }

  /** Two ends with different histories of their own never both accept. */
  lemma DifferentHistoriesRefused(a: End, b: End, aMember: bool, bMember: bool)
    requires Sound(a) && Sound(b) && Committed(a) && Committed(b) && Effective(a) != Effective(b)
    ensures !(Accepts(a, Greeting(b), bMember) && Accepts(b, Greeting(a), aMember))
  {
    if Accepts(a, Greeting(b), bMember) && Accepts(b, Greeting(a), aMember) {
      HandshakeAgrees(a, b, aMember, bMember);
    }
  }

  /* ---------- The guard ---------- */

  /** A write to the generation record: the value, or None if it does not decode to a valid one. */
  datatype LogEntry = Irrelevant | SetsGeneration(values: seq<Option<Recovery>>)

  ghost predicate Recorded(log: seq<LogEntry>, value: Option<Recovery>) {
    exists i :: 0 <= i < |log| && log[i].SetsGeneration? && value in log[i].values
  }

  /** The guard of one node, together with the durable copy of its binding. */
  class Guard {
    const cluster: string
    const node: string
    var binding: Option<Recovery>
    var file: Option<Recovery>

    /** What is in memory is what a restart will find. */
    ghost predicate Valid() reads this { file == binding && (binding.Some? ==> ValidRecovery(binding.value)) }

    ghost function State(current: Recovery, empty: bool, pending: bool): End reads this {
      End(cluster, node, binding, current, empty, pending)
    }

    /** The durable copy is replaced first; if that fails nothing changes. */
    method Persist(value: Recovery, writable: bool) returns (ok: bool)
      requires Valid() && ValidRecovery(value)
      modifies this`binding, this`file
      ensures Valid() && ok == writable && binding == (if ok then Some(value) else old(binding))
    {
      if !writable { return false; }
      file := Some(value);
      binding := Some(value);
      return true;
    }

    /** The newest generation found in the log, or in the restored state if that is newer. */
    static method ScanLog(known: Recovery, log: seq<LogEntry>) returns (r: Option<Recovery>)
      ensures r.None? ==> Recorded(log, None)
      ensures r.Some? ==> !Recorded(log, None)
      ensures r.Some? ==> r.value == known || (Recorded(log, r) && known.generation < r.value.generation)
      ensures r.Some? ==> known.generation <= r.value.generation && forall v ::
              Recorded(log, Some(v)) ==> v.generation <= r.value.generation
    {
      var best := known;
      var index := |log|;
      while index > 0
        invariant 0 <= index <= |log|
        invariant best == known || (Recorded(log[index..], Some(best)) && known.generation < best.generation)
        invariant known.generation <= best.generation && !Recorded(log[index..], None)
        invariant forall v :: Recorded(log[index..], Some(v)) ==> v.generation <= best.generation
      {
        index := index - 1;
        var entry := log[index];
        assert log[index..] == [entry] + log[index + 1..];
        if entry.SetsGeneration? {
          var newest := Newest(best, entry.values);
          if newest.None? {
            assert Recorded(log, None);
            return None;
          }
          best := newest.value;
        }
        RecordedOneMore(entry, log[index + 1..]);
      }
      assert log[0..] == log;
      return Some(best);
    }

    static method Newest(known: Recovery, values: seq<Option<Recovery>>) returns (r: Option<Recovery>)
      ensures r.None? <==> None in values
      ensures r.Some? ==> r.value == known || (r in values && known.generation < r.value.generation)
      ensures r.Some? ==> forall v :: Some(v) in values ==> v.generation <= r.value.generation
    {
      var best := known;
      for i := 0 to |values|
        invariant None !in values[..i]
        invariant best == known || (Some(best) in values[..i] && known.generation < best.generation)
        invariant forall v :: Some(v) in values[..i] ==> v.generation <= best.generation
      {
        assert values[..i + 1] == values[..i] + [values[i]];
        if values[i].None? { return None; }
        if values[i].value.generation > best.generation { best := values[i].value; }
      }
      assert values[..|values|] == values;
      return Some(best);
    }

    /**
     A restart: the binding is read back, a completed reset and the local history may only move it forward.
     `reset` is the generation of a finished reset journal, `log` the local Raft log.
     */
    method Restart(reset: Option<Recovery>, current: Recovery, log: seq<LogEntry>, writable: bool) returns (ok: bool)
      requires Valid() && ValidRecovery(current) && forall v :: Recorded(log, Some(v)) ==> ValidRecovery(v)
      modifies this`binding, this`file
      ensures Valid() && Forward(old(binding), binding)
      ensures writable ==>
                (ok <==> (reset.Some? ==> ValidRecovery(reset.value)) && !Recorded(log, None))
      ensures ok ==> !Recorded(log, None) && exists known: Recovery ::
                       && (known == current || (Recorded(log, Some(known)) && current.generation < known.generation))
                       && (forall v :: Recorded(log, Some(v)) ==> v.generation <= known.generation)
                       && binding == Advance(AfterReset(old(binding), reset, writable), HistoryScanned(known, writable))
      ensures !ok ==> binding in {old(binding), AfterReset(old(binding), reset, writable)}
      ensures ok ==> forall v ::
              Recorded(log, Some(v)) && v.generation > 0 ==> binding.Some? && v.generation <= binding.value.generation
    {
      binding := file;
      if reset.Some? {
        if !ValidRecovery(reset.value) { return false; }
        if binding.None? || reset.value.generation > binding.value.generation
          || (reset.value.generation == binding.value.generation && reset.value != binding.value) {
          var stored := Persist(reset.value, writable);
          if !stored { return false; }
        }
      }
      var known := ScanLog(current, log);
      if known.None? { return false; }
      if (binding.None? && known.value.generation > 0)
        || (binding.Some? && known.value.generation > binding.value.generation) {
        var stored := Persist(known.value, writable);
        if !stored { return false; }
      }
      assert binding == Advance(AfterReset(old(binding), reset, writable), HistoryScanned(known.value, writable));
      return true;
    }

    method Catchup(current: Recovery, writable: bool) returns (r: Option<Recovery>)
      requires Valid()
      modifies this`binding, this`file
      ensures Valid()
      ensures binding == if ValidRecovery(current) then Advance(old(binding), Consult(current, writable))
                         else old(binding)
      ensures !ValidRecovery(current) ==> r.None?
      ensures r.Some? ==>
              State(current, false, false) == Refreshed(old(State(current, false, false)))
              && r.value == Effective(State(current, false, false))
      ensures ValidRecovery(current) ==>
                (r.Some? <==>
                   writable || old(State(current, false, false)) == Refreshed(old(State(current, false, false))))
      ensures r.Some? && current.generation > 0 ==> binding.Some? && binding.value.generation >= current.generation
      ensures r.Some? ==> r.value.generation >= current.generation
    {
      if !ValidRecovery(current) { return None; }
      if current.generation > 0 && (binding.None? || current.generation > binding.value.generation) {
        var stored := Persist(current, writable);
        if !stored { return None; }
      }
      if binding.Some? && (binding.value.generation > current.generation
                           || (binding.value.generation == current.generation && binding.value != current)) {
        return Some(binding.value);
      }
      return Some(current);
    }

    method Authorize(peer: Hello, current: Recovery, empty: bool, pending: bool, member: bool,
                     writable: bool) returns (r: Option<Recovery>)
      requires Valid() && (empty ==> current == ORIGINAL)
      modifies this`binding, this`file
      ensures Valid()
      ensures binding == if ValidRecovery(current) && Admissible(old(State(current, empty, pending)), peer)
                         then Advance(old(binding), Meet(peer, empty, writable)) else old(binding)
      ensures r.Some? ==>
                && State(current, empty, pending) == Adopted(old(State(current, empty, pending)), peer)
                && r.value == Effective(State(current, empty, pending))
      ensures r.Some? <==>
                && ValidRecovery(current) && Accepts(old(State(current, empty, pending)), peer, member)
                && (Unbound(old(State(current, empty, pending))) ==> writable)
    {
      if pending || peer.cluster != cluster || peer.node == "" || !ValidRecovery(peer.recovery) { return None; }
      if !ValidRecovery(current) { return None; }
      if binding.None? && empty {
        var stored := Persist(peer.recovery, writable);
        if !stored { return None; }
      }
      var own :=
        if binding.Some? && (binding.value.generation > current.generation
                             || (binding.value.generation == current.generation && binding.value != current))
                 then binding.value else current;
      if own == peer.recovery { return Some(own); }
      if peer.empty && peer.recovery.generation < own.generation && member { return Some(own); }
      return None;
    }

    /**
     Pins an end without history and without binding before it asks for admission. Live data is never retargeted:
     a different binding of the same or a newer generation needs a reset, which is requested if allowed.
     */
    method PrepareEnrollment(target: Recovery, current: Recovery, empty: bool, writable: bool, mayReset: bool)
      returns (r: Enrollment)
      requires Valid() && ValidRecovery(target)
      modifies this`binding, this`file
      ensures Valid()
      ensures binding == if ValidRecovery(current) then Advance(old(binding), Enroll(target, empty, writable))
                         else old(binding)
      ensures var own := Effective(State(current, empty, false));
              var free, fitting := old(binding).None? && empty, own == target || target.generation < own.generation;
              && (r == Ready <==> ValidRecovery(current) && if free then writable else fitting)
              && (r == ResetRequested <==> ValidRecovery(current) && !free && !fitting && mayReset)
              && (r == NotYet <==> ValidRecovery(current) && !free && !fitting && !mayReset)
      ensures r == Unwritable <==> ValidRecovery(current) && old(binding).None? && empty && !writable
      ensures r == Unreadable <==> !ValidRecovery(current)
    {
      if !ValidRecovery(current) { return Unreadable; }
      if binding.None? && empty {
        var stored := Persist(target, writable);
        return if stored then Ready else Unwritable;
      }
      var own :=
        if binding.Some? && (binding.value.generation > current.generation
                             || (binding.value.generation == current.generation && binding.value != current))
                 then binding.value else current;
      if own != target && target.generation >= own.generation {
        return if mayReset then ResetRequested else NotYet;
      }
      return Ready;
    }
  }

  /** What becomes of an attempt to prepare for admission. */
  datatype Enrollment = Ready | Unreadable | Unwritable | ResetRequested | NotYet

  lemma RecordedOneMore(entry: LogEntry, rest: seq<LogEntry>)
    ensures forall v ::
            Recorded([entry] + rest, v) <==> (entry.SetsGeneration? && v in entry.values) || Recorded(rest, v)
  {
    var all := [entry] + rest;
    forall v
      ensures Recorded(all, v) <==> (entry.SetsGeneration? && v in entry.values) || Recorded(rest, v)
    {
      if Recorded(rest, v) {
        var i :| 0 <= i < |rest| && rest[i].SetsGeneration? && v in rest[i].values;
        assert all[i + 1] == rest[i];
      }
      if entry.SetsGeneration? && v in entry.values { assert all[0] == entry; }
    }
  }

  /* ---------- Over any sequence of calls ---------- */

  /** A node that is bound stays bound, and its generation does not decrease. */
  predicate Forward(before: Option<Recovery>, after: Option<Recovery>) {
    before.Some? ==> after.Some? && before.value.generation <= after.value.generation
  }

  /** Everything that can touch a binding; `writable` says whether the durable copy could be replaced. */
  datatype Event =
    | Consult(current: Recovery, writable: bool)
    | Meet(peer: Hello, empty: bool, writable: bool)
    | Enroll(target: Recovery, empty: bool, writable: bool)
    | ResetFinished(recovery: Recovery, writable: bool)
    | HistoryScanned(known: Recovery, writable: bool)

  /** The binding after an event. The last two are the parts of a restart. */
  function Advance(b: Option<Recovery>, e: Event): Option<Recovery> {
    match e
    case Consult(current, writable) =>
      if writable && current.generation > 0 && (b.None? || current.generation > b.value.generation) then Some(current)
      else b
    case Meet(peer, empty, writable) => if writable && b.None? && empty then Some(peer.recovery) else b
    case Enroll(target, empty, writable) => if writable && b.None? && empty then Some(target) else b
    case ResetFinished(recovery, writable) =>
      if writable && (b.None? || recovery.generation > b.value.generation
                      || (recovery.generation == b.value.generation && recovery != b.value)) then Some(recovery) else b
    case HistoryScanned(known, writable) =>
      if writable && ((b.None? && known.generation > 0) || (b.Some? && known.generation > b.value.generation))
        then Some(known) else b
  }

  function AfterReset(b: Option<Recovery>, reset: Option<Recovery>, writable: bool): Option<Recovery> {
    if reset.Some? then Advance(b, ResetFinished(reset.value, writable)) else b
  }

  /** What an event offers as the new binding. */
  function Offered(e: Event): Recovery {
    match e
    case Consult(current, _) => current
    case Meet(peer, _, _) => peer.recovery
    case Enroll(target, _, _) => target
    case ResetFinished(recovery, _) => recovery
    case HistoryScanned(known, _) => known
  }

  /**
   When the offer is taken: never without a durable copy; by an unbound node from a peer only while it is empty, and
   from a history only if that is not the original one; by a bound node never from a peer, from a history only if it is
   newer, and from a finished reset unless it is older.
   */
  predicate Takes(b: Option<Recovery>, e: Event) {
    && e.writable
    && match b
       case None =>
         && (e.Meet? || e.Enroll? ==> e.empty)
         && (e.Consult? || e.HistoryScanned? ==> Offered(e).generation != 0)
       case Some(own) =>
         && !e.Meet? && !e.Enroll?
         && (if e.ResetFinished? then own.generation <= Offered(e).generation
             else own.generation < Offered(e).generation)
  }

  lemma AdvanceExactly(b: Option<Recovery>, e: Event)
    ensures Advance(b, e) == if Takes(b, e) then Some(Offered(e)) else b
  {}

  function After(b: Option<Recovery>, events: seq<Event>): Option<Recovery> {
    if events == [] then b else Advance(After(b, events[..|events| - 1]), events[|events| - 1])
  }

  /** Over any run, including restarts, a bound generation never decreases. */
  lemma {:induction false} NeverBack(b: Option<Recovery>, events: seq<Event>, i: nat, j: nat)
    requires i <= j <= |events|
    ensures Forward(After(b, events[..i]), After(b, events[..j]))
    decreases j - i
  {
    if i < j {
      NeverBack(b, events, i, j - 1);
      assert events[..j][..j - 1] == events[..j - 1];
    }
  }

  /** Between two resets a node never changes the lineage of its generation. */
  lemma {:induction false} LineageKept(b: Option<Recovery>, events: seq<Event>, i: nat, j: nat)
    requires i <= j <= |events| && forall k :: i <= k < j ==> !events[k].ResetFinished?
    requires After(b, events[..i]).Some? && After(b, events[..j]).Some?
    requires After(b, events[..i]).value.generation == After(b, events[..j]).value.generation
    ensures After(b, events[..i]) == After(b, events[..j])
    decreases j - i
  {
    if i < j {
      NeverBack(b, events, i, j - 1);
      assert events[..j][..j - 1] == events[..j - 1];
      NeverBack(b, events, j - 1, j);
      LineageKept(b, events, i, j - 1);
    }
  }
}
