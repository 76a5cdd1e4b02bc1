/**
 Automatic recovery acts only on an unbroken run of agreeing evidence. Times are readings of two clocks,
 in milliseconds: the monotonic clock may stop while the host sleeps, the wall clock may be set.
 */
module Recovery {
  import opened Wrappers

  const INTERVAL: int := 15_000
  const WINDOW: int := 30 * 60_000
  const LONGEST_GAP: int := 3 * INTERVAL

  datatype Time = Time(mono: int, wall: int)

  predicate GapValid(previous: Time, now: Time) {
    0 <= now.mono - previous.mono <= LONGEST_GAP && 0 <= now.wall - previous.wall <= LONGEST_GAP
  }

  /** What has passed on both clocks. */
  function Elapsed(since: Time, now: Time): (d: int)
    ensures d <= now.mono - since.mono && d <= now.wall - since.wall
    ensures d == now.mono - since.mono || d == now.wall - since.wall
  {
    if now.mono - since.mono < now.wall - since.wall then now.mono - since.mono else now.wall - since.wall
  }

  datatype Mode = Off | ObserveOnly | On

  datatype Policy = Policy(mode: Mode, valid: bool)

  /** `index` and `term` are the winner's last log position. */
  datatype Plan = Plan(fingerprint: string, winner: string, view: string, index: nat, term: nat)

  /** What one tick of the manager found out. `plan` is the result of probing every listed node. */
  datatype Sample = Sample(
    now: Time,
    signature: string,
    policy: Policy,
    conflict: bool,
    refreshed: bool,
    usable: bool,
    listed: bool,
    plan: Option<Plan>)

  /** Discovery succeeded, so the tick says whether this node is listed. */
  predicate Discovered(s: Sample) { s.policy.mode != Off && s.refreshed && s.usable }

  /** The tick found every reason for a recovery to hold. */
  predicate Evidence(s: Sample) { Discovered(s) && s.listed && s.policy.valid && !s.conflict && s.plan.Some? }

  predicate Adjacent(trail: seq<Sample>, k: nat) {
    forall i :: k <= i < |trail| - 1 ==> GapValid(trail[i].now, trail[i + 1].now)
  }

  /** From position k on, every tick was evidence for the same plan under the same signed policy, without a gap. */
  predicate Unbroken(trail: seq<Sample>, k: nat, signature: string, fingerprint: string) {
    && k < |trail|
    && Adjacent(trail, k)
    && forall i ::
       k <= i < |trail| ==>
       Evidence(trail[i]) && trail[i].signature == signature && trail[i].plan.value.fingerprint == fingerprint
  }

  /** From position k on, every tick found that this node is not listed, under the same signed policy. */
  predicate Missing(trail: seq<Sample>, k: nat, signature: string) {
    && k < |trail|
    && Adjacent(trail, k)
    && forall i :: k <= i < |trail| ==> Discovered(trail[i]) && !trail[i].listed && trail[i].signature == signature
  }

  lemma {:induction false} SpanBound(trail: seq<Sample>, k: nat, j: nat)
    requires Adjacent(trail, k) && k <= j < |trail|
    ensures trail[j].now.mono - trail[k].now.mono <= LONGEST_GAP * (j - k)
    ensures trail[j].now.wall - trail[k].now.wall <= LONGEST_GAP * (j - k)
  {
    if k < j {
      SpanBound(trail, k, j - 1);
      assert GapValid(trail[j - 1].now, trail[j].now);
    }
  }

  /** Half an hour without a gap of more than 45 seconds takes at least 41 samples. */
  lemma EnoughSamples(trail: seq<Sample>, k: nat)
    requires Adjacent(trail, k) && k < |trail| && Elapsed(trail[k].now, trail[|trail| - 1].now) >= WINDOW
    ensures |trail| - k >= 41
  {
    SpanBound(trail, k, |trail| - 1);
  }

  /** And 41 are enough, one every 45 seconds. */
  lemma FewestSamples(trail: seq<Sample>, from: Time)
    requires |trail| == 41
    requires forall i :: 0 <= i < |trail| ==> trail[i].now == Time(from.mono + 45_000 * i, from.wall + 45_000 * i)
    ensures Adjacent(trail, 0) && Elapsed(trail[0].now, trail[40].now) == WINDOW == 30 * 60 * 1000
  {
    forall i | 0 < i < |trail|
      ensures GapValid(trail[i - 1].now, trail[i].now)
    {
      assert trail[i].now.mono - trail[i - 1].now.mono == 45_000;
    }
  }

  lemma Known(s: Sample)
    requires s.policy.mode != Off && s.refreshed && s.usable
    ensures Discovered(s)
    ensures s.listed && s.policy.valid && !s.conflict && s.plan.Some? ==> Evidence(s)
  {}

  /** Which ticks cannot be evidence, or absence. */
  lemma NotEvidence(s: Sample)
    ensures !s.policy.valid || s.conflict || s.plan.None? || !s.listed ==> !Evidence(s)
    ensures s.policy.mode == Off || !s.refreshed || !s.usable ==> !Evidence(s)
    ensures s.policy.mode == Off || !s.refreshed || !s.usable || s.listed ==> !(Discovered(s) && !s.listed)
  {}

  lemma RunIsLong(trail: seq<Sample>, k: nat, signature: string, fingerprint: string)
    requires Unbroken(trail, k, signature, fingerprint) && Elapsed(trail[k].now, trail[|trail| - 1].now) >= WINDOW
    ensures |trail| - k >= 41
  {
    EnoughSamples(trail, k);
  }

  /* ---------- The manager misses no run of evidence ---------- */

  /** Every unbroken run up to the last tick, not older than the last failed attempt, lies in the recorded window. */
  ghost predicate KnowsRun(trail: seq<Sample>, cleared: nat, signature: string, since: Option<Time>, start: nat,
                           fingerprint: string) {
    forall k: nat, plan ::
      cleared <= k && Unbroken(trail, k, signature, plan) ==> since.Some? && start <= k && fingerprint == plan
  }

  ghost predicate KnowsAbsence(trail: seq<Sample>, signature: string, missingSince: Option<Time>, missingStart: nat) {
    forall k: nat :: Missing(trail, k, signature) ==> missingSince.Some? && missingStart <= k
  }

  /** The same for runs that a tick at this time can extend. */
  ghost predicate KnowsOpenRun(before: seq<Sample>, s: Sample, cleared: nat, since: Option<Time>, start: nat,
                               fingerprint: string) {
    before != [] && GapValid(before[|before| - 1].now, s.now) ==>
      KnowsRun(before, cleared, s.signature, since, start, fingerprint)
  }

  ghost predicate KnowsOpenAbsence(before: seq<Sample>, s: Sample, missingSince: Option<Time>, missingStart: nat) {
    before != [] && GapValid(before[|before| - 1].now, s.now) ==>
      KnowsAbsence(before, s.signature, missingSince, missingStart)
  }

  lemma RunsStart(trail: seq<Sample>, start: nat, missingStart: nat, signature: string, plan: string)
    ensures Unbroken(trail, start, signature, plan) ==> start < |trail|
    ensures Missing(trail, missingStart, signature) ==> missingStart < |trail|
  {}

  lemma StaysOpen(before: seq<Sample>, s: Sample, cleared: nat, since: Option<Time>, start: nat, fingerprint: string,
                  missingSince: Option<Time>, missingStart: nat)
    ensures KnowsRun(before, cleared, s.signature, since, start, fingerprint) ==>
            KnowsOpenRun(before, s, cleared, since, start, fingerprint)
    ensures KnowsAbsence(before, s.signature, missingSince, missingStart) ==>
            KnowsOpenAbsence(before, s, missingSince, missingStart)
  {
    hide KnowsRun, KnowsAbsence;
  }

  /** After a changed policy or a gap no earlier run can be extended. */
  lemma StartsOver(before: seq<Sample>, s: Sample, signature: string, cleared: nat, start: nat, missingStart: nat)
    requires before != [] ==> before[|before| - 1].signature == signature
    requires s.signature != signature || (before != [] && !GapValid(before[|before| - 1].now, s.now))
    ensures KnowsOpenRun(before, s, cleared, None, start, "") && KnowsOpenAbsence(before, s, None, missingStart)
  {
    hide Evidence, Discovered, GapValid;
  }

  /** An unbroken run that ends with this tick is this tick alone, or it extends an earlier run. */
  lemma RunEndsHere(before: seq<Sample>, s: Sample, k: nat, signature: string, plan: string)
    requires Unbroken(before + [s], k, signature, plan)
    ensures Evidence(s) && s.signature == signature && s.plan.value.fingerprint == plan
    ensures k == |before|
            || (k < |before| && Unbroken(before, k, signature, plan) && GapValid(before[|before| - 1].now, s.now))
  {
    hide Evidence, GapValid;
    var trail := before + [s];
    assert trail[|before|] == s;
    if k < |before| {
      assert forall i :: k <= i < |before| ==> trail[i] == before[i];
      assert GapValid(trail[|before| - 1].now, trail[|before|].now);
      forall i | k <= i < |before| - 1
        ensures GapValid(before[i].now, before[i + 1].now)
      {
        assert GapValid(trail[i].now, trail[i + 1].now);
      }
    }
  }

  lemma AbsenceEndsHere(before: seq<Sample>, s: Sample, k: nat, signature: string)
    requires Missing(before + [s], k, signature)
    ensures Discovered(s) && !s.listed && s.signature == signature
    ensures k == |before|
            || (k < |before| && Missing(before, k, signature) && GapValid(before[|before| - 1].now, s.now))
  {
    hide Discovered, GapValid;
    var trail := before + [s];
    assert trail[|before|] == s;
    if k < |before| {
      assert forall i :: k <= i < |before| ==> trail[i] == before[i];
      assert GapValid(trail[|before| - 1].now, trail[|before|].now);
      forall i | k <= i < |before| - 1
        ensures GapValid(before[i].now, before[i + 1].now)
      {
        assert GapValid(trail[i].now, trail[i + 1].now);
      }
    }
  }

  lemma NothingEndsHere(before: seq<Sample>, s: Sample)
    ensures !Evidence(s) ==> forall k: nat, plan :: !Unbroken(before + [s], k, s.signature, plan)
    ensures !(Discovered(s) && !s.listed) ==> forall k: nat :: !Missing(before + [s], k, s.signature)
  {
    hide Unbroken, Missing, Evidence, Discovered;
    forall k: nat, plan | Unbroken(before + [s], k, s.signature, plan)
      ensures Evidence(s)
    {
      RunEndsHere(before, s, k, s.signature, plan);
    }
    forall k: nat | Missing(before + [s], k, s.signature)
      ensures Discovered(s) && !s.listed
    {
      AbsenceEndsHere(before, s, k, s.signature);
    }
  }

  /** A tick that is no evidence ends every run. */
  lemma NoRunHere(before: seq<Sample>, s: Sample, cleared: nat, since: Option<Time>, start: nat, fingerprint: string)
    requires !Evidence(s)
    ensures KnowsRun(before + [s], cleared, s.signature, since, start, fingerprint)
  {
    hide Unbroken, Evidence;
    forall k: nat, plan | Unbroken(before + [s], k, s.signature, plan)
      ensures false
    {
      RunEndsHere(before, s, k, s.signature, plan);
    }
  }

  lemma NoAbsenceHere(before: seq<Sample>, s: Sample, missingSince: Option<Time>, missingStart: nat)
    requires !(Discovered(s) && !s.listed)
    ensures KnowsAbsence(before + [s], s.signature, missingSince, missingStart)
  {
    hide Missing, Discovered;
    forall k: nat | Missing(before + [s], k, s.signature)
      ensures false
    {
      AbsenceEndsHere(before, s, k, s.signature);
    }
  }

  lemma RunGrows(before: seq<Sample>, s: Sample, cleared: nat, since: Option<Time>, start: nat, fingerprint: string,
                 later: Option<Time>, begun: nat)
    requires KnowsOpenRun(before, s, cleared, since, start, fingerprint) && s.plan.Some? && later.Some?
             && begun <= |before|
    requires since.Some? && fingerprint == s.plan.value.fingerprint ==> begun == start
    ensures KnowsRun(before + [s], cleared, s.signature, later, begun, s.plan.value.fingerprint)
  {
    hide Unbroken, GapValid;
    forall k: nat, plan | cleared <= k && Unbroken(before + [s], k, s.signature, plan)
      ensures begun <= k && s.plan.value.fingerprint == plan
    {
      RunEndsHere(before, s, k, s.signature, plan);
    }
  }

  lemma AbsenceGrows(before: seq<Sample>, s: Sample, missingSince: Option<Time>, missingStart: nat,
                     later: Option<Time>, begun: nat)
    requires KnowsOpenAbsence(before, s, missingSince, missingStart) && later.Some? && begun <= |before|
    requires missingSince.Some? ==> begun == missingStart
    ensures KnowsAbsence(before + [s], s.signature, later, begun)
  {
    hide Missing, GapValid;
    forall k: nat | Missing(before + [s], k, s.signature)
      ensures begun <= k
    {
      AbsenceEndsHere(before, s, k, s.signature);
    }
  }

  /** In an unbroken run an earlier start lies further back on both clocks. */
  lemma {:induction false} EarlierIsLonger(trail: seq<Sample>, start: nat, k: nat, now: Time)
    requires Adjacent(trail, start) && start <= k < |trail|
    ensures Elapsed(trail[k].now, now) <= Elapsed(trail[start].now, now)
  {
    if start < k {
      EarlierIsLonger(trail, start, k - 1, now);
      assert GapValid(trail[k - 1].now, trail[k].now);
    }
  }

  /** What the second phase sees when it repeats every guard before it writes a request. */
  datatype Repeat = Repeat(
    policy: Policy,
    signature: string,
    first: Time,
    second: Time,
    refreshed: bool,
    usable: bool,
    plan: Option<Plan>,
    latestPolicy: Policy,
    latestSignature: string,
    latestView: Option<string>,
    conflict: bool,
    last: Time,
    after: Shutdown)

  /** What is found once Raft is closed: its last position, the last entry on disk, and an earlier request. */
  datatype Shutdown = Shutdown(
    closed: bool,
    index: nat,
    term: nat,
    disk: Option<(nat, nat)>,
    requestPresent: bool,
    writable: bool)

  /** Nothing changed while Raft was being closed. */
  predicate Unchanged(plan: Plan, a: Shutdown) {
    && a.closed && a.index == plan.index && a.term == plan.term
    && a.disk.Some? && a.disk.value.0 <= plan.index
    && (a.disk.value.0 == plan.index && plan.index > 0 ==> a.disk.value.1 == plan.term)
  }

  class RecoveryManager {
    const id: string
    var lastSample: Option<Time>
    var since: Option<Time>
    var missingSince: Option<Time>
    var fingerprint: string
    var policyFingerprint: string
    var conflictDetected: bool
    var selfFenced: bool
    var controlPending: bool
    /** Every tick so far, and where the current runs of evidence and of absence began. */
    ghost var trail: seq<Sample>
    ghost var start: nat
    ghost var missingStart: nat
    /** The tick at which the last attempt failed; older evidence does not count any more. */
    ghost var cleared: nat

    ghost predicate Valid() reads this {
      && (lastSample.None? <==> trail == [])
      && (trail != [] ==>
          lastSample.value == trail[|trail| - 1].now && policyFingerprint == trail[|trail| - 1].signature)
      && (since.Some? ==> Unbroken(trail, start, policyFingerprint, fingerprint) && since.value == trail[start].now)
      && (missingSince.Some? ==>
          Missing(trail, missingStart, policyFingerprint) && missingSince.value == trail[missingStart].now)
      && KnowsRun(trail, cleared, policyFingerprint, since, start, fingerprint)
      && KnowsAbsence(trail, policyFingerprint, missingSince, missingStart)
    }

    constructor (id: string)
      ensures Valid() && trail == [] && cleared == 0 && !selfFenced && !controlPending && this.id == id
    {
      this.id := id;
      lastSample, since, missingSince, fingerprint, policyFingerprint := None, None, None, "", "";
      conflictDetected, selfFenced, controlPending := false, false, false;
      trail, start, missingStart, cleared := [], 0, 0, 0;
    }

    method ResetWindow()
      modifies this`since, this`fingerprint
      ensures since == None && fingerprint == ""
    {
      since, fingerprint := None, "";
    }

    /**
     One tick. A recovery is triggered exactly by an unbroken run of agreeing samples, at least 41 of them, that spans
     half an hour on both clocks and names this node, unless one is pending. This node fences itself exactly after half
     an hour of unbroken absence, and the fence falls when it is listed again or the mode changes.
     */
    method Tick(s: Sample) returns (triggered: bool)
      requires Valid()
      modifies this
      ensures Valid() && trail == old(trail) + [s]
      ensures triggered ==>
                && s.policy == Policy(On, true) && s.plan.Some? && s.plan.value.winner == id && !old(controlPending)
                && controlPending
                && Unbroken(trail, start, s.signature, s.plan.value.fingerprint)
                && Elapsed(trail[start].now, s.now) >= WINDOW && |trail| - start >= 41
      ensures selfFenced && !old(selfFenced) ==>
                s.policy == Policy(On, true) && Missing(trail, missingStart, s.signature)
                  && Elapsed(trail[missingStart].now, s.now) >= WINDOW
      ensures !triggered ==> controlPending == old(controlPending)
      ensures s.policy == Policy(On, true) && s.plan.Some? && s.plan.value.winner == id && !old(controlPending) ==>
                (exists k: nat :: cleared <= k && Unbroken(trail, k, s.signature, s.plan.value.fingerprint)
                                  && Elapsed(trail[k].now, s.now) >= WINDOW) ==> triggered
      ensures s.policy == Policy(On, true) ==>
                (exists k: nat :: Missing(trail, k, s.signature) && Elapsed(trail[k].now, s.now) >= WINDOW) ==>
                  selfFenced
      ensures s.policy.mode != On || (s.refreshed && s.usable && s.listed) ==> !selfFenced
      ensures cleared == old(cleared)
    {
      hide Unbroken, Missing, Evidence, Discovered, GapValid, KnowsRun, KnowsAbsence, KnowsOpenRun, KnowsOpenAbsence;
      triggered := false;
      ghost var before := trail;
      Begin(s);
      NotEvidence(s);
      if s.policy.mode == Off || !s.refreshed || !s.usable {
        ResetWindow();
        missingSince := None;
        NoRunHere(before, s, cleared, since, start, fingerprint);
        NoAbsenceHere(before, s, missingSince, missingStart);
        NothingEndsHere(before, s);
        return;
      }
      Known(s);
      if !s.listed {
        ResetWindow();
        NoteAbsence(s, before);
        NothingEndsHere(before, s);
        return;
      }
      missingSince := None;
      selfFenced := false;
      NoAbsenceHere(before, s, missingSince, missingStart);
      NothingEndsHere(before, s);
      if !s.policy.valid || conflictDetected || s.plan.None? {
        ResetWindow();
        NoRunHere(before, s, cleared, since, start, fingerprint);
        return;
      }
      NoteEvidence(s, before);
      Measured(s);
      if Elapsed(since.value, s.now) < WINDOW { return; }
      RunIsLong(trail, start, s.signature, fingerprint);
      if s.policy.mode == On && s.plan.value.winner == id && !controlPending {
        controlPending := true;
        triggered := true;
      }
    }

    /** The recorded window is at least as long as any run that ends with this tick. */
    lemma Measured(s: Sample)
      requires Valid() && since.Some? && s.plan.Some? && policyFingerprint == s.signature
      ensures forall k: nat ::
                cleared <= k && Unbroken(trail, k, s.signature, s.plan.value.fingerprint) ==>
                Elapsed(trail[k].now, s.now) <= Elapsed(since.value, s.now)
    {
      hide Evidence, GapValid;
      forall k: nat | cleared <= k && Unbroken(trail, k, s.signature, s.plan.value.fingerprint)
        ensures Elapsed(trail[k].now, s.now) <= Elapsed(since.value, s.now)
      {
        EarlierIsLonger(trail, start, k, s.now);
      }
    }

    lemma MeasuredAbsence(s: Sample)
      requires Valid() && missingSince.Some? && policyFingerprint == s.signature
      ensures forall k: nat ::
                Missing(trail, k, s.signature) ==> Elapsed(trail[k].now, s.now) <= Elapsed(missingSince.value, s.now)
    {
      hide Discovered, GapValid;
      forall k: nat | Missing(trail, k, s.signature)
        ensures Elapsed(trail[k].now, s.now) <= Elapsed(missingSince.value, s.now)
      {
        EarlierIsLonger(trail, missingStart, k, s.now);
      }
    }

    /** The run of evidence that the next sample may extend. */
    ghost predicate OpenRun(before: seq<Sample>, s: Sample) reads this {
      && (since.Some? ==>
          Unbroken(before, start, s.signature, fingerprint) && since.value == before[start].now
          && GapValid(before[|before| - 1].now, s.now))
      && KnowsOpenRun(before, s, cleared, since, start, fingerprint)
    }

    /** The run of absences that it may extend. */
    ghost predicate OpenAbsence(before: seq<Sample>, s: Sample) reads this {
      && (missingSince.Some? ==>
          Missing(before, missingStart, s.signature) && missingSince.value == before[missingStart].now
          && GapValid(before[|before| - 1].now, s.now))
      && KnowsOpenAbsence(before, s, missingSince, missingStart)
    }

    /** A changed policy or a gap on either clock starts over. */
    method Interrupt(s: Sample)
      requires Valid()
      modifies this`since, this`fingerprint, this`missingSince
      ensures OpenRun(trail, s) && OpenAbsence(trail, s)
    {
      hide Unbroken, Missing, GapValid, KnowsRun, KnowsAbsence, KnowsOpenRun, KnowsOpenAbsence;
      RunsStart(trail, start, missingStart, policyFingerprint, fingerprint);
      StaysOpen(trail, s, cleared, since, start, fingerprint, missingSince, missingStart);
      if s.signature != policyFingerprint || (lastSample.Some? && !GapValid(lastSample.value, s.now)) {
        StartsOver(trail, s, policyFingerprint, cleared, start, missingStart);
        ResetWindow();
        missingSince := None;
      }
    }

    /** Records the sample; the runs before it may be extended. */
    method Begin(s: Sample)
      requires Valid()
      modifies this
      ensures trail == old(trail) + [s] && policyFingerprint == s.signature && lastSample == Some(s.now)
              && conflictDetected == s.conflict
      ensures controlPending == old(controlPending) && (selfFenced ==> old(selfFenced))
              && OpenRun(old(trail), s) && OpenAbsence(old(trail), s)
      ensures cleared == old(cleared) && (s.policy.mode != On ==> !selfFenced)
    {
      hide Unbroken, Missing, GapValid, KnowsRun, KnowsAbsence, KnowsOpenRun, KnowsOpenAbsence;
      Interrupt(s);
      policyFingerprint := s.signature;
      lastSample := Some(s.now);
      trail := trail + [s];
      if s.policy.mode != On { selfFenced := false; }
      conflictDetected := s.conflict;
    }

    /** Starts or extends the run of absences; `before` are the ticks before this one. */
    method NoteAbsence(s: Sample, ghost before: seq<Sample>)
      requires trail == before + [s] && Discovered(s) && !s.listed && since.None? && policyFingerprint == s.signature
               && lastSample == Some(s.now)
      requires OpenAbsence(before, s)
      modifies this`missingSince, this`missingStart, this`selfFenced
      ensures Valid()
      ensures selfFenced && !old(selfFenced) ==>
                s.policy == Policy(On, true) && Missing(trail, missingStart, s.signature)
                  && Elapsed(trail[missingStart].now, s.now) >= WINDOW
      ensures s.policy == Policy(On, true) ==>
                (exists k: nat :: Missing(trail, k, s.signature) && Elapsed(trail[k].now, s.now) >= WINDOW) ==>
                  selfFenced
      ensures s.policy.mode != On ==> selfFenced == old(selfFenced)
    {
      hide KnowsRun, KnowsAbsence, KnowsOpenRun, KnowsOpenAbsence;
      ghost var known, begun := missingSince, missingStart;
      NotEvidence(s);
      if missingSince.None? {
        missingSince := Some(s.now);
        missingStart := |before|;
      }
      assert Missing(trail, missingStart, s.signature);
      NoRunHere(before, s, cleared, since, start, fingerprint);
      AbsenceGrows(before, s, known, begun, missingSince, missingStart);
      MeasuredAbsence(s);
      if Elapsed(missingSince.value, s.now) >= WINDOW && s.policy.valid && s.policy.mode == On { selfFenced := true; }
    }

    /** Starts or extends the run of evidence. */
    method NoteEvidence(s: Sample, ghost before: seq<Sample>)
      requires trail == before + [s] && Evidence(s) && missingSince.None? && policyFingerprint == s.signature
               && lastSample == Some(s.now)
      requires OpenRun(before, s)
      modifies this`since, this`fingerprint, this`start
      ensures Valid() && since.Some? && Unbroken(trail, start, s.signature, fingerprint)
              && fingerprint == s.plan.value.fingerprint
    {
      hide KnowsRun, KnowsAbsence, KnowsOpenRun, KnowsOpenAbsence;
      ghost var known, begun, plan := since, start, fingerprint;
      NotEvidence(s);
      if since.None? || fingerprint != s.plan.value.fingerprint {
        since := Some(s.now);
        fingerprint := s.plan.value.fingerprint;
        start := |before|;
      }
      RunGrows(before, s, cleared, known, begun, plan, since, start);
      NoAbsenceHere(before, s, missingSince, missingStart);
    }

    /** A failed attempt starts the evidence over. */
    method Abandon()
      requires Valid()
      modifies this`since, this`fingerprint, this`cleared
      ensures Valid() && since == None && cleared == |trail|
    {
      ResetWindow();
      cleared := |trail|;
      assert forall k: nat, plan :: Unbroken(trail, k, policyFingerprint, plan) ==> k < |trail|;
    }

    /** The window survives only until an attempt fails; once Raft is closed the process has to restart. */
    method PerformRecovery(r: Repeat) returns (stopped: bool, written: bool)
      requires Valid()
      modifies this`since, this`fingerprint, this`cleared
      ensures Valid() && cleared == if stopped then old(cleared) else |trail|
      ensures written ==>
                && r.plan.Some? && r.plan.value.winner == id && r.policy == Policy(On, true)
                && r.latestPolicy == Policy(On, true) && r.latestSignature == r.signature && !r.conflict
                && Unbroken(trail, start, r.signature, r.plan.value.fingerprint)
                && Elapsed(trail[start].now, r.first) >= WINDOW
                && GapValid(trail[|trail| - 1].now, r.second) && GapValid(trail[|trail| - 1].now, r.last)
                && (r.first.mono <= r.second.mono ==> |trail| - start + 1 >= 41)
                && stopped && Unchanged(r.plan.value, r.after) && !r.after.requestPresent
      ensures !stopped ==> since == None
      ensures stopped <==>
                && r.policy == Policy(On, true) && r.signature == policyFingerprint && r.refreshed && r.usable
                && old(since).Some? && Elapsed(old(since).value, r.first) >= WINDOW
                && lastSample.Some? && GapValid(lastSample.value, r.second) && GapValid(lastSample.value, r.last)
                && r.plan.Some? && r.plan.value.fingerprint == old(fingerprint) && r.plan.value.winner == id
                && r.latestPolicy == Policy(On, true) && r.latestSignature == r.signature
                && r.latestView == Some(r.plan.value.view) && !conflictDetected && !r.conflict
      ensures written <==>
                stopped && Unchanged(r.plan.value, r.after) && !r.after.requestPresent && r.after.writable
    {
      if !r.policy.valid || r.policy.mode != On || r.signature != policyFingerprint || since.None?
        || Elapsed(since.value, r.first) < WINDOW
         || lastSample.None? || !GapValid(lastSample.value, r.second) || !r.refreshed || !r.usable {
        Abandon();
        return false, false;
      }
      if r.plan.None? || r.plan.value.fingerprint != fingerprint || r.plan.value.winner != id {
        Abandon();
        return false, false;
      }
      if !r.latestPolicy.valid || r.latestPolicy.mode != On || r.latestSignature != r.signature
        || r.latestView != Some(r.plan.value.view)
         || conflictDetected || r.conflict || !GapValid(lastSample.value, r.last) {
        Abandon();
        return false, false;
      }
      SpanBound(trail, start, |trail| - 1);
      if !r.after.closed || r.after.index != r.plan.value.index || r.after.term != r.plan.value.term
        || r.after.disk.None? {
        return true, false;
      }
      var (last, term) := r.after.disk.value;
      if last > r.plan.value.index || (last == r.plan.value.index && last > 0 && term != r.plan.value.term) {
        return true, false;
      }
      if r.after.requestPresent || !r.after.writable { return true, false; }
      return true, true;
    }
  }

  /* ---------- Who recovers ---------- */

  /** What a probe of one node shows; `rank` orders addresses. */
  datatype View = View(node: string, member: bool, voter: bool, term: nat, index: nat, rank: nat)

  /** The better candidate: voters first, then the longer log, then the smaller rank. */
  predicate Wins(a: View, b: View) {
    if a.voter != b.voter then a.voter
    else if a.term != b.term then a.term > b.term
    else if a.index != b.index then a.index > b.index
    else a.rank < b.rank
  }

  ghost predicate Best(views: set<View>, w: View) { w in views && forall v :: v in views && v != w ==> Wins(w, v) }

  /** Candidates of different rank are never tied, and the preference is transitive. */
  lemma WinsIsOrder(a: View, b: View, c: View)
    ensures !(Wins(a, b) && Wins(b, a))
    ensures Wins(a, b) && Wins(b, c) ==> Wins(a, c)
    ensures a.rank != b.rank ==> Wins(a, b) || Wins(b, a)
  {}

  /**
   The node whose log may be kept: a member with a log; a voter if any such node is one; among those of its kind
   nobody's log is ahead of it; and of equal logs it has the least rank.
   */
  ghost predicate Foremost(views: seq<View>, w: View) {
    && w in views && w.index > 0 && w.member
    && forall v :: v in views && v.index > 0 && v.member ==>
         && (v.voter ==> w.voter)
         && (v.voter == w.voter ==> v.term < w.term || (v.term == w.term && v.index <= w.index))
         && (v.voter == w.voter && v.term == w.term && v.index == w.index ==> w.rank <= v.rank)
  }

  /** A node without a log, or outside the membership, cannot recover the cluster. */
  predicate Candidate(v: View) { v.index > 0 && v.member }

  ghost function Eligible(views: seq<View>): set<View> { set v | v in views && Candidate(v) }

  /** The candidate chosen from the answers, in whatever order they are listed. */
  method ChooseWinner(views: seq<View>) returns (w: Option<View>)
    requires forall i, j :: 0 <= i < j < |views| ==> views[i].rank != views[j].rank
    ensures w.None? <==> forall v :: v in views ==> v.index == 0 || !v.member
    ensures w.Some? ==> Foremost(views, w.value) && Best(Eligible(views), w.value)
  {
    w := None;
    for i := 0 to |views|
      invariant w.None? <==> forall v :: v in views[..i] ==> !Candidate(v)
      invariant w.Some? ==> Best(Eligible(views[..i]), w.value)
    {
      var v := views[i];
      ghost var seen := Eligible(views[..i]);
      assert views[..i + 1] == views[..i] + [v];
      if !Candidate(v) {
        assert Eligible(views[..i + 1]) == seen;
        continue;
      }
      assert Eligible(views[..i + 1]) == seen + {v};
      if w.None? || Wins(v, w.value) {
        forall x | x in seen
          ensures Wins(v, x)
        {
          WinsIsOrder(v, w.value, x);
        }
        w := Some(v);
      } else {
        WinsIsOrder(w.value, v, v);
      }
    }
    assert views[..|views|] == views;
    assert w.Some? ==> forall v :: v in views && v.index > 0 && v.member ==> v in Eligible(views);
  }

  /** Nodes that see the same answers choose the same winner. */
  lemma WinnerAgreed(views: set<View>, a: View, b: View)
    requires Best(views, a) && Best(views, b)
    ensures a == b
  {
    if a != b { WinsIsOrder(a, b, a); }
  }

  /* ---------- Whether to recover ---------- */

  /** The reply of a probed node, with the discovery view, protocol and generation it works with. */
  datatype Answer =
    | NoAnswer
    | Answer(view: View, hasLeader: bool, hash: string, protocol: int, generation: nat, lineage: string,
             transportAgrees: bool)

  /** This node; `ready` says that it has a log, is a listed member, sees no leader and nothing blocks recovery. */
  datatype Self = Self(node: string, generation: nat, lineage: string, ready: bool)

  /** A voter of the configuration: whether its address is listed, and whether a direct probe reaches it. */
  datatype Voter = Voter(id: string, listed: bool, reachable: bool)

  /** The reply neither contradicts this node's history nor shows a leader, and works with the same view. */
  predicate Acceptable(self: Self, hash: string, a: Answer) {
    && a.Answer? && a.transportAgrees && !a.hasLeader && a.hash == hash && a.protocol == 1
    && a.generation <= self.generation && (a.generation == self.generation ==> a.lineage == self.lineage)
    && (a.view.node == self.node ==> a.generation == self.generation && a.lineage == self.lineage)
  }

  /** Every listed node answered acceptably, each under its own name, and this node is among them. */
  ghost predicate AllAgree(self: Self, hash: string, answers: seq<Answer>) {
    && (forall i :: 0 <= i < |answers| ==> Acceptable(self, hash, answers[i]))
    && (forall i, j :: 0 <= i < j < |answers| ==> answers[i].view.node != answers[j].view.node)
    && (exists i :: 0 <= i < |answers| && answers[i].view.node == self.node)
  }

  function Views(answers: seq<Answer>): seq<View>
    requires forall i :: 0 <= i < |answers| ==> answers[i].Answer?
  {
    seq(|answers|, i requires 0 <= i < |answers| => answers[i].view)
  }

  predicate PresentVoter(v: Voter, nodes: set<string>) { v.listed || v.id in nodes }

  function PresentCount(voters: seq<Voter>, nodes: set<string>): nat {
    if voters == [] then 0
    else PresentCount(voters[..|voters| - 1], nodes) + if PresentVoter(voters[|voters| - 1], nodes) then 1 else 0
  }

  /** Fewer than a majority of the voters are present, and none of the absent ones can be reached. */
  ghost predicate QuorumLost(voters: seq<Voter>, nodes: set<string>) {
    && PresentCount(voters, nodes) < |voters| / 2 + 1
    && (exists i :: 0 <= i < |voters| && !PresentVoter(voters[i], nodes))
    && (forall i :: 0 <= i < |voters| && !PresentVoter(voters[i], nodes) ==> !voters[i].reachable)
  }

  /** The positions of the voters that are listed or have answered. */
  ghost function Present(voters: seq<Voter>, nodes: set<string>): set<int> {
    set i | 0 <= i < |voters| && (voters[i].listed || voters[i].id in nodes)
  }

  lemma {:induction false} CountIsSize(voters: seq<Voter>, nodes: set<string>)
    ensures PresentCount(voters, nodes) == |Present(voters, nodes)|
  {
    if voters != [] {
      var n := |voters| - 1;
      CountIsSize(voters[..n], nodes);
      var before := Present(voters[..n], nodes);
      if PresentVoter(voters[n], nodes) {
        assert Present(voters, nodes) == before + {n};
      } else {
        assert Present(voters, nodes) == before;
      }
    }
  }

  ghost function Nodes(answers: seq<Answer>): set<string>
    requires forall i :: 0 <= i < |answers| ==> answers[i].Answer?
  {
    set i | 0 <= i < |answers| :: answers[i].view.node
  }

  method Agree(self: Self, hash: string, answers: seq<Answer>) returns (ok: bool, nodes: set<string>)
    ensures ok <==> AllAgree(self, hash, answers)
    ensures ok ==> nodes == Nodes(answers)
  {
    hide Acceptable;
    nodes := {};
    for i := 0 to |answers|
      invariant forall j ::
                0 <= j < i ==> Acceptable(self, hash, answers[j]) && answers[j].Answer? && answers[j].view.node in nodes
      invariant forall j, k :: 0 <= j < k < i ==> answers[j].view.node != answers[k].view.node
      invariant forall x :: x in nodes ==> exists j :: 0 <= j < i && answers[j].view.node == x
    {
      if !Acceptable(self, hash, answers[i]) { return false, nodes; }
      IsAnswer(self, hash, answers[i]);
      if answers[i].view.node in nodes { return false, nodes; }
      nodes := nodes + {answers[i].view.node};
    }
    ok := self.node in nodes;
  }

  lemma IsAnswer(self: Self, hash: string, a: Answer)
    requires Acceptable(self, hash, a)
    ensures a.Answer?
  {}

  method LostQuorum(voters: seq<Voter>, nodes: set<string>) returns (lost: bool)
    ensures lost <==> QuorumLost(voters, nodes)
    ensures lost <==>
              && 2 * |Present(voters, nodes)| <= |voters|
              && (exists i :: 0 <= i < |voters| && i !in Present(voters, nodes))
              && (forall i :: 0 <= i < |voters| && i !in Present(voters, nodes) ==> !voters[i].reachable)
  {
    var present, missing, unreachable := 0, false, true;
    for i := 0 to |voters|
      invariant present == PresentCount(voters[..i], nodes)
      invariant missing <==> exists j :: 0 <= j < i && !PresentVoter(voters[j], nodes)
      invariant unreachable <==> forall j :: 0 <= j < i && !PresentVoter(voters[j], nodes) ==> !voters[j].reachable
    {
      assert voters[..i + 1][..i] == voters[..i];
      if PresentVoter(voters[i], nodes) {
        present := present + 1;
      } else {
        missing := true;
        if voters[i].reachable { unreachable := false; }
      }
    }
    assert voters[..|voters|] == voters;
    CountIsSize(voters, nodes);
    assert forall i :: 0 <= i < |voters| ==> (i in Present(voters, nodes) <==> PresentVoter(voters[i], nodes));
    return present < |voters| / 2 + 1 && missing && unreachable;
  }

  /**
   Agreement means: every listed node answered under its own name, and so did this one, with its own history; all work
   with the same view over the same protocol; nobody has a leader; and nobody knows a newer history, or a different
   one of the same generation.
   */
  lemma AgreementMeans(self: Self, hash: string, answers: seq<Answer>)
    ensures AllAgree(self, hash, answers) <==>
              && (forall i :: 0 <= i < |answers| ==> answers[i].Answer?)
              && (forall i, j :: 0 <= i < j < |answers| ==> answers[i].view.node != answers[j].view.node)
              && (exists i :: 0 <= i < |answers| && answers[i].view.node == self.node)
              && (forall i :: 0 <= i < |answers| ==> answers[i].hash == hash && answers[i].protocol == 1)
              && (forall i :: 0 <= i < |answers| ==> !answers[i].hasLeader && answers[i].transportAgrees)
              && (forall i :: 0 <= i < |answers| ==>
                    answers[i].generation < self.generation
                    || (answers[i].generation == self.generation && answers[i].lineage == self.lineage))
              && (forall i :: 0 <= i < |answers| && answers[i].view.node == self.node ==>
                    answers[i].generation == self.generation)
  {
    hide Acceptable;
    forall i | 0 <= i < |answers|
      ensures Acceptable(self, hash, answers[i]) <==>
                && answers[i].Answer? && answers[i].hash == hash && answers[i].protocol == 1
                && !answers[i].hasLeader && answers[i].transportAgrees
                && (answers[i].generation < self.generation
                    || (answers[i].generation == self.generation && answers[i].lineage == self.lineage))
                && (answers[i].view.node == self.node ==> answers[i].generation == self.generation)
    {
      OneAnswer(self, hash, answers[i]);
    }
  }

  lemma OneAnswer(self: Self, hash: string, a: Answer)
    ensures Acceptable(self, hash, a) <==>
              && a.Answer? && a.hash == hash && a.protocol == 1 && !a.hasLeader && a.transportAgrees
              && (a.generation < self.generation || (a.generation == self.generation && a.lineage == self.lineage))
              && (a.view.node == self.node ==> a.generation == self.generation)
  {}

  /**
   A plan exists exactly if this node is ready, every listed node agrees, the voters have lost their quorum, some
   node can take over and no leader has appeared meanwhile; its winner is the best of the candidates.
   */
  method Evaluate(self: Self, hash: string, answers: seq<Answer>, voters: seq<Voter>, leaderless: bool)
    returns (w: Option<View>)
    requires forall i, j ::
             0 <= i < j < |answers| && answers[i].Answer? && answers[j].Answer? ==>
             answers[i].view.rank != answers[j].view.rank
    ensures w.Some? ==>
              && self.ready && leaderless && AllAgree(self, hash, answers) && QuorumLost(voters, Nodes(answers))
              && Foremost(Views(answers), w.value) && Best(Eligible(Views(answers)), w.value)
    ensures self.ready && leaderless && AllAgree(self, hash, answers) && QuorumLost(voters, Nodes(answers)) ==>
              (exists i :: 0 <= i < |answers| && answers[i].view.index > 0 && answers[i].view.member) ==> w.Some?
  {
    hide Acceptable, QuorumLost;
    if !self.ready { return None; }
    var ok, nodes := Agree(self, hash, answers);
    if !ok { return None; }
    forall i | 0 <= i < |answers|
      ensures answers[i].Answer?
    {
      IsAnswer(self, hash, answers[i]);
    }
    assert forall i :: 0 <= i < |answers| ==> Views(answers)[i] == answers[i].view;
    var winner := ChooseWinner(Views(answers));
    if winner.None? { return None; }
    var lost := LostQuorum(voters, nodes);
    return if lost && leaderless then winner else None;
  }
}
