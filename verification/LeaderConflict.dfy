/**
 The latch that refuses recovery while two leaders are seen: it sets only on two adjacent rounds with several
 leaders, and clears only after an unbroken two-minute run of rounds with exactly one.
 */
module LeaderConflict {
  import opened Wrappers
  import opened Recovery

  const CLEAR_WINDOW: int := 2 * 60_000

  datatype Peer = Peer(id: string, leader: bool)

  /** One completed observation round, or an interruption of the rounds. */
  datatype Event = Round(now: Time, leaders: set<string>) | Interruption

  predicate Several(e: Event) { e.Round? && |e.leaders| > 1 }

  predicate Single(e: Event) { e.Round? && |e.leaders| == 1 }

  /** The last `n` events are rounds that follow each other without a gap. */
  predicate Continuous(events: seq<Event>, n: nat) {
    && n <= |events|
    && (forall i :: |events| - n <= i < |events| ==> events[i].Round?)
    && (forall i ::
        |events| - n <= i < |events| - 1 && events[i].Round? && events[i + 1].Round? ==>
        GapValid(events[i].now, events[i + 1].now))
  }

  predicate LastSeveral(events: seq<Event>, n: nat) {
    Continuous(events, n) && forall i :: |events| - n <= i < |events| ==> Several(events[i])
  }

  predicate LastSingle(events: seq<Event>, n: nat) {
    Continuous(events, n) && forall i :: |events| - n <= i < |events| ==> Single(events[i])
  }

  /** A round of the same kind that follows without a gap extends a run. */
  lemma Extend(events: seq<Event>, e: Event, several: nat, single: nat)
    requires e.Round?
    ensures LastSeveral(events, several) && Several(e) && (several > 0 ==> Continuous(events + [e], several + 1)) ==>
            LastSeveral(events + [e], several + 1)
    ensures LastSingle(events, single) && Single(e) && Continuous(events + [e], single + 1) ==>
            LastSingle(events + [e], single + 1)
    ensures Single(e) ==> LastSingle(events + [e], 1)
    ensures LastSeveral(events + [e], 0)
  {}

  lemma Shorter(events: seq<Event>, n: nat)
    requires LastSeveral(events, n) && n >= 2
    ensures LastSeveral(events, 2)
  {}

  /* ---------- The tracker misses no run ---------- */

  /** A continuous run that ends with this event is this event alone, or extends an earlier run. */
  lemma ContinuousBefore(events: seq<Event>, e: Event, n: nat)
    requires Continuous(events + [e], n) && n > 0
    ensures e.Round? && n - 1 <= |events| && Continuous(events, n - 1)
    ensures n > 1 ==> events != [] && events[|events| - 1].Round? && GapValid(events[|events| - 1].now, e.now)
  {
    hide GapValid;
    var all := events + [e];
    assert all[|events|] == e;
    assert forall i :: 0 <= i < |events| ==> all[i] == events[i];
    assert forall i ::
        |events| - (n - 1) <= i < |events| - 1 && events[i].Round? && events[i + 1].Round? ==>
        all[i].Round? && all[i + 1].Round? && GapValid(all[i].now, all[i + 1].now);
    if n > 1 { assert all[|events| - 1].Round? && GapValid(all[|events| - 1].now, all[|events|].now); }
  }

  lemma SeveralEndsHere(events: seq<Event>, e: Event, n: nat)
    requires LastSeveral(events + [e], n) && n > 0
    ensures Several(e) && LastSeveral(events, n - 1) && Continuous(events + [e], n)
  {
    hide Continuous;
    ContinuousBefore(events, e, n);
    var all := events + [e];
    assert Several(all[|events|]);
    assert forall i :: 0 <= i < |events| ==> all[i] == events[i];
  }

  lemma SingleEndsHere(events: seq<Event>, e: Event, n: nat)
    requires LastSingle(events + [e], n) && n > 0
    ensures Single(e) && LastSingle(events, n - 1) && Continuous(events + [e], n)
  {
    hide Continuous;
    ContinuousBefore(events, e, n);
    var all := events + [e];
    assert Single(all[|events|]);
    assert forall i :: 0 <= i < |events| ==> all[i] == events[i];
  }

  /** The counters are as long as any run that the history ends with. */
  ghost predicate Counted(events: seq<Event>, several: nat, latched: bool, single: nat) {
    && (forall n: nat :: LastSeveral(events, n) ==> n <= several)
    && (latched ==> forall n: nat :: LastSingle(events, n) ==> n <= single)
  }

  /** Nothing is counted before the first round and right after an interruption. */
  lemma NothingCounted(events: seq<Event>, latched: bool)
    requires events == [] || events[|events| - 1].Interruption?
    ensures Counted(events, 0, latched, 0)
  {
    assert forall n: nat :: Continuous(events, n) && n > 0 ==> events[|events| - 1].Round?;
  }

  /** The lengths of the runs that a round at this time may extend. */
  ghost predicate Open(events: seq<Event>, now: Time, several: nat, latched: bool, single: nat) {
    events != [] && events[|events| - 1].Round? && GapValid(events[|events| - 1].now, now) ==>
      Counted(events, several, latched, single)
  }

  lemma {:induction false} LongerRun(events: seq<Event>, n: nat, run: nat, now: Time)
    requires LastSingle(events, run) && 0 < n <= run
    ensures events[|events| - n].Round? && events[|events| - run].Round?
    ensures Elapsed(events[|events| - n].now, now) <= Elapsed(events[|events| - run].now, now)
    decreases run - n
  {
    assert Single(events[|events| - n]) && Single(events[|events| - run]);
    if n < run {
      LongerRun(events, n + 1, run, now);
      assert Single(events[|events| - n - 1]);
      assert GapValid(events[|events| - n - 1].now, events[|events| - n].now);
    }
  }

  /** How long the runs are after one more round, if the longest ones before it are known. */
  lemma RoundCounted(events: seq<Event>, e: Event, several: nat, latched: bool, single: nat, now: bool)
    requires e.Round? && Open(events, e.now, several, latched, single) && (now ==> latched || Several(e))
    ensures Counted(events + [e], if Several(e) then several + 1 else 0, now, if Single(e) then single + 1 else 0)
  {
    hide GapValid, LastSeveral, LastSingle, Continuous;
    var all := events + [e];
    forall n: nat | LastSeveral(all, n)
      ensures n <= if Several(e) then several + 1 else 0
    {
      if n > 0 {
        SeveralEndsHere(events, e, n);
        ContinuousBefore(events, e, n);
      }
    }
    forall n: nat | now && LastSingle(all, n)
      ensures n <= if Single(e) then single + 1 else 0
    {
      if n > 0 {
        SingleEndsHere(events, e, n);
        ContinuousBefore(events, e, n);
      }
    }
  }

  /** Two confirming rounds are always counted. */
  lemma TwoCounted(events: seq<Event>, several: nat, latched: bool, single: nat)
    requires Counted(events, several, latched, single)
    ensures LastSeveral(events, 2) ==> several >= 2
  {
    hide LastSeveral, LastSingle;
  }

  /** While the latch is open, only runs of several leaders matter. */
  lemma Unlatched(events: seq<Event>, several: nat, latched: bool, single: nat)
    requires Counted(events, several, latched, single)
    ensures forall any: nat :: Counted(events, several, false, any)
    ensures !latched ==> forall any: nat :: Counted(events, several, latched, any)
  {
    hide LastSeveral, LastSingle;
  }

  /** If the longest run of single leaders is too short, so is every other. */
  lemma NoneLong(events: seq<Event>, several: nat, single: nat, now: Time)
    requires Counted(events, several, true, single)
    requires single > 0 ==>
               LastSingle(events, single) && Elapsed(events[|events| - single].now, now) < CLEAR_WINDOW
    ensures forall n: nat :: n > 0 && LastSingle(events, n) ==> Elapsed(events[|events| - n].now, now) < CLEAR_WINDOW
  {
    forall n: nat | n > 0 && LastSingle(events, n)
      ensures Elapsed(events[|events| - n].now, now) < CLEAR_WINDOW
    {
      LongerRun(events, n, single, now);
    }
  }

  function Leaders(peers: seq<Peer>): set<string> { set p | p in peers && p.leader :: p.id }

  class Tracker {
    var consecutive: nat
    var latched: bool
    var singleSince: Option<Time>
    var lastRound: Option<Time>
    ghost var events: seq<Event>
    ghost var run: nat

    /** The counters describe the end of the history. */
    ghost predicate Valid() reads this {
      && (lastRound.Some? ==>
          events != [] && events[|events| - 1].Round? && lastRound.value == events[|events| - 1].now)
      && (lastRound.None? ==> consecutive == 0 && singleSince.None?)
      && LastSeveral(events, consecutive)
      && (singleSince.Some? ==>
          latched && run > 0 && LastSingle(events, run) && events[|events| - run].now == singleSince.value)
      && (lastRound.None? ==> events == [] || events[|events| - 1].Interruption?)
      && Counted(events, consecutive, latched, SingleRun())
    }

    ghost function SingleRun(): nat reads this { if singleSince.Some? then run else 0 }

    constructor ()
      ensures Valid() && !latched && events == []
    {
      consecutive, latched, singleSince, lastRound, events, run := 0, false, None, None, [], 0;
      NothingCounted([], false);
    }

    method BreakContinuity()
      requires Valid()
      modifies this
      ensures Valid() && latched == old(latched) && events == old(events) + [Interruption]
    {
      consecutive, singleSince, lastRound := 0, None, None;
      events := events + [Interruption];
      NothingCounted(events, latched);
    }

    method CountLeaders(peers: seq<Peer>) returns (leaders: set<string>)
      ensures leaders == Leaders(peers)
    {
      leaders := {};
      for i := 0 to |peers|
        invariant leaders == Leaders(peers[..i])
      {
        assert peers[..i + 1] == peers[..i] + [peers[i]];
        if peers[i].leader { leaders := leaders + {peers[i].id}; }
      }
      assert peers[..|peers|] == peers;
    }

    /** Rounds that are too far apart do not confirm each other. */
    method Begin(now: Time, leaders: set<string>)
      requires Valid()
      modifies this
      ensures events == old(events) + [Round(now, leaders)] && lastRound == Some(now) && latched == old(latched)
      ensures LastSeveral(old(events), consecutive) && (consecutive > 0 ==> Continuous(events, consecutive + 1))
      ensures singleSince.Some? ==>
                latched && run > 0 && LastSingle(old(events), run)
                  && old(events)[|old(events)| - run].now == singleSince.value && Continuous(events, run + 1)
      ensures Open(old(events), now, consecutive, latched, SingleRun())
    {
      hide Counted;
      if lastRound.Some? && !GapValid(lastRound.value, now) {
        consecutive, singleSince := 0, None;
      }
      lastRound := Some(now);
      events := events + [Round(now, leaders)];
    }

    /**
     The latch sets exactly when this round and the one before it saw several leaders, without a gap between them,
     and clears exactly when an unbroken run of single-leader rounds spans two minutes on both clocks.
     */
    method Observe(now: Time, peers: seq<Peer>)
      requires Valid()
      modifies this
      ensures Valid() && events == old(events) + [Round(now, Leaders(peers))]
      ensures latched && !old(latched) ==> LastSeveral(events, 2)
      ensures !latched && old(latched) ==>
              run > 1 && LastSingle(events, run) && Elapsed(events[|events| - run].now, now) >= CLEAR_WINDOW
      ensures LastSeveral(events, 2) ==> latched
      ensures (exists n: nat ::
               n > 0 && LastSingle(events, n) && Elapsed(events[|events| - n].now, now) >= CLEAR_WINDOW)
              ==> !latched
    {
      hide Continuous, Leaders, Counted, Open, LastSeveral, LastSingle;
      var leaders := CountLeaders(peers);
      ghost var before, e := events, Round(now, leaders);
      Begin(now, leaders);
      Extend(before, e, consecutive, run);
      RoundCounted(before, e, consecutive, latched, SingleRun(), latched);
      if |leaders| > 1 {
        RoundCounted(before, e, consecutive, latched, SingleRun(), true);
        singleSince := None;
        consecutive := consecutive + 1;
        TwoCounted(events, consecutive, latched, 0);
        if consecutive >= 2 && !latched {
          latched := true;
          Shorter(events, consecutive);
        }
        NoneLong(events, consecutive, 0, now);
        return;
      }
      consecutive := 0;
      TwoCounted(events, 0, latched, if |leaders| == 1 then SingleRun() + 1 else 0);
      if |leaders| != 1 || !latched {
        singleSince := None;
        Unlatched(events, 0, latched, if |leaders| == 1 then SingleRun() + 1 else 0);
        if latched { NoneLong(events, 0, 0, now); }
        return;
      }
      if singleSince.None? {
        singleSince, run := Some(now), 1;
        NoneLong(events, 0, 1, now);
        return;
      }
      run := run + 1;
      if Elapsed(singleSince.value, now) >= CLEAR_WINDOW {
        Unlatched(events, 0, latched, run);
        latched, singleSince := false, None;
      } else {
        NoneLong(events, 0, run, now);
      }
    }
  }
}
