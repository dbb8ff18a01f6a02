/** Runs of the parking mutex in which parking goes wrong. */
module MutexV1Limits {
  import opened Machine
  import opened Counting
  import opened Runs
  import opened MutexV1
  import opened Witnesses

  /** Threads 1 and 2; nobody has left the queue or been disturbed yet. */
  ghost function At(word: nat, busy: bool, queue: seq<Tid>, one: Pc, two: Pc): State {
    State(word, false, busy, queue, {}, if word == UNLOCKED then {} else {word}, Both(one, two), queue, [], Both(0, 0))
  }

  const OUTSIDE: Pc := Idle(NoOutcome)
  const HOLDER: Pc := Idle(Guard(false))
  const FIRST: Move := Lock(1, false)
  const SECOND: Move := Lock(2, false)
  const LEAVE: Move := Drop(1, false, false)

  lemma Starts()
    ensures Init(At(UNLOCKED, false, [], OUTSIDE, OUTSIDE))
  {
  }

  lemma FirstLocks()
    ensures Next(At(UNLOCKED, false, [], OUTSIDE, OUTSIDE), FIRST, At(UNLOCKED, false, [], Spin(0), OUTSIDE))
    ensures Next(At(UNLOCKED, false, [], Spin(0), OUTSIDE), FIRST, At(UNLOCKED, false, [], SpinCas(0), OUTSIDE))
    ensures Next(At(UNLOCKED, false, [], SpinCas(0), OUTSIDE), FIRST, At(1, false, [], HOLDER, OUTSIDE))
    ensures Next(At(1, false, [], HOLDER, OUTSIDE), SECOND, At(1, false, [], HOLDER, Spin(0)))
  {
    BothUpdated(OUTSIDE, OUTSIDE, Spin(0));
    BothUpdated(Spin(0), OUTSIDE, SpinCas(0));
    BothUpdated(SpinCas(0), OUTSIDE, HOLDER);
    BothUpdated(HOLDER, OUTSIDE, Spin(0));
  }

  lemma SecondSpins(n: nat)
    requires n + 1 < SPIN_LIMIT
    ensures Next(At(1, false, [], HOLDER, Spin(n)), SECOND, At(1, false, [], HOLDER, Spin(n + 1)))
  {
    BothUpdated(HOLDER, Spin(n), Spin(n + 1));
  }

  lemma SecondGivesUp()
    ensures Next(At(1, false, [], HOLDER, Spin(SPIN_LIMIT - 1)), SECOND, At(1, false, [], HOLDER, EnqueueLoad))
  {
    BothUpdated(HOLDER, Spin(SPIN_LIMIT - 1), EnqueueLoad);
  }

  lemma RunToHeld() returns (states: seq<State>, moves: seq<Move>)
    ensures IsRun(Init, Next, states, moves) && states[|moves|] == At(1, false, [], HOLDER, Spin(0))
  {
    Starts();
    FirstLocks();
    states, moves := [At(UNLOCKED, false, [], OUTSIDE, OUTSIDE)], [];
    assert IsRun(Init, Next, states, moves);
    hide Init, Next, At;
    states, moves := Grow(Init, Next, states, moves, FIRST, At(UNLOCKED, false, [], Spin(0), OUTSIDE));
    states, moves := Grow(Init, Next, states, moves, FIRST, At(UNLOCKED, false, [], SpinCas(0), OUTSIDE));
    states, moves := Grow(Init, Next, states, moves, FIRST, At(1, false, [], HOLDER, OUTSIDE));
    states, moves := Grow(Init, Next, states, moves, SECOND, At(1, false, [], HOLDER, Spin(0)));
  }

  lemma {:induction false} RunToSpinning(n: nat) returns (states: seq<State>, moves: seq<Move>)
    requires n < SPIN_LIMIT
    ensures IsRun(Init, Next, states, moves) && states[|moves|] == At(1, false, [], HOLDER, Spin(n))
  {
    hide Init, Next, At;
    if n == 0 {
      states, moves := RunToHeld();
    } else {
      states, moves := RunToSpinning(n - 1);
      SecondSpins(n - 1);
      states, moves := Grow(Init, Next, states, moves, SECOND, At(1, false, [], HOLDER, Spin(n)));
    }
  }

  lemma RunToGivenUp() returns (states: seq<State>, moves: seq<Move>)
    ensures IsRun(Init, Next, states, moves) && states[|moves|] == At(1, false, [], HOLDER, EnqueueLoad)
  {
    hide Init, Next, At;
    states, moves := RunToSpinning(SPIN_LIMIT - 1);
    SecondGivesUp();
    states, moves := Grow(Init, Next, states, moves, SECOND, At(1, false, [], HOLDER, EnqueueLoad));
  }

  lemma SecondEnters(word: nat, one: Pc)
    ensures Next(At(word, false, [], one, EnqueueLoad), SECOND, At(word, false, [], one, EnqueueCas))
    ensures Next(At(word, false, [], one, EnqueueCas), SECOND, At(word, true, [], one, EnqueuePush))
  {
    BothUpdated(one, EnqueueLoad, EnqueueCas);
    BothUpdated(one, EnqueueCas, EnqueuePush);
  }

  lemma SecondParks(word: nat, one: Pc)
    ensures Next(At(word, true, [], one, EnqueuePush), SECOND, At(word, true, [2], one, EnqueueRelease))
    ensures Next(At(word, true, [2], one, EnqueueRelease), SECOND, At(word, false, [2], one, Park))
  {
    BothUpdated(one, EnqueuePush, EnqueueRelease);
    BothUpdated(one, EnqueueRelease, Park);
  }

  /** Once a thread has given up spinning it parks, whatever the word is by then. */
  lemma RunThroughPark(word: nat, one: Pc, before: seq<State>, made: seq<Move>)
      returns (states: seq<State>, moves: seq<Move>)
    requires IsRun(Init, Next, before, made) && before[|made|] == At(word, false, [], one, EnqueueLoad)
    ensures IsRun(Init, Next, states, moves) && states[|moves|] == At(word, false, [2], one, Park)
  {
    SecondEnters(word, one);
    SecondParks(word, one);
    hide Init, Next, At, IsRun;
    states, moves := Grow(Init, Next, before, made, SECOND, At(word, false, [], one, EnqueueCas));
    states, moves := Grow(Init, Next, states, moves, SECOND, At(word, true, [], one, EnqueuePush));
    states, moves := Grow(Init, Next, states, moves, SECOND, At(word, true, [2], one, EnqueueRelease));
    states, moves := Grow(Init, Next, states, moves, SECOND, At(word, false, [2], one, Park));
  }

  /** A parked thread that nobody disturbed exists, so the law on wakeups can be broken by one spurious return. */
  lemma SpuriousReturnHappens() returns (states: seq<State>, moves: seq<Move>)
    ensures IsRun(Init, Next, states, moves) && |moves| > 0 && moves[|moves| - 1] == SpuriousReturn(2)
    ensures var s := states[|moves|]; 2 in s.pcs && Wakeups(s, 2) == 1 && !Parking(s.pcs[2])
  {
    states, moves := RunToGivenUp();
    states, moves := RunThroughPark(1, HOLDER, states, moves);
    var parked := At(1, false, [2], HOLDER, Park);
    assert 2 in parked.pcs && parked.pcs[2].Park? && 2 in parked.disturbances && parked.disturbances[2] == 0;
    hide Init, Next, At;
    SpuriousReturnBreaksTheLaw(states, moves, |moves|, 2);
    var s := Step(parked, SpuriousReturn(2));
    StepIsNext(parked, SpuriousReturn(2));
    Extend(Init, Next, states, moves, SpuriousReturn(2), s);
    states, moves := states + [s], moves + [SpuriousReturn(2)];
  }

  lemma StepIsNext(s: State, m: Move)
    requires Enabled(s, m)
    ensures Next(s, m, Step(s, m))
    ensures s.pcs.Keys == Step(s, m).pcs.Keys
  {
  }

  lemma FirstUnlocks()
    ensures Next(At(1, false, [], HOLDER, EnqueueLoad), LEAVE, At(UNLOCKED, false, [], DequeueLoad, EnqueueLoad))
    ensures Next(At(UNLOCKED, false, [], DequeueLoad, EnqueueLoad), LEAVE,
                 At(UNLOCKED, false, [], DequeueCas, EnqueueLoad))
  {
    BothUpdated(HOLDER, EnqueueLoad, DequeueLoad);
    BothUpdated(DequeueLoad, EnqueueLoad, DequeueCas);
  }

  lemma FirstFindsNobody()
    ensures Next(At(UNLOCKED, false, [], DequeueCas, EnqueueLoad), LEAVE,
                 At(UNLOCKED, true, [], DequeueCheck, EnqueueLoad))
    ensures Next(At(UNLOCKED, true, [], DequeueCheck, EnqueueLoad), LEAVE,
                 At(UNLOCKED, true, [], DequeueRelease(None), EnqueueLoad))
    ensures Next(At(UNLOCKED, true, [], DequeueRelease(None), EnqueueLoad), LEAVE,
                 At(UNLOCKED, false, [], OUTSIDE, EnqueueLoad))
  {
    BothUpdated(DequeueCas, EnqueueLoad, DequeueCheck);
    BothUpdated(DequeueCheck, EnqueueLoad, DequeueRelease(None));
    BothUpdated(DequeueRelease(None), EnqueueLoad, OUTSIDE);
  }

  lemma RunToForgotten() returns (states: seq<State>, moves: seq<Move>)
    ensures IsRun(Init, Next, states, moves) && states[|moves|] == At(UNLOCKED, false, [2], OUTSIDE, Park)
  {
    states, moves := RunToGivenUp();
    FirstUnlocks();
    FirstFindsNobody();
    hide Init, Next, At, IsRun;
    states, moves := Grow(Init, Next, states, moves, LEAVE, At(UNLOCKED, false, [], DequeueLoad, EnqueueLoad));
    states, moves := Grow(Init, Next, states, moves, LEAVE, At(UNLOCKED, false, [], DequeueCas, EnqueueLoad));
    states, moves := Grow(Init, Next, states, moves, LEAVE, At(UNLOCKED, true, [], DequeueCheck, EnqueueLoad));
    states, moves := Grow(Init, Next, states, moves, LEAVE, At(UNLOCKED, true, [], DequeueRelease(None), EnqueueLoad));
    states, moves := Grow(Init, Next, states, moves, LEAVE, At(UNLOCKED, false, [], OUTSIDE, EnqueueLoad));
    states, moves := RunThroughPark(UNLOCKED, OUTSIDE, states, moves);
  }

  /**
   `enqueue_thread` does not look at the word again: here a thread parks, without a token, beside a
   free mutex after the holder has left and found nobody in the queue. Nobody else is in a call.
   */
  lemma ParksBesideAFreeMutex() returns (states: seq<State>, moves: seq<Move>)
    ensures IsRun(Init, Next, states, moves)
    ensures var s := states[|moves|];
      && s.word == UNLOCKED && s.tokens == {} && 2 in s.pcs && s.pcs[2].Park?
      && forall t | t in s.pcs && t != 2 :: s.pcs[t].Idle?
  {
    hide Init, Next;
    states, moves := RunToForgotten();
  }
}
