/** Runs of the shared ring buffer in which a pop returns a value it should not have. */
module RingLimits {
  import opened Machine
  import opened Runs
  import opened SharedRings
  import opened Witnesses

  const EMPTY: seq<Slot> := [Uninit, Uninit]
  const FILLED: seq<Slot> := [Filled(0, 7), Uninit]

  /** Thread 1 pushes 7 into two empty slots, thread 2 pops. */
  ghost function Claiming(claimed: seq<nat>, push: Pc): State {
    State(|claimed|, 0, EMPTY, Both(push, Idle), claimed, [], [])
  }

  const GIVE: Move := Push(1, 7, false, false)
  const TAKE: Move := Pop(2, false, false)
  const FAIL: Move := Pop(2, false, true)

  lemma PushClaims()
    ensures NextPublished(Claiming([], Idle), GIVE, Claiming([], PushHead(7, false, 0)))
    ensures NextPublished(Claiming([], PushHead(7, false, 0)), GIVE, Claiming([], PushCas(7, false, 0, 0)))
    ensures NextPublished(Claiming([], PushCas(7, false, 0, 0)), GIVE, Claiming([7], PushWrite(7, 0)))
  {
    BothUpdated(Idle, Idle, PushHead(7, false, 0));
    BothUpdated(PushHead(7, false, 0), Idle, PushCas(7, false, 0, 0));
    BothUpdated(PushCas(7, false, 0, 0), Idle, PushWrite(7, 0));
  }

  /** The push has claimed its ticket, and in `FILLED` written it; the pop has got as far as `pop`. */
  ghost function Popping(slots: seq<Slot>, pop: Pc, discarded: seq<Slot>): State {
    State(1, 0, slots, Both(if slots == EMPTY then PushWrite(7, 0) else Pushed, pop), [7], [], discarded)
  }

  ghost function Returned(slots: seq<Slot>, slot: Slot, discarded: seq<Slot>): State {
    State(1, 1, slots, Both(if slots == EMPTY then PushWrite(7, 0) else Pushed, Popped(slot)), [7], [slot], discarded)
  }

  lemma Writes()
    ensures NextPublished(Claiming([7], PushWrite(7, 0)), GIVE, Popping(FILLED, Idle, []))
  {
    BothUpdated(PushWrite(7, 0), Idle, Pushed);
  }

  lemma PopStarts(slots: seq<Slot>)
    requires slots == EMPTY || slots == FILLED
    ensures NextPublished(Popping(slots, Idle, []), TAKE, Popping(slots, PopHead(false, 0), []))
  {
    BothUpdated(Popping(slots, Idle, []).pcs[1], Idle, PopHead(false, 0));
  }

  lemma PopGetsSlot(slots: seq<Slot>, discarded: seq<Slot>)
    requires slots == EMPTY || slots == FILLED
    ensures NextPublished(Popping(slots, PopHead(false, 0), discarded), TAKE,
                          Popping(slots, PopRead(false, 0), discarded))
    ensures Next(Popping(slots, PopRead(false, 0), discarded), TAKE,
                 Popping(slots, PopCas(false, 0, slots[0]), discarded))
    ensures slots == FILLED ==> Published(Popping(slots, PopRead(false, 0), discarded), TAKE)
  {
    BothUpdated(Popping(slots, Idle, []).pcs[1], PopHead(false, 0), PopRead(false, 0));
    BothUpdated(Popping(slots, Idle, []).pcs[1], PopRead(false, 0), PopCas(false, 0, slots[0]));
  }

  lemma PopWins(slots: seq<Slot>, discarded: seq<Slot>)
    requires slots == EMPTY || slots == FILLED
    ensures NextPublished(Popping(slots, PopCas(false, 0, slots[0]), discarded), TAKE,
                          Returned(slots, slots[0], discarded))
  {
    BothUpdated(Popping(slots, Idle, []).pcs[1], PopCas(false, 0, slots[0]), Popped(slots[0]));
  }

  lemma PopFails()
    ensures NextPublished(Popping(FILLED, PopCas(false, 0, FILLED[0]), []), FAIL,
                          Popping(FILLED, PopHead(false, 0), [FILLED[0]]))
  {
    BothUpdated(Pushed, PopCas(false, 0, FILLED[0]), PopHead(false, 0));
  }

  lemma Starts()
    ensures Init(Claiming([], Idle))
  {
    assert |EMPTY| == 2;
  }

  /** The push up to its claim. */
  lemma RunToClaim() returns (states: seq<State>, moves: seq<Move>)
    ensures IsRun(Init, NextPublished, states, moves) && states[|moves|] == Claiming([7], PushWrite(7, 0))
  {
    Starts();
    PushClaims();
    states, moves := [Claiming([], Idle)], [];
    assert IsRun(Init, NextPublished, states, moves);
    hide Init, NextPublished, Claiming;
    states, moves := Grow(Init, NextPublished, states, moves, GIVE, Claiming([], PushHead(7, false, 0)));
    states, moves := Grow(Init, NextPublished, states, moves, GIVE, Claiming([], PushCas(7, false, 0, 0)));
    states, moves := Grow(Init, NextPublished, states, moves, GIVE, Claiming([7], PushWrite(7, 0)));
  }

  lemma PublishedIsRun(states: seq<State>, moves: seq<Move>)
    requires IsRun(Init, NextPublished, states, moves)
    ensures IsRun(Init, Next, states, moves)
  {
    forall i | 0 <= i < |moves| ensures Next(states[i], moves[i], states[i + 1]) {
      assert NextPublished(states[i], moves[i], states[i + 1]);
    }
  }

  lemma RunToUnwritten() returns (states: seq<State>, moves: seq<Move>)
    ensures IsRun(Init, Next, states, moves) && states[|moves|] == Returned(EMPTY, Uninit, [])
  {
    states, moves := RunToClaim();
    PublishedIsRun(states, moves);
    PopStarts(EMPTY);
    PopGetsSlot(EMPTY, []);
    PopWins(EMPTY, []);
    assert Claiming([7], PushWrite(7, 0)) == Popping(EMPTY, Idle, []);
    hide Init, Next, Claiming, Popping, Returned;
    states, moves := Grow(Init, Next, states, moves, TAKE, Popping(EMPTY, PopHead(false, 0), []));
    states, moves := Grow(Init, Next, states, moves, TAKE, Popping(EMPTY, PopRead(false, 0), []));
    states, moves := Grow(Init, Next, states, moves, TAKE, Popping(EMPTY, PopCas(false, 0, Uninit), []));
    states, moves := Grow(Init, Next, states, moves, TAKE, Returned(EMPTY, Uninit, []));
  }

  /**
   The head is moved before the slot is written, so a pop can overtake the push: here it returns a
   slot that nobody has written, in place of the 7 that was pushed under its ticket.
   */
  lemma PopReturnsUnwrittenSlot() returns (states: seq<State>, moves: seq<Move>)
    ensures IsRun(Init, Next, states, moves)
    ensures var s := states[|moves|];
      2 in s.pcs && s.pcs[2] == Popped(Uninit) && s.taken == [Uninit] && s.claimed == [7]
  {
    hide Init, Next;
    states, moves := RunToUnwritten();
  }

  lemma RunToDiscarded() returns (states: seq<State>, moves: seq<Move>)
    ensures IsRun(Init, NextPublished, states, moves)
    ensures states[|moves|] == Popping(FILLED, PopHead(false, 0), [FILLED[0]])
  {
    states, moves := RunToClaim();
    Writes();
    PopStarts(FILLED);
    PopGetsSlot(FILLED, []);
    PopFails();
    var slot := FILLED[0];
    hide Init, NextPublished, Next, Published, Claiming, Popping;
    states, moves := Grow(Init, NextPublished, states, moves, GIVE, Popping(FILLED, Idle, []));
    states, moves := Grow(Init, NextPublished, states, moves, TAKE, Popping(FILLED, PopHead(false, 0), []));
    states, moves := Grow(Init, NextPublished, states, moves, TAKE, Popping(FILLED, PopRead(false, 0), []));
    states, moves := Grow(Init, NextPublished, states, moves, TAKE, Popping(FILLED, PopCas(false, 0, slot), []));
    states, moves := Grow(Init, NextPublished, states, moves, FAIL, Popping(FILLED, PopHead(false, 0), [slot]));
  }

  lemma RunToTwice() returns (states: seq<State>, moves: seq<Move>)
    ensures IsRun(Init, NextPublished, states, moves) && states[|moves|] == Returned(FILLED, FILLED[0], [FILLED[0]])
  {
    states, moves := RunToDiscarded();
    PopGetsSlot(FILLED, [FILLED[0]]);
    PopWins(FILLED, [FILLED[0]]);
    var slot := FILLED[0];
    hide Init, NextPublished, Next, Published, Popping, Returned;
    states, moves := Grow(Init, NextPublished, states, moves, TAKE, Popping(FILLED, PopRead(false, 0), [slot]));
    states, moves := Grow(Init, NextPublished, states, moves, TAKE, Popping(FILLED, PopCas(false, 0, slot), [slot]));
    states, moves := Grow(Init, NextPublished, states, moves, TAKE, Returned(FILLED, slot, [slot]));
  }

  /** A spurious failure makes the pop throw away its copy of a value that it goes on to return. */
  lemma ValueThrownAwayAndReturned() returns (states: seq<State>, moves: seq<Move>)
    ensures IsRun(Init, NextPublished, states, moves)
    ensures var s := states[|moves|]; s.discarded == s.taken == [Filled(0, 7)] && s.claimed == [7]
  {
    hide Init, NextPublished;
    states, moves := RunToTwice();
  }
}
