/** Runs of the channel's calls in which a receive overlooks a message. */
module ChannelLimits {
  import opened Machine
  import opened Runs
  import opened Channels
  import opened Witnesses
  import Ring = SharedRings

  const EMPTY: seq<Ring.Slot> := [Ring.Uninit, Ring.Uninit]
  const FILLED: seq<Ring.Slot> := [Ring.Filled(0, 7), Ring.Uninit]
  const OUTSIDE: Pc := Idle(NoAnswer)
  const NEW: Book := Book({}, {}, map[], Both(0, 0))
  const GIVEN: Book := Book({7}, {}, map[7 := (1, 0)], Both(1, 0))
  const CLEAN: Log := Log([], false, false, 0)

  /** Thread 1 sends, thread 2 receives; sender 0 is the only one, and the buffer has two slots. */
  ghost function Looking(rpc: Ring.Pc, pc: Pc): State {
    State(Ring.State(0, 0, EMPTY, Both(Ring.Idle, rpc), [], [], []),
          1, 0, RECEIVER_AWAKE, {0}, 0, true, Both(OUTSIDE, pc), NEW, CLEAN)
  }

  /** Where the receiver is in the meantime: not started, or having found nothing. */
  predicate Meanwhile(r: Pc) {
    r == OUTSIDE || r.RecvStore? || r.TryRecvCheck?
  }

  function RingPc(r: Pc): Ring.Pc {
    if r.Idle? then Ring.Idle else Ring.Nothing
  }

  /** The sender sends message 7 while the receiver is at `r`. */
  ghost function Sending(claimed: seq<nat>, slots: seq<Ring.Slot>, rpc: Ring.Pc, pc: Pc, r: Pc): State {
    State(Ring.State(|claimed|, 0, slots, Both(rpc, RingPc(r)), claimed, [], []),
          1, 0, RECEIVER_AWAKE, {0}, 0, true, Both(pc, r), GIVEN, CLEAN)
  }

  /** Where things are after the first access of the send and `k` more. */
  ghost function Sent(k: nat, r: Pc): State {
    if k == 0 then Sending([], EMPTY, Ring.Idle, SendPush(0, 7, false), r)
    else if k == 1 then Sending([], EMPTY, Ring.PushHead(7, false, 0), SendPush(0, 7, false), r)
    else if k == 2 then Sending([], EMPTY, Ring.PushCas(7, false, 0, 0), SendPush(0, 7, false), r)
    else if k == 3 then Sending([7], EMPTY, Ring.PushWrite(7, 0), SendPush(0, 7, false), r)
    else if k == 4 then Sending([7], FILLED, Ring.Pushed, NotifyLoad(0), r)
    else Sending([7], FILLED, Ring.Pushed, Idle(Answer.Sent), r)
  }

  const GIVE: Move := Send(1, 0, 7, false, false, 0)
  const TAKE: Move := Recv(2, false, 0)
  const FAIL: Move := Recv(2, true, 0)
  const TRY: Move := TryRecv(2, false)

  lemma Starts()
    ensures Init(Looking(Ring.Idle, OUTSIDE))
  {
    assert |EMPTY| == 2;
  }

  lemma Begins(r: Pc)
    requires Meanwhile(r)
    ensures Next(Looking(RingPc(r), r), GIVE, Sent(0, r))
  {
    BothUpdated(OUTSIDE, r, SendPush(0, 7, false));
    BothUpdated(0, 0, 1);
  }

  lemma LoadsTail(r: Pc)
    requires Meanwhile(r)
    ensures Next(Sent(0, r), GIVE, Sent(1, r))
  {
    BothUpdated(Ring.Idle, RingPc(r), Ring.PushHead(7, false, 0));
    BothUpdated(SendPush(0, 7, false), r, SendPush(0, 7, false));
  }

  lemma LoadsHead(r: Pc)
    requires Meanwhile(r)
    ensures Next(Sent(1, r), GIVE, Sent(2, r))
  {
    BothUpdated(Ring.PushHead(7, false, 0), RingPc(r), Ring.PushCas(7, false, 0, 0));
  }

  lemma RingWins(r: Pc)
    ensures Ring.Enabled(Sent(2, r).ring, Ring.Push(1, 7, false, false))
    ensures Ring.StepPush(Sent(2, r).ring, 1, 7, false, false) == Sent(3, r).ring
  {
    BothUpdated(Ring.PushCas(7, false, 0, 0), RingPc(r), Ring.PushWrite(7, 0));
  }

  lemma Wins(r: Pc)
    requires Meanwhile(r)
    ensures Next(Sent(2, r), GIVE, Sent(3, r))
  {
    RingWins(r);
    hide Ring.StepPush, Ring.Enabled;
  }

  lemma RingWrites(r: Pc)
    ensures Ring.Enabled(Sent(3, r).ring, Ring.Push(1, 7, false, false))
    ensures Ring.StepPush(Sent(3, r).ring, 1, 7, false, false) == Sent(4, r).ring
  {
    BothUpdated(Ring.PushWrite(7, 0), RingPc(r), Ring.Pushed);
  }

  lemma Writes(r: Pc)
    requires Meanwhile(r)
    ensures Next(Sent(3, r), GIVE, Sent(4, r))
  {
    RingWrites(r);
    BothUpdated(SendPush(0, 7, false), r, NotifyLoad(0));
    hide Ring.StepPush, Ring.Enabled;
  }

  lemma SeesNobodyAsleep(r: Pc)
    requires Meanwhile(r)
    ensures Next(Sent(4, r), GIVE, Sent(5, r))
  {
    BothUpdated(NotifyLoad(0), r, Idle(Answer.Sent));
  }

  /** A run in which the receiver is at `r` can go on with the whole send. */
  lemma RunThroughSend(r: Pc, before: seq<State>, made: seq<Move>) returns (states: seq<State>, moves: seq<Move>)
    requires Meanwhile(r)
    requires IsRun(Init, Next, before, made) && before[|made|] == Looking(RingPc(r), r)
    ensures IsRun(Init, Next, states, moves) && states[|moves|] == Sent(5, r)
  {
    Begins(r);
    LoadsTail(r);
    LoadsHead(r);
    Wins(r);
    Writes(r);
    SeesNobodyAsleep(r);
    hide Init, Next, IsRun, Sent, Looking;
    states, moves := Grow(Init, Next, before, made, GIVE, Sent(0, r));
    states, moves := Grow(Init, Next, states, moves, GIVE, Sent(1, r));
    states, moves := Grow(Init, Next, states, moves, GIVE, Sent(2, r));
    states, moves := Grow(Init, Next, states, moves, GIVE, Sent(3, r));
    states, moves := Grow(Init, Next, states, moves, GIVE, Sent(4, r));
    states, moves := Grow(Init, Next, states, moves, GIVE, Sent(5, r));
  }

  lemma StartsToLook()
    ensures Next(Looking(Ring.Idle, OUTSIDE), TAKE, Looking(Ring.Idle, RecvPop))
    ensures Next(Looking(Ring.Idle, RecvPop), TAKE, Looking(Ring.PopHead(false, 0), RecvPop))
  {
    BothUpdated(OUTSIDE, OUTSIDE, RecvPop);
    BothUpdated(OUTSIDE, RecvPop, RecvPop);
    BothUpdated(Ring.Idle, Ring.Idle, Ring.PopHead(false, 0));
  }

  lemma LooksAtHead()
    ensures Next(Looking(Ring.PopHead(false, 0), RecvPop), TAKE, Looking(Ring.Nothing, RecvStore))
  {
    BothUpdated(OUTSIDE, RecvPop, RecvStore);
    BothUpdated(Ring.Idle, Ring.PopHead(false, 0), Ring.Nothing);
  }

  /** The sender is done, the receiver goes to sleep. */
  ghost function Sleeping(pc: Pc): State {
    State(Ring.State(1, 0, FILLED, Both(Ring.Pushed, Ring.Nothing), [7], [], []),
          1, 0, RECEIVER_ASLEEP, {0}, 0, true, Both(Idle(Answer.Sent), pc), GIVEN, Log([], false, false, 1))
  }

  lemma DeclaresItself()
    ensures Next(Sent(5, RecvStore), TAKE, Sleeping(RecvWait))
  {
    BothUpdated(Idle(Answer.Sent), RecvStore, RecvWait);
  }

  lemma FallsAsleep()
    ensures Next(Sleeping(RecvWait), TAKE, Sleeping(RecvAsleep))
  {
    BothUpdated(Idle(Answer.Sent), RecvWait, RecvAsleep);
  }

  lemma RunToSleep() returns (states: seq<State>, moves: seq<Move>)
    ensures IsRun(Init, Next, states, moves) && states[|moves|] == Sleeping(RecvAsleep)
  {
    Starts();
    StartsToLook();
    LooksAtHead();
    DeclaresItself();
    FallsAsleep();
    states, moves := [Looking(Ring.Idle, OUTSIDE)], [];
    assert IsRun(Init, Next, states, moves);
    hide Init, Next, Sent, Looking, Sleeping;
    states, moves := Grow(Init, Next, states, moves, TAKE, Looking(Ring.Idle, RecvPop));
    states, moves := Grow(Init, Next, states, moves, TAKE, Looking(Ring.PopHead(false, 0), RecvPop));
    states, moves := Grow(Init, Next, states, moves, TAKE, Looking(Ring.Nothing, RecvStore));
    states, moves := RunThroughSend(RecvStore, states, moves);
    states, moves := Grow(Init, Next, states, moves, TAKE, Sleeping(RecvWait));
    states, moves := Grow(Init, Next, states, moves, TAKE, Sleeping(RecvAsleep));
  }

  /**
   Not every message is noticed: one that is accepted after the receiver looked into the buffer and
   announced before it stores RECEIVER_ASLEEP lies there while it sleeps and nobody else is active.
   */
  lemma ReceiverSleepsOnAMessage() returns (states: seq<State>, moves: seq<Move>)
    ensures IsRun(Init, Next, states, moves)
    ensures var s := states[|moves|];
      && 2 in s.pcs && s.pcs[2].RecvAsleep? && AllOthersIdle(s, 2)
      && Ring.Queue(s.ring) == [7]
  {
    hide Init, Next;
    states, moves := RunToSleep();
  }

  /** Sent, and the only sender dropped; the receiver is at `pc`, in the buffer at `rpc`. */
  ghost function Leaving(rpc: Ring.Pc, pc: Pc): State {
    State(Ring.State(1, 0, FILLED, Both(Ring.Pushed, rpc), [7], [], []),
          0, 0, RECEIVER_AWAKE, {}, 0, true, Both(Idle(Answer.Sent), pc), GIVEN, CLEAN)
  }

  lemma DropsSender(r: Pc)
    requires Meanwhile(r)
    ensures Next(Sent(5, r), DropSender(1, 0), Leaving(RingPc(r), r))
  {
    assert {0} - {0} == {};
  }

  lemma TriesAtTail()
    ensures Next(Looking(Ring.Idle, OUTSIDE), TRY, Looking(Ring.PopHead(true, 0), TryRecvPop))
  {
    BothUpdated(OUTSIDE, OUTSIDE, TryRecvPop);
    BothUpdated(Ring.Idle, Ring.Idle, Ring.PopHead(true, 0));
  }

  lemma TriesAtHead()
    ensures Next(Looking(Ring.PopHead(true, 0), TryRecvPop), TRY, Looking(Ring.Nothing, TryRecvCheck))
  {
    BothUpdated(OUTSIDE, TryRecvPop, TryRecvCheck);
    BothUpdated(Ring.Idle, Ring.PopHead(true, 0), Ring.Nothing);
  }

  lemma ReportsDisconnected()
    ensures Next(Leaving(Ring.Nothing, TryRecvCheck), TRY, Leaving(Ring.Nothing, Idle(SendersGone)))
  {
    BothUpdated(Idle(Answer.Sent), TryRecvCheck, Idle(SendersGone));
  }

  lemma RunToTry() returns (states: seq<State>, moves: seq<Move>)
    ensures IsRun(Init, Next, states, moves) && states[|moves|] == Leaving(Ring.Nothing, Idle(SendersGone))
  {
    Starts();
    TriesAtTail();
    TriesAtHead();
    DropsSender(TryRecvCheck);
    ReportsDisconnected();
    states, moves := [Looking(Ring.Idle, OUTSIDE)], [];
    assert IsRun(Init, Next, states, moves);
    hide Init, Next, Sent, Looking, Leaving;
    states, moves := Grow(Init, Next, states, moves, TRY, Looking(Ring.PopHead(true, 0), TryRecvPop));
    states, moves := Grow(Init, Next, states, moves, TRY, Looking(Ring.Nothing, TryRecvCheck));
    states, moves := RunThroughSend(TryRecvCheck, states, moves);
    states, moves := Grow(Init, Next, states, moves, DropSender(1, 0), Leaving(Ring.Nothing, TryRecvCheck));
    states, moves := Grow(Init, Next, states, moves, TRY, Leaving(Ring.Nothing, Idle(SendersGone)));
  }

  /** try_recv can return Disconnected with a message in the buffer, accepted after it looked there. */
  lemma TryRecvMissesAMessage() returns (states: seq<State>, moves: seq<Move>)
    ensures IsRun(Init, Next, states, moves)
    ensures var s := states[|moves|];
      && 2 in s.pcs && s.pcs[2] == Idle(SendersGone) && s.senders == {}
      && Ring.Queue(s.ring) == [7]
  {
    hide Init, Next;
    states, moves := RunToTry();
  }

  lemma StartsToPop()
    ensures Next(Leaving(Ring.Idle, OUTSIDE), TAKE, Leaving(Ring.Idle, RecvFinal))
    ensures Next(Leaving(Ring.Idle, RecvFinal), TAKE, Leaving(Ring.PopHead(true, 0), RecvFinal))
  {
    BothUpdated(Idle(Answer.Sent), OUTSIDE, RecvFinal);
    BothUpdated(Ring.Pushed, Ring.Idle, Ring.PopHead(true, 0));
    BothUpdated(Idle(Answer.Sent), RecvFinal, RecvFinal);
  }

  lemma PopsHead()
    ensures Next(Leaving(Ring.PopHead(true, 0), RecvFinal), TAKE, Leaving(Ring.PopRead(true, 0), RecvFinal))
  {
    BothUpdated(Ring.Pushed, Ring.PopHead(true, 0), Ring.PopRead(true, 0));
    BothUpdated(Idle(Answer.Sent), RecvFinal, RecvFinal);
  }

  lemma PopsSlot()
    ensures Next(Leaving(Ring.PopRead(true, 0), RecvFinal), TAKE, Leaving(Ring.PopCas(true, 0, FILLED[0]), RecvFinal))
  {
    BothUpdated(Ring.Pushed, Ring.PopRead(true, 0), Ring.PopCas(true, 0, FILLED[0]));
    BothUpdated(Idle(Answer.Sent), RecvFinal, RecvFinal);
  }

  /** The exchange has failed, which try_pop reports like an empty buffer. */
  ghost function GivenUp(): State {
    State(Ring.State(1, 0, FILLED, Both(Ring.Pushed, Ring.Nothing), [7], [], [FILLED[0]]),
          0, 0, RECEIVER_AWAKE, {}, 0, true, Both(Idle(Answer.Sent), Idle(SendersGone)), GIVEN, Log([], true, true, 0))
  }

  lemma GivesUp()
    ensures Next(Leaving(Ring.PopCas(true, 0, FILLED[0]), RecvFinal), FAIL, GivenUp())
  {
    BothUpdated(Ring.Pushed, Ring.PopCas(true, 0, FILLED[0]), Ring.Nothing);
    BothUpdated(Idle(Answer.Sent), RecvFinal, Idle(SendersGone));
  }

  lemma RunToGivenUp() returns (states: seq<State>, moves: seq<Move>)
    ensures IsRun(Init, Next, states, moves) && states[|moves|] == GivenUp()
  {
    Starts();
    DropsSender(OUTSIDE);
    StartsToPop();
    PopsHead();
    PopsSlot();
    GivesUp();
    var slot := FILLED[0];
    states, moves := [Looking(Ring.Idle, OUTSIDE)], [];
    assert IsRun(Init, Next, states, moves);
    hide Init, Next, Sent, Looking, Leaving, GivenUp;
    states, moves := RunThroughSend(OUTSIDE, states, moves);
    states, moves := Grow(Init, Next, states, moves, DropSender(1, 0), Leaving(Ring.Idle, OUTSIDE));
    states, moves := Grow(Init, Next, states, moves, TAKE, Leaving(Ring.Idle, RecvFinal));
    states, moves := Grow(Init, Next, states, moves, TAKE, Leaving(Ring.PopHead(true, 0), RecvFinal));
    states, moves := Grow(Init, Next, states, moves, TAKE, Leaving(Ring.PopRead(true, 0), RecvFinal));
    states, moves := Grow(Init, Next, states, moves, TAKE, Leaving(Ring.PopCas(true, 0, slot), RecvFinal));
    states, moves := Grow(Init, Next, states, moves, FAIL, GivenUp());
  }

  /** Even recv can return Disconnected with a message in the buffer, if its last exchange fails spuriously. */
  lemma RecvMissesAMessage() returns (states: seq<State>, moves: seq<Move>)
    ensures IsRun(Init, Next, states, moves)
    ensures var s := states[|moves|];
      && 2 in s.pcs && s.pcs[2] == Idle(SendersGone) && s.senders == {} && s.log.gaveUp
      && Ring.Queue(s.ring) == [7]
  {
    hide Init, Next;
    states, moves := RunToGivenUp();
  }
}
