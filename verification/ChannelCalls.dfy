/** What single calls of the channel answer and do, in any state and undisturbed. */
module ChannelCalls {
  import opened Machine
  import opened Runs
  import opened Channels
  import opened Wakes
  import Ring = SharedRings
  import RingCalls

  ghost predicate TouchesRing(states: seq<State>, moves: seq<Move>, l: nat) {
    l < |moves| && l < |states| && moves[l].t in states[l].pcs && RingMove(states[l].pcs[moves[l].t], moves[l]).Some?
  }

  ghost function RingMoveAt(states: seq<State>, moves: seq<Move>, l: nat): Ring.Move
    requires TouchesRing(states, moves, l)
  {
    RingMove(states[l].pcs[moves[l].t], moves[l]).value
  }

  /**
   What a run of the channel does to its buffer is a run of the shared buffer; if the last `n` moves
   all touch the buffer, they are the last `n` moves of that run too. All laws of the buffer carry over.
   */
  lemma {:induction false} RingRun(states: seq<State>, moves: seq<Move>, i: nat, n: nat)
      returns (rs: seq<Ring.State>, rm: seq<Ring.Move>)
    requires IsRun(Init, Next, states, moves) && i + n <= |moves|
    requires forall l: nat | i <= l < i + n :: TouchesRing(states, moves, l)
    ensures IsRun(Ring.Init, Ring.Next, rs, rm) && |rm| >= n
    ensures forall l: nat | i <= l <= i + n :: rs[|rm| - (i + n - l)] == states[l].ring
    ensures forall l: nat | i <= l < i + n :: rm[|rm| - (i + n - l)] == RingMoveAt(states, moves, l)
    decreases i + n
  {
    hide Init, Next, RingMove, Ring.Init, Ring.Next;
    if i + n == 0 {
      StartsAsRing(states, moves);
      rs, rm := [states[0].ring], [];
    } else {
      var last := i + n - 1;
      RingMovesAlong(states, moves, last);
      if n > 0 {
        rs, rm := RingRun(states, moves, i, n - 1);
      } else {
        rs, rm := RingRun(states, moves, i - 1, 0);
      }
      if TouchesRing(states, moves, last) {
        Extend(Ring.Init, Ring.Next, rs, rm, RingMoveAt(states, moves, last), states[last + 1].ring);
        rs, rm := rs + [states[last + 1].ring], rm + [RingMoveAt(states, moves, last)];
      }
    }
  }

  lemma StartsAsRing(states: seq<State>, moves: seq<Move>)
    requires IsRun(Init, Next, states, moves)
    ensures Ring.Init(states[0].ring)
  {
  }

  /** `n` moves of one thread that all make the same access to the buffer. */
  ghost predicate RingRow(states: seq<State>, moves: seq<Move>, i: nat, n: nat, m: Ring.Move) {
    forall l: nat | i <= l < i + n :: TouchesRing(states, moves, l) && RingMoveAt(states, moves, l) == m
  }

  lemma RowGrows(states: seq<State>, moves: seq<Move>, i: nat, n: nat, m: Ring.Move)
    requires (n == 0 || RingRow(states, moves, i, n, m)) && TouchesRing(states, moves, i + n)
    requires RingMoveAt(states, moves, i + n) == m
    ensures RingRow(states, moves, i, n + 1, m)
  {
    hide TouchesRing, RingMoveAt;
    forall l: nat | i <= l < i + n + 1 ensures TouchesRing(states, moves, l) && RingMoveAt(states, moves, l) == m {
      assert l < i + n || l == i + n;
    }
  }

  lemma RingRunAlone(states: seq<State>, moves: seq<Move>, i: nat, n: nat, m: Ring.Move)
      returns (rs: seq<Ring.State>, rm: seq<Ring.Move>, k: nat)
    requires IsRun(Init, Next, states, moves) && i + n <= |moves| && RingRow(states, moves, i, n, m)
    ensures IsRun(Ring.Init, Ring.Next, rs, rm) && k + n == |rm| && InARow(rm, k, n, m)
    ensures rs[k] == states[i].ring && rs[k + n] == states[i + n].ring
  {
    hide Init, Next, RingMove, Ring.Init, Ring.Next;
    rs, rm := RingRun(states, moves, i, n);
    k := |rm| - n;
    forall l | k <= l < k + n ensures rm[l] == m {
      assert rm[|rm| - (i + n - (i + l - k))] == RingMoveAt(states, moves, i + l - k);
    }
  }

  lemma RingMovesAlong(states: seq<State>, moves: seq<Move>, l: nat)
    requires IsRun(Init, Next, states, moves) && l < |moves|
    ensures moves[l].t in states[l].pcs
    ensures if TouchesRing(states, moves, l)
            then Ring.Next(states[l].ring, RingMoveAt(states, moves, l), states[l + 1].ring)
            else states[l + 1].ring == states[l].ring
  {
    NextAt(Init, Next, states, moves, l);
    RingFollows(states[l], moves[l]);
    hide Step;
  }

  lemma MoveAt(states: seq<State>, moves: seq<Move>, i: nat)
    requires IsRun(Init, Next, states, moves) && i < |moves|
    ensures Enabled(states[i], moves[i]) && states[i + 1] == Step(states[i], moves[i])
  {
    NextAt(Init, Next, states, moves, i);
  }

  /** A thread outside the channel is outside its buffer. */
  lemma OutsideIsAtRest(states: seq<State>, moves: seq<Move>, i: nat, t: Tid)
    requires IsRun(Init, Next, states, moves) && i < |states| && t in states[i].pcs
    ensures t in states[i].ring.pcs
    ensures states[i].pcs[t].Idle? || states[i].pcs[t].RecvCheck? ==> Ring.AtRest(states[i].ring.pcs[t])
    ensures states[i].receiverAlive <==> states[i].receiverState != RECEIVER_GONE
  {
    ReachableInv(states, moves, i);
    assert Fits(states[i].pcs[t], states[i].ring.pcs[t]);
  }

  /** A new round of `send` to a receiver that is there goes back into the buffer. */
  lemma SendStartsOver(states: seq<State>, moves: seq<Move>, i: nat)
    requires IsRun(Init, Next, states, moves) && i < |moves| && moves[i].Send?
    requires moves[i].t in states[i].pcs && states[i].pcs[moves[i].t].SendCheck? && states[i].receiverAlive
    ensures states[i + 1].ring == states[i].ring
    ensures At(states[i + 1], moves[i].t, SendPush(moves[i].h, states[i].pcs[moves[i].t].m, false))
  {
    OutsideIsAtRest(states, moves, i, moves[i].t);
    MoveAt(states, moves, i);
    hide Init, Next, Ring.Enabled, ReceiverFree;
  }

  /** The first access of a send to a receiver that is there. */
  lemma SendStarts(states: seq<State>, moves: seq<Move>, i: nat)
    requires IsRun(Init, Next, states, moves) && i < |moves| && moves[i].Send?
    requires moves[i].t in states[i].pcs && states[i].pcs[moves[i].t].Idle? && states[i].receiverAlive
    ensures var s, s', m := states[i], states[i + 1], moves[i];
      && m.t in s.ring.pcs && Ring.AtRest(s.ring.pcs[m.t]) && s'.ring == s.ring
      && m.t in s'.pcs && s'.pcs[m.t] == SendPush(m.h, m.m, m.once)
  {
    OutsideIsAtRest(states, moves, i, moves[i].t);
    MoveAt(states, moves, i);
    hide Init, Next, Ring.Enabled, ReceiverFree;
  }

  /** An access of a send inside the buffer. */
  lemma PushAccess(states: seq<State>, moves: seq<Move>, i: nat)
    requires IsRun(Init, Next, states, moves) && i < |moves| && moves[i].Send?
    requires moves[i].t in states[i].pcs && states[i].pcs[moves[i].t].SendPush?
    ensures TouchesRing(states, moves, i)
    ensures var s, s', m := states[i], states[i + 1], moves[i]; var pc := s.pcs[m.t];
      && RingMoveAt(states, moves, i) == Ring.Push(m.t, pc.m, pc.once, m.spurious)
      && m.t in s'.pcs && m.t in s'.ring.pcs
      && s'.pcs[m.t] == match s'.ring.pcs[m.t]
         case Pushed => NotifyLoad(m.h)
         case Refused(v) => if pc.once then Idle(BufferFull(v)) else RetryLoad(m.h, v)
         case _ => pc
  {
    NextAt(Init, Next, states, moves, i);
    hide Ring.Enabled, Ring.StepPush, Sends;
  }

  /** From state `i` on, a send to a receiver that is there goes undisturbed for `n` accesses of the buffer. */
  ghost predicate SendsAlone(states: seq<State>, moves: seq<Move>, i: nat, n: nat, pc: Pc, t: Tid, woken: Tid)
    requires pc.SendPush?
  {
    && IsRun(Init, Next, states, moves) && InARow(moves, i, n + 1, Send(t, pc.h, pc.m, pc.once, false, woken))
    && t in states[i].pcs && states[i].pcs[t].Idle? && states[i].receiverAlive
  }

  ghost predicate At(s: State, t: Tid, pc: Pc) {
    t in s.pcs && s.pcs[t] == pc
  }

  /** It stays inside the buffer at least until its third access. */
  lemma SendInside(states: seq<State>, moves: seq<Move>, i: nat, pc: Pc, t: Tid, woken: Tid)
    requires pc.SendPush? && SendsAlone(states, moves, i, 2, pc, t, woken)
    ensures t in states[i].ring.pcs && Ring.AtRest(states[i].ring.pcs[t]) && states[i + 1].ring == states[i].ring
    ensures At(states[i + 1], t, pc) && At(states[i + 2], t, pc)
    ensures RingRow(states, moves, i + 1, 2, Ring.Push(t, pc.m, pc.once, false))
  {
    SendStarts(states, moves, i);
    assert |states| == |moves| + 1;
    hide IsRun, Init, Next, RingMove, RingRow, TouchesRing, RingMoveAt;
    PushAccess(states, moves, i + 1);
    RowGrows(states, moves, i + 1, 0, Ring.Push(t, pc.m, pc.once, false));
    var rs, rm, k := RingRunAlone(states, moves, i + 1, 1, Ring.Push(t, pc.m, pc.once, false));
    RingCalls.PushStarts(rs, rm, k);
    PushAccess(states, moves, i + 2);
    RowGrows(states, moves, i + 1, 1, Ring.Push(t, pc.m, pc.once, false));
  }

  /** The send at `pc` goes on if there is room; if not, it returns its message or prepares to sleep. */
  ghost predicate RefusedIffFull(s: State, pc: Pc, t: Tid, s': State)
    requires pc.SendPush?
  {
    && Ring.Queue(s'.ring) == Ring.Queue(s.ring)
    && At(s', t, if |Ring.Queue(s.ring)| < |s.ring.slots| then pc
                 else if pc.once then Idle(BufferFull(pc.m)) else RetryLoad(pc.h, pc.m))
  }

  /**
   An undisturbed send finds out with its third access whether the buffer is full: then `try_send` hands
   the message back and `send` prepares to sleep, and otherwise it goes on.
   */
  lemma SendAloneRefusedIffFull(states: seq<State>, moves: seq<Move>, i: nat, pc: Pc, t: Tid, woken: Tid)
    requires pc.SendPush? && SendsAlone(states, moves, i, 2, pc, t, woken) && Ring.Bounded(states[i].ring)
    ensures RefusedIffFull(states[i], pc, t, states[i + 3])
  {
    SendInside(states, moves, i, pc, t, woken);
    assert |states| == |moves| + 1;
    hide IsRun, Init, Next, RingMove, RingRow, TouchesRing, RingMoveAt, Ring.Init, Ring.Next, Ring.Queue, Ring.AtRest;
    var rs, rm, k := RingRunAlone(states, moves, i + 1, 2, Ring.Push(t, pc.m, pc.once, false));
    RingCalls.PushAloneRefusedIffFull(rs, rm, k, t, pc.m, pc.once);
    PushAccess(states, moves, i + 2);
  }

  /** The accesses of a send that finds room. */
  lemma RoomInside(states: seq<State>, moves: seq<Move>, i: nat, pc: Pc, t: Tid, woken: Tid)
    requires pc.SendPush? && SendsAlone(states, moves, i, 4, pc, t, woken)
    requires |states[i].ring.claimed| < USIZE_MAX && |Ring.Queue(states[i].ring)| < |states[i].ring.slots|
    ensures At(states[i + 4], t, pc) && RingRow(states, moves, i + 1, 4, Ring.Push(t, pc.m, pc.once, false))
  {
    SendInside(states, moves, i, pc, t, woken);
    SendAloneRefusedIffFull(states, moves, i, pc, t, woken);
    assert |states| == |moves| + 1;
    hide IsRun, Init, Next, RingMove, RingRow, TouchesRing, RingMoveAt, Ring.Init, Ring.Next, Ring.Queue, Ring.AtRest;
    PushAccess(states, moves, i + 3);
    RowGrows(states, moves, i + 1, 2, Ring.Push(t, pc.m, pc.once, false));
    var rs, rm, k := RingRunAlone(states, moves, i + 1, 3, Ring.Push(t, pc.m, pc.once, false));
    RingCalls.PushAloneClaims(rs, rm, k, t, pc.m, pc.once);
    PushAccess(states, moves, i + 4);
    RowGrows(states, moves, i + 1, 3, Ring.Push(t, pc.m, pc.once, false));
  }

  /** ... so that, unless the buffer is full, its message is last in the buffer after five. */
  lemma SendAloneAppends(states: seq<State>, moves: seq<Move>, i: nat, pc: Pc, t: Tid, woken: Tid)
    requires pc.SendPush? && SendsAlone(states, moves, i, 4, pc, t, woken)
    requires |states[i].ring.claimed| < USIZE_MAX && |Ring.Queue(states[i].ring)| < |states[i].ring.slots|
    ensures At(states[i + 5], t, NotifyLoad(pc.h))
    ensures Ring.Queue(states[i + 5].ring) == Ring.Queue(states[i].ring) + [pc.m]
  {
    SendInside(states, moves, i, pc, t, woken);
    RoomInside(states, moves, i, pc, t, woken);
    assert |states| == |moves| + 1;
    hide IsRun, Init, Next, RingMove, RingRow, TouchesRing, RingMoveAt, Ring.Init, Ring.Next, Ring.Queue, Ring.AtRest;
    var rs, rm, k := RingRunAlone(states, moves, i + 1, 4, Ring.Push(t, pc.m, pc.once, false));
    RingCalls.PushAloneAppends(rs, rm, k, t, pc.m, pc.once);
    PushAccess(states, moves, i + 4);
  }

  /** A sleeper that is woken starts over: a receiver looks for senders, a sender for the receiver. */
  function Resumed(pc: Pc): Pc {
    if pc.RecvAsleep? then RecvCheck else if pc.SendAsleep? then SendCheck(pc.h, pc.m) else pc
  }

  /** So does one the futex lets go for no reason. */
  lemma SpuriousWakeResumes(states: seq<State>, moves: seq<Move>, i: nat)
    requires IsRun(Init, Next, states, moves) && i < |moves| && moves[i].SpuriousWake?
    ensures moves[i].t in states[i].pcs
    ensures states[i + 1] == Goto(states[i], moves[i].t, Resumed(states[i].pcs[moves[i].t]))
  {
    MoveAt(states, moves, i);
  }

  predicate ReceiverSleeps(pc: Pc) { pc.RecvAsleep? }
  predicate SenderSleeps(pc: Pc) { pc.SendAsleep? }

  /**
   A send with its message in the buffer is done iff the receiver is not declared asleep; else it
   declares it awake and wakes it.
   */
  lemma SendNotifiesIff(states: seq<State>, moves: seq<Move>, i: nat)
    requires IsRun(Init, Next, states, moves) && i < |moves| && moves[i].Send?
    ensures var s, s', t, h := states[i], states[i + 1], moves[i].t, moves[i].h;
      && t in s.pcs && t in s'.pcs
      && (s.pcs[t].NotifyLoad? ==>
            && s'.receiverState == s.receiverState
            && s'.pcs[t] == if s.receiverState == RECEIVER_AWAKE then Idle(Sent) else NotifyCas(h))
      && (s.pcs[t].NotifyCas? ==>
            if s.receiverState == RECEIVER_ASLEEP then s'.receiverState == RECEIVER_AWAKE && s'.pcs[t] == NotifyWake(h)
            else s'.receiverState == s.receiverState && s'.pcs[t] == Idle(Sent))
      && (s.pcs[t].NotifyWake? ==> OneWoken(s.pcs, s'.pcs, t, Idle(Sent), ReceiverSleeps, Resumed))
  {
    NextAt(Init, Next, states, moves, i);
    hide Ring.Enabled, Ring.StepPush, Sends, StepPush;
    var s, s', m := states[i], states[i + 1], moves[i];
    if s.pcs[m.t].NotifyWake? && SomeoneSleeps(s.pcs, ReceiverSleeps) {
      var u :| u in s.pcs && ReceiverSleeps(s.pcs[u]);
      assert s.pcs[u].RecvAsleep?;
      assert IsWoken(s.pcs, s'.pcs, m.woken, ReceiverSleeps, Resumed);
      assert NobodyElse(s.pcs, s'.pcs, m.t, m.woken);
    }
  }

  /** The access in which a `recv` that has a message increments `sender_wait_num`. */
  ghost predicate Bumps(s: State, m: Move) {
    m.Recv? && m.t in s.pcs && s.pcs[m.t].RecvBump?
  }

  lemma WaitNumCountsReceives(states: seq<State>, moves: seq<Move>, a: nat, b: nat)
    requires IsRun(Init, Next, states, moves) && a <= b < |states|
    ensures MovesBetween(Bumps, states, moves, a, b) >= 0
    ensures states[a].senderWaitNum == states[b].senderWaitNum <==>
            MovesBetween(Bumps, states, moves, a, b) % U32_RANGE == 0
  {
    hide Step, Enabled, Bumps;
    forall s, m, s' | Next(s, m, s')
      ensures s'.senderWaitNum == if Bumps(s, m) then (s.senderWaitNum + 1) % U32_RANGE else s.senderWaitNum
    {
      OnlyReceivesBump(s, m);
    }
    SameWordLaw(Init, Next, (s: State) => s.senderWaitNum, Bumps, states, moves, a, b);
  }

  lemma OnlyReceivesBump(s: State, m: Move)
    requires Enabled(s, m)
    ensures Step(s, m).senderWaitNum == if Bumps(s, m) then (s.senderWaitNum + 1) % U32_RANGE else s.senderWaitNum
  {
    hide Ring.Enabled, Ring.StepPush, Ring.StepPop, GoodPick, ReceiverFree;
  }

  /** Thread `t` loaded `sender_wait_num` in move `a` and is about to wait for it to change in state `b`. */
  ghost predicate WaitsSince(states: seq<State>, moves: seq<Move>, a: nat, b: nat, t: Tid) {
    && a < b < |states| && |states| == |moves| + 1
    && moves[a].Send? && moves[a].t == t && t in states[a].pcs && states[a].pcs[t].RetryLoad?
    && forall l | a < l <= b :: t in states[l].pcs && states[l].pcs[t].RetryWait?
  }

  lemma {:induction false} SnapshotStays(states: seq<State>, moves: seq<Move>, a: nat, b: nat, t: Tid)
    requires IsRun(Init, Next, states, moves) && WaitsSince(states, moves, a, b, t)
    ensures states[b].pcs[t].seen == states[a].senderWaitNum
    decreases b
  {
    MoveAt(states, moves, b - 1);
    assert |states| == |moves| + 1;
    hide IsRun, Init, Next, Step, Enabled;
    if a < b - 1 {
      SnapshotStays(states, moves, a, b - 1, t);
      StepKeepsSnapshot(states[b - 1], moves[b - 1], t);
    } else {
      RetryLoads(states[a], moves[a]);
    }
  }

  lemma RetryLoads(s: State, m: Move)
    requires Enabled(s, m) && m.Send? && m.t in s.pcs && s.pcs[m.t].RetryLoad?
    ensures m.t in Step(s, m).pcs && Step(s, m).pcs[m.t] == RetryWait(m.h, s.pcs[m.t].m, s.senderWaitNum)
  {
  }

  lemma StepKeepsSnapshot(s: State, m: Move, t: Tid)
    requires Enabled(s, m) && t in s.pcs && s.pcs[t].RetryWait?
    requires t in Step(s, m).pcs && Step(s, m).pcs[t].RetryWait?
    ensures Step(s, m).pcs[t].seen == s.pcs[t].seen
  {
    hide Ring.Enabled, Ring.StepPush, Ring.StepPop, GoodPick, ReceiverFree;
  }

  /** Where a `send` about to wait goes: to sleep, or to another round. */
  function WaitEnd(pc: Pc, sleeps: bool): Pc
    requires pc.RetryWait?
  {
    if sleeps then SendAsleep(pc.h, pc.m) else SendCheck(pc.h, pc.m)
  }

  /**
   A `send` that found the buffer full falls asleep iff the number of messages taken by `recv` since its
   load is a multiple of 2^32; otherwise it looks again.
   */
  lemma SenderSleepsIff(states: seq<State>, moves: seq<Move>, a: nat, b: nat, t: Tid)
    requires IsRun(Init, Next, states, moves) && WaitsSince(states, moves, a, b, t)
    requires b < |moves| && moves[b].Send? && moves[b].t == t
    ensures MovesBetween(Bumps, states, moves, a, b) >= 0
    ensures var sleeps := MovesBetween(Bumps, states, moves, a, b) % U32_RANGE == 0;
      At(states[b + 1], t, WaitEnd(states[b].pcs[t], sleeps))
  {
    SnapshotStays(states, moves, a, b, t);
    WaitEnds(states, moves, b, t);
    WaitNumCountsReceives(states, moves, a, b);
    hide IsRun, Init, Next, Bumps, WaitsSince, MovesBetween;
  }

  lemma WaitEnds(states: seq<State>, moves: seq<Move>, b: nat, t: Tid)
    requires IsRun(Init, Next, states, moves) && b < |moves| && moves[b].Send? && moves[b].t == t
    requires t in states[b].pcs && states[b].pcs[t].RetryWait?
    ensures At(states[b + 1], t, WaitEnd(states[b].pcs[t], states[b].senderWaitNum == states[b].pcs[t].seen))
  {
    NextAt(Init, Next, states, moves, b);
  }

  /** `recv` starts its last attempt iff no sender, and no panicked clone, is counted. */
  lemma RecvGivesUpIff(states: seq<State>, moves: seq<Move>, i: nat)
    requires IsRun(Init, Next, states, moves) && i < |moves| && moves[i].Recv? && states[i].lost < MAX_SENDER_COUNT
    requires var t := moves[i].t; t in states[i].pcs && (states[i].pcs[t].Idle? || states[i].pcs[t].RecvCheck?)
    ensures states[i + 1].ring == states[i].ring
    ensures At(states[i + 1], moves[i].t, if states[i].senders == {} && states[i].lost == 0 then RecvFinal else RecvPop)
  {
    MoveAt(states, moves, i);
    CountedAt(states, moves, i);
    hide IsRun, Init, Next, Ring.Enabled, Ring.StepPop, StepPop, ReceiverFree;
  }

  /** With the buffer empty it declares itself asleep, and falls asleep iff nobody has declared it awake since. */
  lemma RecvSleepsIff(states: seq<State>, moves: seq<Move>, i: nat)
    requires IsRun(Init, Next, states, moves) && i < |moves| && moves[i].Recv?
    ensures var s, s', t := states[i], states[i + 1], moves[i].t;
      && t in s.pcs
      && (s.pcs[t].RecvStore? ==> s'.receiverState == RECEIVER_ASLEEP && At(s', t, RecvWait))
      && (s.pcs[t].RecvWait? ==>
            && s'.receiverState == s.receiverState
            && At(s', t, if s.receiverState == RECEIVER_ASLEEP then RecvAsleep else RecvCheck))
  {
    MoveAt(states, moves, i);
    hide IsRun, Init, Next, Ring.Enabled, Ring.StepPop, StepPop, ReceiverFree;
  }

  /** With a message it tells the senders, wakes exactly one of those asleep, if any, and returns it. */
  lemma RecvWakesOne(states: seq<State>, moves: seq<Move>, i: nat)
    requires IsRun(Init, Next, states, moves) && i < |moves| && moves[i].Recv?
    ensures var s, s', t := states[i], states[i + 1], moves[i].t;
      && t in s.pcs
      && (s.pcs[t].RecvBump? ==> At(s', t, RecvWake(s.pcs[t].slot)))
      && (s.pcs[t].RecvWake? ==> OneWoken(s.pcs, s'.pcs, t, Idle(Received(s.pcs[t].slot)), SenderSleeps, Resumed))
  {
    MoveAt(states, moves, i);
    hide IsRun, Init, Next, Ring.Enabled, Ring.StepPop, Receives, StepPop, ReceiverFree;
    var s, s', m := states[i], states[i + 1], moves[i];
    if s.pcs[m.t].RecvWake? && SomeoneSleeps(s.pcs, SenderSleeps) {
      var u :| u in s.pcs && SenderSleeps(s.pcs[u]);
      assert s.pcs[u].SendAsleep?;
      assert IsWoken(s.pcs, s'.pcs, m.woken, SenderSleeps, Resumed);
      assert NobodyElse(s.pcs, s'.pcs, m.t, m.woken);
    }
  }

  lemma CountedAt(states: seq<State>, moves: seq<Move>, i: nat)
    requires IsRun(Init, Next, states, moves) && i < |states|
    ensures states[i].lost < MAX_SENDER_COUNT ==>
              && states[i].sendersCount == |states[i].senders| + states[i].lost
              && (states[i].sendersCount == 0 <==> states[i].senders == {} && states[i].lost == 0)
  {
    ReachableInv(states, moves, i);
  }

  /** An access of a receive inside the buffer. */
  lemma PopAccess(states: seq<State>, moves: seq<Move>, i: nat)
    requires IsRun(Init, Next, states, moves) && i < |moves| && (moves[i].Recv? || moves[i].TryRecv?)
    requires moves[i].t in states[i].pcs
    requires var pc := states[i].pcs[moves[i].t];
      if moves[i].Recv? then pc.RecvFinal? || pc.RecvPop? else pc.Idle? || pc.TryRecvPop?
    ensures TouchesRing(states, moves, i)
    ensures var s, s', m := states[i], states[i + 1], moves[i];
      var pc := if m.Recv? then s.pcs[m.t] else TryRecvPop;
      && RingMoveAt(states, moves, i) == Ring.Pop(m.t, !pc.RecvPop?, m.spurious)
      && m.t in s'.pcs && m.t in s'.ring.pcs
      && s'.pcs[m.t] == match s'.ring.pcs[m.t]
         case Popped(slot) => if pc.RecvPop? then RecvBump(slot) else Idle(Received(slot))
         case Nothing => if pc.RecvFinal? then Idle(SendersGone) else if pc.RecvPop? then RecvStore else TryRecvCheck
         case _ => pc
  {
    NextAt(Init, Next, states, moves, i);
    hide Ring.Enabled, Ring.StepPop, Receives, ReceiverFree;
  }

  /** From state `i` on, a receive starts `n` accesses of the buffer at `pc`, and nobody disturbs it. */
  ghost predicate ReceivesAlone(states: seq<State>, moves: seq<Move>, i: nat, n: nat, m: Move, pc: Pc) {
    && IsRun(Init, Next, states, moves) && InARow(moves, i, n, m) && Ring.Bounded(states[i].ring)
    && m.t in states[i].pcs && m.t in states[i].ring.pcs && Ring.AtRest(states[i].ring.pcs[m.t])
    && match m
       case Recv(t, spurious, _) => !spurious && (pc.RecvFinal? || pc.RecvPop?) && states[i].pcs[t] == pc
       case TryRecv(t, spurious) => !spurious && pc.TryRecvPop? && states[i].pcs[t].Idle?
       case _ => false
  }

  /** It stays inside the buffer at least until its second access. */
  lemma PopInside(states: seq<State>, moves: seq<Move>, i: nat, m: Move, pc: Pc)
    requires ReceivesAlone(states, moves, i, 2, m, pc)
    ensures At(states[i + 1], m.t, pc) && RingRow(states, moves, i, 2, Ring.Pop(m.t, !pc.RecvPop?, false))
  {
    assert |states| == |moves| + 1;
    hide IsRun, Init, Next, RingMove, RingRow, TouchesRing, RingMoveAt;
    PopAccess(states, moves, i);
    RowGrows(states, moves, i, 0, Ring.Pop(m.t, !pc.RecvPop?, false));
    var rs, rm, k := RingRunAlone(states, moves, i, 1, Ring.Pop(m.t, !pc.RecvPop?, false));
    RingCalls.PopStarts(rs, rm, k);
    PopAccess(states, moves, i + 1);
    RowGrows(states, moves, i, 1, Ring.Pop(m.t, !pc.RecvPop?, false));
  }

  /** What becomes of a receive that finds the buffer empty: `recv` may sleep, `try_recv` has to look for senders. */
  function Missed(pc: Pc): Pc {
    if pc.RecvFinal? then Idle(SendersGone) else if pc.RecvPop? then RecvStore else TryRecvCheck
  }

  /** An undisturbed receive finds out with two accesses of the buffer whether that is empty. */
  lemma PopAloneMissesIffEmpty(states: seq<State>, moves: seq<Move>, i: nat, m: Move, pc: Pc)
    requires ReceivesAlone(states, moves, i, 2, m, pc)
    ensures Ring.Queue(states[i + 2].ring) == Ring.Queue(states[i].ring)
    ensures At(states[i + 2], m.t, if Ring.Queue(states[i].ring) == [] then Missed(pc) else pc)
  {
    PopInside(states, moves, i, m, pc);
    assert |states| == |moves| + 1;
    hide IsRun, Init, Next, RingMove, RingRow, TouchesRing, RingMoveAt, Ring.Queue, Ring.AtRest;
    var rs, rm, k := RingRunAlone(states, moves, i, 2, Ring.Pop(m.t, !pc.RecvPop?, false));
    RingCalls.PopAloneNothingIffEmpty(rs, rm, k, m.t, !pc.RecvPop?);
    PopAccess(states, moves, i + 1);
  }

  lemma ReadInside(states: seq<State>, moves: seq<Move>, i: nat, m: Move, pc: Pc)
    requires ReceivesAlone(states, moves, i, 4, m, pc) && Ring.Queue(states[i].ring) != []
    ensures At(states[i + 3], m.t, pc) && RingRow(states, moves, i, 3, Ring.Pop(m.t, !pc.RecvPop?, false))
  {
    PopInside(states, moves, i, m, pc);
    PopAloneMissesIffEmpty(states, moves, i, m, pc);
    assert |states| == |moves| + 1;
    hide IsRun, Init, Next, RingMove, RingRow, TouchesRing, RingMoveAt, Ring.Queue, Ring.AtRest;
    PopAccess(states, moves, i + 2);
    RowGrows(states, moves, i, 2, Ring.Pop(m.t, !pc.RecvPop?, false));
    var rs, rm, k := RingRunAlone(states, moves, i, 3, Ring.Pop(m.t, !pc.RecvPop?, false));
    RingCalls.PopAloneReads(rs, rm, k, m.t, !pc.RecvPop?);
  }

  lemma TakeInside(states: seq<State>, moves: seq<Move>, i: nat, m: Move, pc: Pc)
    requires ReceivesAlone(states, moves, i, 4, m, pc) && Ring.Queue(states[i].ring) != []
    ensures RingRow(states, moves, i, 4, Ring.Pop(m.t, !pc.RecvPop?, false))
  {
    ReadInside(states, moves, i, m, pc);
    PopTouches(states, moves, i + 3, m, pc);
    hide IsRun, Init, Next, RingMove, RingRow, TouchesRing, RingMoveAt, Ring.Queue, Ring.AtRest;
    RowGrows(states, moves, i, 3, Ring.Pop(m.t, !pc.RecvPop?, false));
  }

  lemma PopTouches(states: seq<State>, moves: seq<Move>, l: nat, m: Move, pc: Pc)
    requires l < |moves| && l < |states| && moves[l] == m && At(states[l], m.t, pc) && (m.Recv? || m.TryRecv?)
    requires if m.Recv? then pc.RecvFinal? || pc.RecvPop? else pc.TryRecvPop?
    ensures TouchesRing(states, moves, l) && RingMoveAt(states, moves, l) == Ring.Pop(m.t, !pc.RecvPop?, m.spurious)
  {
  }

  /** The receive at `pc` has taken the first message: `recv` goes on to tell the senders, the others return it. */
  ghost predicate TakesFirst(s: State, pc: Pc, t: Tid, s': State) {
    && |s'.ring.taken| == |s.ring.taken| + 1 && s'.ring.taken[..|s.ring.taken|] == s.ring.taken
    && At(s', t, if pc.RecvPop? then RecvBump(s'.ring.taken[|s.ring.taken|])
                 else Idle(Received(s'.ring.taken[|s.ring.taken|])))
    && |Ring.Queue(s.ring)| > 0 && Ring.Queue(s'.ring) == Ring.Queue(s.ring)[1..]
  }

  /** ... and unless it is empty has taken the first message with four. */
  lemma PopAloneTakes(states: seq<State>, moves: seq<Move>, i: nat, m: Move, pc: Pc)
    requires ReceivesAlone(states, moves, i, 4, m, pc) && Ring.Queue(states[i].ring) != []
    ensures TakesFirst(states[i], pc, m.t, states[i + 4])
  {
    ReadInside(states, moves, i, m, pc);
    TakeInside(states, moves, i, m, pc);
    assert |states| == |moves| + 1;
    hide IsRun, Init, Next, RingMove, RingRow, TouchesRing, RingMoveAt, Ring.Queue, Ring.AtRest;
    var rs, rm, k := RingRunAlone(states, moves, i, 4, Ring.Pop(m.t, !pc.RecvPop?, false));
    RingCalls.PopAloneRemoves(rs, rm, k, m.t, !pc.RecvPop?);
    PopAccess(states, moves, i + 3);
  }

  /** From state `i` on, a `recv` goes undisturbed for `n` accesses. */
  ghost predicate RecvsAlone(states: seq<State>, moves: seq<Move>, i: nat, n: nat, m: Move) {
    && IsRun(Init, Next, states, moves) && InARow(moves, i, n, m) && m.Recv? && !m.spurious && Within(states[i])
    && m.t in states[i].pcs && (states[i].pcs[m.t].Idle? || states[i].pcs[m.t].RecvCheck?)
  }

  lemma RecvStarts(states: seq<State>, moves: seq<Move>, i: nat, n: nat, m: Move)
    requires RecvsAlone(states, moves, i, n + 1, m)
    ensures states[i + 1].ring == states[i].ring
    ensures var final := states[i].senders == {} && states[i].lost == 0;
      ReceivesAlone(states, moves, i + 1, n, m, if final then RecvFinal else RecvPop)
  {
    assert moves[i] == m;
    OutsideIsAtRest(states, moves, i, m.t);
    RecvGivesUpIff(states, moves, i);
    hide Init, Next, Ring.AtRest;
  }

  /** An undisturbed `recv` beside a sender is asleep after five accesses if the buffer is empty ... */
  lemma RecvAloneSleeps(states: seq<State>, moves: seq<Move>, i: nat, m: Move)
    requires RecvsAlone(states, moves, i, 5, m) && states[i].senders != {} && Ring.Queue(states[i].ring) == []
    ensures At(states[i + 5], m.t, RecvAsleep) && states[i + 5].receiverState == RECEIVER_ASLEEP
  {
    RecvStarts(states, moves, i, 2, m);
    assert |states| == |moves| + 1;
    assert moves[i + 3] == moves[i + 4] == m;
    PopAloneMissesIffEmpty(states, moves, i + 1, m, RecvPop);
    hide RecvsAlone, ReceivesAlone, IsRun, Init, Next;
    RecvSleepsIff(states, moves, i + 3);
    RecvSleepsIff(states, moves, i + 4);
  }

  /** ... and otherwise has the first message after five, and returns it with the seventh. */
  lemma RecvAloneTakes(states: seq<State>, moves: seq<Move>, i: nat, m: Move)
    requires RecvsAlone(states, moves, i, 7, m) && states[i].senders != {} && Ring.Queue(states[i].ring) != []
    ensures TakesFirst(states[i], RecvPop, m.t, states[i + 5])
    ensures At(states[i + 7], m.t, Idle(Received(states[i + 5].ring.taken[|states[i].ring.taken|])))
  {
    RecvStarts(states, moves, i, 4, m);
    assert |states| == |moves| + 1;
    assert moves[i + 5] == moves[i + 6] == m;
    PopAloneTakes(states, moves, i + 1, m, RecvPop);
    hide RecvsAlone, ReceivesAlone, IsRun, Init, Next;
    RecvWakesOne(states, moves, i + 5);
    RecvWakesOne(states, moves, i + 6);
  }

  /** Without senders an undisturbed `recv` answers Disconnected after three accesses iff the buffer is empty. */
  lemma RecvAloneDisconnects(states: seq<State>, moves: seq<Move>, i: nat, m: Move)
    requires RecvsAlone(states, moves, i, 5, m) && states[i].senders == {} && states[i].lost == 0
    ensures Ring.Queue(states[i].ring) == [] ==> At(states[i + 3], m.t, Idle(SendersGone))
    ensures Ring.Queue(states[i].ring) != [] ==> TakesFirst(states[i], RecvFinal, m.t, states[i + 5])
  {
    RecvStarts(states, moves, i, 4, m);
    RecvStarts(states, moves, i, 2, m);
    hide RecvsAlone, IsRun, Init, Next;
    if Ring.Queue(states[i].ring) == [] {
      PopAloneMissesIffEmpty(states, moves, i + 1, m, RecvFinal);
    } else {
      PopAloneTakes(states, moves, i + 1, m, RecvFinal);
    }
  }

  /** An undisturbed `try_recv` takes the first message; with none there it tells whether there are senders. */
  lemma TryRecvAlone(states: seq<State>, moves: seq<Move>, i: nat, m: Move)
    requires IsRun(Init, Next, states, moves) && InARow(moves, i, 4, m) && m.TryRecv? && !m.spurious
    requires m.t in states[i].pcs && states[i].pcs[m.t].Idle? && Within(states[i])
    ensures Ring.Queue(states[i].ring) == [] ==> m.t in states[i + 2].pcs && states[i + 2].pcs[m.t].TryRecvCheck?
    ensures Ring.Queue(states[i].ring) != [] ==> TakesFirst(states[i], TryRecvPop, m.t, states[i + 4])
  {
    OutsideIsAtRest(states, moves, i, m.t);
    assert |states| == |moves| + 1;
    hide Init, Next, Ring.Queue, Ring.AtRest;
    if Ring.Queue(states[i].ring) == [] {
      PopAloneMissesIffEmpty(states, moves, i, m, TryRecvPop);
    } else {
      PopAloneTakes(states, moves, i, m, TryRecvPop);
    }
  }

  /** The count of senders is exact up to multiples of 2^64, whatever clones have panicked. */
  ghost predicate SendersCounted(s: State) {
    s.sendersCount == (|s.senders| + s.lost) % USIZE_RANGE
  }

  lemma SendersAreCounted(states: seq<State>, moves: seq<Move>, i: nat)
    requires IsRun(Init, Next, states, moves) && i < |states|
    ensures SendersCounted(states[i])
  {
    forall s, m, s' | SendersCounted(s) && Next(s, m, s') ensures SendersCounted(s') {
      StepCountsSenders(s, m);
    }
    Invariance(Init, Next, SendersCounted, states, moves, i);
  }

  lemma StepCountsSenders(s: State, m: Move)
    requires SendersCounted(s) && Enabled(s, m)
    ensures SendersCounted(Step(s, m))
  {
    hide SendersCounted, GoodPick, ReceiverFree, Ring.Enabled, StepSend, StepRecv, StepTryRecv, Wake, SenderOf;
    match m
    case CloneSender(t, h, name) => HandlesAreCounted(s, m);
    case DropSender(t, h) => HandlesAreCounted(s, m);
    case DropReceiver(t) => HandlesAreCounted(s, m);
    case _ => SameCount(s, Step(s, m));
  }

  lemma SameCount(s: State, s': State)
    requires SendersCounted(s) && s'.senders == s.senders && s'.lost == s.lost && s'.sendersCount == s.sendersCount
    ensures SendersCounted(s')
  {
  }

  lemma HandlesAreCounted(s: State, m: Move)
    requires SendersCounted(s) && Enabled(s, m) && (m.CloneSender? || m.DropSender? || m.DropReceiver?)
    ensures SendersCounted(StepHandles(s, m))
  {
    var n, s' := |s.senders| + s.lost, StepHandles(s, m);
    OneMoreOrLess(n);
    hide SendersCounted, Ring.Enabled, GoodPick, ReceiverFree, SenderOf, AddUsize, SubUsize;
    if m.DropSender? {
      assert s.senders == s.senders - {m.h} + {m.h};
      CountIs(s', n - 1);
    } else if m.CloneSender? {
      CountIs(s', n + 1);
    } else {
      SameCount(s, s');
    }
  }

  lemma CountIs(s: State, n: nat)
    requires s.sendersCount == n % USIZE_RANGE && n == |s.senders| + s.lost
    ensures SendersCounted(s)
  {
  }

  lemma OneMoreOrLess(n: nat)
    ensures AddUsize(n % USIZE_RANGE, 1) == (n + 1) % USIZE_RANGE
    ensures n > 0 ==> SubUsize(n % USIZE_RANGE, 1) == (n - 1) % USIZE_RANGE
  {
  }

  /**
   Cloning a sender panics iff more than MAX_SENDER_COUNT senders and panicked clones are counted, up to
   multiples of 2^64. Panicking or not, one more is counted.
   */
  lemma ClonePanicsIff(states: seq<State>, moves: seq<Move>, i: nat)
    requires IsRun(Init, Next, states, moves) && i < |moves| && moves[i].CloneSender?
    ensures var s, s', name := states[i], states[i + 1], moves[i].name;
      && name !in s.senders
      && if (|s.senders| + s.lost) % USIZE_RANGE > MAX_SENDER_COUNT
         then s'.senders == s.senders && s'.lost == s.lost + 1
         else s'.senders == s.senders + {name} && s'.lost == s.lost
  {
    SendersAreCounted(states, moves, i);
    MoveAt(states, moves, i);
  }

  /** Dropped handles are gone, and nothing else is. */
  lemma DropsRemove(states: seq<State>, moves: seq<Move>, i: nat)
    requires IsRun(Init, Next, states, moves) && i < |moves| && (moves[i].DropSender? || moves[i].DropReceiver?)
    ensures var s, s', m := states[i], states[i + 1], moves[i];
      && s'.ring == s.ring && s'.pcs == s.pcs && s'.lost == s.lost
      && (m.DropSender? ==> m.h in s.senders && s'.senders == s.senders - {m.h} && s'.receiverAlive == s.receiverAlive)
      && (m.DropReceiver? ==> !s'.receiverAlive && s'.receiverState == RECEIVER_GONE && s'.senders == s.senders)
  {
    MoveAt(states, moves, i);
  }
}
