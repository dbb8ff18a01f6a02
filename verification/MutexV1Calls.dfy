/** What single calls of the parking mutex answer and do, in any state and undisturbed. */
module MutexV1Calls {
  import opened Machine
  import opened Runs
  import opened MutexV1

  /** The first access of a drop of the guard in a panicking thread. */
  ghost predicate Poisons(s: State, m: Move) {
    m.Drop? && m.panicking && m.t in s.pcs && s.pcs[m.t].Idle?
  }

  ghost predicate Clears(s: State, m: Move) {
    m.ClearPoison?
  }

  /** The mutex is poisoned iff its guard was dropped in a panic and no `clear_poison` came after. */
  lemma PoisonedIffPanicked(states: seq<State>, moves: seq<Move>, i: nat)
    requires IsRun(Init, Next, states, moves) && i < |states|
    ensures states[i].poisoned <==> exists l :: SetAndNotCleared(Poisons, Clears, states, moves, l, i)
  {
    hide Step, Enabled, Poisons, Clears;
    forall s, m, s' | Next(s, m, s') ensures s'.poisoned <==> Poisons(s, m) || (s.poisoned && !Clears(s, m)) {
      OnlyPanicsPoison(s, m);
    }
    FlagLaw(Init, Next, (s: State) => s.poisoned, Poisons, Clears, states, moves, i);
  }

  lemma OnlyPanicsPoison(s: State, m: Move)
    requires Enabled(s, m)
    ensures Step(s, m).poisoned <==> Poisons(s, m) || (s.poisoned && !Clears(s, m))
  {
    hide OnlyMoves;
  }

  lemma LockMoves(states: seq<State>, moves: seq<Move>, i: nat)
    requires IsRun(Init, Next, states, moves) && i < |moves| && moves[i].Lock?
    ensures Enabled(states[i], moves[i]) && states[i + 1] == StepLock(states[i], moves[i].t, moves[i].spurious)
    ensures OnlyMoves(states[i], moves[i].t, states[i + 1])
  {
    NextAt(Init, Next, states, moves, i);
  }

  lemma TryLockMoves(states: seq<State>, moves: seq<Move>, i: nat)
    requires IsRun(Init, Next, states, moves) && i < |moves| && moves[i].TryLock?
    ensures Enabled(states[i], moves[i]) && states[i + 1] == StepTryLock(states[i], moves[i].t)
    ensures OnlyMoves(states[i], moves[i].t, states[i + 1])
  {
    NextAt(Init, Next, states, moves, i);
  }

  lemma DropMoves(states: seq<State>, moves: seq<Move>, i: nat)
    requires IsRun(Init, Next, states, moves) && i < |moves| && moves[i].Drop?
    ensures Enabled(states[i], moves[i])
    ensures states[i + 1] == StepDrop(states[i], moves[i].t, moves[i].panicking, moves[i].spurious)
    ensures OnlyMoves(states[i], moves[i].t, states[i + 1])
  {
    NextAt(Init, Next, states, moves, i);
  }

  lemma WordIsOwner(states: seq<State>, moves: seq<Move>, i: nat, t: Tid)
    requires IsRun(Init, Next, states, moves) && i < |states| && t in states[i].pcs
    ensures t != UNLOCKED
    ensures states[i].word == UNLOCKED <==> states[i].guards == {}
    ensures states[i].word == t <==> t in states[i].guards
  {
    ReachableInv(states, moves, i);
    MutualExclusion(states, moves, i);
  }

  /** `try_lock` by a thread without the guard answers WouldBlock iff some thread has it. */
  lemma TryLockRefusedIff(states: seq<State>, moves: seq<Move>, i: nat)
    requires IsRun(Init, Next, states, moves) && i < |moves| && moves[i].TryLock?
    requires moves[i].t in states[i].pcs && states[i].pcs[moves[i].t].TryCas?
    ensures var s, s', t := states[i], states[i + 1], moves[i].t;
      && t in s'.pcs
      && if s.guards != {} then s'.pcs[t] == Idle(WouldBlock) && s'.guards == s.guards
         else s'.pcs[t] == Idle(Guard(s.poisoned)) && s'.guards == {t}
  {
    WordIsOwner(states, moves, i, moves[i].t);
    hide Init, Next, OnlyMoves;
    TryLockMoves(states, moves, i);
  }

  /** The exchange of `lock` gets the guard iff nobody has it and it does not fail spuriously. */
  lemma LockTakesIff(states: seq<State>, moves: seq<Move>, i: nat)
    requires IsRun(Init, Next, states, moves) && i < |moves| && moves[i].Lock?
    requires moves[i].t in states[i].pcs && states[i].pcs[moves[i].t].SpinCas?
    ensures var s, s', t := states[i], states[i + 1], moves[i].t;
      && t in s'.pcs
      && if s.guards != {} || moves[i].spurious
         then s'.pcs[t] == Spin(s.pcs[t].counter) && s'.guards == s.guards
         else s'.pcs[t] == Idle(Guard(s.poisoned)) && s'.guards == {t}
  {
    WordIsOwner(states, moves, i, moves[i].t);
    hide Init, Next, OnlyMoves;
    LockMoves(states, moves, i);
  }

  /** An undisturbed `lock` of a free mutex returns with the guard after three accesses. */
  lemma LockAlone(states: seq<State>, moves: seq<Move>, i: nat, t: Tid)
    requires IsRun(Init, Next, states, moves) && InARow(moves, i, 3, Lock(t, false))
    requires t in states[i].pcs && states[i].pcs[t].Idle? && states[i].guards == {}
    ensures t in states[i + 3].pcs && states[i + 3].pcs[t] == Idle(Guard(states[i].poisoned))
    ensures states[i + 3].guards == {t} && states[i + 3].word == t
  {
    WordIsOwner(states, moves, i, t);
    hide Init, Next, OnlyMoves;
    LockMoves(states, moves, i);
    assert states[i + 1] == Goto(states[i], t, Spin(0));
    LockMoves(states, moves, i + 1);
    assert states[i + 2] == Goto(states[i], t, SpinCas(0));
    LockMoves(states, moves, i + 2);
    assert states[i + 3] == Take(states[i + 2], t);
  }

  lemma {:induction false} SpinAlone(states: seq<State>, moves: seq<Move>, i: nat, t: Tid, counter: nat)
    requires IsRun(Init, Next, states, moves) && counter < SPIN_LIMIT
    requires InARow(moves, i, SPIN_LIMIT - counter, Lock(t, false))
    requires t in states[i].pcs && states[i].pcs[t] == Spin(counter) && states[i].word != UNLOCKED
    ensures states[i + SPIN_LIMIT - counter] == Goto(states[i], t, EnqueueLoad)
    decreases SPIN_LIMIT - counter
  {
    LockMoves(states, moves, i);
    if counter + 1 < SPIN_LIMIT {
      assert states[i + 1] == Goto(states[i], t, Spin(counter + 1));
      SpinAlone(states, moves, i + 1, t, counter + 1);
    }
  }

  /** An undisturbed `lock` of a mutex another thread has is queued last, and parked, after 105 accesses. */
  lemma LockAloneParks(states: seq<State>, moves: seq<Move>, i: nat, t: Tid)
    requires IsRun(Init, Next, states, moves) && InARow(moves, i, SPIN_LIMIT + 5, Lock(t, false))
    requires t in states[i].pcs && states[i].pcs[t].Idle? && !states[i].queueBusy
    requires states[i].guards != {} && t !in states[i].guards
    ensures var s, s' := states[i], states[i + SPIN_LIMIT + 5];
      && t in s'.pcs && s'.pcs[t].Park? && s'.queue == s.queue + [t]
      && !s'.queueBusy && s'.word == s.word && s'.tokens == s.tokens
  {
    WordIsOwner(states, moves, i, t);
    hide Init, Next, OnlyMoves;
    LockMoves(states, moves, i);
    assert states[i + 1] == Goto(states[i], t, Spin(0));
    SpinAlone(states, moves, i + 1, t, 0);
    EnqueueAlone(states, moves, i + SPIN_LIMIT + 1, t);
  }

  lemma EnqueueAlone(states: seq<State>, moves: seq<Move>, i: nat, t: Tid)
    requires IsRun(Init, Next, states, moves) && InARow(moves, i, 4, Lock(t, false))
    requires t in states[i].pcs && states[i].pcs[t].EnqueueLoad? && !states[i].queueBusy
    ensures var s, s' := states[i], states[i + 4];
      && t in s'.pcs && s'.pcs[t].Park? && s'.queue == s.queue + [t]
      && !s'.queueBusy && s'.word == s.word && s'.tokens == s.tokens
  {
    hide Init, Next, OnlyMoves;
    LockMoves(states, moves, i);
    LockMoves(states, moves, i + 1);
    LockMoves(states, moves, i + 2);
    LockMoves(states, moves, i + 3);
  }

  lemma QueueIsGuarded(states: seq<State>, moves: seq<Move>, i: nat, t: Tid)
    requires IsRun(Init, Next, states, moves) && i < |states| && t in states[i].pcs
    ensures states[i].pcs[t].DequeuePop? ==> states[i].queue != []
    ensures states[i].queueBusy <==> exists u :: u in states[i].pcs && InQueueSection(states[i].pcs[u])
  {
    ReachableInv(states, moves, i);
    Counting.CountZero(states[i].pcs, InQueueSection);
  }

  /**
   A drop frees the mutex, then goes for the queue. Having it to itself it takes out its first thread iff
   it is not empty; it then gives the queue back and sets that thread's token.
   */
  lemma DropUnparksFirst(states: seq<State>, moves: seq<Move>, i: nat)
    requires IsRun(Init, Next, states, moves) && i < |moves| && moves[i].Drop?
    ensures var s, s', t := states[i], states[i + 1], moves[i].t;
      && t in s.pcs && t in s'.pcs
      && (s.pcs[t].Idle? ==> s'.word == UNLOCKED && t !in s'.guards && s'.pcs[t] == DequeueLoad)
      && (s.pcs[t].DequeueCheck? ==>
            && s'.queue == s.queue && s'.pcs[t] == if s.queue == [] then DequeueRelease(None) else DequeuePop)
      && (s.pcs[t].DequeuePop? ==>
            && s.queue != [] && s.queue == [s.queue[0]] + s'.queue && s'.pcs[t] == DequeueRelease(Some(s.queue[0])))
      && (forall u :: s.pcs[t] == DequeueRelease(Some(u)) ==> !s'.queueBusy && s'.pcs[t] == Unpark(u))
      && (s.pcs[t] == DequeueRelease(None) ==> !s'.queueBusy && s'.pcs[t] == Idle(NoOutcome))
      && (forall u :: s.pcs[t] == Unpark(u) ==> u in s'.tokens && s'.pcs[t] == Idle(NoOutcome))
  {
    hide Init, Next, OnlyMoves;
    DropMoves(states, moves, i);
    QueueIsGuarded(states, moves, i, moves[i].t);
  }

  /** An undisturbed drop frees the mutex and unparks the first of the queue, after seven accesses. */
  lemma DropAloneUnparks(states: seq<State>, moves: seq<Move>, i: nat, t: Tid, panicking: bool)
    requires IsRun(Init, Next, states, moves) && InARow(moves, i, 7, Drop(t, panicking, false))
    requires t in states[i].pcs && states[i].pcs[t].Idle? && !states[i].queueBusy && states[i].queue != []
    ensures var s, s' := states[i], states[i + 7];
      && t in s'.pcs && s'.pcs[t].Idle? && s'.word == UNLOCKED && !s'.queueBusy
      && s'.tokens == s.tokens + {s.queue[0]} && s'.queue == s.queue[1..]
  {
    hide Init, Next, OnlyMoves;
    DequeueAlone(states, moves, i, t, panicking);
    DropMoves(states, moves, i + 4);
    DropMoves(states, moves, i + 5);
    DropMoves(states, moves, i + 6);
  }

  /** With nobody queued it is done after five, and unparks nobody. */
  lemma DropAloneEmpty(states: seq<State>, moves: seq<Move>, i: nat, t: Tid, panicking: bool)
    requires IsRun(Init, Next, states, moves) && InARow(moves, i, 5, Drop(t, panicking, false))
    requires t in states[i].pcs && states[i].pcs[t].Idle? && !states[i].queueBusy && states[i].queue == []
    ensures var s, s' := states[i], states[i + 5];
      && t in s'.pcs && s'.pcs[t].Idle? && s'.word == UNLOCKED && !s'.queueBusy
      && s'.tokens == s.tokens && s'.queue == []
  {
    hide Init, Next, OnlyMoves;
    DequeueAlone(states, moves, i, t, panicking);
    DropMoves(states, moves, i + 4);
  }

  lemma DequeueAlone(states: seq<State>, moves: seq<Move>, i: nat, t: Tid, panicking: bool)
    requires IsRun(Init, Next, states, moves) && InARow(moves, i, 4, Drop(t, panicking, false))
    requires t in states[i].pcs && states[i].pcs[t].Idle? && !states[i].queueBusy
    ensures var s, s' := states[i], states[i + 4];
      && t in s'.pcs && s'.word == UNLOCKED && s'.queueBusy && s'.tokens == s.tokens && s'.queue == s.queue
      && s'.pcs[t] == if s.queue == [] then DequeueRelease(None) else DequeuePop
  {
    hide Init, Next, OnlyMoves;
    DropMoves(states, moves, i);
    DropMoves(states, moves, i + 1);
    DropMoves(states, moves, i + 2);
    DropMoves(states, moves, i + 3);
  }

  /** The queue's flag is loaded until it is free; the weak exchange then may still fail, and starts over. */
  lemma QueueAwaited(states: seq<State>, moves: seq<Move>, i: nat)
    requires IsRun(Init, Next, states, moves) && i < |moves| && (moves[i].Lock? || moves[i].Drop?)
    ensures var s, s', t := states[i], states[i + 1], moves[i].t;
      && t in s.pcs && t in s'.pcs
      && (s.pcs[t].EnqueueLoad? ==> s'.pcs[t] == if s.queueBusy then EnqueueLoad else EnqueueCas)
      && (s.pcs[t].DequeueLoad? ==> s'.pcs[t] == if s.queueBusy then DequeueLoad else DequeueCas)
      && (s.pcs[t].EnqueueCas? ==> s'.pcs[t] == if s.queueBusy || moves[i].spurious then EnqueueLoad else EnqueuePush)
      && (s.pcs[t].DequeueCas? ==> s'.pcs[t] == if s.queueBusy || moves[i].spurious then DequeueLoad else DequeueCheck)
  {
    hide Init, Next, OnlyMoves;
    if moves[i].Lock? {
      LockMoves(states, moves, i);
    } else {
      DropMoves(states, moves, i);
    }
  }

  /** A spinning thread tries for the mutex iff it sees it free, and goes to the queue after 100 looks. */
  lemma SpinEndsIff(states: seq<State>, moves: seq<Move>, i: nat)
    requires IsRun(Init, Next, states, moves) && i < |moves| && moves[i].Lock?
    requires moves[i].t in states[i].pcs && states[i].pcs[moves[i].t].Spin?
    ensures var s, s', t := states[i], states[i + 1], moves[i].t; var counter := s.pcs[t].counter;
      && t in s'.pcs
      && s'.pcs[t] == if s.guards == {} then SpinCas(counter)
                      else if counter + 1 < SPIN_LIMIT then Spin(counter + 1) else EnqueueLoad
  {
    WordIsOwner(states, moves, i, moves[i].t);
    hide Init, Next, OnlyMoves;
    LockMoves(states, moves, i);
  }

  /** When `park` returns, for whatever reason, the thread starts to spin anew. */
  lemma ParkEnds(states: seq<State>, moves: seq<Move>, i: nat)
    requires IsRun(Init, Next, states, moves) && i < |moves| && (moves[i].Lock? || moves[i].SpuriousReturn?)
    requires moves[i].t in states[i].pcs && states[i].pcs[moves[i].t].Park?
    ensures var s, s', m := states[i], states[i + 1], moves[i];
      && m.t in s'.pcs && s'.pcs[m.t] == Spin(0) && s'.queue == s.queue
      && s'.tokens == if m.Lock? then s.tokens - {m.t} else s.tokens
  {
    NextAt(Init, Next, states, moves, i);
    hide Init, Next, OnlyMoves;
    if moves[i].Lock? {
      LockMoves(states, moves, i);
    }
  }

  /** The queue is entered iff its flag is free and the weak exchange does not fail spuriously. */
  lemma QueueEnteredIff(states: seq<State>, moves: seq<Move>, i: nat)
    requires IsRun(Init, Next, states, moves) && i < |moves| && (moves[i].Lock? || moves[i].Drop?)
    requires var t := moves[i].t; t in states[i].pcs && (states[i].pcs[t].EnqueueCas? || states[i].pcs[t].DequeueCas?)
    ensures var s, s', t := states[i], states[i + 1], moves[i].t;
      && t in s'.pcs
      && (InQueueSection(s'.pcs[t]) <==> (forall u | u in s.pcs :: !InQueueSection(s.pcs[u])) && !moves[i].spurious)
  {
    QueueIsGuarded(states, moves, i, moves[i].t);
    hide Init, Next, OnlyMoves;
    if moves[i].Lock? {
      LockMoves(states, moves, i);
    } else {
      DropMoves(states, moves, i);
    }
  }
}
