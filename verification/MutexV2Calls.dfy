/** What single calls of the futex mutex answer and do, in any state and undisturbed. */
module MutexV2Calls {
  import opened Machine
  import opened Runs
  import opened MutexV2
  import opened Wakes

  /** The first access of a drop of a guard of mutex `k` in a panicking thread. */
  ghost function Poisons(k: nat): (State, Move) -> bool {
    (s: State, m: Move) => m.Drop? && m.k == k && m.panicking && m.t in s.pcs && s.pcs[m.t].Idle?
  }

  ghost function Clears(k: nat): (State, Move) -> bool {
    (s: State, m: Move) => m.ClearPoison? && m.k == k
  }

  /** A mutex is poisoned iff a guard of it was dropped in a panic and no `clear_poison` came after. */
  lemma PoisonedIffPanicked(states: seq<State>, moves: seq<Move>, i: nat, k: nat)
    requires IsRun(Init, Next, states, moves) && i < |states|
    ensures k < |states[i].cells| && states[i].cells[k].poisoned <==>
            exists l :: SetAndNotCleared(Poisons(k), Clears(k), states, moves, l, i)
  {
    var flag := (s: State) => k < |s.cells| && s.cells[k].poisoned;
    var sets, clears := Poisons(k), Clears(k);
    forall s, m, s' | Next(s, m, s') ensures flag(s') <==> sets(s, m) || (flag(s) && !clears(s, m)) {
      OnlyPanicsPoison(s, m, k);
    }
    FlagLaw(Init, Next, flag, sets, clears, states, moves, i);
  }

  lemma OnlyPanicsPoison(s: State, m: Move, k: nat)
    requires Enabled(s, m)
    ensures var s' := Step(s, m);
      (k < |s'.cells| && s'.cells[k].poisoned) <==>
      Poisons(k)(s, m) || (k < |s.cells| && s.cells[k].poisoned && !Clears(k)(s, m))
  {
  }

  /** The slow loop's successful exchange marks mutex `k`, and the swap at the end unmarks it. */
  ghost function Marks(k: nat): (State, Move) -> bool {
    (s: State, m: Move) =>
      m.Lock? && m.k == k && m.t in s.pcs && s.pcs[m.t].SlowCas? && k < |s.cells| && s.cells[k].word == UNLOCKED
  }

  ghost function Unmarks(k: nat): (State, Move) -> bool {
    (s: State, m: Move) => m.Drop? && m.k == k && m.t in s.pcs && s.pcs[m.t].Swap?
  }

  /** The word says "has waiters" iff its owner took it in the slow loop: nobody marks a mutex it did not get. */
  lemma MarkedIffTakenSlowly(states: seq<State>, moves: seq<Move>, i: nat, k: nat)
    requires IsRun(Init, Next, states, moves) && i < |states|
    ensures k < |states[i].cells| && states[i].cells[k].word == LOCKED_HAS_WAITERS <==>
            exists l :: SetAndNotCleared(Marks(k), Unmarks(k), states, moves, l, i)
  {
    var flag := (s: State) => k < |s.cells| && s.cells[k].word == LOCKED_HAS_WAITERS;
    var sets, clears := Marks(k), Unmarks(k);
    forall s, m, s' | Next(s, m, s') ensures flag(s') <==> sets(s, m) || (flag(s) && !clears(s, m)) {
      OnlySlowLocksMark(s, m, k);
    }
    FlagLaw(Init, Next, flag, sets, clears, states, moves, i);
  }

  lemma OnlySlowLocksMark(s: State, m: Move, k: nat)
    requires Enabled(s, m)
    ensures var s' := Step(s, m);
      (k < |s'.cells| && s'.cells[k].word == LOCKED_HAS_WAITERS) <==>
      Marks(k)(s, m) || (k < |s.cells| && s.cells[k].word == LOCKED_HAS_WAITERS && !Unmarks(k)(s, m))
  {
  }

  /**
   `try_lock` past the check of its own guards answers WouldBlock iff the mutex has an owner or its weak
   exchange failed spuriously; otherwise the mutex is the caller's.
   */
  lemma TryLockRefusedIff(states: seq<State>, moves: seq<Move>, i: nat)
    requires IsRun(Init, Next, states, moves) && i < |moves| && moves[i].TryLock?
    requires moves[i].t in states[i].pcs && states[i].pcs[moves[i].t].TryCas?
    ensures var s, s', t, k := states[i], states[i + 1], moves[i].t, moves[i].k;
      && t in s'.pcs && t in s'.outcome && k < |s.cells| && k < |s'.cells|
      && if s.cells[k].owner.Some? || moves[i].spurious
         then s'.pcs[t].Idle? && s'.outcome[t] == WouldBlock && s'.cells == s.cells
         else s'.pcs[t] == Mark(k) && s'.cells[k].owner == Some(t)
  {
    ReachableInv(states, moves, i);
    NextAt(Init, Next, states, moves, i);
  }

  /** An exchange of `lock` takes the mutex iff nobody owns it, unless the first, weak one fails spuriously. */
  lemma LockTakesIff(states: seq<State>, moves: seq<Move>, i: nat)
    requires IsRun(Init, Next, states, moves) && i < |moves| && moves[i].Lock?
    requires var t := moves[i].t;
      t in states[i].pcs && (states[i].pcs[t].FastCas? || states[i].pcs[t].RetryCas? || states[i].pcs[t].SlowCas?)
    ensures var s, s', t, k := states[i], states[i + 1], moves[i].t, moves[i].k;
      && t in s'.pcs && k < |s.cells| && k < |s'.cells|
      && if s.cells[k].owner.Some? || (s.pcs[t].FastCas? && moves[i].spurious)
         then s'.cells == s.cells && s'.pcs[t] == match s.pcs[t]
              case FastCas(_) => Spin(k, 0)
              case RetryCas(_) => SlowCas(k)
              case _ => SlowWait(k)
         else s'.pcs[t] == Mark(k) && s'.cells[k].owner == Some(t)
  {
    ReachableInv(states, moves, i);
    NextAt(Init, Next, states, moves, i);
  }

  /** An undisturbed `lock` of a free mutex hands it out after three accesses and tells whether it is poisoned. */
  lemma LockAlone(states: seq<State>, moves: seq<Move>, i: nat, t: Tid, k: nat)
    requires IsRun(Init, Next, states, moves) && InARow(moves, i, 3, Lock(t, k, false))
    requires t in states[i].pcs && states[i].pcs[t].Idle? && |states[i].cells| <= ID_RANGE
    requires k < |states[i].cells| && states[i].cells[k].owner.None?
    ensures HandedOut(states[i], t, k, states[i + 3])
  {
    RefusedIffHeld(states, moves, i, t, k, false);
    FreeMeansNotHeld(states, moves, i, t, k);
    NextAt(Init, Next, states, moves, i);
    assert states[i + 1] == Goto(states[i], t, FastCas(k));
    hide Init, Owns;
    NextAt(Init, Next, states, moves, i + 1);
    assert states[i + 2] == Take(states[i + 1], t, k, LOCKED);
    NextAt(Init, Next, states, moves, i + 2);
    assert states[i + 3] == Grant(states[i + 2], t, k);
  }

  lemma TryLockAlone(states: seq<State>, moves: seq<Move>, i: nat, t: Tid, k: nat)
    requires IsRun(Init, Next, states, moves) && InARow(moves, i, 3, TryLock(t, k, false))
    requires t in states[i].pcs && states[i].pcs[t].Idle? && |states[i].cells| <= ID_RANGE
    requires k < |states[i].cells| && states[i].cells[k].owner.None?
    ensures HandedOut(states[i], t, k, states[i + 3])
  {
    RefusedIffHeld(states, moves, i, t, k, false);
    FreeMeansNotHeld(states, moves, i, t, k);
    NextAt(Init, Next, states, moves, i);
    assert states[i + 1] == Goto(states[i], t, TryCas(k));
    hide Init, Owns;
    NextAt(Init, Next, states, moves, i + 1);
    assert states[i + 2] == Take(states[i + 1], t, k, LOCKED);
    NextAt(Init, Next, states, moves, i + 2);
    assert states[i + 3] == Grant(states[i + 2], t, k);
  }

  lemma FreeMeansNotHeld(states: seq<State>, moves: seq<Move>, i: nat, t: Tid, k: nat)
    requires IsRun(Init, Next, states, moves) && i < |states| && t in states[i].pcs
    requires k < |states[i].cells| && states[i].cells[k].owner != Some(t)
    ensures t in states[i].guards && k !in states[i].guards[t]
    ensures states[i].cells[k].owner.None? <==> states[i].cells[k].word == UNLOCKED
  {
    ReachableInv(states, moves, i);
  }

  /** Thread `t` has returned with the guard of mutex `k`, in a poison error iff it was poisoned. */
  ghost predicate HandedOut(s: State, t: Tid, k: nat, s': State)
    requires k < |s.cells|
  {
    && t in s'.pcs && t in s'.guards && t in s'.outcome && k < |s'.cells|
    && s'.pcs[t].Idle? && k in s'.guards[t] && s'.cells[k].owner == Some(t)
    && s'.outcome[t] == if s.cells[k].poisoned then Poisoned else Acquired
  }

  /** Nothing is gained by spinning on a mutex that stays owned: 101 loads later the thread tries again. */
  lemma {:induction false} SpinAlone(states: seq<State>, moves: seq<Move>, i: nat, t: Tid, k: nat, counter: nat)
    requires IsRun(Init, Next, states, moves) && counter <= SPIN_LIMIT
    requires InARow(moves, i, SPIN_LIMIT + 1 - counter, Lock(t, k, false))
    requires t in states[i].pcs && states[i].pcs[t] == Spin(k, counter)
    requires k < |states[i].cells| && states[i].cells[k].word != UNLOCKED
    ensures var s' := states[i + SPIN_LIMIT + 1 - counter]; s' == Goto(states[i], t, RetryCas(k))
    decreases SPIN_LIMIT - counter
  {
    NextAt(Init, Next, states, moves, i);
    if counter < SPIN_LIMIT {
      SpinAlone(states, moves, i + 1, t, k, counter + 1);
    }
  }

  /**
   An undisturbed `lock` of a mutex another thread owns is asleep after 106 accesses iff the word says
   "has waiters"; otherwise it is back at the head of its slow loop.
   */
  lemma LockAloneSleepsIff(states: seq<State>, moves: seq<Move>, i: nat, t: Tid, k: nat)
    requires IsRun(Init, Next, states, moves) && InARow(moves, i, SPIN_LIMIT + 6, Lock(t, k, false))
    requires t in states[i].pcs && states[i].pcs[t].Idle? && |states[i].cells| <= ID_RANGE
    requires k < |states[i].cells| && states[i].cells[k].owner.Some? && states[i].cells[k].owner != Some(t)
    ensures var s, s' := states[i], states[i + SPIN_LIMIT + 6];
      s' == Goto(s, t, if s.cells[k].word == LOCKED_HAS_WAITERS then Asleep(k) else SlowCas(k))
  {
    RefusedIffHeld(states, moves, i, t, k, false);
    FreeMeansNotHeld(states, moves, i, t, k);
    NextAt(Init, Next, states, moves, i);
    assert states[i + 1] == Goto(states[i], t, FastCas(k));
    hide Init, Owns;
    NextAt(Init, Next, states, moves, i + 1);
    assert states[i + 2] == Goto(states[i], t, Spin(k, 0));
    SpinAlone(states, moves, i + 2, t, k, 0);
    hide Next;
    RetryAlone(states, moves, i + SPIN_LIMIT + 3, t, k);
  }

  lemma RetryAlone(states: seq<State>, moves: seq<Move>, i: nat, t: Tid, k: nat)
    requires IsRun(Init, Next, states, moves) && InARow(moves, i, 3, Lock(t, k, false))
    requires t in states[i].pcs && states[i].pcs[t] == RetryCas(k)
    requires k < |states[i].cells| && states[i].cells[k].word != UNLOCKED
    ensures var s, s' := states[i], states[i + 3];
      s' == Goto(s, t, if s.cells[k].word == LOCKED_HAS_WAITERS then Asleep(k) else SlowCas(k))
  {
    hide Init;
    NextAt(Init, Next, states, moves, i);
    assert states[i + 1] == Goto(states[i], t, SlowCas(k));
    NextAt(Init, Next, states, moves, i + 1);
    assert states[i + 2] == Goto(states[i], t, SlowWait(k));
    NextAt(Init, Next, states, moves, i + 2);
  }

  /** A spinning thread stops iff it sees the mutex free or has looked often enough. */
  lemma SpinEndsIff(states: seq<State>, moves: seq<Move>, i: nat)
    requires IsRun(Init, Next, states, moves) && i < |moves| && moves[i].Lock?
    requires moves[i].t in states[i].pcs && states[i].pcs[moves[i].t].Spin?
    ensures var s, s', t, k := states[i], states[i + 1], moves[i].t, moves[i].k;
      && t in s'.pcs && k < |s.cells| && s'.cells == s.cells
      && (s'.pcs[t] == RetryCas(k) <==> s.cells[k].owner.None? || s.pcs[t].counter >= SPIN_LIMIT)
      && (s'.pcs[t] != RetryCas(k) ==> s'.pcs[t] == Spin(k, s.pcs[t].counter + 1))
  {
    ReachableInv(states, moves, i);
    NextAt(Init, Next, states, moves, i);
  }

  /** A drop frees the mutex at its swap, and goes on to wake somebody iff the word said "has waiters". */
  lemma DropFrees(states: seq<State>, moves: seq<Move>, i: nat)
    requires IsRun(Init, Next, states, moves) && i < |moves| && moves[i].Drop?
    requires moves[i].t in states[i].pcs && states[i].pcs[moves[i].t].Swap?
    ensures var s, s', t, k := states[i], states[i + 1], moves[i].t, moves[i].k;
      && t in s'.pcs && k < |s.cells| && k < |s'.cells|
      && s'.cells[k].word == UNLOCKED && s'.cells[k].owner.None?
      && s'.pcs[t] == if s.cells[k].word == LOCKED_HAS_WAITERS then Wake(k) else Idle
  {
    NextAt(Init, Next, states, moves, i);
  }

  /** That wakes exactly one of the threads asleep on this mutex, if there are any, and changes nobody else. */
  lemma DropWakesOne(states: seq<State>, moves: seq<Move>, i: nat)
    requires IsRun(Init, Next, states, moves) && i < |moves| && moves[i].Drop?
    requires moves[i].t in states[i].pcs && states[i].pcs[moves[i].t].Wake?
    ensures var k := moves[i].k;
      OneWoken(states[i].pcs, states[i + 1].pcs, moves[i].t, Idle, pc => pc == Asleep(k), pc => SlowCas(k))
  {
    NextAt(Init, Next, states, moves, i);
    var s, s', m := states[i], states[i + 1], moves[i];
    var asleep, awake := (pc: Pc) => pc == Asleep(m.k), (pc: Pc) => SlowCas(m.k);
    if SomeoneSleeps(s.pcs, asleep) {
      var u :| u in s.pcs && asleep(s.pcs[u]);
      assert SleepsOn(s, u, m.k);
      assert IsWoken(s.pcs, s'.pcs, m.woken, asleep, awake);
      assert NobodyElse(s.pcs, s'.pcs, m.t, m.woken);
    }
  }

  /** A thread the futex lets go for no reason is back at the head of its slow loop. */
  lemma SpuriousWakeTriesAgain(states: seq<State>, moves: seq<Move>, i: nat)
    requires IsRun(Init, Next, states, moves) && i < |moves| && moves[i].SpuriousWake?
    ensures moves[i].t in states[i].pcs && states[i].pcs[moves[i].t].Asleep?
    ensures states[i + 1] == Goto(states[i], moves[i].t, SlowCas(states[i].pcs[moves[i].t].k))
  {
    NextAt(Init, Next, states, moves, i);
  }
}
