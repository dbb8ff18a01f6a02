/** What single calls of the semaphore answer and do, in any state and undisturbed. */
module SemaphoreCalls {
  import opened Machine
  import opened Counting
  import opened Runs
  import opened Semaphores
  import opened Wakes

  /** `signal` adds a permit; `wait` and `try_wait` take one when their exchange succeeds. */
  ghost predicate Signals(s: State, m: Move) {
    m.Signal? && m.t in s.pcs && s.pcs[m.t].Idle?
  }

  ghost predicate Takes(s: State, m: Move) {
    && m.t in s.pcs
    && ((m.Wait? && s.pcs[m.t].WaitCas?) || (m.TryWait? && s.pcs[m.t].TryCas?))
    && s.pcs[m.t].seen == s.count && !m.spurious
  }

  /** The history counts exactly those moves, so `Accounting` is about them. */
  lemma HistoryCountsMoves(states: seq<State>, moves: seq<Move>, i: nat)
    requires IsRun(Init, Next, states, moves) && i < |states|
    ensures states[i].signals == CountMoves(Signals, states, moves, i)
    ensures states[i].acquired == CountMoves(Takes, states, moves, i)
  {
    NumberLaw(Init, Next, (s: State) => s.signals, Signals, states, moves, i);
    NumberLaw(Init, Next, (s: State) => s.acquired, Takes, states, moves, i);
  }

  /**
   `try_wait` returns false iff there was no permit when it looked, or the number of permits changed
   before its exchange, or the exchange failed spuriously; only then it takes none.
   */
  lemma TryWaitFailsIff(states: seq<State>, moves: seq<Move>, i: nat)
    requires IsRun(Init, Next, states, moves) && i < |moves| && moves[i].TryWait?
    ensures var s, s', t := states[i], states[i + 1], moves[i].t;
      && t in s.pcs && t in s'.pcs
      && (s.pcs[t].Idle? ==>
            && (s'.pcs[t].Idle? <==> s.count == 0)
            && s'.count == s.count && (s.count > 0 ==> s'.pcs[t] == TryCas(s.count)))
      && (s.pcs[t].TryCas? ==>
            && s'.pcs[t].Idle?
            && if s.count != s.pcs[t].seen || moves[i].spurious then s'.count == s.count else s'.count == s.count - 1)
  {
    ReachableInv(states, moves, i);
    NextAt(Init, Next, states, moves, i);
  }

  /** An undisturbed `wait` takes a permit if there is one, and otherwise falls asleep. */
  lemma WaitAlone(states: seq<State>, moves: seq<Move>, i: nat, t: Tid)
    requires IsRun(Init, Next, states, moves) && InARow(moves, i, 3, Wait(t, false))
    requires t in states[i].pcs && states[i].pcs[t].Idle?
    ensures t in states[i + 3].pcs
    ensures states[i].count == 0 ==> states[i + 3].pcs[t].Asleep? && states[i + 3].count == 0
    ensures states[i].count > 0 ==> states[i + 3].pcs[t].WaitLeave? && states[i + 3].count == states[i].count - 1
  {
    ReachableInv(states, moves, i);
    NextAt(Init, Next, states, moves, i);
    NextAt(Init, Next, states, moves, i + 1);
    NextAt(Init, Next, states, moves, i + 2);
  }

  /** Having taken its permit it returns, and is no longer counted as waiting. */
  lemma WaitReturns(states: seq<State>, moves: seq<Move>, i: nat, t: Tid)
    requires IsRun(Init, Next, states, moves) && i < |moves| && moves[i].Wait? && moves[i].t == t
    requires t in states[i].pcs && states[i].pcs[t].WaitLeave?
    ensures t in states[i + 1].pcs && states[i + 1].pcs[t].Idle? && states[i + 1].count == states[i].count
    ensures states[i + 1].numWaiting == states[i].numWaiting - 1
  {
    ReachableInv(states, moves, i);
    CountAtLeast(states[i].pcs, t, InWait);
    CountBound(states[i].pcs, InWait);
    NextAt(Init, Next, states, moves, i);
  }

  /** In `wait`'s loop a permit is taken iff its exchange finds the loaded value, unless it fails spuriously. */
  lemma WaitTakesIff(states: seq<State>, moves: seq<Move>, i: nat)
    requires IsRun(Init, Next, states, moves) && i < |moves| && moves[i].Wait?
    requires moves[i].t in states[i].pcs && states[i].pcs[moves[i].t].WaitCas?
    ensures var s, s', t := states[i], states[i + 1], moves[i].t;
      && t in s'.pcs
      && if s.count == s.pcs[t].seen && !moves[i].spurious
         then s'.pcs[t].WaitLeave? && s'.count == s.count - 1
         else s'.pcs[t].WaitLoad? && s'.count == s.count
  {
    ReachableInv(states, moves, i);
    NextAt(Init, Next, states, moves, i);
  }

  /** `signal` first adds a permit; then it is done iff nobody is inside `wait`. */
  lemma SignalAlone(states: seq<State>, moves: seq<Move>, i: nat, t: Tid, woken: Tid)
    requires IsRun(Init, Next, states, moves) && InARow(moves, i, 2, Signal(t, woken))
    requires t in states[i].pcs && states[i].pcs[t].Idle? && states[i].count < U32_MAX
    ensures t in states[i + 2].pcs && states[i + 2].count == states[i + 1].count == states[i].count + 1
    ensures states[i + 2].pcs[t].Idle? <==> forall u | u in states[i].pcs :: !InWait(states[i].pcs[u])
    ensures !states[i + 2].pcs[t].Idle? ==> states[i + 2].pcs[t].SignalWake?
  {
    ReachableInv(states, moves, i);
    ReachableInv(states, moves, i + 1);
    CountZero(states[i].pcs, InWait);
    CountZero(states[i + 1].pcs, InWait);
    NextAt(Init, Next, states, moves, i);
    NextAt(Init, Next, states, moves, i + 1);
  }

  /** The last access of `signal` wakes exactly one sleeper, if there is one, and changes nobody else. */
  lemma SignalWakesOne(states: seq<State>, moves: seq<Move>, i: nat)
    requires IsRun(Init, Next, states, moves) && i < |moves| && moves[i].Signal?
    requires moves[i].t in states[i].pcs && states[i].pcs[moves[i].t].SignalWake?
    ensures OneWoken(states[i].pcs, states[i + 1].pcs, moves[i].t, Idle, IsAsleep, pc => WaitLoad)
    ensures Count(states[i + 1].pcs, IsAsleep)
         == if Count(states[i].pcs, IsAsleep) > 0 then Count(states[i].pcs, IsAsleep) - 1 else 0
  {
    var s, s', m := states[i], states[i + 1], moves[i];
    assert Next(s, m, s');
    if SomeoneSleeps(s.pcs, IsAsleep) {
      var u :| u in s.pcs && IsAsleep(s.pcs[u]);
      assert s.pcs[u].Asleep?;
      assert IsWoken(s.pcs, s'.pcs, m.woken, IsAsleep, pc => WaitLoad);
      assert NobodyElse(s.pcs, s'.pcs, m.t, m.woken);
    }
    OneWokenCounts(s.pcs, s'.pcs, m.t, Idle, IsAsleep, pc => WaitLoad);
  }

  /** A thread the futex lets go for no reason looks for a permit again. */
  lemma SpuriousWakeLooksAgain(states: seq<State>, moves: seq<Move>, i: nat)
    requires IsRun(Init, Next, states, moves) && i < |moves| && moves[i].SpuriousWake?
    ensures states[i + 1] == states[i].(pcs := states[i].pcs[moves[i].t := WaitLoad])
  {
    NextAt(Init, Next, states, moves, i);
  }
}
