/** What single calls of the condition variable do, in any state and undisturbed. */
module CondvarCalls {
  import opened Machine
  import opened Counting
  import opened Runs
  import opened Condvars
  import opened Wakes

  /** The access in which `notify_one` or `notify_all` increments the counter. */
  ghost predicate Notifies(s: State, m: Move) {
    (m.NotifyOne? || m.NotifyAll?) && m.t in s.pcs && s.pcs[m.t].Outside?
  }

  /** The counter and its history count exactly those accesses. */
  lemma CounterCountsNotifications(states: seq<State>, moves: seq<Move>, i: nat)
    requires IsRun(Init, Next, states, moves) && i < |states|
    ensures states[i].epoch == CountMoves(Notifies, states, moves, i)
    ensures states[i].counter == CountMoves(Notifies, states, moves, i) % U32_RANGE
  {
    hide Step, Enabled, Notifies;
    forall s, m, s' | Next(s, m, s')
      ensures s'.epoch == s.epoch + Bit(Notifies(s, m))
      ensures s'.counter == if Notifies(s, m) then (s.counter + 1) % U32_RANGE else s.counter
    {
      OnlyNotificationsCount(s, m);
    }
    NumberLaw(Init, Next, (s: State) => s.epoch, Notifies, states, moves, i);
    WordLaw(Init, Next, (s: State) => s.counter, Notifies, states, moves, i);
  }

  lemma OnlyNotificationsCount(s: State, m: Move)
    requires Enabled(s, m)
    ensures Step(s, m).epoch == s.epoch + Bit(Notifies(s, m))
    ensures Step(s, m).counter == if Notifies(s, m) then (s.counter + 1) % U32_RANGE else s.counter
  {
  }

  /**
   The last access of `notify_one` wakes exactly one sleeper, if there is one, and changes no other
   thread but its own; so there is one sleeper fewer.
   */
  lemma NotifyOneWakesOne(states: seq<State>, moves: seq<Move>, i: nat)
    requires IsRun(Init, Next, states, moves) && i < |moves| && moves[i].NotifyOne?
    requires moves[i].t in states[i].pcs && states[i].pcs[moves[i].t].OneWake?
    ensures OneWoken(states[i].pcs, states[i + 1].pcs, moves[i].t, Outside, IsAsleep, pc => Leave)
    ensures Counting.Count(states[i + 1].pcs, IsAsleep)
         == if Counting.Count(states[i].pcs, IsAsleep) > 0 then Counting.Count(states[i].pcs, IsAsleep) - 1 else 0
  {
    NextAt(Init, Next, states, moves, i);
    var s, s', m := states[i], states[i + 1], moves[i];
    NotifyWakesOne(s, m.t, m.woken);
    OneWokenCounts(s.pcs, s'.pcs, m.t, Outside, IsAsleep, pc => Leave);
  }

  /** `notify_one` is two accesses: the increment, then the wake. */
  lemma NotifyOneAlone(states: seq<State>, moves: seq<Move>, i: nat, t: Tid, woken: Tid)
    requires IsRun(Init, Next, states, moves) && InARow(moves, i, 2, NotifyOne(t, woken))
    requires t in states[i].pcs && states[i].pcs[t].Outside?
    ensures t in states[i + 2].pcs && states[i + 2].pcs[t].Outside?
    ensures states[i + 2].counter == (states[i].counter + 1) % U32_RANGE
    ensures Counting.Count(states[i + 2].pcs, IsAsleep)
         == if Counting.Count(states[i].pcs, IsAsleep) > 0 then Counting.Count(states[i].pcs, IsAsleep) - 1 else 0
  {
    NextAt(Init, Next, states, moves, i);
    CountUpdate(states[i].pcs, t, OneWake, IsAsleep);
    NotifyOneWakesOne(states, moves, i + 1);
    NextAt(Init, Next, states, moves, i + 1);
  }

  /** `notify_all` is done after its load iff nobody is between the two updates of `waiting`. */
  lemma NotifyAllSkipsIff(states: seq<State>, moves: seq<Move>, i: nat)
    requires IsRun(Init, Next, states, moves) && i < |moves| && moves[i].NotifyAll?
    requires moves[i].t in states[i].pcs && states[i].pcs[moves[i].t].AllLoad?
    ensures var s, s', t := states[i], states[i + 1], moves[i].t;
      && t in s'.pcs
      && (s'.pcs[t].Outside? <==> forall u | u in s.pcs :: !Counted(s.pcs[u]))
      && (s'.pcs[t].Outside? || s'.pcs[t].AllWake?)
  {
    ReachableInv(states, moves, i);
    NextAt(Init, Next, states, moves, i);
    CountZero(states[i].pcs, Counted);
  }

  /** Its last access wakes all sleepers and changes nobody else. */
  lemma NotifyAllWakesAll(states: seq<State>, moves: seq<Move>, i: nat)
    requires IsRun(Init, Next, states, moves) && i < |moves| && moves[i].NotifyAll?
    requires moves[i].t in states[i].pcs && states[i].pcs[moves[i].t].AllWake?
    ensures AllWoken(states[i].pcs, states[i + 1].pcs, moves[i].t, Outside, IsAsleep, pc => Leave)
    ensures Counting.Count(states[i + 1].pcs, IsAsleep) == 0
  {
    NextAt(Init, Next, states, moves, i);
    AllWokenCounts(states[i].pcs, states[i + 1].pcs, moves[i].t, Outside, IsAsleep, pc => Leave);
  }

  /** An undisturbed `wait` gives the mutex back, is counted, and falls asleep. */
  lemma WaitAlone(states: seq<State>, moves: seq<Move>, i: nat, t: Tid)
    requires IsRun(Init, Next, states, moves) && InARow(moves, i, 4, Wait(t))
    requires t in states[i].pcs && states[i].pcs[t].Outside?
    ensures t in states[i + 4].pcs && states[i + 4].pcs[t].Asleep? && states[i + 4].owner == FREE
    ensures states[i + 4].waiting == (states[i].waiting + 1) % U32_RANGE
  {
    NextAt(Init, Next, states, moves, i);
    NextAt(Init, Next, states, moves, i + 1);
    NextAt(Init, Next, states, moves, i + 2);
    NextAt(Init, Next, states, moves, i + 3);
  }

  /** Once woken it stops being counted and returns with the mutex, as soon as that is free. */
  lemma WaitReturns(states: seq<State>, moves: seq<Move>, i: nat, t: Tid)
    requires IsRun(Init, Next, states, moves) && i + 2 <= |moves| && moves[i] == Wait(t) && moves[i + 1] == Lock(t)
    requires t in states[i].pcs && states[i].pcs[t].Leave?
    ensures t in states[i + 2].pcs && states[i + 1].waiting == states[i].waiting - 1
    ensures if states[i].owner == FREE then states[i + 2].owner == t && states[i + 2].pcs[t].Outside?
            else states[i + 2].owner == states[i].owner && states[i + 2].pcs[t].Relock?
  {
    ReachableInv(states, moves, i);
    CountAtLeast(states[i].pcs, t, Counted);
    CountBound(states[i].pcs, Counted);
    NextAt(Init, Next, states, moves, i);
    NextAt(Init, Next, states, moves, i + 1);
  }

  /** Thread `t` is inside `wait` with its snapshot, from state `a + 1` to state `b`. */
  ghost predicate WaitsSince(states: seq<State>, moves: seq<Move>, a: nat, b: nat, t: Tid) {
    && a < b < |states| && |states| == |moves| + 1
    && moves[a] == Wait(t) && t in states[a].pcs && states[a].pcs[t].Outside?
    && forall l | a < l <= b :: t in states[l].pcs && HasSnapshot(states[l].pcs[t])
  }

  lemma {:induction false} SnapshotStays(states: seq<State>, moves: seq<Move>, a: nat, b: nat, t: Tid)
    requires IsRun(Init, Next, states, moves) && WaitsSince(states, moves, a, b, t)
    ensures states[b].pcs[t].seen == states[a].counter
    decreases b
  {
    NextAt(Init, Next, states, moves, b - 1);
    if a < b - 1 {
      SnapshotStays(states, moves, a, b - 1, t);
      StepKeepsSnapshot(states[b - 1], moves[b - 1], t);
    }
  }

  lemma StepKeepsSnapshot(s: State, m: Move, t: Tid)
    requires Enabled(s, m) && t in s.pcs && HasSnapshot(s.pcs[t])
    requires t in Step(s, m).pcs && HasSnapshot(Step(s, m).pcs[t])
    ensures Step(s, m).pcs[t].seen == s.pcs[t].seen
  {
  }

  /**
   The law of falling asleep, from the moves alone: a thread that loaded the counter in move `a` falls
   asleep at its futex wait in state `b` iff the number of notifications of either kind in between is
   a multiple of 2^32. So one that any notification has overtaken does not, short of 2^32 of them.
   */
  lemma SleepsIffMultipleOfNotifications(states: seq<State>, moves: seq<Move>, a: nat, b: nat, t: Tid)
    requires IsRun(Init, Next, states, moves) && WaitsSince(states, moves, a, b, t) && states[b].pcs[t].Futex?
    requires b < |moves| && moves[b] == Wait(t)
    ensures var passed := MovesBetween(Notifies, states, moves, a, b);
      && passed >= 0 && t in states[b + 1].pcs
      && (states[b + 1].pcs[t].Asleep? <==> passed % U32_RANGE == 0)
      && (states[b + 1].pcs[t].Leave? <==> passed % U32_RANGE != 0)
  {
    SnapshotStays(states, moves, a, b, t);
    FutexEnds(states, moves, b, t);
    CounterSameIff(states, moves, a, b);
    hide IsRun, Init, Next, Notifies, WaitsSince, MovesBetween;
  }

  lemma CounterSameIff(states: seq<State>, moves: seq<Move>, a: nat, b: nat)
    requires IsRun(Init, Next, states, moves) && a <= b < |states|
    ensures MovesBetween(Notifies, states, moves, a, b) >= 0
    ensures states[a].counter == states[b].counter <==> MovesBetween(Notifies, states, moves, a, b) % U32_RANGE == 0
  {
    hide Step, Enabled, Notifies;
    forall s, m, s' | Next(s, m, s')
      ensures s'.counter == if Notifies(s, m) then (s.counter + 1) % U32_RANGE else s.counter
    {
      OnlyNotificationsCount(s, m);
    }
    SameWordLaw(Init, Next, (s: State) => s.counter, Notifies, states, moves, a, b);
  }

  lemma FutexEnds(states: seq<State>, moves: seq<Move>, b: nat, t: Tid)
    requires IsRun(Init, Next, states, moves) && b < |moves| && moves[b] == Wait(t)
    requires t in states[b].pcs && states[b].pcs[t].Futex?
    ensures t in states[b + 1].pcs
    ensures states[b + 1].pcs[t].Asleep? <==> states[b].counter == states[b].pcs[t].seen
    ensures states[b + 1].pcs[t].Asleep? || states[b + 1].pcs[t].Leave?
  {
    NextAt(Init, Next, states, moves, b);
  }

  /** The accesses of `wait` in their order; a thread the futex lets go for no reason leaves like any other. */
  lemma WaitGoesOn(states: seq<State>, moves: seq<Move>, i: nat)
    requires IsRun(Init, Next, states, moves) && i < |moves| && (moves[i].Wait? || moves[i].SpuriousWake?)
    ensures var s, s', t := states[i], states[i + 1], moves[i].t;
      && t in s.pcs && t in s'.pcs
      && (s.pcs[t].Outside? ==> s'.pcs[t].Count? && s'.pcs[t].seen == s.counter)
      && (s.pcs[t].Count? ==> s'.pcs[t].Release? && s'.waiting == (s.waiting + 1) % U32_RANGE)
      && (s.pcs[t].Release? ==> s'.pcs[t].Futex? && s'.owner == FREE)
      && (s.pcs[t].Leave? ==> s'.pcs[t].Relock?)
      && (s.pcs[t].Asleep? ==> s'.pcs[t].Leave?)
  {
    NextAt(Init, Next, states, moves, i);
  }

  /** An undisturbed `notify_all` beside a counted waiter wakes all sleepers with its third access. */
  lemma NotifyAllAlone(states: seq<State>, moves: seq<Move>, i: nat, t: Tid)
    requires IsRun(Init, Next, states, moves) && InARow(moves, i, 3, NotifyAll(t))
    requires t in states[i].pcs && states[i].pcs[t].Outside?
    requires exists u :: u in states[i].pcs && Counted(states[i].pcs[u])
    ensures t in states[i + 3].pcs && states[i + 3].pcs[t].Outside?
    ensures states[i + 3].counter == (states[i].counter + 1) % U32_RANGE
    ensures Counting.Count(states[i + 3].pcs, IsAsleep) == 0
  {
    NextAt(Init, Next, states, moves, i);
    var u :| u in states[i].pcs && Counted(states[i].pcs[u]);
    assert Counted(states[i + 1].pcs[u]);
    NotifyAllSkipsIff(states, moves, i + 1);
    NextAt(Init, Next, states, moves, i + 1);
    NotifyAllWakesAll(states, moves, i + 2);
    NextAt(Init, Next, states, moves, i + 2);
  }
}
