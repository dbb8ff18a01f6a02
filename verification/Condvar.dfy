/**
 The condition variable of src/condvar.rs, used with one mutex and one predicate that the mutex
 protects. Of the mutex only its word matters here; `MutexRunsProject` shows that the mutex's own
 code does nothing to that word but what `Lock` and `Unlock` below do to `owner`.
 */
module Condvars {
  import opened Machine
  import opened Counting
  import opened Runs
  import opened Wakes
  import V1 = MutexV1

  const FREE: nat := 0

  /**
   `seen` is the loaded counter; `epoch` and `since` (history) are how many notifications preceded that
   load and the falling asleep; `mine` (history) is the number of this call's own.
   */
  datatype Pc =
    | Outside                          // in no condvar call; holds the mutex iff it is the owner
    | Count(seen: nat, epoch: nat)     // wait: counter loaded, about to increment `waiting`
    | Release(seen: nat, epoch: nat)   // wait: about to unlock the mutex
    | Futex(seen: nat, epoch: nat)     // wait: about to futex-wait on the counter
    | Asleep(seen: nat, epoch: nat, since: nat) // wait: blocked in the futex
    | Leave                            // wait: about to decrement `waiting`
    | Relock                           // wait: locking the mutex again
    | OneWake                          // notify_one: counter incremented, about to wake_one
    | AllLoad(mine: nat)               // notify_all: incremented the counter, about to load `waiting`
    | AllWake(mine: nat)               // notify_all: about to wake_all

  datatype State = State(
    owner: nat,                        // the word of the mutex
    counter: nat,
    waiting: nat,
    flag: bool,                        // the predicate the waiters wait for
    pcs: map<Tid, Pc>,
    saw: set<Tid>,                     // history: threads that found the flag false when they last checked
    epoch: nat,                        // history: notifications so far
    completed: nat,                    // history: the latest `mine` of a notify_all that has returned
    flagEpoch: nat)                    // history: notifications before the flag last became true

  datatype Move =
    | Lock(t: Tid)
    | Unlock(t: Tid)
    | Check(t: Tid)
    | Write(t: Tid, value: bool)
    | Wait(t: Tid)
    | NotifyOne(t: Tid, woken: Tid)
    | NotifyAll(t: Tid)
    | SpuriousWake(t: Tid)

  ghost predicate Init(s: State) {
    && s.owner == FREE && s.counter == s.waiting == 0 && !s.flag
    && FREE !in s.pcs && |s.pcs| <= U32_MAX
    && (forall t | t in s.pcs :: s.pcs[t] == Outside)
    && s.saw == {} && s.epoch == s.completed == s.flagEpoch == 0
  }

  ghost predicate HoldsOutside(s: State, t: Tid) {
    t in s.pcs && s.pcs[t].Outside? && s.owner == t
  }

  predicate InWait(pc: Pc) {
    pc.Count? || pc.Release? || pc.Futex? || pc.Leave?
  }

  predicate IsAsleep(pc: Pc) { pc.Asleep? }

  ghost predicate Enabled(s: State, m: Move) {
    && m.t in s.pcs
    && match m
       case Lock(t) => s.pcs[t].Outside? || s.pcs[t].Relock?
       case Unlock(t) => HoldsOutside(s, t)
       case Check(t) => HoldsOutside(s, t)
       case Write(t, _) => HoldsOutside(s, t)
       case Wait(t) => HoldsOutside(s, t) || InWait(s.pcs[t])
       case NotifyOne(t, woken) =>
         && (s.pcs[t].Outside? || s.pcs[t].OneWake?)
         && ((exists u :: u in s.pcs && s.pcs[u].Asleep?) ==> woken in s.pcs && s.pcs[woken].Asleep?)
       case NotifyAll(t) => s.pcs[t].Outside? || s.pcs[t].AllLoad? || s.pcs[t].AllWake?
       case SpuriousWake(t) => s.pcs[t].Asleep?
  }

  ghost function Goto(s: State, t: Tid, pc: Pc): State {
    s.(pcs := s.pcs[t := pc])
  }

  function WakeOne(pcs: map<Tid, Pc>, woken: Tid): map<Tid, Pc> {
    if woken in pcs && pcs[woken].Asleep? then pcs[woken := Leave] else pcs
  }

  function WakeAll(pcs: map<Tid, Pc>): map<Tid, Pc> {
    map t | t in pcs :: if pcs[t].Asleep? then Leave else pcs[t]
  }

  ghost function StepMutex(s: State, m: Move): State
    requires Enabled(s, m) && (m.Lock? || m.Unlock? || m.Check? || m.Write?)
  {
    match m
    case Lock(t) =>
      if s.owner == FREE then s.(owner := t, saw := s.saw - {t}, pcs := s.pcs[t := Outside]) else s
    case Unlock(t) => s.(owner := FREE, saw := s.saw - {t})
    case Check(t) => s.(saw := if s.flag then s.saw - {t} else s.saw + {t})
    case Write(t, value) =>
      s.(flag := value, saw := s.saw - {t}, flagEpoch := if value && !s.flag then s.epoch else s.flagEpoch)
  }

  ghost function StepWait(s: State, t: Tid): (s': State)
    requires Enabled(s, Wait(t))
    ensures t in s'.pcs && s'.pcs == s.pcs[t := s'.pcs[t]]
  {
    match s.pcs[t]
    case Outside => Goto(s, t, Count(s.counter, s.epoch))
    case Count(seen, epoch) => Goto(s.(waiting := AddU32(s.waiting, 1)), t, Release(seen, epoch))
    case Release(seen, epoch) => Goto(s.(owner := FREE), t, Futex(seen, epoch))
    case Futex(seen, epoch) => Goto(s, t, if s.counter == seen then Asleep(seen, epoch, s.epoch) else Leave)
    case Leave => Goto(s.(waiting := SubU32(s.waiting, 1)), t, Relock)
  }

  ghost function Increment(s: State): State {
    s.(counter := AddU32(s.counter, 1), epoch := s.epoch + 1)
  }

  ghost function Complete(s: State, mine: nat): State {
    s.(completed := if mine > s.completed then mine else s.completed)
  }

  ghost function StepNotifyOne(s: State, t: Tid, woken: Tid): State
    requires Enabled(s, NotifyOne(t, woken))
  {
    match s.pcs[t]
    case Outside => Goto(Increment(s), t, OneWake)
    case OneWake => s.(pcs := WakeOne(s.pcs[t := Outside], woken))
  }

  ghost function StepNotifyAll(s: State, t: Tid): State
    requires Enabled(s, NotifyAll(t))
  {
    match s.pcs[t]
    case Outside => Goto(Increment(s), t, AllLoad(s.epoch + 1))
    case AllLoad(mine) => if s.waiting != 0 then Goto(s, t, AllWake(mine)) else Goto(Complete(s, mine), t, Outside)
    case AllWake(mine) => Complete(s, mine).(pcs := WakeAll(s.pcs[t := Outside]))
  }

  ghost function Step(s: State, m: Move): State
    requires Enabled(s, m)
  {
    match m
    case Lock(_) => StepMutex(s, m)
    case Unlock(_) => StepMutex(s, m)
    case Check(_) => StepMutex(s, m)
    case Write(_, _) => StepMutex(s, m)
    case Wait(t) => StepWait(s, t)
    case NotifyOne(t, woken) => StepNotifyOne(s, t, woken)
    case NotifyAll(t) => StepNotifyAll(s, t)
    case SpuriousWake(t) => Goto(s, t, Leave)
  }

  predicate HasSnapshot(pc: Pc) {
    pc.Count? || pc.Release? || pc.Futex? || pc.Asleep?
  }

  ghost predicate Next(s: State, m: Move, s': State) {
    Enabled(s, m) && s' == Step(s, m)
  }

  /** Between the increment and the decrement of `waiting`. */
  predicate Counted(pc: Pc) {
    pc.Release? || pc.Futex? || pc.Asleep? || pc.Leave?
  }

  ghost predicate Shape(s: State) {
    && FREE !in s.pcs && |s.pcs| <= U32_MAX
    && s.counter == s.epoch % U32_RANGE
    && s.waiting == Counting.Count(s.pcs, Counted)
    && s.completed <= s.epoch && s.flagEpoch <= s.epoch
    && (forall t | t in s.pcs && HasSnapshot(s.pcs[t]) ::
          s.pcs[t].epoch <= s.epoch && s.pcs[t].seen == s.pcs[t].epoch % U32_RANGE)
    && (forall t | t in s.pcs && (s.pcs[t].AllLoad? || s.pcs[t].AllWake?) :: s.pcs[t].mine <= s.epoch)
    && (forall t | t in s.pcs && (s.pcs[t].Count? || s.pcs[t].Release?) :: s.owner == t)
  }

  /** The counter was at a sleeper's snapshot when it fell asleep, and no notify_all has completed since. */
  ghost predicate SleepersDated(s: State) {
    forall t | t in s.pcs && s.pcs[t].Asleep? ::
      && s.completed <= s.pcs[t].since <= s.epoch
      && s.pcs[t].epoch <= s.pcs[t].since && (s.pcs[t].since - s.pcs[t].epoch) % U32_RANGE == 0
  }

  /** What a thread saw under the mutex stays true while it holds it; afterwards its snapshot dates what it saw. */
  ghost predicate SawFalse(s: State) {
    && s.saw <= s.pcs.Keys
    && (forall t | t in s.saw && s.owner == t :: !s.flag)
    && (forall t | t in s.saw && t in s.pcs && (s.pcs[t].Futex? || s.pcs[t].Asleep?) && s.flag ::
          s.pcs[t].epoch <= s.flagEpoch)
  }

  ghost predicate Inv(s: State) {
    Shape(s) && SleepersDated(s) && SawFalse(s)
  }

  /** One thread moves to `pc`: what happens to the number of counted waiters. */
  lemma CountedAfter(pcs: map<Tid, Pc>, t: Tid, pc: Pc)
    requires t in pcs
    ensures |pcs[t := pc]| == |pcs|
    ensures Counting.Count(pcs[t := pc], Counted)
         == Counting.Count(pcs, Counted) - Bit(Counted(pcs[t])) + Bit(Counted(pc))
    ensures Counting.Count(pcs[t := pc], Counted) <= |pcs|
  {
    CountUpdate(pcs, t, pc, Counted);
    CountBound(pcs[t := pc], Counted);
    assert |pcs[t := pc].Keys| == |pcs.Keys|;
  }

  lemma MutexKeepsInv(s: State, m: Move)
    requires Inv(s) && Enabled(s, m) && (m.Lock? || m.Unlock? || m.Check? || m.Write?)
    ensures Inv(StepMutex(s, m))
  {
    if m.Lock? {
      CountedAfter(s.pcs, m.t, Outside);
    }
  }

  /** Equal counters mean that a multiple of 2^32 notifications has come in between. */
  lemma FutexKeepsInv(s: State, t: Tid)
    requires Inv(s) && Enabled(s, Wait(t)) && s.pcs[t].Futex?
    ensures Inv(StepWait(s, t))
    ensures s.pcs[t].epoch <= s.epoch
    ensures StepWait(s, t).pcs[t].Asleep? <==> (s.epoch - s.pcs[t].epoch) % U32_RANGE == 0
  {
    CountedAfter(s.pcs, t, StepWait(s, t).pcs[t]);
    SameResidueIff(s.epoch, s.pcs[t].epoch);
  }

  lemma SameResidueIff(a: nat, b: nat)
    requires b <= a
    ensures a % U32_RANGE == b % U32_RANGE <==> (a - b) % U32_RANGE == 0
  {
  }

  lemma LeaveKeepsInv(s: State, t: Tid)
    requires Inv(s) && Enabled(s, Wait(t)) && s.pcs[t].Leave?
    ensures Inv(StepWait(s, t))
  {
    hide Counting.Count;
    CountedAfter(s.pcs, t, Relock);
  }

  lemma WaitKeepsInv(s: State, t: Tid)
    requires Inv(s) && Enabled(s, Wait(t))
    ensures Inv(StepWait(s, t))
  {
    hide Counting.Count;
    if s.pcs[t].Futex? {
      FutexKeepsInv(s, t);
    } else if s.pcs[t].Leave? {
      LeaveKeepsInv(s, t);
    } else {
      CountedAfter(s.pcs, t, StepWait(s, t).pcs[t]);
    }
  }

  /** Waking rewrites sleepers to `Leave`, which changes no count and no snapshot of anybody awake. */
  ghost predicate OnlyWakes(pcs: map<Tid, Pc>, pcs': map<Tid, Pc>) {
    && pcs'.Keys == pcs.Keys
    && forall t | t in pcs :: pcs'[t] == pcs[t] || (pcs[t].Asleep? && pcs'[t] == Leave)
  }

  lemma WakingKeepsInv(s: State, pcs': map<Tid, Pc>)
    requires Inv(s) && OnlyWakes(s.pcs, pcs')
    ensures Inv(s.(pcs := pcs'))
  {
    CountSame(s.pcs, pcs', Counted);
    assert |pcs'.Keys| == |s.pcs.Keys|;
  }

  lemma GotoKeepsInv(s: State, t: Tid, pc: Pc)
    requires Inv(s) && t in s.pcs && !HasSnapshot(pc) && Counted(pc) == Counted(s.pcs[t])
    requires pc.AllLoad? || pc.AllWake? ==> pc.mine <= s.epoch
    ensures Inv(Goto(s, t, pc))
  {
    CountedAfter(s.pcs, t, pc);
  }

  lemma IncrementKeepsInv(s: State)
    requires Inv(s)
    ensures Inv(Increment(s))
  {
  }

  lemma NotifyOneKeepsInv(s: State, t: Tid, woken: Tid)
    requires Inv(s) && Enabled(s, NotifyOne(t, woken))
    ensures Inv(StepNotifyOne(s, t, woken))
  {
    if s.pcs[t].Outside? {
      IncrementKeepsInv(s);
      GotoKeepsInv(Increment(s), t, OneWake);
    } else {
      GotoKeepsInv(s, t, Outside);
      WakingKeepsInv(Goto(s, t, Outside), WakeOne(s.pcs[t := Outside], woken));
    }
  }

  lemma CompleteKeepsInv(s: State, mine: nat)
    requires Inv(s) && mine <= s.epoch && forall t | t in s.pcs :: !s.pcs[t].Asleep?
    ensures Inv(Complete(s, mine))
  {
  }

  /** Reading `waiting == 0` proves that nobody sleeps ... */
  lemma AllLoadKeepsInv(s: State, t: Tid)
    requires Inv(s) && Enabled(s, NotifyAll(t)) && s.pcs[t].AllLoad?
    ensures Inv(StepNotifyAll(s, t))
  {
    var mine := s.pcs[t].mine;
    assert mine <= s.epoch;
    if s.waiting != 0 {
      hide Inv;
      GotoKeepsInv(s, t, AllWake(mine));
    } else {
      CountZero(s.pcs, Counted);
      CompleteKeepsInv(s, mine);
      hide Inv;
      GotoKeepsInv(Complete(s, mine), t, Outside);
    }
  }

  /** ... otherwise `wake_all` sees to it. */
  lemma AllWakeKeepsInv(s: State, t: Tid)
    requires Inv(s) && Enabled(s, NotifyAll(t)) && s.pcs[t].AllWake?
    ensures Inv(StepNotifyAll(s, t))
  {
    var mine := s.pcs[t].mine;
    assert mine <= s.epoch;
    hide Inv;
    GotoKeepsInv(s, t, Outside);
    var woken := s.(pcs := WakeAll(s.pcs[t := Outside]));
    WakingKeepsInv(Goto(s, t, Outside), woken.pcs);
    CompleteKeepsInv(woken, mine);
  }

  lemma NotifyAllKeepsInv(s: State, t: Tid)
    requires Inv(s) && Enabled(s, NotifyAll(t))
    ensures Inv(StepNotifyAll(s, t))
  {
    hide Inv;
    match s.pcs[t]
    case Outside =>
      IncrementKeepsInv(s);
      GotoKeepsInv(Increment(s), t, AllLoad(s.epoch + 1));
    case AllLoad(_) => AllLoadKeepsInv(s, t);
    case AllWake(_) => AllWakeKeepsInv(s, t);
  }

  lemma StepKeepsInv(s: State, m: Move)
    requires Inv(s) && Enabled(s, m)
    ensures Inv(Step(s, m))
  {
    match m
    case Lock(_) => MutexKeepsInv(s, m);
    case Unlock(_) => MutexKeepsInv(s, m);
    case Check(_) => MutexKeepsInv(s, m);
    case Write(_, _) => MutexKeepsInv(s, m);
    case Wait(t) => WaitKeepsInv(s, t);
    case NotifyOne(t, woken) => NotifyOneKeepsInv(s, t, woken);
    case NotifyAll(t) => NotifyAllKeepsInv(s, t);
    case SpuriousWake(t) => GotoKeepsInv(s, t, Leave);
  }

  lemma InitEstablishesInv(s: State)
    requires Init(s)
    ensures Inv(s)
  {
    CountZero(s.pcs, Counted);
  }

  lemma ReachableInv(states: seq<State>, moves: seq<Move>, i: nat)
    requires IsRun(Init, Next, states, moves) && i < |states|
    ensures Inv(states[i])
  {
    forall s | Init(s) ensures Inv(s) { InitEstablishesInv(s); }
    forall s, m, s' | Inv(s) && Next(s, m, s') ensures Inv(s') { StepKeepsInv(s, m); }
    Invariance(Init, Next, Inv, states, moves, i);
  }

  lemma StepKeepsCompleted(s: State, m: Move)
    requires Enabled(s, m)
    ensures s.completed <= Step(s, m).completed
    ensures s.flag ==> Step(s, m).flagEpoch == s.flagEpoch
    ensures m.Write? && m.value && !s.flag ==> Step(s, m).flagEpoch == s.epoch
  {
  }

  lemma CompletedStays(states: seq<State>, moves: seq<Move>, j: nat, k: nat, mine: nat)
    requires IsRun(Init, Next, states, moves) && j <= k < |states| && mine <= states[j].completed
    ensures mine <= states[k].completed
  {
    var reached := (s: State) => mine <= s.completed;
    forall s | Init(s) ensures Inv(s) { InitEstablishesInv(s); }
    forall s, m, s' | Inv(s) && Next(s, m, s') ensures Inv(s') { StepKeepsInv(s, m); }
    forall s, m, s' | Inv(s) && reached(s) && Next(s, m, s') ensures reached(s') { StepKeepsCompleted(s, m); }
    Stability(Init, Next, Inv, reached, states, moves, j, k);
  }

  /** Move `j` is the last instruction of the `notify_all` of thread `u` whose increment was the `mine`-th. */
  ghost predicate Returns(states: seq<State>, moves: seq<Move>, j: nat, u: Tid, mine: nat)
    requires |states| == |moves| + 1 && j < |moves|
  {
    && moves[j] == NotifyAll(u) && u in states[j].pcs && u in states[j + 1].pcs
    && (states[j].pcs[u] == AllLoad(mine) || states[j].pcs[u] == AllWake(mine))
    && states[j + 1].pcs[u].Outside?
  }

  /**
   `notify_all` is complete: from its return on, every sleeper fell asleep after its increment,
   whether it slept before, was about to, or tries to later, and even when `waiting` read 0. So a
   sleeper whose snapshot precedes the increment fell asleep a positive multiple of 2^32
   notifications after that snapshot, and there is none if fewer came in between.
   */
  lemma NotifyAllLeavesNoStaleSleeper(
      states: seq<State>, moves: seq<Move>, j: nat, k: nat, u: Tid, mine: nat, t: Tid)
    requires IsRun(Init, Next, states, moves) && j < k < |states|
    requires Returns(states, moves, j, u, mine)
    requires t in states[k].pcs && states[k].pcs[t].Asleep?
    ensures mine <= states[k].pcs[t].since
    ensures states[k].pcs[t].epoch < mine ==>
              && states[k].pcs[t].since > states[k].pcs[t].epoch
              && (states[k].pcs[t].since - states[k].pcs[t].epoch) % U32_RANGE == 0
    ensures states[k].pcs[t].since - states[k].pcs[t].epoch < U32_RANGE ==> mine <= states[k].pcs[t].epoch
  {
    assert Next(states[j], moves[j], states[j + 1]);
    CompletedStays(states, moves, j + 1, k, mine);
    ReachableInv(states, moves, k);
  }

  /**
   The exact law of falling asleep, in all runs: a thread at its futex wait falls asleep iff the number
   of notifications since its snapshot is a multiple of 2^32.
   */
  lemma SleepsIffMultiple(states: seq<State>, moves: seq<Move>, i: nat, t: Tid)
    requires IsRun(Init, Next, states, moves) && i < |states|
    requires t in states[i].pcs && states[i].pcs[t].Futex?
    ensures states[i].pcs[t].epoch <= states[i].epoch
    ensures StepWait(states[i], t).pcs[t].Asleep? <==> (states[i].epoch - states[i].pcs[t].epoch) % U32_RANGE == 0
  {
    ReachableInv(states, moves, i);
    FutexKeepsInv(states[i], t);
  }

  /** Hence it falls asleep although it was notified iff that number is a positive multiple, 2^32 at least. */
  lemma MissesItsWakeupIff(states: seq<State>, moves: seq<Move>, i: nat, t: Tid)
    requires IsRun(Init, Next, states, moves) && i < |states|
    requires t in states[i].pcs && states[i].pcs[t].Futex?
    ensures var passed := states[i].epoch - states[i].pcs[t].epoch;
      passed > 0 && StepWait(states[i], t).pcs[t].Asleep? <==> passed >= U32_RANGE && passed % U32_RANGE == 0
  {
    SleepsIffMultiple(states, moves, i, t);
  }

  lemma {:induction false} FlagEpochStays(states: seq<State>, moves: seq<Move>, i: nat, k: nat)
    requires IsRun(Init, Next, states, moves) && i < k < |states|
    requires moves[i].Write? && moves[i].value && !states[i].flag
    requires forall l | i < l <= k :: states[l].flag
    ensures states[k].flagEpoch == states[i].epoch
    decreases k
  {
    assert Next(states[k - 1], moves[k - 1], states[k - 1 + 1]);
    StepKeepsCompleted(states[k - 1], moves[k - 1]);
    if i < k - 1 {
      FlagEpochStays(states, moves, i, k - 1);
    }
  }

  /**
   Together with mutual exclusion: once the predicate was set under the mutex (move `i`) and a
   `notify_all` that incremented after that has returned (move `j`), a thread that found the
   predicate false sleeps, while the predicate stays true, only if 2^32 notifications or more came
   between its snapshot and its falling asleep.
   */
  lemma WaitersNeverMissThePredicate(
      states: seq<State>, moves: seq<Move>, i: nat, j: nat, k: nat, u: Tid, mine: nat)
    requires IsRun(Init, Next, states, moves) && i < j < k < |states|
    requires moves[i].Write? && moves[i].value && !states[i].flag
    requires forall l | i < l <= k :: states[l].flag
    requires Returns(states, moves, j, u, mine) && states[i].epoch < mine
    ensures forall t | t in states[k].pcs && t in states[k].saw && states[k].pcs[t].Asleep? ::
              states[k].pcs[t].since - states[k].pcs[t].epoch >= U32_RANGE
  {
    FlagEpochStays(states, moves, i, k);
    ReachableInv(states, moves, k);
    forall t | t in states[k].pcs && t in states[k].saw && states[k].pcs[t].Asleep?
      ensures states[k].pcs[t].since - states[k].pcs[t].epoch >= U32_RANGE
    {
      NotifyAllLeavesNoStaleSleeper(states, moves, j, k, u, mine, t);
    }
  }

  /** Thread 1 is about to sleep on a snapshot that `n` notifications have overtaken; thread 2 is at `pc`. */
  ghost function Overtaken(n: nat, completed: nat, pc: Pc): State {
    State(FREE, n % U32_RANGE, 1, false, map[1 := Futex(0, 0), 2 := pc], {}, n, completed, 0)
  }

  lemma OvertakeOnce(n: nat)
    ensures Next(Overtaken(n, n, Outside), NotifyAll(2), Overtaken(n + 1, n, AllLoad(n + 1)))
    ensures Next(Overtaken(n + 1, n, AllLoad(n + 1)), NotifyAll(2), Overtaken(n + 1, n, AllWake(n + 1)))
    ensures Next(Overtaken(n + 1, n, AllWake(n + 1)), NotifyAll(2), Overtaken(n + 1, n + 1, Outside))
  {
    var s := Overtaken(n, n, Outside);
    assert s.pcs[2 := AllLoad(n + 1)] == Overtaken(n + 1, n, AllLoad(n + 1)).pcs;
    assert s.pcs[2 := AllWake(n + 1)] == Overtaken(n + 1, n, AllWake(n + 1)).pcs;
    assert WakeAll(s.pcs) == s.pcs == Overtaken(n + 1, n, AllWake(n + 1)).pcs[2 := Outside];
  }

  lemma OvertakeFromTheStart() returns (states: seq<State>, moves: seq<Move>)
    ensures IsRun(Init, Next, states, moves) && states[|moves|] == Overtaken(0, 0, Outside)
  {
    var pcs: map<Tid, Pc> := map[1 := Outside, 2 := Outside];
    assert |pcs.Keys| == |{1, 2}|;
    var s0 := State(FREE, 0, 0, false, pcs, {}, 0, 0, 0);
    var s1 := s0.(owner := 1);
    assert Step(s0, Lock(1)).pcs == s1.pcs;
    var s2 := s1.(pcs := pcs[1 := Count(0, 0)]);
    var s3 := s1.(pcs := pcs[1 := Release(0, 0)], waiting := 1);
    assert Step(s2, Wait(1)).pcs == s3.pcs;
    var s4 := Overtaken(0, 0, Outside);
    assert Step(s3, Wait(1)).pcs == s4.pcs;
    states, moves := [s0, s1, s2, s3, s4], [Lock(1), Wait(1), Wait(1), Wait(1)];
  }

  lemma {:induction false} OvertakenReachable(n: nat) returns (states: seq<State>, moves: seq<Move>)
    ensures IsRun(Init, Next, states, moves) && states[|moves|] == Overtaken(n, n, Outside)
  {
    if n == 0 {
      states, moves := OvertakeFromTheStart();
    } else {
      states, moves := OvertakenReachable(n - 1);
      OvertakeOnce(n - 1);
      var (s1, s2, s3) :=
        (Overtaken(n, n - 1, AllLoad(n)), Overtaken(n, n - 1, AllWake(n)), Overtaken(n, n, Outside));
      ExtendThrice(Init, Next, states, moves, NotifyAll(2), s1, s2, s3);
      states, moves := states + [s1, s2, s3], moves + [NotifyAll(2), NotifyAll(2), NotifyAll(2)];
    }
  }

  /** The bound is needed: after exactly 2^32 completed `notify_all`s the stale waiter does fall asleep. */
  lemma WrapAroundLosesTheWakeup() returns (states: seq<State>, moves: seq<Move>)
    ensures IsRun(Init, Next, states, moves)
    ensures var s := states[|moves|]; 1 in s.pcs && s.pcs[1].Asleep? && s.pcs[1].epoch < s.completed
  {
    states, moves := OvertakenReachable(U32_RANGE);
    var s := Step(Overtaken(U32_RANGE, U32_RANGE, Outside), Wait(1));
    Extend(Init, Next, states, moves, Wait(1), s);
    states, moves := states + [s], moves + [Wait(1)];
  }

  /** What a step of the mutex's own code does to its word: nothing, a lock by its thread, or an unlock. */
  ghost predicate Projects(s: State, m: V1.Move, word: nat) {
    || word == s.owner
    || (Enabled(s, Lock(m.t)) && s.owner == FREE && word == Step(s, Lock(m.t)).owner)
    || (Enabled(s, Unlock(m.t)) && word == Step(s, Unlock(m.t)).owner)
  }

  lemma MutexProjects(a: V1.State, m: V1.Move, s: State)
    requires V1.Inv(a) && V1.Enabled(a, m) && s.owner == a.word && m.t in s.pcs && s.pcs[m.t].Outside?
    ensures Projects(s, m, V1.Step(a, m).word)
  {
    hide V1.QueueExclusive, V1.WakeupsConserved;
    V1.StepChangesHands(a, m);
  }

  /**
   Every run of the mutex's code is, as far as its word is concerned, a run of `Lock` and `Unlock`
   here, so what is proved of `owner` holds of the real word.
   */
  lemma {:induction false} MutexRunsProject(words: seq<V1.State>, done: seq<V1.Move>)
      returns (states: seq<State>, moves: seq<Move>)
    requires IsRun(V1.Init, V1.Next, words, done) && |words[0].pcs| <= U32_MAX
    ensures IsRun(Init, Next, states, moves)
    ensures states[|moves|].owner == words[|done|].word && states[|moves|].pcs.Keys == words[|done|].pcs.Keys
    ensures forall t | t in states[|moves|].pcs :: states[|moves|].pcs[t].Outside?
    ensures forall m | m in moves :: m.Lock? || m.Unlock?
    decreases |done|
  {
    hide V1.Init, V1.Step, V1.Enabled, V1.Inv, Init, Next;
    if |done| == 0 {
      states, moves := ProjectStart(words[0]);
    } else {
      var n := |done| - 1;
      assert IsRun(V1.Init, V1.Next, words[..n + 1], done[..n]) by { Shorter(words, done); }
      assert words[..n + 1][n] == words[n] && words[..n + 1][0] == words[0];
      states, moves := MutexRunsProject(words[..n + 1], done[..n]);
      assert V1.Next(words[n], done[n], words[n + 1]);
      V1.ReachableInv(words, done, n);
      states, moves := ProjectStep(words[n], done[n], states, moves);
    }
  }

  lemma Shorter(words: seq<V1.State>, done: seq<V1.Move>)
    requires IsRun(V1.Init, V1.Next, words, done) && |done| > 0
    ensures IsRun(V1.Init, V1.Next, words[..|done|], done[..|done| - 1])
  {
    hide V1.Init, V1.Next;
    forall i | 0 <= i < |done| - 1 ensures V1.Next(words[..|done|][i], done[..|done| - 1][i], words[..|done|][i + 1]) {
      assert V1.Next(words[i], done[i], words[i + 1]);
    }
  }

  lemma ProjectStart(a: V1.State) returns (states: seq<State>, moves: seq<Move>)
    requires V1.Init(a) && |a.pcs| <= U32_MAX
    ensures IsRun(Init, Next, states, moves) && moves == []
    ensures states[0].owner == a.word && states[0].pcs.Keys == a.pcs.Keys
    ensures forall t | t in states[0].pcs :: states[0].pcs[t].Outside?
  {
    var pcs: map<Tid, Pc> := map t | t in a.pcs :: Outside;
    assert pcs.Keys == a.pcs.Keys;
    assert |pcs.Keys| == |a.pcs.Keys|;
    states, moves := [State(FREE, 0, 0, false, pcs, {}, 0, 0, 0)], [];
  }

  lemma ProjectStep(a: V1.State, m: V1.Move, states0: seq<State>, moves0: seq<Move>)
      returns (states: seq<State>, moves: seq<Move>)
    requires V1.Inv(a) && V1.Enabled(a, m) && IsRun(Init, Next, states0, moves0)
    requires states0[|moves0|].owner == a.word && states0[|moves0|].pcs.Keys == a.pcs.Keys
    requires forall t | t in states0[|moves0|].pcs :: states0[|moves0|].pcs[t].Outside?
    requires forall m | m in moves0 :: m.Lock? || m.Unlock?
    ensures IsRun(Init, Next, states, moves)
    ensures states[|moves|].owner == V1.Step(a, m).word && states[|moves|].pcs.Keys == V1.Step(a, m).pcs.Keys
    ensures forall t | t in states[|moves|].pcs :: states[|moves|].pcs[t].Outside?
    ensures forall m | m in moves :: m.Lock? || m.Unlock?
  {
    hide V1.Inv, V1.Step, Init;
    var s := states0[|moves0|];
    MutexProjects(a, m, s);
    var word := V1.Step(a, m).word;
    if word == s.owner {
      states, moves := states0, moves0;
    } else if Enabled(s, Lock(m.t)) && s.owner == FREE && word == Step(s, Lock(m.t)).owner {
      Extend(Init, Next, states0, moves0, Lock(m.t), Step(s, Lock(m.t)));
      states, moves := states0 + [Step(s, Lock(m.t))], moves0 + [Lock(m.t)];
    } else {
      Extend(Init, Next, states0, moves0, Unlock(m.t), Step(s, Unlock(m.t)));
      states, moves := states0 + [Step(s, Unlock(m.t))], moves0 + [Unlock(m.t)];
    }
  }

  /** Whoever the futex picks, the last access of `notify_one` wakes one sleeper, if there is one. */
  lemma NotifyWakesOne(s: State, t: Tid, woken: Tid)
    requires Enabled(s, NotifyOne(t, woken)) && s.pcs[t].OneWake?
    ensures OneWoken(s.pcs, StepNotifyOne(s, t, woken).pcs, t, Outside, IsAsleep, pc => Leave)
  {
    var pcs' := StepNotifyOne(s, t, woken).pcs;
    if SomeoneSleeps(s.pcs, IsAsleep) {
      var u :| u in s.pcs && IsAsleep(s.pcs[u]);
      assert s.pcs[u].Asleep?;
      assert IsWoken(s.pcs, pcs', woken, IsAsleep, pc => Leave);
      assert NobodyElse(s.pcs, pcs', t, woken);
    }
  }

  /** The condition variable, with the word of the mutex and the predicate it is used with. */
  class CondVar {
    var owner: nat
    var counter: nat
    var waiting: nat
    var flag: bool
    var pcs: map<Tid, Pc>
    ghost var saw: set<Tid>
    var epoch: nat                     // history only: copied into snapshots, never tested
    ghost var completed: nat
    ghost var flagEpoch: nat

    ghost function View(): State
      reads this
    {
      State(owner, counter, waiting, flag, pcs, saw, epoch, completed, flagEpoch)
    }

    constructor (threads: set<Tid>)
      requires FREE !in threads && |threads| <= U32_MAX
      ensures Init(View()) && Inv(View()) && pcs.Keys == threads
    {
      owner, counter, waiting, flag := FREE, 0, 0, false;
      pcs := map t | t in threads :: Outside;
      saw, epoch, completed, flagEpoch := {}, 0, 0, 0;
      new;
      assert pcs.Keys == threads;
      InitEstablishesInv(View());
    }

    /** Lock the mutex if it is free; inside `wait` this ends the call. */
    method Lock(t: Tid) returns (locked: bool)
      requires Inv(View()) && Enabled(View(), Move.Lock(t))
      modifies this
      ensures View() == Step(old(View()), Move.Lock(t)) && Inv(View())
      ensures locked <==> old(owner) == FREE
    {
      StepKeepsInv(View(), Move.Lock(t));
      hide Inv;
      locked := owner == FREE;
      if locked {
        owner, saw := t, saw - {t};
        pcs := pcs[t := Outside];
      }
    }

    method Unlock(t: Tid)
      requires Inv(View()) && Enabled(View(), Move.Unlock(t))
      modifies this
      ensures View() == Step(old(View()), Move.Unlock(t)) && Inv(View())
    {
      StepKeepsInv(View(), Move.Unlock(t));
      hide Inv;
      owner, saw := FREE, saw - {t};
    }

    /** A waiter looks at the predicate while it holds the mutex. */
    method Check(t: Tid) returns (value: bool)
      requires Inv(View()) && Enabled(View(), Move.Check(t))
      modifies this
      ensures View() == Step(old(View()), Move.Check(t)) && Inv(View()) && value == flag
    {
      StepKeepsInv(View(), Move.Check(t));
      hide Inv;
      value := flag;
      saw := if value then saw - {t} else saw + {t};
    }

    /** Somebody sets or clears the predicate while it holds the mutex. */
    method Write(t: Tid, value: bool)
      requires Inv(View()) && Enabled(View(), Move.Write(t, value))
      modifies this
      ensures View() == Step(old(View()), Move.Write(t, value)) && Inv(View())
    {
      StepKeepsInv(View(), Move.Write(t, value));
      hide Inv;
      if value && !flag {
        flagEpoch := epoch;
      }
      flag, saw := value, saw - {t};
    }

    /** The next atomic instruction of `wait`, up to relocking. */
    method Wait(t: Tid)
      requires Inv(View()) && Enabled(View(), Move.Wait(t))
      modifies this
      ensures View() == Step(old(View()), Move.Wait(t)) && Inv(View())
    {
      StepKeepsInv(View(), Move.Wait(t));
      hide Inv, Step, Enabled;
      WaitAccess(t);
    }

    /** The access itself. */
    method WaitAccess(t: Tid)
      requires Enabled(View(), Move.Wait(t))
      modifies this
      ensures t in pcs && View() == StepWait(old(View()), t)
    {
      match pcs[t] {
        case Outside =>
          pcs := pcs[t := Count(counter, epoch)];
        case Count(seen, snapshot) =>
          waiting := AddU32(waiting, 1);
          pcs := pcs[t := Release(seen, snapshot)];
        case Release(seen, snapshot) =>
          owner := FREE;
          pcs := pcs[t := Futex(seen, snapshot)];
        case Futex(seen, snapshot) =>
          pcs := pcs[t := if counter == seen then Asleep(seen, snapshot, epoch) else Leave];
        case Leave =>
          waiting := SubU32(waiting, 1);
          pcs := pcs[t := Relock];
      }
    }

    /** The next atomic instruction of `notify_one`. */
    method NotifyOne(t: Tid, woken: Tid)
      requires Inv(View()) && Enabled(View(), Move.NotifyOne(t, woken))
      modifies this
      ensures View() == Step(old(View()), Move.NotifyOne(t, woken)) && Inv(View())
      ensures old(pcs)[t].OneWake? ==> OneWoken(old(pcs), pcs, t, Outside, IsAsleep, pc => Leave)
    {
      StepKeepsInv(View(), Move.NotifyOne(t, woken));
      if pcs[t].OneWake? {
        NotifyWakesOne(View(), t, woken);
      }
      hide Inv, OneWoken;
      match pcs[t] {
        case Outside =>
          counter, epoch := AddU32(counter, 1), epoch + 1;
          pcs := pcs[t := OneWake];
        case OneWake =>
          pcs := WakeOne(pcs[t := Outside], woken);
      }
    }

    /** The next atomic instruction of `notify_all`. */
    method NotifyAll(t: Tid)
      requires Inv(View()) && Enabled(View(), Move.NotifyAll(t))
      modifies this
      ensures View() == Step(old(View()), Move.NotifyAll(t)) && Inv(View())
    {
      StepKeepsInv(View(), Move.NotifyAll(t));
      hide Inv, Step, Enabled;
      NotifyAllAccess(t);
    }

    /** The access itself. */
    method NotifyAllAccess(t: Tid)
      requires Enabled(View(), Move.NotifyAll(t))
      modifies this
      ensures t in pcs && View() == StepNotifyAll(old(View()), t)
    {
      match pcs[t] {
        case Outside =>
          counter, epoch := AddU32(counter, 1), epoch + 1;
          pcs := pcs[t := AllLoad(epoch)];
        case AllLoad(mine) =>
          if waiting != 0 {
            pcs := pcs[t := AllWake(mine)];
          } else {
            completed := if mine > completed then mine else completed;
            pcs := pcs[t := Outside];
          }
        case AllWake(mine) =>
          completed := if mine > completed then mine else completed;
          pcs := WakeAll(pcs[t := Outside]);
      }
    }
  }
}
