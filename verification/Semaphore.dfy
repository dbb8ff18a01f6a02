/**
 The counting semaphore of src/semaphore.rs. Every thread is somewhere inside `wait`,
 `try_wait` or `signal`, or outside; one move executes the next atomic instruction of one thread.
 */
module Semaphores {
  import opened Machine
  import opened Counting
  import opened Runs

  /** Where a thread is; constructor arguments are its local variables. */
  datatype Pc =
    | Idle
    | WaitLoad              // wait: about to load `count`
    | WaitSleep             // wait: read 0, about to futex-wait on `count`
    | Asleep                // wait: blocked in the futex
    | WaitCas(seen: nat)    // wait: about to compare-exchange `seen` with `seen - 1`
    | WaitLeave             // wait: got a permit, about to decrement `num_waiting`
    | TryCas(seen: nat)     // try_wait: about to compare-exchange
    | SignalLoad            // signal: permit added, about to load `num_waiting`
    | SignalWake            // signal: about to call `wake_one`

  predicate InWait(pc: Pc) { pc.WaitLoad? || pc.WaitSleep? || pc.Asleep? || pc.WaitCas? || pc.WaitLeave? }
  predicate IsAsleep(pc: Pc) { pc.Asleep? }
  predicate IsAwakeInLoop(pc: Pc) { pc.WaitLoad? || pc.WaitSleep? || pc.WaitCas? }
  predicate IsSignalling(pc: Pc) { pc.SignalLoad? || pc.SignalWake? }

  /** `initial`, `signals` and `acquired` are history: permits at the start, added, and taken. */
  datatype State = State(count: nat, numWaiting: nat, pcs: map<Tid, Pc>,
                         initial: nat, signals: nat, acquired: nat)

  datatype Move =
    | Wait(t: Tid, spurious: bool)     // `spurious`: a weak compare-exchange fails for no reason
    | TryWait(t: Tid, spurious: bool)
    | Signal(t: Tid, woken: Tid)       // `woken`: whom the futex picks, if anyone sleeps
    | SpuriousWake(t: Tid)             // the futex returns without a wake

  ghost predicate Init(s: State) {
    && s.count == s.initial <= U32_MAX
    && s.numWaiting == s.signals == s.acquired == 0
    && |s.pcs| <= U32_MAX
    && forall t | t in s.pcs :: s.pcs[t] == Idle
  }

  ghost predicate Enabled(s: State, m: Move) {
    m.t in s.pcs &&
    match m
    case Wait(t, _) => s.pcs[t].Idle? || (InWait(s.pcs[t]) && !s.pcs[t].Asleep?)
    case TryWait(t, _) => s.pcs[t].Idle? || s.pcs[t].TryCas?
    case Signal(t, woken) =>
      && (s.pcs[t].Idle? || IsSignalling(s.pcs[t]))
      && ((exists u :: u in s.pcs && s.pcs[u].Asleep?) ==> woken in s.pcs && s.pcs[woken].Asleep?)
    case SpuriousWake(t) => s.pcs[t].Asleep?
  }

  function WakeOne(pcs: map<Tid, Pc>, woken: Tid): map<Tid, Pc> {
    if woken in pcs && pcs[woken].Asleep? then pcs[woken := WaitLoad] else pcs
  }

  /** Of all threads, only `t` goes anywhere. */
  ghost predicate OnlyMoves(s: State, t: Tid, s': State) {
    t in s.pcs && t in s'.pcs && s'.pcs == s.pcs[t := s'.pcs[t]]
  }

  ghost function Step(s: State, m: Move): State
    requires Enabled(s, m)
  {
    match m
    case Wait(t, spurious) => StepWait(s, t, spurious)
    case TryWait(t, spurious) => StepTryWait(s, t, spurious)
    case Signal(t, woken) => StepSignal(s, t, woken)
    case SpuriousWake(t) => s.(pcs := s.pcs[t := WaitLoad])
  }

  ghost function StepWait(s: State, t: Tid, spurious: bool): (s': State)
    requires Enabled(s, Wait(t, spurious))
    ensures OnlyMoves(s, t, s')
  {
    match s.pcs[t]
    case Idle => s.(numWaiting := AddU32(s.numWaiting, 1), pcs := s.pcs[t := WaitLoad])
    case WaitLoad => s.(pcs := s.pcs[t := if s.count == 0 then WaitSleep else WaitCas(s.count)])
    case WaitSleep => s.(pcs := s.pcs[t := if s.count == 0 then Asleep else WaitLoad])
    case WaitCas(seen) =>
      if s.count == seen && !spurious
      then s.(count := SubU32(seen, 1), acquired := s.acquired + 1, pcs := s.pcs[t := WaitLeave])
      else s.(pcs := s.pcs[t := WaitLoad])
    case WaitLeave => s.(numWaiting := SubU32(s.numWaiting, 1), pcs := s.pcs[t := Idle])
  }

  ghost function StepTryWait(s: State, t: Tid, spurious: bool): (s': State)
    requires Enabled(s, TryWait(t, spurious))
    ensures OnlyMoves(s, t, s')
  {
    match s.pcs[t]
    case Idle => s.(pcs := s.pcs[t := if s.count == 0 then Idle else TryCas(s.count)])
    case TryCas(seen) =>
      if s.count == seen && !spurious
      then s.(count := SubU32(seen, 1), acquired := s.acquired + 1, pcs := s.pcs[t := Idle])
      else s.(pcs := s.pcs[t := Idle])
  }

  ghost function StepSignal(s: State, t: Tid, woken: Tid): State
    requires Enabled(s, Signal(t, woken))
  {
    match s.pcs[t]
    case Idle => s.(count := AddU32(s.count, 1), signals := s.signals + 1, pcs := s.pcs[t := SignalLoad])
    case SignalLoad => s.(pcs := s.pcs[t := if s.numWaiting > 0 then SignalWake else Idle])
    case SignalWake => s.(pcs := WakeOne(s.pcs[t := Idle], woken))
  }

  ghost predicate Next(s: State, m: Move, s': State) {
    Enabled(s, m) && s' == Step(s, m)
  }

  /** Permits are conserved, modulo the word size of the counter. */
  ghost predicate Conserved(s: State) {
    && s.acquired <= s.initial + s.signals
    && s.count == (s.initial + s.signals - s.acquired) % U32_RANGE
  }

  /** While anybody sleeps, every permit has an awake waiter or a signaller on its way to it. */
  ghost predicate PermitsCovered(s: State) {
    Count(s.pcs, IsAsleep) > 0 ==> s.count <= Count(s.pcs, IsAwakeInLoop) + Count(s.pcs, IsSignalling)
  }

  ghost predicate Inv(s: State) {
    && |s.pcs| <= U32_MAX
    && s.numWaiting == Count(s.pcs, InWait)
    && (forall t | t in s.pcs :: (s.pcs[t].WaitCas? || s.pcs[t].TryCas?) ==> 0 < s.pcs[t].seen)
    && Conserved(s)
    && PermitsCovered(s)
  }

  lemma InitEstablishesInv(s: State)
    requires Init(s)
    ensures Inv(s)
  {
    CountZero(s.pcs, InWait);
    CountZero(s.pcs, IsAsleep);
  }

  /** Every counter the invariant mentions, after one thread moved to `pc`. */
  lemma Recount(pcs: map<Tid, Pc>, t: Tid, pc: Pc)
    requires t in pcs
    ensures |pcs[t := pc]| == |pcs|
    ensures Count(pcs[t := pc], InWait) == Count(pcs, InWait) - Bit(InWait(pcs[t])) + Bit(InWait(pc))
    ensures Count(pcs[t := pc], IsAsleep) == Count(pcs, IsAsleep) - Bit(IsAsleep(pcs[t])) + Bit(IsAsleep(pc))
    ensures Count(pcs[t := pc], IsAwakeInLoop)
         == Count(pcs, IsAwakeInLoop) - Bit(IsAwakeInLoop(pcs[t])) + Bit(IsAwakeInLoop(pc))
    ensures Count(pcs[t := pc], IsSignalling)
         == Count(pcs, IsSignalling) - Bit(IsSignalling(pcs[t])) + Bit(IsSignalling(pc))
  {
    CountUpdate(pcs, t, pc, InWait);
    CountUpdate(pcs, t, pc, IsAsleep);
    CountUpdate(pcs, t, pc, IsAwakeInLoop);
    CountUpdate(pcs, t, pc, IsSignalling);
    assert pcs[t := pc].Keys == pcs.Keys;
    assert |pcs[t := pc]| == |pcs[t := pc].Keys| && |pcs| == |pcs.Keys|;
  }

  lemma WaitKeepsInv(s: State, t: Tid, spurious: bool)
    requires Inv(s) && Enabled(s, Wait(t, spurious))
    ensures Inv(StepWait(s, t, spurious))
  {
    var s' := StepWait(s, t, spurious);
    Recount(s.pcs, t, s'.pcs[t]);
    CountBound(s'.pcs, InWait);
  }

  lemma TryWaitKeepsInv(s: State, t: Tid, spurious: bool)
    requires Inv(s) && Enabled(s, TryWait(t, spurious))
    ensures Inv(StepTryWait(s, t, spurious))
  {
    Recount(s.pcs, t, StepTryWait(s, t, spurious).pcs[t]);
  }

  /** `wake_one` moves one sleeper, if there is one, back to the top of its loop. */
  lemma WakeOneCounts(pcs: map<Tid, Pc>, woken: Tid)
    requires Count(pcs, IsAsleep) > 0 ==> woken in pcs && pcs[woken].Asleep?
    ensures |WakeOne(pcs, woken)| == |pcs|
    ensures Count(WakeOne(pcs, woken), InWait) == Count(pcs, InWait)
    ensures Count(WakeOne(pcs, woken), IsSignalling) == Count(pcs, IsSignalling)
    ensures Count(pcs, IsAsleep) > 0 ==> Count(WakeOne(pcs, woken), IsAwakeInLoop) == Count(pcs, IsAwakeInLoop) + 1
    ensures Count(pcs, IsAsleep) == 0 ==> WakeOne(pcs, woken) == pcs
  {
    if woken in pcs && pcs[woken].Asleep? {
      Recount(pcs, woken, WaitLoad);
      CountAtLeast(pcs, woken, IsAsleep);
    }
  }

  lemma SignalWakeKeepsInv(s: State, t: Tid, woken: Tid)
    requires Inv(s) && Enabled(s, Signal(t, woken)) && s.pcs[t].SignalWake?
    ensures Inv(StepSignal(s, t, woken))
  {
    var pcs := s.pcs[t := Idle];
    Recount(s.pcs, t, Idle);
    CountZero(pcs, IsAsleep);
    assert Count(pcs, IsAsleep) > 0 ==> woken in pcs && pcs[woken].Asleep? by {
      if Count(pcs, IsAsleep) > 0 {
        var u :| u in pcs && IsAsleep(pcs[u]);
        assert u in s.pcs && s.pcs[u].Asleep?;
      }
    }
    WakeOneCounts(pcs, woken);
  }

  lemma SignalKeepsInv(s: State, t: Tid, woken: Tid)
    requires Inv(s) && Enabled(s, Signal(t, woken))
    ensures Inv(StepSignal(s, t, woken))
  {
    if s.pcs[t].SignalWake? {
      SignalWakeKeepsInv(s, t, woken);
    } else {
      Recount(s.pcs, t, StepSignal(s, t, woken).pcs[t]);
      SleepersWait(s.pcs);
    }
  }

  /** Sleepers have incremented `num_waiting` and not yet decremented it. */
  lemma SleepersWait(pcs: map<Tid, Pc>)
    ensures Count(pcs, IsAsleep) <= Count(pcs, InWait)
  {
    SubsetSize(Members(pcs, IsAsleep), Members(pcs, InWait));
  }

  lemma StepKeepsInv(s: State, m: Move)
    requires Inv(s) && Enabled(s, m)
    ensures Inv(Step(s, m))
  {
    match m
    case Wait(t, spurious) => WaitKeepsInv(s, t, spurious);
    case TryWait(t, spurious) => TryWaitKeepsInv(s, t, spurious);
    case Signal(t, woken) => SignalKeepsInv(s, t, woken);
    case SpuriousWake(t) => Recount(s.pcs, t, WaitLoad);
  }

  lemma ReachableInv(states: seq<State>, moves: seq<Move>, i: nat)
    requires IsRun(Init, Next, states, moves) && i < |states|
    ensures Inv(states[i])
  {
    forall s | Init(s) ensures Inv(s) { InitEstablishesInv(s); }
    forall s, m, s' | Inv(s) && Next(s, m, s') ensures Inv(s') { StepKeepsInv(s, m); }
    Invariance(Init, Next, Inv, states, moves, i);
  }

  /** No wakeup is lost: sleepers never outlast permits that nobody is about to take or announce. */
  lemma NoLostWakeup(states: seq<State>, moves: seq<Move>, i: nat)
    requires IsRun(Init, Next, states, moves) && i < |states|
    ensures (exists t :: t in states[i].pcs && states[i].pcs[t].Asleep?) ==>
              states[i].count <= Count(states[i].pcs, IsAwakeInLoop) + Count(states[i].pcs, IsSignalling)
  {
    ReachableInv(states, moves, i);
    CountZero(states[i].pcs, IsAsleep);
  }

  /** Once every thread is outside the semaphore or asleep, a sleeper proves there is no permit left. */
  lemma SleepersMeanNoPermits(states: seq<State>, moves: seq<Move>, i: nat, sleeper: Tid)
    requires IsRun(Init, Next, states, moves) && i < |states|
    requires sleeper in states[i].pcs && states[i].pcs[sleeper].Asleep?
    requires forall t | t in states[i].pcs :: states[i].pcs[t].Idle? || states[i].pcs[t].Asleep?
    ensures states[i].count == 0
  {
    NoLostWakeup(states, moves, i);
    CountZero(states[i].pcs, IsAwakeInLoop);
    CountZero(states[i].pcs, IsSignalling);
  }

  /**
   Accounting over whole runs: `num_waiting` is exact, and `count` is the initial permits plus
   signals minus successful waits, exactly when that sum fits the 32-bit counter.
   */
  lemma Accounting(states: seq<State>, moves: seq<Move>, i: nat)
    requires IsRun(Init, Next, states, moves) && i < |states|
    ensures var s := states[i];
      && s.numWaiting == Count(s.pcs, InWait)
      && (s.count == s.initial + s.signals - s.acquired <==> s.initial + s.signals - s.acquired < U32_RANGE)
  {
    ReachableInv(states, moves, i);
  }

  /** A client that only gives back permits it took: every `signal` follows an unmatched acquisition. */
  ghost predicate NextPaired(s: State, m: Move, s': State) {
    && Next(s, m, s')
    && (m.Signal? && s.pcs[m.t].Idle? ==> s.signals < s.acquired)
  }

  ghost predicate PairedInv(s: State) {
    Inv(s) && s.initial <= U32_MAX && s.signals <= s.acquired
  }

  /** Under such clients at most the initial number of permits is ever out, and the rest is in `count`. */
  lemma AtMostInitialInside(states: seq<State>, moves: seq<Move>, i: nat)
    requires IsRun(Init, NextPaired, states, moves) && i < |states|
    ensures states[i].initial == states[0].initial
    ensures 0 <= states[i].acquired - states[i].signals <= states[0].initial
    ensures states[i].count == states[0].initial - (states[i].acquired - states[i].signals)
  {
    forall s | Init(s) ensures PairedInv(s) { InitEstablishesInv(s); }
    forall s, m, s' | PairedInv(s) && NextPaired(s, m, s') ensures PairedInv(s') { StepKeepsInv(s, m); }
    Invariance(Init, NextPaired, PairedInv, states, moves, i);
    InitialIsConstant(states, moves, i);
  }

  lemma {:induction false} InitialIsConstant(states: seq<State>, moves: seq<Move>, i: nat)
    requires IsRun(Init, NextPaired, states, moves) && i < |states|
    ensures states[i].initial == states[0].initial
  {
    if i > 0 {
      InitialIsConstant(states, moves, i - 1);
      assert NextPaired(states[i - 1], moves[i - 1], states[i - 1 + 1]);
    }
  }

  /** The semaphore itself: two shared words, and the threads working on them. */
  class Semaphore {
    var count: nat
    var numWaiting: nat
    var pcs: map<Tid, Pc>
    ghost var initial: nat
    ghost var signals: nat
    ghost var acquired: nat

    ghost function View(): State
      reads this
    {
      State(count, numWaiting, pcs, initial, signals, acquired)
    }

    constructor (initialCount: nat, threads: set<Tid>)
      requires initialCount <= U32_MAX && |threads| <= U32_MAX
      ensures Init(View()) && Inv(View())
      ensures count == initialCount && pcs.Keys == threads
    {
      count, numWaiting := initialCount, 0;
      pcs := map t | t in threads :: Idle;
      initial, signals, acquired := initialCount, 0, 0;
      new;
      assert pcs.Keys == threads;
      InitEstablishesInv(View());
    }

    /** The next atomic instruction of `wait` in thread `t`; `done` when the call returns. */
    method Wait(t: Tid, spurious: bool) returns (done: bool)
      requires Inv(View()) && Enabled(View(), Move.Wait(t, spurious))
      modifies this
      ensures View() == Step(old(View()), Move.Wait(t, spurious)) && Inv(View())
      ensures done <==> pcs[t] == Idle
    {
      WaitKeepsInv(View(), t, spurious);
      done := false;
      match pcs[t] {
        case Idle =>
          numWaiting := AddU32(numWaiting, 1);
          pcs := pcs[t := WaitLoad];
        case WaitLoad =>
          pcs := pcs[t := if count == 0 then WaitSleep else WaitCas(count)];
        case WaitSleep =>
          pcs := pcs[t := if count == 0 then Asleep else WaitLoad];
        case WaitCas(seen) =>
          if count == seen && !spurious {
            count, acquired := SubU32(seen, 1), acquired + 1;
            pcs := pcs[t := WaitLeave];
          } else {
            pcs := pcs[t := WaitLoad];
          }
        case WaitLeave =>
          numWaiting := SubU32(numWaiting, 1);
          pcs := pcs[t := Idle];
          done := true;
      }
    }

    /** The next atomic instruction of `try_wait`; the result is its return value, once it returns. */
    method TryWait(t: Tid, spurious: bool) returns (result: Option<bool>)
      requires Inv(View()) && Enabled(View(), Move.TryWait(t, spurious))
      modifies this
      ensures View() == Step(old(View()), Move.TryWait(t, spurious)) && Inv(View())
      ensures result.Some? <==> pcs[t] == Idle
      ensures result == Some(true) <==> acquired == old(acquired) + 1
      ensures result == Some(true) ==> old(count) > 0 && count == old(count) - 1
    {
      TryWaitKeepsInv(View(), t, spurious);
      match pcs[t] {
        case Idle =>
          result := if count == 0 then Some(false) else None;
          pcs := pcs[t := if count == 0 then Idle else TryCas(count)];
        case TryCas(seen) =>
          result := Some(count == seen && !spurious);
          if count == seen && !spurious {
            count, acquired := SubU32(seen, 1), acquired + 1;
          }
          pcs := pcs[t := Idle];
      }
    }

    /** The next atomic instruction of `signal`. */
    method Signal(t: Tid, woken: Tid)
      requires Inv(View()) && Enabled(View(), Move.Signal(t, woken))
      modifies this
      ensures View() == Step(old(View()), Move.Signal(t, woken)) && Inv(View())
    {
      SignalKeepsInv(View(), t, woken);
      match pcs[t] {
        case Idle =>
          count, signals := AddU32(count, 1), signals + 1;
          pcs := pcs[t := SignalLoad];
        case SignalLoad =>
          pcs := pcs[t := if numWaiting > 0 then SignalWake else Idle];
        case SignalWake =>
          pcs := WakeOne(pcs[t := Idle], woken);
      }
    }
  }
}
