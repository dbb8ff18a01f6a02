/**
 The parking mutex of src/mutex_v1.rs: a word holding the owner's thread id, and a queue of parked
 threads guarded by a one-bit spinlock. Parking is modelled by one token per thread; `Spurious`
 and `ExternalUnpark` are the ways the standard library and other code may disturb that token.
 */
module MutexV1 {
  import opened Machine
  import opened Counting
  import opened Runs

  /** The value of the word while nobody owns the mutex; the thread-id library never returns it. */
  const UNLOCKED: nat := 0
  const SPIN_LIMIT: nat := 100

  /** What a call returns; `poisoned` tells the two results with a guard apart. */
  datatype Outcome = NoOutcome | WouldBlock | Guard(poisoned: bool)

  datatype Pc =
    | Idle(last: Outcome)              // outside; `last` is what the last call returned
    | Spin(counter: nat)               // lock: about to load the word
    | SpinCas(counter: nat)            // lock: loaded 0, about to weakly compare-exchange
    | TryCas                           // try_lock: about to compare-exchange
    | EnqueueLoad                      // enqueue_thread: about to load `queue_is_accessed`
    | EnqueueCas                       // enqueue_thread: about to weakly compare-exchange it
    | EnqueuePush                      // enqueue_thread: inside, about to push_back
    | EnqueueRelease                   // enqueue_thread: pushed, about to store false
    | Park                             // enqueue_thread: about to park, or parked
    | DequeueLoad                      // dequeue_thread, likewise
    | DequeueCas
    | DequeueCheck                     // dequeue_thread: inside, about to test for emptiness
    | DequeuePop                       // dequeue_thread: about to pop_front
    | DequeueRelease(next: Option<Tid>)// dequeue_thread: about to store false
    | Unpark(target: Tid)              // dequeue_thread: outside, about to unpark

  /**
   `enqueued` and `dequeued` record pushes and pops in order; `disturbances` counts, per thread,
   park returns without a token and unparks by code outside this mutex.
   */
  datatype State = State(
    word: nat,
    poisoned: bool,
    queueBusy: bool,
    queue: seq<Tid>,
    tokens: set<Tid>,                  // threads whose park token is set
    guards: set<Tid>,                  // threads holding a MutexGuard of this mutex
    pcs: map<Tid, Pc>,
    enqueued: seq<Tid>,
    dequeued: seq<Tid>,
    disturbances: map<Tid, nat>)

  datatype Move =
    | Lock(t: Tid, spurious: bool)
    | TryLock(t: Tid)
    | Drop(t: Tid, panicking: bool, spurious: bool)
    | ClearPoison(t: Tid)
    | SpuriousReturn(t: Tid)
    | ExternalUnpark(t: Tid)

  ghost predicate Init(s: State) {
    && s.word == UNLOCKED && !s.poisoned && !s.queueBusy && s.queue == s.enqueued == s.dequeued == []
    && s.tokens == s.guards == {}
    && UNLOCKED !in s.pcs && s.disturbances.Keys == s.pcs.Keys
    && forall t | t in s.pcs :: s.pcs[t] == Idle(NoOutcome) && s.disturbances[t] == 0
  }

  predicate InLock(pc: Pc) {
    pc.Spin? || pc.SpinCas? || pc.EnqueueLoad? || pc.EnqueueCas? || pc.EnqueuePush? || pc.EnqueueRelease? || pc.Park?
  }

  predicate InDrop(pc: Pc) {
    pc.DequeueLoad? || pc.DequeueCas? || pc.DequeueCheck? || pc.DequeuePop? || pc.DequeueRelease? || pc.Unpark?
  }

  ghost predicate Enabled(s: State, m: Move) {
    && m.t in s.pcs && s.disturbances.Keys == s.pcs.Keys
    && match m
       case Lock(t, _) => s.pcs[t].Idle? || (InLock(s.pcs[t]) && (s.pcs[t].Park? ==> t in s.tokens))
       case TryLock(t) => s.pcs[t].Idle? || s.pcs[t].TryCas?
       case Drop(t, _, _) => (s.pcs[t].Idle? && t in s.guards) || InDrop(s.pcs[t])
       case ClearPoison(t) => s.pcs[t].Idle?
       case SpuriousReturn(t) => s.pcs[t].Park?
       case ExternalUnpark(t) => true
  }

  ghost function Goto(s: State, t: Tid, pc: Pc): State {
    s.(pcs := s.pcs[t := pc])
  }

  /**
   A successful compare-exchange of 0 with the thread's id, which hands out the guard. The poison
   flag is read right after it, when nobody else but `clear_poison` can change it.
   */
  ghost function Take(s: State, t: Tid): State {
    s.(word := t, guards := s.guards + {t}, pcs := s.pcs[t := Idle(Guard(s.poisoned))])
  }

  /** Of all threads, only `t` goes anywhere. */
  ghost predicate OnlyMoves(s: State, t: Tid, s': State) {
    t in s.pcs && t in s'.pcs && s'.pcs == s.pcs[t := s'.pcs[t]] && s'.disturbances == s.disturbances
  }

  ghost function StepLock(s: State, t: Tid, spurious: bool): (s': State)
    requires Enabled(s, Lock(t, spurious))
    ensures OnlyMoves(s, t, s')
  {
    match s.pcs[t]
    case Idle(_) => Goto(s, t, if s.word == t then Idle(WouldBlock) else Spin(0))
    case Spin(counter) =>
      Goto(s, t, if s.word == UNLOCKED then SpinCas(counter)
                 else if counter + 1 < SPIN_LIMIT then Spin(counter + 1) else EnqueueLoad)
    case SpinCas(counter) => if s.word == UNLOCKED && !spurious then Take(s, t) else Goto(s, t, Spin(counter))
    case EnqueueLoad => Goto(s, t, if s.queueBusy then EnqueueLoad else EnqueueCas)
    case EnqueueCas =>
      if !s.queueBusy && !spurious then Goto(s.(queueBusy := true), t, EnqueuePush) else Goto(s, t, EnqueueLoad)
    case EnqueuePush => Goto(s.(queue := s.queue + [t], enqueued := s.enqueued + [t]), t, EnqueueRelease)
    case EnqueueRelease => Goto(s.(queueBusy := false), t, Park)
    case Park => Goto(s.(tokens := s.tokens - {t}), t, Spin(0))
  }

  ghost function StepTryLock(s: State, t: Tid): (s': State)
    requires Enabled(s, TryLock(t))
    ensures OnlyMoves(s, t, s')
  {
    match s.pcs[t]
    case Idle(_) => Goto(s, t, if s.word == t then Idle(WouldBlock) else TryCas)
    case TryCas => if s.word == UNLOCKED then Take(s, t) else Goto(s, t, Idle(WouldBlock))
  }

  ghost function StepDrop(s: State, t: Tid, panicking: bool, spurious: bool): (s': State)
    requires Enabled(s, Drop(t, panicking, spurious))
    ensures OnlyMoves(s, t, s')
  {
    match s.pcs[t]
    case Idle(_) =>
      Goto(s.(word := UNLOCKED, poisoned := s.poisoned || panicking, guards := s.guards - {t}), t, DequeueLoad)
    case DequeueLoad => Goto(s, t, if s.queueBusy then DequeueLoad else DequeueCas)
    case DequeueCas =>
      if !s.queueBusy && !spurious then Goto(s.(queueBusy := true), t, DequeueCheck) else Goto(s, t, DequeueLoad)
    case DequeueCheck => Goto(s, t, if s.queue != [] then DequeuePop else DequeueRelease(None))
    case DequeuePop =>
      if s.queue == [] then Goto(s, t, DequeueRelease(None))
      else Goto(s.(queue := s.queue[1..], dequeued := s.dequeued + [s.queue[0]]), t, DequeueRelease(Some(s.queue[0])))
    case DequeueRelease(next) =>
      Goto(s.(queueBusy := false), t, if next.Some? then Unpark(next.value) else Idle(NoOutcome))
    case Unpark(target) => Goto(s.(tokens := s.tokens + {target}), t, Idle(NoOutcome))
  }

  ghost function Step(s: State, m: Move): (s': State)
    requires Enabled(s, m)
    ensures s'.pcs.Keys == s'.disturbances.Keys == s.pcs.Keys
  {
    match m
    case Lock(t, spurious) => StepLock(s, t, spurious)
    case TryLock(t) => StepTryLock(s, t)
    case Drop(t, panicking, spurious) => StepDrop(s, t, panicking, spurious)
    case ClearPoison(_) => s.(poisoned := false)
    case SpuriousReturn(t) => Goto(s.(disturbances := s.disturbances[t := s.disturbances[t] + 1]), t, Spin(0))
    case ExternalUnpark(t) =>
      s.(tokens := s.tokens + {t}, disturbances := s.disturbances[t := s.disturbances[t] + 1])
  }

  ghost predicate Next(s: State, m: Move, s': State) {
    Enabled(s, m) && s' == Step(s, m)
  }

  /** Between winning `queue_is_accessed` and storing false again. */
  predicate InQueueSection(pc: Pc) {
    pc.EnqueuePush? || pc.EnqueueRelease? || pc.DequeueCheck? || pc.DequeuePop? || pc.DequeueRelease?
  }

  /** Between `push_back` and the return of `park`. */
  predicate Parking(pc: Pc) {
    pc.EnqueueRelease? || pc.Park?
  }

  /** A dequeuer that took `u` out of the queue and has not unparked it yet. */
  predicate Carries(pc: Pc, u: Tid) {
    pc == DequeueRelease(Some(u)) || pc == Unpark(u)
  }

  ghost function CarriesFor(u: Tid): Pc -> bool {
    pc => Carries(pc, u)
  }

  /** Everything that will make, or has made, `u`'s next `park` return. */
  ghost function Wakeups(s: State, u: Tid): nat {
    multiset(s.queue)[u] + Count(s.pcs, CarriesFor(u)) + Bit(u in s.tokens)
  }

  ghost predicate Exclusive(s: State) {
    && UNLOCKED !in s.pcs
    && s.guards <= s.pcs.Keys
    && (forall t | t in s.guards :: s.word == t)
    && (s.word != UNLOCKED ==> s.word in s.guards)
  }

  ghost predicate QueueExclusive(s: State) {
    && Count(s.pcs, InQueueSection) == Bit(s.queueBusy)
    && (forall t | t in s.pcs && s.pcs[t].DequeuePop? :: s.queue != [])
    && s.enqueued == s.dequeued + s.queue
    && (forall u | u in s.queue :: u in s.pcs)
    && (forall t, u | t in s.pcs && Carries(s.pcs[t], u) :: u in s.pcs)
  }

  /** One wakeup per parking thread, never more; exact for threads nobody disturbed. */
  ghost predicate WakeupsConserved(s: State) {
    && s.disturbances.Keys == s.pcs.Keys
    && forall u | u in s.pcs :: ConservedFor(s, u)
  }

  ghost predicate ConservedFor(s: State, u: Tid)
    requires u in s.pcs && u in s.disturbances
  {
    && Wakeups(s, u) <= Bit(Parking(s.pcs[u])) + s.disturbances[u]
    && (s.disturbances[u] == 0 ==> Wakeups(s, u) == Bit(Parking(s.pcs[u])))
  }

  ghost predicate Inv(s: State) {
    Exclusive(s) && QueueExclusive(s) && WakeupsConserved(s)
  }

  lemma InitEstablishesInv(s: State)
    requires Init(s)
    ensures Inv(s)
  {
    CountZero(s.pcs, InQueueSection);
    forall u | u in s.pcs ensures Wakeups(s, u) == 0 {
      CountZero(s.pcs, CarriesFor(u));
    }
  }

  lemma ExclusiveKept(s: State, m: Move)
    requires Exclusive(s) && Enabled(s, m)
    ensures Exclusive(Step(s, m))
  {
    hide StepLock, StepDrop;
    match m
    case Lock(t, spurious) => LockKeepsExclusive(s, t, spurious);
    case TryLock(t) => assert StepTryLock(s, t).pcs.Keys == s.pcs.Keys;
    case Drop(t, panicking, spurious) => DropKeepsExclusive(s, t, panicking, spurious);
    case ClearPoison(_) =>
    case SpuriousReturn(_) =>
    case ExternalUnpark(_) =>
  }

  lemma LockKeepsExclusive(s: State, t: Tid, spurious: bool)
    requires Exclusive(s) && Enabled(s, Lock(t, spurious))
    ensures Exclusive(StepLock(s, t, spurious))
  {
  }

  lemma DropKeepsExclusive(s: State, t: Tid, panicking: bool, spurious: bool)
    requires Exclusive(s) && Enabled(s, Drop(t, panicking, spurious))
    ensures Exclusive(StepDrop(s, t, panicking, spurious))
  {
  }

  /** What one thread's move to `pc` does to the number of threads inside the queue section. */
  lemma SectionAfter(s: State, t: Tid, pc: Pc)
    requires Count(s.pcs, InQueueSection) == Bit(s.queueBusy) && t in s.pcs
    ensures Count(s.pcs[t := pc], InQueueSection)
         == Bit(s.queueBusy) - Bit(InQueueSection(s.pcs[t])) + Bit(InQueueSection(pc))
    ensures InQueueSection(s.pcs[t]) ==> s.queueBusy && forall u | u in s.pcs && InQueueSection(s.pcs[u]) :: u == t
  {
    CountUpdate(s.pcs, t, pc, InQueueSection);
    if InQueueSection(s.pcs[t]) {
      CountAtLeast(s.pcs, t, InQueueSection);
    }
  }

  /** A step that leaves the queue alone, and enters or leaves the section only with the flag. */
  lemma QueueUntouched(s: State, t: Tid, s': State)
    requires QueueExclusive(s) && OnlyMoves(s, t, s')
    requires s'.queue == s.queue && s'.enqueued == s.enqueued && s'.dequeued == s.dequeued
    requires !s'.pcs[t].DequeuePop? && (forall u | Carries(s'.pcs[t], u) :: Carries(s.pcs[t], u))
    requires InQueueSection(s'.pcs[t]) == InQueueSection(s.pcs[t]) ==> s'.queueBusy == s.queueBusy
    requires InQueueSection(s'.pcs[t]) && !InQueueSection(s.pcs[t]) ==> !s.queueBusy && s'.queueBusy
    requires !InQueueSection(s'.pcs[t]) && InQueueSection(s.pcs[t]) ==> !s'.queueBusy
    ensures QueueExclusive(s')
  {
    SectionAfter(s, t, s'.pcs[t]);
  }

  lemma EnterQueueKeepsQueue(s: State, t: Tid, spurious: bool)
    requires QueueExclusive(s) && Enabled(s, Lock(t, spurious)) && s.pcs[t].EnqueuePush?
    ensures QueueExclusive(StepLock(s, t, spurious))
  {
    SectionAfter(s, t, EnqueueRelease);
  }

  lemma LockKeepsQueue(s: State, t: Tid, spurious: bool)
    requires QueueExclusive(s) && Enabled(s, Lock(t, spurious))
    ensures QueueExclusive(StepLock(s, t, spurious))
  {
    hide QueueExclusive;
    if s.pcs[t].EnqueuePush? {
      EnterQueueKeepsQueue(s, t, spurious);
    } else {
      QueueUntouched(s, t, StepLock(s, t, spurious));
    }
  }

  lemma TryLockKeepsQueue(s: State, t: Tid)
    requires QueueExclusive(s) && Enabled(s, TryLock(t))
    ensures QueueExclusive(StepTryLock(s, t))
  {
    SectionAfter(s, t, StepTryLock(s, t).pcs[t]);
  }

  /** Whether anybody is queued is decided, and acted on, inside the section. */
  lemma DequeueKeepsQueue(s: State, t: Tid, panicking: bool, spurious: bool)
    requires QueueExclusive(s) && Enabled(s, Drop(t, panicking, spurious))
    requires s.pcs[t].DequeueCheck? || s.pcs[t].DequeuePop?
    ensures QueueExclusive(StepDrop(s, t, panicking, spurious))
  {
    SectionAfter(s, t, StepDrop(s, t, panicking, spurious).pcs[t]);
  }

  lemma DropKeepsQueue(s: State, t: Tid, panicking: bool, spurious: bool)
    requires QueueExclusive(s) && Enabled(s, Drop(t, panicking, spurious))
    ensures QueueExclusive(StepDrop(s, t, panicking, spurious))
  {
    hide QueueExclusive;
    if s.pcs[t].DequeueCheck? || s.pcs[t].DequeuePop? {
      DequeueKeepsQueue(s, t, panicking, spurious);
    } else {
      QueueUntouched(s, t, StepDrop(s, t, panicking, spurious));
    }
  }

  lemma QueueExclusiveKept(s: State, m: Move)
    requires QueueExclusive(s) && Enabled(s, m)
    ensures QueueExclusive(Step(s, m))
  {
    match m
    case Lock(t, spurious) => LockKeepsQueue(s, t, spurious);
    case TryLock(t) => TryLockKeepsQueue(s, t);
    case Drop(t, panicking, spurious) => DropKeepsQueue(s, t, panicking, spurious);
    case ClearPoison(_) =>
    case SpuriousReturn(t) => SectionAfter(s, t, Spin(0));
    case ExternalUnpark(t) =>
  }

  /** A step that moves no wakeup. */
  lemma QuietConserves(s: State, t: Tid, s': State, u: Tid)
    requires OnlyMoves(s, t, s') && u in s.pcs && u in s.disturbances && ConservedFor(s, u)
    requires s'.queue == s.queue && s'.tokens == s.tokens
    requires Parking(s'.pcs[t]) == Parking(s.pcs[t]) && Carries(s'.pcs[t], u) == Carries(s.pcs[t], u)
    ensures ConservedFor(s', u)
  {
    CountUpdate(s.pcs, t, s'.pcs[t], CarriesFor(u));
  }

  /** A thread enters the queue with its own wakeup ... */
  lemma PushConserves(s: State, t: Tid, spurious: bool, u: Tid)
    requires Enabled(s, Lock(t, spurious)) && u in s.pcs && ConservedFor(s, u) && s.pcs[t].EnqueuePush?
    ensures ConservedFor(StepLock(s, t, spurious), u)
  {
    CountUpdate(s.pcs, t, EnqueueRelease, CarriesFor(u));
  }

  /** ... and takes it back when `park` returns. */
  lemma ParkConserves(s: State, t: Tid, spurious: bool, u: Tid)
    requires Enabled(s, Lock(t, spurious)) && u in s.pcs && ConservedFor(s, u) && s.pcs[t].Park?
    ensures ConservedFor(StepLock(s, t, spurious), u)
  {
    CountUpdate(s.pcs, t, Spin(0), CarriesFor(u));
  }

  lemma LockConserves(s: State, t: Tid, spurious: bool, u: Tid)
    requires Enabled(s, Lock(t, spurious)) && u in s.pcs && ConservedFor(s, u)
    ensures ConservedFor(StepLock(s, t, spurious), u)
  {
    hide ConservedFor;
    if s.pcs[t].EnqueuePush? {
      PushConserves(s, t, spurious, u);
    } else if s.pcs[t].Park? {
      ParkConserves(s, t, spurious, u);
    } else {
      QuietConserves(s, t, StepLock(s, t, spurious), u);
    }
  }

  lemma TryLockConserves(s: State, t: Tid, u: Tid)
    requires Enabled(s, TryLock(t)) && u in s.pcs && ConservedFor(s, u)
    ensures ConservedFor(StepTryLock(s, t), u)
  {
    CountUpdate(s.pcs, t, StepTryLock(s, t).pcs[t], CarriesFor(u));
  }

  /** Dropping a guard moves one wakeup from the queue to the dropping thread. */
  lemma PopConserves(s: State, t: Tid, panicking: bool, spurious: bool, u: Tid)
    requires Enabled(s, Drop(t, panicking, spurious)) && u in s.pcs && ConservedFor(s, u) && s.pcs[t].DequeuePop?
    ensures ConservedFor(StepDrop(s, t, panicking, spurious), u)
  {
    CountUpdate(s.pcs, t, StepDrop(s, t, panicking, spurious).pcs[t], CarriesFor(u));
    assert s.queue != [] ==> s.queue == [s.queue[0]] + s.queue[1..];
  }

  /** ... and then on to the woken thread's token. */
  lemma UnparkConserves(s: State, t: Tid, panicking: bool, spurious: bool, u: Tid)
    requires Enabled(s, Drop(t, panicking, spurious)) && u in s.pcs && ConservedFor(s, u) && s.pcs[t].Unpark?
    ensures ConservedFor(StepDrop(s, t, panicking, spurious), u)
  {
    CountUpdate(s.pcs, t, Idle(NoOutcome), CarriesFor(u));
    if s.pcs[t] == Unpark(u) {
      CountAtLeast(s.pcs, t, CarriesFor(u));
    }
  }

  lemma DropConserves(s: State, t: Tid, panicking: bool, spurious: bool, u: Tid)
    requires Enabled(s, Drop(t, panicking, spurious)) && u in s.pcs && ConservedFor(s, u)
    ensures ConservedFor(StepDrop(s, t, panicking, spurious), u)
  {
    hide ConservedFor;
    if s.pcs[t].DequeuePop? {
      PopConserves(s, t, panicking, spurious, u);
    } else if s.pcs[t].Unpark? {
      UnparkConserves(s, t, panicking, spurious, u);
    } else {
      QuietConserves(s, t, StepDrop(s, t, panicking, spurious), u);
    }
  }

  lemma DisturbanceConserves(s: State, m: Move, u: Tid)
    requires (m.ClearPoison? || m.SpuriousReturn? || m.ExternalUnpark?) && Enabled(s, m)
    requires u in s.pcs && ConservedFor(s, u)
    ensures ConservedFor(Step(s, m), u)
  {
    if m.SpuriousReturn? {
      CountUpdate(s.pcs, m.t, Spin(0), CarriesFor(u));
    }
  }

  lemma StepConserves(s: State, m: Move, u: Tid)
    requires Enabled(s, m) && u in s.pcs && ConservedFor(s, u)
    ensures ConservedFor(Step(s, m), u)
  {
    match m
    case Lock(t, spurious) => LockConserves(s, t, spurious, u);
    case TryLock(t) => TryLockConserves(s, t, u);
    case Drop(t, panicking, spurious) => DropConserves(s, t, panicking, spurious, u);
    case ClearPoison(_) => DisturbanceConserves(s, m, u);
    case SpuriousReturn(t) => DisturbanceConserves(s, m, u);
    case ExternalUnpark(t) => DisturbanceConserves(s, m, u);
  }

  lemma WakeupsKept(s: State, m: Move)
    requires WakeupsConserved(s) && Enabled(s, m)
    ensures WakeupsConserved(Step(s, m))
  {
    forall u | u in s.pcs ensures ConservedFor(Step(s, m), u) {
      StepConserves(s, m, u);
    }
  }

  lemma StepKeepsInv(s: State, m: Move)
    requires Inv(s) && Enabled(s, m)
    ensures Inv(Step(s, m))
  {
    ExclusiveKept(s, m);
    QueueExclusiveKept(s, m);
    WakeupsKept(s, m);
  }

  lemma ReachableInv(states: seq<State>, moves: seq<Move>, i: nat)
    requires IsRun(Init, Next, states, moves) && i < |states|
    ensures Inv(states[i])
  {
    forall s | Init(s) ensures Inv(s) { InitEstablishesInv(s); }
    forall s, m, s' | Inv(s) && Next(s, m, s') ensures Inv(s') { StepKeepsInv(s, m); }
    Invariance(Init, Next, Inv, states, moves, i);
  }

  /** The word names the one thread that holds a guard, and is 0 exactly when nobody does. */
  lemma MutualExclusion(states: seq<State>, moves: seq<Move>, i: nat)
    requires IsRun(Init, Next, states, moves) && i < |states|
    ensures states[i].guards == if states[i].word == UNLOCKED then {} else {states[i].word}
  {
    ReachableInv(states, moves, i);
  }

  /** Relocking: both `lock` and `try_lock` return WouldBlock at once iff the caller holds the guard. */
  lemma RefusedIffHeld(states: seq<State>, moves: seq<Move>, i: nat, t: Tid, spurious: bool)
    requires IsRun(Init, Next, states, moves) && i < |states|
    requires t in states[i].pcs && states[i].pcs[t].Idle?
    ensures var s := states[i];
      && Enabled(s, Lock(t, spurious)) && Enabled(s, TryLock(t))
      && (StepLock(s, t, spurious) == Goto(s, t, Idle(WouldBlock)) <==> t in s.guards)
      && (StepTryLock(s, t) == Goto(s, t, Idle(WouldBlock)) <==> t in s.guards)
  {
    ReachableInv(states, moves, i);
    var s := states[i];
    assert StepLock(s, t, spurious).pcs[t] == if t in s.guards then Idle(WouldBlock) else Spin(0);
    assert StepTryLock(s, t).pcs[t] == if t in s.guards then Idle(WouldBlock) else TryCas;
  }

  /** The poison flag is not atomic: while somebody holds the guard, only he and `clear_poison` change it. */
  lemma PoisonIsGuarded(states: seq<State>, moves: seq<Move>, i: nat)
    requires IsRun(Init, Next, states, moves) && i < |moves| && !moves[i].ClearPoison?
    ensures states[i + 1].poisoned != states[i].poisoned ==>
              moves[i].Drop? && moves[i].panicking && states[i].guards == {moves[i].t}
  {
    ReachableInv(states, moves, i);
    assert Next(states[i], moves[i], states[i + 1]);
    PoisonedByHolder(states[i], moves[i]);
  }

  lemma PoisonedByHolder(s: State, m: Move)
    requires Exclusive(s) && Enabled(s, m)
    ensures Step(s, m).poisoned == s.poisoned || m.ClearPoison? || (m.Drop? && m.panicking && s.guards == {m.t})
  {
    match m
    case Lock(t, spurious) => assert StepLock(s, t, spurious).poisoned == s.poisoned;
    case TryLock(t) => assert StepTryLock(s, t).poisoned == s.poisoned;
    case Drop(t, panicking, spurious) =>
    case ClearPoison(_) =>
    case SpuriousReturn(_) =>
    case ExternalUnpark(_) =>
  }

  /** What the result of `lock` or `try_lock` says about the mutex. */
  ghost predicate Truthful(s: State, m: Move, s': State, result: Outcome) {
    match result
    case NoOutcome => m.Drop? && m.t !in s'.guards
    case WouldBlock => s'.guards == s.guards && s'.word == s.word != UNLOCKED && (m.Lock? ==> m.t in s.guards)
    case Guard(poisoned) => s.guards == {} && s'.guards == {m.t} && poisoned == s.poisoned
  }

  lemma LockIsTrue(s: State, t: Tid, spurious: bool)
    requires Exclusive(s) && Enabled(s, Lock(t, spurious))
    ensures var s' := StepLock(s, t, spurious);
      s'.pcs[t].Idle? ==> Truthful(s, Lock(t, spurious), s', s'.pcs[t].last)
  {
  }

  lemma TryLockIsTrue(s: State, t: Tid)
    requires Exclusive(s) && Enabled(s, TryLock(t))
    ensures var s' := StepTryLock(s, t); s'.pcs[t].Idle? ==> Truthful(s, TryLock(t), s', s'.pcs[t].last)
  {
  }

  /** What a call has returned, if its thread is outside again. */
  function ResultOf(pc: Pc): Option<Outcome> {
    if pc.Idle? then Some(pc.last) else None
  }

  ghost predicate ChangesHands(before: nat, after: nat, t: Tid) {
    before == after || (before == UNLOCKED && after == t) || (before == t && after == UNLOCKED)
  }

  lemma StepChangesHands(s: State, m: Move)
    requires Exclusive(s) && Enabled(s, m)
    ensures ChangesHands(s.word, Step(s, m).word, m.t)
  {
    match m
    case Lock(t, spurious) => assert ChangesHands(s.word, StepLock(s, t, spurious).word, t);
    case TryLock(t) => assert ChangesHands(s.word, StepTryLock(s, t).word, t);
    case Drop(t, panicking, spurious) => assert ChangesHands(s.word, StepDrop(s, t, panicking, spurious).word, t);
    case ClearPoison(_) =>
    case SpuriousReturn(t) =>
    case ExternalUnpark(t) =>
  }

  /** The word changes only from free to the taker, or from the holder to free. */
  lemma WordChangesHands(states: seq<State>, moves: seq<Move>, i: nat)
    requires IsRun(Init, Next, states, moves) && i < |moves|
    ensures ChangesHands(states[i].word, states[i + 1].word, moves[i].t)
  {
    ReachableInv(states, moves, i);
    assert Next(states[i], moves[i], states[i + 1]);
    StepChangesHands(states[i], moves[i]);
  }

  /**
   Wake tokens are conserved: a thread nobody disturbed has, in the queue, in a dequeuer's hand and
   in its token together, exactly one wakeup while it is parking and none otherwise.
   */
  lemma OneWakeupPerParkedThread(states: seq<State>, moves: seq<Move>, i: nat, u: Tid)
    requires IsRun(Init, Next, states, moves) && i < |states| && u in states[i].pcs
    ensures u in states[i].disturbances
    ensures states[i].disturbances[u] == 0 ==> Wakeups(states[i], u) == Bit(Parking(states[i].pcs[u]))
    ensures Wakeups(states[i], u) <= Bit(Parking(states[i].pcs[u])) + states[i].disturbances[u]
  {
    ReachableInv(states, moves, i);
  }

  /**
   Who is left behind when all calls have returned or parked: an undisturbed thread stays parked iff it is
   in the queue, where only a later drop of a guard finds it, whether or not the mutex is free by then.
   */
  lemma StaysParkedIffQueued(states: seq<State>, moves: seq<Move>, i: nat, u: Tid)
    requires IsRun(Init, Next, states, moves) && i < |states| && u in states[i].pcs
    requires u in states[i].disturbances && states[i].disturbances[u] == 0
    requires forall t | t in states[i].pcs :: states[i].pcs[t].Idle? || states[i].pcs[t].Park?
    ensures states[i].pcs[u].Park? && !Enabled(states[i], Lock(u, false)) <==> u in states[i].queue
  {
    ReachableInv(states, moves, i);
    CountZero(states[i].pcs, CarriesFor(u));
  }

  /** The exception is real: one spurious return leaves a wakeup behind for a thread that is not parking. */
  lemma SpuriousReturnBreaksTheLaw(states: seq<State>, moves: seq<Move>, i: nat, u: Tid)
    requires IsRun(Init, Next, states, moves) && i < |states| && u in states[i].pcs
    requires states[i].pcs[u].Park? && u in states[i].disturbances && states[i].disturbances[u] == 0
    ensures Enabled(states[i], SpuriousReturn(u))
    ensures var s' := Step(states[i], SpuriousReturn(u)); Wakeups(s', u) == 1 && !Parking(s'.pcs[u])
  {
    ReachableInv(states, moves, i);
    CountUpdate(states[i].pcs, u, Spin(0), CarriesFor(u));
  }

  /** The queue is touched by one thread at a time, and threads leave it in the order they entered. */
  lemma QueueIsFifo(states: seq<State>, moves: seq<Move>, i: nat)
    requires IsRun(Init, Next, states, moves) && i < |states|
    ensures states[i].dequeued <= states[i].enqueued
    ensures states[i].queue == states[i].enqueued[|states[i].dequeued|..]
    ensures forall t, u | t in states[i].pcs && InQueueSection(states[i].pcs[t])
                       && u in states[i].pcs && InQueueSection(states[i].pcs[u]) :: t == u
  {
    ReachableInv(states, moves, i);
    var s := states[i];
    forall t, u | t in s.pcs && InQueueSection(s.pcs[t]) && u in s.pcs && InQueueSection(s.pcs[u]) ensures t == u {
      CountAtLeast(s.pcs, t, InQueueSection);
    }
  }

  /** The mutex, its queue, and the park tokens of the threads using it. */
  class Mutex {
    var word: nat
    var poisoned: bool
    var queueBusy: bool
    var queue: seq<Tid>
    var tokens: set<Tid>
    ghost var guards: set<Tid>
    var pcs: map<Tid, Pc>
    ghost var enqueued: seq<Tid>
    ghost var dequeued: seq<Tid>
    ghost var disturbances: map<Tid, nat>

    ghost function View(): State
      reads this
    {
      State(word, poisoned, queueBusy, queue, tokens, guards, pcs, enqueued, dequeued, disturbances)
    }

    constructor (threads: set<Tid>)
      requires UNLOCKED !in threads
      ensures Init(View()) && Inv(View()) && pcs.Keys == threads
    {
      word, poisoned, queueBusy, queue, tokens, guards := UNLOCKED, false, false, [], {}, {};
      pcs := map t | t in threads :: Idle(NoOutcome);
      enqueued, dequeued := [], [];
      disturbances := map t | t in threads :: 0;
      new;
      assert pcs.Keys == threads && disturbances.Keys == threads;
      InitEstablishesInv(View());
    }

    /** The next atomic instruction of `lock`, outside `enqueue_thread`. */
    method Lock(t: Tid, spurious: bool) returns (result: Option<Outcome>)
      requires Inv(View()) && Enabled(View(), Move.Lock(t, spurious))
      requires pcs[t].Idle? || pcs[t].Spin? || pcs[t].SpinCas?
      modifies this
      ensures View() == Step(old(View()), Move.Lock(t, spurious)) && Inv(View())
      ensures t in pcs && result == ResultOf(pcs[t])
      ensures result.Some? ==> Truthful(old(View()), Move.Lock(t, spurious), View(), result.value)
    {
      StepKeepsInv(View(), Move.Lock(t, spurious));
      LockIsTrue(View(), t, spurious);
      hide Inv, Truthful, Step, Enabled;
      LockAccess(t, spurious);
      result := ResultOf(pcs[t]);
    }

    /** The access itself. */
    method LockAccess(t: Tid, spurious: bool)
      requires Enabled(View(), Move.Lock(t, spurious))
      requires pcs[t].Idle? || pcs[t].Spin? || pcs[t].SpinCas?
      modifies this
      ensures t in pcs && View() == StepLock(old(View()), t, spurious)
    {
      match pcs[t] {
        case Idle(_) =>
          pcs := pcs[t := if word == t then Idle(WouldBlock) else Spin(0)];
        case Spin(counter) =>
          if word == UNLOCKED {
            pcs := pcs[t := SpinCas(counter)];
          } else if counter + 1 < SPIN_LIMIT {
            pcs := pcs[t := Spin(counter + 1)];
          } else {
            pcs := pcs[t := EnqueueLoad];
          }
        case SpinCas(counter) =>
          if word == UNLOCKED && !spurious {
            word, guards := t, guards + {t};
            pcs := pcs[t := Idle(Guard(poisoned))];
          } else {
            pcs := pcs[t := Spin(counter)];
          }
      }
    }

    /** The next atomic instruction of `enqueue_thread`, up to and including the return of `park`. */
    method EnqueueThread(t: Tid, spurious: bool)
      requires Inv(View()) && Enabled(View(), Move.Lock(t, spurious))
      requires !(pcs[t].Idle? || pcs[t].Spin? || pcs[t].SpinCas?)
      modifies this
      ensures View() == Step(old(View()), Move.Lock(t, spurious)) && Inv(View())
    {
      StepKeepsInv(View(), Move.Lock(t, spurious));
      hide Inv, Truthful, Step, Enabled;
      EnqueueThreadAccess(t, spurious);
    }

    /** The access itself. */
    method EnqueueThreadAccess(t: Tid, spurious: bool)
      requires Enabled(View(), Move.Lock(t, spurious))
      requires !(pcs[t].Idle? || pcs[t].Spin? || pcs[t].SpinCas?)
      modifies this
      ensures t in pcs && View() == StepLock(old(View()), t, spurious)
    {
      match pcs[t] {
        case EnqueueLoad =>
          pcs := pcs[t := if queueBusy then EnqueueLoad else EnqueueCas];
        case EnqueueCas =>
          if !queueBusy && !spurious {
            queueBusy := true;
            pcs := pcs[t := EnqueuePush];
          } else {
            pcs := pcs[t := EnqueueLoad];
          }
        case EnqueuePush =>
          queue, enqueued := queue + [t], enqueued + [t];
          pcs := pcs[t := EnqueueRelease];
        case EnqueueRelease =>
          queueBusy := false;
          pcs := pcs[t := Park];
        case Park =>
          tokens := tokens - {t};
          pcs := pcs[t := Spin(0)];
      }
    }

    /** The next atomic instruction of `try_lock`. */
    method TryLock(t: Tid) returns (result: Option<Outcome>)
      requires Inv(View()) && Enabled(View(), Move.TryLock(t))
      modifies this
      ensures View() == Step(old(View()), Move.TryLock(t)) && Inv(View())
      ensures t in pcs && result == ResultOf(pcs[t])
      ensures result.Some? ==> Truthful(old(View()), Move.TryLock(t), View(), result.value)
    {
      StepKeepsInv(View(), Move.TryLock(t));
      TryLockIsTrue(View(), t);
      hide Inv, Truthful, Step, Enabled;
      TryLockAccess(t);
      result := ResultOf(pcs[t]);
    }

    /** The access itself. */
    method TryLockAccess(t: Tid)
      requires Enabled(View(), Move.TryLock(t))
      modifies this
      ensures t in pcs && View() == StepTryLock(old(View()), t)
    {
      match pcs[t] {
        case Idle(_) =>
          pcs := pcs[t := if word == t then Idle(WouldBlock) else TryCas];
        case TryCas =>
          if word == UNLOCKED {
            word, guards := t, guards + {t};
            pcs := pcs[t := Idle(Guard(poisoned))];
          } else {
            pcs := pcs[t := Idle(WouldBlock)];
          }
      }
    }

    /** Dropping the guard: poison the mutex when panicking, store 0; `DequeueThread` does the rest. */
    method DropGuard(t: Tid, panicking: bool)
      requires Inv(View()) && Enabled(View(), Drop(t, panicking, false)) && pcs[t].Idle?
      modifies this
      ensures View() == Step(old(View()), Drop(t, panicking, false)) && Inv(View())
    {
      StepKeepsInv(View(), Drop(t, panicking, false));
      hide Inv, Truthful, Step, Enabled;
      DropGuardAccess(t, panicking);
    }

    /** The access itself. */
    method DropGuardAccess(t: Tid, panicking: bool)
      requires Enabled(View(), Drop(t, panicking, false)) && pcs[t].Idle?
      modifies this
      ensures t in pcs && View() == StepDrop(old(View()), t, panicking, false)
    {
      word, poisoned, guards := UNLOCKED, poisoned || panicking, guards - {t};
      pcs := pcs[t := DequeueLoad];
    }

    /** `clear_poison`. */
    method ClearPoison(t: Tid)
      requires Inv(View()) && Enabled(View(), Move.ClearPoison(t))
      modifies this`poisoned
      ensures View() == Step(old(View()), Move.ClearPoison(t)) && Inv(View())
    {
      StepKeepsInv(View(), Move.ClearPoison(t));
      hide Inv;
      poisoned := false;
    }

    /** The next atomic instruction of `dequeue_thread`. */
    method DequeueThread(t: Tid, spurious: bool)
      requires Inv(View()) && Enabled(View(), Drop(t, false, spurious)) && !pcs[t].Idle?
      modifies this
      ensures View() == Step(old(View()), Drop(t, false, spurious)) && Inv(View())
    {
      StepKeepsInv(View(), Drop(t, false, spurious));
      hide Inv, Truthful, Step, Enabled;
      DequeueThreadAccess(t, spurious);
    }

    /** The access itself. */
    method DequeueThreadAccess(t: Tid, spurious: bool)
      requires Enabled(View(), Drop(t, false, spurious)) && !pcs[t].Idle?
      modifies this
      ensures t in pcs && View() == StepDrop(old(View()), t, false, spurious)
    {
      match pcs[t] {
        case DequeueLoad =>
          pcs := pcs[t := if queueBusy then DequeueLoad else DequeueCas];
        case DequeueCas =>
          if !queueBusy && !spurious {
            queueBusy := true;
            pcs := pcs[t := DequeueCheck];
          } else {
            pcs := pcs[t := DequeueLoad];
          }
        case DequeueCheck =>
          pcs := pcs[t := if queue != [] then DequeuePop else DequeueRelease(None)];
        case DequeuePop =>
          if queue == [] {
            pcs := pcs[t := DequeueRelease(None)];
          } else {
            var first := queue[0];
            queue, dequeued := queue[1..], dequeued + [first];
            pcs := pcs[t := DequeueRelease(Some(first))];
          }
        case DequeueRelease(next) =>
          queueBusy := false;
          pcs := pcs[t := if next.Some? then Unpark(next.value) else Idle(NoOutcome)];
        case Unpark(target) =>
          tokens := tokens + {target};
          pcs := pcs[t := Idle(NoOutcome)];
      }
    }
  }
}
