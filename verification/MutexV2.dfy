/**
 The futex mutex of src/mutex_v2.rs. A state holds every mutex ever created, together with the
 thread-local sets of mutex ids, so that confusion between mutexes can be ruled out. One move
 executes the next atomic instruction of one thread.
 */
module MutexV2 {
  import opened Machine
  import opened Runs

  const UNLOCKED: nat := 0
  const LOCKED: nat := 1
  const LOCKED_HAS_WAITERS: nat := 2
  const SPIN_LIMIT: nat := 100

  /** Ids come from a 64-bit counter. */
  const ID_RANGE: nat := USIZE_RANGE

  /** Where a thread is; `k` is the index of the mutex the call works on. */
  datatype Pc =
    | Idle
    | FastCas(k: nat)                // lock: first weak compare-exchange 0 -> 1
    | Spin(k: nat, counter: nat)     // lock: bounded spinning on loads
    | RetryCas(k: nat)               // lock: strong compare-exchange 0 -> 1 after spinning
    | SlowCas(k: nat)                // lock: compare-exchange 0 -> 2 at the head of the slow loop
    | SlowWait(k: nat)               // lock: about to futex-wait on the value 2
    | Asleep(k: nat)                 // lock: blocked in the futex
    | Mark(k: nat)                   // lock/try_lock: acquired, about to call `set_acquired`
    | TryCas(k: nat)                 // try_lock: weak compare-exchange 0 -> 1
    | Swap(k: nat)                   // guard drop: id removed, about to swap in UNLOCKED
    | Wake(k: nat)                   // guard drop: swapped out LOCKED_HAS_WAITERS, about to `wake_one`

  datatype Outcome = NoResult | WouldBlock | Acquired | Poisoned

  /** `owner` is history: who won the compare-exchange and has not swapped the word back. */
  datatype Cell = Cell(id: nat, word: nat, poisoned: bool, owner: Option<Tid>)

  datatype State = State(
    cells: seq<Cell>,
    nextId: nat,                     // the static NEXT_ID
    pcs: map<Tid, Pc>,
    acquired: map<Tid, set<nat>>,    // the thread-local ACQUIRED_BY_THREAD sets
    guards: map<Tid, set<nat>>,      // the mutexes each thread holds a live guard of (guards are not Send)
    outcome: map<Tid, Outcome>)      // what the last finished lock/try_lock call returned

  datatype Move =
    | New(t: Tid)
    | Lock(t: Tid, k: nat, spurious: bool)
    | TryLock(t: Tid, k: nat, spurious: bool)
    | Drop(t: Tid, k: nat, panicking: bool, woken: Tid)
    | ClearPoison(t: Tid, k: nat)
    | SpuriousWake(t: Tid)

  ghost predicate Init(s: State) {
    && s.cells == [] && s.nextId == 0
    && s.acquired.Keys == s.guards.Keys == s.outcome.Keys == s.pcs.Keys
    && forall t | t in s.pcs :: s.pcs[t] == Idle && s.acquired[t] == {} && s.guards[t] == {} && s.outcome[t] == NoResult
  }

  predicate InLock(pc: Pc) {
    pc.FastCas? || pc.Spin? || pc.RetryCas? || pc.SlowCas? || pc.SlowWait? || pc.Mark?
  }

  ghost predicate SleepsOn(s: State, t: Tid, k: nat) {
    t in s.pcs && s.pcs[t] == Asleep(k)
  }

  ghost predicate Enabled(s: State, m: Move) {
    && m.t in s.pcs && s.acquired.Keys == s.guards.Keys == s.outcome.Keys == s.pcs.Keys
    && match m
       case New(t) => s.pcs[t].Idle?
       case Lock(t, k, _) =>
         k < |s.cells| && (s.pcs[t].Idle? || (InLock(s.pcs[t]) && s.pcs[t].k == k))
       case TryLock(t, k, _) =>
         k < |s.cells| && (s.pcs[t].Idle? || s.pcs[t] == TryCas(k) || s.pcs[t] == Mark(k))
       case Drop(t, k, _, woken) =>
         && k < |s.cells|
         && ((s.pcs[t].Idle? && k in s.guards[t]) || s.pcs[t] == Swap(k) || s.pcs[t] == Wake(k))
         && ((exists u :: SleepsOn(s, u, k)) ==> SleepsOn(s, woken, k))
       case ClearPoison(t, k) => k < |s.cells| && s.pcs[t].Idle?
       case SpuriousWake(t) => s.pcs[t].Asleep?
  }

  ghost function Goto(s: State, t: Tid, pc: Pc): State {
    s.(pcs := s.pcs[t := pc])
  }

  /** A successful compare-exchange from UNLOCKED to `word`. */
  ghost function Take(s: State, t: Tid, k: nat, word: nat): State
    requires k < |s.cells|
  {
    s.(cells := s.cells[k := s.cells[k].(word := word, owner := Some(t))], pcs := s.pcs[t := Mark(k)])
  }

  /** `acquired_check` refuses: the call returns WouldBlock. */
  ghost function Refuse(s: State, t: Tid): State {
    s.(pcs := s.pcs[t := Idle], outcome := s.outcome[t := WouldBlock])
  }

  /** `set_acquired`, then hand out the guard, wrapped in the poison error if need be. */
  ghost function Grant(s: State, t: Tid, k: nat): State
    requires k < |s.cells| && t in s.acquired && t in s.guards
  {
    s.(pcs := s.pcs[t := Idle],
       acquired := s.acquired[t := s.acquired[t] + {s.cells[k].id}],
       guards := s.guards[t := s.guards[t] + {k}],
       outcome := s.outcome[t := if s.cells[k].poisoned then Poisoned else Acquired])
  }

  ghost function StepNew(s: State): State {
    s.(cells := s.cells + [Cell(s.nextId, UNLOCKED, false, None)], nextId := AddUsize(s.nextId, 1))
  }

  ghost function StepLock(s: State, t: Tid, k: nat, spurious: bool): State
    requires Enabled(s, Lock(t, k, spurious))
  {
    var word := s.cells[k].word;
    match s.pcs[t]
    case Idle => if s.cells[k].id in s.acquired[t] then Refuse(s, t) else Goto(s, t, FastCas(k))
    case FastCas(_) => if word == UNLOCKED && !spurious then Take(s, t, k, LOCKED) else Goto(s, t, Spin(k, 0))
    case Spin(_, counter) =>
      Goto(s, t, if counter < SPIN_LIMIT && word != UNLOCKED then Spin(k, counter + 1) else RetryCas(k))
    case RetryCas(_) => if word == UNLOCKED then Take(s, t, k, LOCKED) else Goto(s, t, SlowCas(k))
    case SlowCas(_) => if word == UNLOCKED then Take(s, t, k, LOCKED_HAS_WAITERS) else Goto(s, t, SlowWait(k))
    case SlowWait(_) => Goto(s, t, if word == LOCKED_HAS_WAITERS then Asleep(k) else SlowCas(k))
    case Mark(_) => Grant(s, t, k)
  }

  ghost function StepTryLock(s: State, t: Tid, k: nat, spurious: bool): State
    requires Enabled(s, TryLock(t, k, spurious))
  {
    match s.pcs[t]
    case Idle => if s.cells[k].id in s.acquired[t] then Refuse(s, t) else Goto(s, t, TryCas(k))
    case TryCas(_) => if s.cells[k].word == UNLOCKED && !spurious then Take(s, t, k, LOCKED) else Refuse(s, t)
    case Mark(_) => Grant(s, t, k)
  }

  ghost function StepDrop(s: State, t: Tid, k: nat, panicking: bool, woken: Tid): State
    requires Enabled(s, Drop(t, k, panicking, woken))
  {
    var cell := s.cells[k];
    match s.pcs[t]
    case Idle =>
      s.(cells := s.cells[k := cell.(poisoned := cell.poisoned || panicking)],
         pcs := s.pcs[t := Swap(k)],
         acquired := s.acquired[t := s.acquired[t] - {cell.id}],
         guards := s.guards[t := s.guards[t] - {k}])
    case Swap(_) =>
      s.(cells := s.cells[k := cell.(word := UNLOCKED, owner := None)],
         pcs := s.pcs[t := if cell.word == LOCKED_HAS_WAITERS then Wake(k) else Idle])
    case Wake(_) => s.(pcs := WakeOne(s.pcs[t := Idle], k, woken))
  }

  function WakeOne(pcs: map<Tid, Pc>, k: nat, woken: Tid): map<Tid, Pc> {
    if woken in pcs && pcs[woken] == Asleep(k) then pcs[woken := SlowCas(k)] else pcs
  }

  ghost function Step(s: State, m: Move): State
    requires Enabled(s, m)
  {
    match m
    case New(_) => StepNew(s)
    case Lock(t, k, spurious) => StepLock(s, t, k, spurious)
    case TryLock(t, k, spurious) => StepTryLock(s, t, k, spurious)
    case Drop(t, k, panicking, woken) => StepDrop(s, t, k, panicking, woken)
    case ClearPoison(_, k) => s.(cells := s.cells[k := s.cells[k].(poisoned := false)])
    case SpuriousWake(t) => Goto(s, t, SlowCas(s.pcs[t].k))
  }

  ghost predicate Next(s: State, m: Move, s': State) {
    Enabled(s, m) && s' == Step(s, m)
  }

  /** `t` is between winning the word of mutex `k` and swapping it back. */
  ghost predicate Owns(s: State, t: Tid, k: nat) {
    t in s.pcs && t in s.guards && (k in s.guards[t] || Between(s.pcs[t], k))
  }

  /** `t` will look at the word of mutex `k` again, or wake somebody who will, without outside help. */
  ghost predicate Hot(pc: Pc, k: nat) {
    pc == SlowCas(k) || pc == SlowWait(k) || pc == Wake(k)
  }

  ghost predicate SomeoneHot(s: State, k: nat) {
    exists t :: t in s.pcs && Hot(s.pcs[t], k)
  }

  ghost predicate Shape(s: State) {
    && s.acquired.Keys == s.guards.Keys == s.outcome.Keys == s.pcs.Keys
    && (forall t | t in s.pcs && !s.pcs[t].Idle? :: s.pcs[t].k < |s.cells|)
    && (forall t, k | t in s.pcs && k in s.guards[t] :: k < |s.cells|)
    && s.nextId == |s.cells| % ID_RANGE
    && (forall k | 0 <= k < |s.cells| :: s.cells[k].id == k % ID_RANGE)
  }

  /** `t` won mutex `k` but has no guard yet, or gave its guard up and has not stored UNLOCKED yet. */
  predicate Between(pc: Pc, k: nat) {
    pc == Mark(k) || pc == Swap(k)
  }

  /** The word is LOCKED or LOCKED_HAS_WAITERS exactly while one thread owns the mutex. */
  ghost predicate Exclusive(s: State)
    requires Shape(s)
  {
    && (forall k | 0 <= k < |s.cells| ::
          && s.cells[k].word <= LOCKED_HAS_WAITERS
          && (s.cells[k].owner.None? <==> s.cells[k].word == UNLOCKED)
          && (s.cells[k].owner.Some? ==> Owns(s, s.cells[k].owner.value, k)))
    && (forall t, k | t in s.pcs && k in s.guards[t] :: s.cells[k].owner == Some(t))
    && (forall t | t in s.pcs && (s.pcs[t].Mark? || s.pcs[t].Swap?) ::
          s.cells[s.pcs[t].k].owner == Some(t) && s.pcs[t].k !in s.guards[t])
  }

  ghost predicate NoLostWake(s: State)
    requires Shape(s)
  {
    forall t | t in s.pcs && s.pcs[t].Asleep? ::
      s.cells[s.pcs[t].k].word == LOCKED_HAS_WAITERS || SomeoneHot(s, s.pcs[t].k)
  }

  /** As long as ids are not reused, a thread's set holds exactly the ids of its guards. */
  ghost predicate IdsTrackGuards(s: State)
    requires Shape(s)
  {
    |s.cells| <= ID_RANGE ==>
      forall t | t in s.pcs :: s.acquired[t] == s.guards[t]
  }

  ghost predicate Inv(s: State) {
    Shape(s) && Exclusive(s) && NoLostWake(s) && IdsTrackGuards(s)
  }

  /** Moving one thread keeps the no-lost-wakeup law if the mutex it leaves needs no further attention. */
  lemma HotAfter(s: State, s': State, t: Tid)
    requires Shape(s) && Shape(s') && NoLostWake(s) && t in s.pcs
    requires s'.pcs.Keys == s.pcs.Keys && |s'.cells| >= |s.cells|
    requires forall u | u in s.pcs && u != t :: s'.pcs[u] == s.pcs[u]
    requires forall k | 0 <= k < |s.cells| && s.cells[k].word == LOCKED_HAS_WAITERS ::
               s'.cells[k].word == LOCKED_HAS_WAITERS || Hot(s'.pcs[t], k)
    requires forall k | 0 <= k < |s.cells| && Hot(s.pcs[t], k) ::
               s'.cells[k].word == LOCKED_HAS_WAITERS || Hot(s'.pcs[t], k)
    requires s'.pcs[t].Asleep? ==> s'.cells[s'.pcs[t].k].word == LOCKED_HAS_WAITERS
    ensures NoLostWake(s')
  {
    forall u | u in s'.pcs && s'.pcs[u].Asleep?
      ensures s'.cells[s'.pcs[u].k].word == LOCKED_HAS_WAITERS || SomeoneHot(s', s'.pcs[u].k)
    {
      if u != t {
        var k := s.pcs[u].k;
        if s.cells[k].word != LOCKED_HAS_WAITERS {
          var h :| h in s.pcs && Hot(s.pcs[h], k);
          assert h == t || Hot(s'.pcs[h], k);
        }
      }
    }
  }

  predicate IsBetween(pc: Pc) { pc.Mark? || pc.Swap? }

  /** Moves that only change where `t` is, away from the two ends of a critical section. */
  lemma GotoKeepsInv(s: State, t: Tid, pc: Pc)
    requires Inv(s) && t in s.pcs && !IsBetween(s.pcs[t]) && !IsBetween(pc)
    requires !pc.Idle? ==> pc.k < |s.cells|
    requires pc.Asleep? ==> s.cells[pc.k].word == LOCKED_HAS_WAITERS
    requires forall k | 0 <= k < |s.cells| && Hot(s.pcs[t], k) :: s.cells[k].word == LOCKED_HAS_WAITERS || Hot(pc, k)
    ensures Inv(Goto(s, t, pc))
  {
    HotAfter(s, Goto(s, t, pc), t);
  }

  lemma RefuseKeepsInv(s: State, t: Tid)
    requires Inv(s) && t in s.pcs && (s.pcs[t].Idle? || s.pcs[t].TryCas?)
    ensures Inv(Refuse(s, t))
  {
    HotAfter(s, Refuse(s, t), t);
  }

  lemma TakeKeepsInv(s: State, t: Tid, k: nat, word: nat)
    requires Inv(s) && t in s.pcs && k < |s.cells| && s.cells[k].word == UNLOCKED
    requires s.pcs[t] == FastCas(k) || s.pcs[t] == RetryCas(k) || s.pcs[t] == SlowCas(k) || s.pcs[t] == TryCas(k)
    requires word == if s.pcs[t].SlowCas? then LOCKED_HAS_WAITERS else LOCKED
    ensures Inv(Take(s, t, k, word))
  {
    HotAfter(s, Take(s, t, k, word), t);
  }

  /** Before the id counter wraps around, a mutex's id is its place in creation order. */
  lemma IdIsIndex(s: State, k: nat)
    requires Shape(s) && k < |s.cells| <= ID_RANGE
    ensures s.cells[k].id == k
  {
  }

  lemma GrantExclusive(s: State, t: Tid, k: nat)
    requires Shape(s) && Exclusive(s) && t in s.pcs && k < |s.cells| && s.pcs[t] == Mark(k)
    ensures Shape(Grant(s, t, k)) && Exclusive(Grant(s, t, k))
  {
  }

  lemma GrantKeepsInv(s: State, t: Tid, k: nat)
    requires Inv(s) && t in s.pcs && k < |s.cells| && s.pcs[t] == Mark(k)
    ensures Inv(Grant(s, t, k))
  {
    GrantExclusive(s, t, k);
    if |s.cells| <= ID_RANGE {
      IdIsIndex(s, k);
    }
    HotAfter(s, Grant(s, t, k), t);
  }

  lemma LockKeepsInv(s: State, t: Tid, k: nat, spurious: bool)
    requires Inv(s) && Enabled(s, Lock(t, k, spurious))
    ensures Inv(StepLock(s, t, k, spurious))
  {
    hide Exclusive, NoLostWake, IdsTrackGuards;
    var s' := StepLock(s, t, k, spurious);
    var pc' := s'.pcs[t];
    if s.pcs[t].Mark? {
      GrantKeepsInv(s, t, k);
      assert s' == Grant(s, t, k);
    } else if pc'.Mark? {
      var word := if s.pcs[t].SlowCas? then LOCKED_HAS_WAITERS else LOCKED;
      TakeKeepsInv(s, t, k, word);
      assert s' == Take(s, t, k, word);
    } else if pc'.Idle? {
      RefuseKeepsInv(s, t);
      assert s' == Refuse(s, t);
    } else {
      assert s' == Goto(s, t, pc');
      GotoKeepsInv(s, t, pc');
    }
  }

  lemma TryLockKeepsInv(s: State, t: Tid, k: nat, spurious: bool)
    requires Inv(s) && Enabled(s, TryLock(t, k, spurious))
    ensures Inv(StepTryLock(s, t, k, spurious))
  {
    var s' := StepTryLock(s, t, k, spurious);
    if s.pcs[t].Mark? {
      GrantKeepsInv(s, t, k);
      assert s' == Grant(s, t, k);
    } else if s'.pcs[t].Mark? {
      TakeKeepsInv(s, t, k, LOCKED);
      assert s' == Take(s, t, k, LOCKED);
    } else if s'.pcs[t].Idle? {
      RefuseKeepsInv(s, t);
      assert s' == Refuse(s, t);
    } else {
      GotoKeepsInv(s, t, s'.pcs[t]);
    }
  }

  lemma DropKeepsInv(s: State, t: Tid, k: nat, panicking: bool, woken: Tid)
    requires Inv(s) && Enabled(s, Drop(t, k, panicking, woken))
    ensures Inv(StepDrop(s, t, k, panicking, woken))
  {
    match s.pcs[t]
    case Idle => UnmarkKeepsInv(s, t, k, panicking, woken);
    case Swap(_) => SwapKeepsInv(s, t, k, panicking, woken);
    case Wake(_) => WakeKeepsInv(s, t, k, panicking, woken);
  }

  lemma UnmarkExclusive(s: State, t: Tid, k: nat, panicking: bool, woken: Tid)
    requires Shape(s) && Exclusive(s) && Enabled(s, Drop(t, k, panicking, woken)) && s.pcs[t].Idle?
    ensures Shape(StepDrop(s, t, k, panicking, woken)) && Exclusive(StepDrop(s, t, k, panicking, woken))
  {
    var s' := StepDrop(s, t, k, panicking, woken);
    assert s.cells[k].owner == Some(t);
    forall j | 0 <= j < |s'.cells| && s'.cells[j].owner.Some?
      ensures Owns(s', s'.cells[j].owner.value, j)
    {
      assert s'.cells[j].owner == s.cells[j].owner && Owns(s, s.cells[j].owner.value, j);
    }
  }

  lemma UnmarkKeepsInv(s: State, t: Tid, k: nat, panicking: bool, woken: Tid)
    requires Inv(s) && Enabled(s, Drop(t, k, panicking, woken)) && s.pcs[t].Idle?
    ensures Inv(StepDrop(s, t, k, panicking, woken))
  {
    UnmarkExclusive(s, t, k, panicking, woken);
    if |s.cells| <= ID_RANGE {
      IdIsIndex(s, k);
    }
    HotAfter(s, StepDrop(s, t, k, panicking, woken), t);
  }

  lemma SwapExclusive(s: State, t: Tid, k: nat, panicking: bool, woken: Tid)
    requires Shape(s) && Exclusive(s) && Enabled(s, Drop(t, k, panicking, woken)) && s.pcs[t].Swap?
    ensures Shape(StepDrop(s, t, k, panicking, woken)) && Exclusive(StepDrop(s, t, k, panicking, woken))
  {
    var s' := StepDrop(s, t, k, panicking, woken);
    assert s.cells[k].owner == Some(t);
    forall j | 0 <= j < |s'.cells| && s'.cells[j].owner.Some?
      ensures Owns(s', s'.cells[j].owner.value, j)
    {
      assert j != k && s'.cells[j] == s.cells[j] && Owns(s, s.cells[j].owner.value, j);
    }
  }

  lemma SwapKeepsInv(s: State, t: Tid, k: nat, panicking: bool, woken: Tid)
    requires Inv(s) && Enabled(s, Drop(t, k, panicking, woken)) && s.pcs[t].Swap?
    ensures Inv(StepDrop(s, t, k, panicking, woken))
  {
    SwapExclusive(s, t, k, panicking, woken);
    hide Exclusive;
    HotAfter(s, StepDrop(s, t, k, panicking, woken), t);
  }

  /** Threads that are at neither end of a critical section may go anywhere else that is not. */
  lemma MovingKeepsExclusive(s: State, pcs': map<Tid, Pc>)
    requires Shape(s) && Exclusive(s) && pcs'.Keys == s.pcs.Keys
    requires forall u | u in s.pcs :: pcs'[u] == s.pcs[u] || (!IsBetween(s.pcs[u]) && !IsBetween(pcs'[u]))
    requires forall u | u in pcs' && !pcs'[u].Idle? :: pcs'[u].k < |s.cells|
    ensures Shape(s.(pcs := pcs')) && Exclusive(s.(pcs := pcs'))
  {
    var s' := s.(pcs := pcs');
    forall j | 0 <= j < |s.cells| && s.cells[j].owner.Some? ensures Owns(s', s.cells[j].owner.value, j) {
      assert Owns(s, s.cells[j].owner.value, j);
    }
  }

  lemma WakeMoves(pcs: map<Tid, Pc>, t: Tid, k: nat, woken: Tid)
    requires t in pcs && pcs[t] == Wake(k)
    ensures var pcs' := WakeOne(pcs[t := Idle], k, woken);
      && pcs'.Keys == pcs.Keys
      && (forall u | u in pcs :: pcs'[u] == pcs[u] || (!IsBetween(pcs[u]) && !IsBetween(pcs'[u])))
      && (forall u | u in pcs && !pcs'[u].Idle? :: !pcs[u].Idle? && pcs'[u].k == pcs[u].k)
  {
  }

  lemma WakeExclusive(s: State, t: Tid, k: nat, panicking: bool, woken: Tid)
    requires Shape(s) && Exclusive(s) && Enabled(s, Drop(t, k, panicking, woken)) && s.pcs[t].Wake?
    ensures Shape(StepDrop(s, t, k, panicking, woken)) && Exclusive(StepDrop(s, t, k, panicking, woken))
  {
    WakeMoves(s.pcs, t, k, woken);
    hide Exclusive, WakeOne, IsBetween;
    MovingKeepsExclusive(s, WakeOne(s.pcs[t := Idle], k, woken));
  }

  lemma WakeNoLostWake(s: State, t: Tid, k: nat, panicking: bool, woken: Tid)
    requires Shape(s) && NoLostWake(s) && Enabled(s, Drop(t, k, panicking, woken)) && s.pcs[t].Wake?
    requires Shape(StepDrop(s, t, k, panicking, woken))
    ensures NoLostWake(StepDrop(s, t, k, panicking, woken))
  {
    var s' := StepDrop(s, t, k, panicking, woken);
    forall u | u in s'.pcs && s'.pcs[u].Asleep?
      ensures s'.cells[s'.pcs[u].k].word == LOCKED_HAS_WAITERS || SomeoneHot(s', s'.pcs[u].k)
    {
      var j := s.pcs[u].k;
      assert SleepsOn(s, u, j);
      if s.cells[j].word != LOCKED_HAS_WAITERS {
        var h :| h in s.pcs && Hot(s.pcs[h], j);
        assert Hot(s'.pcs[if j == k then woken else h], j);
      }
    }
  }

  lemma WakeKeepsInv(s: State, t: Tid, k: nat, panicking: bool, woken: Tid)
    requires Inv(s) && Enabled(s, Drop(t, k, panicking, woken)) && s.pcs[t].Wake?
    ensures Inv(StepDrop(s, t, k, panicking, woken))
  {
    WakeExclusive(s, t, k, panicking, woken);
    WakeNoLostWake(s, t, k, panicking, woken);
  }

  lemma NewExclusive(s: State)
    requires Shape(s) && Exclusive(s)
    ensures Shape(StepNew(s)) && Exclusive(StepNew(s))
  {
    var s' := StepNew(s);
    forall j | 0 <= j < |s'.cells| && s'.cells[j].owner.Some? ensures Owns(s', s'.cells[j].owner.value, j) {
      assert s'.cells[j] == s.cells[j] && Owns(s, s.cells[j].owner.value, j);
    }
  }

  lemma NewKeepsInv(s: State, t: Tid)
    requires Inv(s) && Enabled(s, New(t))
    ensures Inv(StepNew(s))
  {
    NewExclusive(s);
    hide Exclusive;
    HotAfter(s, StepNew(s), t);
  }

  lemma ClearPoisonKeepsInv(s: State, t: Tid, k: nat)
    requires Inv(s) && Enabled(s, ClearPoison(t, k))
    ensures Inv(Step(s, ClearPoison(t, k)))
  {
    HotAfter(s, Step(s, ClearPoison(t, k)), t);
  }

  lemma StepKeepsInv(s: State, m: Move)
    requires Inv(s) && Enabled(s, m)
    ensures Inv(Step(s, m))
  {
    match m
    case New(t) => NewKeepsInv(s, t);
    case Lock(t, k, spurious) => LockKeepsInv(s, t, k, spurious);
    case TryLock(t, k, spurious) => TryLockKeepsInv(s, t, k, spurious);
    case Drop(t, k, panicking, woken) => DropKeepsInv(s, t, k, panicking, woken);
    case ClearPoison(t, k) => ClearPoisonKeepsInv(s, t, k);
    case SpuriousWake(t) => GotoKeepsInv(s, t, SlowCas(s.pcs[t].k));
  }

  lemma InitEstablishesInv(s: State)
    requires Init(s)
    ensures Inv(s)
  {
  }

  lemma ReachableInv(states: seq<State>, moves: seq<Move>, i: nat)
    requires IsRun(Init, Next, states, moves) && i < |states|
    ensures Inv(states[i])
  {
    forall s | Init(s) ensures Inv(s) { InitEstablishesInv(s); }
    forall s, m, s' | Inv(s) && Next(s, m, s') ensures Inv(s') { StepKeepsInv(s, m); }
    Invariance(Init, Next, Inv, states, moves, i);
  }

  /** At most one owner per mutex, and the word says whether there is one. */
  lemma MutualExclusion(states: seq<State>, moves: seq<Move>, i: nat, k: nat)
    requires IsRun(Init, Next, states, moves) && i < |states| && k < |states[i].cells|
    ensures forall t, u | Owns(states[i], t, k) && Owns(states[i], u, k) :: t == u
    ensures states[i].cells[k].word != UNLOCKED <==> exists t :: Owns(states[i], t, k)
  {
    ReachableInv(states, moves, i);
    var s := states[i];
    forall t: Tid | Owns(s, t, k) ensures s.cells[k].owner == Some(t) {}
    if s.cells[k].word != UNLOCKED {
      assert Owns(s, s.cells[k].owner.value, k);
    }
  }

  /**
   No wakeup is lost: behind every sleeper there is the waiters flag, a wake on its way, or an
   awake thread in the slow loop of the same mutex.
   */
  lemma NoLostWakeup(states: seq<State>, moves: seq<Move>, i: nat, sleeper: Tid, k: nat)
    requires IsRun(Init, Next, states, moves) && i < |states| && SleepsOn(states[i], sleeper, k)
    ensures k < |states[i].cells|
    ensures states[i].cells[k].word == LOCKED_HAS_WAITERS || SomeoneHot(states[i], k)
  {
    ReachableInv(states, moves, i);
  }

  /**
   Hence when all contenders of mutex `k` sleep and no wake is in flight, the mutex is not free:
   somebody owns it, and the swap that ends that ownership leads to `wake_one`.
   */
  lemma SleepersHaveAnOwner(states: seq<State>, moves: seq<Move>, i: nat, sleeper: Tid, k: nat)
    requires IsRun(Init, Next, states, moves) && i < |states| && SleepsOn(states[i], sleeper, k)
    requires !SomeoneHot(states[i], k)
    ensures exists t :: Owns(states[i], t, k)
    ensures forall t, panicking, woken |
              && Enabled(states[i], Drop(t, k, panicking, woken))
              && states[i].pcs[t] == Swap(k) ::
              Step(states[i], Drop(t, k, panicking, woken)).pcs[t] == Wake(k)
  {
    ReachableInv(states, moves, i);
    MutualExclusion(states, moves, i, k);
  }

  /**
   Relocking: with fewer than 2^64 mutexes created, `lock` and `try_lock` refuse at once exactly
   when the calling thread holds a guard of that very mutex, and refusing changes nothing else.
   */
  lemma RefusedIffHeld(states: seq<State>, moves: seq<Move>, i: nat, t: Tid, k: nat, spurious: bool)
    requires IsRun(Init, Next, states, moves) && i < |states| && |states[i].cells| <= ID_RANGE
    requires t in states[i].pcs && k < |states[i].cells| && states[i].pcs[t].Idle?
    ensures var s := states[i];
      && Enabled(s, Lock(t, k, spurious)) && Enabled(s, TryLock(t, k, spurious))
      && (k in s.guards[t] ==>
            && StepLock(s, t, k, spurious) == s.(outcome := s.outcome[t := WouldBlock])
            && StepTryLock(s, t, k, spurious) == s.(outcome := s.outcome[t := WouldBlock]))
      && (k !in s.guards[t] ==>
            && StepLock(s, t, k, spurious) == Goto(s, t, FastCas(k))
            && StepTryLock(s, t, k, spurious) == Goto(s, t, TryCas(k)))
  {
    ReachableInv(states, moves, i);
    IdIsIndex(states[i], k);
    assert states[i].pcs[t := Idle] == states[i].pcs;
  }

  /**
   The thread-local sets say the truth: with at most 2^64 mutexes created, the id of a mutex is in a
   thread's set iff the thread holds a guard of that mutex, and the sets contain no other ids.
   */
  lemma IdInSetIffHeld(states: seq<State>, moves: seq<Move>, i: nat, t: Tid)
    requires IsRun(Init, Next, states, moves) && i < |states| && |states[i].cells| <= ID_RANGE
    requires t in states[i].pcs
    ensures var s := states[i];
      && t in s.acquired && t in s.guards
      && (forall k | 0 <= k < |s.cells| :: s.cells[k].id in s.acquired[t] <==> k in s.guards[t])
      && (forall id | id in s.acquired[t] :: id < |s.cells| && s.cells[id].id == id)
  {
    ReachableInv(states, moves, i);
    forall k | 0 <= k < |states[i].cells| ensures states[i].cells[k].id == k { IdIsIndex(states[i], k); }
  }

  /** What the result of `lock` or `try_lock` on mutex `k` says. */
  ghost predicate Truthful(s: State, m: Move, s': State)
    requires m.Lock? || m.TryLock?
  {
    && m.t in s.guards && m.t in s'.guards && m.t in s'.outcome && m.k < |s.cells| && m.k < |s'.cells|
    && match s'.outcome[m.t]
       case NoResult => false
       case WouldBlock =>
         && s'.guards == s.guards && s'.cells == s.cells && m.t in s.pcs
         && (if s.pcs[m.t].Idle? then |s.cells| <= ID_RANGE ==> m.k in s.guards[m.t]
             else m.TryLock? && (s.cells[m.k].owner.Some? || m.spurious))
       case Acquired => Handed(s, m.t, m.k, s') && !s.cells[m.k].poisoned
       case Poisoned => Handed(s, m.t, m.k, s') && s.cells[m.k].poisoned
  }

  /** Thread `t` has got a guard of mutex `k`, which it owns. */
  ghost predicate Handed(s: State, t: Tid, k: nat, s': State)
    requires k < |s'.cells| && t in s.guards && t in s'.guards
  {
    k !in s.guards[t] && s'.guards == s.guards[t := s.guards[t] + {k}] && s'.cells[k].owner == Some(t)
  }

  lemma LockIsTrue(s: State, t: Tid, k: nat, spurious: bool)
    requires Inv(s) && Enabled(s, Lock(t, k, spurious))
    ensures var s' := StepLock(s, t, k, spurious);
      t in s'.pcs && (s'.pcs[t].Idle? ==> Truthful(s, Lock(t, k, spurious), s'))
  {
    hide NoLostWake;
    if |s.cells| <= ID_RANGE { IdIsIndex(s, k); }
  }

  lemma TryLockIsTrue(s: State, t: Tid, k: nat, spurious: bool)
    requires Inv(s) && Enabled(s, TryLock(t, k, spurious))
    ensures var s' := StepTryLock(s, t, k, spurious);
      t in s'.pcs && (s'.pcs[t].Idle? ==> Truthful(s, TryLock(t, k, spurious), s'))
  {
    hide NoLostWake;
    if |s.cells| <= ID_RANGE { IdIsIndex(s, k); }
  }

  /** What a call has returned, if thread `t` is outside again. */
  function ResultOf(pcs: map<Tid, Pc>, outcome: map<Tid, Outcome>, t: Tid): Option<Outcome> {
    if t in pcs && t in outcome && pcs[t].Idle? then Some(outcome[t]) else None
  }

  /** Mutexes can be told apart by id exactly as long as at most 2^64 of them were created. */
  lemma IdsDistinctIffNoWrap(states: seq<State>, moves: seq<Move>, i: nat)
    requires IsRun(Init, Next, states, moves) && i < |states|
    ensures (forall j, k | 0 <= j < k < |states[i].cells| :: states[i].cells[j].id != states[i].cells[k].id)
        <==> |states[i].cells| <= ID_RANGE
  {
    ReachableInv(states, moves, i);
    if |states[i].cells| > ID_RANGE {
      assert states[i].cells[0].id == states[i].cells[ID_RANGE].id;
    }
  }

  /** All mutexes of the process and the thread-local sets, with the threads working on them. */
  class Mutexes {
    var cells: seq<Cell>
    var nextId: nat
    var pcs: map<Tid, Pc>
    var acquired: map<Tid, set<nat>>
    ghost var guards: map<Tid, set<nat>>
    var outcome: map<Tid, Outcome>

    ghost function View(): State
      reads this
    {
      State(cells, nextId, pcs, acquired, guards, outcome)
    }

    constructor (threads: set<Tid>)
      ensures Init(View()) && Inv(View()) && pcs.Keys == threads
    {
      cells, nextId := [], 0;
      pcs := map t | t in threads :: Idle;
      acquired := map t | t in threads :: {};
      guards := map t | t in threads :: {};
      outcome := map t | t in threads :: NoResult;
      new;
      assert pcs.Keys == threads && acquired.Keys == threads && guards.Keys == threads && outcome.Keys == threads;
    }

    /** `Mutex::new`: a fresh id and an unlocked word. */
    method NewMutex(t: Tid) returns (k: nat)
      requires Inv(View()) && Enabled(View(), New(t))
      modifies this
      ensures View() == Step(old(View()), New(t)) && Inv(View())
      ensures k == |old(cells)|
    {
      NewKeepsInv(View(), t);
      k := |cells|;
      cells := cells + [Cell(nextId, UNLOCKED, false, None)];
      nextId := AddUsize(nextId, 1);
    }

    /** `compare_exchange(UNLOCKED, word)` on mutex `k`; on success the thread goes on to `set_acquired`. */
    method CompareExchange(t: Tid, k: nat, word: nat, onFailure: Pc, spurious: bool)
      requires t in pcs && k < |cells|
      modifies `cells, `pcs
      ensures old(cells)[k].word == UNLOCKED && !spurious ==> View() == Take(old(View()), t, k, word)
      ensures !(old(cells)[k].word == UNLOCKED && !spurious) ==> View() == Goto(old(View()), t, onFailure)
    {
      if cells[k].word == UNLOCKED && !spurious {
        cells := cells[k := cells[k].(word := word, owner := Some(t))];
        pcs := pcs[t := Mark(k)];
      } else {
        pcs := pcs[t := onFailure];
      }
    }

    /** `set_acquired`, the poison test, and the guard. */
    method SetAcquired(t: Tid, k: nat)
      requires t in acquired && t in guards && k < |cells|
      modifies this
      ensures View() == Grant(old(View()), t, k)
    {
      pcs := pcs[t := Idle];
      acquired := acquired[t := acquired[t] + {cells[k].id}];
      guards := guards[t := guards[t] + {k}];
      outcome := outcome[t := if cells[k].poisoned then Poisoned else Acquired];
    }

    /** The next atomic instruction of `lock` on mutex `k` in thread `t`. */
    method Lock(t: Tid, k: nat, spurious: bool) returns (result: Option<Outcome>)
      requires Inv(View()) && Enabled(View(), Move.Lock(t, k, spurious))
      modifies this
      ensures View() == Step(old(View()), Move.Lock(t, k, spurious)) && Inv(View())
      ensures result == ResultOf(pcs, outcome, t)
      ensures result.Some? ==> Truthful(old(View()), Move.Lock(t, k, spurious), View())
    {
      LockKeepsInv(View(), t, k, spurious);
      LockIsTrue(View(), t, k, spurious);
      hide Inv, Truthful, Step, Enabled;
      LockAccess(t, k, spurious);
      result := ResultOf(pcs, outcome, t);
    }

    /** The access itself. */
    method LockAccess(t: Tid, k: nat, spurious: bool)
      requires Enabled(View(), Move.Lock(t, k, spurious))
      modifies this
      ensures View() == StepLock(old(View()), t, k, spurious)
    {
      match pcs[t] {
        case Idle =>
          if cells[k].id in acquired[t] {
            pcs, outcome := pcs[t := Idle], outcome[t := WouldBlock];
          } else {
            pcs := pcs[t := FastCas(k)];
          }
        case FastCas(_) =>
          CompareExchange(t, k, LOCKED, Spin(k, 0), spurious);
        case Spin(_, counter) =>
          if counter < SPIN_LIMIT && cells[k].word != UNLOCKED {
            pcs := pcs[t := Spin(k, counter + 1)];
          } else {
            pcs := pcs[t := RetryCas(k)];
          }
        case RetryCas(_) =>
          CompareExchange(t, k, LOCKED, SlowCas(k), false);
        case SlowCas(_) =>
          CompareExchange(t, k, LOCKED_HAS_WAITERS, SlowWait(k), false);
        case SlowWait(_) =>
          pcs := pcs[t := if cells[k].word == LOCKED_HAS_WAITERS then Asleep(k) else SlowCas(k)];
        case Mark(_) =>
          SetAcquired(t, k);
      }
    }

    /** The next atomic instruction of `try_lock`. */
    method TryLock(t: Tid, k: nat, spurious: bool) returns (result: Option<Outcome>)
      requires Inv(View()) && Enabled(View(), Move.TryLock(t, k, spurious))
      modifies this
      ensures View() == Step(old(View()), Move.TryLock(t, k, spurious)) && Inv(View())
      ensures result == ResultOf(pcs, outcome, t)
      ensures result.Some? ==> Truthful(old(View()), Move.TryLock(t, k, spurious), View())
    {
      TryLockKeepsInv(View(), t, k, spurious);
      TryLockIsTrue(View(), t, k, spurious);
      hide Inv, Truthful, Step, Enabled;
      TryLockAccess(t, k, spurious);
      result := ResultOf(pcs, outcome, t);
    }

    /** The access itself. */
    method TryLockAccess(t: Tid, k: nat, spurious: bool)
      requires Enabled(View(), Move.TryLock(t, k, spurious))
      modifies this
      ensures View() == StepTryLock(old(View()), t, k, spurious)
    {
      match pcs[t] {
        case Idle =>
          if cells[k].id in acquired[t] {
            pcs, outcome := pcs[t := Idle], outcome[t := WouldBlock];
          } else {
            pcs := pcs[t := TryCas(k)];
          }
        case TryCas(_) =>
          if cells[k].word == UNLOCKED && !spurious {
            CompareExchange(t, k, LOCKED, Idle, spurious);
          } else {
            pcs, outcome := pcs[t := Idle], outcome[t := WouldBlock];
          }
        case Mark(_) =>
          SetAcquired(t, k);
      }
    }

    /** The next atomic instruction of dropping `t`'s guard of mutex `k`. */
    method DropGuard(t: Tid, k: nat, panicking: bool, woken: Tid)
      requires Inv(View()) && Enabled(View(), Drop(t, k, panicking, woken))
      modifies this
      ensures View() == Step(old(View()), Drop(t, k, panicking, woken)) && Inv(View())
      ensures k < |cells| && k < |old(cells)|
      ensures cells[k].poisoned <==> old(cells)[k].poisoned || (old(pcs)[t].Idle? && panicking)
    {
      DropKeepsInv(View(), t, k, panicking, woken);
      hide Inv, Truthful, Step, Enabled;
      DropGuardAccess(t, k, panicking, woken);
    }

    /** The access itself. */
    method DropGuardAccess(t: Tid, k: nat, panicking: bool, woken: Tid)
      requires Enabled(View(), Drop(t, k, panicking, woken))
      modifies this
      ensures View() == StepDrop(old(View()), t, k, panicking, woken)
      ensures k < |cells|
      ensures cells[k].poisoned <==> old(cells)[k].poisoned || (old(pcs)[t].Idle? && panicking)
    {
      match pcs[t] {
        case Idle =>
          if panicking {
            cells := cells[k := cells[k].(poisoned := true)];
          }
          acquired := acquired[t := acquired[t] - {cells[k].id}];
          guards := guards[t := guards[t] - {k}];
          pcs := pcs[t := Swap(k)];
        case Swap(_) =>
          var previous := cells[k].word;
          cells := cells[k := cells[k].(word := UNLOCKED, owner := None)];
          pcs := pcs[t := if previous == LOCKED_HAS_WAITERS then Wake(k) else Idle];
        case Wake(_) =>
          pcs := WakeOne(pcs[t := Idle], k, woken);
      }
    }
  }
}
