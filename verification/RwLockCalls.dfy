/** What single calls of the reader-writer lock answer and do, in any state and undisturbed. */
module RwLockCalls {
  import opened Machine
  import opened Counting
  import opened Runs
  import opened RwLocks
  import opened Wakes

  /** The first access of a drop of a write guard in a panicking thread. */
  ghost predicate Poisons(s: State, m: Move) {
    m.DropWrite? && m.panicking && m.t in s.pcs && s.pcs[m.t].Idle?
  }

  ghost predicate Clears(s: State, m: Move) {
    m.ClearPoison?
  }

  /** The lock is poisoned iff a write guard was dropped in a panic and no `clear_poison` came after. */
  lemma PoisonedIffPanicked(states: seq<State>, moves: seq<Move>, i: nat)
    requires IsRun(Init, Next, states, moves) && i < |states|
    ensures states[i].poisoned <==> exists l :: SetAndNotCleared(Poisons, Clears, states, moves, l, i)
  {
    hide Step, Enabled, Poisons, Clears;
    forall s, m, s' | Next(s, m, s') ensures s'.poisoned <==> Poisons(s, m) || (s.poisoned && !Clears(s, m)) {
      OnlyPanicsPoison(s, m);
    }
    FlagLaw(Init, Next, (s: State) => s.poisoned, Poisons, Clears, states, moves, i);
  }

  lemma OnlyPanicsPoison(s: State, m: Move)
    requires Enabled(s, m)
    ensures Step(s, m).poisoned <==> Poisons(s, m) || (s.poisoned && !Clears(s, m))
  {
  }

  /** A waiting writer sets the low bit, or a writer gets the lock; the end of a write guard clears it. */
  ghost predicate Raises(s: State, m: Move) {
    && (m.Write? || m.TryWrite?) && m.t in s.pcs
    && (s.pcs[m.t].WriteFlag? || s.pcs[m.t].WriteCas? || s.pcs[m.t].TryWriteCas?) && s.pcs[m.t].seen == s.word
  }

  ghost predicate Lowers(s: State, m: Move) {
    m.DropWrite? && m.t in s.pcs && s.pcs[m.t].WriteStore?
  }

  ghost predicate SafeNext(s: State, m: Move, s': State) {
    Inv(s) && Next(s, m, s')
  }

  /** The low bit is set iff a writer has set it or got the lock, and no write guard has ended since. */
  lemma LowBitIffWriter(states: seq<State>, moves: seq<Move>, i: nat)
    requires IsRun(Init, Next, states, moves) && i < |states|
    ensures states[i].word % 2 == 1 <==> exists l :: SetAndNotCleared(Raises, Lowers, states, moves, l, i)
  {
    hide Step, Enabled, Raises, Lowers, Inv;
    forall s, m, s' | SafeNext(s, m, s')
      ensures s'.word % 2 == 1 <==> Raises(s, m) || (s.word % 2 == 1 && !Lowers(s, m))
    {
      OnlyWritersRaise(s, m);
    }
    forall l | 0 <= l < |moves| ensures SafeNext(states[l], moves[l], states[l + 1]) {
      ReachableInv(states, moves, l);
      NextAt(Init, Next, states, moves, l);
    }
    FlagLaw(Init, SafeNext, (s: State) => s.word % 2 == 1, Raises, Lowers, states, moves, i);
  }

  lemma OnlyWritersRaise(s: State, m: Move)
    requires Inv(s) && Enabled(s, m)
    ensures Step(s, m).word % 2 == 1 <==> Raises(s, m) || (s.word % 2 == 1 && !Lowers(s, m))
  {
    if m.Write? {
      WriteRaises(s, m.t);
    } else {
      hide Inv;
    }
  }

  lemma WriteRaises(s: State, t: Tid)
    requires Inv(s) && Enabled(s, Write(t))
    ensures StepWrite(s, t).word % 2 == 1 <==> Raises(s, Write(t)) || s.word % 2 == 1
  {
    assert Tested(s.pcs[t]);
    hide Inv, OneGuardEach, Encoding;
  }

  /**
   At its load `try_read` refuses iff the caller has a guard, a write guard is out, or the low bit is
   set. At its exchange it refuses iff the word is no longer the loaded one.
   */
  lemma TryReadRefusedIff(states: seq<State>, moves: seq<Move>, i: nat)
    requires IsRun(Init, Next, states, moves) && i < |moves| && moves[i].TryRead?
    ensures var s, s', t := states[i], states[i + 1], moves[i].t;
      && t in s.pcs && t in s.modes && t in s'.pcs && t in s'.modes
      && (s.pcs[t].Idle? ==>
            && s'.modes[t] == s.modes[t]
            && s'.pcs[t] == if !s.modes[t].Free? || Writers(s) > 0 || s.word % 2 == 1 then Idle(WouldBlock)
                            else TryReadCas(s.word))
      && (s.pcs[t].TryReadCas? ==>
            if s.word != s.pcs[t].seen then s'.pcs[t] == Idle(WouldBlock) && s'.modes[t].Free?
            else s'.pcs[t] == ReadMark && s'.modes[t].Reader?)
  {
    ReachableInv(states, moves, i);
    NextAt(Init, Next, states, moves, i);
    WordTells(states[i], moves[i].t);
    assert Fits(states[i].pcs[moves[i].t], states[i].modes[moves[i].t], moves[i].t in states[i].acquired);
    hide Inv, OneGuardEach, Encoding, GoodPick, Readers, Writers;
  }

  /** At its load `try_write` refuses iff any guard is out. At its exchange it refuses iff the word has changed. */
  lemma TryWriteRefusedIff(states: seq<State>, moves: seq<Move>, i: nat)
    requires IsRun(Init, Next, states, moves) && i < |moves| && moves[i].TryWrite?
    ensures var s, s', t := states[i], states[i + 1], moves[i].t;
      && t in s.pcs && t in s.modes && t in s'.pcs && t in s'.modes
      && (s.pcs[t].Idle? ==>
            && s'.modes[t] == s.modes[t]
            && s'.pcs[t] == if !s.modes[t].Free? || Readers(s) + Writers(s) > 0 then Idle(WouldBlock)
                            else TryWriteCas(s.word))
      && (s.pcs[t].TryWriteCas? ==>
            if s.word != s.pcs[t].seen then s'.pcs[t] == Idle(WouldBlock) && s'.modes[t].Free?
            else s'.pcs[t] == WriteMark && s'.modes[t].Writer?)
  {
    ReachableInv(states, moves, i);
    NextAt(Init, Next, states, moves, i);
    WordTells(states[i], moves[i].t);
    assert Fits(states[i].pcs[moves[i].t], states[i].modes[moves[i].t], moves[i].t in states[i].acquired);
    hide Inv, OneGuardEach, Encoding, GoodPick, Readers, Writers;
  }

  /**
   Past the check of its own guards `read` waits for a write guard iff one is out, waits for the low bit
   iff only that is set, and otherwise goes for the lock, which it gets iff the word has not changed and
   its weak exchange does not fail spuriously. It falls asleep iff the word still is what it waits for.
   */
  lemma ReadWaitsIff(states: seq<State>, moves: seq<Move>, i: nat)
    requires IsRun(Init, Next, states, moves) && i < |moves| && moves[i].Read?
    ensures var s, s', t := states[i], states[i + 1], moves[i].t;
      && t in s.pcs && t in s.modes && t in s'.pcs && t in s'.modes
      && (s.pcs[t].Idle? && !s.modes[t].Free? ==> s'.pcs[t] == Idle(WouldBlock))
      && ((s.pcs[t].Idle? && s.modes[t].Free?)
          || (s.pcs[t].ReadCas? && (s.word != s.pcs[t].seen || moves[i].spurious)) ==>
            && s'.modes[t].Free?
            && s'.pcs[t] == if Writers(s) > 0 then ReadWaitMax
                            else if s.word % 2 == 1 then ReadWait(s.word) else ReadCas(s.word))
      && (s.pcs[t].ReadCas? && s.word == s.pcs[t].seen && !moves[i].spurious ==>
            s'.pcs[t] == ReadMark && s'.modes[t].Reader?)
      && (s.pcs[t].ReadReload? ==> s'.pcs[t] == if s.word % 2 == 1 then ReadWait(s.word) else ReadCas(s.word))
      && (s.pcs[t].ReadWait? ==>
            s'.pcs[t] == if s.word == s.pcs[t].seen then ReadAsleep(s.word) else ReadReload)
      && (s.pcs[t].ReadWaitMax? ==> s'.pcs[t] == if Writers(s) > 0 then ReadAsleepMax else ReadWaitMax)
  {
    ReachableInv(states, moves, i);
    NextAt(Init, Next, states, moves, i);
    WordTells(states[i], moves[i].t);
    assert Fits(states[i].pcs[moves[i].t], states[i].modes[moves[i].t], moves[i].t in states[i].acquired);
    hide Inv, OneGuardEach, Encoding, GoodPick, Readers, Writers;
  }

  /**
   Past that check `write` goes for the lock iff no guard is out, and gets it iff the word has not
   changed. Otherwise it makes sure the low bit is set, is counted as waiting, and waits. Afterwards it
   decides by the value it had seen before.
   */
  lemma WriteWaitsIff(states: seq<State>, moves: seq<Move>, i: nat)
    requires IsRun(Init, Next, states, moves) && i < |moves| && moves[i].Write?
    ensures var s, s', t := states[i], states[i + 1], moves[i].t;
      && t in s.pcs && t in s.modes && t in s'.pcs && t in s'.modes
      && (s.pcs[t].Idle? && !s.modes[t].Free? ==> s'.pcs[t] == Idle(WouldBlock))
      && ((s.pcs[t].Idle? && s.modes[t].Free?)
          || ((s.pcs[t].WriteCas? || s.pcs[t].WriteFlag?) && s.word != s.pcs[t].seen) ==>
            && s'.modes[t].Free? && s'.word == s.word
            && s'.pcs[t] == if Readers(s) + Writers(s) == 0 then WriteCas(s.word)
                            else if s.word % 2 == 0 then WriteFlag(s.word) else WriteEnter(s.word))
      && (s.pcs[t].WriteCas? && s.word == s.pcs[t].seen ==> s'.pcs[t] == WriteMark && s'.modes[t].Writer?)
      && (s.pcs[t].WriteFlag? && s.word == s.pcs[t].seen ==>
            s'.pcs[t] == WriteEnter(s.word) && s'.word == s.word + 1 && s'.modes[t].Free?)
      && (s.pcs[t].WriteEnter? ==> s'.pcs[t] == WriteSnap(s.pcs[t].seen))
      && (s.pcs[t].WriteSnap? ==> s'.pcs[t] == WriteWait(s.pcs[t].seen, s.writersNumber))
      && (s.pcs[t].WriteLeave? ==>
            s'.pcs[t] == if s.pcs[t].seen <= 1 then WriteCas(s.pcs[t].seen)
                         else if s.pcs[t].seen % 2 == 0 then WriteFlag(s.pcs[t].seen) else WriteEnter(s.pcs[t].seen))
  {
    ReachableInv(states, moves, i);
    NextAt(Init, Next, states, moves, i);
    WordTells(states[i], moves[i].t);
    assert Tested(states[i].pcs[moves[i].t]);
    assert Fits(states[i].pcs[moves[i].t], states[i].modes[moves[i].t], moves[i].t in states[i].acquired);
    hide Inv, OneGuardEach, Encoding, GoodPick, Readers, Writers;
  }

  /** Thread `t` has returned with a guard, in a poison error iff the lock was poisoned. */
  ghost predicate HandedOut(s: State, t: Tid, mode: Mode, s': State) {
    && t in s'.pcs && t in s'.modes && s'.pcs[t] == Idle(Guard(s.poisoned))
    && s'.modes[t] == mode && t in s'.acquired
  }

  /** An undisturbed `read` or `try_read` with the low bit clear returns with a guard after three accesses. */
  lemma ReadAlone(states: seq<State>, moves: seq<Move>, i: nat, t: Tid)
    requires IsRun(Init, Next, states, moves) && InARow(moves, i, 3, Read(t, false))
    requires t in states[i].pcs && states[i].pcs[t].Idle? && t in states[i].modes && states[i].modes[t].Free?
    requires states[i].word % 2 == 0
    ensures HandedOut(states[i], t, Reader, states[i + 3]) && states[i + 3].word == states[i].word + 2
  {
    FreeToRead(states, moves, i, t);
    hide Init, Frame;
    NextAt(Init, Next, states, moves, i);
    assert states[i + 1] == Goto(states[i], t, ReadCas(states[i].word));
    NextAt(Init, Next, states, moves, i + 1);
    NextAt(Init, Next, states, moves, i + 2);
  }

  lemma TryReadAlone(states: seq<State>, moves: seq<Move>, i: nat, t: Tid)
    requires IsRun(Init, Next, states, moves) && InARow(moves, i, 3, TryRead(t))
    requires t in states[i].pcs && states[i].pcs[t].Idle? && t in states[i].modes && states[i].modes[t].Free?
    requires states[i].word % 2 == 0
    ensures HandedOut(states[i], t, Reader, states[i + 3]) && states[i + 3].word == states[i].word + 2
  {
    FreeToRead(states, moves, i, t);
    hide Init, Frame;
    NextAt(Init, Next, states, moves, i);
    assert states[i + 1] == Goto(states[i], t, TryReadCas(states[i].word));
    NextAt(Init, Next, states, moves, i + 1);
    NextAt(Init, Next, states, moves, i + 2);
  }

  lemma FreeToRead(states: seq<State>, moves: seq<Move>, i: nat, t: Tid)
    requires IsRun(Init, Next, states, moves) && i < |states|
    requires t in states[i].pcs && states[i].pcs[t].Idle? && t in states[i].modes && states[i].modes[t].Free?
    requires states[i].word % 2 == 0
    ensures t !in states[i].acquired && states[i].word + 2 <= U32_MAX && states[i].word != WRITE_LOCKED - 1
  {
    ReachableInv(states, moves, i);
    WordTells(states[i], t);
    WordHasRoom(states[i], t);
  }

  /** ... and an undisturbed `write` or `try_write` does while no guard is out. */
  lemma WriteAlone(states: seq<State>, moves: seq<Move>, i: nat, t: Tid)
    requires IsRun(Init, Next, states, moves)
    requires InARow(moves, i, 3, Write(t)) || InARow(moves, i, 3, TryWrite(t))
    requires t in states[i].pcs && states[i].pcs[t].Idle? && Readers(states[i]) + Writers(states[i]) == 0
    ensures HandedOut(states[i], t, Writer, states[i + 3]) && states[i + 3].word == WRITE_LOCKED
  {
    ReachableInv(states, moves, i);
    WordTells(states[i], t);
    NoGuardNoMode(states[i], t);
    hide Init, Inv, OneGuardEach, Encoding, GoodPick, Readers, Writers, Frame;
    NextAt(Init, Next, states, moves, i);
    NextAt(Init, Next, states, moves, i + 1);
    NextAt(Init, Next, states, moves, i + 2);
  }

  lemma NoGuardNoMode(s: State, t: Tid)
    requires t in s.modes && Readers(s) + Writers(s) == 0
    ensures s.modes[t].Free?
  {
    CountZero(s.modes, IsReader);
    CountZero(s.modes, IsWriter);
    assert !IsReader(s.modes[t]) && !IsWriter(s.modes[t]);
  }

  /** Between the two updates of `waiting_writers`. */
  predicate IsWaiting(pc: Pc) {
    pc.WriteSnap? || pc.WriteWait? || pc.WriteAsleep? || pc.WriteLeave?
  }

  ghost predicate WaitersCounted(s: State) {
    Inv(s) && s.waitingWriters == Count(s.pcs, IsWaiting)
  }

  /** `waiting_writers` is exact in every reachable state. */
  lemma WaitingWritersIsExact(states: seq<State>, moves: seq<Move>, i: nat)
    requires IsRun(Init, Next, states, moves) && i < |states|
    ensures states[i].waitingWriters == Count(states[i].pcs, IsWaiting)
  {
    forall s | Init(s) ensures WaitersCounted(s) {
      InitEstablishesInv(s);
      CountZero(s.pcs, IsWaiting);
    }
    forall s, m, s' | WaitersCounted(s) && Next(s, m, s') ensures WaitersCounted(s') {
      StepKeepsInv(s, m);
      StepCountsWaiters(s, m);
    }
    Invariance(Init, Next, WaitersCounted, states, moves, i);
  }

  lemma StepCountsWaiters(s: State, m: Move)
    requires s.waitingWriters == Count(s.pcs, IsWaiting) && |s.pcs| < THREAD_LIMIT && Enabled(s, m)
    ensures Step(s, m).waitingWriters == Count(Step(s, m).pcs, IsWaiting)
  {
    hide Count;
    match m
    case Write(t) => WriteCountsWaiters(s, t);
    case DropRead(t, woken) => DropsCountWaiters(s, m);
    case DropWrite(t, _, woken) => DropsCountWaiters(s, m);
    case Read(t, spurious) => WaitersAfter(s, t, StepRead(s, t, spurious).pcs[t]);
    case TryRead(t) => WaitersAfter(s, t, StepTryRead(s, t).pcs[t]);
    case TryWrite(t) => WaitersAfter(s, t, StepTryWrite(s, t).pcs[t]);
    case SpuriousWake(t) => WaitersAfter(s, t, Awake(s.pcs[t]));
    case ClearPoison(_) =>
  }

  lemma WaitersAfter(s: State, t: Tid, pc: Pc)
    requires t in s.pcs
    ensures Count(s.pcs[t := pc], IsWaiting) == Count(s.pcs, IsWaiting) - Bit(IsWaiting(s.pcs[t])) + Bit(IsWaiting(pc))
    ensures Bit(IsWaiting(s.pcs[t])) <= Count(s.pcs, IsWaiting) <= |s.pcs|
  {
    CountBound(s.pcs, IsWaiting);
    CountUpdate(s.pcs, t, pc, IsWaiting);
    if IsWaiting(s.pcs[t]) {
      CountAtLeast(s.pcs, t, IsWaiting);
    }
  }

  lemma WriteCountsWaiters(s: State, t: Tid)
    requires s.waitingWriters == Count(s.pcs, IsWaiting) && |s.pcs| < THREAD_LIMIT && Enabled(s, Write(t))
    ensures StepWrite(s, t).waitingWriters == Count(StepWrite(s, t).pcs, IsWaiting)
  {
    var s' := StepWrite(s, t);
    WaitersAfter(s, t, s'.pcs[t]);
    assert s'.pcs == s.pcs[t := s'.pcs[t]];
    hide Count, Frame, GoodPick;
    if s.pcs[t].WriteEnter? {
      assert s'.waitingWriters == AddU32(s.waitingWriters, 1) && s'.pcs[t].WriteSnap?;
    } else if s.pcs[t].WriteLeave? {
      assert s'.waitingWriters == SubU32(s.waitingWriters, 1) && !IsWaiting(s'.pcs[t]);
    } else {
      assert s'.waitingWriters == s.waitingWriters && IsWaiting(s'.pcs[t]) == IsWaiting(s.pcs[t]);
    }
  }

  lemma DropsCountWaiters(s: State, m: Move)
    requires s.waitingWriters == Count(s.pcs, IsWaiting) && (m.DropRead? || m.DropWrite?) && Enabled(s, m)
    ensures Step(s, m).waitingWriters == Count(Step(s, m).pcs, IsWaiting)
  {
    hide Count, GoodPick, WakeOneWriter, WakeAllReaders;
    if s.pcs[m.t].WakeWriter? || s.pcs[m.t].WakeReaders? {
      WakingCountsNobody(s.pcs, m.t, m.woken);
    } else {
      WaitersAfter(s, m.t, Step(s, m).pcs[m.t]);
    }
  }

  lemma WakingCountsNobody(pcs: map<Tid, Pc>, t: Tid, woken: Tid)
    requires t in pcs && (pcs[t].WakeWriter? || pcs[t].WakeReaders?)
    ensures Count(WakeOneWriter(pcs[t := Idle(NoOutcome)], woken), IsWaiting) == Count(pcs, IsWaiting)
    ensures Count(WakeAllReaders(pcs[t := Idle(NoOutcome)]), IsWaiting) == Count(pcs, IsWaiting)
  {
    CountSame(pcs, WakeOneWriter(pcs[t := Idle(NoOutcome)], woken), IsWaiting);
    CountSame(pcs, WakeAllReaders(pcs[t := Idle(NoOutcome)]), IsWaiting);
  }

  /** A read guard's drop first takes the lock out of the thread's set. */
  lemma DropReadStarts(states: seq<State>, moves: seq<Move>, i: nat)
    requires IsRun(Init, Next, states, moves) && i < |moves| && moves[i].DropRead?
    requires moves[i].t in states[i].pcs && states[i].pcs[moves[i].t].Idle?
    ensures var s, s', t := states[i], states[i + 1], moves[i].t;
      t in s'.pcs && s'.pcs[t] == ReadRelease && s'.word == s.word && s'.acquired == s.acquired - {t}
  {
    NextAt(Init, Next, states, moves, i);
    hide GoodPick;
  }

  /** Giving a read guard back leads on to waking a writer iff it was the last one and the low bit is set. */
  lemma DropReadWakesIff(states: seq<State>, moves: seq<Move>, i: nat)
    requires IsRun(Init, Next, states, moves) && i < |moves| && moves[i].DropRead?
    requires moves[i].t in states[i].pcs && states[i].pcs[moves[i].t].ReadRelease?
    ensures var s, s', t := states[i], states[i + 1], moves[i].t;
      && t in s'.pcs && Readers(s') == Readers(s) - 1 && s'.word % 2 == s.word % 2
      && s'.pcs[t] == if Readers(s') == 0 && s.word % 2 == 1 then WakeWriter else Idle(NoOutcome)
  {
    ReachableInv(states, moves, i);
    NextAt(Init, Next, states, moves, i);
    var s, t := states[i], moves[i].t;
    assert Fits(s.pcs[t], s.modes[t], t in s.acquired);
    GuardsAfter(s, t, Free);
    hide GoodPick;
  }

  /** Giving the write guard back bumps the counter, frees the word, and wakes a waiting writer or else all readers. */
  lemma DropWriteWakesIff(states: seq<State>, moves: seq<Move>, i: nat)
    requires IsRun(Init, Next, states, moves) && i < |moves| && moves[i].DropWrite?
    ensures var s, s', t := states[i], states[i + 1], moves[i].t;
      && t in s.pcs && t in s'.pcs
      && (s.pcs[t].Idle? ==> s'.pcs[t] == WriteBump && s'.word == s.word)
      && (s.pcs[t].WriteBump? ==> s'.pcs[t] == WriteStore && s'.word == s.word)
      && (s.pcs[t].WriteStore? ==> s'.word == 0 && s'.pcs[t] == WriteCheck)
      && (s.pcs[t].WriteCheck? ==>
            s'.pcs[t] == if exists u :: u in s.pcs && IsWaiting(s.pcs[u]) then WakeWriter else WakeReaders)
  {
    WaitingWritersIsExact(states, moves, i);
    CountZero(states[i].pcs, IsWaiting);
    NextAt(Init, Next, states, moves, i);
    hide GoodPick;
  }

  predicate WriterSleeps(pc: Pc) { pc.WriteAsleep? }
  predicate ReaderSleeps(pc: Pc) { pc.ReadAsleep? || pc.ReadAsleepMax? }

  /** Where a sleeper goes on: a reader loads the word again or waits on, a writer stops being counted. */
  function Resumed(pc: Pc): Pc {
    if pc.ReadAsleep? then ReadReload
    else if pc.ReadAsleepMax? then ReadWaitMax
    else if pc.WriteAsleep? then WriteLeave(pc.seen) else pc
  }

  /** Waking a writer wakes exactly one, if one sleeps; waking the readers wakes all; nobody else moves. */
  lemma DropsWake(states: seq<State>, moves: seq<Move>, i: nat)
    requires IsRun(Init, Next, states, moves) && i < |moves| && (moves[i].DropRead? || moves[i].DropWrite?)
    ensures var s, s', t := states[i], states[i + 1], moves[i].t;
      && t in s.pcs
      && (s.pcs[t].WakeWriter? ==> OneWoken(s.pcs, s'.pcs, t, Idle(NoOutcome), WriterSleeps, Resumed))
      && (s.pcs[t].WakeReaders? ==> AllWoken(s.pcs, s'.pcs, t, Idle(NoOutcome), ReaderSleeps, Resumed))
  {
    NextAt(Init, Next, states, moves, i);
    var s, s', m := states[i], states[i + 1], moves[i];
    if s.pcs[m.t].WakeWriter? && SomeoneSleeps(s.pcs, WriterSleeps) {
      var u :| u in s.pcs && WriterSleeps(s.pcs[u]);
      assert s.pcs[u].WriteAsleep?;
      assert IsWoken(s.pcs, s'.pcs, m.woken, WriterSleeps, Resumed);
      assert NobodyElse(s.pcs, s'.pcs, m.t, m.woken);
    }
  }

  /** A thread the futex lets go for no reason goes on in the same way. */
  lemma SpuriousWakeResumes(states: seq<State>, moves: seq<Move>, i: nat)
    requires IsRun(Init, Next, states, moves) && i < |moves| && moves[i].SpuriousWake?
    ensures moves[i].t in states[i].pcs
    ensures states[i + 1] == Goto(states[i], moves[i].t, Resumed(states[i].pcs[moves[i].t]))
  {
    NextAt(Init, Next, states, moves, i);
  }

  /** The access in which a write guard's drop increments `writers_number`. */
  ghost predicate Bumps(s: State, m: Move) {
    m.DropWrite? && m.t in s.pcs && s.pcs[m.t].WriteBump?
  }

  lemma WritersNumberCountsDrops(states: seq<State>, moves: seq<Move>, a: nat, b: nat)
    requires IsRun(Init, Next, states, moves) && a <= b < |states|
    ensures MovesBetween(Bumps, states, moves, a, b) >= 0
    ensures states[a].writersNumber == states[b].writersNumber <==>
            MovesBetween(Bumps, states, moves, a, b) % U32_RANGE == 0
  {
    hide Step, Enabled, Bumps;
    forall s, m, s' | Next(s, m, s')
      ensures s'.writersNumber == if Bumps(s, m) then (s.writersNumber + 1) % U32_RANGE else s.writersNumber
    {
      OnlyDropsBump(s, m);
    }
    SameWordLaw(Init, Next, (s: State) => s.writersNumber, Bumps, states, moves, a, b);
  }

  lemma OnlyDropsBump(s: State, m: Move)
    requires Enabled(s, m)
    ensures Step(s, m).writersNumber == if Bumps(s, m) then (s.writersNumber + 1) % U32_RANGE else s.writersNumber
  {
  }

  /** Thread `t` loaded `writers_number` in move `a` and is about to wait for it to change in state `b`. */
  ghost predicate WaitsSince(states: seq<State>, moves: seq<Move>, a: nat, b: nat, t: Tid) {
    && a < b < |states| && |states| == |moves| + 1
    && moves[a] == Write(t) && t in states[a].pcs && states[a].pcs[t].WriteSnap?
    && forall l | a < l <= b :: t in states[l].pcs && states[l].pcs[t].WriteWait?
  }

  lemma {:induction false} SnapshotStays(states: seq<State>, moves: seq<Move>, a: nat, b: nat, t: Tid)
    requires IsRun(Init, Next, states, moves) && WaitsSince(states, moves, a, b, t)
    ensures states[b].pcs[t].wc == states[a].writersNumber
    decreases b
  {
    NextAt(Init, Next, states, moves, b - 1);
    assert Enabled(states[b - 1], moves[b - 1]) && states[b] == Step(states[b - 1], moves[b - 1]);
    if a < b - 1 {
      hide Init, Next, Step, Enabled;
      SnapshotStays(states, moves, a, b - 1, t);
      StepKeepsSnapshot(states[b - 1], moves[b - 1], t);
    }
  }

  lemma StepKeepsSnapshot(s: State, m: Move, t: Tid)
    requires Enabled(s, m) && t in s.pcs && s.pcs[t].WriteWait?
    requires t in Step(s, m).pcs && Step(s, m).pcs[t].WriteWait?
    ensures Step(s, m).pcs[t].wc == s.pcs[t].wc
  {
  }

  function WaitEnd(pc: Pc, sleeps: bool): Pc
    requires pc.WriteWait?
  {
    if sleeps then WriteAsleep(pc.seen) else WriteLeave(pc.seen)
  }

  lemma WaitEnds(states: seq<State>, moves: seq<Move>, b: nat, t: Tid)
    requires IsRun(Init, Next, states, moves) && b < |moves| && moves[b] == Write(t)
    requires t in states[b].pcs && states[b].pcs[t].WriteWait?
    ensures t in states[b + 1].pcs
    ensures states[b + 1].pcs[t] == WaitEnd(states[b].pcs[t], states[b].writersNumber == states[b].pcs[t].wc)
  {
    NextAt(Init, Next, states, moves, b);
  }

  /** A writer falls asleep iff the number of write guards given back since its load is a multiple of 2^32. */
  lemma WriterSleepsIff(states: seq<State>, moves: seq<Move>, a: nat, b: nat, t: Tid)
    requires IsRun(Init, Next, states, moves) && WaitsSince(states, moves, a, b, t)
    requires b < |moves| && moves[b] == Write(t)
    ensures MovesBetween(Bumps, states, moves, a, b) >= 0 && t in states[b + 1].pcs
    ensures var sleeps := MovesBetween(Bumps, states, moves, a, b) % U32_RANGE == 0;
      states[b + 1].pcs[t] == WaitEnd(states[b].pcs[t], sleeps)
  {
    SnapshotStays(states, moves, a, b, t);
    WaitEnds(states, moves, b, t);
    WritersNumberCountsDrops(states, moves, a, b);
    hide IsRun, Init, Next, Bumps, WaitsSince, MovesBetween;
  }
}
