/**
 The writer-friendly reader-writer lock of src/rwlock.rs. One 32-bit word encodes twice the number
 of readers, a low bit set by waiting writers, and the all-ones value for the write lock.
 */
module RwLocks {
  import opened Machine
  import opened Counting
  import opened Runs

  const WRITE_LOCKED: nat := U32_MAX

  /** With fewer threads than this the word never overflows; see `TooManyThreadsBreakIt`. */
  const THREAD_LIMIT: nat := 0x8000_0000

  /** What a call returns; `poisoned` tells the two results with a guard apart. */
  datatype Outcome = NoOutcome | WouldBlock | TooManyReaders | Guard(poisoned: bool)

  /** `seen` is the local variable `state` of the call. */
  datatype Pc =
    | Idle(last: Outcome)      // outside; `last` is what the last call of `read`, ... returned
    | ReadWait(seen: nat)      // read: low bit seen, about to futex-wait on the word
    | ReadAsleep(seen: nat)
    | ReadReload               // read: about to load the word again, still in the inner loop
    | ReadWaitMax              // read: saw the write lock, about to futex-wait for it
    | ReadAsleepMax
    | ReadCas(seen: nat)       // read: about to weakly compare-exchange `seen` with `seen + 2`
    | TryReadCas(seen: nat)    // try_read: likewise, strongly
    | ReadMark                 // got a read guard, about to call `set_acquired`
    | ReadRelease              // read guard drop: id removed, about to subtract 2
    | WriteCas(seen: nat)      // write: `seen <= 1`, about to compare-exchange it with the write lock
    | TryWriteCas(seen: nat)   // try_write: likewise
    | WriteFlag(seen: nat)     // write: about to set the low bit
    | WriteEnter(seen: nat)    // write: about to increment `waiting_writers`
    | WriteSnap(seen: nat)     // write: about to load `writers_number`
    | WriteWait(seen: nat, wc: nat)
    | WriteAsleep(seen: nat)   // write: blocked in the futex on `writers_number`
    | WriteLeave(seen: nat)    // write: about to decrement `waiting_writers`
    | WriteMark                // got the write guard, about to call `set_acquired`
    | WriteBump                // write guard drop: id removed, about to increment `writers_number`
    | WriteStore               // write guard drop: about to store 0
    | WriteCheck               // write guard drop: about to load `waiting_writers`
    | WakeWriter               // about to wake_one on `writers_number`
    | WakeReaders              // about to wake_all on the word

  /** What guard a thread has: from the winning compare-exchange to the atomic that gives it back. */
  datatype Mode = Free | Reader | Writer

  datatype State = State(
    word: nat,
    writersNumber: nat,
    waitingWriters: nat,
    poisoned: bool,
    acquired: set<Tid>,        // the threads whose thread-local set contains this lock's id
    modes: map<Tid, Mode>,
    pcs: map<Tid, Pc>)

  datatype Move =
    | Read(t: Tid, spurious: bool)
    | TryRead(t: Tid)
    | Write(t: Tid)
    | TryWrite(t: Tid)
    | DropRead(t: Tid, woken: Tid)
    | DropWrite(t: Tid, panicking: bool, woken: Tid)
    | ClearPoison(t: Tid)
    | SpuriousWake(t: Tid)

  ghost predicate Start(s: State) {
    && s.word == s.writersNumber == s.waitingWriters == 0 && !s.poisoned && s.acquired == {}
    && s.modes.Keys == s.pcs.Keys
    && forall t | t in s.pcs :: s.pcs[t] == Idle(NoOutcome) && s.modes[t] == Free
  }

  ghost predicate Init(s: State) {
    Start(s) && |s.pcs| < THREAD_LIMIT
  }

  predicate InRead(pc: Pc) {
    pc.ReadWait? || pc.ReadReload? || pc.ReadWaitMax? || pc.ReadCas? || pc.ReadMark?
  }

  predicate InWrite(pc: Pc) {
    pc.WriteCas? || pc.WriteFlag? || pc.WriteEnter? || pc.WriteSnap? || pc.WriteWait? || pc.WriteLeave? || pc.WriteMark?
  }

  predicate InDropWrite(pc: Pc) {
    pc.WriteBump? || pc.WriteStore? || pc.WriteCheck? || pc.WakeWriter? || pc.WakeReaders?
  }

  /** `wake_one` on `writers_number` picks a sleeping writer, if there is one. */
  ghost predicate GoodPick(s: State, woken: Tid) {
    (exists u :: u in s.pcs && s.pcs[u].WriteAsleep?) ==> woken in s.pcs && s.pcs[woken].WriteAsleep?
  }

  ghost predicate Enabled(s: State, m: Move) {
    && m.t in s.pcs && s.modes.Keys == s.pcs.Keys
    && match m
       case Read(t, _) => s.pcs[t].Idle? || InRead(s.pcs[t])
       case TryRead(t) => s.pcs[t].Idle? || s.pcs[t].TryReadCas? || s.pcs[t].ReadMark?
       case Write(t) => s.pcs[t].Idle? || InWrite(s.pcs[t])
       case TryWrite(t) => s.pcs[t].Idle? || s.pcs[t].TryWriteCas? || s.pcs[t].WriteMark?
       case DropRead(t, woken) =>
         && ((s.pcs[t].Idle? && s.modes[t].Reader?) || s.pcs[t].ReadRelease? || s.pcs[t].WakeWriter?)
         && GoodPick(s, woken)
       case DropWrite(t, _, woken) =>
         && ((s.pcs[t].Idle? && s.modes[t].Writer?) || InDropWrite(s.pcs[t]))
         && GoodPick(s, woken)
       case ClearPoison(t) => s.pcs[t].Idle?
       case SpuriousWake(t) => s.pcs[t].ReadAsleep? || s.pcs[t].ReadAsleepMax? || s.pcs[t].WriteAsleep?
  }

  /** Where `read` goes with `seen` at the head of its outer loop. */
  function ReadDispatch(seen: nat): Pc {
    if seen == WRITE_LOCKED then ReadWaitMax
    else if seen == WRITE_LOCKED - 1 then Idle(TooManyReaders)
    else ReadInner(seen)
  }

  /** Where `read` goes at the head of its inner loop. */
  function ReadInner(seen: nat): Pc {
    if seen % 2 == 1 then ReadWait(seen) else ReadCas(seen)
  }

  /** Where `try_read` goes after its load. */
  function TryReadDispatch(seen: nat): Pc {
    if seen == WRITE_LOCKED - 1 then Idle(TooManyReaders)
    else if seen % 2 == 1 then Idle(WouldBlock)
    else TryReadCas(seen)
  }

  /** Where `write` goes with `seen` at the head of its loop. */
  function WriteDispatch(seen: nat): Pc {
    if seen <= 1 then WriteCas(seen)
    else if seen % 2 == 0 then WriteFlag(seen)
    else WriteEnter(seen)
  }

  /** What waking a thread does to it. */
  function Awake(pc: Pc): Pc {
    match pc
    case ReadAsleep(_) => ReadReload
    case ReadAsleepMax => ReadWaitMax
    case WriteAsleep(seen) => WriteLeave(seen)
    case _ => pc
  }

  function WakeOneWriter(pcs: map<Tid, Pc>, woken: Tid): map<Tid, Pc> {
    if woken in pcs && pcs[woken].WriteAsleep? then pcs[woken := Awake(pcs[woken])] else pcs
  }

  function WakeAllReaders(pcs: map<Tid, Pc>): map<Tid, Pc> {
    map t | t in pcs :: if pcs[t].WriteAsleep? then pcs[t] else Awake(pcs[t])
  }

  ghost function Goto(s: State, t: Tid, pc: Pc): State {
    s.(pcs := s.pcs[t := pc])
  }

  /** A compare-exchange that hands out a guard. */
  ghost function Take(s: State, t: Tid, word: nat, mode: Mode, pc: Pc): State {
    s.(word := word, modes := s.modes[t := mode], pcs := s.pcs[t := pc])
  }

  /** `set_acquired`, after which the call returns the guard. */
  ghost function Mark(s: State, t: Tid): State {
    s.(acquired := s.acquired + {t}, pcs := s.pcs[t := Idle(Guard(s.poisoned))])
  }

  ghost function StepRead(s: State, t: Tid, spurious: bool): (s': State)
    requires Enabled(s, Read(t, spurious))
    ensures Frame(s, t, s')
  {
    match s.pcs[t]
    case Idle(_) => Goto(s, t, if t in s.acquired then Idle(WouldBlock) else ReadDispatch(s.word))
    case ReadWait(seen) => Goto(s, t, if s.word == seen then ReadAsleep(seen) else ReadReload)
    case ReadReload => Goto(s, t, ReadInner(s.word))
    case ReadWaitMax => Goto(s, t, if s.word == WRITE_LOCKED then ReadAsleepMax else ReadWaitMax)
    case ReadCas(seen) =>
      if s.word == seen && !spurious then Take(s, t, AddU32(seen, 2), Reader, ReadMark)
      else Goto(s, t, ReadDispatch(s.word))
    case ReadMark => Mark(s, t)
  }

  ghost function StepTryRead(s: State, t: Tid): (s': State)
    requires Enabled(s, TryRead(t))
    ensures Frame(s, t, s')
  {
    match s.pcs[t]
    case Idle(_) => Goto(s, t, if t in s.acquired then Idle(WouldBlock) else TryReadDispatch(s.word))
    case TryReadCas(seen) =>
      if s.word == seen then Take(s, t, AddU32(seen, 2), Reader, ReadMark) else Goto(s, t, Idle(WouldBlock))
    case ReadMark => Mark(s, t)
  }

  ghost function StepWrite(s: State, t: Tid): (s': State)
    requires Enabled(s, Write(t))
    ensures Frame(s, t, s')
  {
    match s.pcs[t]
    case Idle(_) => Goto(s, t, if t in s.acquired then Idle(WouldBlock) else WriteDispatch(s.word))
    case WriteCas(seen) =>
      if s.word == seen then Take(s, t, WRITE_LOCKED, Writer, WriteMark) else Goto(s, t, WriteDispatch(s.word))
    case WriteFlag(seen) =>
      if s.word == seen then Goto(s.(word := AddU32(seen, 1)), t, WriteEnter(seen))
      else Goto(s, t, WriteDispatch(s.word))
    case WriteEnter(seen) => Goto(s.(waitingWriters := AddU32(s.waitingWriters, 1)), t, WriteSnap(seen))
    case WriteSnap(seen) => Goto(s, t, WriteWait(seen, s.writersNumber))
    case WriteWait(seen, wc) => Goto(s, t, if s.writersNumber == wc then WriteAsleep(seen) else WriteLeave(seen))
    case WriteLeave(seen) => Goto(s.(waitingWriters := SubU32(s.waitingWriters, 1)), t, WriteDispatch(seen))
    case WriteMark => Mark(s, t)
  }

  ghost function StepTryWrite(s: State, t: Tid): (s': State)
    requires Enabled(s, TryWrite(t))
    ensures Frame(s, t, s')
  {
    match s.pcs[t]
    case Idle(_) => Goto(s, t, if t in s.acquired || s.word > 1 then Idle(WouldBlock) else TryWriteCas(s.word))
    case TryWriteCas(seen) =>
      if s.word == seen then Take(s, t, WRITE_LOCKED, Writer, WriteMark) else Goto(s, t, Idle(WouldBlock))
    case WriteMark => Mark(s, t)
  }

  ghost function StepDropRead(s: State, t: Tid, woken: Tid): State
    requires Enabled(s, DropRead(t, woken))
  {
    match s.pcs[t]
    case Idle(_) => Goto(s.(acquired := s.acquired - {t}), t, ReadRelease)
    case ReadRelease => Take(s, t, SubU32(s.word, 2), Free, if s.word == 3 then WakeWriter else Idle(NoOutcome))
    case WakeWriter => s.(pcs := WakeOneWriter(s.pcs[t := Idle(NoOutcome)], woken))
  }

  ghost function StepDropWrite(s: State, t: Tid, panicking: bool, woken: Tid): State
    requires Enabled(s, DropWrite(t, panicking, woken))
  {
    match s.pcs[t]
    case Idle(_) => Goto(s.(poisoned := s.poisoned || panicking, acquired := s.acquired - {t}), t, WriteBump)
    case WriteBump => Goto(s.(writersNumber := AddU32(s.writersNumber, 1)), t, WriteStore)
    case WriteStore => Take(s, t, 0, Free, WriteCheck)
    case WriteCheck => Goto(s, t, if s.waitingWriters != 0 then WakeWriter else WakeReaders)
    case WakeWriter => s.(pcs := WakeOneWriter(s.pcs[t := Idle(NoOutcome)], woken))
    case WakeReaders => s.(pcs := WakeAllReaders(s.pcs[t := Idle(NoOutcome)]))
  }

  /** Of all threads, only `t` goes anywhere or gets or loses a guard. */
  ghost predicate Frame(s: State, t: Tid, s': State) {
    && t in s.pcs && t in s.modes && t in s'.pcs && t in s'.modes
    && s'.pcs == s.pcs[t := s'.pcs[t]] && s'.modes == s.modes[t := s'.modes[t]] && s'.poisoned == s.poisoned
  }

  ghost function Step(s: State, m: Move): State
    requires Enabled(s, m)
  {
    match m
    case Read(t, spurious) => StepRead(s, t, spurious)
    case TryRead(t) => StepTryRead(s, t)
    case Write(t) => StepWrite(s, t)
    case TryWrite(t) => StepTryWrite(s, t)
    case DropRead(t, woken) => StepDropRead(s, t, woken)
    case DropWrite(t, panicking, woken) => StepDropWrite(s, t, panicking, woken)
    case ClearPoison(_) => s.(poisoned := false)
    case SpuriousWake(t) => Goto(s, t, Awake(s.pcs[t]))
  }

  ghost predicate Next(s: State, m: Move, s': State) {
    Enabled(s, m) && s' == Step(s, m)
  }

  predicate IsReader(mode: Mode) { mode.Reader? }
  predicate IsWriter(mode: Mode) { mode.Writer? }

  ghost function Readers(s: State): nat { Count(s.modes, IsReader) }
  ghost function Writers(s: State): nat { Count(s.modes, IsWriter) }

  /** The word tells exactly which guards are out. */
  ghost predicate Encoding(s: State) {
    if s.word == WRITE_LOCKED then Writers(s) == 1 && Readers(s) == 0
    else Writers(s) == 0 && s.word / 2 == Readers(s)
  }

  /** Which guard a thread must have at `pc`, if that is determined. */
  predicate Fits(pc: Pc, mode: Mode, marked: bool) {
    match pc
    case Idle(_) => marked <==> !mode.Free?
    case ReadMark => mode.Reader? && !marked
    case ReadRelease => mode.Reader? && !marked
    case WriteMark => mode.Writer? && !marked
    case WriteBump => mode.Writer? && !marked
    case WriteStore => mode.Writer? && !marked
    case _ => mode.Free? && !marked
  }

  /** Local copies of the word were tested before they are used. */
  predicate Tested(pc: Pc) {
    && ((pc.ReadCas? || pc.TryReadCas?) ==> pc.seen % 2 == 0)
    && ((pc.WriteCas? || pc.TryWriteCas?) ==> pc.seen <= 1)
    && (pc.WriteFlag? ==> pc.seen % 2 == 0 && pc.seen >= 2)
  }

  /** One guard per thread at most, because the acquired set turns everybody else away. */
  ghost predicate OneGuardEach(s: State) {
    && s.modes.Keys == s.pcs.Keys && s.acquired <= s.pcs.Keys
    && forall t | t in s.pcs :: Fits(s.pcs[t], s.modes[t], t in s.acquired) && Tested(s.pcs[t])
  }

  ghost predicate Inv(s: State) {
    && |s.pcs| < THREAD_LIMIT
    && s.word <= U32_MAX
    && OneGuardEach(s)
    && Encoding(s)
  }

  /** The counts after thread `t` changed its guard. */
  lemma GuardsAfter(s: State, t: Tid, mode: Mode)
    requires s.modes.Keys == s.pcs.Keys && t in s.pcs
    ensures Count(s.modes[t := mode], IsReader) == Readers(s) - Bit(IsReader(s.modes[t])) + Bit(IsReader(mode))
    ensures Count(s.modes[t := mode], IsWriter) == Writers(s) - Bit(IsWriter(s.modes[t])) + Bit(IsWriter(mode))
    ensures IsReader(s.modes[t]) ==> Readers(s) >= 1
    ensures IsWriter(s.modes[t]) ==> Writers(s) >= 1
  {
    CountUpdate(s.modes, t, mode, IsReader);
    CountUpdate(s.modes, t, mode, IsWriter);
    if IsReader(s.modes[t]) { CountAtLeast(s.modes, t, IsReader); }
    if IsWriter(s.modes[t]) { CountAtLeast(s.modes, t, IsWriter); }
  }

  /** A thread without a guard leaves room for itself among the readers. */
  lemma RoomForOne(s: State, t: Tid)
    requires s.modes.Keys == s.pcs.Keys && t in s.pcs && s.modes[t].Free?
    ensures Readers(s) < |s.pcs|
  {
    SubsetSize(Members(s.modes, IsReader), s.pcs.Keys - {t});
  }

  lemma SameThreads(pcs: map<Tid, Pc>, pcs': map<Tid, Pc>)
    requires pcs.Keys == pcs'.Keys
    ensures |pcs| == |pcs'|
  {
    assert |pcs.Keys| == |pcs'.Keys|;
  }

  /** Moving `t` without touching word, guards or the acquired set. */
  lemma GotoKeepsInv(s: State, t: Tid, pc: Pc)
    requires Inv(s) && t in s.pcs
    requires Fits(pc, s.modes[t], t in s.acquired) && Tested(pc)
    ensures Inv(Goto(s, t, pc))
  {
    SameThreads(s.pcs, s.pcs[t := pc]);
  }

  /** Handing out or taking back a guard, when the new word says so. */
  lemma TakeKeepsInv(s: State, t: Tid, word: nat, mode: Mode, pc: Pc)
    requires Inv(s) && t in s.pcs && Fits(pc, mode, t in s.acquired) && Tested(pc) && word <= U32_MAX
    requires match mode
             case Reader => s.modes[t].Free? && s.word <= U32_MAX - 3 && word == s.word + 2
             case Writer => s.modes[t].Free? && s.word <= 1 && word == WRITE_LOCKED
             case Free => if s.modes[t].Writer? then word == 0 else s.modes[t].Reader? && word == s.word - 2
    ensures Inv(Take(s, t, word, mode, pc))
  {
    SameThreads(s.pcs, s.pcs[t := pc]);
    GuardsAfter(s, t, mode);
  }

  lemma MarkKeepsInv(s: State, t: Tid)
    requires Inv(s) && t in s.pcs && (s.pcs[t].ReadMark? || s.pcs[t].WriteMark?)
    ensures Inv(Mark(s, t))
  {
    SameThreads(s.pcs, Mark(s, t).pcs);
  }

  /** A thread without a guard never meets a word on which `+ 1` or `+ 2` would collide or wrap. */
  lemma WordHasRoom(s: State, t: Tid)
    requires Inv(s) && t in s.pcs && s.modes[t].Free?
    ensures s.word != WRITE_LOCKED ==> s.word <= U32_MAX - 2
    ensures s.word != WRITE_LOCKED && s.word % 2 == 0 ==> s.word <= U32_MAX - 3
  {
    RoomForOne(s, t);
  }

  lemma ReaderHasRoom(s: State, t: Tid)
    requires Inv(s) && t in s.pcs && (s.pcs[t] == ReadCas(s.word) || s.pcs[t] == TryReadCas(s.word))
    ensures t in s.modes && s.modes[t].Free? && t !in s.acquired && s.word <= U32_MAX - 3
  {
    assert Tested(s.pcs[t]);
    WordHasRoom(s, t);
  }

  lemma ReadTakesKeepsInv(s: State, t: Tid)
    requires Inv(s) && Enabled(s, Read(t, false)) && s.pcs[t] == ReadCas(s.word)
    ensures Inv(StepRead(s, t, false))
  {
    hide Inv;
    ReaderHasRoom(s, t);
    TakeKeepsInv(s, t, s.word + 2, Reader, ReadMark);
  }

  lemma ReadKeepsInv(s: State, t: Tid, spurious: bool)
    requires Inv(s) && Enabled(s, Read(t, spurious))
    ensures Inv(StepRead(s, t, spurious))
  {
    hide Encoding;
    var s' := StepRead(s, t, spurious);
    if s.pcs[t].ReadMark? {
      MarkKeepsInv(s, t);
    } else if s.pcs[t] == ReadCas(s.word) && !spurious {
      ReadTakesKeepsInv(s, t);
    } else {
      if s.modes[t].Free? { WordHasRoom(s, t); }
      GotoKeepsInv(s, t, s'.pcs[t]);
      assert s' == Goto(s, t, s'.pcs[t]);
    }
  }

  lemma TryReadTakesKeepsInv(s: State, t: Tid)
    requires Inv(s) && Enabled(s, TryRead(t)) && s.pcs[t] == TryReadCas(s.word)
    ensures Inv(StepTryRead(s, t))
  {
    hide Inv;
    ReaderHasRoom(s, t);
    TakeKeepsInv(s, t, s.word + 2, Reader, ReadMark);
  }

  lemma TryReadKeepsInv(s: State, t: Tid)
    requires Inv(s) && Enabled(s, TryRead(t))
    ensures Inv(StepTryRead(s, t))
  {
    hide Encoding;
    if s.pcs[t].ReadMark? {
      MarkKeepsInv(s, t);
    } else if s.pcs[t] == TryReadCas(s.word) {
      TryReadTakesKeepsInv(s, t);
    } else {
      GotoKeepsInv(s, t, StepTryRead(s, t).pcs[t]);
    }
  }

  /** Setting the low bit changes neither the number of readers nor the absence of writers. */
  lemma FlagFits(s: State)
    requires Inv(s) && s.word % 2 == 0 && s.word <= U32_MAX - 3
    ensures Inv(s.(word := s.word + 1))
  {
    assert (s.word + 1) / 2 == s.word / 2;
    hide OneGuardEach;
  }

  lemma FlagKeepsInv(s: State, t: Tid)
    requires Inv(s) && Enabled(s, Write(t)) && s.pcs[t].WriteFlag?
    ensures Inv(StepWrite(s, t))
  {
    hide Encoding;
    var seen := s.pcs[t].seen;
    assert s.modes[t].Free? && Tested(s.pcs[t]);
    if s.word == seen {
      WordHasRoom(s, t);
      GotoKeepsInv(s, t, WriteEnter(seen));
      FlagFits(Goto(s, t, WriteEnter(seen)));
    } else {
      GotoKeepsInv(s, t, WriteDispatch(s.word));
    }
  }

  lemma CountersDoNotMatter(s: State, writersNumber: nat, waitingWriters: nat)
    requires Inv(s)
    ensures Inv(s.(writersNumber := writersNumber, waitingWriters := waitingWriters))
  {
  }

  lemma PoisonDoesNotMatter(s: State, poisoned: bool)
    requires Inv(s)
    ensures Inv(s.(poisoned := poisoned))
  {
  }

  lemma WriteTakesKeepsInv(s: State, t: Tid)
    requires Inv(s) && Enabled(s, Write(t)) && s.pcs[t] == WriteCas(s.word)
    ensures Inv(StepWrite(s, t))
  {
    hide Encoding;
    TakeKeepsInv(s, t, WRITE_LOCKED, Writer, WriteMark);
  }

  /** `write` goes round its loop. */
  lemma WriteLoopKeepsInv(s: State, t: Tid)
    requires Inv(s) && Enabled(s, Write(t)) && !s.pcs[t].WriteMark? && !s.pcs[t].WriteFlag?
    requires s.pcs[t] != WriteCas(s.word)
    ensures Inv(StepWrite(s, t))
  {
    hide Encoding;
    var s' := StepWrite(s, t);
    GotoKeepsInv(s, t, s'.pcs[t]);
    assert s' == Goto(s, t, s'.pcs[t]).(writersNumber := s'.writersNumber, waitingWriters := s'.waitingWriters);
    hide *;
    CountersDoNotMatter(Goto(s, t, s'.pcs[t]), s'.writersNumber, s'.waitingWriters);
  }

  lemma WriteKeepsInv(s: State, t: Tid)
    requires Inv(s) && Enabled(s, Write(t))
    ensures Inv(StepWrite(s, t))
  {
    hide Inv;
    if s.pcs[t].WriteMark? {
      MarkKeepsInv(s, t);
    } else if s.pcs[t].WriteFlag? {
      FlagKeepsInv(s, t);
    } else if s.pcs[t] == WriteCas(s.word) {
      WriteTakesKeepsInv(s, t);
    } else {
      WriteLoopKeepsInv(s, t);
    }
  }

  lemma TryWriteKeepsInv(s: State, t: Tid)
    requires Inv(s) && Enabled(s, TryWrite(t))
    ensures Inv(StepTryWrite(s, t))
  {
    hide Encoding;
    var s' := StepTryWrite(s, t);
    var pc := s'.pcs[t];
    if s.pcs[t].WriteMark? {
      MarkKeepsInv(s, t);
    } else if pc.WriteMark? {
      TakeKeepsInv(s, t, WRITE_LOCKED, Writer, WriteMark);
      assert s' == Take(s, t, WRITE_LOCKED, Writer, WriteMark);
    } else {
      GotoKeepsInv(s, t, pc);
      assert s' == Goto(s, t, pc);
    }
  }

  /** Waking rewrites only the sleepers among the unguarded threads. */
  ghost predicate OnlyWakes(pcs: map<Tid, Pc>, pcs': map<Tid, Pc>) {
    && pcs'.Keys == pcs.Keys
    && forall t | t in pcs :: pcs'[t] == pcs[t] || pcs'[t] == Awake(pcs[t])
  }

  lemma WakingKeepsInv(s: State, pcs': map<Tid, Pc>)
    requires Inv(s) && OnlyWakes(s.pcs, pcs')
    ensures Inv(s.(pcs := pcs'))
  {
    SameThreads(s.pcs, pcs');
  }

  /** A guard's drop ends by waking. */
  lemma WakingUpKeepsInv(s: State, t: Tid, pcs': map<Tid, Pc>)
    requires Inv(s) && t in s.pcs && (s.pcs[t].WakeWriter? || s.pcs[t].WakeReaders?)
    requires OnlyWakes(s.pcs[t := Idle(NoOutcome)], pcs')
    ensures Inv(s.(pcs := pcs'))
  {
    hide Encoding;
    GotoKeepsInv(s, t, Idle(NoOutcome));
    WakingKeepsInv(Goto(s, t, Idle(NoOutcome)), pcs');
  }

  lemma UnmarkKeepsInv(s: State, t: Tid, pc: Pc)
    requires Inv(s) && t in s.pcs && s.pcs[t].Idle?
    requires Fits(pc, s.modes[t], false) && Tested(pc)
    ensures Inv(Goto(s.(acquired := s.acquired - {t}), t, pc))
  {
    SameThreads(s.pcs, s.pcs[t := pc]);
  }

  /** A reader that gives its guard back finds a word that counts it. */
  lemma ReaderIsCounted(s: State, t: Tid)
    requires Inv(s) && t in s.pcs && s.pcs[t].ReadRelease?
    ensures s.modes[t].Reader? && t !in s.acquired && s.word != WRITE_LOCKED && 2 <= s.word <= U32_MAX
  {
    GuardsAfter(s, t, Free);
  }

  /** Giving a read guard back subtracts exactly one reader. */
  lemma ReleaseKeepsInv(s: State, t: Tid, woken: Tid)
    requires Inv(s) && Enabled(s, DropRead(t, woken)) && s.pcs[t].ReadRelease?
    ensures Inv(StepDropRead(s, t, woken))
    ensures StepDropRead(s, t, woken).word == s.word - 2
  {
    ReaderIsCounted(s, t);
    hide Inv, GoodPick;
    TakeKeepsInv(s, t, s.word - 2, Free, if s.word == 3 then WakeWriter else Idle(NoOutcome));
  }

  lemma DropReadKeepsInv(s: State, t: Tid, woken: Tid)
    requires Inv(s) && Enabled(s, DropRead(t, woken))
    ensures Inv(StepDropRead(s, t, woken))
  {
    match s.pcs[t]
    case Idle(_) => UnmarkKeepsInv(s, t, ReadRelease);
    case ReadRelease => ReleaseKeepsInv(s, t, woken);
    case WakeWriter => WakingUpKeepsInv(s, t, WakeOneWriter(s.pcs[t := Idle(NoOutcome)], woken));
  }

  lemma DropWriteKeepsInv(s: State, t: Tid, panicking: bool, woken: Tid)
    requires Inv(s) && Enabled(s, DropWrite(t, panicking, woken))
    ensures Inv(StepDropWrite(s, t, panicking, woken))
  {
    hide Encoding, GoodPick;
    var s' := StepDropWrite(s, t, panicking, woken);
    match s.pcs[t]
    case Idle(_) =>
      UnmarkKeepsInv(s, t, WriteBump);
      PoisonDoesNotMatter(Goto(s.(acquired := s.acquired - {t}), t, WriteBump), s'.poisoned);
    case WriteBump =>
      GotoKeepsInv(s, t, WriteStore);
      CountersDoNotMatter(Goto(s, t, WriteStore), s'.writersNumber, s'.waitingWriters);
    case WriteStore => TakeKeepsInv(s, t, 0, Free, WriteCheck);
    case WriteCheck => GotoKeepsInv(s, t, s'.pcs[t]);
    case WakeWriter => WakingUpKeepsInv(s, t, WakeOneWriter(s.pcs[t := Idle(NoOutcome)], woken));
    case WakeReaders => WakingUpKeepsInv(s, t, WakeAllReaders(s.pcs[t := Idle(NoOutcome)]));
  }

  lemma StepKeepsInv(s: State, m: Move)
    requires Inv(s) && Enabled(s, m)
    ensures Inv(Step(s, m))
  {
    match m
    case Read(t, spurious) => ReadKeepsInv(s, t, spurious);
    case TryRead(t) => TryReadKeepsInv(s, t);
    case Write(t) => WriteKeepsInv(s, t);
    case TryWrite(t) => TryWriteKeepsInv(s, t);
    case DropRead(t, woken) => DropReadKeepsInv(s, t, woken);
    case DropWrite(t, panicking, woken) => DropWriteKeepsInv(s, t, panicking, woken);
    case ClearPoison(_) => PoisonDoesNotMatter(s, false);
    case SpuriousWake(t) => GotoKeepsInv(s, t, Awake(s.pcs[t]));
  }

  lemma InitEstablishesInv(s: State)
    requires Init(s)
    ensures Inv(s)
  {
    CountZero(s.modes, IsReader);
    CountZero(s.modes, IsWriter);
  }

  lemma InvIsInductive()
    ensures forall s | Init(s) :: Inv(s)
    ensures forall s, m, s' | Inv(s) && Next(s, m, s') :: Inv(s')
  {
    forall s | Init(s) ensures Inv(s) { InitEstablishesInv(s); }
    forall s, m, s' | Inv(s) && Next(s, m, s') ensures Inv(s') { StepKeepsInv(s, m); }
  }

  lemma ReachableInv(states: seq<State>, moves: seq<Move>, i: nat)
    requires IsRun(Init, Next, states, moves) && i < |states|
    ensures Inv(states[i])
  {
    InvIsInductive();
    Invariance(Init, Next, Inv, states, moves, i);
  }

  /** The word decodes exactly: write-locked iff one writer and no reader, else half of it counts the readers. */
  lemma WordCountsGuards(states: seq<State>, moves: seq<Move>, i: nat)
    requires IsRun(Init, Next, states, moves) && i < |states|
    ensures var s := states[i];
      && (s.word == WRITE_LOCKED <==> Writers(s) == 1 && Readers(s) == 0)
      && (s.word != WRITE_LOCKED <==> Writers(s) == 0)
      && (s.word != WRITE_LOCKED ==> s.word / 2 == Readers(s))
  {
    ReachableInv(states, moves, i);
  }

  /** A write guard excludes every other guard. */
  lemma WriterExcludesAll(states: seq<State>, moves: seq<Move>, i: nat, writer: Tid, other: Tid)
    requires IsRun(Init, Next, states, moves) && i < |states| && writer != other
    requires writer in states[i].modes && other in states[i].modes
    requires states[i].modes[writer].Writer?
    ensures states[i].modes[other].Free?
  {
    ReachableInv(states, moves, i);
    CountAtLeast(states[i].modes, writer, IsWriter);
    CountZero(states[i].modes, IsReader);
  }

  /** Holding any guard makes all four calls refuse at once; `read` and `write` refuse nobody else. */
  lemma RefusedIffHeld(states: seq<State>, moves: seq<Move>, i: nat, t: Tid, spurious: bool)
    requires IsRun(Init, Next, states, moves) && i < |states|
    requires t in states[i].pcs && states[i].pcs[t].Idle?
    ensures var s := states[i];
      && t in s.modes
      && Enabled(s, Read(t, spurious)) && Enabled(s, Write(t)) && Enabled(s, TryRead(t)) && Enabled(s, TryWrite(t))
      && (StepRead(s, t, spurious) == Goto(s, t, Idle(WouldBlock)) <==> !s.modes[t].Free?)
      && (StepWrite(s, t) == Goto(s, t, Idle(WouldBlock)) <==> !s.modes[t].Free?)
      && (!s.modes[t].Free? ==> StepTryRead(s, t) == StepTryWrite(s, t) == Goto(s, t, Idle(WouldBlock)))
  {
    hide Encoding;
    ReachableInv(states, moves, i);
    var s := states[i];
    assert Fits(s.pcs[t], s.modes[t], t in s.acquired);
    if s.modes[t].Free? {
      WordHasRoom(s, t);
      assert StepRead(s, t, spurious).pcs[t] == ReadDispatch(s.word) != Idle(WouldBlock);
      assert StepWrite(s, t).pcs[t] == WriteDispatch(s.word) != Idle(WouldBlock);
    }
  }

  /**
   No addition ever wraps or lands on the write-lock value: a reader adds exactly 2, a waiting
   writer exactly 1, and the result stays below it. Hence TooManyReaders is never returned either.
   */
  lemma AdditionsAreExact(states: seq<State>, moves: seq<Move>, i: nat, t: Tid)
    requires IsRun(Init, Next, states, moves) && i < |moves| && t in states[i].pcs
    requires t in states[i].modes && states[i].modes[t].Free?
    ensures states[i].word != WRITE_LOCKED - 1
    ensures states[i].pcs[t].WriteFlag? && moves[i] == Write(t) && states[i].word == states[i].pcs[t].seen ==>
              states[i + 1].word == states[i].word + 1 < WRITE_LOCKED
    ensures t in states[i + 1].modes && states[i + 1].modes[t].Reader? ==>
              states[i + 1].word == states[i].word + 2 < WRITE_LOCKED
  {
    ReachableInv(states, moves, i);
    WordHasRoom(states[i], t);
    assert Next(states[i], moves[i], states[i + 1]);
    if t in states[i + 1].modes && states[i + 1].modes[t].Reader? {
      OnlyReadersAddTwo(states[i], moves[i], t);
    }
    if states[i].pcs[t].WriteFlag? && moves[i] == Write(t) && states[i].word == states[i].pcs[t].seen {
      FlagAddsOne(states[i], t);
    }
    hide Inv, Enabled, Step;
  }

  lemma FlagAddsOne(s: State, t: Tid)
    requires Inv(s) && Enabled(s, Write(t)) && s.pcs[t].WriteFlag? && s.word == s.pcs[t].seen
    ensures Step(s, Write(t)).word == s.word + 1 < WRITE_LOCKED
  {
    assert Fits(s.pcs[t], s.modes[t], t in s.acquired) && Tested(s.pcs[t]);
    WordHasRoom(s, t);
  }

  lemma OnlyReadersAddTwo(s: State, m: Move, t: Tid)
    requires Inv(s) && Enabled(s, m) && t in s.pcs && s.modes[t].Free?
    requires t in Step(s, m).modes && Step(s, m).modes[t].Reader?
    ensures s.word % 2 == 0 && s.word != WRITE_LOCKED && Step(s, m).word == AddU32(s.word, 2)
  {
    assert Tested(s.pcs[m.t]);
    match m
    case Read(_, spurious) => assert t == m.t && s.pcs[t].ReadCas?;
    case TryRead(_) => assert t == m.t && s.pcs[t].TryReadCas?;
    case Write(_) =>
    case TryWrite(_) =>
    case DropRead(_, _) =>
    case DropWrite(_, _, _) =>
    case ClearPoison(_) =>
    case SpuriousWake(_) =>
  }

  /** With the low bit set, a move that does not take the write lock keeps the bit and lets no reader in. */
  lemma FlagStays(s: State, m: Move)
    requires Inv(s) && Enabled(s, m) && s.word % 2 == 1 && s.word != WRITE_LOCKED
    ensures Step(s, m).word == WRITE_LOCKED || Step(s, m).word == s.word
         || (s.word >= 3 && Step(s, m).word == s.word - 2)
  {
    assert Fits(s.pcs[m.t], s.modes[m.t], m.t in s.acquired) && Tested(s.pcs[m.t]);
    match m
    case Read(t, spurious) => assert StepRead(s, t, spurious).word == s.word;
    case TryRead(t) => assert StepTryRead(s, t).word == s.word;
    case Write(t) => assert StepWrite(s, t).word == s.word || StepWrite(s, t).word == WRITE_LOCKED;
    case TryWrite(t) => assert StepTryWrite(s, t).word == s.word || StepTryWrite(s, t).word == WRITE_LOCKED;
    case DropRead(t, woken) =>
      if s.pcs[t].ReadRelease? {
        GuardsAfter(s, t, Free);
        assert StepDropRead(s, t, woken).word == s.word - 2;
      }
    case DropWrite(t, panicking, woken) =>
      GuardsAfter(s, t, Free);
      assert StepDropWrite(s, t, panicking, woken).word == s.word;
    case ClearPoison(_) =>
    case SpuriousWake(_) =>
  }

  lemma {:induction false} FlaggedWordNeverGrows(states: seq<State>, moves: seq<Move>, i: nat, j: nat)
    requires IsRun(Init, Next, states, moves) && i <= j < |states|
    requires states[i].word % 2 == 1
    requires forall l | i <= l <= j :: states[l].word != WRITE_LOCKED
    ensures states[j].word % 2 == 1 && states[j].word <= states[i].word
    decreases j
  {
    hide Init, Inv, Step, Enabled;
    if i < j {
      FlaggedWordNeverGrows(states, moves, i, j - 1);
      ReachableInv(states, moves, j - 1);
      assert Next(states[j - 1], moves[j - 1], states[j - 1 + 1]);
      FlagStays(states[j - 1], moves[j - 1]);
    }
  }

  /**
   Writer preference over whole runs: from the moment a writer has set the low bit, the bit stays
   and the number of readers never grows, until the word becomes the write lock.
   */
  lemma WritersGoFirst(states: seq<State>, moves: seq<Move>, i: nat, j: nat)
    requires IsRun(Init, Next, states, moves) && i <= j < |states|
    requires states[i].word % 2 == 1
    requires forall l | i <= l <= j :: states[l].word != WRITE_LOCKED
    ensures states[j].word % 2 == 1
    ensures Readers(states[j]) <= Readers(states[i])
  {
    FlaggedWordNeverGrows(states, moves, i, j);
    WordCountsGuards(states, moves, i);
    WordCountsGuards(states, moves, j);
  }

  /** `read` has copied the write-lock value and is in the branch that never loads the word again. */
  predicate StuckReading(pc: Pc) {
    pc.ReadWaitMax? || pc.ReadAsleepMax?
  }

  /** `write` has copied an odd word and is in the part of the loop that never loads the word again. */
  predicate StuckWriting(pc: Pc) {
    && (pc.WriteEnter? || pc.WriteSnap? || pc.WriteWait? || pc.WriteAsleep? || pc.WriteLeave?)
    && pc.seen >= 3 && pc.seen % 2 == 1
  }

  predicate Stuck(pc: Pc) {
    StuckReading(pc) || StuckWriting(pc)
  }

  /** `read` takes the branch at its first look, or when its compare-exchange fails, on the write-lock value. */
  ghost predicate ReadTrapped(s: State, t: Tid) {
    && t in s.pcs && t in s.modes
    && s.word == WRITE_LOCKED && ((s.pcs[t].Idle? && s.modes[t].Free?) || s.pcs[t].ReadCas?)
  }

  /** `write` does at its first look, or when one of its two compare-exchanges fails, on an odd word. */
  ghost predicate WriteTrapped(s: State, t: Tid) {
    && t in s.pcs && t in s.modes
    && s.word >= 3 && s.word % 2 == 1
    && ((s.pcs[t].Idle? && s.modes[t].Free?) || s.pcs[t].WriteCas? || s.pcs[t].WriteFlag?)
  }

  lemma ReadGetsStuckIff(s: State, t: Tid, spurious: bool)
    requires Inv(s) && Enabled(s, Read(t, spurious)) && !Stuck(s.pcs[t])
    ensures Stuck(StepRead(s, t, spurious).pcs[t]) <==> ReadTrapped(s, t)
  {
    hide Encoding;
    assert Fits(s.pcs[t], s.modes[t], t in s.acquired) && Tested(s.pcs[t]);
  }

  lemma WriteGetsStuckIff(s: State, t: Tid)
    requires Inv(s) && Enabled(s, Write(t)) && !Stuck(s.pcs[t])
    ensures Stuck(StepWrite(s, t).pcs[t]) <==> WriteTrapped(s, t)
  {
    hide Encoding;
    assert Fits(s.pcs[t], s.modes[t], t in s.acquired) && Tested(s.pcs[t]);
  }

  /** Nothing but its own `read` or `write` traps a thread, and nothing frees it again. */
  lemma OtherMovesDoNotMatter(s: State, m: Move, t: Tid)
    requires Inv(s) && Enabled(s, m) && t in s.pcs
    ensures t in Step(s, m).pcs
    ensures Stuck(s.pcs[t]) ==> Stuck(Step(s, m).pcs[t])
    ensures Stuck(Step(s, m).pcs[t]) && !Stuck(s.pcs[t]) ==> m.t == t && (m.Read? || m.Write?)
  {
    hide Encoding, OneGuardEach, StepRead, StepWrite, StepDropRead, StepDropWrite, GoodPick;
    match m
    case Read(u, spurious) => ReadKeepsStuck(s, u, spurious, t);
    case TryRead(u) => assert t == u || StepTryRead(s, u).pcs[t] == s.pcs[t];
    case Write(u) => WriteKeepsStuck(s, u, t);
    case TryWrite(u) => assert t == u || StepTryWrite(s, u).pcs[t] == s.pcs[t];
    case DropRead(u, woken) => DropReadKeepsStuck(s, u, woken, t);
    case DropWrite(u, panicking, woken) => DropWriteKeepsStuck(s, u, panicking, woken, t);
    case ClearPoison(_) =>
    case SpuriousWake(_) =>
  }

  lemma DropReadKeepsStuck(s: State, u: Tid, woken: Tid, t: Tid)
    requires Inv(s) && Enabled(s, DropRead(u, woken)) && t in s.pcs
    ensures t in StepDropRead(s, u, woken).pcs
    ensures Stuck(s.pcs[t]) <==> Stuck(StepDropRead(s, u, woken).pcs[t])
  {
    hide Inv, GoodPick;
  }

  lemma DropWriteKeepsStuck(s: State, u: Tid, panicking: bool, woken: Tid, t: Tid)
    requires Inv(s) && Enabled(s, DropWrite(u, panicking, woken)) && t in s.pcs
    ensures t in StepDropWrite(s, u, panicking, woken).pcs
    ensures Stuck(s.pcs[t]) <==> Stuck(StepDropWrite(s, u, panicking, woken).pcs[t])
  {
    hide Inv, GoodPick;
  }

  lemma ReadKeepsStuck(s: State, u: Tid, spurious: bool, t: Tid)
    requires Inv(s) && Enabled(s, Read(u, spurious)) && t in s.pcs
    ensures t in StepRead(s, u, spurious).pcs
    ensures Stuck(s.pcs[t]) ==> Stuck(StepRead(s, u, spurious).pcs[t])
    ensures t != u ==> StepRead(s, u, spurious).pcs[t] == s.pcs[t]
  {
    hide Encoding;
  }

  lemma WriteKeepsStuck(s: State, u: Tid, t: Tid)
    requires Inv(s) && Enabled(s, Write(u)) && t in s.pcs
    ensures t in StepWrite(s, u).pcs
    ensures Stuck(s.pcs[t]) ==> Stuck(StepWrite(s, u).pcs[t])
    ensures t != u ==> StepWrite(s, u).pcs[t] == s.pcs[t]
  {
    hide Encoding;
  }

  /**
   Exactly when a call gets stuck, in any run: the moves that take a thread from not stuck to stuck
   are those of its own `read` and `write` that copy the word at a moment when it holds the
   write-lock value, or an odd value, whether at the first look or after a failed compare-exchange.
   */
  lemma WhoGetsStuck(states: seq<State>, moves: seq<Move>, i: nat, t: Tid)
    requires IsRun(Init, Next, states, moves) && i < |moves| && t in states[i].pcs && !Stuck(states[i].pcs[t])
    ensures t in states[i + 1].pcs
    ensures Stuck(states[i + 1].pcs[t]) <==>
              && moves[i].t == t
              && ((moves[i].Read? && ReadTrapped(states[i], t)) || (moves[i].Write? && WriteTrapped(states[i], t)))
  {
    ReachableInv(states, moves, i);
    var s, m := states[i], moves[i];
    assert Next(s, m, states[i + 1]);
    hide Inv, Enabled, ReadTrapped, WriteTrapped;
    OtherMovesDoNotMatter(s, m, t);
    if m.t == t {
      match m
      case Read(_, spurious) => ReadGetsStuckIff(s, t, spurious);
      case TryRead(_) =>
      case Write(_) => WriteGetsStuckIff(s, t);
      case TryWrite(_) =>
      case DropRead(_, _) =>
      case DropWrite(_, _, _) =>
      case ClearPoison(_) =>
      case SpuriousWake(_) =>
    }
  }

  /**
   What the loops do not promise: a blocking call that is stuck in this sense never returns, in any
   continuation of the run, whatever the other threads do.
   */
  lemma StuckForever(states: seq<State>, moves: seq<Move>, i: nat, j: nat, t: Tid)
    requires IsRun(Init, Next, states, moves) && i <= j < |states| && t in states[i].pcs
    requires Stuck(states[i].pcs[t])
    ensures t in states[j].pcs && Stuck(states[j].pcs[t]) && !states[j].pcs[t].Idle?
  {
    var stuck := (s: State) => t in s.pcs && Stuck(s.pcs[t]);
    InvIsInductive();
    forall s, m, s' | Inv(s) && stuck(s) && Next(s, m, s') ensures stuck(s') { OtherMovesDoNotMatter(s, m, t); }
    Stability(Init, Next, Inv, stuck, states, moves, i, j);
  }

  /** The poison flag is not atomic. Only the holder of the write guard sets it ... */
  lemma PoisonedByWriter(s: State, m: Move)
    requires Inv(s) && Enabled(s, m)
    ensures Step(s, m).poisoned == s.poisoned || m.ClearPoison?
         || (m.DropWrite? && m.panicking && m.t in s.modes && s.modes[m.t].Writer?)
  {
    hide Encoding, StepRead, StepTryRead, StepWrite, StepTryWrite;
  }

  /** ... so while any other thread holds a guard, and may be about to read it, only `clear_poison` changes it. */
  lemma PoisonIsGuarded(states: seq<State>, moves: seq<Move>, i: nat, t: Tid)
    requires IsRun(Init, Next, states, moves) && i < |moves|
    requires t in states[i].modes && !states[i].modes[t].Free? && moves[i].t != t && !moves[i].ClearPoison?
    ensures states[i + 1].poisoned == states[i].poisoned
  {
    ReachableInv(states, moves, i);
    assert Next(states[i], moves[i], states[i + 1]);
    PoisonedByWriter(states[i], moves[i]);
    if states[i + 1].poisoned != states[i].poisoned {
      WriterExcludesAll(states, moves, i, moves[i].t, t);
    }
  }

  /** Why `try_read` or `try_write` turns away a thread without a guard. */
  ghost predicate InTheWay(s: State, m: Move)
    requires m.t in s.pcs
  {
    match m
    case TryRead(t) =>
      if s.pcs[t].Idle? then Writers(s) > 0 || s.word % 2 == 1
      else s.pcs[t].TryReadCas? && s.word != s.pcs[t].seen
    case TryWrite(t) =>
      if s.pcs[t].Idle? then Readers(s) + Writers(s) > 0
      else s.pcs[t].TryWriteCas? && s.word != s.pcs[t].seen
    case _ => false
  }

  /** The word, and the set of threads turned away, in terms of guards. */
  lemma WordTells(s: State, t: Tid)
    requires Inv(s) && t in s.pcs
    ensures t in s.modes
    ensures s.word <= U32_MAX
    ensures s.word == WRITE_LOCKED <==> Writers(s) > 0
    ensures s.word <= 1 <==> Readers(s) + Writers(s) == 0
    ensures s.pcs[t].Idle? ==> (t in s.acquired <==> !s.modes[t].Free?)
    ensures s.modes[t].Free? ==> s.word != WRITE_LOCKED - 1
  {
    assert Fits(s.pcs[t], s.modes[t], t in s.acquired);
    if s.modes[t].Free? && s.word != WRITE_LOCKED { WordHasRoom(s, t); }
  }

  /** What a result says: a guard of the right kind and the poison flag, or a lock that could not be had. */
  ghost predicate Truthful(s: State, m: Move, s': State, result: Outcome) {
    && m.t in s.modes && m.t in s'.modes
    && match result
       case NoOutcome => (m.DropRead? || m.DropWrite?) && s'.modes[m.t].Free?
       case WouldBlock =>
         s'.modes == s.modes && s'.word == s.word && m.t in s.pcs && (!s.modes[m.t].Free? || InTheWay(s, m))
       case TooManyReaders => false
       case Guard(poisoned) =>
         && m.t in s'.acquired && poisoned == s.poisoned
         && s'.modes[m.t] == (if m.Read? || m.TryRead? then Reader else Writer)
  }

  lemma ReadIsTrue(s: State, t: Tid, spurious: bool)
    requires Inv(s) && Enabled(s, Read(t, spurious))
    ensures var s' := StepRead(s, t, spurious);
      s'.pcs[t].Idle? ==> Truthful(s, Read(t, spurious), s', s'.pcs[t].last)
  {
    assert Fits(s.pcs[t], s.modes[t], t in s.acquired) && Tested(s.pcs[t]);
    if s.modes[t].Free? { WordHasRoom(s, t); }
    hide Inv, OneGuardEach, Encoding;
  }

  lemma TryReadIsTrue(s: State, t: Tid)
    requires Inv(s) && Enabled(s, TryRead(t))
    ensures var s' := StepTryRead(s, t); s'.pcs[t].Idle? ==> Truthful(s, TryRead(t), s', s'.pcs[t].last)
  {
    assert Fits(s.pcs[t], s.modes[t], t in s.acquired) && Tested(s.pcs[t]);
    if s.modes[t].Free? { WordHasRoom(s, t); }
    WordTells(s, t);
    hide Inv, OneGuardEach, Encoding, Readers, Writers;
  }

  lemma WriteIsTrue(s: State, t: Tid)
    requires Inv(s) && Enabled(s, Write(t))
    ensures var s' := StepWrite(s, t); s'.pcs[t].Idle? ==> Truthful(s, Write(t), s', s'.pcs[t].last)
  {
    assert Fits(s.pcs[t], s.modes[t], t in s.acquired) && Tested(s.pcs[t]);
    hide Inv, OneGuardEach, Encoding;
  }

  lemma TryWriteIsTrue(s: State, t: Tid)
    requires Inv(s) && Enabled(s, TryWrite(t))
    ensures var s' := StepTryWrite(s, t); s'.pcs[t].Idle? ==> Truthful(s, TryWrite(t), s', s'.pcs[t].last)
  {
    assert Fits(s.pcs[t], s.modes[t], t in s.acquired) && Tested(s.pcs[t]);
    WordTells(s, t);
    hide Inv, OneGuardEach, Encoding, Readers, Writers;
  }

  /** What a call has returned, if its thread is outside again. */
  function ResultOf(pc: Pc): Option<Outcome> {
    if pc.Idle? then Some(pc.last) else None
  }

  /** The lock's three words, the thread-local set restricted to its id, and the threads using it. */
  class RwLock {
    var word: nat
    var writersNumber: nat
    var waitingWriters: nat
    var poisoned: bool
    var acquired: set<Tid>
    ghost var modes: map<Tid, Mode>
    var pcs: map<Tid, Pc>

    ghost function View(): State
      reads this
    {
      State(word, writersNumber, waitingWriters, poisoned, acquired, modes, pcs)
    }

    constructor (threads: set<Tid>)
      requires |threads| < THREAD_LIMIT
      ensures Init(View()) && Inv(View()) && pcs.Keys == threads
    {
      word, writersNumber, waitingWriters, poisoned, acquired := 0, 0, 0, false, {};
      modes := map t | t in threads :: Free;
      pcs := map t | t in threads :: Idle(NoOutcome);
      new;
      assert pcs.Keys == threads && modes.Keys == threads;
      InitEstablishesInv(View());
    }

    /** The next atomic instruction of `read`. */
    method Read(t: Tid, spurious: bool) returns (result: Option<Outcome>)
      requires Inv(View()) && Enabled(View(), Move.Read(t, spurious))
      modifies this
      ensures View() == Step(old(View()), Move.Read(t, spurious)) && Inv(View())
      ensures t in pcs && result == ResultOf(pcs[t])
      ensures result.Some? ==> Truthful(old(View()), Move.Read(t, spurious), View(), result.value)
    {
      ReadKeepsInv(View(), t, spurious);
      ReadIsTrue(View(), t, spurious);
      hide Inv, Truthful, Step, Enabled;
      ReadAccess(t, spurious);
      result := ResultOf(pcs[t]);
    }

    /** The access itself. */
    method ReadAccess(t: Tid, spurious: bool)
      requires Enabled(View(), Move.Read(t, spurious))
      modifies this
      ensures t in pcs && View() == StepRead(old(View()), t, spurious)
    {
      match pcs[t] {
        case Idle(_) =>
          pcs := pcs[t := if t in acquired then Idle(WouldBlock) else ReadDispatch(word)];
        case ReadWait(seen) =>
          pcs := pcs[t := if word == seen then ReadAsleep(seen) else ReadReload];
        case ReadReload =>
          pcs := pcs[t := ReadInner(word)];
        case ReadWaitMax =>
          pcs := pcs[t := if word == WRITE_LOCKED then ReadAsleepMax else ReadWaitMax];
        case ReadCas(seen) =>
          if word == seen && !spurious {
            word, modes := AddU32(seen, 2), modes[t := Reader];
            pcs := pcs[t := ReadMark];
          } else {
            pcs := pcs[t := ReadDispatch(word)];
          }
        case ReadMark =>
          acquired := acquired + {t};
          pcs := pcs[t := Idle(Guard(poisoned))];
      }
    }

    /** The next atomic instruction of `try_read`. */
    method TryRead(t: Tid) returns (result: Option<Outcome>)
      requires Inv(View()) && Enabled(View(), Move.TryRead(t))
      modifies this
      ensures View() == Step(old(View()), Move.TryRead(t)) && Inv(View())
      ensures t in pcs && result == ResultOf(pcs[t])
      ensures result.Some? ==> Truthful(old(View()), Move.TryRead(t), View(), result.value)
    {
      TryReadKeepsInv(View(), t);
      TryReadIsTrue(View(), t);
      hide Inv, Truthful, Frame;
      match pcs[t] {
        case Idle(_) =>
          pcs := pcs[t := if t in acquired then Idle(WouldBlock) else TryReadDispatch(word)];
        case TryReadCas(seen) =>
          if word == seen {
            word, modes := AddU32(seen, 2), modes[t := Reader];
            pcs := pcs[t := ReadMark];
          } else {
            pcs := pcs[t := Idle(WouldBlock)];
          }
        case ReadMark =>
          acquired := acquired + {t};
          pcs := pcs[t := Idle(Guard(poisoned))];
      }
      result := ResultOf(pcs[t]);
    }

    /** The next atomic instruction of `write`. */
    method Write(t: Tid) returns (result: Option<Outcome>)
      requires Inv(View()) && Enabled(View(), Move.Write(t))
      modifies this
      ensures View() == Step(old(View()), Move.Write(t)) && Inv(View())
      ensures t in pcs && result == ResultOf(pcs[t])
      ensures result.Some? ==> Truthful(old(View()), Move.Write(t), View(), result.value)
    {
      WriteKeepsInv(View(), t);
      WriteIsTrue(View(), t);
      hide Inv, Truthful, Step, Enabled;
      WriteAccess(t);
      result := ResultOf(pcs[t]);
    }

    /** The access itself. */
    method WriteAccess(t: Tid)
      requires Enabled(View(), Move.Write(t))
      modifies this
      ensures t in pcs && View() == StepWrite(old(View()), t)
    {
      match pcs[t] {
        case Idle(_) =>
          pcs := pcs[t := if t in acquired then Idle(WouldBlock) else WriteDispatch(word)];
        case WriteCas(seen) =>
          if word == seen {
            word, modes := WRITE_LOCKED, modes[t := Writer];
            pcs := pcs[t := WriteMark];
          } else {
            pcs := pcs[t := WriteDispatch(word)];
          }
        case WriteFlag(seen) =>
          if word == seen {
            word := AddU32(seen, 1);
            pcs := pcs[t := WriteEnter(seen)];
          } else {
            pcs := pcs[t := WriteDispatch(word)];
          }
        case WriteMark =>
          acquired := acquired + {t};
          pcs := pcs[t := Idle(Guard(poisoned))];
        case WriteEnter(_) => WaitAsWriter(t);
        case WriteSnap(_) => WaitAsWriter(t);
        case WriteWait(_, _) => WaitAsWriter(t);
        case WriteLeave(_) => WaitAsWriter(t);
      }
    }

    /** `write` between the creation of its waiting-writer guard and its drop. */
    method WaitAsWriter(t: Tid)
      requires Enabled(View(), Move.Write(t))
      requires pcs[t].WriteEnter? || pcs[t].WriteSnap? || pcs[t].WriteWait? || pcs[t].WriteLeave?
      modifies this`waitingWriters, this`pcs
      ensures View() == StepWrite(old(View()), t)
    {
      match pcs[t] {
        case WriteEnter(seen) =>
          waitingWriters := AddU32(waitingWriters, 1);
          pcs := pcs[t := WriteSnap(seen)];
        case WriteSnap(seen) =>
          pcs := pcs[t := WriteWait(seen, writersNumber)];
        case WriteWait(seen, wc) =>
          pcs := pcs[t := if writersNumber == wc then WriteAsleep(seen) else WriteLeave(seen)];
        case WriteLeave(seen) =>
          waitingWriters := SubU32(waitingWriters, 1);
          pcs := pcs[t := WriteDispatch(seen)];
      }
    }

    /** The next atomic instruction of `try_write`. */
    method TryWrite(t: Tid) returns (result: Option<Outcome>)
      requires Inv(View()) && Enabled(View(), Move.TryWrite(t))
      modifies this
      ensures View() == Step(old(View()), Move.TryWrite(t)) && Inv(View())
      ensures t in pcs && result == ResultOf(pcs[t])
      ensures result.Some? ==> Truthful(old(View()), Move.TryWrite(t), View(), result.value)
    {
      TryWriteKeepsInv(View(), t);
      TryWriteIsTrue(View(), t);
      hide Inv, Truthful, Frame;
      match pcs[t] {
        case Idle(_) =>
          pcs := pcs[t := if t in acquired || word > 1 then Idle(WouldBlock) else TryWriteCas(word)];
        case TryWriteCas(seen) =>
          if word == seen {
            word, modes := WRITE_LOCKED, modes[t := Writer];
            pcs := pcs[t := WriteMark];
          } else {
            pcs := pcs[t := Idle(WouldBlock)];
          }
        case WriteMark =>
          acquired := acquired + {t};
          pcs := pcs[t := Idle(Guard(poisoned))];
      }
      result := ResultOf(pcs[t]);
    }

    /** The next atomic instruction of dropping a read guard. */
    method DropReadGuard(t: Tid, woken: Tid) returns (result: Option<Outcome>)
      requires Inv(View()) && Enabled(View(), DropRead(t, woken))
      modifies this
      ensures View() == Step(old(View()), DropRead(t, woken)) && Inv(View())
      ensures t in pcs && result == ResultOf(pcs[t])
    {
      DropReadKeepsInv(View(), t, woken);
      hide Inv, GoodPick;
      match pcs[t] {
        case Idle(_) =>
          acquired := acquired - {t};
          pcs := pcs[t := ReadRelease];
        case ReadRelease =>
          var previous := word;
          word, modes := SubU32(word, 2), modes[t := Free];
          pcs := pcs[t := if previous == 3 then WakeWriter else Idle(NoOutcome)];
        case WakeWriter =>
          pcs := WakeOneWriter(pcs[t := Idle(NoOutcome)], woken);
      }
      result := ResultOf(pcs[t]);
    }

    /** The next atomic instruction of dropping the write guard. */
    method DropWriteGuard(t: Tid, panicking: bool, woken: Tid) returns (result: Option<Outcome>)
      requires Inv(View()) && Enabled(View(), DropWrite(t, panicking, woken))
      modifies this
      ensures View() == Step(old(View()), DropWrite(t, panicking, woken)) && Inv(View())
      ensures t in pcs && result == ResultOf(pcs[t])
    {
      DropWriteKeepsInv(View(), t, panicking, woken);
      hide Inv, Truthful, Step, Enabled;
      DropWriteGuardAccess(t, panicking, woken);
      result := ResultOf(pcs[t]);
    }

    /** The access itself. */
    method DropWriteGuardAccess(t: Tid, panicking: bool, woken: Tid)
      requires Enabled(View(), DropWrite(t, panicking, woken))
      modifies this
      ensures t in pcs && View() == StepDropWrite(old(View()), t, panicking, woken)
    {
      match pcs[t] {
        case Idle(_) =>
          poisoned := poisoned || panicking;
          acquired := acquired - {t};
          pcs := pcs[t := WriteBump];
        case WriteBump =>
          writersNumber := AddU32(writersNumber, 1);
          pcs := pcs[t := WriteStore];
        case WriteStore =>
          word, modes := 0, modes[t := Free];
          pcs := pcs[t := WriteCheck];
        case WriteCheck =>
          pcs := pcs[t := if waitingWriters != 0 then WakeWriter else WakeReaders];
        case WakeWriter =>
          pcs := WakeOneWriter(pcs[t := Idle(NoOutcome)], woken);
        case WakeReaders =>
          pcs := WakeAllReaders(pcs[t := Idle(NoOutcome)]);
      }
    }

    /** `clear_poison`. */
    method ClearPoison(t: Tid)
      requires Inv(View()) && Enabled(View(), Move.ClearPoison(t))
      modifies this`poisoned
      ensures View() == Step(old(View()), Move.ClearPoison(t)) && Inv(View())
    {
      PoisonDoesNotMatter(View(), false);
      hide Inv, GoodPick;
      poisoned := false;
    }
  }
}
