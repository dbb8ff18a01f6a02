/**
 The thread bound in `RwLocks.Init` is the exact one: with one more thread the encoding breaks. And two
 runs in which a call gets stuck not at its first look at the word but in a failed compare-exchange.
 */
module RwLockLimits {
  import opened Machine
  import opened Runs
  import opened RwLocks
  import opened Witnesses

  predicate Below(t: Tid, n: nat) { t < n }

  /** The first `n` thread names. */
  ghost function Names(n: nat): set<Tid> {
    set t: Tid | 0 <= t < n && Below(t, n)
  }

  lemma {:induction false} NamesSize(n: nat)
    ensures |Names(n)| == n
  {
    if n > 0 {
      NamesSize(n - 1);
      assert Names(n) == Names(n - 1) + {n - 1};
    }
  }

  ghost function Modes(threads: nat, readers: nat): map<Tid, Mode> {
    map t | t in Names(threads) :: if t < readers then Reader else Free
  }

  ghost function AllIdle(threads: nat, readers: nat): map<Tid, Pc> {
    map t | t in Names(threads) :: Idle(if t < readers then Guard(false) else NoOutcome)
  }

  /** Threads 0 to `n - 1` have finished `read` and keep their guards; nobody else has begun. */
  ghost function ManyReaders(threads: nat, n: nat): State {
    State(2 * n, 0, 0, false, Names(n), Modes(threads, n), AllIdle(threads, n))
  }

  /** The next reader, having loaded the word ... */
  ghost function Loaded(threads: nat, n: nat): State {
    Goto(ManyReaders(threads, n), n, ReadCas(2 * n))
  }

  /** ... and having exchanged it. */
  ghost function Taken(threads: nat, n: nat): State {
    Take(Loaded(threads, n), n, 2 * n + 2, Reader, ReadMark)
  }

  lemma ReaderTakes(threads: nat, n: nat)
    requires n < threads <= THREAD_LIMIT && n < THREAD_LIMIT - 1
    ensures Next(ManyReaders(threads, n), Read(n, false), Loaded(threads, n))
    ensures Next(Loaded(threads, n), Read(n, false), Taken(threads, n))
  {
    assert ReadDispatch(2 * n) == ReadCas(2 * n);
    assert Loaded(threads, n).pcs.Keys == Loaded(threads, n).modes.Keys;
  }

  lemma OneMoreReader(threads: nat, n: nat)
    requires n < threads
    ensures Names(n) + {n} == Names(n + 1)
    ensures Modes(threads, n)[n := Reader] == Modes(threads, n + 1)
    ensures AllIdle(threads, n)[n := Idle(Guard(false))] == AllIdle(threads, n + 1)
  {
  }

  lemma ReaderMarks(threads: nat, n: nat)
    requires n < threads <= THREAD_LIMIT && n < THREAD_LIMIT - 1
    ensures Next(Taken(threads, n), Read(n, false), ManyReaders(threads, n + 1))
  {
    OneMoreReader(threads, n);
    var idle: map<Tid, Pc> := AllIdle(threads, n);
    var t: Tid := n;
    assert n in idle && n in Modes(threads, n);
    hide Names, Modes, AllIdle;
    assert idle[t := ReadCas(2 * n)][t := ReadMark][t := Idle(Guard(false))] == idle[t := Idle(Guard(false))];
  }

  lemma NobodyReads(threads: nat)
    ensures Start(ManyReaders(threads, 0))
  {
    assert Names(0) == {};
  }

  lemma {:induction false} ManyReadersReachable(threads: nat, n: nat) returns (states: seq<State>, moves: seq<Move>)
    requires n <= threads <= THREAD_LIMIT && n < THREAD_LIMIT
    ensures IsRun(Start, Next, states, moves) && states[|moves|] == ManyReaders(threads, n)
    ensures states[0] == ManyReaders(threads, 0)
  {
    hide Next, Start, Loaded, Taken, ManyReaders;
    if n == 0 {
      NobodyReads(threads);
      states, moves := [ManyReaders(threads, 0)], [];
    } else {
      var m := Read(n - 1, false);
      states, moves := ManyReadersReachable(threads, n - 1);
      ReaderTakes(threads, n - 1);
        ReaderMarks(threads, n - 1);
      states, moves := Grow(Start, Next, states, moves, m, Loaded(threads, n - 1));
      states, moves := Grow(Start, Next, states, moves, m, Taken(threads, n - 1));
      states, moves := Grow(Start, Next, states, moves, m, ManyReaders(threads, n));
    }
  }

  /**
   With 2^31 threads, all but one reading, a writer that sets the low bit turns the word into the
   write-lock value although every read guard is still out.
   */
  lemma TooManyThreadsBreakIt() returns (states: seq<State>, moves: seq<Move>)
    ensures IsRun(Start, Next, states, moves) && |states[0].pcs| == THREAD_LIMIT
    ensures states[|moves|].word == WRITE_LOCKED
    ensures 0 in states[|moves|].modes && states[|moves|].modes[0] == Reader
    ensures forall t | t in states[|moves|].modes :: !states[|moves|].modes[t].Writer?
  {
    var writer: Tid := THREAD_LIMIT - 1;
    states, moves := ManyReadersReachable(THREAD_LIMIT, THREAD_LIMIT - 1);
    NamesSize(THREAD_LIMIT);
    assert AllIdle(THREAD_LIMIT, 0).Keys == Names(THREAD_LIMIT);
    WriterFlags(writer);
    var s0 := ManyReaders(THREAD_LIMIT, writer);
    hide Next, Start;
    states, moves := Grow(Start, Next, states, moves, Write(writer), Goto(s0, writer, WriteFlag(WRITE_LOCKED - 1)));
    states, moves := Grow(Start, Next, states, moves, Write(writer), Flagged(writer));
  }

  ghost function Flagged(writer: Tid): State {
    Goto(ManyReaders(THREAD_LIMIT, writer).(word := WRITE_LOCKED), writer, WriteEnter(WRITE_LOCKED - 1))
  }

  lemma WriterFlags(writer: Tid)
    requires writer == THREAD_LIMIT - 1
    ensures var s0 := ManyReaders(THREAD_LIMIT, writer);
      && Next(s0, Write(writer), Goto(s0, writer, WriteFlag(WRITE_LOCKED - 1)))
      && Next(Goto(s0, writer, WriteFlag(WRITE_LOCKED - 1)), Write(writer), Flagged(writer))
  {
    var s0 := ManyReaders(THREAD_LIMIT, writer);
    assert writer !in s0.acquired && s0.pcs.Keys == s0.modes.Keys;
    var idle: map<Tid, Pc> := s0.pcs;
    var flag: Pc := WriteFlag(WRITE_LOCKED - 1);
    assert idle[writer := flag][writer := WriteEnter(WRITE_LOCKED - 1)] == idle[writer := WriteEnter(WRITE_LOCKED - 1)];
  }

  const OUTSIDE: Pc := Idle(NoOutcome)

  /** Thread 1 reads, thread 2 writes. */
  ghost function Racing(word: nat, modes: map<Tid, Mode>, reader: Pc, writer: Pc): State {
    State(word, 0, 0, false, {}, modes, Both(reader, writer))
  }

  lemma RaceStarts()
    ensures Init(Racing(0, Both(Free, Free), OUTSIDE, OUTSIDE))
  {
    assert |Both(OUTSIDE, OUTSIDE).Keys| == |{1, 2}|;
  }

  lemma ReaderLosesRace()
    ensures Next(Racing(0, Both(Free, Free), OUTSIDE, OUTSIDE), Read(1, false),
                 Racing(0, Both(Free, Free), ReadCas(0), OUTSIDE))
    ensures Next(Racing(0, Both(Free, Free), ReadCas(0), OUTSIDE), Write(2),
                 Racing(0, Both(Free, Free), ReadCas(0), WriteCas(0)))
    ensures Next(Racing(0, Both(Free, Free), ReadCas(0), WriteCas(0)), Write(2),
                 Racing(WRITE_LOCKED, Both(Free, Writer), ReadCas(0), WriteMark))
    ensures Next(Racing(WRITE_LOCKED, Both(Free, Writer), ReadCas(0), WriteMark), Read(1, false),
                 Racing(WRITE_LOCKED, Both(Free, Writer), ReadWaitMax, WriteMark))
  {
    BothUpdated(OUTSIDE, OUTSIDE, ReadCas(0));
    BothUpdated(ReadCas(0), OUTSIDE, WriteCas(0));
    BothUpdated(ReadCas(0), WriteCas(0), WriteMark);
    BothUpdated(Free, Free, Writer);
    BothUpdated(ReadCas(0), WriteMark, ReadWaitMax);
  }

  /** A `read` that found the lock free gets stuck when a writer comes first. */
  lemma ReadStuckInExchange() returns (states: seq<State>, moves: seq<Move>)
    ensures IsRun(Init, Next, states, moves) && |moves| == 4
    ensures 1 in states[1].pcs && states[1].pcs[1] == ReadCas(0)
    ensures 1 in states[4].pcs && Stuck(states[4].pcs[1])
  {
    RaceStarts();
    ReaderLosesRace();
    hide Init, Next;
    states := [Racing(0, Both(Free, Free), OUTSIDE, OUTSIDE), Racing(0, Both(Free, Free), ReadCas(0), OUTSIDE),
               Racing(0, Both(Free, Free), ReadCas(0), WriteCas(0)),
               Racing(WRITE_LOCKED, Both(Free, Writer), ReadCas(0), WriteMark),
               Racing(WRITE_LOCKED, Both(Free, Writer), ReadWaitMax, WriteMark)];
    moves := [Read(1, false), Write(2), Write(2), Read(1, false)];
  }

  /** Thread 1 holds a read guard, the writer has announced itself or not. */
  ghost function Waiting(word: nat, waiting: nat, writer: Pc): State {
    State(word, 0, waiting, false, {1}, Both(Reader, Free), Both(Idle(Guard(false)), writer))
  }

  lemma ReaderEnters()
    ensures Next(Racing(0, Both(Free, Free), ReadCas(0), OUTSIDE), Read(1, false),
                 Racing(2, Both(Reader, Free), ReadMark, OUTSIDE))
    ensures Next(Racing(2, Both(Reader, Free), ReadMark, OUTSIDE), Read(1, false), Waiting(2, 0, OUTSIDE))
  {
    BothUpdated(ReadCas(0), OUTSIDE, ReadMark);
    BothUpdated(Free, Free, Reader);
    BothUpdated(ReadMark, OUTSIDE, Idle(Guard(false)));
  }

  lemma WriterSetsFlag()
    ensures Next(Waiting(2, 0, OUTSIDE), Write(2), Waiting(2, 0, WriteFlag(2)))
    ensures Next(Waiting(2, 0, WriteFlag(2)), Write(2), Waiting(3, 0, WriteEnter(2)))
  {
    var reader: Pc := Idle(Guard(false));
    BothUpdated(reader, OUTSIDE, WriteFlag(2));
    BothUpdated(reader, WriteFlag(2), WriteEnter(2));
  }

  lemma WriterWaits()
    ensures Next(Waiting(3, 0, WriteEnter(2)), Write(2), Waiting(3, 1, WriteSnap(2)))
    ensures Next(Waiting(3, 1, WriteSnap(2)), Write(2), Waiting(3, 1, WriteWait(2, 0)))
    ensures Next(Waiting(3, 1, WriteWait(2, 0)), Write(2), Waiting(3, 1, WriteAsleep(2)))
  {
    var reader: Pc := Idle(Guard(false));
    BothUpdated(reader, WriteEnter(2), WriteSnap(2));
    BothUpdated(reader, WriteSnap(2), WriteWait(2, 0));
    BothUpdated(reader, WriteWait(2, 0), WriteAsleep(2));
  }

  lemma WriterWakes()
    ensures Next(Waiting(3, 1, WriteAsleep(2)), SpuriousWake(2), Waiting(3, 1, WriteLeave(2)))
  {
    BothUpdated<Pc>(Idle(Guard(false)), WriteAsleep(2), WriteLeave(2));
  }

  lemma WriterTriesAgain()
    ensures Next(Waiting(3, 1, WriteLeave(2)), Write(2), Waiting(3, 0, WriteFlag(2)))
    ensures Next(Waiting(3, 0, WriteFlag(2)), Write(2), Waiting(3, 0, WriteEnter(3)))
  {
    BothUpdated<Pc>(Idle(Guard(false)), WriteLeave(2), WriteFlag(2));
    BothUpdated<Pc>(Idle(Guard(false)), WriteFlag(2), WriteEnter(3));
  }

  lemma RunToReader() returns (states: seq<State>, moves: seq<Move>)
    ensures IsRun(Init, Next, states, moves) && states[|moves|] == Waiting(2, 0, OUTSIDE)
  {
    RaceStarts();
    ReaderLosesRace();
    ReaderEnters();
    states, moves := [Racing(0, Both(Free, Free), OUTSIDE, OUTSIDE)], [];
    assert IsRun(Init, Next, states, moves);
    hide Init, Next, Racing, Waiting;
    states, moves := Grow(Init, Next, states, moves, Read(1, false), Racing(0, Both(Free, Free), ReadCas(0), OUTSIDE));
    states, moves := Grow(Init, Next, states, moves, Read(1, false), Racing(2, Both(Reader, Free), ReadMark, OUTSIDE));
    states, moves := Grow(Init, Next, states, moves, Read(1, false), Waiting(2, 0, OUTSIDE));
  }

  /** A `write` that set the low bit itself gets stuck when it wakes before the last reader has gone. */
  lemma WriteStuckInExchange() returns (states: seq<State>, moves: seq<Move>)
    ensures IsRun(Init, Next, states, moves)
    ensures states[|moves|] == Waiting(3, 0, WriteEnter(3)) && Stuck(WriteEnter(3))
  {
    states, moves := RunToReader();
    WriterSetsFlag();
    WriterWaits();
    WriterWakes();
    WriterTriesAgain();
    hide Init, Next, Waiting;
    states, moves := Grow(Init, Next, states, moves, Write(2), Waiting(2, 0, WriteFlag(2)));
    states, moves := Grow(Init, Next, states, moves, Write(2), Waiting(3, 0, WriteEnter(2)));
    states, moves := Grow(Init, Next, states, moves, Write(2), Waiting(3, 1, WriteSnap(2)));
    states, moves := Grow(Init, Next, states, moves, Write(2), Waiting(3, 1, WriteWait(2, 0)));
    states, moves := Grow(Init, Next, states, moves, Write(2), Waiting(3, 1, WriteAsleep(2)));
    states, moves := Grow(Init, Next, states, moves, SpuriousWake(2), Waiting(3, 1, WriteLeave(2)));
    states, moves := Grow(Init, Next, states, moves, Write(2), Waiting(3, 0, WriteFlag(2)));
    states, moves := Grow(Init, Next, states, moves, Write(2), Waiting(3, 0, WriteEnter(3)));
  }
}
