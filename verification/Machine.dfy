/** Machine words and thread names shared by every primitive. */
module Machine {
  /** Threads are told apart by a number; any finite set of them takes part in a run. */
  type Tid = nat

  const U32_MAX: nat := 0xFFFF_FFFF
  const U32_RANGE: nat := 0x1_0000_0000
  const USIZE_MAX: nat := 0xFFFF_FFFF_FFFF_FFFF
  const USIZE_RANGE: nat := 0x1_0000_0000_0000_0000

  /** `fetch_add` on an `AtomicU32`: wraps around at 2^32. */
  function AddU32(a: nat, b: nat): nat {
    (a + b) % U32_RANGE
  }

  /** `fetch_sub` on an `AtomicU32`. */
  function SubU32(a: nat, b: nat): nat {
    (a - b) % U32_RANGE
  }

  /** `fetch_add` on an `AtomicUsize` of a 64-bit target. */
  function AddUsize(a: nat, b: nat): nat {
    (a + b) % USIZE_RANGE
  }

  /** `fetch_sub` on an `AtomicUsize`. */
  function SubUsize(a: nat, b: nat): nat {
    (a - b) % USIZE_RANGE
  }

  /** The value a call has returned, once its last instruction has run. */
  datatype Option<+T> = None | Some(value: T)

  /** Two counts look the same in a 32-bit word iff they differ by a multiple of 2^32. */
  lemma SameWordIff(a: nat, b: nat)
    requires a <= b
    ensures a % U32_RANGE == b % U32_RANGE <==> (b - a) % U32_RANGE == 0
  {
    var q, r := (b - a) / U32_RANGE, (b - a) % U32_RANGE;
    assert b - a == q * U32_RANGE + r;
  }

  function Bit(b: bool): nat {
    if b then 1 else 0
  }
}

/** How many entries of a finite map satisfy a predicate, and how single updates move that number. */
module Counting {
  import opened Machine

  ghost function Members<K, V>(m: map<K, V>, p: V -> bool): set<K> {
    set k | k in m && p(m[k])
  }

  ghost function Count<K, V>(m: map<K, V>, p: V -> bool): nat {
    |Members(m, p)|
  }

  /** Moving one entry from its old value to `v` changes the count by that entry alone. */
  lemma CountUpdate<K, V>(m: map<K, V>, k: K, v: V, p: V -> bool)
    requires k in m
    ensures Count(m[k := v], p) == Count(m, p) - Bit(p(m[k])) + Bit(p(v))
  {
    var rest := Members(m, p) - {k};
    assert Members(m, p) == if p(m[k]) then rest + {k} else rest;
    assert Members(m[k := v], p) == if p(v) then rest + {k} else rest;
  }

  lemma CountInsert<K, V>(m: map<K, V>, k: K, v: V, p: V -> bool)
    requires k !in m
    ensures Count(m[k := v], p) == Count(m, p) + Bit(p(v))
  {
    assert Members(m[k := v], p) == if p(v) then Members(m, p) + {k} else Members(m, p);
  }

  lemma CountRemove<K, V>(m: map<K, V>, k: K, p: V -> bool)
    requires k in m
    ensures Count(m - {k}, p) == Count(m, p) - Bit(p(m[k]))
  {
    assert Members(m - {k}, p) == Members(m, p) - {k};
  }

  /** Rewriting every entry by a function that `p` cannot see leaves the count alone. */
  lemma CountSame<K, V>(m: map<K, V>, m': map<K, V>, p: V -> bool)
    requires m.Keys == m'.Keys
    requires forall k | k in m :: p(m[k]) == p(m'[k])
    ensures Count(m', p) == Count(m, p)
  {
    assert Members(m', p) == Members(m, p);
  }

  lemma CountZero<K, V>(m: map<K, V>, p: V -> bool)
    ensures Count(m, p) == 0 <==> forall k | k in m :: !p(m[k])
  {
    if Count(m, p) == 0 {
      forall k | k in m ensures !p(m[k]) {
        assert k !in Members(m, p);
      }
    } else {
      var k :| k in Members(m, p);
    }
  }

  /** One entry satisfying `p` makes the count positive; a second one makes it at least two. */
  lemma CountAtLeast<K, V>(m: map<K, V>, k: K, p: V -> bool)
    requires k in m && p(m[k])
    ensures Count(m, p) >= 1
    ensures Count(m, p) == 1 ==> forall j | j in m && p(m[j]) :: j == k
  {
    assert {k} <= Members(m, p);
    assert Members(m, p) == {k} + (Members(m, p) - {k});
    if Count(m, p) == 1 {
      assert Members(m, p) - {k} == {};
      forall j | j in m && p(m[j]) ensures j == k {
        assert j in Members(m, p);
      }
    }
  }

  lemma CountBound<K, V>(m: map<K, V>, p: V -> bool)
    ensures Count(m, p) <= |m|
  {
    SubsetSize(Members(m, p), m.Keys);
  }

  lemma {:induction false} SubsetSize<K>(a: set<K>, b: set<K>)
    requires a <= b
    ensures |a| <= |b|
  {
    assert b == a + (b - a);
  }
}

/** Runs of a transition system, as the sequence of states visited and the moves between them. */
module Runs {
  import opened Machine

  ghost predicate IsRun<S, M>(init: S -> bool, next: (S, M, S) -> bool, states: seq<S>, moves: seq<M>) {
    && |states| == |moves| + 1
    && init(states[0])
    && forall i :: 0 <= i < |moves| ==> next(states[i], moves[i], states[i + 1])
  }

  /** What holds at the start and is kept by every move holds in every state of every run. */
  lemma {:induction false} Invariance<S(!new), M(!new)>(
      init: S -> bool, next: (S, M, S) -> bool, inv: S -> bool, states: seq<S>, moves: seq<M>, i: nat)
    requires IsRun(init, next, states, moves)
    requires forall s | init(s) :: inv(s)
    requires forall s, m, s' | inv(s) && next(s, m, s') :: inv(s')
    requires i < |states|
    ensures inv(states[i])
  {
    if i > 0 {
      Invariance(init, next, inv, states, moves, i - 1);
      assert next(states[i - 1], moves[i - 1], states[i - 1 + 1]);
    }
  }

  /** What one state of a run has, and every move keeps, all later states have. */
  lemma {:induction false} Stability<S(!new), M(!new)>(
      init: S -> bool, next: (S, M, S) -> bool, inv: S -> bool, stable: S -> bool,
      states: seq<S>, moves: seq<M>, i: nat, j: nat)
    requires IsRun(init, next, states, moves)
    requires forall s | init(s) :: inv(s)
    requires forall s, m, s' | inv(s) && next(s, m, s') :: inv(s')
    requires forall s, m, s' | inv(s) && stable(s) && next(s, m, s') :: stable(s')
    requires i <= j < |states| && stable(states[i])
    ensures stable(states[j])
    decreases j
  {
    if i < j {
      Stability(init, next, inv, stable, states, moves, i, j - 1);
      Invariance(init, next, inv, states, moves, j - 1);
      assert next(states[j - 1], moves[j - 1], states[j - 1 + 1]);
    }
  }

  /** Runs can be prolonged by one enabled move. */
  lemma Extend<S(!new), M(!new)>(
      init: S -> bool, next: (S, M, S) -> bool, states: seq<S>, moves: seq<M>, m: M, s': S)
    requires IsRun(init, next, states, moves) && next(states[|moves|], m, s')
    ensures IsRun(init, next, states + [s'], moves + [m])
  {
    var longer, done := states + [s'], moves + [m];
    forall i | 0 <= i < |done| ensures next(longer[i], done[i], longer[i + 1]) {
      if i < |moves| {
        assert next(states[i], moves[i], states[i + 1]);
      }
    }
  }

  /** The prolonged run, of which only the end matters. */
  lemma Grow<S(!new), M(!new)>(
      init: S -> bool, next: (S, M, S) -> bool, states: seq<S>, moves: seq<M>, m: M, s': S)
      returns (longer: seq<S>, done: seq<M>)
    requires IsRun(init, next, states, moves) && next(states[|moves|], m, s')
    ensures IsRun(init, next, longer, done) && longer[|done|] == s' && longer[0] == states[0]
  {
    Extend(init, next, states, moves, m, s');
    longer, done := states + [s'], moves + [m];
  }

  lemma NextAt<S, M>(init: S -> bool, next: (S, M, S) -> bool, states: seq<S>, moves: seq<M>, i: nat)
    requires IsRun(init, next, states, moves) && i < |moves|
    ensures next(states[i], moves[i], states[i + 1])
  {
  }

  /** From state `i` on, `n` moves in a row are `m`: the call they make goes undisturbed. */
  ghost predicate InARow<M>(moves: seq<M>, i: nat, n: nat, m: M) {
    i + n <= |moves| && forall l | i <= l < i + n :: moves[l] == m
  }

  /** How many of the first `i` moves of a run are of a certain kind. */
  ghost function CountMoves<S, M>(kind: (S, M) -> bool, states: seq<S>, moves: seq<M>, i: nat): nat
    requires i <= |moves| < |states|
  {
    if i == 0 then 0
    else CountMoves(kind, states, moves, i - 1) + Bit(kind(states[i - 1], moves[i - 1]))
  }

  lemma {:induction false} CountMovesGrows<S, M>(
      kind: (S, M) -> bool, states: seq<S>, moves: seq<M>, i: nat, j: nat)
    requires i <= j <= |moves| < |states|
    ensures CountMoves(kind, states, moves, i) <= CountMoves(kind, states, moves, j)
    decreases j
  {
    if i < j {
      CountMovesGrows(kind, states, moves, i, j - 1);
    }
  }

  /** A number that starts at 0 and grows by one with each move of a kind counts those moves. */
  lemma {:induction false} NumberLaw<S(!new), M(!new)>(
      init: S -> bool, next: (S, M, S) -> bool, number: S -> int, kind: (S, M) -> bool,
      states: seq<S>, moves: seq<M>, i: nat)
    requires IsRun(init, next, states, moves) && i < |states|
    requires forall s | init(s) :: number(s) == 0
    requires forall s, m, s' | next(s, m, s') :: number(s') == number(s) + Bit(kind(s, m))
    ensures number(states[i]) == CountMoves(kind, states, moves, i)
  {
    if i > 0 {
      NumberLaw(init, next, number, kind, states, moves, i - 1);
      assert next(states[i - 1], moves[i - 1], states[i - 1 + 1]);
    }
  }

  /** A 32-bit word that does so counts them up to multiples of 2^32. */
  lemma {:induction false} WordLaw<S(!new), M(!new)>(
      init: S -> bool, next: (S, M, S) -> bool, word: S -> int, kind: (S, M) -> bool,
      states: seq<S>, moves: seq<M>, i: nat)
    requires IsRun(init, next, states, moves) && i < |states|
    requires forall s | init(s) :: word(s) == 0
    requires forall s, m, s' | next(s, m, s') :: word(s') == if kind(s, m) then (word(s) + 1) % U32_RANGE else word(s)
    ensures word(states[i]) == CountMoves(kind, states, moves, i) % U32_RANGE
  {
    if i > 0 {
      WordLaw(init, next, word, kind, states, moves, i - 1);
      assert next(states[i - 1], moves[i - 1], states[i - 1 + 1]);
    }
  }

  /** How many of the moves between states `a` and `b` are of a certain kind. */
  ghost function MovesBetween<S, M>(
      kind: (S, M) -> bool, states: seq<S>, moves: seq<M>, a: nat, b: nat): int
    requires a <= b <= |moves| < |states|
  {
    CountMoves(kind, states, moves, b) - CountMoves(kind, states, moves, a)
  }

  /** So it is the same in two states iff the number of those moves in between is a multiple of 2^32. */
  lemma SameWordLaw<S(!new), M(!new)>(
      init: S -> bool, next: (S, M, S) -> bool, word: S -> int, kind: (S, M) -> bool,
      states: seq<S>, moves: seq<M>, a: nat, b: nat)
    requires IsRun(init, next, states, moves) && a <= b < |states|
    requires forall s | init(s) :: word(s) == 0
    requires forall s, m, s' | next(s, m, s') :: word(s') == if kind(s, m) then (word(s) + 1) % U32_RANGE else word(s)
    ensures MovesBetween(kind, states, moves, a, b) >= 0
    ensures word(states[a]) == word(states[b]) <==> MovesBetween(kind, states, moves, a, b) % U32_RANGE == 0
  {
    WordLaw(init, next, word, kind, states, moves, a);
    WordLaw(init, next, word, kind, states, moves, b);
    CountMovesGrows(kind, states, moves, a, b);
    SameWordIff(CountMoves(kind, states, moves, a), CountMoves(kind, states, moves, b));
  }

  /** Move `l` sets a flag, and none of the moves after it and before `i` clears it. */
  ghost predicate SetAndNotCleared<S, M>(
      sets: (S, M) -> bool, clears: (S, M) -> bool, states: seq<S>, moves: seq<M>, l: int, i: nat)
    requires i <= |moves| < |states|
  {
    0 <= l < i && sets(states[l], moves[l]) && forall j | l < j < i :: !clears(states[j], moves[j])
  }

  /** A flag is up iff some move set it and no later one cleared it. */
  lemma {:induction false} FlagLaw<S(!new), M(!new)>(
      init: S -> bool, next: (S, M, S) -> bool, flag: S -> bool, sets: (S, M) -> bool, clears: (S, M) -> bool,
      states: seq<S>, moves: seq<M>, i: nat)
    requires IsRun(init, next, states, moves) && i < |states|
    requires forall s | init(s) :: !flag(s)
    requires forall s, m, s' | next(s, m, s') :: flag(s') <==> sets(s, m) || (flag(s) && !clears(s, m))
    ensures flag(states[i]) <==> exists l :: SetAndNotCleared(sets, clears, states, moves, l, i)
  {
    if i > 0 {
      FlagLaw(init, next, flag, sets, clears, states, moves, i - 1);
      assert next(states[i - 1], moves[i - 1], states[i - 1 + 1]);
      if sets(states[i - 1], moves[i - 1]) {
        assert SetAndNotCleared(sets, clears, states, moves, i - 1, i);
      } else if flag(states[i - 1]) && !clears(states[i - 1], moves[i - 1]) {
        var l :| SetAndNotCleared(sets, clears, states, moves, l, i - 1);
        assert SetAndNotCleared(sets, clears, states, moves, l, i);
      } else if l :| SetAndNotCleared(sets, clears, states, moves, l, i) {
        assert l < i - 1 && SetAndNotCleared(sets, clears, states, moves, l, i - 1);
      }
    }
  }

  /** ... and by the same move three times in a row. */
  lemma ExtendThrice<S(!new), M(!new)>(
      init: S -> bool, next: (S, M, S) -> bool, states: seq<S>, moves: seq<M>, m: M, s1: S, s2: S, s3: S)
    requires IsRun(init, next, states, moves)
    requires next(states[|moves|], m, s1) && next(s1, m, s2) && next(s2, m, s3)
    ensures IsRun(init, next, states + [s1, s2, s3], moves + [m, m, m])
  {
    Extend(init, next, states, moves, m, s1);
    Extend(init, next, states + [s1], moves + [m], m, s2);
    Extend(init, next, states + [s1] + [s2], moves + [m] + [m], m, s3);
    assert states + [s1] + [s2] + [s3] == states + [s1, s2, s3];
    assert moves + [m] + [m] + [m] == moves + [m, m, m];
  }
}

/** What a call of a futex's `wake_one` or `wake_all` at the end of an operation must do. */
module Wakes {
  import opened Machine
  import opened Counting

  ghost predicate SomeoneSleeps<V>(pcs: map<Tid, V>, asleep: V -> bool) {
    exists u :: u in pcs && asleep(pcs[u])
  }

  /** Thread `w`, and nobody else but `t`, goes anywhere. */
  ghost predicate NobodyElse<V>(pcs: map<Tid, V>, pcs': map<Tid, V>, t: Tid, w: Tid) {
    forall u | u in pcs && u in pcs' && u != t && u != w :: pcs'[u] == pcs[u]
  }

  ghost predicate IsWoken<V>(pcs: map<Tid, V>, pcs': map<Tid, V>, w: Tid, asleep: V -> bool, awake: V -> V) {
    w in pcs && w in pcs' && asleep(pcs[w]) && pcs'[w] == awake(pcs[w])
  }

  /** `t` finishes at `end`, exactly one sleeper wakes if there is one, and nothing else happens. */
  ghost predicate OneWoken<V>(
      pcs: map<Tid, V>, pcs': map<Tid, V>, t: Tid, end: V, asleep: V -> bool, awake: V -> V) {
    && pcs'.Keys == pcs.Keys && t in pcs && pcs'[t] == end
    && if SomeoneSleeps(pcs, asleep)
       then exists w :: w != t && IsWoken(pcs, pcs', w, asleep, awake) && NobodyElse(pcs, pcs', t, w)
       else NobodyElse(pcs, pcs', t, t)
  }

  /** `t` finishes at `end`, all sleepers wake, and nothing else happens. */
  ghost predicate AllWoken<V>(
      pcs: map<Tid, V>, pcs': map<Tid, V>, t: Tid, end: V, asleep: V -> bool, awake: V -> V) {
    && pcs'.Keys == pcs.Keys && t in pcs && pcs'[t] == end
    && forall u | u in pcs && u != t :: pcs'[u] == if asleep(pcs[u]) then awake(pcs[u]) else pcs[u]
  }

  /** So the number of sleepers falls by one, unless it is 0. */
  lemma OneWokenCounts<V>(
      pcs: map<Tid, V>, pcs': map<Tid, V>, t: Tid, end: V, asleep: V -> bool, awake: V -> V)
    requires OneWoken(pcs, pcs', t, end, asleep, awake) && !asleep(pcs[t]) && !asleep(end)
    requires forall v | asleep(v) :: !asleep(awake(v))
    ensures Count(pcs', asleep) == if Count(pcs, asleep) > 0 then Count(pcs, asleep) - 1 else 0
  {
    CountZero(pcs, asleep);
    CountUpdate(pcs, t, end, asleep);
    if SomeoneSleeps(pcs, asleep) {
      var w :| w != t && IsWoken(pcs, pcs', w, asleep, awake) && NobodyElse(pcs, pcs', t, w);
      CountUpdate(pcs[t := end], w, awake(pcs[w]), asleep);
      CountSame(pcs[t := end][w := awake(pcs[w])], pcs', asleep);
    } else {
      CountSame(pcs[t := end], pcs', asleep);
    }
  }

  lemma AllWokenCounts<V>(
      pcs: map<Tid, V>, pcs': map<Tid, V>, t: Tid, end: V, asleep: V -> bool, awake: V -> V)
    requires AllWoken(pcs, pcs', t, end, asleep, awake) && !asleep(end)
    requires forall v | asleep(v) :: !asleep(awake(v))
    ensures Count(pcs', asleep) == 0
  {
    CountZero(pcs', asleep);
  }
}

/** Runs of two threads, 1 and 2, for showing that something can happen. */
module Witnesses {
  import opened Machine

  function Both<T>(a: T, b: T): map<Tid, T> {
    map[1 := a, 2 := b]
  }

  lemma BothUpdated<T>(a: T, b: T, c: T)
    ensures Both(a, b)[1 := c] == Both(c, b) && Both(a, b)[2 := c] == Both(a, c)
  {
  }
}
