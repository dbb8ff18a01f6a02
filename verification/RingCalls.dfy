/** What single calls of the shared ring buffer answer, in any state and undisturbed. */
module RingCalls {
  import opened Machine
  import opened Runs
  import opened SharedRings

  /**
   A push is refused at its load of `head` iff, counted from its copy of `tail`, the buffer is full; if
   that copy is current, iff the queue holds as many values as there are slots. At its exchange a
   `try_push` is refused iff the head has moved or the exchange fails spuriously, a `push` never.
   */
  lemma PushRefusedIff(states: seq<State>, moves: seq<Move>, i: nat)
    requires IsRun(Init, Next, states, moves) && i < |moves| && Bounded(states[i]) && moves[i].Push?
    ensures var s, s', t := states[i], states[i + 1], moves[i].t;
      && t in s.pcs && t in s'.pcs
      && (s.pcs[t].PushHead? ==> (s'.pcs[t].Refused? <==> s.head - s.pcs[t].ct >= |s.slots|))
      && (s.pcs[t].PushHead? && s.pcs[t].ct == s.tail ==> (s'.pcs[t].Refused? <==> |Queue(s)| == |s.slots|))
      && (s.pcs[t].PushCas? ==>
            && (s'.pcs[t].PushWrite? <==> s.head == s.pcs[t].ch && !moves[i].spurious)
            && (s'.pcs[t].Refused? <==> s.pcs[t].once && (s.head != s.pcs[t].ch || moves[i].spurious))
            && (!s'.pcs[t].PushWrite? && !s'.pcs[t].Refused? ==> s'.pcs[t] == PushTail(s.pcs[t].v, false)))
      && (s'.pcs[t].Refused? && InPush(s.pcs[t]) ==> s'.pcs[t].v == s.pcs[t].v)
  {
    ReachableSafe(states, moves, i);
    NextAt(Init, Next, states, moves, i);
    var s, m := states[i], moves[i];
    if InPush(s.pcs[m.t]) {
      RefusedIffFails(s, m.t, m.v, m.once, m.spurious);
    }
  }

  lemma PushStarts(states: seq<State>, moves: seq<Move>, i: nat)
    requires IsRun(Init, Next, states, moves) && i < |moves| && moves[i].Push?
    requires moves[i].t in states[i].pcs && AtRest(states[i].pcs[moves[i].t])
    ensures var s', m := states[i + 1], moves[i]; m.t in s'.pcs && s'.pcs[m.t] == PushHead(m.v, m.once, states[i].tail)
  {
    NextAt(Init, Next, states, moves, i);
  }

  /** An undisturbed push is refused, at its second access, iff the buffer is full. */
  lemma PushAloneRefusedIffFull(states: seq<State>, moves: seq<Move>, i: nat, t: Tid, v: nat, once: bool)
    requires IsRun(Init, Next, states, moves) && InARow(moves, i, 2, Push(t, v, once, false))
    requires t in states[i].pcs && (AtRest(states[i].pcs[t]) || states[i].pcs[t] == PushTail(v, once))
    requires Bounded(states[i])
    ensures t in states[i + 2].pcs && Queue(states[i + 2]) == Queue(states[i])
    ensures |Queue(states[i])| <= |states[i].slots|
    ensures states[i + 2].pcs[t].Refused? <==> |Queue(states[i])| == |states[i].slots|
    ensures states[i + 2].pcs[t] == Refused(v) || states[i + 2].pcs[t].PushCas?
  {
    NextAt(Init, Next, states, moves, i);
    NextAt(Init, Next, states, moves, i + 1);
    ReachableSafe(states, moves, i);
    PushRefusedIff(states, moves, i + 1);
  }

  lemma PushAloneClaims(states: seq<State>, moves: seq<Move>, i: nat, t: Tid, v: nat, once: bool)
    requires IsRun(Init, Next, states, moves) && InARow(moves, i, 3, Push(t, v, once, false))
    requires t in states[i].pcs && AtRest(states[i].pcs[t]) && |states[i].claimed| < USIZE_MAX
    requires |Queue(states[i])| < |states[i].slots|
    ensures t in states[i + 3].pcs && states[i + 3].pcs[t].PushWrite?
    ensures Queue(states[i + 3]) == Queue(states[i]) + [v]
  {
    PushAloneRefusedIffFull(states, moves, i, t, v, once);
    ReachableSafe(states, moves, i);
    hide Init, Indices, Safe;
    NextAt(Init, Next, states, moves, i);
    NextAt(Init, Next, states, moves, i + 1);
    NextAt(Init, Next, states, moves, i + 2);
  }

  /** ... and otherwise has appended its value after four. */
  lemma PushAloneAppends(states: seq<State>, moves: seq<Move>, i: nat, t: Tid, v: nat, once: bool)
    requires IsRun(Init, Next, states, moves) && InARow(moves, i, 4, Push(t, v, once, false))
    requires t in states[i].pcs && AtRest(states[i].pcs[t]) && |states[i].claimed| < USIZE_MAX
    requires |Queue(states[i])| < |states[i].slots|
    ensures t in states[i + 4].pcs && states[i + 4].pcs[t].Pushed?
    ensures Queue(states[i + 4]) == Queue(states[i]) + [v]
  {
    PushAloneClaims(states, moves, i, t, v, once);
    hide Init;
    NextAt(Init, Next, states, moves, i + 3);
  }

  /** A pop wins its exchange iff the tail has not moved and it does not fail spuriously. */
  lemma PopTakesIff(states: seq<State>, moves: seq<Move>, i: nat)
    requires IsRun(Init, Next, states, moves) && i < |moves| && moves[i].Pop?
    requires moves[i].t in states[i].pcs && states[i].pcs[moves[i].t].PopCas?
    ensures var s, s', t := states[i], states[i + 1], moves[i].t;
      && t in s'.pcs
      && (s'.pcs[t].Popped? <==> s.tail == s.pcs[t].ct && !moves[i].spurious)
      && (s'.pcs[t].Nothing? <==> s.pcs[t].once && (s.tail != s.pcs[t].ct || moves[i].spurious))
      && (s'.pcs[t].Popped? ==> s'.pcs[t].slot == s.pcs[t].slot)
      && (!s'.pcs[t].Popped? && !s'.pcs[t].Nothing? ==> s'.pcs[t] == PopHead(false, s.tail))
  {
    NextAt(Init, Next, states, moves, i);
  }

  lemma PopStarts(states: seq<State>, moves: seq<Move>, i: nat)
    requires IsRun(Init, Next, states, moves) && i < |moves| && moves[i].Pop?
    requires moves[i].t in states[i].pcs && AtRest(states[i].pcs[moves[i].t])
    ensures var s', m := states[i + 1], moves[i]; m.t in s'.pcs && s'.pcs[m.t] == PopHead(m.once, states[i].tail)
  {
    NextAt(Init, Next, states, moves, i);
  }

  /** An undisturbed pop finds nothing, at its second access, iff the buffer is empty. */
  lemma PopAloneNothingIffEmpty(states: seq<State>, moves: seq<Move>, i: nat, t: Tid, once: bool)
    requires IsRun(Init, Next, states, moves) && InARow(moves, i, 2, Pop(t, once, false))
    requires t in states[i].pcs && AtRest(states[i].pcs[t]) && Bounded(states[i])
    ensures t in states[i + 2].pcs && Queue(states[i + 2]) == Queue(states[i])
    ensures states[i + 2].pcs[t].Nothing? <==> Queue(states[i]) == []
    ensures states[i + 2].pcs[t].Nothing? || states[i + 2].pcs[t].PopRead?
  {
    ReachableSafe(states, moves, i);
    NextAt(Init, Next, states, moves, i);
    NextAt(Init, Next, states, moves, i + 1);
  }

  lemma PopAloneReads(states: seq<State>, moves: seq<Move>, i: nat, t: Tid, once: bool)
    requires IsRun(Init, Next, states, moves) && InARow(moves, i, 3, Pop(t, once, false))
    requires t in states[i].pcs && AtRest(states[i].pcs[t]) && Bounded(states[i])
    requires Queue(states[i]) != []
    ensures t in states[i + 3].pcs && states[i + 3].pcs[t].PopCas? && states[i + 3].pcs[t].ct == states[i + 3].tail
    ensures states[i + 3].taken == states[i].taken && states[i + 3].claimed == states[i].claimed
  {
    PopAloneNothingIffEmpty(states, moves, i, t, once);
    hide Init;
    NextAt(Init, Next, states, moves, i);
    NextAt(Init, Next, states, moves, i + 1);
    NextAt(Init, Next, states, moves, i + 2);
  }

  /** ... and otherwise has removed the first value after four. */
  lemma PopAloneRemoves(states: seq<State>, moves: seq<Move>, i: nat, t: Tid, once: bool)
    requires IsRun(Init, Next, states, moves) && InARow(moves, i, 4, Pop(t, once, false))
    requires t in states[i].pcs && AtRest(states[i].pcs[t]) && Bounded(states[i])
    requires Queue(states[i]) != []
    ensures t in states[i + 4].pcs && states[i + 4].pcs[t].Popped?
    ensures states[i + 4].taken == states[i].taken + [states[i + 4].pcs[t].slot]
    ensures Queue(states[i + 4]) == Queue(states[i])[1..]
  {
    PopAloneReads(states, moves, i, t, once);
    hide Init;
    NextAt(Init, Next, states, moves, i + 3);
  }
}
