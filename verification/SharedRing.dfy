/**
 The ring buffer of src/utils/ring_buffer.rs shared by any number of threads. One move executes the
 next atomic access of one `push`, `try_push`, `pop` or `try_pop`. Messages are modelled by numbers.
 */
module SharedRings {
  import opened Machine
  import opened Masks
  import opened Runs

  /** A slot remembers, besides the value, for which ticket it was written. */
  datatype Slot = Uninit | Filled(ticket: nat, value: nat)

  /** `once` tells the `try_` variants, which do not loop; `ct` and `ch` are the loaded tail and head. */
  datatype Pc =
    | Idle
    | PushTail(v: nat, once: bool)                      // push, again: about to load `tail`
    | PushHead(v: nat, once: bool, ct: nat)             // push: about to load `head`
    | PushCas(v: nat, once: bool, ct: nat, ch: nat)     // push: about to claim ticket `ch`
    | PushWrite(v: nat, ticket: nat)                    // push: claimed, about to write the slot
    | Pushed                                            // push returned Ok
    | Refused(v: nat)                                   // push returned Err(v)
    | PopHead(once: bool, ct: nat)                      // pop: about to load `head`
    | PopRead(once: bool, ct: nat)                      // pop: about to read the slot of ticket `ct`
    | PopCas(once: bool, ct: nat, slot: Slot)           // pop: about to claim ticket `ct`
    | Popped(slot: Slot)                                // pop returned Some
    | Nothing                                           // pop returned None

  /**
   `claimed[i]` is the value pushed under ticket `i`, `taken[i]` what was popped under ticket `i`.
   `discarded` are the copies that pops read and threw away because their exchange failed.
   */
  datatype State = State(
    head: nat,
    tail: nat,
    slots: seq<Slot>,
    pcs: map<Tid, Pc>,
    claimed: seq<nat>,
    taken: seq<Slot>,
    discarded: seq<Slot>)

  /** `spurious`: a weak compare-exchange in this access fails for no reason. */
  datatype Move =
    | Push(t: Tid, v: nat, once: bool, spurious: bool)
    | Pop(t: Tid, once: bool, spurious: bool)

  predicate AtRest(pc: Pc) {
    pc.Idle? || pc.Pushed? || pc.Refused? || pc.Popped? || pc.Nothing?
  }

  predicate InPush(pc: Pc) {
    pc.PushTail? || pc.PushHead? || pc.PushCas? || pc.PushWrite?
  }

  predicate InPop(pc: Pc) {
    pc.PopHead? || pc.PopRead? || pc.PopCas?
  }

  ghost predicate Init(s: State) {
    && s.head == s.tail == 0 && s.claimed == [] && s.taken == [] && s.discarded == []
    && IsPow2(|s.slots|)
    && (forall k | 0 <= k < |s.slots| :: s.slots[k] == Uninit)
    && (forall t | t in s.pcs :: s.pcs[t] == Idle)
  }

  ghost predicate Enabled(s: State, m: Move) {
    && IsPow2(|s.slots|) && m.t in s.pcs
    && match m
       case Push(t, _, _, _) => AtRest(s.pcs[t]) || InPush(s.pcs[t])
       case Pop(t, _, _) => AtRest(s.pcs[t]) || InPop(s.pcs[t])
  }

  /** Which slot a pop reads: `pop` masks, `try_pop` reduces. */
  ghost function Index(s: State, pc: Pc): (i: nat)
    requires IsPow2(|s.slots|) && InPop(pc)
    ensures i < |s.slots| && i == pc.ct % |s.slots|
  {
    MaskIsMod(pc.ct, |s.slots|);
    if pc.once then pc.ct % |s.slots| else And(pc.ct, |s.slots| - 1)
  }

  ghost function Goto(s: State, t: Tid, pc: Pc): State {
    s.(pcs := s.pcs[t := pc])
  }

  ghost function StepPush(s: State, t: Tid, v: nat, once: bool, spurious: bool): (s': State)
    requires Enabled(s, Push(t, v, once, spurious))
    ensures Frame(s, t, s')
  {
    match s.pcs[t]
    case PushTail(v, once) => Goto(s, t, PushHead(v, once, s.tail))
    case PushHead(v, once, ct) =>
      Goto(s, t, if SubUsize(s.head, ct) >= |s.slots| then Refused(v) else PushCas(v, once, ct, s.head))
    case PushCas(v, once, ct, ch) =>
      if s.head == ch && !spurious
      then Goto(s.(head := AddUsize(ch, 1), claimed := s.claimed + [v]), t, PushWrite(v, ch))
      else Goto(s, t, if once then Refused(v) else PushTail(v, once))
    case PushWrite(v, ticket) =>
      Goto(s.(slots := s.slots[ticket % |s.slots| := Filled(ticket, v)]), t, Pushed)
    case _ => Goto(s, t, PushHead(v, once, s.tail))
  }

  ghost function StepPop(s: State, t: Tid, once: bool, spurious: bool): (s': State)
    requires Enabled(s, Pop(t, once, spurious))
    ensures Frame(s, t, s')
  {
    match s.pcs[t]
    case PopHead(once, ct) => Goto(s, t, if s.head == ct then Nothing else PopRead(once, ct))
    case PopRead(once, ct) => Goto(s, t, PopCas(once, ct, s.slots[Index(s, s.pcs[t])]))
    case PopCas(once, ct, slot) =>
      if s.tail == ct && !spurious
      then Goto(s.(tail := AddUsize(ct, 1), taken := s.taken + [slot]), t, Popped(slot))
      else Goto(s.(discarded := s.discarded + [slot]), t, if once then Nothing else PopHead(once, s.tail))
    case _ => Goto(s, t, PopHead(once, s.tail))
  }

  /** Of all threads, only `t` goes anywhere. */
  ghost predicate Frame(s: State, t: Tid, s': State) {
    t in s.pcs && t in s'.pcs && s'.pcs == s.pcs[t := s'.pcs[t]] && |s'.slots| == |s.slots|
  }

  ghost function Step(s: State, m: Move): (s': State)
    requires Enabled(s, m)
    ensures Frame(s, m.t, s')
  {
    match m
    case Push(t, v, once, spurious) => StepPush(s, t, v, once, spurious)
    case Pop(t, once, spurious) => StepPop(s, t, once, spurious)
  }

  ghost predicate Next(s: State, m: Move, s': State) {
    Enabled(s, m) && s' == Step(s, m)
  }

  /** Fewer than 2^64 successful pushes so far: the tickets fit their words. */
  ghost predicate Bounded(s: State) {
    |s.claimed| <= USIZE_MAX
  }

  /** What the stale local copies of a thread still guarantee. */
  ghost predicate LocalsFit(s: State, pc: Pc) {
    && (pc.PushHead? ==> pc.ct <= s.tail)
    && (pc.PushCas? ==> pc.ct <= s.tail && pc.ct <= pc.ch <= s.head && pc.ch - pc.ct < |s.slots|)
    && (pc.PushWrite? ==> pc.ticket < s.head && pc.ticket < |s.claimed| && s.claimed[pc.ticket] == pc.v)
    && (pc.PopHead? ==> pc.ct <= s.tail)
    && (pc.PopRead? ==> pc.ct <= s.tail && pc.ct < s.head)
    && (pc.PopCas? ==> pc.ct <= s.tail && pc.ct < s.head)
  }

  ghost predicate Indices(s: State) {
    && IsPow2(|s.slots|)
    && s.head == |s.claimed| && s.tail == |s.taken|
    && s.tail <= s.head <= s.tail + |s.slots|
    && (forall t | t in s.pcs :: LocalsFit(s, s.pcs[t]))
    && (forall t, u | t in s.pcs && u in s.pcs && s.pcs[t].PushWrite? && s.pcs[u].PushWrite?
                   && s.pcs[t].ticket == s.pcs[u].ticket :: t == u)
  }

  ghost predicate Safe(s: State) {
    IsPow2(|s.slots|) && (Bounded(s) ==> Indices(s))
  }

  lemma GotoKeepsIndices(s: State, t: Tid, pc: Pc)
    requires Indices(s) && t in s.pcs && LocalsFit(s, pc) && !pc.PushWrite?
    ensures Indices(Goto(s, t, pc))
  {
  }

  /** A successful claim hands out the next ticket. */
  lemma ClaimKeepsIndices(s: State, t: Tid, v: nat, once: bool)
    requires Indices(s) && Enabled(s, Push(t, v, once, false)) && s.pcs[t].PushCas? && s.pcs[t].ch == s.head
    requires Bounded(StepPush(s, t, v, once, false))
    ensures Indices(StepPush(s, t, v, once, false))
  {
    assert LocalsFit(s, s.pcs[t]);
  }

  lemma WriteKeepsIndices(s: State, t: Tid, v: nat, once: bool, spurious: bool)
    requires Indices(s) && Enabled(s, Push(t, v, once, spurious)) && s.pcs[t].PushWrite?
    ensures Indices(StepPush(s, t, v, once, spurious))
  {
  }

  lemma PushKeepsIndices(s: State, t: Tid, v: nat, once: bool, spurious: bool)
    requires Indices(s) && Enabled(s, Push(t, v, once, spurious)) && Bounded(StepPush(s, t, v, once, spurious))
    ensures Indices(StepPush(s, t, v, once, spurious))
  {
    if s.pcs[t].PushWrite? {
      WriteKeepsIndices(s, t, v, once, spurious);
    } else if s.pcs[t].PushCas? && s.pcs[t].ch == s.head && !spurious {
      ClaimKeepsIndices(s, t, v, once);
    } else {
      assert LocalsFit(s, s.pcs[t]);
      GotoKeepsIndices(s, t, StepPush(s, t, v, once, spurious).pcs[t]);
    }
  }

  lemma PopKeepsIndices(s: State, t: Tid, once: bool, spurious: bool)
    requires Indices(s) && Enabled(s, Pop(t, once, spurious)) && Bounded(s)
    ensures Indices(StepPop(s, t, once, spurious))
  {
  }

  lemma StepKeepsSafe(s: State, m: Move)
    requires Safe(s) && Enabled(s, m)
    ensures Safe(Step(s, m))
  {
    match m
    case Push(t, v, once, spurious) =>
      if Bounded(StepPush(s, t, v, once, spurious)) {
        PushKeepsIndices(s, t, v, once, spurious);
      }
    case Pop(t, once, spurious) =>
      if Bounded(s) {
        PopKeepsIndices(s, t, once, spurious);
      }
  }

  lemma InitEstablishesSafe(s: State)
    requires Init(s)
    ensures Safe(s)
  {
  }

  lemma ReachableSafe(states: seq<State>, moves: seq<Move>, i: nat)
    requires IsRun(Init, Next, states, moves) && i < |states|
    ensures Safe(states[i])
  {
    forall s | Init(s) ensures Safe(s) { InitEstablishesSafe(s); }
    forall s, m, s' | Safe(s) && Next(s, m, s') ensures Safe(s') { StepKeepsSafe(s, m); }
    Invariance(Init, Next, Safe, states, moves, i);
  }

  /**
   For any number of producers and consumers: the indices never cross or overtake each other by more
   than the capacity, a producer's subtraction of stale copies never underflows, and tickets are
   handed out one by one, each to one push and to one pop.
   */
  lemma IndicesNeverCross(states: seq<State>, moves: seq<Move>, i: nat)
    requires IsRun(Init, Next, states, moves) && i < |states| && Bounded(states[i])
    ensures states[i].tail <= states[i].head <= states[i].tail + |states[i].slots|
    ensures states[i].head == |states[i].claimed| && states[i].tail == |states[i].taken|
    ensures forall t | t in states[i].pcs && states[i].pcs[t].PushHead? ::
              SubUsize(states[i].head, states[i].pcs[t].ct) == states[i].head - states[i].pcs[t].ct
    ensures forall t, u | t in states[i].pcs && u in states[i].pcs && t != u
                       && states[i].pcs[t].PushWrite? && states[i].pcs[u].PushWrite? ::
              states[i].pcs[t].ticket != states[i].pcs[u].ticket
  {
    ReachableSafe(states, moves, i);
    forall t | t in states[i].pcs && states[i].pcs[t].PushHead?
      ensures SubUsize(states[i].head, states[i].pcs[t].ct) == states[i].head - states[i].pcs[t].ct
    {
      assert LocalsFit(states[i], states[i].pcs[t]);
    }
  }

  /**
   Why a push gives up: between its copy of the tail and the head there is a whole buffer, or its
   exchange finds another head than it loaded, or fails spuriously.
   */
  ghost predicate PushFails(s: State, t: Tid, spurious: bool) {
    && t in s.pcs
    && ((s.pcs[t].PushHead? && s.head - s.pcs[t].ct >= |s.slots|)
        || (s.pcs[t].PushCas? && (s.head != s.pcs[t].ch || spurious)))
  }

  /** A push is refused iff it fails for one of these reasons, and is not to try again after a failed exchange. */
  lemma RefusedIffFails(s: State, t: Tid, v: nat, once: bool, spurious: bool)
    requires Indices(s) && Bounded(s) && Enabled(s, Push(t, v, once, spurious)) && InPush(s.pcs[t])
    ensures var pc, pc' := s.pcs[t], StepPush(s, t, v, once, spurious).pcs[t];
      && (pc'.Refused? <==> PushFails(s, t, spurious) && (pc.PushCas? ==> pc.once))
      && (pc'.Refused? ==> pc'.v == pc.v)
      && (pc.PushCas? && !PushFails(s, t, spurious) ==> pc' == PushWrite(pc.v, s.head))
      && (pc.PushHead? && !PushFails(s, t, spurious) ==> pc' == PushCas(pc.v, pc.once, pc.ct, s.head))
  {
    assert LocalsFit(s, s.pcs[t]);
  }

  /** A pop that returns None after comparing head and tail saw an empty buffer when it loaded the head. */
  lemma NoneMeansEmpty(states: seq<State>, moves: seq<Move>, i: nat, t: Tid, once: bool, spurious: bool)
    requires IsRun(Init, Next, states, moves) && i < |states| && Bounded(states[i])
    requires Enabled(states[i], Pop(t, once, spurious)) && states[i].pcs[t].PopHead?
    ensures Step(states[i], Pop(t, once, spurious)).pcs[t] == Nothing <==> states[i].pcs[t].ct == states[i].head
    ensures Step(states[i], Pop(t, once, spurious)).pcs[t] == Nothing ==>
              states[i].tail == states[i].head && |states[i].taken| == |states[i].claimed|
  {
    ReachableSafe(states, moves, i);
    assert LocalsFit(states[i], states[i].pcs[t]);
  }

  /** Only one thread pops at a time, as the channel's receiver guarantees. */
  ghost predicate SingleConsumer(s: State, m: Move) {
    m.Pop? ==> forall u | u in s.pcs && u != m.t :: !InPop(s.pcs[u])
  }

  /** Nobody is still about to write the slot of ticket `i`. */
  ghost predicate Written(pcs: map<Tid, Pc>, i: nat) {
    forall u | u in pcs && pcs[u].PushWrite? :: pcs[u].ticket != i
  }

  /** Thread `t` alone moved, so only tickets it left or entered change status. */
  lemma WrittenAfter(pcs: map<Tid, Pc>, t: Tid, pc: Pc, i: nat)
    requires t in pcs
    ensures Written(pcs[t := pc], i) && !(pcs[t].PushWrite? && pcs[t].ticket == i) ==> Written(pcs, i)
    ensures Written(pcs, i) && !(pc.PushWrite? && pc.ticket == i) ==> Written(pcs[t := pc], i)
  {
    if Written(pcs[t := pc], i) && !(pcs[t].PushWrite? && pcs[t].ticket == i) {
      forall u | u in pcs && pcs[u].PushWrite? ensures pcs[u].ticket != i {
        assert u == t || pcs[t := pc][u] == pcs[u];
      }
    }
  }

  /** The hypothesis on runs: a slot is read only after the producer of its ticket wrote it. */
  ghost predicate Published(s: State, m: Move) {
    m.Pop? && m.t in s.pcs && s.pcs[m.t].PopRead? ==> Written(s.pcs, s.pcs[m.t].ct)
  }

  ghost predicate NextPublished(s: State, m: Move, s': State) {
    Next(s, m, s') && SingleConsumer(s, m) && Published(s, m)
  }

  /** Every ticket in the buffer whose producer is done finds its value in its slot. */
  ghost predicate Stored(s: State)
    requires Indices(s)
  {
    && (forall i | s.tail <= i < s.head && Written(s.pcs, i) :: s.slots[i % |s.slots|] == Filled(i, s.claimed[i]))
    && (forall t | t in s.pcs && s.pcs[t].PushWrite? :: s.tail <= s.pcs[t].ticket)
    && (forall k | 0 <= k < |s.slots| && s.slots[k].Filled? ::
          s.slots[k].ticket < s.head && Written(s.pcs, s.slots[k].ticket))
  }

  /** There is one consumer, and its copy of the tail is current. */
  ghost predicate OneConsumer(s: State) {
    && (forall t, u | t in s.pcs && u in s.pcs && InPop(s.pcs[t]) && InPop(s.pcs[u]) :: t == u)
    && (forall t | t in s.pcs && InPop(s.pcs[t]) :: s.pcs[t].ct == s.tail)
  }

  /** It holds the oldest ticket's value once it has read it, and so did all pops before it. */
  ghost predicate ReadsRight(s: State)
    requires Indices(s)
  {
    && (forall t | t in s.pcs && s.pcs[t].PopCas? ::
          s.tail < s.head && Written(s.pcs, s.tail) && s.pcs[t].slot == Filled(s.tail, s.claimed[s.tail]))
    && (forall i | 0 <= i < s.tail :: s.taken[i] == Filled(i, s.claimed[i]))
  }

  ghost predicate Fifo(s: State) {
    IsPow2(|s.slots|) && (Bounded(s) ==> Indices(s) && OneConsumer(s) && Stored(s) && ReadsRight(s))
  }

  /** The write of an in-flight producer lands on its own ticket's slot and on no other live one. */
  lemma WriteKeepsStored(s: State, t: Tid, v: nat, once: bool, spurious: bool)
    requires Indices(s) && Stored(s) && Enabled(s, Push(t, v, once, spurious)) && s.pcs[t].PushWrite?
    requires Indices(StepPush(s, t, v, once, spurious))
    ensures Stored(StepPush(s, t, v, once, spurious))
  {
    var s' := StepPush(s, t, v, once, spurious);
    var n, ticket := |s.slots|, s.pcs[t].ticket;
    assert LocalsFit(s, s.pcs[t]);
    forall i | s'.tail <= i < s'.head && Written(s'.pcs, i) ensures s'.slots[i % n] == Filled(i, s'.claimed[i]) {
      if i != ticket {
        OtherSlot(s, i, ticket);
        WrittenAfter(s.pcs, t, Pushed, i);
      }
    }
    forall k | 0 <= k < n && s'.slots[k].Filled?
      ensures s'.slots[k].ticket < s'.head && Written(s'.pcs, s'.slots[k].ticket)
    {
      WrittenAfter(s.pcs, t, Pushed, s'.slots[k].ticket);
    }
  }

  lemma OtherSlot(s: State, i: nat, j: nat)
    requires Indices(s) && s.tail <= i < s.head && s.tail <= j < s.head && i != j
    ensures i % |s.slots| != j % |s.slots|
  {
    if i % |s.slots| == j % |s.slots| {
      DistinctSlots(if i < j then i else j, if i < j then j else i, |s.slots|);
    }
  }

  /** A claimed ticket counts as unwritten until its producer has stored the value. */
  lemma ClaimKeepsStored(s: State, t: Tid, v: nat, once: bool, spurious: bool)
    requires Indices(s) && Stored(s) && Enabled(s, Push(t, v, once, spurious)) && s.pcs[t].PushCas?
    requires Indices(StepPush(s, t, v, once, spurious)) && s.head < USIZE_MAX
    ensures Stored(StepPush(s, t, v, once, spurious))
  {
    var s' := StepPush(s, t, v, once, spurious);
    forall i | s'.tail <= i < s'.head && Written(s'.pcs, i)
      ensures s'.slots[i % |s.slots|] == Filled(i, s'.claimed[i])
    {
      WrittenAfter(s.pcs, t, s'.pcs[t], i);
    }
    forall k | 0 <= k < |s.slots| && s'.slots[k].Filled?
      ensures s'.slots[k].ticket < s'.head && Written(s'.pcs, s'.slots[k].ticket)
    {
      WrittenAfter(s.pcs, t, s'.pcs[t], s.slots[k].ticket);
    }
  }

  /** Moves of a thread that neither leaves nor enters the write change nothing that is stored. */
  lemma GotoKeepsStored(s: State, t: Tid, pc: Pc)
    requires Indices(s) && Stored(s) && t in s.pcs && !s.pcs[t].PushWrite? && !pc.PushWrite?
    requires Indices(Goto(s, t, pc))
    ensures Stored(Goto(s, t, pc))
  {
    forall i: nat ensures Written(s.pcs, i) <==> Written(s.pcs[t := pc], i) {
      WrittenAfter(s.pcs, t, pc, i);
    }
  }

  lemma PushKeepsStored(s: State, t: Tid, v: nat, once: bool, spurious: bool)
    requires Indices(s) && Stored(s) && Enabled(s, Push(t, v, once, spurious))
    requires Indices(StepPush(s, t, v, once, spurious)) && Bounded(StepPush(s, t, v, once, spurious))
    ensures Stored(StepPush(s, t, v, once, spurious))
  {
    if s.pcs[t].PushWrite? {
      WriteKeepsStored(s, t, v, once, spurious);
    } else if s.pcs[t].PushCas? && StepPush(s, t, v, once, spurious).pcs[t].PushWrite? {
      ClaimKeepsStored(s, t, v, once, spurious);
    } else {
      GotoKeepsStored(s, t, StepPush(s, t, v, once, spurious).pcs[t]);
    }
  }

  lemma StepKeepsOneConsumer(s: State, m: Move)
    requires OneConsumer(s) && Enabled(s, m) && SingleConsumer(s, m)
    ensures OneConsumer(Step(s, m))
  {
    match m
    case Push(t, v, once, spurious) => assert !InPop(StepPush(s, t, v, once, spurious).pcs[t]);
    case Pop(t, once, spurious) => PopKeepsOneConsumer(s, t, once, spurious);
  }

  lemma PopKeepsOneConsumer(s: State, t: Tid, once: bool, spurious: bool)
    requires OneConsumer(s) && Enabled(s, Pop(t, once, spurious)) && SingleConsumer(s, Pop(t, once, spurious))
    ensures OneConsumer(StepPop(s, t, once, spurious))
  {
  }

  /** Producers leave the consumer alone. */
  lemma PushKeepsReads(s: State, t: Tid, v: nat, once: bool, spurious: bool)
    requires Indices(s) && ReadsRight(s) && Enabled(s, Push(t, v, once, spurious))
    requires Indices(StepPush(s, t, v, once, spurious))
    ensures ReadsRight(StepPush(s, t, v, once, spurious))
  {
    var s' := StepPush(s, t, v, once, spurious);
    assert !InPop(s'.pcs[t]);
    assert s.claimed <= s'.claimed && s'.taken == s.taken && s'.tail == s.tail;
    WrittenAfter(s.pcs, t, s'.pcs[t], s.tail);
    forall u | u in s'.pcs && InPop(s'.pcs[u]) ensures u != t && s'.pcs[u] == s.pcs[u] && LocalsFit(s, s.pcs[u]) {}
  }

  lemma TakeKeepsStored(s: State, t: Tid, once: bool, spurious: bool)
    requires Indices(s) && OneConsumer(s) && Stored(s) && ReadsRight(s)
    requires Enabled(s, Pop(t, once, spurious)) && s.pcs[t].PopCas? && Bounded(s)
    requires Indices(StepPop(s, t, once, spurious))
    ensures Stored(StepPop(s, t, once, spurious))
  {
    forall i: nat ensures Written(s.pcs, i) <==> Written(StepPop(s, t, once, spurious).pcs, i) {
      WrittenAfter(s.pcs, t, StepPop(s, t, once, spurious).pcs[t], i);
    }
  }

  lemma PopKeepsStored(s: State, t: Tid, once: bool, spurious: bool)
    requires Indices(s) && OneConsumer(s) && Stored(s) && ReadsRight(s)
    requires Enabled(s, Pop(t, once, spurious)) && Bounded(s)
    requires Indices(StepPop(s, t, once, spurious))
    ensures Stored(StepPop(s, t, once, spurious))
  {
    if s.pcs[t].PopCas? {
      TakeKeepsStored(s, t, once, spurious);
    } else {
      GotoKeepsStored(s, t, StepPop(s, t, once, spurious).pcs[t]);
    }
  }

  /** Under the publication hypothesis the slot read is the oldest ticket's own. */
  lemma ReadKeepsReads(s: State, t: Tid, once: bool, spurious: bool)
    requires Indices(s) && OneConsumer(s) && Stored(s) && ReadsRight(s)
    requires Enabled(s, Pop(t, once, spurious)) && s.pcs[t].PopRead?
    requires Written(s.pcs, s.pcs[t].ct) && Indices(StepPop(s, t, once, spurious))
    ensures ReadsRight(StepPop(s, t, once, spurious))
  {
    assert LocalsFit(s, s.pcs[t]);
    WrittenAfter(s.pcs, t, StepPop(s, t, once, spurious).pcs[t], s.tail);
  }

  lemma TakeKeepsReads(s: State, t: Tid, once: bool, spurious: bool)
    requires Indices(s) && OneConsumer(s) && ReadsRight(s)
    requires Enabled(s, Pop(t, once, spurious)) && s.pcs[t].PopCas? && Bounded(s)
    requires Indices(StepPop(s, t, once, spurious))
    ensures ReadsRight(StepPop(s, t, once, spurious))
    ensures !spurious ==> StepPop(s, t, once, spurious).pcs[t] == Popped(Filled(s.tail, s.claimed[s.tail]))
  {
    assert LocalsFit(s, s.pcs[t]);
  }

  lemma PopKeepsReads(s: State, t: Tid, once: bool, spurious: bool)
    requires Indices(s) && OneConsumer(s) && Stored(s) && ReadsRight(s)
    requires Enabled(s, Pop(t, once, spurious)) && Bounded(s)
    requires SingleConsumer(s, Pop(t, once, spurious)) && Published(s, Pop(t, once, spurious))
    requires Indices(StepPop(s, t, once, spurious))
    ensures ReadsRight(StepPop(s, t, once, spurious))
  {
    if s.pcs[t].PopRead? {
      ReadKeepsReads(s, t, once, spurious);
    } else if s.pcs[t].PopCas? {
      TakeKeepsReads(s, t, once, spurious);
    }
  }

  lemma StepKeepsFifo(s: State, m: Move)
    requires Fifo(s) && Enabled(s, m) && SingleConsumer(s, m) && Published(s, m)
    ensures Fifo(Step(s, m))
  {
    match m
    case Push(t, v, once, spurious) =>
      if Bounded(StepPush(s, t, v, once, spurious)) {
        PushKeepsIndices(s, t, v, once, spurious);
        PushKeepsStored(s, t, v, once, spurious);
        StepKeepsOneConsumer(s, m);
        PushKeepsReads(s, t, v, once, spurious);
      }
    case Pop(t, once, spurious) =>
      if Bounded(s) {
        PopKeepsIndices(s, t, once, spurious);
        PopKeepsStored(s, t, once, spurious);
        StepKeepsOneConsumer(s, m);
        PopKeepsReads(s, t, once, spurious);
      }
  }

  lemma ReachableFifo(states: seq<State>, moves: seq<Move>, i: nat)
    requires IsRun(Init, NextPublished, states, moves) && i < |states|
    ensures Fifo(states[i])
  {
    forall s, m, s' | Fifo(s) && NextPublished(s, m, s') ensures Fifo(s') { StepKeepsFifo(s, m); }
    Invariance(Init, NextPublished, Fifo, states, moves, i);
  }

  /** The queue that the buffer stands for: claimed and not yet taken, in the order of the claims. */
  ghost function Queue(s: State): seq<nat> {
    if |s.taken| <= |s.claimed| then s.claimed[|s.taken|..] else []
  }

  /** `t` wins the compare-exchange on `head`, or on `tail`, in this move. */
  ghost predicate Claims(s: State, s': State, t: Tid) {
    t in s.pcs && t in s'.pcs && s.pcs[t].PushCas? && s'.pcs[t].PushWrite?
  }

  ghost predicate Takes(s: State, s': State, t: Tid) {
    t in s.pcs && t in s'.pcs && s.pcs[t].PopCas? && s'.pcs[t].Popped?
  }

  /** What a move does to the queue. */
  ghost predicate QueueMove(s: State, t: Tid, s': State) {
    && (Claims(s, s', t) ==> Queue(s') == Queue(s) + [s.pcs[t].v] && |Queue(s)| < |s.slots|)
    && (Takes(s, s', t) ==> s'.pcs[t].slot.Filled? && Queue(s) == [s'.pcs[t].slot.value] + Queue(s'))
    && (!Claims(s, s', t) && !Takes(s, s', t) ==> Queue(s') == Queue(s))
  }

  lemma PushMovesQueue(s: State, t: Tid, v: nat, once: bool, spurious: bool)
    requires Indices(s) && Enabled(s, Push(t, v, once, spurious)) && Bounded(StepPush(s, t, v, once, spurious))
    ensures QueueMove(s, t, StepPush(s, t, v, once, spurious))
  {
    assert LocalsFit(s, s.pcs[t]);
    assert StepPush(s, t, v, once, spurious).taken == s.taken;
  }

  lemma PopMovesQueue(s: State, t: Tid, once: bool, spurious: bool)
    requires Fifo(s) && Bounded(s) && Enabled(s, Pop(t, once, spurious))
    ensures QueueMove(s, t, StepPop(s, t, once, spurious))
  {
    if s.pcs[t].PopCas? && !spurious {
      TakeRemovesFirst(s, t, once);
    }
    assert s.pcs[t].PopCas? ==> s.pcs[t].ct == s.tail;
    hide Fifo, Indices, Stored, ReadsRight, OneConsumer, LocalsFit, Queue;
    if !Takes(s, StepPop(s, t, once, spurious), t) {
      SameQueue(s, StepPop(s, t, once, spurious));
    }
  }

  lemma SameQueue(s: State, s': State)
    requires s'.claimed == s.claimed && s'.taken == s.taken
    ensures Queue(s') == Queue(s)
  {
  }

  lemma StepRefinesQueue(s: State, m: Move)
    requires Fifo(s) && Enabled(s, m) && Bounded(Step(s, m))
    ensures QueueMove(s, m.t, Step(s, m))
  {
    hide Stored, ReadsRight, OneConsumer, QueueMove;
    match m
    case Push(t, v, once, spurious) => PushMovesQueue(s, t, v, once, spurious);
    case Pop(t, once, spurious) => PopMovesQueue(s, t, once, spurious);
  }

  lemma TakeRemovesFirst(s: State, t: Tid, once: bool)
    requires Fifo(s) && Bounded(s) && Enabled(s, Pop(t, once, false)) && s.pcs[t].PopCas?
    ensures Queue(s) == [s.claimed[s.tail]] + Queue(StepPop(s, t, once, false))
    ensures StepPop(s, t, once, false).pcs[t] == Popped(Filled(s.tail, s.claimed[s.tail]))
  {
    assert LocalsFit(s, s.pcs[t]);
    assert s.tail == |s.taken| < |s.claimed| && s.pcs[t].ct == s.tail;
    assert s.pcs[t].slot == Filled(s.tail, s.claimed[s.tail]);
    hide Fifo, Indices, Stored, ReadsRight, OneConsumer, LocalsFit;
    FirstOfRest(s.claimed, s.tail);
  }

  lemma FirstOfRest(values: seq<nat>, i: nat)
    requires i < |values|
    ensures values[i..] == [values[i]] + values[i + 1..]
  {
  }

  /**
   Refinement: in every run in which slots are read only once published, each move is a move of an
   atomic bounded queue. Winning the head appends that push's value to a queue that is not full,
   winning the tail removes and returns the first value, and every other move leaves the queue alone.
   */
  lemma RefinesBoundedQueue(states: seq<State>, moves: seq<Move>, i: nat)
    requires IsRun(Init, NextPublished, states, moves) && i < |moves| && Bounded(states[i + 1])
    ensures var s, s', t := states[i], states[i + 1], moves[i].t;
      && |Queue(s)| <= |s.slots|
      && (Claims(s, s', t) ==> Queue(s') == Queue(s) + [s.pcs[t].v] && |Queue(s)| < |s.slots|)
      && (Takes(s, s', t) ==> s'.pcs[t].slot.Filled? && Queue(s) == [s'.pcs[t].slot.value] + Queue(s'))
      && (!Claims(s, s', t) && !Takes(s, s', t) ==> Queue(s') == Queue(s))
  {
    ReachableFifo(states, moves, i);
    assert NextPublished(states[i], moves[i], states[i + 1]);
    StepRefinesQueue(states[i], moves[i]);
    assert |states[i].claimed| <= |states[i + 1].claimed|;
  }

  /** What pops have returned so far is exactly the beginning of what pushes have claimed, ticket by ticket. */
  lemma PoppedInClaimOrder(states: seq<State>, moves: seq<Move>, i: nat)
    requires IsRun(Init, NextPublished, states, moves) && i < |states| && Bounded(states[i])
    ensures states[i].tail == |states[i].taken| <= |states[i].claimed| == states[i].head && |states[i].slots| > 0
    ensures forall k | 0 <= k < |states[i].taken| :: states[i].taken[k] == Filled(k, states[i].claimed[k])
    ensures forall k | states[i].tail <= k < states[i].head && Written(states[i].pcs, k) ::
              states[i].slots[k % |states[i].slots|] == Filled(k, states[i].claimed[k])
  {
    ReachableFifo(states, moves, i);
  }

  /** A write lands on its own ticket's slot, which no other ticket in the buffer uses. */
  lemma WritesNeverCollide(states: seq<State>, moves: seq<Move>, i: nat, t: Tid, k: nat)
    requires IsRun(Init, NextPublished, states, moves) && i < |states| && Bounded(states[i])
    requires t in states[i].pcs && states[i].pcs[t].PushWrite?
    requires states[i].tail <= k < states[i].head && k != states[i].pcs[t].ticket
    ensures states[i].tail <= states[i].pcs[t].ticket < states[i].head && |states[i].slots| > 0
    ensures k % |states[i].slots| != states[i].pcs[t].ticket % |states[i].slots|
  {
    ReachableFifo(states, moves, i);
    assert LocalsFit(states[i], states[i].pcs[t]);
    OtherSlot(states[i], k, states[i].pcs[t].ticket);
  }

  /**
   The hypothesis is exactly what a correct read needs: after any run that kept it so far, the next
   read obtains the value claimed under its ticket, for that ticket, iff the producer has written it.
   */
  lemma ReadIsRightIffPublished(states: seq<State>, moves: seq<Move>, i: nat, t: Tid)
    requires IsRun(Init, NextPublished, states, moves) && i < |states| && Bounded(states[i])
    requires t in states[i].pcs && states[i].pcs[t].PopRead?
    ensures IsPow2(|states[i].slots|) && states[i].pcs[t].ct < |states[i].claimed|
    ensures var s := states[i]; var ct := s.pcs[t].ct;
      s.slots[Index(s, s.pcs[t])] == Filled(ct, s.claimed[ct]) <==> Written(s.pcs, ct)
  {
    ReachableFifo(states, moves, i);
    assert LocalsFit(states[i], states[i].pcs[t]);
  }

  /**
   What a failed exchange does. With one consumer it fails for no reason but a spurious one, and
   then the copy that is thrown away is of the first value of the queue, which stays in the queue.
   */
  lemma DiscardsIffSpurious(states: seq<State>, moves: seq<Move>, i: nat)
    requires IsRun(Init, NextPublished, states, moves) && i < |moves| && Bounded(states[i + 1])
    ensures var s, s', m := states[i], states[i + 1], moves[i];
      && m.t in s.pcs
      && (s'.discarded != s.discarded <==> m.Pop? && s.pcs[m.t].PopCas? && m.spurious)
      && (s'.discarded != s.discarded ==>
            && Queue(s') == Queue(s) != []
            && s'.discarded == s.discarded + [Filled(s.tail, Queue(s)[0])])
  {
    ReachableFifo(states, moves, i);
    assert NextPublished(states[i], moves[i], states[i + 1]);
    StepRefinesQueue(states[i], moves[i]);
    assert |states[i].claimed| <= |states[i + 1].claimed|;
    assert LocalsFit(states[i], states[i].pcs[moves[i].t]);
  }

  /** Runs in which, besides, no exchange of a pop fails spuriously. */
  ghost predicate NextStrong(s: State, m: Move, s': State) {
    NextPublished(s, m, s') && (m.Pop? ==> !m.spurious)
  }

  ghost predicate FifoOwned(s: State) {
    Fifo(s) && (Bounded(s) ==> s.discarded == [])
  }

  lemma StepKeepsOwned(s: State, m: Move)
    requires FifoOwned(s) && Enabled(s, m) && SingleConsumer(s, m) && Published(s, m) && (m.Pop? ==> !m.spurious)
    ensures FifoOwned(Step(s, m))
  {
    StepKeepsFifo(s, m);
    assert Bounded(Step(s, m)) ==> Bounded(s);
  }

  /** In these no copy is thrown away: each value leaves the buffer in one way, by being returned once. */
  lemma NothingIsDiscarded(states: seq<State>, moves: seq<Move>, i: nat)
    requires IsRun(Init, NextStrong, states, moves) && i < |states| && Bounded(states[i])
    ensures states[i].discarded == []
    ensures |states[i].taken| <= |states[i].claimed|
    ensures forall k | 0 <= k < |states[i].taken| :: states[i].taken[k] == Filled(k, states[i].claimed[k])
  {
    forall s, m, s' | FifoOwned(s) && NextStrong(s, m, s') ensures FifoOwned(s') { StepKeepsOwned(s, m); }
    Invariance(Init, NextStrong, FifoOwned, states, moves, i);
  }

  /** The shared buffer: an array of slots and two indices, and the threads working on them. */
  class SharedRing {
    const buffer: array<Slot>
    var head: nat
    var tail: nat
    var pcs: map<Tid, Pc>
    ghost var claimed: seq<nat>
    ghost var taken: seq<Slot>
    ghost var discarded: seq<Slot>

    ghost function View(): State
      reads this, buffer
    {
      State(head, tail, buffer[..], pcs, claimed, taken, discarded)
    }

    constructor (n: nat, threads: set<Tid>)
      requires n % 2 == 0 && IsPow2(n)
      ensures Init(View()) && Safe(View()) && fresh(buffer)
      ensures buffer.Length == n && pcs.Keys == threads
    {
      buffer := new Slot[n](i => Uninit);
      head, tail := 0, 0;
      pcs := map t | t in threads :: Idle;
      claimed, taken, discarded := [], [], [];
      new;
      assert pcs.Keys == threads;
      InitEstablishesSafe(View());
    }

    /** The next atomic access of `push` (or of `try_push`, when `once`) in thread `t`. */
    method Push(t: Tid, v: nat, once: bool, spurious: bool) returns (done: bool)
      requires Safe(View()) && Enabled(View(), Move.Push(t, v, once, spurious))
      modifies this, buffer
      ensures View() == Step(old(View()), Move.Push(t, v, once, spurious)) && Safe(View())
      ensures done <==> AtRest(pcs[t])
      ensures Bounded(old(View())) && InPush(old(pcs)[t]) ==>
                (pcs[t].Refused? <==>
                   PushFails(old(View()), t, spurious) && (old(pcs)[t].PushCas? ==> old(pcs)[t].once))
    {
      StepKeepsSafe(View(), Move.Push(t, v, once, spurious));
      if Bounded(View()) && InPush(pcs[t]) {
        RefusedIffFails(View(), t, v, once, spurious);
      }
      hide PushFails, Bounded, Indices;
      var pc := pcs[t];
      if pc.PushTail? {
        pcs := pcs[t := PushHead(pc.v, pc.once, tail)];
      } else if pc.PushHead? {
        var usedSlots := SubUsize(head, pc.ct);
        pcs := pcs[t := if usedSlots >= buffer.Length then Refused(pc.v) else PushCas(pc.v, pc.once, pc.ct, head)];
      } else if pc.PushCas? {
        if head == pc.ch && !spurious {
          head, claimed := AddUsize(pc.ch, 1), claimed + [pc.v];
          pcs := pcs[t := PushWrite(pc.v, pc.ch)];
        } else {
          pcs := pcs[t := if pc.once then Refused(pc.v) else PushTail(pc.v, pc.once)];
        }
      } else if pc.PushWrite? {
        buffer[pc.ticket % buffer.Length] := Filled(pc.ticket, pc.v);
        pcs := pcs[t := Pushed];
      } else {
        pcs := pcs[t := PushHead(v, once, tail)];
      }
      done := AtRest(pcs[t]);
    }

    /** The next atomic access of `pop` (or of `try_pop`, when `once`) in thread `t`. */
    method Pop(t: Tid, once: bool, spurious: bool) returns (done: bool)
      requires Safe(View()) && Enabled(View(), Move.Pop(t, once, spurious))
      modifies this
      ensures View() == Step(old(View()), Move.Pop(t, once, spurious)) && Safe(View())
      ensures done <==> AtRest(pcs[t])
    {
      StepKeepsSafe(View(), Move.Pop(t, once, spurious));
      var pc := pcs[t];
      if pc.PopHead? {
        pcs := pcs[t := if head == pc.ct then Nothing else PopRead(pc.once, pc.ct)];
      } else if pc.PopRead? {
        MaskIsMod(pc.ct, buffer.Length);
        var idx := if pc.once then pc.ct % buffer.Length else And(pc.ct, buffer.Length - 1);
        pcs := pcs[t := PopCas(pc.once, pc.ct, buffer[idx])];
      } else if pc.PopCas? {
        if tail == pc.ct && !spurious {
          tail, taken := AddUsize(pc.ct, 1), taken + [pc.slot];
          pcs := pcs[t := Popped(pc.slot)];
        } else {
          discarded := discarded + [pc.slot];
          pcs := pcs[t := if pc.once then Nothing else PopHead(pc.once, tail)];
        }
      } else {
        pcs := pcs[t := PopHead(once, tail)];
      }
      done := AtRest(pcs[t]);
    }
  }
}
