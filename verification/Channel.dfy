/**
 The multi-producer single-consumer channel of src/channel.rs on top of the shared ring buffer. The
 type system lets many threads use many senders, but only one thread at a time the receiver.
 */
module Channels {
  import opened Machine
  import opened Ledgers
  import opened Masks
  import opened Runs
  import Ring = SharedRings

  const MAX_SENDER_COUNT: nat := USIZE_MAX / 2

  const RECEIVER_GONE: nat := 0
  const RECEIVER_AWAKE: nat := 1
  const RECEIVER_ASLEEP: nat := 2

  /** What a call of `send`, `try_send`, `recv` or `try_recv` returns. */
  datatype Answer =
    | NoAnswer
    | Sent
    | ReceiverGone(m: nat)       // SendError::Disconnected or TrySendError::Disconnected, with the message
    | BufferFull(m: nat)         // TrySendError::BufferFull, with the message
    | Received(slot: Ring.Slot)
    | SendersGone                // ReceiveError::Disconnected or TryReceiveError::Disconnected
    | BufferEmpty

  /** `h` is the borrowed sender, `m` the message the call still holds, `once` marks `try_send`. */
  datatype Pc =
    | Idle(last: Answer)                     // outside; `last` is what the last call returned
    | SendCheck(h: nat, m: nat)              // send: about to load `receiver_state`
    | SendPush(h: nat, m: nat, once: bool)   // inside the ring buffer's push or try_push
    | NotifyLoad(h: nat)                     // pushed, about to load `receiver_state`
    | NotifyCas(h: nat)
    | NotifyWake(h: nat)
    | RetryLoad(h: nat, m: nat)              // send: buffer full, about to load `sender_wait_num`
    | RetryWait(h: nat, m: nat, seen: nat)
    | SendAsleep(h: nat, m: nat)
    | RecvCheck                              // recv: about to load `senders_count`
    | RecvFinal                              // recv: saw no sender, inside the last try_pop
    | RecvPop                                // recv: inside pop
    | RecvBump(slot: Ring.Slot)              // recv: has a message, about to increment `sender_wait_num`
    | RecvWake(slot: Ring.Slot)
    | RecvStore                              // recv: buffer empty, about to store RECEIVER_ASLEEP
    | RecvWait
    | RecvAsleep
    | TryRecvPop                             // try_recv: inside try_pop
    | TryRecvCheck                           // try_recv: nothing popped, about to load `senders_count`

  /** History of the messages given to the channel. */
  datatype Book = Book(
    given: set<nat>,            // passed to send or try_send
    refused: set<nat>,          // handed back in an Err
    author: map<nat, (Tid, nat)>,
    sent: map<Tid, nat>)

  /** History of the receiver. */
  datatype Log = Log(
    received: seq<Ring.Slot>,   // what recv and try_recv have returned
    disconnected: bool,         // some recv has returned Disconnected
    gaveUp: bool,               // some recv's last try_pop failed in its compare-exchange
    announced: nat)             // messages accepted when RECEIVER_ASLEEP was last stored

  /** `senders` are the live Sender handles, `lost` counts the clones that panicked after being counted. */
  datatype State = State(
    ring: Ring.State,
    sendersCount: nat,
    senderWaitNum: nat,
    receiverState: nat,
    senders: set<nat>,
    lost: nat,
    receiverAlive: bool,
    pcs: map<Tid, Pc>,
    book: Book,
    log: Log)

  datatype Move =
    | Send(t: Tid, h: nat, m: nat, once: bool, spurious: bool, woken: Tid)
    | Recv(t: Tid, spurious: bool, woken: Tid)
    | TryRecv(t: Tid, spurious: bool)
    | CloneSender(t: Tid, h: nat, name: nat)
    | DropSender(t: Tid, h: nat)
    | DropReceiver(t: Tid)
    | SpuriousWake(t: Tid)

  function SenderOf(pc: Pc): Option<nat> {
    if InSend(pc) || pc.SendAsleep? then Some(pc.h) else None
  }

  predicate InSend(pc: Pc) {
    || pc.SendCheck? || pc.SendPush? || pc.NotifyLoad? || pc.NotifyCas? || pc.NotifyWake?
    || pc.RetryLoad? || pc.RetryWait?
  }

  predicate InRecv(pc: Pc) {
    || pc.RecvCheck? || pc.RecvFinal? || pc.RecvPop? || pc.RecvBump? || pc.RecvWake?
    || pc.RecvStore? || pc.RecvWait? || pc.RecvAsleep? || pc.TryRecvPop? || pc.TryRecvCheck?
  }

  ghost predicate Init(s: State) {
    && Ring.Init(s.ring) && s.ring.pcs.Keys == s.pcs.Keys == s.book.sent.Keys
    && s.sendersCount == 1 && |s.senders| == 1 && s.senderWaitNum == 0
    && s.receiverState == RECEIVER_AWAKE && s.receiverAlive
    && (forall t | t in s.pcs :: s.pcs[t] == Idle(NoAnswer) && s.book.sent[t] == 0)
    && s.book.given == s.book.refused == {} && s.book.author == map[]
    && s.lost == 0 && s.log == Log([], false, false, 0)
  }

  /** Nobody is using the receiver. */
  ghost predicate ReceiverFree(s: State) {
    s.receiverAlive && forall u | u in s.pcs :: !InRecv(s.pcs[u])
  }

  /** The access to the ring buffer that a move of thread `t` consists of, if any. */
  function RingMove(pc: Pc, m: Move): Option<Ring.Move> {
    if m.Send? && pc.SendPush? then Some(Ring.Push(m.t, pc.m, pc.once, m.spurious))
    else if m.Recv? && pc.RecvFinal? then Some(Ring.Pop(m.t, true, m.spurious))
    else if m.Recv? && pc.RecvPop? then Some(Ring.Pop(m.t, false, m.spurious))
    else if m.TryRecv? && (pc.Idle? || pc.TryRecvPop?) then Some(Ring.Pop(m.t, true, m.spurious))
    else None
  }

  /** The futex on `receiver_state` wakes the receiver, the one on `sender_wait_num` a sender. */
  ghost predicate GoodPick(s: State, m: Move)
    requires m.t in s.pcs
  {
    match m
    case Send(t, _, _, _, _, woken) =>
      s.pcs[t].NotifyWake? && (exists u :: u in s.pcs && s.pcs[u].RecvAsleep?) ==>
        woken in s.pcs && s.pcs[woken].RecvAsleep?
    case Recv(t, _, woken) =>
      s.pcs[t].RecvWake? && (exists u :: u in s.pcs && s.pcs[u].SendAsleep?) ==>
        woken in s.pcs && s.pcs[woken].SendAsleep?
    case _ => true
  }

  ghost predicate Enabled(s: State, m: Move)
  {
    && m.t in s.pcs && m.t in s.book.sent
    && (RingMove(s.pcs[m.t], m).Some? ==> Ring.Enabled(s.ring, RingMove(s.pcs[m.t], m).value))
    && match m
       case Send(t, h, msg, _, _, _) =>
         && (if s.pcs[t].Idle? then h in s.senders && msg !in s.book.given else InSend(s.pcs[t]) && s.pcs[t].h == h)
         && GoodPick(s, m)
       case Recv(t, _, _) =>
         && (if s.pcs[t].Idle? then ReceiverFree(s)
             else InRecv(s.pcs[t]) && !s.pcs[t].RecvAsleep? && !s.pcs[t].TryRecvPop? && !s.pcs[t].TryRecvCheck?)
         && GoodPick(s, m)
       case TryRecv(t, _) => if s.pcs[t].Idle? then ReceiverFree(s) else s.pcs[t].TryRecvPop? || s.pcs[t].TryRecvCheck?
       case CloneSender(t, h, name) => s.pcs[t].Idle? && h in s.senders && name !in s.senders
       case DropSender(t, h) =>
         s.pcs[t].Idle? && h in s.senders && forall u | u in s.pcs :: SenderOf(s.pcs[u]) != Some(h)
       case DropReceiver(t) => s.pcs[t].Idle? && ReceiverFree(s)
       case SpuriousWake(t) => s.pcs[t].SendAsleep? || s.pcs[t].RecvAsleep?
  }

  function Awake(pc: Pc): Pc {
    match pc
    case SendAsleep(h, m) => SendCheck(h, m)
    case RecvAsleep => RecvCheck
    case _ => pc
  }

  /** `wake_one` on the receiver's futex or on the senders'. */
  ghost function Wake(s: State, woken: Tid, receiver: bool): (s': State)
    ensures s' == s || (OnlyMoves(s, woken, s') && s' == Goto(s, woken, Awake(s.pcs[woken])))
  {
    if woken in s.pcs && (if receiver then s.pcs[woken].RecvAsleep? else s.pcs[woken].SendAsleep?)
    then Goto(s, woken, Awake(s.pcs[woken])) else s
  }

  ghost function Goto(s: State, t: Tid, pc: Pc): (s': State)
    ensures t in s.pcs ==> OnlyMoves(s, t, s')
  {
    s.(pcs := s.pcs[t := pc])
  }

  /** Of all calls, only the one in thread `t` goes on. */
  ghost predicate OnlyMoves(s: State, t: Tid, s': State) {
    t in s.pcs && t in s'.pcs && s'.pcs == s.pcs[t := s'.pcs[t]]
  }

  /** A call returns `Err` with message `m` in it. */
  ghost function HandBack(s: State, t: Tid, m: nat, error: Answer): (s': State)
    ensures t in s.pcs ==> OnlyMoves(s, t, s')
  {
    s.(book := s.book.(refused := s.book.refused + {m}), pcs := s.pcs[t := Idle(error)])
  }

  function Receive(log: Log, slot: Ring.Slot): Log {
    log.(received := log.received + [slot])
  }

  function Disconnect(log: Log, failed: bool): Log {
    log.(disconnected := true, gaveUp := log.gaveUp || failed)
  }

  function Announce(log: Log, accepted: nat): Log {
    log.(announced := accepted)
  }

  /** A call starts with message `m`. */
  ghost function Begun(s: State, t: Tid, m: nat): State
    requires t in s.book.sent
  {
    var b := s.book;
    s.(book := Book(b.given + {m}, b.refused, b.author[m := (t, b.sent[t])], b.sent[t := b.sent[t] + 1]))
  }

  /** The first access of `send` and `try_send`, and of every round of `send`'s loop. */
  ghost function CheckReceiver(s: State, t: Tid, h: nat, m: nat, once: bool): (s': State)
    requires t in s.pcs
    ensures Sends(s, t, h, s')
  {
    if s.receiverState == RECEIVER_GONE then HandBack(s, t, m, ReceiverGone(m)) else Goto(s, t, SendPush(h, m, once))
  }

  /** Where a send goes once the access to the ring buffer has left it at `ring`. */
  ghost function AfterPush(s: State, ring: Ring.State, t: Tid, h: nat, once: bool): (s': State)
    requires t in s.pcs && t in ring.pcs && s.pcs[t].SendPush? && s.pcs[t].h == h
    ensures Sends(s, t, h, s') && s'.ring == ring
  {
    var s' := s.(ring := ring);
    match ring.pcs[t]
    case Pushed => Goto(s', t, NotifyLoad(h))
    case Refused(v) => if once then HandBack(s', t, v, BufferFull(v)) else Goto(s', t, RetryLoad(h, v))
    case _ => s'
  }

  ghost function StepPush(s: State, t: Tid, h: nat, m: nat, once: bool, spurious: bool): (s': State)
    requires t in s.pcs && Ring.Enabled(s.ring, Ring.Push(t, m, once, spurious))
    requires s.pcs[t] == SendPush(h, m, once)
    ensures Sends(s, t, h, s') && s'.ring == Ring.StepPush(s.ring, t, m, once, spurious)
  {
    AfterPush(s, Ring.StepPush(s.ring, t, m, once, spurious), t, h, once)
  }

  /** What a send may change. */
  ghost predicate Sends(s: State, t: Tid, h: nat, s': State) {
    && OnlyMoves(s, t, s') && (s'.pcs[t].Idle? || SenderOf(s'.pcs[t]) == Some(h)) && !InRecv(s'.pcs[t])
    && s'.senders == s.senders && s'.sendersCount == s.sendersCount && s'.lost == s.lost
    && s'.receiverAlive == s.receiverAlive && (s'.receiverState == RECEIVER_GONE <==> s.receiverState == RECEIVER_GONE)
    && s'.log == s.log
    && (s'.ring == s.ring || s.pcs[t].SendPush?)
  }

  /** What a receive may change. */
  ghost predicate Receives(s: State, t: Tid, s': State) {
    && OnlyMoves(s, t, s') && (s'.pcs[t].Idle? || InRecv(s'.pcs[t]))
    && s'.senders == s.senders && s'.sendersCount == s.sendersCount && s'.lost == s.lost
    && s'.receiverAlive == s.receiverAlive
    && (s'.receiverState == s.receiverState || (s.pcs[t].RecvStore? && s'.receiverState == RECEIVER_ASLEEP))
    && (s'.pcs[t].RecvFinal? ==> s.pcs[t].RecvFinal? || s.sendersCount == 0)
    && (s'.log.disconnected == s.log.disconnected || s.pcs[t].RecvFinal?)
    && s'.book == s.book
  }

  /** One access of a send, up to the choice of whom its `wake_one` wakes. */
  ghost function StepSend(s: State, m: Move): (s': State)
    requires Enabled(s, m) && m.Send?
    ensures Sends(s, m.t, m.h, s')
  {
    var t := m.t;
    match s.pcs[t]
    case Idle(_) => CheckReceiver(Begun(s, t, m.m), t, m.h, m.m, m.once)
    case SendCheck(h, msg) => CheckReceiver(s, t, h, msg, false)
    case SendPush(h, msg, once) => StepPush(s, t, h, msg, once, m.spurious)
    case NotifyLoad(h) => Goto(s, t, if s.receiverState != RECEIVER_AWAKE then NotifyCas(h) else Idle(Sent))
    case NotifyCas(h) =>
      if s.receiverState == RECEIVER_ASLEEP then Goto(s.(receiverState := RECEIVER_AWAKE), t, NotifyWake(h))
      else Goto(s, t, Idle(Sent))
    case NotifyWake(_) => Goto(s, t, Idle(Sent))
    case RetryLoad(h, msg) => Goto(s, t, RetryWait(h, msg, s.senderWaitNum))
    case RetryWait(h, msg, seen) =>
      Goto(s, t, if s.senderWaitNum == seen then SendAsleep(h, msg) else SendCheck(h, msg))
  }

  /** `pc` is a position inside a pop: `recv`'s last one, `recv`'s usual one, or `try_recv`'s. */
  ghost predicate Popping(s: State, t: Tid, pc: Pc) {
    t in s.pcs && (pc.RecvFinal? || pc.RecvPop? || pc.TryRecvPop?) && (pc.RecvFinal? ==> s.pcs[t].RecvFinal?)
  }

  /** Where a receive goes once the access to the ring buffer has left it at `ring`. */
  ghost function AfterPop(s: State, ring: Ring.State, t: Tid, pc: Pc): (s': State)
    requires Popping(s, t, pc) && t in ring.pcs && t in s.ring.pcs
    ensures Receives(s, t, s') && s'.ring == ring
  {
    match ring.pcs[t]
    case Popped(slot) =>
      if pc.RecvPop? then Goto(s.(ring := ring), t, RecvBump(slot))
      else Goto(s.(ring := ring, log := Receive(s.log, slot)), t, Idle(Received(slot)))
    case Nothing =>
      if pc.RecvFinal?
      then Goto(s.(ring := ring, log := Disconnect(s.log, s.ring.pcs[t].PopCas?)), t, Idle(SendersGone))
      else Goto(s.(ring := ring), t, if pc.RecvPop? then RecvStore else TryRecvCheck)
    case _ => Goto(s.(ring := ring), t, pc)
  }

  /** Only `recv`'s usual pop loops. */
  ghost function StepPop(s: State, t: Tid, pc: Pc, spurious: bool): (s': State)
    requires Popping(s, t, pc) && Ring.Enabled(s.ring, Ring.Pop(t, !pc.RecvPop?, spurious))
    ensures Receives(s, t, s') && s'.ring == Ring.StepPop(s.ring, t, !pc.RecvPop?, spurious)
  {
    AfterPop(s, Ring.StepPop(s.ring, t, !pc.RecvPop?, spurious), t, pc)
  }

  ghost function StepRecv(s: State, t: Tid, spurious: bool, woken: Tid): (s': State)
    requires Enabled(s, Recv(t, spurious, woken))
    ensures Receives(s, t, s')
  {
    match s.pcs[t]
    case RecvFinal => StepPop(s, t, RecvFinal, spurious)
    case RecvPop => StepPop(s, t, RecvPop, spurious)
    case RecvBump(slot) => Goto(s.(senderWaitNum := AddU32(s.senderWaitNum, 1)), t, RecvWake(slot))
    case RecvWake(slot) => Goto(s.(log := Receive(s.log, slot)), t, Idle(Received(slot)))
    case RecvStore => Goto(s.(receiverState := RECEIVER_ASLEEP, log := Announce(s.log, |s.ring.claimed|)), t, RecvWait)
    case RecvWait => Goto(s, t, if s.receiverState == RECEIVER_ASLEEP then RecvAsleep else RecvCheck)
    case _ => Goto(s, t, if s.sendersCount == 0 then RecvFinal else RecvPop)
  }

  ghost function StepTryRecv(s: State, t: Tid, spurious: bool): (s': State)
    requires Enabled(s, TryRecv(t, spurious))
    ensures Receives(s, t, s')
  {
    if s.pcs[t].TryRecvCheck? then Goto(s, t, Idle(if s.sendersCount == 0 then SendersGone else BufferEmpty))
    else StepPop(s, t, TryRecvPop, spurious)
  }

  ghost function StepHandles(s: State, m: Move): State
    requires Enabled(s, m) && (m.CloneSender? || m.DropSender? || m.DropReceiver?)
  {
    match m
    case CloneSender(t, h, name) =>
      var counted := s.(sendersCount := AddUsize(s.sendersCount, 1));
      if s.sendersCount <= MAX_SENDER_COUNT then counted.(senders := s.senders + {name})
      else counted.(lost := s.lost + 1)
    case DropSender(t, h) => s.(sendersCount := SubUsize(s.sendersCount, 1), senders := s.senders - {h})
    case DropReceiver(t) => s.(receiverState := RECEIVER_GONE, receiverAlive := false)
  }

  ghost function Step(s: State, m: Move): State
    requires Enabled(s, m)
  {
    match m
    case Send(t, _, _, _, _, woken) =>
      if s.pcs[t].NotifyWake? then Wake(StepSend(s, m), woken, true) else StepSend(s, m)
    case Recv(t, spurious, woken) =>
      if s.pcs[t].RecvWake? then Wake(StepRecv(s, t, spurious, woken), woken, false)
      else StepRecv(s, t, spurious, woken)
    case TryRecv(t, spurious) => StepTryRecv(s, t, spurious)
    case CloneSender(_, _, _) => StepHandles(s, m)
    case DropSender(_, _) => StepHandles(s, m)
    case DropReceiver(_) => StepHandles(s, m)
    case SpuriousWake(t) => Goto(s, t, Awake(s.pcs[t]))
  }

  ghost predicate Next(s: State, m: Move, s': State) {
    Enabled(s, m) && s' == Step(s, m)
  }

  /** A call that is inside the ring buffer has the access there that its own position implies. */
  predicate Fits(pc: Pc, rpc: Ring.Pc) {
    || Ring.AtRest(rpc)
    || (pc.SendPush? && Ring.InPush(rpc) && rpc.v == pc.m && (!rpc.PushWrite? ==> rpc.once == pc.once))
    || ((pc.RecvFinal? || pc.TryRecvPop?) && Ring.InPop(rpc) && rpc.once)
    || (pc.RecvPop? && Ring.InPop(rpc) && !rpc.once)
  }

  ghost predicate Wired(s: State) {
    && IsPow2(|s.ring.slots|)
    && s.ring.pcs.Keys == s.pcs.Keys == s.book.sent.Keys
    && forall t | t in s.pcs :: Fits(s.pcs[t], s.ring.pcs[t])
  }

  /** One thread at a time receives, and senders in use are alive. */
  ghost predicate Exclusive(s: State) {
    && (s.receiverAlive <==> s.receiverState != RECEIVER_GONE)
    && (forall t | t in s.pcs && InRecv(s.pcs[t]) :: s.receiverAlive)
    && (forall t, u | t in s.pcs && u in s.pcs && InRecv(s.pcs[t]) && InRecv(s.pcs[u]) :: t == u)
    && (forall t | t in s.pcs && SenderOf(s.pcs[t]).Some? :: SenderOf(s.pcs[t]).value in s.senders)
  }

  /** The counter is the number of live senders, and once recv has read 0 there never is one again. */
  ghost predicate Counted(s: State) {
    s.lost < MAX_SENDER_COUNT ==>
      && s.sendersCount == |s.senders| + s.lost
      && |s.senders| <= MAX_SENDER_COUNT + 1
      && (forall t | t in s.pcs && s.pcs[t].RecvFinal? :: s.senders == {})
  }

  predicate Carrying(pc: Pc) { pc.RecvBump? || pc.RecvWake? }

  /** What left the buffer was returned by a receive, except for the message one receive still carries. */
  ghost predicate Delivered(s: State) {
    && (forall t | t in s.pcs && Carrying(s.pcs[t]) :: s.ring.taken == s.log.received + [s.pcs[t].slot])
    && (s.ring.taken == s.log.received || exists t :: t in s.pcs && Carrying(s.pcs[t]))
  }

  /** The runs that stay within the sizes of the counters. */
  ghost predicate Within(s: State) {
    s.lost < MAX_SENDER_COUNT && Ring.Bounded(s.ring)
  }

  /** A disconnected receiver has no senders left, and has received everything unless it gave up. */
  ghost predicate Final(s: State) {
    && (s.log.disconnected && s.lost < MAX_SENDER_COUNT ==> s.senders == {})
    && (s.log.disconnected && !s.log.gaveUp && Within(s) ==> |s.log.received| == |s.ring.claimed|)
  }

  /** The message a call holds: it has not claimed a ticket for it yet and not returned it either. */
  function Holding(pc: Pc, rpc: Ring.Pc): Option<nat> {
    if pc.SendCheck? || pc.RetryLoad? || pc.RetryWait? || pc.SendAsleep? || (pc.SendPush? && !rpc.PushWrite?)
    then Some(pc.m) else None
  }

  ghost function Held(s: State): map<Tid, Option<nat>> {
    map t | t in s.pcs && t in s.ring.pcs :: Holding(s.pcs[t], s.ring.pcs[t])
  }

  ghost function LedgerOf(s: State): Ledger {
    Ledger(s.book.given, Held(s), s.ring.claimed, s.book.refused, s.book.author, s.book.sent)
  }

  /** A sender that has claimed a ticket and has yet to find out whether the receiver sleeps. */
  predicate Announcing(pc: Pc, rpc: Ring.Pc) {
    (pc.SendPush? && rpc.PushWrite?) || pc.NotifyLoad? || pc.NotifyCas?
  }

  ghost predicate SomeoneAnnouncing(s: State) {
    exists t :: t in s.pcs && t in s.ring.pcs && Announcing(s.pcs[t], s.ring.pcs[t])
  }

  ghost predicate SomeoneWaking(s: State) {
    exists t :: t in s.pcs && s.pcs[t].NotifyWake?
  }

  predicate Waits(pc: Pc) { pc.RecvWait? || pc.RecvAsleep? }

  /** What was accepted since the receiver declared itself asleep will be brought to its notice. */
  ghost predicate Noticed(s: State) {
    forall r | r in s.pcs && Waits(s.pcs[r]) ::
      && (s.receiverState == RECEIVER_ASLEEP && |s.ring.claimed| != s.log.announced ==> SomeoneAnnouncing(s))
      && (s.pcs[r].RecvAsleep? && s.receiverState != RECEIVER_ASLEEP ==> SomeoneWaking(s))
  }

  ghost predicate Inv(s: State) {
    && Wired(s) && Exclusive(s) && Counted(s) && Delivered(s) && Final(s)
    && Ring.Safe(s.ring) && Ring.OneConsumer(s.ring)
    && Balanced(LedgerOf(s)) && Noticed(s)
  }

  lemma WiredAfter(s: State, t: Tid, s': State)
    requires Wired(s) && OnlyMoves(s, t, s') && Ring.Frame(s.ring, t, s'.ring) && s'.book.sent.Keys == s.book.sent.Keys
    requires Fits(s'.pcs[t], s'.ring.pcs[t])
    ensures Wired(s')
  {
    forall u | u in s'.pcs ensures Fits(s'.pcs[u], s'.ring.pcs[u]) {
      if u != t {
        assert s'.pcs[u] == s.pcs[u] && s'.ring.pcs[u] == s.ring.pcs[u];
      }
    }
  }

  /** What a push or pop looks like from outside after one more access. */
  lemma PushGoesOn(r: Ring.State, t: Tid, v: nat, once: bool, spurious: bool)
    requires Ring.Enabled(r, Ring.Push(t, v, once, spurious))
    requires Ring.InPush(r.pcs[t]) ==> r.pcs[t].v == v && (!r.pcs[t].PushWrite? ==> r.pcs[t].once == once)
    ensures var pc := Ring.StepPush(r, t, v, once, spurious).pcs[t];
      || pc.Pushed? || pc == Ring.Refused(v) || (Ring.InPush(pc) && pc.v == v && (!pc.PushWrite? ==> pc.once == once))
  {
  }

  lemma PushClaims(r: Ring.State, t: Tid, v: nat, once: bool, spurious: bool)
    requires Ring.Enabled(r, Ring.Push(t, v, once, spurious))
    ensures var r' := Ring.StepPush(r, t, v, once, spurious);
      && r'.taken == r.taken
      && r'.claimed == r.claimed + (if r'.pcs[t].PushWrite? then [r'.pcs[t].v] else [])
      && (r.pcs[t].PushWrite? <==> r'.pcs[t].Pushed?)
  {
  }

  lemma PopGoesOn(r: Ring.State, t: Tid, once: bool, spurious: bool)
    requires Ring.Enabled(r, Ring.Pop(t, once, spurious))
    requires Ring.InPop(r.pcs[t]) ==> r.pcs[t].once == once
    ensures var pc := Ring.StepPop(r, t, once, spurious).pcs[t];
      pc.Popped? || pc.Nothing? || (Ring.InPop(pc) && pc.once == once)
  {
  }

  lemma PopTakes(r: Ring.State, t: Tid, once: bool, spurious: bool)
    requires Ring.Enabled(r, Ring.Pop(t, once, spurious))
    ensures var r' := Ring.StepPop(r, t, once, spurious);
      r'.claimed == r.claimed && r'.taken == r.taken + (if r'.pcs[t].Popped? then [r'.pcs[t].slot] else [])
  {
  }

  lemma PushKeepsWired(s: State, t: Tid, h: nat, m: nat, once: bool, spurious: bool)
    requires Wired(s) && t in s.pcs && s.pcs[t] == SendPush(h, m, once)
    requires Ring.Enabled(s.ring, Ring.Push(t, m, once, spurious))
    ensures Wired(StepPush(s, t, h, m, once, spurious))
  {
    hide Ring.StepPush;
    PushGoesOn(s.ring, t, m, once, spurious);
    WiredAfter(s, t, StepPush(s, t, h, m, once, spurious));
  }

  lemma PopKeepsWired(s: State, t: Tid, pc: Pc, spurious: bool)
    requires Wired(s) && Popping(s, t, pc) && Ring.Enabled(s.ring, Ring.Pop(t, !pc.RecvPop?, spurious))
    requires Ring.AtRest(s.ring.pcs[t]) || (Ring.InPop(s.ring.pcs[t]) && s.ring.pcs[t].once == !pc.RecvPop?)
    ensures Wired(StepPop(s, t, pc, spurious))
  {
    hide Ring.StepPop;
    PopGoesOn(s.ring, t, !pc.RecvPop?, spurious);
    WiredAfter(s, t, StepPop(s, t, pc, spurious));
  }

  lemma WakeKeepsWired(s: State, woken: Tid, receiver: bool)
    requires Wired(s)
    ensures Wired(Wake(s, woken, receiver))
  {
    if Wake(s, woken, receiver) != s {
      WiredAfter(s, woken, Wake(s, woken, receiver));
    }
  }

  lemma SendKeepsWired(s: State, m: Move)
    requires Wired(s) && Enabled(s, m) && m.Send?
    ensures Wired(StepSend(s, m))
  {
    hide Ring.Step, Ring.Enabled, GoodPick;
    var t, pc := m.t, s.pcs[m.t];
    if pc.SendPush? {
      PushKeepsWired(s, t, pc.h, pc.m, pc.once, m.spurious);
    } else {
      WiredAfter(s, t, StepSend(s, m));
    }
  }

  lemma RecvKeepsWired(s: State, t: Tid, spurious: bool, woken: Tid)
    requires Wired(s) && Enabled(s, Recv(t, spurious, woken))
    ensures Wired(StepRecv(s, t, spurious, woken))
  {
    hide Ring.Step, Ring.Enabled, GoodPick;
    var pc := s.pcs[t];
    if pc.RecvFinal? {
      PopKeepsWired(s, t, RecvFinal, spurious);
    } else if pc.RecvPop? {
      PopKeepsWired(s, t, RecvPop, spurious);
    } else {
      WiredAfter(s, t, StepRecv(s, t, spurious, woken));
    }
  }

  lemma TryRecvKeepsWired(s: State, t: Tid, spurious: bool)
    requires Wired(s) && Enabled(s, TryRecv(t, spurious))
    ensures Wired(StepTryRecv(s, t, spurious))
  {
    hide Ring.Step, Ring.Enabled;
    if s.pcs[t].TryRecvCheck? {
      WiredAfter(s, t, StepTryRecv(s, t, spurious));
    } else {
      PopKeepsWired(s, t, TryRecvPop, spurious);
    }
  }

  lemma StepKeepsWired(s: State, m: Move)
    requires Wired(s) && Enabled(s, m)
    ensures Wired(Step(s, m))
  {
    hide Ring.Step, Ring.Enabled, StepSend, StepRecv, StepTryRecv, Wake, GoodPick, ReceiverFree;
    match m
    case Send(t, h, msg, once, spurious, woken) =>
      SendKeepsWired(s, m);
      WakeKeepsWired(StepSend(s, m), woken, true);
    case Recv(t, spurious, woken) =>
      RecvKeepsWired(s, t, spurious, woken);
      WakeKeepsWired(StepRecv(s, t, spurious, woken), woken, false);
    case TryRecv(t, spurious) => TryRecvKeepsWired(s, t, spurious);
    case CloneSender(t, h, name) =>
    case DropSender(t, h) =>
    case DropReceiver(t) =>
    case SpuriousWake(t) => WiredAfter(s, t, Step(s, m));
  }

  lemma ExclusiveAfter(s: State, t: Tid, s': State)
    requires Exclusive(s) && OnlyMoves(s, t, s') && s'.receiverAlive == s.receiverAlive
    requires s'.receiverAlive <==> s'.receiverState != RECEIVER_GONE
    requires InRecv(s'.pcs[t]) ==> InRecv(s.pcs[t]) || ReceiverFree(s)
    requires s'.senders == s.senders && (SenderOf(s'.pcs[t]).Some? ==> SenderOf(s'.pcs[t]).value in s.senders)
    ensures Exclusive(s')
  {
    forall u | u in s'.pcs && u != t ensures s'.pcs[u] == s.pcs[u] {}
  }

  lemma WakeKeepsExclusive(s: State, woken: Tid, receiver: bool)
    requires Exclusive(s)
    ensures Exclusive(Wake(s, woken, receiver))
  {
    if Wake(s, woken, receiver) != s {
      ExclusiveAfter(s, woken, Wake(s, woken, receiver));
    }
  }

  lemma SendKeepsExclusive(s: State, m: Move)
    requires Exclusive(s) && Enabled(s, m) && m.Send?
    ensures Exclusive(StepSend(s, m))
  {
    hide Ring.Step, Ring.Enabled, StepSend, GoodPick;
    assert m.h in s.senders;
    ExclusiveAfter(s, m.t, StepSend(s, m));
  }

  lemma RecvKeepsExclusive(s: State, t: Tid, spurious: bool, woken: Tid)
    requires Exclusive(s) && Enabled(s, Recv(t, spurious, woken))
    ensures Exclusive(StepRecv(s, t, spurious, woken))
  {
    hide Ring.Step, Ring.Enabled, StepRecv, GoodPick;
    ExclusiveAfter(s, t, StepRecv(s, t, spurious, woken));
  }

  lemma StepKeepsExclusive(s: State, m: Move)
    requires Exclusive(s) && Enabled(s, m)
    ensures Exclusive(Step(s, m))
  {
    hide Ring.Step, Ring.Enabled, StepSend, StepRecv, StepTryRecv, Wake, GoodPick;
    match m
    case Send(t, h, msg, once, spurious, woken) =>
      SendKeepsExclusive(s, m);
      WakeKeepsExclusive(StepSend(s, m), woken, true);
    case Recv(t, spurious, woken) =>
      RecvKeepsExclusive(s, t, spurious, woken);
      WakeKeepsExclusive(StepRecv(s, t, spurious, woken), woken, false);
    case TryRecv(t, spurious) => ExclusiveAfter(s, t, StepTryRecv(s, t, spurious));
    case CloneSender(t, h, name) =>
    case DropSender(t, h) =>
    case DropReceiver(t) =>
    case SpuriousWake(t) => ExclusiveAfter(s, t, Step(s, m));
  }

  lemma CloneKeepsCounted(s: State, t: Tid, h: nat, name: nat)
    requires Exclusive(s) && Counted(s) && Enabled(s, CloneSender(t, h, name))
    ensures Counted(StepHandles(s, CloneSender(t, h, name)))
  {
    assert |s.senders + {name}| == |s.senders| + 1;
  }

  lemma DropKeepsCounted(s: State, t: Tid, h: nat)
    requires Exclusive(s) && Counted(s) && Enabled(s, DropSender(t, h))
    ensures Counted(StepHandles(s, DropSender(t, h)))
  {
    assert |s.senders| == |s.senders - {h}| + 1;
  }

  lemma CountedAfter(s: State, t: Tid, s': State)
    requires Counted(s) && OnlyMoves(s, t, s') && s'.senders == s.senders && s'.sendersCount == s.sendersCount
    requires s'.lost == s.lost && (s'.pcs[t].RecvFinal? ==> s.pcs[t].RecvFinal? || s.sendersCount == 0)
    ensures Counted(s')
  {
    forall u | u in s'.pcs && u != t ensures s'.pcs[u] == s.pcs[u] {}
  }

  lemma WakeKeepsCounted(s: State, woken: Tid, receiver: bool)
    requires Counted(s)
    ensures Counted(Wake(s, woken, receiver))
  {
    if Wake(s, woken, receiver) != s {
      CountedAfter(s, woken, Wake(s, woken, receiver));
    }
  }

  lemma StepKeepsCounted(s: State, m: Move)
    requires Exclusive(s) && Counted(s) && Enabled(s, m)
    ensures Counted(Step(s, m))
  {
    hide Ring.Step, Ring.Enabled, StepSend, StepRecv, StepTryRecv, Wake, GoodPick;
    match m
    case Send(t, h, msg, once, spurious, woken) =>
      CountedAfter(s, t, StepSend(s, m));
      WakeKeepsCounted(StepSend(s, m), woken, true);
    case Recv(t, spurious, woken) =>
      CountedAfter(s, t, StepRecv(s, t, spurious, woken));
      WakeKeepsCounted(StepRecv(s, t, spurious, woken), woken, false);
    case TryRecv(t, spurious) => CountedAfter(s, t, StepTryRecv(s, t, spurious));
    case CloneSender(t, h, name) => CloneKeepsCounted(s, t, h, name);
    case DropSender(t, h) => DropKeepsCounted(s, t, h);
    case DropReceiver(t) =>
    case SpuriousWake(t) => CountedAfter(s, t, Step(s, m));
  }

  lemma DeliveredAfter(s: State, t: Tid, s': State)
    requires Delivered(s) && OnlyMoves(s, t, s') && s'.ring.taken == s.ring.taken && s'.log.received == s.log.received
    requires Carrying(s'.pcs[t]) <==> Carrying(s.pcs[t])
    requires Carrying(s.pcs[t]) ==> s'.pcs[t].slot == s.pcs[t].slot
    ensures Delivered(s')
  {
    if s.ring.taken != s.log.received {
      var u :| u in s.pcs && Carrying(s.pcs[u]);
      assert Carrying(s'.pcs[u]);
    }
    forall u | u in s'.pcs && u != t ensures s'.pcs[u] == s.pcs[u] {}
  }

  lemma DeliveredWithout(s: State, s': State)
    requires Delivered(s) && s'.pcs == s.pcs && s'.ring == s.ring && s'.log.received == s.log.received
    ensures Delivered(s')
  {
  }

  lemma WakeKeepsDelivered(s: State, woken: Tid, receiver: bool)
    requires Delivered(s)
    ensures Delivered(Wake(s, woken, receiver))
  {
    if Wake(s, woken, receiver) != s {
      DeliveredAfter(s, woken, Wake(s, woken, receiver));
    }
  }

  lemma SendKeepsDelivered(s: State, m: Move)
    requires Delivered(s) && Enabled(s, m) && m.Send?
    ensures Delivered(StepSend(s, m))
  {
    hide Ring.StepPush, Ring.Step, Ring.Enabled, GoodPick, AfterPush;
    var pc := s.pcs[m.t];
    if pc.SendPush? {
      PushClaims(s.ring, m.t, pc.m, pc.once, m.spurious);
    }
    DeliveredAfter(s, m.t, StepSend(s, m));
  }

  /** A popped message is carried or returned at once. */
  lemma PoppedIsDelivered(s: State, ring: Ring.State, t: Tid, slot: Ring.Slot)
    requires Delivered(s) && t in s.pcs && forall u | u in s.pcs :: !Carrying(s.pcs[u])
    requires ring.taken == s.ring.taken + [slot]
    ensures Delivered(Goto(s.(ring := ring), t, RecvBump(slot)))
    ensures Delivered(Goto(s.(ring := ring, log := Receive(s.log, slot)), t, Idle(Received(slot))))
  {
    assert Carrying(Goto(s.(ring := ring), t, RecvBump(slot)).pcs[t]);
  }

  /** While nobody carries a message, a pop either leaves everything alone or starts to deliver one. */
  lemma PopKeepsDelivered(s: State, t: Tid, pc: Pc, spurious: bool)
    requires Delivered(s) && Popping(s, t, pc) && Ring.Enabled(s.ring, Ring.Pop(t, !pc.RecvPop?, spurious))
    requires forall u | u in s.pcs :: !Carrying(s.pcs[u])
    ensures Delivered(StepPop(s, t, pc, spurious))
  {
    hide Ring.StepPop, Delivered;
    PopTakes(s.ring, t, !pc.RecvPop?, spurious);
    var s' := StepPop(s, t, pc, spurious);
    if s'.ring.pcs[t].Popped? {
      PoppedIsDelivered(s, s'.ring, t, s'.ring.pcs[t].slot);
    } else {
      DeliveredAfter(s, t, s');
    }
  }

  lemma ReturnKeepsDelivered(s: State, t: Tid, slot: Ring.Slot)
    requires Exclusive(s) && Delivered(s) && t in s.pcs && s.pcs[t] == RecvWake(slot)
    ensures Delivered(Goto(s.(log := Receive(s.log, slot)), t, Idle(Received(slot))))
  {
    forall u | u in s.pcs && u != t ensures !Carrying(s.pcs[u]) {}
  }

  lemma RecvKeepsDelivered(s: State, t: Tid, spurious: bool, woken: Tid)
    requires Exclusive(s) && Delivered(s) && Enabled(s, Recv(t, spurious, woken))
    ensures Delivered(StepRecv(s, t, spurious, woken))
  {
    hide Ring.StepPop, Ring.Step, Ring.Enabled, GoodPick, AfterPop;
    var pc := s.pcs[t];
    if pc.RecvFinal? {
      PopKeepsDelivered(s, t, RecvFinal, spurious);
    } else if pc.RecvPop? {
      PopKeepsDelivered(s, t, RecvPop, spurious);
    } else if pc.RecvWake? {
      ReturnKeepsDelivered(s, t, pc.slot);
    } else {
      DeliveredAfter(s, t, StepRecv(s, t, spurious, woken));
    }
  }

  lemma TryRecvKeepsDelivered(s: State, t: Tid, spurious: bool)
    requires Exclusive(s) && Delivered(s) && Enabled(s, TryRecv(t, spurious))
    ensures Delivered(StepTryRecv(s, t, spurious))
  {
    hide Ring.StepPop, Ring.Step, Ring.Enabled, AfterPop;
    if s.pcs[t].TryRecvCheck? {
      DeliveredAfter(s, t, StepTryRecv(s, t, spurious));
    } else {
      PopKeepsDelivered(s, t, TryRecvPop, spurious);
    }
  }

  lemma StepKeepsDelivered(s: State, m: Move)
    requires Exclusive(s) && Delivered(s) && Enabled(s, m)
    ensures Delivered(Step(s, m))
  {
    hide Exclusive, Delivered, Ring.Step, Ring.Enabled, StepSend, StepRecv, StepTryRecv, Wake, GoodPick;
    match m
    case Send(t, h, msg, once, spurious, woken) =>
      SendKeepsDelivered(s, m);
      WakeKeepsDelivered(StepSend(s, m), woken, true);
    case Recv(t, spurious, woken) =>
      RecvKeepsDelivered(s, t, spurious, woken);
      WakeKeepsDelivered(StepRecv(s, t, spurious, woken), woken, false);
    case TryRecv(t, spurious) => TryRecvKeepsDelivered(s, t, spurious);
    case CloneSender(t, h, name) => DeliveredWithout(s, Step(s, m));
    case DropSender(t, h) => DeliveredWithout(s, Step(s, m));
    case DropReceiver(t) => DeliveredWithout(s, Step(s, m));
    case SpuriousWake(t) => DeliveredAfter(s, t, Step(s, m));
  }

  lemma RecvFollows(s: State, t: Tid, spurious: bool, woken: Tid)
    requires Enabled(s, Recv(t, spurious, woken))
    ensures var access := RingMove(s.pcs[t], Recv(t, spurious, woken));
      StepRecv(s, t, spurious, woken).ring == if access.Some? then Ring.Step(s.ring, access.value) else s.ring
  {
    hide Ring.StepPop, Ring.Enabled, GoodPick, ReceiverFree, AfterPop;
  }

  /** The ring buffer only ever makes the access that the channel's move stands for. */
  lemma RingFollows(s: State, m: Move)
    requires Enabled(s, m)
    ensures var access := RingMove(s.pcs[m.t], m);
      Step(s, m).ring == if access.Some? then Ring.Step(s.ring, access.value) else s.ring
  {
    hide Ring.StepPush, Ring.StepPop, Ring.Enabled, GoodPick, ReceiverFree, StepRecv, AfterPush, AfterPop;
    if m.Recv? {
      RecvFollows(s, m.t, m.spurious, m.woken);
    }
  }

  /** The channel's single receiver makes the ring buffer's pops one consumer's. */
  lemma OnePopper(s: State, m: Move)
    requires Wired(s) && Exclusive(s) && Enabled(s, m) && RingMove(s.pcs[m.t], m).Some?
    ensures Ring.SingleConsumer(s.ring, RingMove(s.pcs[m.t], m).value)
  {
    hide Ring.Enabled, GoodPick;
    forall u | u in s.ring.pcs && u != m.t && Ring.InPop(s.ring.pcs[u]) ensures InRecv(s.pcs[u]) {
      assert Fits(s.pcs[u], s.ring.pcs[u]);
    }
  }

  lemma StepKeepsRing(s: State, m: Move)
    requires Wired(s) && Exclusive(s) && Ring.Safe(s.ring) && Ring.OneConsumer(s.ring) && Enabled(s, m)
    ensures Ring.Safe(Step(s, m).ring) && Ring.OneConsumer(Step(s, m).ring)
  {
    hide Wired, Exclusive, Step, GoodPick, ReceiverFree,
      Ring.Safe, Ring.OneConsumer, Ring.Step, Ring.Enabled, Ring.SingleConsumer;
    RingFollows(s, m);
    var access := RingMove(s.pcs[m.t], m);
    if access.Some? {
      OnePopper(s, m);
      Ring.StepKeepsSafe(s.ring, access.value);
      Ring.StepKeepsOneConsumer(s.ring, access.value);
    }
  }

  /** With one consumer, a pop that finds nothing saw head and tail equal, or its exchange failed spuriously. */
  lemma NothingMeansDrained(r: Ring.State, t: Tid, once: bool, spurious: bool)
    requires Ring.OneConsumer(r) && Ring.Enabled(r, Ring.Pop(t, once, spurious))
    requires Ring.StepPop(r, t, once, spurious).pcs[t].Nothing?
    ensures r.pcs[t].PopCas? ==> spurious
    ensures !r.pcs[t].PopCas? ==> r.head == r.tail
  {
  }

  /** Once disconnected, all sender operations lack a sender to work on. */
  lemma NobodySends(s: State, m: Move)
    requires Exclusive(s) && Final(s) && s.lost < MAX_SENDER_COUNT && s.log.disconnected && Enabled(s, m)
    ensures !m.Send? && !m.CloneSender? && !m.DropSender?
  {
  }

  lemma ClaimsGrow(s: State, m: Move)
    requires Enabled(s, m)
    ensures s.ring.claimed <= Step(s, m).ring.claimed && s.lost <= Step(s, m).lost
    ensures !m.Send? ==> s.ring.claimed == Step(s, m).ring.claimed
  {
    hide GoodPick, ReceiverFree, StepSend, StepRecv, StepTryRecv, Step;
    RingFollows(s, m);
    LostGrows(s, m);
  }

  lemma LostGrows(s: State, m: Move)
    requires Enabled(s, m)
    ensures s.lost <= Step(s, m).lost
    ensures (Step(s, m).lost == s.lost && Step(s, m).senders == s.senders) || m.CloneSender? || m.DropSender?
  {
    hide GoodPick, ReceiverFree, StepSend, StepRecv, StepTryRecv, Ring.Enabled, Wake;
  }

  ghost predicate Delivers(s: State, t: Tid, s': State) {
    && t in s.pcs && s.log.received <= s'.log.received
    && (s'.log.disconnected ==> s.log.disconnected || s.pcs[t].RecvFinal?)
    && (s'.log.disconnected && !s'.log.gaveUp ==>
          && !s.log.gaveUp
          && (s.log.disconnected || (s.ring.head == s.ring.tail && s'.log.received == s.log.received)))
  }

  lemma PopDelivers(s: State, t: Tid, pc: Pc, spurious: bool)
    requires Ring.OneConsumer(s.ring) && Popping(s, t, pc) && Ring.Enabled(s.ring, Ring.Pop(t, !pc.RecvPop?, spurious))
    ensures Delivers(s, t, StepPop(s, t, pc, spurious))
  {
    hide Ring.StepPop;
    if StepPop(s, t, pc, spurious).ring.pcs[t].Nothing? {
      NothingMeansDrained(s.ring, t, !pc.RecvPop?, spurious);
    }
  }

  lemma RecvDelivers(s: State, t: Tid, spurious: bool, woken: Tid)
    requires Ring.OneConsumer(s.ring) && Enabled(s, Recv(t, spurious, woken))
    ensures Delivers(s, t, StepRecv(s, t, spurious, woken))
  {
    hide GoodPick, ReceiverFree, StepPop, Ring.OneConsumer;
    if s.pcs[t].RecvFinal? {
      PopDelivers(s, t, RecvFinal, spurious);
    } else if s.pcs[t].RecvPop? {
      PopDelivers(s, t, RecvPop, spurious);
    }
  }

  lemma StepDelivers(s: State, m: Move)
    requires Ring.OneConsumer(s.ring) && Enabled(s, m) && !m.Send?
    ensures Delivers(s, m.t, Step(s, m))
    ensures Step(s, m).log.disconnected && !s.log.disconnected ==> m.Recv?
  {
    hide GoodPick, ReceiverFree, StepRecv, StepPop, Ring.OneConsumer;
    match m
    case Recv(t, spurious, woken) => RecvDelivers(s, t, spurious, woken);
    case TryRecv(t, spurious) =>
      if !s.pcs[t].TryRecvCheck? {
        PopDelivers(s, t, TryRecvPop, spurious);
      }
    case CloneSender(t, h, name) =>
    case DropSender(t, h) =>
    case DropReceiver(t) =>
    case SpuriousWake(t) =>
  }

  lemma StepKeepsFinal(s: State, m: Move)
    requires Exclusive(s) && Counted(s) && Wired(s) && Delivered(s) && Final(s) && Enabled(s, m)
    requires Ring.Safe(s.ring) && Ring.OneConsumer(s.ring)
    requires Delivered(Step(s, m)) && Ring.Safe(Step(s, m).ring)
    ensures Final(Step(s, m))
  {
    hide GoodPick, ReceiverFree, Step, Ring.Enabled;
    ClaimsGrow(s, m);
    LostGrows(s, m);
    if s.lost < MAX_SENDER_COUNT && s.log.disconnected {
      NobodySends(s, m);
    }
    if m.Send? {
      SendsAreQuiet(s, m);
    } else {
      StepDelivers(s, m);
      if Within(Step(s, m)) {
        ReceivedAreClaimed(Step(s, m));
        NobodyElseCarries(s, m.t);
      }
    }
  }

  lemma ReceivedAreClaimed(s: State)
    requires Delivered(s) && Ring.Safe(s.ring) && Ring.Bounded(s.ring)
    ensures |s.log.received| <= |s.ring.claimed|
  {
  }

  lemma NobodyElseCarries(s: State, t: Tid)
    requires Exclusive(s) && Delivered(s)
    ensures t in s.pcs && InRecv(s.pcs[t]) && !Carrying(s.pcs[t]) ==> s.ring.taken == s.log.received
  {
  }

  lemma SendsAreQuiet(s: State, m: Move)
    requires Enabled(s, m) && m.Send?
    ensures Step(s, m).log.received == s.log.received && Step(s, m).log.disconnected == s.log.disconnected
  {
    hide GoodPick, ReceiverFree, StepSend, Ring.Enabled, Wake;
  }

  lemma HeldAfter(s: State, t: Tid, s': State)
    requires Wired(s) && OnlyMoves(s, t, s') && Ring.Frame(s.ring, t, s'.ring)
    ensures Held(s') == Held(s)[t := Holding(s'.pcs[t], s'.ring.pcs[t])]
  {
  }

  /** Calls that neither take, pass on nor hand back a message leave the ledger alone. */
  lemma LedgerStays(s: State, t: Tid, s': State)
    requires Wired(s) && OnlyMoves(s, t, s') && Ring.Frame(s.ring, t, s'.ring)
    requires Holding(s'.pcs[t], s'.ring.pcs[t]) == Holding(s.pcs[t], s.ring.pcs[t])
    requires s'.book == s.book
    requires s'.ring.claimed == s.ring.claimed
    ensures LedgerOf(s') == LedgerOf(s)
  {
    HeldAfter(s, t, s');
    assert Held(s)[t := Held(s)[t]] == Held(s);
  }

  lemma WakeKeepsLedger(s: State, woken: Tid, receiver: bool)
    requires Wired(s)
    ensures LedgerOf(Wake(s, woken, receiver)) == LedgerOf(s)
  {
    if Wake(s, woken, receiver) != s {
      LedgerStays(s, woken, Wake(s, woken, receiver));
    }
  }

  /** A call starts: it takes the message, and hands it straight back if the receiver is gone. */
  lemma StartingBalances(s: State, m: Move)
    requires Wired(s) && Balanced(LedgerOf(s)) && Enabled(s, m) && m.Send? && s.pcs[m.t].Idle?
    ensures Balanced(LedgerOf(StepSend(s, m)))
  {
    hide Ring.Enabled, GoodPick, Balanced, Wired;
    StartingIsGiving(s, m);
    var given := Give(LedgerOf(s), m.t, m.m);
    GiveBalances(LedgerOf(s), m.t, m.m);
    if s.receiverState == RECEIVER_GONE {
      RefuseBalances(given, m.t);
    }
  }

  lemma StartingIsGiving(s: State, m: Move)
    requires Wired(s) && Enabled(s, m) && m.Send? && s.pcs[m.t].Idle?
    ensures m.t in Held(s) && Held(s)[m.t].None?
    ensures var given := Give(LedgerOf(s), m.t, m.m);
      LedgerOf(StepSend(s, m)) == if s.receiverState == RECEIVER_GONE then Refuse(given, m.t) else given
  {
    hide Ring.Enabled, GoodPick;
    HeldAfter(s, m.t, StepSend(s, m));
    assert Held(s)[m.t := Some(m.m)][m.t := None] == Held(s)[m.t := None];
  }

  lemma CheckingBalances(s: State, m: Move)
    requires Wired(s) && Balanced(LedgerOf(s)) && Enabled(s, m) && m.Send? && s.pcs[m.t].SendCheck?
    ensures Balanced(LedgerOf(StepSend(s, m)))
  {
    hide Ring.Enabled, GoodPick, Balanced;
    var t, s' := m.t, StepSend(s, m);
    if s.receiverState == RECEIVER_GONE {
      HeldAfter(s, t, s');
      RefuseBalances(LedgerOf(s), t);
      assert LedgerOf(s') == Refuse(LedgerOf(s), t);
    } else {
      LedgerStays(s, t, s');
    }
  }

  /** The ring buffer accepts the message, refuses it, or goes on. */
  lemma PushingMovesLedger(s: State, t: Tid, h: nat, m: nat, once: bool, spurious: bool)
    requires Wired(s) && t in s.pcs && s.pcs[t] == SendPush(h, m, once)
    requires Ring.Enabled(s.ring, Ring.Push(t, m, once, spurious))
    ensures var s', l := StepPush(s, t, h, m, once, spurious), LedgerOf(s);
      && t in l.held
      && (if s'.ring.pcs[t].PushWrite? then l.held[t].Some? && LedgerOf(s') == Accept(l, t)
          else if s'.ring.pcs[t].Refused? && once then l.held[t].Some? && LedgerOf(s') == Refuse(l, t)
          else LedgerOf(s') == l)
  {
    hide Ring.StepPush, Ring.Enabled;
    var s' := StepPush(s, t, h, m, once, spurious);
    PushGoesOn(s.ring, t, m, once, spurious);
    PushClaims(s.ring, t, m, once, spurious);
    if s'.ring.pcs[t].PushWrite? || (s'.ring.pcs[t].Refused? && once) {
      HeldAfter(s, t, s');
    } else {
      LedgerStays(s, t, s');
    }
  }

  lemma PushingBalances(s: State, t: Tid, h: nat, m: nat, once: bool, spurious: bool)
    requires Wired(s) && Balanced(LedgerOf(s)) && t in s.pcs && s.pcs[t] == SendPush(h, m, once)
    requires Ring.Enabled(s.ring, Ring.Push(t, m, once, spurious))
    ensures Balanced(LedgerOf(StepPush(s, t, h, m, once, spurious)))
  {
    hide Ring.StepPush, Ring.Enabled, Balanced, Wired, LedgerOf, StepPush;
    PushingMovesLedger(s, t, h, m, once, spurious);
    var s' := StepPush(s, t, h, m, once, spurious);
    if s'.ring.pcs[t].PushWrite? {
      AcceptBalances(LedgerOf(s), t);
    } else if s'.ring.pcs[t].Refused? && once {
      RefuseBalances(LedgerOf(s), t);
    }
  }

  lemma SendKeepsLedger(s: State, m: Move)
    requires Wired(s) && Balanced(LedgerOf(s)) && Enabled(s, m) && m.Send?
    ensures Balanced(LedgerOf(StepSend(s, m)))
  {
    hide Ring.Enabled, GoodPick, Balanced, AfterPush;
    var t, pc := m.t, s.pcs[m.t];
    if pc.Idle? {
      StartingBalances(s, m);
    } else if pc.SendCheck? {
      CheckingBalances(s, m);
    } else if pc.SendPush? {
      PushingBalances(s, t, pc.h, pc.m, pc.once, m.spurious);
    } else {
      LedgerStays(s, t, StepSend(s, m));
    }
  }

  lemma ReceivesKeepLedger(s: State, t: Tid, s': State)
    requires Wired(s) && Wired(s') && Receives(s, t, s') && (InRecv(s.pcs[t]) || s.pcs[t].Idle?)
    requires Ring.Frame(s.ring, t, s'.ring) && s'.ring.claimed == s.ring.claimed
    ensures LedgerOf(s') == LedgerOf(s)
  {
    LedgerStays(s, t, s');
  }

  lemma StepKeepsLedger(s: State, m: Move)
    requires Wired(s) && Balanced(LedgerOf(s)) && Enabled(s, m)
    ensures Balanced(LedgerOf(Step(s, m)))
  {
    hide GoodPick, ReceiverFree, Balanced, StepSend, StepRecv, StepTryRecv, Wake, Ring.Enabled, Ring.Step;
    ClaimsGrow(s, m);
    RingFollows(s, m);
    match m
    case Send(t, h, msg, once, spurious, woken) =>
      SendKeepsLedger(s, m);
      SendKeepsWired(s, m);
      WakeKeepsLedger(StepSend(s, m), woken, true);
    case Recv(t, spurious, woken) =>
      RecvKeepsWired(s, t, spurious, woken);
      ReceivesKeepLedger(s, t, StepRecv(s, t, spurious, woken));
      WakeKeepsLedger(StepRecv(s, t, spurious, woken), woken, false);
    case TryRecv(t, spurious) =>
      TryRecvKeepsWired(s, t, spurious);
      ReceivesKeepLedger(s, t, StepTryRecv(s, t, spurious));
    case CloneSender(t, h, name) =>
      assert LedgerOf(Step(s, m)) == LedgerOf(s);
    case DropSender(t, h) =>
      assert LedgerOf(Step(s, m)) == LedgerOf(s);
    case DropReceiver(t) =>
      assert LedgerOf(Step(s, m)) == LedgerOf(s);
    case SpuriousWake(t) => LedgerStays(s, t, Step(s, m));
  }

  /** A step of a call that takes no one's notice away. */
  lemma NoticedAfter(s: State, t: Tid, s': State)
    requires Noticed(s) && OnlyMoves(s, t, s') && Ring.Frame(s.ring, t, s'.ring)
    requires Waits(s'.pcs[t]) ==> Waits(s.pcs[t])
    requires s'.pcs[t].RecvAsleep? ==> s.pcs[t].RecvAsleep? || s'.receiverState == RECEIVER_ASLEEP
    requires s'.log.announced == s.log.announced && s'.receiverState == s.receiverState
    requires s'.ring.claimed == s.ring.claimed || Announcing(s'.pcs[t], s'.ring.pcs[t])
    requires s'.receiverState == RECEIVER_ASLEEP && Announcing(s.pcs[t], s.ring.pcs[t]) ==>
               Announcing(s'.pcs[t], s'.ring.pcs[t])
    requires !s.pcs[t].NotifyWake?
    ensures Noticed(s')
  {
    if u :| u in s.pcs && u in s.ring.pcs && Announcing(s.pcs[u], s.ring.pcs[u]) {
      assert s'.receiverState == RECEIVER_ASLEEP ==> Announcing(s'.pcs[u], s'.ring.pcs[u]);
    }
    if u :| u in s.pcs && s.pcs[u].NotifyWake? {
      assert s'.pcs[u].NotifyWake?;
    }
    forall r | r in s'.pcs && Waits(s'.pcs[r]) ensures Waits(s.pcs[r]) {}
  }

  lemma PushKeepsNoticed(s: State, t: Tid, h: nat, m: nat, once: bool, spurious: bool)
    requires Wired(s) && Noticed(s) && t in s.pcs && s.pcs[t] == SendPush(h, m, once)
    requires Ring.Enabled(s.ring, Ring.Push(t, m, once, spurious))
    ensures Noticed(StepPush(s, t, h, m, once, spurious))
  {
    hide Ring.StepPush, Ring.Enabled, Noticed;
    PushGoesOn(s.ring, t, m, once, spurious);
    PushClaims(s.ring, t, m, once, spurious);
    NoticedAfter(s, t, StepPush(s, t, h, m, once, spurious));
  }

  /** The compare-exchange hands the duty to notify on to the wake. */
  lemma CasKeepsNoticed(s: State, t: Tid, h: nat)
    requires t in s.pcs
    ensures Noticed(Goto(s.(receiverState := RECEIVER_AWAKE), t, NotifyWake(h)))
  {
    assert Goto(s, t, NotifyWake(h)).pcs[t].NotifyWake?;
  }

  /** The wake finds the sleeping receiver, if there is one: afterwards nobody sleeps. */
  lemma NotifyWakesReceiver(s: State, m: Move, r: Tid)
    requires Exclusive(s) && Enabled(s, m) && m.Send? && s.pcs[m.t].NotifyWake?
    requires r in Step(s, m).pcs && Waits(Step(s, m).pcs[r])
    ensures r in s.pcs && Waits(s.pcs[r]) && Step(s, m).pcs[r].RecvWait?
  {
    hide Ring.Enabled, Ring.Step, Sends;
    assert Step(s, m) == Wake(Goto(s, m.t, Idle(Sent)), m.woken, true);
    assert r in s.pcs && Waits(s.pcs[r]);
    if s.pcs[r].RecvAsleep? {
      assert m.woken == r;
    }
  }

  lemma NotifyKeepsNoticed(s: State, m: Move)
    requires Wired(s) && Exclusive(s) && Noticed(s) && Enabled(s, m) && m.Send? && s.pcs[m.t].NotifyWake?
    ensures Noticed(Step(s, m))
  {
    hide Ring.Enabled, Ring.Step, Exclusive, GoodPick, ReceiverFree;
    var s' := Step(s, m);
    assert s' == Wake(Goto(s, m.t, Idle(Sent)), m.woken, true);
    hide Step, Enabled;
    if u :| u in s.pcs && u in s.ring.pcs && Announcing(s.pcs[u], s.ring.pcs[u]) {
      assert Announcing(s'.pcs[u], s'.ring.pcs[u]);
    }
    forall r | r in s'.pcs && Waits(s'.pcs[r]) ensures r in s.pcs && Waits(s.pcs[r]) && s'.pcs[r].RecvWait? {
      NotifyWakesReceiver(s, m, r);
    }
  }

  lemma SendKeepsNoticed(s: State, m: Move)
    requires Wired(s) && Noticed(s) && Enabled(s, m) && m.Send? && !s.pcs[m.t].NotifyWake?
    ensures Noticed(StepSend(s, m))
  {
    hide Ring.Enabled, Ring.Step, Noticed, GoodPick, AfterPush;
    var t, pc := m.t, s.pcs[m.t];
    if pc.SendPush? {
      PushKeepsNoticed(s, t, pc.h, pc.m, pc.once, m.spurious);
    } else if pc.NotifyCas? && s.receiverState == RECEIVER_ASLEEP {
      CasKeepsNoticed(s, t, pc.h);
    } else {
      NoticedAfter(s, t, StepSend(s, m));
    }
  }

  /** The receiver declares itself asleep: there is nothing new yet. */
  lemma StoreKeepsNoticed(s: State, t: Tid)
    requires Exclusive(s) && Noticed(s) && t in s.pcs && s.pcs[t].RecvStore?
    ensures Noticed(Goto(s.(receiverState := RECEIVER_ASLEEP, log := Announce(s.log, |s.ring.claimed|)), t, RecvWait))
  {
  }

  lemma ReceivesKeepNoticed(s: State, t: Tid, s': State)
    requires Noticed(s) && Receives(s, t, s') && Ring.Frame(s.ring, t, s'.ring) && s'.ring.claimed == s.ring.claimed
    requires s.pcs[t].Idle? || InRecv(s.pcs[t])
    requires Waits(s'.pcs[t]) ==> s.pcs[t].RecvWait? && s.receiverState == RECEIVER_ASLEEP
    requires s'.log.announced == s.log.announced && s'.receiverState == s.receiverState
    ensures Noticed(s')
  {
    hide Noticed;
    NoticedAfter(s, t, s');
  }

  lemma PopKeepsNoticed(s: State, t: Tid, pc: Pc, spurious: bool)
    requires Noticed(s) && Popping(s, t, pc) && Ring.Enabled(s.ring, Ring.Pop(t, !pc.RecvPop?, spurious))
    requires s.pcs[t].Idle? || InRecv(s.pcs[t])
    ensures Noticed(StepPop(s, t, pc, spurious))
  {
    hide Ring.StepPop, Ring.Enabled, Noticed;
    PopTakes(s.ring, t, !pc.RecvPop?, spurious);
    ReceivesKeepNoticed(s, t, StepPop(s, t, pc, spurious));
  }

  lemma RecvKeepsNoticed(s: State, t: Tid, spurious: bool, woken: Tid)
    requires Wired(s) && Exclusive(s) && Noticed(s) && Enabled(s, Recv(t, spurious, woken))
    ensures Noticed(StepRecv(s, t, spurious, woken))
  {
    hide Ring.Enabled, Ring.Step, AfterPop, Noticed, GoodPick, Wired, Exclusive, ReceiverFree, Receives;
    if s.pcs[t].RecvStore? {
      StoreKeepsNoticed(s, t);
    } else if s.pcs[t].RecvFinal? || s.pcs[t].RecvPop? {
      PopKeepsNoticed(s, t, s.pcs[t], spurious);
    } else {
      GoingOnKeepsNoticed(s, t, spurious, woken);
    }
  }

  lemma GoingOnKeepsNoticed(s: State, t: Tid, spurious: bool, woken: Tid)
    requires Wired(s) && Noticed(s) && Enabled(s, Recv(t, spurious, woken))
    requires !s.pcs[t].RecvStore? && !s.pcs[t].RecvFinal? && !s.pcs[t].RecvPop?
    ensures Noticed(StepRecv(s, t, spurious, woken))
  {
    var s' := StepRecv(s, t, spurious, woken);
    assert s'.ring == s.ring && Ring.Frame(s.ring, t, s'.ring);
    assert s.pcs[t].Idle? || InRecv(s.pcs[t]);
    assert Waits(s'.pcs[t]) ==> s.pcs[t].RecvWait? && s.receiverState == RECEIVER_ASLEEP;
    hide *;
    ReceivesKeepNoticed(s, t, s');
  }

  lemma WakeSenderKeepsNoticed(s: State, woken: Tid)
    requires Wired(s) && Noticed(s)
    ensures Noticed(Wake(s, woken, false))
  {
    hide Noticed;
    if Wake(s, woken, false) != s {
      NoticedAfter(s, woken, Wake(s, woken, false));
    }
  }

  lemma TryRecvKeepsNoticed(s: State, t: Tid, spurious: bool)
    requires Wired(s) && Noticed(s) && Enabled(s, TryRecv(t, spurious))
    ensures Noticed(StepTryRecv(s, t, spurious))
  {
    hide Ring.Enabled, Ring.Step, Ring.StepPop, Noticed;
    if s.pcs[t].TryRecvCheck? {
      ReceivesKeepNoticed(s, t, StepTryRecv(s, t, spurious));
    } else {
      PopKeepsNoticed(s, t, TryRecvPop, spurious);
    }
  }

  lemma StepKeepsNoticed(s: State, m: Move)
    requires Wired(s) && Exclusive(s) && Noticed(s) && Enabled(s, m)
    ensures Noticed(Step(s, m))
  {
    hide Ring.Step, Ring.Enabled, StepSend, StepRecv, StepTryRecv, Wake, GoodPick;
    match m
    case Send(t, h, msg, once, spurious, woken) =>
      if s.pcs[t].NotifyWake? {
        NotifyKeepsNoticed(s, m);
      } else {
        SendKeepsNoticed(s, m);
      }
    case Recv(t, spurious, woken) =>
      RecvKeepsNoticed(s, t, spurious, woken);
      RecvKeepsWired(s, t, spurious, woken);
      WakeSenderKeepsNoticed(StepRecv(s, t, spurious, woken), woken);
    case TryRecv(t, spurious) => TryRecvKeepsNoticed(s, t, spurious);
    case CloneSender(t, h, name) => NoticedWithout(s, Step(s, m));
    case DropSender(t, h) => NoticedWithout(s, Step(s, m));
    case DropReceiver(t) =>
    case SpuriousWake(t) => NoticedAfter(s, t, Step(s, m));
  }

  lemma NoticedWithout(s: State, s': State)
    requires Noticed(s) && s'.pcs == s.pcs && s'.ring == s.ring
    requires s'.receiverState == s.receiverState && s'.log.announced == s.log.announced
    ensures Noticed(s')
  {
    if u :| u in s.pcs && u in s.ring.pcs && Announcing(s.pcs[u], s.ring.pcs[u]) {
      assert Announcing(s'.pcs[u], s'.ring.pcs[u]);
    }
    if u :| u in s.pcs && s.pcs[u].NotifyWake? {
      assert s'.pcs[u].NotifyWake?;
    }
  }

  lemma StepKeepsInv(s: State, m: Move)
    requires Inv(s) && Enabled(s, m)
    ensures Inv(Step(s, m))
  {
    hide Wired, Exclusive, Counted, Delivered, Final, Balanced, Noticed, Ring.Safe, Ring.OneConsumer, Step, Enabled;
    StepKeepsWired(s, m);
    StepKeepsExclusive(s, m);
    StepKeepsCounted(s, m);
    StepKeepsDelivered(s, m);
    StepKeepsRing(s, m);
    StepKeepsFinal(s, m);
    StepKeepsLedger(s, m);
    StepKeepsNoticed(s, m);
  }

  lemma InitEstablishesInv(s: State)
    requires Init(s)
    ensures Inv(s)
  {
    hide Balanced;
    Ring.InitEstablishesSafe(s.ring);
    InitBalances(s);
  }

  lemma InitBalances(s: State)
    requires Init(s)
    ensures Balanced(LedgerOf(s))
  {
    forall t | t in Held(s) ensures Held(s)[t].None? {}
  }

  lemma ReachableInv(states: seq<State>, moves: seq<Move>, i: nat)
    requires IsRun(Init, Next, states, moves) && i < |states|
    ensures Inv(states[i])
  {
    hide Init, Inv, Step, Enabled;
    forall s | Init(s) ensures Inv(s) { InitEstablishesInv(s); }
    forall s, m, s' | Inv(s) && Next(s, m, s') ensures Inv(s') { StepKeepsInv(s, m); }
    Invariance(Init, Next, Inv, states, moves, i);
  }

  /** `Enabled` asks for the ring buffer's permission too, but that never holds a call up. */
  lemma RingNeverBlocks(states: seq<State>, moves: seq<Move>, i: nat, m: Move)
    requires IsRun(Init, Next, states, moves) && i < |states| && m.t in states[i].pcs
    requires RingMove(states[i].pcs[m.t], m).Some?
    ensures Ring.Enabled(states[i].ring, RingMove(states[i].pcs[m.t], m).value)
  {
    hide Init, Exclusive, Counted, Delivered, Final, Balanced, Noticed;
    ReachableInv(states, moves, i);
  }

  /** Some recv has returned Disconnected, with these messages accepted and received. */
  ghost predicate Over(s: State, accepted: seq<nat>, received: seq<Ring.Slot>) {
    && s.log.disconnected
    && (s.lost < MAX_SENDER_COUNT ==> s.ring.claimed == accepted)
    && (!s.log.gaveUp && Within(s) ==> s.log.received == received)
  }

  lemma StaysOver(s: State, m: Move, accepted: seq<nat>, received: seq<Ring.Slot>)
    requires Inv(s) && Over(s, accepted, received) && Enabled(s, m)
    ensures Over(Step(s, m), accepted, received)
  {
    hide Wired, Counted, Delivered, Balanced, Noticed, Step, GoodPick, ReceiverFree,
      Ring.Safe, Ring.OneConsumer, Ring.Enabled;
    var s' := Step(s, m);
    StepKeepsInv(s, m);
    ClaimsGrow(s, m);
    if m.Send? {
      SendsAreQuiet(s, m);
    } else {
      StepDelivers(s, m);
    }
    StepStaysDisconnected(s, m);
    if s'.lost < MAX_SENDER_COUNT {
      NobodySends(s, m);
    }
  }

  lemma StepStaysDisconnected(s: State, m: Move)
    requires Enabled(s, m)
    ensures s.log.disconnected ==> Step(s, m).log.disconnected
    ensures s.log.gaveUp ==> Step(s, m).log.gaveUp
  {
    hide GoodPick, ReceiverFree, StepSend, Ring.Enabled, Ring.StepPop, Wake;
  }

  lemma ReachableOver(states: seq<State>, moves: seq<Move>, i: nat, j: nat)
    requires IsRun(Init, Next, states, moves) && i <= j < |states| && states[i].log.disconnected
    ensures Over(states[j], states[i].ring.claimed, states[i].log.received)
  {
    var accepted, received := states[i].ring.claimed, states[i].log.received;
    assert Over(states[i], accepted, received);
    hide Init, Inv, Step, Enabled, Over;
    forall s | Init(s) ensures Inv(s) { InitEstablishesInv(s); }
    forall s, m, s' | Inv(s) && Next(s, m, s') ensures Inv(s') { StepKeepsInv(s, m); }
    forall s, m, s' | Inv(s) && Over(s, accepted, received) && Next(s, m, s') ensures Over(s', accepted, received) {
      StaysOver(s, m, accepted, received);
    }
    Stability(Init, Next, Inv, s => Over(s, accepted, received), states, moves, i, j);
  }

  /**
   A recv that returns Disconnected is right for good: from then on no sender exists, no call uses
   one, and nothing more is accepted. If no recv's last try_pop failed in its compare-exchange, the
   buffer is empty too, and one receive has returned for each message ever accepted. None of this
   needs an assumption on when slots are written.
   */
  lemma DisconnectIsFinal(states: seq<State>, moves: seq<Move>, i: nat, j: nat)
    requires IsRun(Init, Next, states, moves) && i <= j < |states|
    requires states[i].log.disconnected && states[j].lost < MAX_SENDER_COUNT
    ensures states[j].senders == {} && forall t | t in states[j].pcs :: SenderOf(states[j].pcs[t]) == None
    ensures states[j].ring.claimed == states[i].ring.claimed
    ensures !states[j].log.gaveUp && Ring.Bounded(states[j].ring) ==>
              && states[j].ring.head == states[j].ring.tail
              && |states[j].log.received| == |states[j].ring.claimed|
              && states[j].log.received == states[i].log.received == states[j].ring.taken
  {
    hide Init, Step, Enabled, Counted, Balanced, Noticed;
    ReachableInv(states, moves, j);
    ReachableOver(states, moves, i, j);
    if Ring.Bounded(states[j].ring) {
      ReceivedAreClaimed(states[j]);
    }
  }

  /**
   When such an answer is wrong: a recv that returns Disconnected leaves a message in the buffer iff
   it had already read one and its compare-exchange failed, which takes a spurious failure.
   */
  lemma DisconnectWrongIffExchangeFailed(states: seq<State>, moves: seq<Move>, i: nat, t: Tid)
    requires IsRun(Init, Next, states, moves) && i < |moves| && Within(states[i])
    requires moves[i].Recv? && moves[i].t == t && t in states[i].pcs && states[i].pcs[t].RecvFinal?
    requires t in states[i + 1].pcs && states[i + 1].pcs[t] == Idle(SendersGone)
    ensures t in states[i].ring.pcs
    ensures Ring.Queue(states[i + 1].ring) != [] <==> states[i].ring.pcs[t].PopCas?
    ensures states[i].ring.pcs[t].PopCas? ==> moves[i].spurious
    ensures states[i + 1].log.gaveUp <==> states[i].log.gaveUp || states[i].ring.pcs[t].PopCas?
  {
    hide Init, Counted, Final, Delivered, Balanced, Noticed, GoodPick, ReceiverFree, Ring.StepPop;
    ReachableInv(states, moves, i);
    assert Next(states[i], moves[i], states[i + 1]);
    var r, spurious := states[i].ring, moves[i].spurious;
    PopTakes(r, t, true, spurious);
    NothingMeansDrained(r, t, true, spurious);
    SawAMessage(r, t);
  }

  /** A pop that has read a slot did so while the buffer held a message. */
  lemma SawAMessage(r: Ring.State, t: Tid)
    requires Ring.Safe(r) && Ring.OneConsumer(r) && Ring.Bounded(r) && t in r.pcs
    ensures r.pcs[t].PopCas? ==> Ring.Queue(r) != []
    ensures r.head == r.tail <==> Ring.Queue(r) == []
  {
    assert Ring.LocalsFit(r, r.pcs[t]);
  }

  ghost predicate AllOthersIdle(s: State, r: Tid) {
    forall t | t in s.pcs && t != r :: s.pcs[t].Idle?
  }

  /** A message accepted since the receiver declared itself asleep is being brought to its notice. */
  lemma SleepingReceiverIsNotified(states: seq<State>, moves: seq<Move>, i: nat, r: Tid)
    requires IsRun(Init, Next, states, moves) && i < |states|
    requires r in states[i].pcs && states[i].pcs[r].RecvAsleep?
    requires |states[i].ring.claimed| != states[i].log.announced
    ensures SomeoneAnnouncing(states[i]) || SomeoneWaking(states[i])
  {
    ReachableInv(states, moves, i);
  }

  /**
   The only messages a blocked `recv` can be left sleeping on are those accepted before it stored
   RECEIVER_ASLEEP: once all other calls have returned, the buffer holds a message iff there was
   one in it at that store.
   */
  lemma SleepsOnMessageIff(states: seq<State>, moves: seq<Move>, i: nat, r: Tid)
    requires IsRun(Init, Next, states, moves) && i < |states| && Ring.Bounded(states[i].ring)
    requires r in states[i].pcs && states[i].pcs[r].RecvAsleep? && AllOthersIdle(states[i], r)
    ensures Ring.Queue(states[i].ring) != [] <==> states[i].log.announced > |states[i].ring.taken|
  {
    hide Init, Next, Wired, Exclusive, Counted, Delivered, Final, Balanced;
    ReachableInv(states, moves, i);
    var s := states[i];
    assert |s.ring.claimed| == s.log.announced by {
      if |s.ring.claimed| != s.log.announced {
        SleepingReceiverIsNotified(states, moves, i, r);
      }
    }
  }

  lemma ReachableClaims(states: seq<State>, moves: seq<Move>, i: nat, j: nat)
    requires IsRun(Init, Next, states, moves) && i <= j < |states|
    ensures states[i].ring.claimed <= states[j].ring.claimed
  {
    hide Init, Inv, Step, Enabled;
    var accepted := states[i].ring.claimed;
    forall s | Init(s) ensures Inv(s) { InitEstablishesInv(s); }
    forall s, m, s' | Inv(s) && Next(s, m, s') ensures Inv(s') { StepKeepsInv(s, m); }
    forall s, m, s' | Inv(s) && accepted <= s.ring.claimed && Next(s, m, s') ensures accepted <= s'.ring.claimed {
      ClaimsGrow(s, m);
    }
    Stability(Init, Next, Inv, (s: State) => accepted <= s.ring.claimed, states, moves, i, j);
  }

  /** While a try_recv is about to read `senders_count`, nobody pops. */
  lemma CheckHoldsReceiver(s: State, m: Move, t: Tid)
    requires Exclusive(s) && Enabled(s, m) && t in s.pcs && s.pcs[t].TryRecvCheck?
    ensures Step(s, m).ring.taken == s.ring.taken
  {
    hide Ring.StepPush, Ring.StepPop, Ring.Enabled, GoodPick, Step;
    RingFollows(s, m);
    var pc := s.pcs[m.t];
    if RingMove(pc, m).Some? && m.Send? {
      PushClaims(s.ring, m.t, pc.m, pc.once, m.spurious);
    }
  }

  ghost predicate ChecksSince(states: seq<State>, i: nat, j: nat, t: Tid) {
    forall l | i <= l <= j && l < |states| :: t in states[l].pcs && states[l].pcs[t].TryRecvCheck?
  }

  lemma {:induction false} NothingTakenMeanwhile(states: seq<State>, moves: seq<Move>, i: nat, j: nat, t: Tid)
    requires IsRun(Init, Next, states, moves) && i <= j < |states| && ChecksSince(states, i, j, t)
    ensures states[j].ring.taken == states[i].ring.taken
    decreases j
  {
    hide Init, Enabled, Step, Wired, Exclusive, Counted, Delivered, Final, Balanced, Noticed;
    if i < j {
      NothingTakenMeanwhile(states, moves, i, j - 1, t);
      ReachableInv(states, moves, j - 1);
      assert Next(states[j - 1], moves[j - 1], states[j - 1 + 1]);
      CheckHoldsReceiver(states[j - 1], moves[j - 1], t);
    }
  }

  /** Move `i` is the access with which the try_pop of a try_recv of thread `t` finds nothing. */
  ghost predicate FindsNothing(states: seq<State>, moves: seq<Move>, i: nat, t: Tid) {
    && |states| == |moves| + 1 && i < |moves|
    && moves[i].TryRecv? && moves[i].t == t && t in states[i].pcs && t in states[i].ring.pcs
    && states[i].pcs[t].TryRecvPop? && t in states[i + 1].pcs && states[i + 1].pcs[t].TryRecvCheck?
  }

  /** At that access the buffer was empty, unless a message had been read and the exchange failed. */
  lemma FoundNothing(states: seq<State>, moves: seq<Move>, i: nat, t: Tid)
    requires IsRun(Init, Next, states, moves) && FindsNothing(states, moves, i, t) && Ring.Bounded(states[i].ring)
    ensures states[i + 1].ring.taken == states[i].ring.taken && states[i + 1].ring.claimed == states[i].ring.claimed
    ensures states[i].ring.pcs[t].PopCas? ==> moves[i].spurious
    ensures states[i].ring.head == |states[i].ring.claimed| && states[i].ring.tail == |states[i].ring.taken|
    ensures if states[i].ring.pcs[t].PopCas? then states[i].ring.tail < states[i].ring.head
            else states[i].ring.tail == states[i].ring.head
  {
    hide Init, Counted, Final, Delivered, Balanced, Noticed, GoodPick, ReceiverFree, Ring.StepPop;
    ReachableInv(states, moves, i);
    assert Next(states[i], moves[i], states[i + 1]);
    var r, spurious := states[i].ring, moves[i].spurious;
    PopTakes(r, t, true, spurious);
    NothingMeansDrained(r, t, true, spurious);
    assert Ring.LocalsFit(r, r.pcs[t]);
  }

  /**
   What a try_recv that found nothing leaves behind when it answers: there is a message in the buffer
   iff one was accepted after it looked, or its exchange failed, which takes a spurious failure. This
   holds for both answers, so it says exactly when Disconnected is wrong.
   */
  lemma TryRecvMissesIff(states: seq<State>, moves: seq<Move>, i: nat, j: nat, t: Tid)
    requires IsRun(Init, Next, states, moves) && i < j < |states| && Ring.Bounded(states[j].ring)
    requires FindsNothing(states, moves, i, t) && ChecksSince(states, i + 1, j, t)
    ensures Ring.Queue(states[j].ring) != [] <==>
              |states[j].ring.claimed| > |states[i].ring.claimed| || states[i].ring.pcs[t].PopCas?
    ensures states[i].ring.pcs[t].PopCas? ==> moves[i].spurious
  {
    hide Init, Next, Enabled, Step, Wired, Exclusive, Counted, Delivered, Final, Balanced, Noticed;
    ReachableClaims(states, moves, i, j);
    FoundNothing(states, moves, i, t);
    NothingTakenMeanwhile(states, moves, i + 1, j, t);
  }

  /** The access after that answers Disconnected iff it reads that no sender is left, else BufferEmpty. */
  lemma TryRecvAnswers(states: seq<State>, moves: seq<Move>, j: nat, t: Tid)
    requires IsRun(Init, Next, states, moves) && j < |moves| && moves[j].TryRecv? && moves[j].t == t
    requires t in states[j].pcs && states[j].pcs[t].TryRecvCheck?
    ensures t in states[j + 1].pcs && states[j + 1].ring == states[j].ring
    ensures states[j + 1].pcs[t] == Idle(if states[j].sendersCount == 0 then SendersGone else BufferEmpty)
    ensures states[j].lost < MAX_SENDER_COUNT && states[j + 1].pcs[t] == Idle(SendersGone) ==> states[j].senders == {}
  {
    hide Init, Wired, Exclusive, Final, Delivered, Balanced, Noticed, GoodPick, ReceiverFree, Ring.Enabled;
    ReachableInv(states, moves, j);
    assert Next(states[j], moves[j], states[j + 1]);
  }

  /** Without senders there are no calls of send, so nothing changes in what was accepted. */
  lemma NoSendersNoClaims(s: State, m: Move)
    requires Exclusive(s) && Enabled(s, m) && s.senders == {}
    ensures Step(s, m).senders == {} && Step(s, m).ring.claimed == s.ring.claimed
  {
    hide GoodPick, ReceiverFree, Ring.Enabled, Step;
    ClaimsGrow(s, m);
    LostGrows(s, m);
  }

  lemma NoSendersStays(states: seq<State>, moves: seq<Move>, i: nat, j: nat)
    requires IsRun(Init, Next, states, moves) && i <= j < |states| && states[i].senders == {}
    ensures states[j].senders == {} && states[j].ring.claimed == states[i].ring.claimed
  {
    hide Init, Enabled, Step, Wired, Exclusive, Counted, Delivered, Final, Balanced, Noticed,
      Ring.Safe, Ring.OneConsumer;
    var accepted := states[i].ring.claimed;
    var over := (s: State) => s.senders == {} && s.ring.claimed == accepted;
    forall s | Init(s) ensures Inv(s) { InitEstablishesInv(s); }
    forall s, m, s' | Inv(s) && Next(s, m, s') ensures Inv(s') { StepKeepsInv(s, m); }
    forall s, m, s' | Inv(s) && over(s) && Next(s, m, s') ensures over(s') { NoSendersNoClaims(s, m); }
    Stability(Init, Next, Inv, over, states, moves, i, j);
  }

  /**
   A caller who knows that all senders are gone before it calls try_recv can rely on the answer: then
   the buffer is empty when the call answers, unless its exchange failed spuriously.
   */
  lemma TryRecvRightWithoutSenders(states: seq<State>, moves: seq<Move>, b: nat, i: nat, j: nat, t: Tid)
    requires IsRun(Init, Next, states, moves) && b <= i < j < |states| && Ring.Bounded(states[j].ring)
    requires states[b].senders == {}
    requires FindsNothing(states, moves, i, t) && ChecksSince(states, i + 1, j, t)
    ensures Ring.Queue(states[j].ring) == [] <==> !states[i].ring.pcs[t].PopCas?
    ensures states[i].ring.pcs[t].PopCas? ==> moves[i].spurious
  {
    hide Init, Next;
    NoSendersStays(states, moves, b, i);
    NoSendersStays(states, moves, b, j);
    TryRecvMissesIff(states, moves, i, j, t);
  }

  /** Runs in which the ring buffer's slots are read only once written. */
  ghost predicate NextPublished(s: State, m: Move, s': State) {
    && Next(s, m, s')
    && (RingMove(s.pcs[m.t], m).Some? ==> Ring.Published(s.ring, RingMove(s.pcs[m.t], m).value))
  }

  lemma PublishedRunsAreRuns(states: seq<State>, moves: seq<Move>)
    requires IsRun(Init, NextPublished, states, moves)
    ensures IsRun(Init, Next, states, moves)
  {
    hide Init, Next;
    forall i | 0 <= i < |moves| ensures Next(states[i], moves[i], states[i + 1]) {
      assert NextPublished(states[i], moves[i], states[i + 1]);
    }
  }

  ghost predicate InvPublished(s: State) {
    Inv(s) && Ring.Fifo(s.ring)
  }

  lemma StepKeepsInvPublished(s: State, m: Move, s': State)
    requires InvPublished(s) && NextPublished(s, m, s')
    ensures InvPublished(s')
  {
    hide Noticed, Wired, Exclusive, Counted, Delivered, Final, Balanced, Ring.Safe, Ring.OneConsumer, Step, Ring.Step,
      GoodPick, ReceiverFree, Ring.Enabled, Ring.Fifo, Ring.SingleConsumer, Ring.Published;
    StepKeepsInv(s, m);
    RingFollows(s, m);
    var access := RingMove(s.pcs[m.t], m);
    if access.Some? {
      OnePopper(s, m);
      Ring.StepKeepsFifo(s.ring, access.value);
    }
  }

  lemma InitEstablishesInvPublished(s: State)
    requires Init(s)
    ensures InvPublished(s)
  {
    hide Balanced, Noticed, Wired, Exclusive, Counted, Delivered, Final;
    InitEstablishesInv(s);
  }

  lemma ReachableInvPublished(states: seq<State>, moves: seq<Move>, i: nat)
    requires IsRun(Init, NextPublished, states, moves) && i < |states|
    ensures InvPublished(states[i])
  {
    hide Init, InvPublished, NextPublished;
    forall s | Init(s) ensures InvPublished(s) { InitEstablishesInvPublished(s); }
    forall s, m, s' | InvPublished(s) && NextPublished(s, m, s') ensures InvPublished(s') {
      StepKeepsInvPublished(s, m, s');
    }
    Invariance(Init, NextPublished, InvPublished, states, moves, i);
  }

  /** Message `m` has been popped, as the `k`-th of all. */
  ghost predicate PoppedAs(s: State, m: nat, k: nat) {
    k < |s.ring.taken| && s.ring.taken[k].Filled? && s.ring.taken[k].value == m
  }

  /** In how many of its possible places a message is. */
  ghost function Places(s: State, m: nat): nat {
    Bit(Someone(LedgerOf(s), m)) + Bit(m in Ring.Queue(s.ring))
    + Bit(exists k: nat :: PoppedAs(s, m, k)) + Bit(m in s.book.refused)
  }

  /** In a buffer whose pops are right, having been popped and still waiting split the accepted messages. */
  lemma PoppedOrQueued(s: State, m: nat)
    requires Ring.Fifo(s.ring) && Ring.Bounded(s.ring)
    ensures forall k: nat :: PoppedAs(s, m, k) <==> k < |s.ring.taken| && s.ring.claimed[k] == m
    ensures m in s.ring.claimed <==> m in Ring.Queue(s.ring) || exists k: nat :: PoppedAs(s, m, k)
  {
    forall k: nat ensures PoppedAs(s, m, k) <==> k < |s.ring.taken| && s.ring.claimed[k] == m {
      if k < |s.ring.taken| {
        assert s.ring.taken[k] == Ring.Filled(k, s.ring.claimed[k]);
      }
    }
    if m in s.ring.claimed {
      var k: nat :| k < |s.ring.claimed| && s.ring.claimed[k] == m;
      if k < |s.ring.taken| {
        assert PoppedAs(s, m, k);
      } else {
        assert Ring.Queue(s.ring)[k - |s.ring.taken|] == m;
      }
    }
  }

  lemma OnePlace(s: State, m: nat)
    requires Ring.Fifo(s.ring) && Ring.Bounded(s.ring) && Conserved(LedgerOf(s))
    ensures Places(s, m) == Bit(m in s.book.given)
    ensures forall t, u | t in Held(s) && u in Held(s) && Held(s)[t] == Some(m) == Held(s)[u] :: t == u
    ensures forall j: nat, k: nat | PoppedAs(s, m, j) && PoppedAs(s, m, k) :: j == k
  {
    PoppedOrQueued(s, m);
    hide Ring.Fifo;
    if m in Ring.Queue(s.ring) {
      var q: nat :| q < |Ring.Queue(s.ring)| && Ring.Queue(s.ring)[q] == m;
      assert s.ring.claimed[|s.ring.taken| + q] == m;
    }
  }

  /**
   Conservation: at every moment, a message that was given to send or try_send is in exactly one
   place, and one that was not is in none. The places are a call that still holds it, the buffer, the
   pops, and the errors handed back; one call at most holds it, and it was popped at most once.
   */
  lemma EveryMessageInOnePlace(states: seq<State>, moves: seq<Move>, i: nat, m: nat)
    requires IsRun(Init, NextPublished, states, moves) && i < |states| && Ring.Bounded(states[i].ring)
    ensures Places(states[i], m) == Bit(m in states[i].book.given)
    ensures forall t, u | t in Held(states[i]) && u in Held(states[i])
                       && Held(states[i])[t] == Some(m) == Held(states[i])[u] :: t == u
    ensures forall j: nat, k: nat | PoppedAs(states[i], m, j) && PoppedAs(states[i], m, k) :: j == k
  {
    hide Init, NextPublished, Noticed, Wired, Exclusive, Counted, Delivered, Final, Ordered, Conserved, Ring.Fifo;
    ReachableInvPublished(states, moves, i);
    OnePlace(states[i], m);
  }

  /**
   What receives return is what was accepted, in that order and without gaps, except for at most one
   message that a recv has popped and is about to return.
   */
  lemma ReceivedInAcceptOrder(states: seq<State>, moves: seq<Move>, i: nat)
    requires IsRun(Init, NextPublished, states, moves) && i < |states| && Ring.Bounded(states[i].ring)
    ensures |states[i].log.received| <= |states[i].ring.taken| <= |states[i].log.received| + 1
    ensures |states[i].log.received| <= |states[i].ring.claimed|
    ensures forall k: nat | k < |states[i].log.received| ::
              states[i].log.received[k] == Ring.Filled(k, states[i].ring.claimed[k])
  {
    hide Init, NextPublished, Noticed, Wired, Exclusive, Counted, Final, Balanced;
    ReachableInvPublished(states, moves, i);
    ReceivedAreClaimed(states[i]);
    forall k: nat | k < |states[i].log.received| ensures states[i].log.received[k] == states[i].ring.taken[k] {}
  }

  /** In such runs a recv that ends without giving up has left nothing behind: every accepted message was returned. */
  lemma DisconnectReturnedEverything(states: seq<State>, moves: seq<Move>, i: nat, j: nat)
    requires IsRun(Init, NextPublished, states, moves) && i <= j < |states|
    requires states[i].log.disconnected && !states[j].log.gaveUp && Within(states[j])
    ensures |states[j].log.received| == |states[j].ring.claimed|
    ensures forall k: nat | k < |states[j].ring.claimed| ::
              states[j].log.received[k] == Ring.Filled(k, states[j].ring.claimed[k])
  {
    hide Init, NextPublished, Next;
    PublishedRunsAreRuns(states, moves);
    DisconnectIsFinal(states, moves, i, j);
    ReceivedInAcceptOrder(states, moves, j);
  }

  /** Runs in which, besides, no exchange of a pop fails spuriously. */
  ghost predicate NextStrong(s: State, m: Move, s': State) {
    NextPublished(s, m, s') && (m.Recv? || m.TryRecv? ==> !m.spurious)
  }

  ghost predicate InvStrong(s: State) {
    InvPublished(s) && Ring.FifoOwned(s.ring)
  }

  lemma StepKeepsInvStrong(s: State, m: Move, s': State)
    requires InvStrong(s) && NextStrong(s, m, s')
    ensures InvStrong(s')
  {
    hide Noticed, Wired, Exclusive, Counted, Delivered, Final, Balanced, Ring.Safe, Ring.OneConsumer, Step, Ring.Step,
      GoodPick, ReceiverFree, Ring.Enabled, Ring.Fifo, Ring.FifoOwned, Ring.SingleConsumer, Ring.Published;
    StepKeepsInvPublished(s, m, s');
    RingFollows(s, m);
    var access := RingMove(s.pcs[m.t], m);
    if access.Some? {
      OnePopper(s, m);
      Ring.StepKeepsOwned(s.ring, access.value);
    }
  }

  /** In these no receive throws a copy of a message away, so each message is dropped by its receiver alone. */
  lemma NoCopyIsDiscarded(states: seq<State>, moves: seq<Move>, i: nat)
    requires IsRun(Init, NextStrong, states, moves) && i < |states| && Ring.Bounded(states[i].ring)
    ensures states[i].ring.discarded == []
  {
    hide Init, InvPublished, NextPublished;
    forall s | Init(s) ensures InvStrong(s) {
      InitEstablishesInvPublished(s);
      InitOwns(s);
    }
    forall s, m, s' | InvStrong(s) && NextStrong(s, m, s') ensures InvStrong(s') { StepKeepsInvStrong(s, m, s'); }
    Invariance(Init, NextStrong, InvStrong, states, moves, i);
  }

  lemma InitOwns(s: State)
    requires Init(s)
    ensures Ring.FifoOwned(s.ring)
  {
  }

  /** Messages that one thread sent are received in the order in which it sent them. */
  lemma SenderOrder(states: seq<State>, moves: seq<Move>, i: nat, j: nat, k: nat)
    requires IsRun(Init, NextPublished, states, moves) && i < |states| && Ring.Bounded(states[i].ring)
    requires j < k < |states[i].log.received|
    ensures var s := states[i];
      && s.log.received[j].Filled? && s.log.received[k].Filled?
      && s.log.received[j].value in s.book.author && s.log.received[k].value in s.book.author
      && (s.book.author[s.log.received[j].value].0 == s.book.author[s.log.received[k].value].0 ==>
            s.book.author[s.log.received[j].value].1 < s.book.author[s.log.received[k].value].1)
  {
    hide Init, NextPublished, Noticed, Wired, Exclusive, Counted, Final, Delivered, Conserved;
    ReachableInvPublished(states, moves, i);
    ReceivedInAcceptOrder(states, moves, i);
  }

  /** A message whose send began after another one had been accepted is received after it. */
  lemma RealTimeOrder(states: seq<State>, moves: seq<Move>, i: nat, j: nat, p: nat, q: nat)
    requires IsRun(Init, NextPublished, states, moves) && i <= j < |states| && Ring.Bounded(states[j].ring)
    requires p < |states[j].log.received| && q < |states[j].log.received|
    requires states[j].log.received[p].Filled? && states[j].log.received[p].value in states[i].ring.claimed
    requires states[j].log.received[q].Filled? && states[j].log.received[q].value !in states[i].book.given
    ensures p < q
  {
    hide Init, NextPublished, Next, Noticed, Wired, Exclusive, Counted, Final, Delivered, Ordered;
    PublishedRunsAreRuns(states, moves);
    ReachableClaims(states, moves, i, j);
    ReachableInvPublished(states, moves, i);
    ReachableInvPublished(states, moves, j);
    ReceivedInAcceptOrder(states, moves, j);
    var early, late := states[i].ring.claimed, states[j].ring.claimed;
    var k: nat :| k < |early| && early[k] == states[j].log.received[p].value;
    assert late[k] == late[p];
    assert forall x :: 0 <= x < |early| ==> early[x] == late[x] && early[x] in states[i].book.given;
  }

  /** The first access of a call, or of a new round of `send`, fails iff the receiver has been dropped. */
  lemma SendFailsIffReceiverGone(states: seq<State>, moves: seq<Move>, i: nat)
    requires IsRun(Init, Next, states, moves) && i < |moves| && moves[i].Send?
    requires moves[i].t in states[i].pcs
    requires states[i].pcs[moves[i].t].Idle? || states[i].pcs[moves[i].t].SendCheck?
    ensures var s, s', t := states[i], states[i + 1], moves[i].t;
      var m := if s.pcs[t].SendCheck? then s.pcs[t].m else moves[i].m;
      && (m in s'.book.refused <==> !s.receiverAlive)
      && (m in s'.book.refused <==> s'.pcs[t].Idle?)
      && s'.ring == s.ring
  {
    hide Init, Counted, Final, Delivered, Ring.Enabled, GoodPick, ReceiverFree, Ordered;
    ReachableInv(states, moves, i);
    assert Next(states[i], moves[i], states[i + 1]);
    var s, t := states[i], moves[i].t;
    assert Held(s)[t] == Holding(s.pcs[t], s.ring.pcs[t]);
  }

  /** The message of the call of send or try_send that `m` starts or continues. */
  ghost function Message(s: State, m: Move): Option<nat> {
    if !m.Send? || m.t !in s.pcs then None
    else if s.pcs[m.t].Idle? then Some(m.m)
    else if s.pcs[m.t].SendCheck? || s.pcs[m.t].SendPush? then Some(s.pcs[m.t].m)
    else None
  }

  /** What the answer of a call says about the channel. */
  ghost predicate Truthful(s: State, m: Move, s': State, answer: Answer) {
    match answer
    case NoAnswer => false
    case Sent =>
      && m.t in s.pcs && (s.pcs[m.t].NotifyLoad? || s.pcs[m.t].NotifyCas? || s.pcs[m.t].NotifyWake?)
      && s'.book.refused == s.book.refused
    case ReceiverGone(msg) =>
      !s.receiverAlive && Message(s, m) == Some(msg) && s'.book.refused == s.book.refused + {msg}
    case BufferFull(msg) =>
      && m.Send? && m.t in s.pcs && s.pcs[m.t].SendPush? && s.pcs[m.t].once
      && Message(s, m) == Some(msg) && s'.book.refused == s.book.refused + {msg}
      && (Ring.Bounded(s.ring) ==> Ring.PushFails(s.ring, m.t, m.spurious))
    case Received(slot) => s'.log.received == s.log.received + [slot]
    case SendersGone => if m.Recv? then s'.log.disconnected else s.sendersCount == 0 && s'.log == s.log
    case BufferEmpty => s.sendersCount > 0 && s'.log == s.log
  }

  lemma SendAnswers(s: State, m: Move)
    requires Wired(s) && Exclusive(s) && Ring.Safe(s.ring) && Enabled(s, m) && m.Send?
    ensures var s' := StepSend(s, m); s'.pcs[m.t].Idle? ==> Truthful(s, m, s', s'.pcs[m.t].last)
  {
    hide Ring.Enabled, Ring.StepPush, GoodPick, ReceiverFree, Ring.PushFails, Ring.Indices;
    var t, pc := m.t, s.pcs[m.t];
    if pc.SendPush? {
      PushGoesOn(s.ring, t, pc.m, pc.once, m.spurious);
      if Ring.Bounded(s.ring) {
        RefusedFor(s.ring, t, pc.m, pc.once, m.spurious);
      }
    }
  }

  lemma RefusedFor(r: Ring.State, t: Tid, v: nat, once: bool, spurious: bool)
    requires Ring.Indices(r) && Ring.Bounded(r) && Ring.Enabled(r, Ring.Push(t, v, once, spurious))
    ensures Ring.StepPush(r, t, v, once, spurious).pcs[t].Refused? ==> Ring.PushFails(r, t, spurious)
  {
    if Ring.InPush(r.pcs[t]) {
      Ring.RefusedIffFails(r, t, v, once, spurious);
    }
  }

  lemma RecvAnswers(s: State, t: Tid, spurious: bool, woken: Tid)
    requires Enabled(s, Recv(t, spurious, woken))
    ensures var s', m := StepRecv(s, t, spurious, woken), Recv(t, spurious, woken);
      s'.pcs[t].Idle? ==> Truthful(s, m, s', s'.pcs[t].last)
  {
    hide Ring.Enabled, Ring.StepPop, GoodPick, ReceiverFree;
  }

  lemma TryRecvAnswersTruly(s: State, t: Tid, spurious: bool)
    requires Enabled(s, TryRecv(t, spurious))
    ensures var s', m := StepTryRecv(s, t, spurious), TryRecv(t, spurious);
      s'.pcs[t].Idle? ==> Truthful(s, m, s', s'.pcs[t].last)
  {
    hide Ring.Enabled, Ring.StepPop, ReceiverFree;
  }

  /** Waking somebody else changes neither the answer nor what it is about. */
  lemma WakeKeepsTruth(s: State, m: Move, s': State, woken: Tid, receiver: bool)
    requires m.t in s'.pcs && s'.pcs[m.t].Idle? && Truthful(s, m, s', s'.pcs[m.t].last)
    ensures var s'' := Wake(s', woken, receiver);
      m.t in s''.pcs && s''.pcs[m.t] == s'.pcs[m.t] && Truthful(s, m, s'', s'.pcs[m.t].last)
  {
  }

  /** Every answer is true: an error comes with the call's own message, and only for its reason. */
  lemma AnswersAreTrue(s: State, m: Move)
    requires Inv(s) && Enabled(s, m) && (m.Send? || m.Recv? || m.TryRecv?)
    ensures var s' := Step(s, m);
      m.t in s'.pcs && (s'.pcs[m.t].Idle? ==> Truthful(s, m, s', s'.pcs[m.t].last))
  {
    hide Counted, Delivered, Final, Balanced, Noticed, Ring.Safe, Ring.OneConsumer, Ring.Enabled, Wired, Exclusive,
      StepSend, StepRecv, StepTryRecv, Truthful, Wake;
    StepKeepsThread(s, m);
    match m
    case Send(t, h, msg, once, spurious, woken) =>
      SendAnswers(s, m);
      if StepSend(s, m).pcs[t].Idle? {
        WakeKeepsTruth(s, m, StepSend(s, m), woken, true);
      }
    case Recv(t, spurious, woken) =>
      RecvAnswers(s, t, spurious, woken);
      if StepRecv(s, t, spurious, woken).pcs[t].Idle? {
        WakeKeepsTruth(s, m, StepRecv(s, t, spurious, woken), woken, false);
      }
    case TryRecv(t, spurious) => TryRecvAnswersTruly(s, t, spurious);
  }

  lemma StepKeepsThread(s: State, m: Move)
    requires Enabled(s, m)
    ensures m.t in Step(s, m).pcs
  {
    hide GoodPick, ReceiverFree, Ring.Enabled, StepSend, StepRecv, StepTryRecv;
  }

  /** What a call has returned, if its thread is outside again. */
  function AnswerOf(pc: Pc): Option<Answer> {
    if pc.Idle? then Some(pc.last) else None
  }

  /** The channel: its three shared words, its ring buffer, and where every thread is. */
  class Channel {
    const ring: Ring.SharedRing
    var sendersCount: nat
    var senderWaitNum: nat
    var receiverState: nat
    var pcs: map<Tid, Pc>
    ghost var senders: set<nat>
    ghost var receiverAlive: bool
    ghost var lost: nat
    ghost var book: Book
    ghost var log: Log

    ghost function View(): State
      reads this, ring, ring.buffer
    {
      State(ring.View(), sendersCount, senderWaitNum, receiverState, senders, lost, receiverAlive, pcs, book, log)
    }

    constructor (n: nat, threads: set<Tid>, sender: nat)
      requires n % 2 == 0 && IsPow2(n)
      ensures Init(View()) && Inv(View()) && fresh(ring) && fresh(ring.buffer)
      ensures ring.buffer.Length == n && pcs.Keys == threads && senders == {sender}
    {
      ring := new Ring.SharedRing(n, threads);
      sendersCount, senderWaitNum, receiverState := 1, 0, RECEIVER_AWAKE;
      pcs := map t | t in threads :: Idle(NoAnswer);
      senders, lost, receiverAlive := {sender}, 0, true;
      book := Book({}, {}, map[], map t | t in threads :: 0);
      log := Log([], false, false, 0);
      new;
      assert pcs.Keys == threads && book.sent.Keys == threads;
      InitEstablishesInv(View());
    }

    /** The next atomic access of `send` (or of `try_send`, when `once`) in thread `t`. */
    method Send(t: Tid, h: nat, m: nat, once: bool, spurious: bool, woken: Tid) returns (answer: Option<Answer>)
      requires Inv(View()) && Enabled(View(), Move.Send(t, h, m, once, spurious, woken))
      modifies this, ring, ring.buffer
      ensures View() == Step(old(View()), Move.Send(t, h, m, once, spurious, woken)) && Inv(View())
      ensures t in pcs && answer == AnswerOf(pcs[t])
      ensures answer.Some? ==> Truthful(old(View()), Move.Send(t, h, m, once, spurious, woken), View(), answer.value)
    {
      assert Ring.Safe(ring.View());
      hide Inv, Step, Enabled, Truthful, Ring.Safe;
      StepKeepsInv(View(), Move.Send(t, h, m, once, spurious, woken));
      AnswersAreTrue(View(), Move.Send(t, h, m, once, spurious, woken));
      SendAccess(t, h, m, once, spurious, woken);
      answer := AnswerOf(pcs[t]);
    }

    /** The next atomic access of `recv` in thread `t`. */
    method Recv(t: Tid, spurious: bool, woken: Tid) returns (answer: Option<Answer>)
      requires Inv(View()) && Enabled(View(), Move.Recv(t, spurious, woken))
      modifies this, ring
      ensures View() == Step(old(View()), Move.Recv(t, spurious, woken)) && Inv(View())
      ensures t in pcs && answer == AnswerOf(pcs[t])
      ensures answer.Some? ==> Truthful(old(View()), Move.Recv(t, spurious, woken), View(), answer.value)
    {
      assert Ring.Safe(ring.View());
      hide Inv, Step, Enabled, Truthful, Ring.Safe;
      StepKeepsInv(View(), Move.Recv(t, spurious, woken));
      AnswersAreTrue(View(), Move.Recv(t, spurious, woken));
      RecvAccess(t, spurious, woken);
      answer := AnswerOf(pcs[t]);
    }

    /** The next atomic access of `try_recv` in thread `t`. */
    method TryRecv(t: Tid, spurious: bool) returns (answer: Option<Answer>)
      requires Inv(View()) && Enabled(View(), Move.TryRecv(t, spurious))
      modifies this, ring
      ensures View() == Step(old(View()), Move.TryRecv(t, spurious)) && Inv(View())
      ensures t in pcs && answer == AnswerOf(pcs[t])
      ensures answer.Some? ==> Truthful(old(View()), Move.TryRecv(t, spurious), View(), answer.value)
    {
      assert Ring.Safe(ring.View());
      hide Inv, Step, Enabled, Truthful, Ring.Safe;
      StepKeepsInv(View(), Move.TryRecv(t, spurious));
      AnswersAreTrue(View(), Move.TryRecv(t, spurious));
      TryRecvAccess(t, spurious);
      answer := AnswerOf(pcs[t]);
    }

    /** `wake_one` on the receiver's word, or on the senders'. */
    method WakeOne(woken: Tid, receiver: bool)
      modifies this`pcs
      ensures View() == Wake(old(View()), woken, receiver)
    {
      if woken in pcs && (if receiver then pcs[woken].RecvAsleep? else pcs[woken].SendAsleep?) {
        pcs := pcs[woken := Awake(pcs[woken])];
      }
    }

    /** `send` and `try_send`: load `receiver_state`. */
    method LoadReceiverState(t: Tid, h: nat, m: nat, once: bool)
      requires t in pcs
      modifies this`pcs, this`book
      ensures View() == CheckReceiver(old(View()), t, h, m, once)
    {
      if receiverState == RECEIVER_GONE {
        book := book.(refused := book.refused + {m});
        pcs := pcs[t := Idle(ReceiverGone(m))];
      } else {
        pcs := pcs[t := SendPush(h, m, once)];
      }
    }

    /** `send` and `try_send`: the next access of the ring buffer's `push` or `try_push`. */
    method PushToRing(t: Tid, spurious: bool)
      requires t in pcs && pcs[t].SendPush?
      requires Ring.Safe(ring.View()) && Ring.Enabled(ring.View(), Ring.Push(t, pcs[t].m, pcs[t].once, spurious))
      modifies this`pcs, this`book, ring, ring.buffer
      ensures View() == StepPush(old(View()), t, old(pcs[t].h), old(pcs[t].m), old(pcs[t].once), spurious)
    {
      var pc := pcs[t];
      var done := ring.Push(t, pc.m, pc.once, spurious);
      var rpc := ring.pcs[t];
      if rpc.Pushed? {
        pcs := pcs[t := NotifyLoad(pc.h)];
      } else if rpc.Refused? {
        if pc.once {
          book := book.(refused := book.refused + {rpc.v});
          pcs := pcs[t := Idle(BufferFull(rpc.v))];
        } else {
          pcs := pcs[t := RetryLoad(pc.h, rpc.v)];
        }
      }
    }

    /** The access itself, whatever state the others are in. */
    method SendAccess(t: Tid, h: nat, m: nat, once: bool, spurious: bool, woken: Tid)
      requires Ring.Safe(ring.View()) && Enabled(View(), Move.Send(t, h, m, once, spurious, woken))
      modifies this, ring, ring.buffer
      ensures View() == Step(old(View()), Move.Send(t, h, m, once, spurious, woken))
    {
      hide Ring.Step, Ring.Enabled, GoodPick, Sends, StepPush, CheckReceiver, Wake, OnlyMoves, InRecv;
      var pc := pcs[t];
      if pc.SendCheck? {
        LoadReceiverState(t, pc.h, pc.m, false);
      } else if pc.SendPush? {
        PushToRing(t, spurious);
      } else if pc.NotifyLoad? {
        pcs := pcs[t := if receiverState != RECEIVER_AWAKE then NotifyCas(pc.h) else Idle(Sent)];
      } else if pc.NotifyCas? {
        if receiverState == RECEIVER_ASLEEP {
          receiverState := RECEIVER_AWAKE;
          pcs := pcs[t := NotifyWake(pc.h)];
        } else {
          pcs := pcs[t := Idle(Sent)];
        }
      } else if pc.NotifyWake? {
        pcs := pcs[t := Idle(Sent)];
        WakeOne(woken, true);
      } else if pc.RetryLoad? {
        pcs := pcs[t := RetryWait(pc.h, pc.m, senderWaitNum)];
      } else if pc.RetryWait? {
        pcs := pcs[t := if senderWaitNum == pc.seen then SendAsleep(pc.h, pc.m) else SendCheck(pc.h, pc.m)];
      } else {
        Begin(t, m);
        LoadReceiverState(t, h, m, once);
      }
    }

    /** History only: a call of `send` or `try_send` starts. */
    ghost method Begin(t: Tid, m: nat)
      requires t in book.sent
      modifies this`book
      ensures View() == Begun(old(View()), t, m)
    {
      var b := book;
      book := Book(b.given + {m}, b.refused, b.author[m := (t, b.sent[t])], b.sent[t := b.sent[t] + 1]);
    }

    /** `recv` and `try_recv`: the next access of the ring buffer's `pop` or `try_pop`. */
    method PopFromRing(t: Tid, pc: Pc, spurious: bool)
      requires Popping(View(), t, pc) && Ring.Enabled(ring.View(), Ring.Pop(t, !pc.RecvPop?, spurious))
      requires Ring.Safe(ring.View())
      modifies this`pcs, this`log, ring
      ensures View() == StepPop(old(View()), t, pc, spurious)
    {
      ghost var failed := ring.pcs[t].PopCas?;
      var done := ring.Pop(t, !pc.RecvPop?, spurious);
      var rpc := ring.pcs[t];
      if rpc.Popped? {
        if pc.RecvPop? {
          pcs := pcs[t := RecvBump(rpc.slot)];
        } else {
          log := Receive(log, rpc.slot);
          pcs := pcs[t := Idle(Received(rpc.slot))];
        }
      } else if rpc.Nothing? {
        if pc.RecvFinal? {
          log := Disconnect(log, failed);
          pcs := pcs[t := Idle(SendersGone)];
        } else {
          pcs := pcs[t := if pc.RecvPop? then RecvStore else TryRecvCheck];
        }
      } else {
        pcs := pcs[t := pc];
      }
    }

    method RecvAccess(t: Tid, spurious: bool, woken: Tid)
      requires Ring.Safe(ring.View()) && Enabled(View(), Move.Recv(t, spurious, woken))
      modifies this, ring
      ensures View() == Step(old(View()), Move.Recv(t, spurious, woken))
    {
      hide Ring.Step, Ring.Enabled, GoodPick, ReceiverFree, Receives, AfterPop, Wake;
      var pc := pcs[t];
      if pc.RecvFinal? {
        PopFromRing(t, RecvFinal, spurious);
      } else if pc.RecvPop? {
        PopFromRing(t, RecvPop, spurious);
      } else if pc.RecvBump? {
        BumpSenders(t, pc.slot);
      } else if pc.RecvWake? {
        log := Receive(log, pc.slot);
        pcs := pcs[t := Idle(Received(pc.slot))];
        WakeOne(woken, false);
      } else if pc.RecvStore? {
        DeclareAsleep(t);
      } else if pc.RecvWait? {
        pcs := pcs[t := if receiverState == RECEIVER_ASLEEP then RecvAsleep else RecvCheck];
      } else {
        pcs := pcs[t := if sendersCount == 0 then RecvFinal else RecvPop];
      }
    }

    /** `recv` with a message: increment `sender_wait_num`. */
    method BumpSenders(t: Tid, slot: Ring.Slot)
      requires t in pcs
      modifies this`senderWaitNum, this`pcs
      ensures View() == Goto(old(View()).(senderWaitNum := AddU32(old(senderWaitNum), 1)), t, RecvWake(slot))
    {
      senderWaitNum := AddU32(senderWaitNum, 1);
      pcs := pcs[t := RecvWake(slot)];
    }

    /** `recv` with an empty buffer: store RECEIVER_ASLEEP. */
    method DeclareAsleep(t: Tid)
      requires t in pcs
      modifies this`receiverState, this`log, this`pcs
      ensures var asleep := old(View()).(receiverState := RECEIVER_ASLEEP, log := Announce(old(log), |ring.claimed|));
        View() == Goto(asleep, t, RecvWait)
    {
      receiverState, log := RECEIVER_ASLEEP, Announce(log, |ring.claimed|);
      pcs := pcs[t := RecvWait];
    }

    method TryRecvAccess(t: Tid, spurious: bool)
      requires Ring.Safe(ring.View()) && Enabled(View(), Move.TryRecv(t, spurious))
      modifies this, ring
      ensures View() == Step(old(View()), Move.TryRecv(t, spurious))
    {
      if pcs[t].TryRecvCheck? {
        pcs := pcs[t := Idle(if sendersCount == 0 then SendersGone else BufferEmpty)];
      } else {
        PopFromRing(t, TryRecvPop, spurious);
      }
    }

    /** Cloning a sender: count it, or panic if there were too many already. */
    method CloneSender(t: Tid, h: nat, name: nat) returns (panicked: bool)
      requires Inv(View()) && Enabled(View(), Move.CloneSender(t, h, name))
      modifies this
      ensures View() == Step(old(View()), Move.CloneSender(t, h, name)) && Inv(View())
      ensures panicked <==> senders == old(senders)
    {
      hide Inv, Ring.Enabled, Ring.Step, GoodPick;
      StepKeepsInv(View(), Move.CloneSender(t, h, name));
      panicked := sendersCount > MAX_SENDER_COUNT;
      sendersCount := AddUsize(sendersCount, 1);
      if panicked {
        lost := lost + 1;
      } else {
        senders := senders + {name};
      }
    }

    method DropSender(t: Tid, h: nat)
      requires Inv(View()) && Enabled(View(), Move.DropSender(t, h))
      modifies this
      ensures View() == Step(old(View()), Move.DropSender(t, h)) && Inv(View())
    {
      hide Inv, Ring.Enabled, Ring.Step, GoodPick;
      StepKeepsInv(View(), Move.DropSender(t, h));
      sendersCount := SubUsize(sendersCount, 1);
      senders := senders - {h};
    }

    method DropReceiver(t: Tid)
      requires Inv(View()) && Enabled(View(), Move.DropReceiver(t))
      modifies this
      ensures View() == Step(old(View()), Move.DropReceiver(t)) && Inv(View())
    {
      hide Inv, Ring.Enabled, Ring.Step, GoodPick;
      StepKeepsInv(View(), Move.DropReceiver(t));
      receiverState := RECEIVER_GONE;
      receiverAlive := false;
    }
  }
}
