/**
 The atomically reference-counted pointer of src/arc.rs, as seen by one allocation. Handles (`Arc`
 and `Weak` values) come and go; threads run operations on handles they borrow, under the rules
 the Rust type system enforces: `&self` may be shared, `&mut self` and `self` may not.
 */
module Arcs {
  import opened Machine
  import opened Counting
  import opened Runs

  const MAX_REF_COUNT: nat := USIZE_MAX / 2

  /** The value of `ref_count` while `get_mut` or `into_inner` keeps everybody else out. */
  const SENTINEL: nat := USIZE_MAX

  datatype Kind = Strong | Weak

  datatype Payload = Alive | Dropped | MovedOut

  /** What a call returns; `get_mut` returning Some is the position `Borrowed` instead. */
  datatype Answer =
    | NoAnswer
    | Made(name: nat)     // clone, downgrade, upgrade: the new handle
    | Refused             // upgrade, get_mut: None
    | Panicked            // downgrade, upgrade: the assertion on the count failed
    | Inner               // into_inner: Some, with the payload

  /** `h` is the handle the running call borrows or owns. */
  datatype Pc =
    | Idle(last: Answer)                   // outside; `last` is what the last call returned
    | Reading(h: nat)                      // a `&T` obtained through Deref is in use
    | DowngradeLoad(h: nat)                // downgrade: saw the sentinel, about to load `ref_count` again
    | DowngradeCas(h: nat, seen: nat)
    | Aborting(h: nat)                     // clone: the count was too high, about to abort the process
    | UpgradeCas(h: nat, seen: nat)
    | GetMutWindow(h: nat)                 // get_mut: sentinel in place, about to load `strong_count`
    | GetMutStore(h: nat, unique: bool)    // get_mut: about to store 1
    | Borrowed(h: nat)                     // get_mut returned Some: the `&mut T` is in use
    | IntoWindow(h: nat)                   // into_inner: sentinel in place, about to load `strong_count`
    | IntoStore(h: nat)                    // into_inner: not unique, about to store 1
    | IntoRead(h: nat)                     // into_inner: unique, about to move the payload out
    | IntoFree(h: nat)                     // into_inner: about to deallocate the block
    | DropStrong(h: nat)                   // failed into_inner: `self` goes out of scope, about to decrement
    | DropPayload                          // Arc::drop: was the last, about to drop the payload
    | DropImplicit                         // Arc::drop: about to release the weak that all Arcs share
    | Free                                 // Weak::drop: was the last, about to deallocate the block

  /** `drops` and `frees` count how often the payload went away and the block was deallocated. */
  datatype State = State(
    strongCount: nat,
    refCount: nat,
    payload: Payload,
    freed: bool,
    handles: map<nat, Kind>,
    pcs: map<Tid, Pc>,
    drops: nat,
    frees: nat)

  /** `h` is the handle a call starts with, `name` the name of the handle it may create. */
  datatype Move =
    | Deref(t: Tid, h: nat)
    | Clone(t: Tid, h: nat, name: nat)
    | Downgrade(t: Tid, h: nat, name: nat)
    | Upgrade(t: Tid, h: nat, name: nat)
    | GetMut(t: Tid, h: nat)
    | IntoInner(t: Tid, h: nat)
    | DropArc(t: Tid, h: nat)
    | DropWeak(t: Tid, h: nat)

  function Handle(pc: Pc): Option<nat> {
    if pc.Idle? || pc.DropPayload? || pc.DropImplicit? || pc.Free? then None else Some(pc.h)
  }

  /** Calls that take `&mut self` or `self`. */
  predicate IsClaim(pc: Pc) {
    || pc.GetMutWindow? || pc.GetMutStore? || pc.Borrowed?
    || pc.IntoWindow? || pc.IntoStore? || pc.IntoRead? || pc.IntoFree? || pc.DropStrong?
  }

  function KindOf(pc: Pc): Kind {
    if pc.UpgradeCas? then Weak else Strong
  }

  ghost predicate Init(s: State) {
    && s.strongCount == s.refCount == 1 && s.payload == Alive && !s.freed
    && |s.handles| == 1 && (forall h | h in s.handles :: s.handles[h] == Strong)
    && |s.pcs| < MAX_REF_COUNT && (forall t | t in s.pcs :: s.pcs[t] == Idle(NoAnswer))
    && s.drops == s.frees == 0
  }

  /** `&self`: nobody has the handle to itself. */
  ghost predicate CanShare(s: State, h: nat, kind: Kind) {
    && h in s.handles && s.handles[h] == kind
    && forall u | u in s.pcs && IsClaim(s.pcs[u]) :: Handle(s.pcs[u]) != Some(h)
  }

  /** `&mut self` or `self`: nobody else uses the handle at all. */
  ghost predicate CanClaim(s: State, h: nat, kind: Kind) {
    && h in s.handles && s.handles[h] == kind
    && forall u | u in s.pcs :: Handle(s.pcs[u]) != Some(h)
  }

  ghost predicate Enabled(s: State, m: Move) {
    m.t in s.pcs &&
    var pc := s.pcs[m.t];
    match m
    case Deref(t, h) => if pc.Idle? then CanShare(s, h, Strong) else pc == Reading(h)
    case Clone(t, h, name) => pc.Idle? && CanShare(s, h, Strong) && name !in s.handles
    case Downgrade(t, h, name) =>
      && name !in s.handles
      && if pc.Idle? then CanShare(s, h, Strong) else (pc.DowngradeLoad? || pc.DowngradeCas?) && pc.h == h
    case Upgrade(t, h, name) =>
      && name !in s.handles
      && if pc.Idle? then CanShare(s, h, Weak) else pc.UpgradeCas? && pc.h == h
    case GetMut(t, h) =>
      if pc.Idle? then CanClaim(s, h, Strong)
      else (pc.GetMutWindow? || pc.GetMutStore? || pc.Borrowed?) && pc.h == h
    case IntoInner(t, h) =>
      if pc.Idle? then CanClaim(s, h, Strong)
      else (pc.IntoWindow? || pc.IntoStore? || pc.IntoRead? || pc.IntoFree?) && pc.h == h
    case DropArc(t, h) =>
      if pc.Idle? then CanClaim(s, h, Strong)
      else pc == DropStrong(h) || pc.DropPayload? || pc.DropImplicit? || pc.Free?
    case DropWeak(t, h) => if pc.Idle? then CanClaim(s, h, Weak) else pc.Free?
  }

  ghost function Goto(s: State, t: Tid, pc: Pc): State {
    s.(pcs := s.pcs[t := pc])
  }

  /** The head of the loop in `downgrade`. */
  function DowngradeDispatch(h: nat, seen: nat): Pc {
    if seen == SENTINEL then DowngradeLoad(h)
    else if seen > MAX_REF_COUNT then Idle(Panicked)
    else DowngradeCas(h, seen)
  }

  /** The head of the loop in `upgrade`. */
  function UpgradeDispatch(h: nat, seen: nat): Pc {
    if seen == 0 then Idle(Refused)
    else if seen > MAX_REF_COUNT then Idle(Panicked)
    else UpgradeCas(h, seen)
  }

  ghost function StepDeref(s: State, t: Tid, h: nat): State
    requires Enabled(s, Deref(t, h))
  {
    Goto(s, t, if s.pcs[t].Idle? then Reading(h) else Idle(NoAnswer))
  }

  ghost function StepClone(s: State, t: Tid, h: nat, name: nat): State
    requires Enabled(s, Clone(t, h, name))
  {
    var counted := s.(strongCount := AddUsize(s.strongCount, 1));
    if s.strongCount > MAX_REF_COUNT then Goto(counted, t, Aborting(h))
    else Goto(counted.(handles := s.handles[name := Strong]), t, Idle(Made(name)))
  }

  ghost function StepDowngrade(s: State, t: Tid, h: nat, name: nat): State
    requires Enabled(s, Downgrade(t, h, name))
  {
    match s.pcs[t]
    case DowngradeCas(_, seen) =>
      if s.refCount == seen
      then s.(refCount := AddUsize(seen, 1), handles := s.handles[name := Weak], pcs := s.pcs[t := Idle(Made(name))])
      else Goto(s, t, DowngradeDispatch(h, s.refCount))
    case _ => Goto(s, t, DowngradeDispatch(h, s.refCount))
  }

  ghost function StepUpgrade(s: State, t: Tid, h: nat, name: nat): State
    requires Enabled(s, Upgrade(t, h, name))
  {
    match s.pcs[t]
    case Idle(_) => Goto(s, t, UpgradeDispatch(h, s.strongCount))
    case UpgradeCas(_, seen) =>
      if s.strongCount == seen
      then Goto(s.(strongCount := AddUsize(seen, 1), handles := s.handles[name := Strong]), t, Idle(Made(name)))
      else Goto(s, t, UpgradeDispatch(h, s.strongCount))
  }

  ghost function StepGetMut(s: State, t: Tid, h: nat): State
    requires Enabled(s, GetMut(t, h))
  {
    match s.pcs[t]
    case Idle(_) =>
      if s.refCount == 1 then Goto(s.(refCount := SENTINEL), t, GetMutWindow(h)) else Goto(s, t, Idle(Refused))
    case GetMutWindow(_) => Goto(s, t, GetMutStore(h, s.strongCount == 1))
    case GetMutStore(_, unique) => Goto(s.(refCount := 1), t, if unique then Borrowed(h) else Idle(Refused))
    case Borrowed(_) => Goto(s, t, Idle(NoAnswer))
  }

  ghost function StepIntoInner(s: State, t: Tid, h: nat): State
    requires Enabled(s, IntoInner(t, h))
  {
    match s.pcs[t]
    case Idle(_) =>
      if s.refCount == 1 then Goto(s.(refCount := SENTINEL), t, IntoWindow(h)) else Goto(s, t, DropStrong(h))
    case IntoWindow(_) => Goto(s, t, if s.strongCount != 1 then IntoStore(h) else IntoRead(h))
    case IntoStore(_) => Goto(s.(refCount := 1), t, DropStrong(h))
    case IntoRead(_) => Goto(s.(payload := MovedOut, drops := s.drops + 1), t, IntoFree(h))
    case IntoFree(_) => Goto(s.(freed := true, frees := s.frees + 1, handles := s.handles - {h}), t, Idle(Inner))
  }

  ghost function Deallocate(s: State, t: Tid): State {
    Goto(s.(freed := true, frees := s.frees + 1), t, Idle(NoAnswer))
  }

  ghost function StepDropArc(s: State, t: Tid, h: nat): State
    requires Enabled(s, DropArc(t, h))
  {
    match s.pcs[t]
    case DropPayload => Goto(s.(payload := Dropped, drops := s.drops + 1), t, DropImplicit)
    case DropImplicit =>
      Goto(s.(refCount := SubUsize(s.refCount, 1)), t, if s.refCount == 1 then Free else Idle(NoAnswer))
    case Free => Deallocate(s, t)
    case _ =>
      s.(strongCount := SubUsize(s.strongCount, 1), handles := s.handles - {h},
         pcs := s.pcs[t := if s.strongCount == 1 then DropPayload else Idle(NoAnswer)])
  }

  ghost function StepDropWeak(s: State, t: Tid, h: nat): State
    requires Enabled(s, DropWeak(t, h))
  {
    match s.pcs[t]
    case Idle(_) =>
      s.(refCount := SubUsize(s.refCount, 1), handles := s.handles - {h},
         pcs := s.pcs[t := if s.refCount == 1 then Free else Idle(NoAnswer)])
    case Free => Deallocate(s, t)
  }

  ghost function Step(s: State, m: Move): State
    requires Enabled(s, m)
  {
    match m
    case Deref(t, h) => StepDeref(s, t, h)
    case Clone(t, h, name) => StepClone(s, t, h, name)
    case Downgrade(t, h, name) => StepDowngrade(s, t, h, name)
    case Upgrade(t, h, name) => StepUpgrade(s, t, h, name)
    case GetMut(t, h) => StepGetMut(s, t, h)
    case IntoInner(t, h) => StepIntoInner(s, t, h)
    case DropArc(t, h) => StepDropArc(s, t, h)
    case DropWeak(t, h) => StepDropWeak(s, t, h)
  }

  ghost predicate Next(s: State, m: Move, s': State) {
    Enabled(s, m) && s' == Step(s, m)
  }

  predicate IsStrong(kind: Kind) { kind.Strong? }
  predicate IsWeak(kind: Kind) { kind.Weak? }
  predicate IsAborting(pc: Pc) { pc.Aborting? }
  predicate IsLastDrop(pc: Pc) { pc.DropPayload? || pc.DropImplicit? }
  predicate IsDropPayload(pc: Pc) { pc.DropPayload? }
  predicate IsIntoFree(pc: Pc) { pc.IntoFree? }
  predicate IsFree(pc: Pc) { pc.Free? }

  /** Between storing the sentinel and taking it away again. */
  predicate InWindow(pc: Pc) {
    pc.GetMutWindow? || pc.GetMutStore? || pc.IntoWindow? || pc.IntoStore? || pc.IntoRead? || pc.IntoFree?
  }

  /** Calls that found themselves unique and rely on it. */
  predicate IsUnique(pc: Pc) {
    (pc.GetMutStore? && pc.unique) || pc.Borrowed? || pc.IntoRead? || pc.IntoFree?
  }

  ghost function Strongs(s: State): nat { Count(s.handles, IsStrong) }
  ghost function Weaks(s: State): nat { Count(s.handles, IsWeak) }

  /** A call's handle exists, has the right kind, and is not shared if the call claimed it. */
  ghost predicate Borrows(s: State) {
    && (forall t | t in s.pcs && Handle(s.pcs[t]).Some? ::
          s.pcs[t].h in s.handles && s.handles[s.pcs[t].h] == KindOf(s.pcs[t]))
    && (forall t, u | t in s.pcs && u in s.pcs && t != u && IsClaim(s.pcs[t]) ::
          Handle(s.pcs[u]) != Handle(s.pcs[t]))
    && (forall t | t in s.pcs :: Tested(s.pcs[t]))
  }

  /** Local copies of the counters were tested before they are used. */
  predicate Tested(pc: Pc) {
    && (pc.UpgradeCas? ==> 0 < pc.seen <= MAX_REF_COUNT)
    && (pc.DowngradeCas? ==> pc.seen <= MAX_REF_COUNT)
  }

  /** Exact accounting of both counters. */
  ghost predicate Accounts(s: State) {
    && s.strongCount == Strongs(s) + Count(s.pcs, IsAborting) && Strongs(s) <= MAX_REF_COUNT + 1
    && Count(s.pcs, IsLastDrop) + Bit(s.strongCount > 0) <= 1
    && Count(s.pcs, InWindow) <= 1 && Weaks(s) <= MAX_REF_COUNT
    && (if Count(s.pcs, InWindow) == 1 then s.refCount == SENTINEL && Weaks(s) == 0
        else s.refCount == Weaks(s) + Count(s.pcs, IsLastDrop) + Bit(s.strongCount > 0))
    && Count(s.pcs, IsFree) == Bit(s.refCount == 0)
  }

  /** The payload is there as long as a strong handle may reach it, and goes away once. */
  ghost predicate Payloads(s: State) {
    && (s.payload.Alive? <==>
          (s.strongCount > 0 && Count(s.pcs, IsIntoFree) == 0) || Count(s.pcs, IsDropPayload) > 0)
    && s.drops == Bit(!s.payload.Alive?)
  }

  ghost predicate Uniques(s: State) {
    (exists t :: t in s.pcs && IsUnique(s.pcs[t])) ==>
      Strongs(s) == 1 && Count(s.pcs, IsAborting) == 0 && Weaks(s) == 0
  }

  /** After deallocation nothing is left that could touch the block. */
  ghost predicate Gone(s: State) {
    && s.handles == map[] && (forall t | t in s.pcs :: s.pcs[t].Idle?)
    && !s.payload.Alive? && s.drops == 1
  }

  ghost predicate Inv(s: State) {
    && |s.pcs| < MAX_REF_COUNT
    && s.frees == Bit(s.freed)
    && if s.freed then Gone(s) else Borrows(s) && Accounts(s) && Payloads(s) && Uniques(s)
  }

  /** The class counts after thread `t` moved to `pc`. */
  lemma PcCounts(pcs: map<Tid, Pc>, t: Tid, pc: Pc)
    requires t in pcs
    ensures |pcs[t := pc]| == |pcs|
    ensures Count(pcs[t := pc], IsAborting) == Count(pcs, IsAborting) - Bit(IsAborting(pcs[t])) + Bit(IsAborting(pc))
    ensures Count(pcs[t := pc], IsLastDrop) == Count(pcs, IsLastDrop) - Bit(IsLastDrop(pcs[t])) + Bit(IsLastDrop(pc))
    ensures Count(pcs[t := pc], IsDropPayload)
         == Count(pcs, IsDropPayload) - Bit(IsDropPayload(pcs[t])) + Bit(IsDropPayload(pc))
    ensures Count(pcs[t := pc], IsIntoFree) == Count(pcs, IsIntoFree) - Bit(IsIntoFree(pcs[t])) + Bit(IsIntoFree(pc))
    ensures Count(pcs[t := pc], IsFree) == Count(pcs, IsFree) - Bit(IsFree(pcs[t])) + Bit(IsFree(pc))
    ensures Count(pcs[t := pc], InWindow) == Count(pcs, InWindow) - Bit(InWindow(pcs[t])) + Bit(InWindow(pc))
  {
    CountUpdate(pcs, t, pc, IsAborting);
    CountUpdate(pcs, t, pc, IsLastDrop);
    CountUpdate(pcs, t, pc, IsDropPayload);
    CountUpdate(pcs, t, pc, IsIntoFree);
    CountUpdate(pcs, t, pc, IsFree);
    CountUpdate(pcs, t, pc, InWindow);
    assert |pcs[t := pc].Keys| == |pcs.Keys|;
  }

  /** Where one thread is bounds the class counts from below; some classes contain others. */
  lemma PcPresent(pcs: map<Tid, Pc>, t: Tid)
    requires t in pcs
    ensures IsAborting(pcs[t]) ==> Count(pcs, IsAborting) >= 1
    ensures IsLastDrop(pcs[t]) ==> Count(pcs, IsLastDrop) >= 1
    ensures IsDropPayload(pcs[t]) ==> Count(pcs, IsDropPayload) >= 1
    ensures IsIntoFree(pcs[t]) ==> Count(pcs, IsIntoFree) >= 1
    ensures IsFree(pcs[t]) ==> Count(pcs, IsFree) >= 1
    ensures InWindow(pcs[t]) ==> Count(pcs, InWindow) >= 1
    ensures Count(pcs, IsDropPayload) <= Count(pcs, IsLastDrop)
    ensures Count(pcs, IsIntoFree) <= Count(pcs, InWindow)
    ensures Count(pcs, IsAborting) <= |pcs|
  {
    if IsAborting(pcs[t]) { CountAtLeast(pcs, t, IsAborting); }
    if IsLastDrop(pcs[t]) { CountAtLeast(pcs, t, IsLastDrop); }
    if IsDropPayload(pcs[t]) { CountAtLeast(pcs, t, IsDropPayload); }
    if IsIntoFree(pcs[t]) { CountAtLeast(pcs, t, IsIntoFree); }
    if IsFree(pcs[t]) { CountAtLeast(pcs, t, IsFree); }
    if InWindow(pcs[t]) { CountAtLeast(pcs, t, InWindow); }
    SubsetSize(Members(pcs, IsDropPayload), Members(pcs, IsLastDrop));
    SubsetSize(Members(pcs, IsIntoFree), Members(pcs, InWindow));
    CountBound(pcs, IsAborting);
  }

  lemma HandleAdded(handles: map<nat, Kind>, h: nat, kind: Kind)
    requires h !in handles
    ensures Count(handles[h := kind], IsStrong) == Count(handles, IsStrong) + Bit(kind.Strong?)
    ensures Count(handles[h := kind], IsWeak) == Count(handles, IsWeak) + Bit(kind.Weak?)
  {
    CountInsert(handles, h, kind, IsStrong);
    CountInsert(handles, h, kind, IsWeak);
  }

  lemma HandleRemoved(handles: map<nat, Kind>, h: nat)
    requires h in handles
    ensures Count(handles - {h}, IsStrong) == Count(handles, IsStrong) - Bit(handles[h].Strong?)
    ensures Count(handles - {h}, IsWeak) == Count(handles, IsWeak) - Bit(handles[h].Weak?)
  {
    CountRemove(handles, h, IsStrong);
    CountRemove(handles, h, IsWeak);
  }

  lemma HandlePresent(handles: map<nat, Kind>, h: nat)
    requires h in handles
    ensures handles[h].Strong? ==> Count(handles, IsStrong) >= 1
    ensures handles[h].Weak? ==> Count(handles, IsWeak) >= 1
  {
    if handles[h].Strong? { CountAtLeast(handles, h, IsStrong); } else { CountAtLeast(handles, h, IsWeak); }
  }

  /** A thread that found itself unique has the only handle, and every other thread is idle. */
  lemma UniqueIsAlone(s: State, t: Tid)
    requires Inv(s) && t in s.pcs && IsUnique(s.pcs[t])
    ensures !s.freed && s.strongCount == 1
    ensures s.handles.Keys == {s.pcs[t].h}
    ensures forall u | u in s.pcs && u != t :: s.pcs[u].Idle?
  {
    var h := s.pcs[t].h;
    assert Handle(s.pcs[t]).Some? && h in s.handles;
    forall j | j in s.handles ensures j == h {
      if s.handles[j].Weak? {
        CountAtLeast(s.handles, j, IsWeak);
      } else {
        CountAtLeast(s.handles, h, IsStrong);
      }
    }
    forall u | u in s.pcs && u != t ensures s.pcs[u].Idle? {
      PcPresent(s.pcs, u);
      PcPresent(s.pcs, t);
      assert IsClaim(s.pcs[t]) && Handle(s.pcs[u]) != Handle(s.pcs[t]);
    }
  }

  /** Hence nobody else can even begin a call. */
  lemma UniqueExcludesMoves(s: State, t: Tid, m: Move)
    requires Inv(s) && t in s.pcs && IsUnique(s.pcs[t]) && Enabled(s, m)
    ensures m.t == t
  {
    UniqueIsAlone(s, t);
    assert IsClaim(s.pcs[t]) && Handle(s.pcs[t]) == Some(s.pcs[t].h);
  }

  /** Borrowing after `t` moved to `pc`, on a handle it already uses or may start to use. */
  lemma BorrowsAfterGoto(s: State, t: Tid, pc: Pc)
    requires Borrows(s) && t in s.pcs && Tested(pc)
    requires Handle(pc).Some? ==>
      || (Handle(pc) == Handle(s.pcs[t]) && (IsClaim(pc) ==> IsClaim(s.pcs[t])) && KindOf(pc) == KindOf(s.pcs[t]))
      || (!IsClaim(pc) && CanShare(s, pc.h, KindOf(pc)))
      || CanClaim(s, pc.h, KindOf(pc))
    ensures Borrows(Goto(s, t, pc))
  {
  }

  lemma BorrowsAfterRemove(s: State, t: Tid, pc: Pc, h: nat)
    requires Borrows(s) && t in s.pcs && Handle(pc).None?
    requires forall u | u in s.pcs && u != t :: Handle(s.pcs[u]) != Some(h)
    ensures Borrows(s.(handles := s.handles - {h}, pcs := s.pcs[t := pc]))
  {
  }

  /** Borrowing is a matter of handles and threads alone. */
  lemma BorrowsSame(s: State, s': State)
    requires Borrows(s) && s'.handles == s.handles && s'.pcs == s.pcs
    ensures Borrows(s')
  {
  }

  /** If nobody was unique, the only way to become so is to read `strong_count == 1` in the window. */
  lemma UniquesAfter(s: State, m: Move, s': State)
    requires Inv(s) && Enabled(s, m) && s'.pcs.Keys == s.pcs.Keys
    requires forall u | u in s.pcs && u != m.t :: s'.pcs[u] == s.pcs[u]
    requires !IsUnique(s'.pcs[m.t])
    ensures Uniques(s')
  {
    if t :| t in s'.pcs && IsUnique(s'.pcs[t]) {
      UniqueExcludesMoves(s, t, m);
    }
  }

  /** Places in the code that no counter is concerned with. */
  predicate IsPlain(pc: Pc) {
    pc.Idle? || pc.Reading? || pc.DowngradeLoad? || pc.DowngradeCas? || pc.UpgradeCas? || pc.DropStrong? || pc.Borrowed?
  }

  lemma PlainKeepsAccounts(s: State, t: Tid, pc: Pc)
    requires Accounts(s) && Payloads(s) && t in s.pcs && IsPlain(s.pcs[t]) && IsPlain(pc)
    ensures Accounts(Goto(s, t, pc)) && Payloads(Goto(s, t, pc)) && |s.pcs[t := pc]| == |s.pcs|
  {
    hide Count;
    PcCounts(s.pcs, t, pc);
  }

  lemma GotoKeepsInv(s: State, m: Move, pc: Pc)
    requires Inv(s) && Enabled(s, m) && IsPlain(s.pcs[m.t]) && IsPlain(pc) && !s.freed && !IsUnique(pc)
    requires Borrows(Goto(s, m.t, pc))
    ensures Inv(Goto(s, m.t, pc))
  {
    PlainKeepsAccounts(s, m.t, pc);
    UniquesAfter(s, m, Goto(s, m.t, pc));
  }

  lemma DerefKeepsInv(s: State, t: Tid, h: nat)
    requires Inv(s) && Enabled(s, Deref(t, h))
    ensures Inv(StepDeref(s, t, h))
  {
    hide Count, Accounts, Payloads;
    var pc := StepDeref(s, t, h).pcs[t];
    BorrowsAfterGoto(s, t, pc);
    GotoKeepsInv(s, Deref(t, h), pc);
  }

  ghost predicate NobodyUnique(s: State) {
    forall t | t in s.pcs :: !IsUnique(s.pcs[t])
  }

  /** A call on a handle that is merely shared proves that nobody is unique. */
  lemma SharedMeansNobodyUnique(s: State, m: Move)
    requires Inv(s) && Enabled(s, m) && !IsClaim(s.pcs[m.t])
    ensures NobodyUnique(s)
  {
    if t :| t in s.pcs && IsUnique(s.pcs[t]) {
      UniqueExcludesMoves(s, t, m);
    }
  }

  ghost function WithStrong(s: State, name: nat): State {
    s.(strongCount := AddUsize(s.strongCount, 1), handles := s.handles[name := Strong])
  }

  lemma WithStrongKeepsInv(s: State, name: nat)
    requires Inv(s) && !s.freed && NobodyUnique(s) && name !in s.handles
    requires 0 < s.strongCount <= MAX_REF_COUNT
    ensures Inv(WithStrong(s, name))
  {
    hide Count;
    HandleAdded(s.handles, name, Strong);
  }

  ghost function WithWeak(s: State, name: nat): State {
    s.(refCount := AddUsize(s.refCount, 1), handles := s.handles[name := Weak])
  }

  lemma WithWeakKeepsInv(s: State, name: nat)
    requires Inv(s) && !s.freed && NobodyUnique(s) && name !in s.handles
    requires 0 < s.strongCount && s.refCount <= MAX_REF_COUNT
    ensures Inv(WithWeak(s, name))
  {
    hide Count;
    HandleAdded(s.handles, name, Weak);
  }

  /** A strong handle keeps `strong_count` above zero. */
  lemma StrongHandleCounts(s: State, h: nat)
    requires Accounts(s) && h in s.handles && s.handles[h].Strong?
    ensures s.strongCount > 0
  {
    HandlePresent(s.handles, h);
  }

  lemma AbortKeepsAccounts(s: State, t: Tid, h: nat)
    requires Accounts(s) && Payloads(s) && t in s.pcs && s.pcs[t].Idle? && |s.pcs| < MAX_REF_COUNT && s.strongCount > 0
    ensures var s' := Goto(s.(strongCount := AddUsize(s.strongCount, 1)), t, Aborting(h));
      Accounts(s') && Payloads(s') && |s'.pcs| == |s.pcs|
  {
    hide Count;
    PcPresent(s.pcs, t);
    PcCounts(s.pcs, t, Aborting(h));
  }

  lemma AbortKeepsInv(s: State, t: Tid, h: nat, name: nat)
    requires Inv(s) && Enabled(s, Clone(t, h, name)) && s.strongCount > MAX_REF_COUNT
    ensures Inv(StepClone(s, t, h, name))
  {
    hide Count, Accounts, Payloads;
    AbortKeepsAccounts(s, t, h);
    BorrowsAfterGoto(s, t, Aborting(h));
    SharedMeansNobodyUnique(s, Clone(t, h, name));
  }

  lemma CloneKeepsInv(s: State, t: Tid, h: nat, name: nat)
    requires Inv(s) && Enabled(s, Clone(t, h, name))
    ensures Inv(StepClone(s, t, h, name))
  {
    if s.strongCount > MAX_REF_COUNT {
      AbortKeepsInv(s, t, h, name);
    } else {
      var made := Idle(Made(name));
      BorrowsAfterGoto(s, t, made);
      GotoKeepsInv(s, Clone(t, h, name), made);
      SharedMeansNobodyUnique(s, Clone(t, h, name));
      StrongHandleCounts(s, h);
      WithStrongKeepsInv(Goto(s, t, made), name);
    }
  }

  lemma DowngradeSucceeds(s: State, t: Tid, h: nat, name: nat)
    requires Inv(s) && Enabled(s, Downgrade(t, h, name)) && s.pcs[t] == DowngradeCas(h, s.refCount)
    ensures Inv(StepDowngrade(s, t, h, name))
  {
    hide Count;
    BorrowsAfterGoto(s, t, Idle(Made(name)));
    GotoKeepsInv(s, Downgrade(t, h, name), Idle(Made(name)));
    SharedMeansNobodyUnique(s, Downgrade(t, h, name));
    StrongHandleCounts(s, h);
    assert Tested(s.pcs[t]);
    WithWeakKeepsInv(Goto(s, t, Idle(Made(name))), name);
  }

  lemma DowngradeKeepsInv(s: State, t: Tid, h: nat, name: nat)
    requires Inv(s) && Enabled(s, Downgrade(t, h, name))
    ensures Inv(StepDowngrade(s, t, h, name))
  {
    hide Count;
    if s.pcs[t] == DowngradeCas(h, s.refCount) {
      DowngradeSucceeds(s, t, h, name);
    } else {
      var pc := DowngradeDispatch(h, s.refCount);
      BorrowsAfterGoto(s, t, pc);
      GotoKeepsInv(s, Downgrade(t, h, name), pc);
    }
  }

  lemma UpgradeKeepsInv(s: State, t: Tid, h: nat, name: nat)
    requires Inv(s) && Enabled(s, Upgrade(t, h, name))
    ensures Inv(StepUpgrade(s, t, h, name))
  {
    hide Count, Accounts, Payloads;
    var m := Upgrade(t, h, name);
    var s' := StepUpgrade(s, t, h, name);
    var pc := s'.pcs[t];
    BorrowsAfterGoto(s, t, pc);
    GotoKeepsInv(s, m, pc);
    if name in s'.handles {
      SharedMeansNobodyUnique(s, m);
      WithStrongKeepsInv(Goto(s, t, pc), name);
    }
  }

  /** Storing the sentinel: `ref_count == 1` with a strong handle around means there is no weak one. */
  lemma OpenKeepsAccounts(s: State, t: Tid, pc: Pc)
    requires Accounts(s) && Payloads(s) && t in s.pcs && s.pcs[t].Idle? && (pc.GetMutWindow? || pc.IntoWindow?)
    requires s.refCount == 1 && s.strongCount > 0
    ensures var s' := Goto(s.(refCount := SENTINEL), t, pc);
      Accounts(s') && Payloads(s') && |s'.pcs| == |s.pcs|
  {
    hide Count;
    PcCounts(s.pcs, t, pc);
  }

  lemma OpenKeepsInv(s: State, m: Move, pc: Pc)
    requires Inv(s) && Enabled(s, m) && !s.freed && s.pcs[m.t].Idle? && s.refCount == 1
    requires pc == GetMutWindow(m.h) || pc == IntoWindow(m.h)
    requires CanClaim(s, m.h, Strong)
    ensures Inv(Goto(s.(refCount := SENTINEL), m.t, pc))
  {
    hide Count, Accounts, Payloads;
    StrongHandleCounts(s, m.h);
    OpenKeepsAccounts(s, m.t, pc);
    BorrowsAfterGoto(s, m.t, pc);
    BorrowsSame(Goto(s, m.t, pc), Goto(s.(refCount := SENTINEL), m.t, pc));
    RefCountKeepsUniques(s, m, SENTINEL, pc);
  }

  lemma RefCountKeepsUniques(s: State, m: Move, refCount: nat, pc: Pc)
    requires Inv(s) && Enabled(s, m) && !IsUnique(pc)
    ensures Uniques(Goto(s.(refCount := refCount), m.t, pc))
  {
    hide Count, Accounts, Payloads, Uniques, Borrows;
    UniquesAfter(s, m, Goto(s.(refCount := refCount), m.t, pc));
  }

  /** Moves inside the window, before the payload is touched. */
  lemma InsideKeepsAccounts(s: State, t: Tid, pc: Pc)
    requires Accounts(s) && Payloads(s) && t in s.pcs && InWindow(s.pcs[t]) && InWindow(pc)
    requires !pc.IntoFree? && !s.pcs[t].IntoFree?
    ensures Accounts(Goto(s, t, pc)) && Payloads(Goto(s, t, pc)) && |s.pcs[t := pc]| == |s.pcs|
  {
    hide Count;
    PcCounts(s.pcs, t, pc);
  }

  /** Reading `strong_count == 1` in the window proves that this handle is the only one. */
  lemma LookKeepsInv(s: State, m: Move, pc: Pc)
    requires Inv(s) && Enabled(s, m) && (m.GetMut? || m.IntoInner?) && !s.freed
    requires (s.pcs[m.t] == GetMutWindow(m.h) && pc == GetMutStore(m.h, s.strongCount == 1))
          || (s.pcs[m.t] == IntoWindow(m.h) && pc == if s.strongCount != 1 then IntoStore(m.h) else IntoRead(m.h))
    ensures Inv(Goto(s, m.t, pc))
  {
    hide Count;
    InsideKeepsAccounts(s, m.t, pc);
    BorrowsAfterGoto(s, m.t, pc);
    if IsUnique(pc) {
      PcPresent(s.pcs, m.t);
      HandlePresent(s.handles, m.h);
    } else {
      UniquesAfter(s, m, Goto(s, m.t, pc));
    }
  }

  /** Storing 1 restores exactly the count of the weak that all strong handles share. */
  lemma CloseKeepsAccounts(s: State, t: Tid, pc: Pc)
    requires Accounts(s) && Payloads(s) && t in s.pcs && InWindow(s.pcs[t]) && !s.pcs[t].IntoFree? && IsPlain(pc)
    requires s.strongCount > 0
    ensures var s' := Goto(s.(refCount := 1), t, pc);
      Accounts(s') && Payloads(s') && |s'.pcs| == |s.pcs|
  {
    hide Count;
    PcPresent(s.pcs, t);
    PcCounts(s.pcs, t, pc);
  }

  lemma CloseKeepsInv(s: State, m: Move, pc: Pc)
    requires Inv(s) && Enabled(s, m) && (m.GetMut? || m.IntoInner?) && !s.freed
    requires (s.pcs[m.t] == GetMutStore(m.h, false) && pc == Idle(Refused))
          || (s.pcs[m.t].IntoStore? && pc == DropStrong(m.h))
    ensures Inv(Goto(s.(refCount := 1), m.t, pc))
  {
    hide Count, Accounts, Payloads;
    StrongHandleCounts(s, m.h);
    CloseKeepsAccounts(s, m.t, pc);
    BorrowsAfterGoto(s, m.t, pc);
    BorrowsSame(Goto(s, m.t, pc), Goto(s.(refCount := 1), m.t, pc));
    RefCountKeepsUniques(s, m, 1, pc);
  }

  /** `get_mut` returns Some: the counter is back to normal, but the handle is still alone. */
  lemma LendKeepsInv(s: State, t: Tid, h: nat)
    requires Inv(s) && Enabled(s, GetMut(t, h)) && s.pcs[t] == GetMutStore(h, true)
    ensures Inv(Goto(s.(refCount := 1), t, Borrowed(h)))
  {
    hide Count;
    UniqueIsAlone(s, t);
    CloseKeepsAccounts(s, t, Borrowed(h));
    BorrowsAfterGoto(s, t, Borrowed(h));
    PcCounts(s.pcs, t, Borrowed(h));
  }

  lemma GetMutKeepsInv(s: State, t: Tid, h: nat)
    requires Inv(s) && Enabled(s, GetMut(t, h))
    ensures Inv(StepGetMut(s, t, h))
  {
    var m := GetMut(t, h);
    match s.pcs[t]
    case Idle(_) =>
      if s.refCount == 1 {
        OpenKeepsInv(s, m, GetMutWindow(h));
      } else {
        GotoKeepsInv(s, m, Idle(Refused));
      }
    case GetMutWindow(_) => LookKeepsInv(s, m, GetMutStore(h, s.strongCount == 1));
    case GetMutStore(_, unique) =>
      if unique {
        LendKeepsInv(s, t, h);
      } else {
        CloseKeepsInv(s, m, Idle(Refused));
      }
    case Borrowed(_) =>
      BorrowsAfterGoto(s, t, Idle(NoAnswer));
      GotoKeepsInv(s, m, Idle(NoAnswer));
  }

  /** Moving the payload out of a block whose only handle this is. */
  lemma MoveOutKeepsInv(s: State, t: Tid, h: nat)
    requires Inv(s) && Enabled(s, IntoInner(t, h)) && s.pcs[t].IntoRead?
    ensures Inv(StepIntoInner(s, t, h))
  {
    UniqueIsAlone(s, t);
    PcPresent(s.pcs, t);
    PcCounts(s.pcs, t, IntoFree(h));
    BorrowsAfterGoto(s, t, IntoFree(h));
  }

  lemma IntoFreeKeepsInv(s: State, t: Tid, h: nat)
    requires Inv(s) && Enabled(s, IntoInner(t, h)) && s.pcs[t].IntoFree?
    ensures Inv(StepIntoInner(s, t, h))
  {
    UniqueIsAlone(s, t);
    PcPresent(s.pcs, t);
    assert s.pcs[t := Idle(Inner)].Keys == s.pcs.Keys;
    assert |s.pcs[t := Idle(Inner)]| == |s.pcs[t := Idle(Inner)].Keys| == |s.pcs.Keys| == |s.pcs|;
    assert s.handles - {h} == map[];
  }

  lemma IntoInnerKeepsInv(s: State, t: Tid, h: nat)
    requires Inv(s) && Enabled(s, IntoInner(t, h))
    ensures Inv(StepIntoInner(s, t, h))
  {
    var m := IntoInner(t, h);
    match s.pcs[t]
    case Idle(_) =>
      if s.refCount == 1 {
        OpenKeepsInv(s, m, IntoWindow(h));
      } else {
        BorrowsAfterGoto(s, t, DropStrong(h));
        GotoKeepsInv(s, m, DropStrong(h));
      }
    case IntoWindow(_) => LookKeepsInv(s, m, if s.strongCount != 1 then IntoStore(h) else IntoRead(h));
    case IntoStore(_) => CloseKeepsInv(s, m, DropStrong(h));
    case IntoRead(_) => MoveOutKeepsInv(s, t, h);
    case IntoFree(_) => IntoFreeKeepsInv(s, t, h);
  }

  /** Whoever keeps the window open has a strong handle of its own. */
  lemma WindowHoldsAHandle(s: State, t: Tid, h: nat)
    requires Borrows(s) && Accounts(s) && t in s.pcs && !InWindow(s.pcs[t])
    requires h in s.handles && s.handles[h].Strong?
    requires forall u | u in s.pcs && u != t :: Handle(s.pcs[u]) != Some(h)
    ensures s.strongCount == 1 ==> Count(s.pcs, InWindow) == 0
  {
    if s.strongCount == 1 {
      CountAtLeast(s.handles, h, IsStrong);
      forall u | u in s.pcs ensures !InWindow(s.pcs[u]) {
        assert Handle(s.pcs[u]).Some? ==> s.pcs[u].h in s.handles;
      }
      CountZero(s.pcs, InWindow);
    }
  }

  /** What decrementing `strong_count` does; the last one becomes responsible for the payload. */
  ghost function WithoutStrong(s: State, t: Tid, h: nat): State {
    s.(strongCount := SubUsize(s.strongCount, 1), handles := s.handles - {h},
       pcs := s.pcs[t := if s.strongCount == 1 then DropPayload else Idle(NoAnswer)])
  }

  lemma WithoutStrongKeepsAccounts(s: State, t: Tid, h: nat)
    requires Accounts(s) && Payloads(s) && t in s.pcs && IsPlain(s.pcs[t]) && |s.pcs| < MAX_REF_COUNT
    requires h in s.handles && s.handles[h].Strong?
    requires s.strongCount == 1 ==> Count(s.pcs, InWindow) == 0
    ensures var s' := WithoutStrong(s, t, h);
      Accounts(s') && Payloads(s') && |s'.pcs| == |s.pcs|
  {
    hide Count;
    PcPresent(s.pcs, t);
    HandlePresent(s.handles, h);
    HandleRemoved(s.handles, h);
    PcCounts(s.pcs, t, if s.strongCount == 1 then DropPayload else Idle(NoAnswer));
  }

  lemma OnlyUser(s: State, t: Tid, h: nat)
    requires Borrows(s) && Enabled(s, DropArc(t, h)) && (s.pcs[t].Idle? || s.pcs[t].DropStrong?)
    ensures h in s.handles && s.handles[h].Strong?
    ensures forall u | u in s.pcs && u != t :: Handle(s.pcs[u]) != Some(h)
  {
    assert s.pcs[t].DropStrong? ==> IsClaim(s.pcs[t]) && Handle(s.pcs[t]) == Some(h);
  }

  lemma WithoutStrongKeepsBorrows(s: State, t: Tid, h: nat)
    requires Borrows(s) && Enabled(s, DropArc(t, h)) && (s.pcs[t].Idle? || s.pcs[t].DropStrong?)
    ensures Borrows(WithoutStrong(s, t, h))
  {
    var pc := if s.strongCount == 1 then DropPayload else Idle(NoAnswer);
    OnlyUser(s, t, h);
    BorrowsAfterRemove(s, t, pc, h);
    BorrowsSame(s.(handles := s.handles - {h}, pcs := s.pcs[t := pc]), WithoutStrong(s, t, h));
  }

  lemma WithoutStrongKeepsInv(s: State, t: Tid, h: nat)
    requires Inv(s) && Enabled(s, DropArc(t, h)) && (s.pcs[t].Idle? || s.pcs[t].DropStrong?)
    ensures Inv(WithoutStrong(s, t, h))
  {
    hide Count, Accounts, Payloads;
    OnlyUser(s, t, h);
    WindowHoldsAHandle(s, t, h);
    WithoutStrongKeepsAccounts(s, t, h);
    WithoutStrongKeepsBorrows(s, t, h);
    UniquesAfter(s, DropArc(t, h), WithoutStrong(s, t, h));
  }

  lemma DropPayloadKeepsAccounts(s: State, t: Tid)
    requires Accounts(s) && Payloads(s) && t in s.pcs && s.pcs[t].DropPayload?
    ensures var s' := Goto(s.(payload := Dropped, drops := s.drops + 1), t, DropImplicit);
      Accounts(s') && Payloads(s') && |s'.pcs| == |s.pcs|
  {
    hide Count;
    PcPresent(s.pcs, t);
    PcCounts(s.pcs, t, DropImplicit);
  }

  lemma DropPayloadKeepsInv(s: State, t: Tid, h: nat)
    requires Inv(s) && Enabled(s, DropArc(t, h)) && s.pcs[t].DropPayload?
    ensures Inv(Goto(s.(payload := Dropped, drops := s.drops + 1), t, DropImplicit))
  {
    hide Count;
    var s' := Goto(s.(payload := Dropped, drops := s.drops + 1), t, DropImplicit);
    DropPayloadKeepsAccounts(s, t);
    BorrowsAfterGoto(s, t, DropImplicit);
    BorrowsSame(Goto(s, t, DropImplicit), s');
    UniquesAfter(s, DropArc(t, h), s');
  }

  lemma DropImplicitKeepsAccounts(s: State, t: Tid)
    requires Accounts(s) && Payloads(s) && t in s.pcs && s.pcs[t].DropImplicit?
    requires Count(s.pcs, InWindow) == 0
    ensures var pc := if s.refCount == 1 then Free else Idle(NoAnswer);
      var s' := Goto(s.(refCount := SubUsize(s.refCount, 1)), t, pc);
      Accounts(s') && Payloads(s') && |s'.pcs| == |s.pcs|
  {
    hide Count;
    PcPresent(s.pcs, t);
    PcCounts(s.pcs, t, if s.refCount == 1 then Free else Idle(NoAnswer));
  }

  /** Without strong handles nobody can be in the window. */
  lemma NoStrongNoWindow(s: State, t: Tid)
    requires Borrows(s) && Accounts(s) && t in s.pcs && IsLastDrop(s.pcs[t])
    ensures Count(s.pcs, InWindow) == 0
  {
    PcPresent(s.pcs, t);
    CountZero(s.pcs, InWindow);
    forall u | u in s.pcs ensures !InWindow(s.pcs[u]) {
      if InWindow(s.pcs[u]) {
        assert Handle(s.pcs[u]) == Some(s.pcs[u].h);
        HandlePresent(s.handles, s.pcs[u].h);
      }
    }
  }

  lemma DropImplicitKeepsInv(s: State, t: Tid, h: nat)
    requires Inv(s) && Enabled(s, DropArc(t, h)) && s.pcs[t].DropImplicit?
    ensures var pc := if s.refCount == 1 then Free else Idle(NoAnswer);
      Inv(Goto(s.(refCount := SubUsize(s.refCount, 1)), t, pc))
  {
    hide Count, Accounts, Payloads;
    var pc := if s.refCount == 1 then Free else Idle(NoAnswer);
    var s' := Goto(s.(refCount := SubUsize(s.refCount, 1)), t, pc);
    NoStrongNoWindow(s, t);
    DropImplicitKeepsAccounts(s, t);
    BorrowsAfterGoto(s, t, pc);
    BorrowsSame(Goto(s, t, pc), s');
    RefCountKeepsUniques(s, DropArc(t, h), SubUsize(s.refCount, 1), pc);
  }

  /** Deallocation happens when nothing is left: no handle, no other call in progress. */
  lemma DeallocateKeepsInv(s: State, t: Tid)
    requires Inv(s) && !s.freed && t in s.pcs && s.pcs[t].Free?
    ensures Inv(Deallocate(s, t))
  {
    PcPresent(s.pcs, t);
    CountAtLeast(s.pcs, t, IsFree);
    assert forall h | h in s.handles :: false by {
      forall h | h in s.handles ensures false {
        HandlePresent(s.handles, h);
      }
    }
    forall u | u in s.pcs && u != t ensures s.pcs[u].Idle? {
      PcPresent(s.pcs, u);
    }
    assert s.handles == map[];
    assert |s.pcs[t := Idle(NoAnswer)].Keys| == |s.pcs.Keys|;
  }

  lemma DropArcKeepsInv(s: State, t: Tid, h: nat)
    requires Inv(s) && Enabled(s, DropArc(t, h))
    ensures Inv(StepDropArc(s, t, h))
  {
    hide Borrows, Accounts, Payloads, Uniques;
    match s.pcs[t]
    case DropPayload => DropPayloadKeepsInv(s, t, h);
    case DropImplicit => DropImplicitKeepsInv(s, t, h);
    case Free => DeallocateKeepsInv(s, t);
    case Idle(_) => WithoutStrongKeepsInv(s, t, h);
    case DropStrong(_) => WithoutStrongKeepsInv(s, t, h);
  }

  ghost function WithoutWeak(s: State, t: Tid, h: nat): State {
    s.(refCount := SubUsize(s.refCount, 1), handles := s.handles - {h},
       pcs := s.pcs[t := if s.refCount == 1 then Free else Idle(NoAnswer)])
  }

  /** A weak handle proves that the window is closed, so the decrement hits a real count. */
  lemma WithoutWeakKeepsAccounts(s: State, t: Tid, h: nat)
    requires Accounts(s) && Payloads(s) && t in s.pcs && s.pcs[t].Idle?
    requires h in s.handles && s.handles[h].Weak?
    ensures var s' := WithoutWeak(s, t, h);
      Accounts(s') && Payloads(s') && |s'.pcs| == |s.pcs|
  {
    hide Count;
    HandlePresent(s.handles, h);
    HandleRemoved(s.handles, h);
    PcCounts(s.pcs, t, if s.refCount == 1 then Free else Idle(NoAnswer));
  }

  lemma WithoutWeakKeepsInv(s: State, t: Tid, h: nat)
    requires Inv(s) && Enabled(s, DropWeak(t, h)) && s.pcs[t].Idle?
    ensures Inv(WithoutWeak(s, t, h))
  {
    hide Count, Accounts, Payloads;
    var pc := if s.refCount == 1 then Free else Idle(NoAnswer);
    var s' := WithoutWeak(s, t, h);
    WithoutWeakKeepsAccounts(s, t, h);
    BorrowsAfterRemove(s, t, pc, h);
    BorrowsSame(s.(handles := s.handles - {h}, pcs := s.pcs[t := pc]), s');
    UniquesAfter(s, DropWeak(t, h), s');
  }

  lemma DropWeakKeepsInv(s: State, t: Tid, h: nat)
    requires Inv(s) && Enabled(s, DropWeak(t, h))
    ensures Inv(StepDropWeak(s, t, h))
  {
    if s.pcs[t].Free? {
      DeallocateKeepsInv(s, t);
    } else {
      WithoutWeakKeepsInv(s, t, h);
    }
  }

  lemma StepKeepsInv(s: State, m: Move)
    requires Inv(s) && Enabled(s, m)
    ensures Inv(Step(s, m))
  {
    match m
    case Deref(t, h) => DerefKeepsInv(s, t, h);
    case Clone(t, h, name) => CloneKeepsInv(s, t, h, name);
    case Downgrade(t, h, name) => DowngradeKeepsInv(s, t, h, name);
    case Upgrade(t, h, name) => UpgradeKeepsInv(s, t, h, name);
    case GetMut(t, h) => GetMutKeepsInv(s, t, h);
    case IntoInner(t, h) => IntoInnerKeepsInv(s, t, h);
    case DropArc(t, h) => DropArcKeepsInv(s, t, h);
    case DropWeak(t, h) => DropWeakKeepsInv(s, t, h);
  }

  lemma InitEstablishesInv(s: State)
    requires Init(s)
    ensures Inv(s)
  {
    CountZero(s.pcs, IsAborting);
    CountZero(s.pcs, IsLastDrop);
    CountZero(s.pcs, IsDropPayload);
    CountZero(s.pcs, IsIntoFree);
    CountZero(s.pcs, IsFree);
    CountZero(s.pcs, InWindow);
    CountZero(s.handles, IsWeak);
    assert Members(s.handles, IsStrong) == s.handles.Keys;
  }

  lemma InvIsInductive()
    ensures forall s | Init(s) :: Inv(s)
    ensures forall s, m, s' | Inv(s) && Next(s, m, s') :: Inv(s')
  {
    forall s | Init(s) ensures Inv(s) { InitEstablishesInv(s); }
    forall s, m, s' | Inv(s) && Next(s, m, s') ensures Inv(s') { StepKeepsInv(s, m); }
  }

  lemma ReachableInv(states: seq<State>, moves: seq<Move>, i: nat)
    requires IsRun(Init, Next, states, moves) && i < |states|
    ensures Inv(states[i])
  {
    InvIsInductive();
    Invariance(Init, Next, Inv, states, moves, i);
  }

  /** Both counters are exact in every reachable state, and the sentinel stands for an open window. */
  lemma CountersAreExact(states: seq<State>, moves: seq<Move>, i: nat)
    requires IsRun(Init, Next, states, moves) && i < |states| && !states[i].freed
    ensures var s := states[i];
      && s.strongCount == Strongs(s) + Count(s.pcs, IsAborting)
      && (s.refCount == SENTINEL <==> Count(s.pcs, InWindow) == 1)
      && (s.refCount != SENTINEL ==> s.refCount == Weaks(s) + Bit(s.strongCount > 0 || Count(s.pcs, IsLastDrop) > 0))
  {
    ReachableInv(states, moves, i);
  }

  /** While the sentinel is in place there is one window, no weak handle, and so nobody upgrading one. */
  lemma WindowExcludesWeaks(states: seq<State>, moves: seq<Move>, i: nat, t: Tid)
    requires IsRun(Init, Next, states, moves) && i < |states|
    requires t in states[i].pcs && InWindow(states[i].pcs[t])
    ensures states[i].refCount == SENTINEL
    ensures forall u | u in states[i].pcs && InWindow(states[i].pcs[u]) :: u == t
    ensures forall h | h in states[i].handles :: states[i].handles[h].Strong?
    ensures forall u | u in states[i].pcs :: !states[i].pcs[u].UpgradeCas?
  {
    ReachableInv(states, moves, i);
    var s := states[i];
    CountAtLeast(s.pcs, t, InWindow);
    CountZero(s.handles, IsWeak);
    forall h | h in s.handles ensures s.handles[h].Strong? {
      assert !IsWeak(s.handles[h]);
    }
    forall u | u in s.pcs ensures !s.pcs[u].UpgradeCas? {
      assert Handle(s.pcs[u]).Some? ==> s.handles[s.pcs[u].h] == KindOf(s.pcs[u]);
    }
  }

  /** The payload goes away at most once, the block is freed at most once, and in that order. */
  lemma DroppedOnceFreedOnce(states: seq<State>, moves: seq<Move>, i: nat)
    requires IsRun(Init, Next, states, moves) && i < |states|
    ensures states[i].frees <= states[i].drops <= 1
    ensures states[i].freed <==> states[i].frees == 1
    ensures states[i].payload.Alive? <==> states[i].drops == 0
  {
    ReachableInv(states, moves, i);
    PayloadBeforeBlock(states[i]);
  }

  lemma PayloadBeforeBlock(s: State)
    requires Inv(s)
    ensures s.frees <= s.drops <= 1
    ensures s.payload.Alive? <==> s.drops == 0
  {
  }

  /** No handle and no running call outlives the block. */
  lemma NothingOutlivesTheBlock(states: seq<State>, moves: seq<Move>, i: nat)
    requires IsRun(Init, Next, states, moves) && i < |states| && states[i].freed
    ensures states[i].handles == map[]
    ensures forall t | t in states[i].pcs :: states[i].pcs[t].Idle?
  {
    ReachableInv(states, moves, i);
  }

  /** Whoever reads, borrows, moves out or drops the payload finds it alive. */
  lemma PayloadIsThere(states: seq<State>, moves: seq<Move>, i: nat, t: Tid)
    requires IsRun(Init, Next, states, moves) && i < |states| && t in states[i].pcs
    requires var pc := states[i].pcs[t]; pc.Reading? || pc.Borrowed? || pc.IntoRead? || pc.DropPayload?
    ensures !states[i].freed && states[i].payload.Alive?
  {
    ReachableInv(states, moves, i);
    PayloadReachable(states[i], t);
  }

  lemma PayloadReachable(s: State, t: Tid)
    requires Inv(s) && t in s.pcs
    requires s.pcs[t].Reading? || s.pcs[t].Borrowed? || s.pcs[t].IntoRead? || s.pcs[t].DropPayload?
    ensures !s.freed && s.payload.Alive?
  {
    PcPresent(s.pcs, t);
    if !s.pcs[t].DropPayload? {
      assert Handle(s.pcs[t]) == Some(s.pcs[t].h);
      StrongHandleCounts(s, s.pcs[t].h);
      if u :| u in s.pcs && IsIntoFree(s.pcs[u]) {
        UniqueIsAlone(s, u);
      }
      CountZero(s.pcs, IsIntoFree);
    }
  }

  /** No leak: when the last handle is gone and every call has returned, everything has been released. */
  lemma NoLeak(states: seq<State>, moves: seq<Move>, i: nat)
    requires IsRun(Init, Next, states, moves) && i < |states|
    requires states[i].handles == map[] && forall t | t in states[i].pcs :: states[i].pcs[t].Idle?
    ensures states[i].freed && states[i].drops == 1 && states[i].frees == 1
  {
    ReachableInv(states, moves, i);
    var s := states[i];
    CountZero(s.pcs, IsFree);
    CountZero(s.pcs, IsAborting);
    CountZero(s.pcs, IsLastDrop);
    CountZero(s.pcs, InWindow);
    CountZero(s.handles, IsStrong);
    CountZero(s.handles, IsWeak);
  }

  /** `get_mut` lends the payload only to the sole owner, who stays the sole owner while the borrow lasts. */
  lemma BorrowerIsAlone(states: seq<State>, moves: seq<Move>, i: nat, t: Tid)
    requires IsRun(Init, Next, states, moves) && i < |states|
    requires t in states[i].pcs && states[i].pcs[t].Borrowed?
    ensures states[i].handles == map[states[i].pcs[t].h := Strong]
    ensures forall u | u in states[i].pcs && u != t :: states[i].pcs[u].Idle?
    ensures forall m | Enabled(states[i], m) :: m.t == t
  {
    ReachableInv(states, moves, i);
    var s := states[i];
    UniqueIsAlone(s, t);
    forall m | Enabled(s, m) ensures m.t == t { UniqueExcludesMoves(s, t, m); }
  }

  /** Of any number of concurrent `into_inner` calls at most one gets as far as the payload. */
  lemma IntoInnerWinsOnce(states: seq<State>, moves: seq<Move>, i: nat, t: Tid, u: Tid)
    requires IsRun(Init, Next, states, moves) && i < |states| && t in states[i].pcs && u in states[i].pcs
    requires states[i].pcs[t].IntoRead? || states[i].pcs[t].IntoFree?
    requires states[i].pcs[u].IntoRead? || states[i].pcs[u].IntoFree?
    ensures t == u
  {
    ReachableInv(states, moves, i);
    UniqueIsAlone(states[i], t);
  }

  lemma DeathIsFinal(s: State, m: Move)
    requires Inv(s) && Enabled(s, m) && !s.payload.Alive?
    ensures !Step(s, m).payload.Alive?
  {
  }

  /** Once dropped or moved out the payload never comes back: every later `upgrade` finds nothing to upgrade to. */
  lemma NoResurrection(states: seq<State>, moves: seq<Move>, i: nat, j: nat)
    requires IsRun(Init, Next, states, moves) && i <= j < |states| && !states[i].payload.Alive?
    ensures !states[j].payload.Alive?
    ensures forall t, h, name | Enabled(states[j], Upgrade(t, h, name)) ::
              Step(states[j], Upgrade(t, h, name)).handles == states[j].handles
  {
    var dead := (s: State) => !s.payload.Alive?;
    InvIsInductive();
    forall s, m, s' | Inv(s) && dead(s) && Next(s, m, s') ensures dead(s') { DeathIsFinal(s, m); }
    Stability(Init, Next, Inv, dead, states, moves, i, j);
    ReachableInv(states, moves, j);
    forall t, h, name | Enabled(states[j], Upgrade(t, h, name))
      ensures Step(states[j], Upgrade(t, h, name)).handles == states[j].handles
    {
      DeadCannotBeUpgraded(states[j], t, h, name);
    }
  }

  lemma DeadCannotBeUpgraded(s: State, t: Tid, h: nat, name: nat)
    requires Inv(s) && Enabled(s, Upgrade(t, h, name)) && !s.payload.Alive?
    ensures StepUpgrade(s, t, h, name).handles == s.handles
  {
    SharedMeansNobodyUnique(s, Upgrade(t, h, name));
    CountZero(s.pcs, IsIntoFree);
    assert forall u | u in s.pcs :: IsIntoFree(s.pcs[u]) ==> IsUnique(s.pcs[u]);
    assert Tested(s.pcs[t]);
  }

  /** Somebody keeps `get_mut` and `into_inner` from starting: a weak handle, or another such call. */
  ghost predicate KeptOut(s: State) {
    || (exists j :: j in s.handles && s.handles[j].Weak?)
    || (exists u :: u in s.pcs && InWindow(s.pcs[u]))
  }

  /** For the owner of a strong handle `ref_count == 1` says exactly that there is neither. */
  lemma OpensIff(s: State, h: nat)
    requires Inv(s) && h in s.handles && s.handles[h].Strong?
    ensures s.refCount == 1 <==> !KeptOut(s)
  {
    StrongHandleCounts(s, h);
    CountZero(s.handles, IsWeak);
    CountZero(s.pcs, InWindow);
    if j :| j in s.handles && s.handles[j].Weak? {
      assert IsWeak(s.handles[j]);
    }
  }

  /** Inside the window `strong_count == 1` says exactly that there is no other handle. */
  lemma SoleIff(s: State, t: Tid, h: nat)
    requires Inv(s) && t in s.pcs && (s.pcs[t] == GetMutWindow(h) || s.pcs[t] == IntoWindow(h))
    ensures s.strongCount == 1 <==> s.handles == map[h := Strong]
  {
    PcPresent(s.pcs, t);
    assert Handle(s.pcs[t]) == Some(h) && IsClaim(s.pcs[t]);
    CountAtLeast(s.handles, h, IsStrong);
    CountZero(s.handles, IsWeak);
    if s.strongCount == 1 {
      forall j | j in s.handles ensures j == h { assert !IsWeak(s.handles[j]); }
      assert s.handles.Keys == {h};
    }
    if s.handles == map[h := Strong] {
      SoleHandleCounts(s, t, h);
    }
  }

  lemma SoleHandleCounts(s: State, t: Tid, h: nat)
    requires Inv(s) && t in s.pcs && IsClaim(s.pcs[t]) && s.pcs[t].h == h && s.handles == map[h := Strong]
    ensures s.strongCount == 1
  {
    CountAtLeast(s.handles, h, IsStrong);
    SubsetSize(Members(s.handles, IsStrong), {h});
    forall u | u in s.pcs ensures !IsAborting(s.pcs[u]) {
      assert Handle(s.pcs[t]) == Some(h);
    }
    CountZero(s.pcs, IsAborting);
  }

  /** What the answer of a call says. */
  ghost predicate Truthful(s: State, m: Move, s': State, answer: Answer) {
    match answer
    case NoAnswer => m.Deref? || m.DropArc? || m.DropWeak? || m.GetMut?
    case Made(name) =>
      && (m.Clone? || m.Downgrade? || m.Upgrade?) && name == m.name && name !in s.handles
      && s'.handles == s.handles[name := if m.Downgrade? then Weak else Strong]
    case Refused =>
      && s'.handles == s.handles && m.t in s.pcs
      && (if m.GetMut? then (if s.pcs[m.t].Idle? then KeptOut(s) else s.pcs[m.t] == GetMutStore(m.h, false))
          else m.Upgrade? && s.strongCount == 0)
    case Panicked =>
      && s'.handles == s.handles
      && if m.Upgrade? then s.strongCount > MAX_REF_COUNT else m.Downgrade? && s.refCount > MAX_REF_COUNT
    case Inner => m.IntoInner? && s'.freed && s'.frees == 1 && Gone(s')
  }

  lemma HandlesAreTrue(s: State, m: Move)
    requires Enabled(s, m) && (m.Clone? || m.Downgrade? || m.Upgrade?)
    ensures var s' := Step(s, m); m.t in s'.pcs && (s'.pcs[m.t].Idle? ==> Truthful(s, m, s', s'.pcs[m.t].last))
  {
  }

  lemma GetMutIsTrue(s: State, t: Tid, h: nat)
    requires Inv(s) && Enabled(s, GetMut(t, h))
    ensures var s' := StepGetMut(s, t, h);
      && t in s'.pcs
      && (s'.pcs[t].Idle? ==> Truthful(s, GetMut(t, h), s', s'.pcs[t].last))
      && (s'.pcs[t].GetMutStore? ==> (s'.pcs[t].unique <==> s.handles == map[h := Strong]))
      && (s'.pcs[t].Borrowed? ==> s'.handles == map[h := Strong] && s'.payload.Alive?)
  {
    hide Count, Accounts, Payloads;
    GetMutKeepsInv(s, t, h);
    if s.pcs[t].Idle? {
      OpensIff(s, h);
    } else if s.pcs[t].GetMutWindow? {
      SoleIff(s, t, h);
    }
    hide KeptOut;
    var s' := StepGetMut(s, t, h);
    if s'.pcs[t].Borrowed? {
      UniqueIsAlone(s', t);
      PayloadReachable(s', t);
    }
  }

  lemma IntoInnerIsTrue(s: State, t: Tid, h: nat)
    requires Inv(s) && Enabled(s, IntoInner(t, h))
    ensures var s' := StepIntoInner(s, t, h);
      && t in s'.pcs
      && (s'.pcs[t].Idle? ==> Truthful(s, IntoInner(t, h), s', s'.pcs[t].last))
      && (s'.pcs[t].DropStrong? && s.pcs[t].Idle? ==> KeptOut(s))
      && (s'.pcs[t].IntoRead? <==> s.pcs[t].IntoWindow? && s.handles == map[h := Strong])
  {
    IntoInnerKeepsInv(s, t, h);
    if s.pcs[t].Idle? {
      OpensIff(s, h);
    } else if s.pcs[t].IntoWindow? {
      SoleIff(s, t, h);
    }
    hide Gone, KeptOut;
  }

  /** What a call has returned, if its thread is outside again. */
  function AnswerOf(pc: Pc): Option<Answer> {
    if pc.Idle? then Some(pc.last) else None
  }

  /** One allocation with its two counters, and everything that refers to it. */
  class ArcInner {
    var strongCount: nat
    var refCount: nat
    var payload: Payload
    ghost var freed: bool
    var handles: map<nat, Kind>
    var pcs: map<Tid, Pc>
    ghost var drops: nat
    ghost var frees: nat

    ghost function View(): State
      reads this
    {
      State(strongCount, refCount, payload, freed, handles, pcs, drops, frees)
    }

    /** `Arc::new`: the block, and the first strong handle `h`. */
    constructor (h: nat, threads: set<Tid>)
      requires |threads| < MAX_REF_COUNT
      ensures Init(View()) && Inv(View())
      ensures handles == map[h := Strong] && pcs.Keys == threads
    {
      strongCount, refCount, payload, freed := 1, 1, Alive, false;
      handles := map[h := Strong];
      pcs := map t | t in threads :: Idle(NoAnswer);
      drops, frees := 0, 0;
      new;
      assert pcs.Keys == threads && handles.Keys == {h};
      assert |handles| == |handles.Keys|;
      InitEstablishesInv(View());
    }

    /** Start or end of a shared borrow of the payload through `Deref`. */
    method Deref(t: Tid, h: nat)
      requires Inv(View()) && Enabled(View(), Move.Deref(t, h))
      modifies this
      ensures View() == Step(old(View()), Move.Deref(t, h)) && Inv(View())
    {
      DerefKeepsInv(View(), t, h);
      hide Inv, Truthful, Step, Enabled;
      DerefAccess(t, h);
    }

    /** The access itself. */
    method DerefAccess(t: Tid, h: nat)
      requires Enabled(View(), Move.Deref(t, h))
      modifies this
      ensures t in pcs && View() == StepDeref(old(View()), t, h)
    {
      pcs := pcs[t := if pcs[t].Idle? then Reading(h) else Idle(NoAnswer)];
    }

    /** `clone`; `name` becomes the new handle unless the process is about to abort. */
    method Clone(t: Tid, h: nat, name: nat) returns (answer: Option<Answer>)
      requires Inv(View()) && Enabled(View(), Move.Clone(t, h, name))
      modifies this
      ensures View() == Step(old(View()), Move.Clone(t, h, name)) && Inv(View())
      ensures t in pcs && answer == AnswerOf(pcs[t])
      ensures answer.Some? ==> Truthful(old(View()), Move.Clone(t, h, name), View(), answer.value)
    {
      CloneKeepsInv(View(), t, h, name);
      HandlesAreTrue(View(), Move.Clone(t, h, name));
      hide Inv, Truthful, Step, Enabled;
      CloneAccess(t, h, name);
      answer := AnswerOf(pcs[t]);
    }

    /** The access itself. */
    method CloneAccess(t: Tid, h: nat, name: nat)
      requires Enabled(View(), Move.Clone(t, h, name))
      modifies this
      ensures t in pcs && View() == StepClone(old(View()), t, h, name)
    {
      var previous := strongCount;
      strongCount := AddUsize(strongCount, 1);
      if previous > MAX_REF_COUNT {
        pcs := pcs[t := Aborting(h)];
      } else {
        handles := handles[name := Strong];
        pcs := pcs[t := Idle(Made(name))];
      }
    }

    /** The next atomic instruction of `downgrade`. */
    method Downgrade(t: Tid, h: nat, name: nat) returns (answer: Option<Answer>)
      requires Inv(View()) && Enabled(View(), Move.Downgrade(t, h, name))
      modifies this
      ensures View() == Step(old(View()), Move.Downgrade(t, h, name)) && Inv(View())
      ensures t in pcs && answer == AnswerOf(pcs[t])
      ensures answer.Some? ==> Truthful(old(View()), Move.Downgrade(t, h, name), View(), answer.value)
    {
      DowngradeKeepsInv(View(), t, h, name);
      HandlesAreTrue(View(), Move.Downgrade(t, h, name));
      hide Inv, Truthful, Step, Enabled;
      DowngradeAccess(t, h, name);
      answer := AnswerOf(pcs[t]);
    }

    /** The access itself. */
    method DowngradeAccess(t: Tid, h: nat, name: nat)
      requires Enabled(View(), Move.Downgrade(t, h, name))
      modifies this
      ensures t in pcs && View() == StepDowngrade(old(View()), t, h, name)
    {
      if pcs[t].DowngradeCas? && refCount == pcs[t].seen {
        refCount := AddUsize(refCount, 1);
        handles := handles[name := Weak];
        pcs := pcs[t := Idle(Made(name))];
      } else {
        pcs := pcs[t := DowngradeDispatch(h, refCount)];
      }
    }

    /** The next atomic instruction of `upgrade`. */
    method Upgrade(t: Tid, h: nat, name: nat) returns (answer: Option<Answer>)
      requires Inv(View()) && Enabled(View(), Move.Upgrade(t, h, name))
      modifies this
      ensures View() == Step(old(View()), Move.Upgrade(t, h, name)) && Inv(View())
      ensures t in pcs && answer == AnswerOf(pcs[t])
      ensures answer.Some? ==> Truthful(old(View()), Move.Upgrade(t, h, name), View(), answer.value)
    {
      UpgradeKeepsInv(View(), t, h, name);
      HandlesAreTrue(View(), Move.Upgrade(t, h, name));
      hide Inv, Truthful, Step, Enabled;
      UpgradeAccess(t, h, name);
      answer := AnswerOf(pcs[t]);
    }

    /** The access itself. */
    method UpgradeAccess(t: Tid, h: nat, name: nat)
      requires Enabled(View(), Move.Upgrade(t, h, name))
      modifies this
      ensures t in pcs && View() == StepUpgrade(old(View()), t, h, name)
    {
      if pcs[t].UpgradeCas? && strongCount == pcs[t].seen {
        strongCount := AddUsize(strongCount, 1);
        handles := handles[name := Strong];
        pcs := pcs[t := Idle(Made(name))];
      } else {
        pcs := pcs[t := UpgradeDispatch(h, strongCount)];
      }
    }

    /** The next atomic instruction of `get_mut`, or the end of the borrow it returned. */
    method GetMut(t: Tid, h: nat) returns (answer: Option<Answer>)
      requires Inv(View()) && Enabled(View(), Move.GetMut(t, h))
      modifies this
      ensures View() == Step(old(View()), Move.GetMut(t, h)) && Inv(View())
      ensures t in pcs && answer == AnswerOf(pcs[t])
      ensures answer.Some? ==> Truthful(old(View()), Move.GetMut(t, h), View(), answer.value)
      ensures pcs[t].GetMutStore? ==> (pcs[t].unique <==> old(handles) == map[h := Strong])
      ensures pcs[t].Borrowed? ==> handles == map[h := Strong] && payload.Alive?
    {
      GetMutKeepsInv(View(), t, h);
      GetMutIsTrue(View(), t, h);
      hide Inv, Truthful, Step, Enabled;
      GetMutAccess(t, h);
      answer := AnswerOf(pcs[t]);
    }

    /** The access itself. */
    method GetMutAccess(t: Tid, h: nat)
      requires Enabled(View(), Move.GetMut(t, h))
      modifies this
      ensures t in pcs && View() == StepGetMut(old(View()), t, h)
    {
      match pcs[t] {
        case Idle(_) =>
          if refCount == 1 {
            refCount := SENTINEL;
            pcs := pcs[t := GetMutWindow(h)];
          } else {
            pcs := pcs[t := Idle(Refused)];
          }
        case GetMutWindow(_) =>
          pcs := pcs[t := GetMutStore(h, strongCount == 1)];
        case GetMutStore(_, unique) =>
          refCount := 1;
          pcs := pcs[t := if unique then Borrowed(h) else Idle(Refused)];
        case Borrowed(_) =>
          pcs := pcs[t := Idle(NoAnswer)];
      }
    }

    /** The next atomic instruction of `into_inner`; on failure the handle's drop follows, and None. */
    method IntoInner(t: Tid, h: nat) returns (answer: Option<Answer>)
      requires Inv(View()) && Enabled(View(), Move.IntoInner(t, h))
      modifies this
      ensures View() == Step(old(View()), Move.IntoInner(t, h)) && Inv(View())
      ensures t in pcs && answer == AnswerOf(pcs[t])
      ensures answer.Some? ==> Truthful(old(View()), Move.IntoInner(t, h), View(), answer.value)
      ensures pcs[t].DropStrong? && old(pcs)[t].Idle? ==> KeptOut(old(View()))
      ensures pcs[t].IntoRead? <==> old(pcs)[t].IntoWindow? && old(handles) == map[h := Strong]
    {
      IntoInnerKeepsInv(View(), t, h);
      IntoInnerIsTrue(View(), t, h);
      hide Inv, Truthful, Step, Enabled;
      IntoInnerAccess(t, h);
      answer := AnswerOf(pcs[t]);
    }

    /** The access itself. */
    method IntoInnerAccess(t: Tid, h: nat)
      requires Enabled(View(), Move.IntoInner(t, h))
      modifies this
      ensures t in pcs && View() == StepIntoInner(old(View()), t, h)
    {
      match pcs[t] {
        case Idle(_) =>
          if refCount == 1 {
            refCount := SENTINEL;
            pcs := pcs[t := IntoWindow(h)];
          } else {
            pcs := pcs[t := DropStrong(h)];
          }
        case IntoWindow(_) =>
          pcs := pcs[t := if strongCount != 1 then IntoStore(h) else IntoRead(h)];
        case IntoStore(_) =>
          refCount := 1;
          pcs := pcs[t := DropStrong(h)];
        case IntoRead(_) =>
          payload, drops := MovedOut, drops + 1;
          pcs := pcs[t := IntoFree(h)];
        case IntoFree(_) =>
          freed, frees := true, frees + 1;
          handles := handles - {h};
          pcs := pcs[t := Idle(Inner)];
      }
    }

    /** The next atomic instruction of dropping an `Arc`. */
    method DropArc(t: Tid, h: nat)
      requires Inv(View()) && Enabled(View(), Move.DropArc(t, h))
      modifies this
      ensures View() == Step(old(View()), Move.DropArc(t, h)) && Inv(View())
    {
      DropArcKeepsInv(View(), t, h);
      hide Inv, Truthful, Step, Enabled;
      DropArcAccess(t, h);
    }

    /** The access itself. */
    method DropArcAccess(t: Tid, h: nat)
      requires Enabled(View(), Move.DropArc(t, h))
      modifies this
      ensures t in pcs && View() == StepDropArc(old(View()), t, h)
    {
      if pcs[t].DropPayload? {
        payload, drops := Dropped, drops + 1;
        pcs := pcs[t := DropImplicit];
      } else if pcs[t].DropImplicit? {
        var previous := refCount;
        refCount := SubUsize(refCount, 1);
        pcs := pcs[t := if previous == 1 then Free else Idle(NoAnswer)];
      } else if pcs[t].Free? {
        freed, frees := true, frees + 1;
        pcs := pcs[t := Idle(NoAnswer)];
      } else {
        var previous := strongCount;
        strongCount := SubUsize(strongCount, 1);
        handles := handles - {h};
        pcs := pcs[t := if previous == 1 then DropPayload else Idle(NoAnswer)];
      }
    }

    /** The next atomic instruction of dropping a `Weak`. */
    method DropWeak(t: Tid, h: nat)
      requires Inv(View()) && Enabled(View(), Move.DropWeak(t, h))
      modifies this
      ensures View() == Step(old(View()), Move.DropWeak(t, h)) && Inv(View())
    {
      DropWeakKeepsInv(View(), t, h);
      hide Inv, Truthful, Step, Enabled;
      DropWeakAccess(t, h);
    }

    /** The access itself. */
    method DropWeakAccess(t: Tid, h: nat)
      requires Enabled(View(), Move.DropWeak(t, h))
      modifies this
      ensures t in pcs && View() == StepDropWeak(old(View()), t, h)
    {
      match pcs[t] {
        case Idle(_) =>
          var previous := refCount;
          refCount := SubUsize(refCount, 1);
          handles := handles - {h};
          pcs := pcs[t := if previous == 1 then Free else Idle(NoAnswer)];
        case Free =>
          freed, frees := true, frees + 1;
          pcs := pcs[t := Idle(NoAnswer)];
      }
    }
  }
}
