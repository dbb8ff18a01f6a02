/** What single calls on the counted pointer answer, in any state and undisturbed. */
module ArcCalls {
  import opened Machine
  import opened Counting
  import opened Runs
  import opened Arcs

  /**
   The first access of `get_mut` refuses iff a weak handle exists or some thread is in a window. The
   second finds the caller unique iff its handle is the only one. The third opens the counter again and
   lends the payload iff the caller was found unique.
   */
  lemma GetMutRefusedIff(states: seq<State>, moves: seq<Move>, i: nat)
    requires IsRun(Init, Next, states, moves) && i < |moves| && moves[i].GetMut?
    ensures var s, s', t, h := states[i], states[i + 1], moves[i].t, moves[i].h;
      && t in s.pcs && t in s'.pcs && s'.handles == s.handles && s'.payload == s.payload
      && (s.pcs[t].Idle? ==> s'.pcs[t] == if KeptOut(s) then Idle(Refused) else GetMutWindow(h))
      && (s.pcs[t].GetMutWindow? ==> s'.pcs[t] == GetMutStore(h, s.handles == map[h := Strong]))
      && (s.pcs[t].GetMutStore? ==>
            s'.refCount == 1 && s'.pcs[t] == if s.pcs[t].unique then Borrowed(h) else Idle(Refused))
  {
    ReachableInv(states, moves, i);
    NextAt(Init, Next, states, moves, i);
    var s, t, h := states[i], moves[i].t, moves[i].h;
    if s.pcs[t].Idle? {
      OpensIff(s, h);
    } else if s.pcs[t].GetMutWindow? {
      SoleIff(s, t, h);
    }
  }

  /** Undisturbed, it takes three accesses and returns Some iff its handle is the only one. */
  lemma GetMutAlone(states: seq<State>, moves: seq<Move>, i: nat, t: Tid, h: nat)
    requires IsRun(Init, Next, states, moves) && InARow(moves, i, 3, GetMut(t, h))
    requires t in states[i].pcs && states[i].pcs[t].Idle? && !KeptOut(states[i])
    ensures t in states[i + 3].pcs && states[i + 3].handles == states[i].handles && states[i + 3].refCount == 1
    ensures states[i + 3].pcs[t] == if states[i].handles == map[h := Strong] then Borrowed(h) else Idle(Refused)
  {
    hide Init, Next, KeptOut;
    GetMutRefusedIff(states, moves, i);
    GetMutRefusedIff(states, moves, i + 1);
    GetMutRefusedIff(states, moves, i + 2);
  }

  /** So the owner of the only handle, while all other threads are idle, gets to its payload. */
  lemma SoleOwnerBorrows(states: seq<State>, moves: seq<Move>, i: nat, t: Tid, h: nat)
    requires IsRun(Init, Next, states, moves) && InARow(moves, i, 3, GetMut(t, h))
    requires states[i].handles == map[h := Strong] && forall u | u in states[i].pcs :: states[i].pcs[u].Idle?
    ensures t in states[i + 3].pcs && states[i + 3].pcs[t] == Borrowed(h) && states[i + 3].payload.Alive?
  {
    GetMutRefusedIff(states, moves, i);
    hide Init, Next;
    GetMutAlone(states, moves, i, t, h);
    PayloadIsThere(states, moves, i + 3, t);
  }

  /**
   `into_inner` gives up at once iff a weak handle exists or some thread is in a window. In the window
   it goes on to the payload iff its handle is the only one. Giving up, it turns into a drop.
   */
  lemma IntoInnerFailsIff(states: seq<State>, moves: seq<Move>, i: nat)
    requires IsRun(Init, Next, states, moves) && i < |moves| && moves[i].IntoInner?
    ensures var s, s', t, h := states[i], states[i + 1], moves[i].t, moves[i].h;
      && t in s.pcs && t in s'.pcs
      && (s.pcs[t].Idle? ==> s'.pcs[t] == if KeptOut(s) then DropStrong(h) else IntoWindow(h))
      && (s.pcs[t].IntoWindow? ==>
            s'.pcs[t] == if s.handles == map[h := Strong] then IntoRead(h) else IntoStore(h))
      && (s.pcs[t].IntoStore? ==> s'.refCount == 1 && s'.pcs[t] == DropStrong(h))
      && (s.pcs[t].IntoRead? ==> s'.payload == MovedOut && s'.pcs[t] == IntoFree(h))
      && (s.pcs[t].IntoFree? ==> s'.freed && s'.handles == map[] && s'.pcs[t] == Idle(Inner))
      && (!s.pcs[t].IntoFree? ==> s'.handles == s.handles)
      && (!s.pcs[t].IntoRead? ==> s'.payload == s.payload)
  {
    ReachableInv(states, moves, i);
    ReachableInv(states, moves, i + 1);
    NextAt(Init, Next, states, moves, i);
    hide Accounts, Payloads, Uniques;
    IntoInnerIsTrue(states[i], moves[i].t, moves[i].h);
    if states[i].pcs[moves[i].t].Idle? {
      OpensIff(states[i], moves[i].h);
    }
  }

  /** Undisturbed, the owner of the only handle gets the payload out, and the block is gone. */
  lemma SoleOwnerTakesPayload(states: seq<State>, moves: seq<Move>, i: nat, t: Tid, h: nat)
    requires IsRun(Init, Next, states, moves) && InARow(moves, i, 4, IntoInner(t, h))
    requires states[i].handles == map[h := Strong] && forall u | u in states[i].pcs :: states[i].pcs[u].Idle?
    ensures t in states[i + 4].pcs && states[i + 4].pcs[t] == Idle(Inner)
    ensures states[i + 4].payload == MovedOut && states[i + 4].freed && states[i + 4].handles == map[]
  {
    assert !KeptOut(states[i]);
    hide Init, Next, KeptOut;
    IntoInnerFailsIff(states, moves, i);
    IntoInnerFailsIff(states, moves, i + 1);
    IntoInnerFailsIff(states, moves, i + 2);
    IntoInnerFailsIff(states, moves, i + 3);
  }

  /** `clone` aborts iff more strong handles and aborting clones are counted than MAX_REF_COUNT. */
  lemma CloneAbortsIff(states: seq<State>, moves: seq<Move>, i: nat)
    requires IsRun(Init, Next, states, moves) && i < |moves| && moves[i].Clone?
    ensures var s, s', m := states[i], states[i + 1], moves[i];
      && m.t in s'.pcs
      && if Strongs(s) + Count(s.pcs, IsAborting) > MAX_REF_COUNT
         then s'.pcs[m.t].Aborting? && s'.handles == s.handles
         else s'.pcs[m.t] == Idle(Made(m.name)) && s'.handles == s.handles[m.name := Strong]
  {
    ReachableInv(states, moves, i);
    NextAt(Init, Next, states, moves, i);
  }

  /**
   `upgrade` fails iff no strong handle is left and panics iff too many are counted. At its exchange it
   succeeds iff `strong_count` is what it was when it looked; otherwise it decides anew.
   */
  lemma UpgradeFailsIff(states: seq<State>, moves: seq<Move>, i: nat)
    requires IsRun(Init, Next, states, moves) && i < |moves| && moves[i].Upgrade?
    ensures var s, s', t, name := states[i], states[i + 1], moves[i].t, moves[i].name;
      && t in s.pcs && t in s'.pcs
      && if s.pcs[t].UpgradeCas? && s.pcs[t].seen == s.strongCount
         then s'.pcs[t] == Idle(Made(name)) && s'.handles == s.handles[name := Strong]
         else
           && s'.handles == s.handles && !s'.pcs[t].Reading?
           && (s'.pcs[t] == Idle(Refused) <==> forall h | h in s.handles :: s.handles[h].Weak?)
           && (s'.pcs[t] == Idle(Panicked) <==> Strongs(s) + Count(s.pcs, IsAborting) > MAX_REF_COUNT)
           && (s'.pcs[t].Idle? ==> s'.pcs[t].last.Refused? || s'.pcs[t].last.Panicked?)
           && (!s'.pcs[t].Idle? ==> s'.pcs[t] == UpgradeCas(moves[i].h, s.strongCount))
  {
    ReachableInv(states, moves, i);
    NextAt(Init, Next, states, moves, i);
    CountedIffStrong(states[i]);
  }

  /** `strong_count` is zero iff there is no strong handle: an aborting clone has one. */
  lemma CountedIffStrong(s: State)
    requires Inv(s) && !s.freed
    ensures s.strongCount == 0 <==> forall h | h in s.handles :: s.handles[h].Weak?
  {
    CountZero(s.handles, IsStrong);
    CountZero(s.pcs, IsAborting);
    if forall h | h in s.handles :: s.handles[h].Weak? {
      forall u | u in s.pcs ensures !IsAborting(s.pcs[u]) {
        assert Handle(s.pcs[u]).Some? ==> s.handles[s.pcs[u].h] == KindOf(s.pcs[u]);
      }
    } else {
      var h :| h in s.handles && !s.handles[h].Weak?;
      assert IsStrong(s.handles[h]);
    }
  }

  /** An undisturbed `upgrade` beside a strong handle gives a new one after two accesses. */
  lemma UpgradeAlone(states: seq<State>, moves: seq<Move>, i: nat, t: Tid, h: nat, name: nat)
    requires IsRun(Init, Next, states, moves) && InARow(moves, i, 2, Upgrade(t, h, name))
    requires t in states[i].pcs && states[i].pcs[t].Idle?
    requires 0 < Strongs(states[i]) + Count(states[i].pcs, IsAborting) <= MAX_REF_COUNT
    ensures t in states[i + 2].pcs && states[i + 2].pcs[t] == Idle(Made(name))
    ensures states[i + 2].handles == states[i].handles[name := Strong]
  {
    ReachableInv(states, moves, i);
    NextAt(Init, Next, states, moves, i);
    NextAt(Init, Next, states, moves, i + 1);
  }

  /**
   `downgrade` keeps looking iff some thread is in a window and panics iff there are MAX_REF_COUNT weak
   handles. At its exchange it succeeds iff `ref_count` is what it was when it looked.
   */
  lemma DowngradeWaitsIff(states: seq<State>, moves: seq<Move>, i: nat)
    requires IsRun(Init, Next, states, moves) && i < |moves| && moves[i].Downgrade?
    ensures var s, s', t, name := states[i], states[i + 1], moves[i].t, moves[i].name;
      && t in s.pcs && t in s'.pcs
      && if s.pcs[t].DowngradeCas? && s.pcs[t].seen == s.refCount
         then s'.pcs[t] == Idle(Made(name)) && s'.handles == s.handles[name := Weak]
         else
           && s'.handles == s.handles
           && (s'.pcs[t].DowngradeLoad? <==> exists u :: u in s.pcs && InWindow(s.pcs[u]))
           && (s'.pcs[t].Idle? <==> Weaks(s) == MAX_REF_COUNT)
           && (s'.pcs[t].Idle? ==> s'.pcs[t].last.Panicked?)
           && (s'.pcs[t].DowngradeCas? ==> s'.pcs[t].seen == s.refCount)
  {
    ReachableInv(states, moves, i);
    NextAt(Init, Next, states, moves, i);
    var s, m := states[i], moves[i];
    CountZero(s.pcs, InWindow);
    assert Handle(s.pcs[m.t]).Some? ==> Handle(s.pcs[m.t]) == Some(m.h);
    StrongHandleCounts(s, m.h);
  }

  /** An undisturbed `downgrade` with no window open gives a new weak handle after two accesses. */
  lemma DowngradeAlone(states: seq<State>, moves: seq<Move>, i: nat, t: Tid, h: nat, name: nat)
    requires IsRun(Init, Next, states, moves) && InARow(moves, i, 2, Downgrade(t, h, name))
    requires t in states[i].pcs && states[i].pcs[t].Idle? && Weaks(states[i]) < MAX_REF_COUNT
    requires forall u | u in states[i].pcs :: !InWindow(states[i].pcs[u])
    ensures t in states[i + 2].pcs && states[i + 2].pcs[t] == Idle(Made(name))
    ensures states[i + 2].handles == states[i].handles[name := Weak]
  {
    DowngradeWaitsIff(states, moves, i);
    NextAt(Init, Next, states, moves, i);
    NextAt(Init, Next, states, moves, i + 1);
  }

  /** Dropping a strong handle goes on to the payload iff no other strong handle is left. */
  lemma LastDropIff(states: seq<State>, moves: seq<Move>, i: nat)
    requires IsRun(Init, Next, states, moves) && i < |moves| && moves[i].DropArc?
    requires var t := moves[i].t; t in states[i].pcs && (states[i].pcs[t].Idle? || states[i].pcs[t].DropStrong?)
    ensures var s, s', t, h := states[i], states[i + 1], moves[i].t, moves[i].h;
      && t in s'.pcs && h in s.handles && s'.handles == s.handles - {h}
      && s'.pcs[t] == if forall j | j in s'.handles :: s'.handles[j].Weak? then DropPayload else Idle(NoAnswer)
  {
    ReachableInv(states, moves, i);
    NextAt(Init, Next, states, moves, i);
    hide Inv;
    LastStrongIff(states[i], moves[i].t, moves[i].h);
  }

  lemma LastStrongIff(s: State, t: Tid, h: nat)
    requires Inv(s) && Enabled(s, DropArc(t, h)) && (s.pcs[t].Idle? || s.pcs[t].DropStrong?)
    ensures h in s.handles
    ensures s.strongCount == 1 <==> forall j | j in s.handles - {h} :: s.handles[j].Weak?
  {
    hide Count, Borrows, Payloads, Uniques;
    OnlyUser(s, t, h) by {
      assert Borrows(s);
    }
    StrongHandleCounts(s, h);
    PcPresent(s.pcs, t);
    WithoutStrongKeepsInv(s, t, h);
    CountedIffStrong(WithoutStrong(s, t, h));
  }

  /** The payload is dropped by the drop that got that far, moved out by `into_inner`, and by nobody else. */
  lemma PayloadFate(states: seq<State>, moves: seq<Move>, i: nat)
    requires IsRun(Init, Next, states, moves) && i < |moves|
    ensures var s, s', m := states[i], states[i + 1], moves[i];
      && m.t in s.pcs
      && s'.payload == if m.DropArc? && s.pcs[m.t].DropPayload? then Dropped
                       else if m.IntoInner? && s.pcs[m.t].IntoRead? then MovedOut
                       else s.payload
  {
    NextAt(Init, Next, states, moves, i);
  }

  /** Dropping a weak handle removes it, and frees the block iff nothing else keeps that. */
  lemma LastWeakIff(states: seq<State>, moves: seq<Move>, i: nat)
    requires IsRun(Init, Next, states, moves) && i < |moves| && moves[i].DropWeak?
    requires moves[i].t in states[i].pcs && states[i].pcs[moves[i].t].Idle?
    ensures var s, s', m := states[i], states[i + 1], moves[i];
      && m.t in s'.pcs && m.h in s.handles && s'.handles == s.handles - {m.h}
      && s'.pcs[m.t] == if Weaks(s) == 1 && s.strongCount == 0 && Count(s.pcs, IsLastDrop) == 0 then Free
                        else Idle(NoAnswer)
  {
    ReachableInv(states, moves, i);
    NextAt(Init, Next, states, moves, i);
    HandlePresent(states[i].handles, moves[i].h);
  }

  /** A shared borrow of the payload lasts from one access to the next. */
  lemma DerefLends(states: seq<State>, moves: seq<Move>, i: nat)
    requires IsRun(Init, Next, states, moves) && i < |moves| && moves[i].Deref?
    ensures var s, s', m := states[i], states[i + 1], moves[i];
      m.t in s.pcs && s' == Goto(s, m.t, if s.pcs[m.t].Reading? then Idle(NoAnswer) else Reading(m.h))
  {
    NextAt(Init, Next, states, moves, i);
  }
}
