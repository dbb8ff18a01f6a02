/**
 Book-keeping for messages, independent of how a channel moves them: every message that was given to
 a channel is held by one call, accepted, or refused, and nothing else ever happens to it.
 */
module Ledgers {
  import opened Machine

  /** `author` records who gave a message and as the how-manieth of its own; `sent` counts those. */
  datatype Ledger = Ledger(
    given: set<nat>,
    held: map<Tid, Option<nat>>,
    accepted: seq<nat>,
    refused: set<nat>,
    author: map<nat, (Tid, nat)>,
    sent: map<Tid, nat>)

  /** Each given message is in exactly one place. */
  ghost predicate Conserved(l: Ledger) {
    && (forall t | t in l.held && l.held[t].Some? ::
          l.held[t].value in l.given && l.held[t].value !in l.accepted && l.held[t].value !in l.refused)
    && (forall t, u | t in l.held && u in l.held && l.held[t].Some? && l.held[t] == l.held[u] :: t == u)
    && (forall i, j | 0 <= i < j < |l.accepted| :: l.accepted[i] != l.accepted[j])
    && (forall m | m in l.accepted :: m in l.given && m !in l.refused)
    && l.refused <= l.given
    && (forall m | m in l.given :: m in l.accepted || m in l.refused || Someone(l, m))
  }

  ghost predicate Someone(l: Ledger, m: nat) {
    exists t :: t in l.held && l.held[t] == Some(m)
  }

  /** Messages of one thread are accepted in the order in which it gave them. */
  ghost predicate Ordered(l: Ledger) {
    && l.sent.Keys == l.held.Keys && l.author.Keys == l.given
    && (forall m | m in l.given :: l.author[m].0 in l.sent && l.author[m].1 < l.sent[l.author[m].0])
    && (forall m, n | m in l.given && n in l.given && l.author[m] == l.author[n] :: m == n)
    && (forall t | t in l.held && l.held[t].Some? ::
          && l.held[t].value in l.given
          && l.author[l.held[t].value].0 == t && l.author[l.held[t].value].1 + 1 == l.sent[t])
    && (forall m | m in l.accepted :: m in l.given)
    && (forall i, j | 0 <= i < j < |l.accepted| && l.author[l.accepted[i]].0 == l.author[l.accepted[j]].0 ::
          l.author[l.accepted[i]].1 < l.author[l.accepted[j]].1)
  }

  ghost predicate Balanced(l: Ledger) {
    Conserved(l) && Ordered(l)
  }

  /** Thread `t` calls send with a new message. */
  ghost function Give(l: Ledger, t: Tid, m: nat): Ledger
    requires t in l.sent
  {
    l.(given := l.given + {m}, held := l.held[t := Some(m)],
       author := l.author[m := (t, l.sent[t])], sent := l.sent[t := l.sent[t] + 1])
  }

  /** The message `t` holds is accepted. */
  ghost function Accept(l: Ledger, t: Tid): Ledger
    requires t in l.held && l.held[t].Some?
  {
    l.(accepted := l.accepted + [l.held[t].value], held := l.held[t := None])
  }

  /** The message `t` holds is handed back. */
  ghost function Refuse(l: Ledger, t: Tid): Ledger
    requires t in l.held && l.held[t].Some?
  {
    l.(refused := l.refused + {l.held[t].value}, held := l.held[t := None])
  }

  lemma GiveKeepsOrder(l: Ledger, t: Tid, m: nat)
    requires Ordered(l) && t in l.held && l.held[t].None? && m !in l.given
    ensures Ordered(Give(l, t, m))
  {
    var l' := Give(l, t, m);
    forall n | n in l.given ensures n != m && l'.author[n] == l.author[n] && l.author[n] != l'.author[m] {}
    forall i | 0 <= i < |l.accepted| ensures l.accepted[i] in l.given {
      assert l.accepted[i] in l.accepted;
    }
  }

  lemma GiveConserves(l: Ledger, t: Tid, m: nat)
    requires Conserved(l) && t in l.held && t in l.sent && l.held[t].None? && m !in l.given
    ensures Conserved(Give(l, t, m))
  {
    var l' := Give(l, t, m);
    assert l'.held[t] == Some(m);
    forall n | n in l'.given ensures n in l'.accepted || n in l'.refused || Someone(l', n) {
      if n != m && n !in l.accepted && n !in l.refused {
        var u :| u in l.held && l.held[u] == Some(n);
        assert l'.held[u] == Some(n);
      }
    }
  }

  lemma AcceptConserves(l: Ledger, t: Tid)
    requires Conserved(l) && t in l.held && l.held[t].Some?
    ensures Conserved(Accept(l, t))
  {
    var l' := Accept(l, t);
    var m := l.held[t].value;
    forall n | n in l'.given ensures n in l'.accepted || n in l'.refused || Someone(l', n) {
      if n != m && n !in l.accepted && n !in l.refused {
        var u :| u in l.held && l.held[u] == Some(n);
        assert l'.held[u] == Some(n);
      }
    }
  }

  lemma AcceptKeepsOrder(l: Ledger, t: Tid)
    requires Conserved(l) && Ordered(l) && t in l.held && l.held[t].Some?
    ensures Ordered(Accept(l, t))
  {
    var l' := Accept(l, t);
    var m := l.held[t].value;
    forall i, j | 0 <= i < j < |l'.accepted| && l'.author[l'.accepted[i]].0 == l'.author[l'.accepted[j]].0
      ensures l'.author[l'.accepted[i]].1 < l'.author[l'.accepted[j]].1
    {
      if j == |l.accepted| {
        var n := l.accepted[i];
        assert n in l.accepted && n != m && l.author[n] != l.author[m];
      }
    }
  }

  lemma RefuseKeepsOrder(l: Ledger, t: Tid)
    requires Ordered(l) && t in l.held && l.held[t].Some?
    ensures Ordered(Refuse(l, t))
  {
  }

  lemma RefuseConserves(l: Ledger, t: Tid)
    requires Conserved(l) && t in l.held && l.held[t].Some?
    ensures Conserved(Refuse(l, t))
  {
    var l' := Refuse(l, t);
    var m := l.held[t].value;
    forall n | n in l'.given ensures n in l'.accepted || n in l'.refused || Someone(l', n) {
      if n != m && n !in l.accepted && n !in l.refused {
        var u :| u in l.held && l.held[u] == Some(n);
        assert l'.held[u] == Some(n);
      }
    }
  }

  lemma GiveBalances(l: Ledger, t: Tid, m: nat)
    requires Balanced(l) && t in l.held && t in l.sent && l.held[t].None? && m !in l.given
    ensures Balanced(Give(l, t, m))
  {
    GiveConserves(l, t, m);
    GiveKeepsOrder(l, t, m);
  }

  lemma AcceptBalances(l: Ledger, t: Tid)
    requires Balanced(l) && t in l.held && l.held[t].Some?
    ensures Balanced(Accept(l, t))
  {
    AcceptConserves(l, t);
    AcceptKeepsOrder(l, t);
  }

  lemma RefuseBalances(l: Ledger, t: Tid)
    requires Balanced(l) && t in l.held && l.held[t].Some?
    ensures Balanced(Refuse(l, t))
  {
    RefuseConserves(l, t);
    RefuseKeepsOrder(l, t);
  }
}
