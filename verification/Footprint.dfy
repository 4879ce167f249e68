/** The footprint of one order comment in the broker's books, and how each act can change it. */
module Footprint {
  import opened Protocol
  import opened Market

  /** What other traders, other intents and the broker itself may do to the footprint of comment `c`:
      deals are only added, nothing new enters under `c`, and what was tagged stays tagged. */
  ghost predicate Calm(b: Book, b': Book, c: string)
  {
    && b.cfg == b'.cfg
    && b.deals <= b'.deals
    && b.now <= b'.now && b.nextTicket <= b'.nextTicket
    && (forall t :: Owned(b, t, c) ==> Owned(b', t, c))
    && |Resting(b'.orders, c)| <= |Resting(b.orders, c)|
    && Effects(b', c) <= Effects(b, c)
    && (forall magic, symbol, since ::
          since <= b.now && Tagged(b, c, magic, symbol, since) ==> Tagged(b', c, magic, symbol, since))
  }

  /** Everything that carries comment `c` carries this magic and symbol too, and its deals are dated
      no earlier than `since`. */
  ghost predicate Tagged(b: Book, c: string, magic: int, symbol: string, since: int)
  {
    && (forall t :: t in b.orders && b.orders[t].comment == c ==>
          b.orders[t].magic == magic && b.orders[t].symbol == symbol)
    && (forall t :: t in b.positions && b.positions[t].comment == c ==>
          b.positions[t].magic == magic && b.positions[t].symbol == symbol)
    && (forall i | 0 <= i < |b.deals| && b.deals[i].comment == c ::
          b.deals[i].magic == magic && b.deals[i].symbol == symbol && since <= b.deals[i].time <= b.now)
  }

  /** A ticket that belongs to comment `c`, if it is one at all: whatever goes under it carries `c`, and no
      order under `c` rests under another ticket. */
  predicate Owned(b: Book, t: int, c: string)
  {
    t == 0 ||
    (&& 0 < t <= b.nextTicket
     && (t in b.orders ==> b.orders[t].comment == c)
     && (t in b.positions ==> b.positions[t].comment == c)
     && (forall i | 0 <= i < |b.deals| && b.deals[i].positionId == t :: b.deals[i].comment == c)
     && (forall u | u in b.orders && b.orders[u].comment == c :: u == t))
  }

  /** A ticket stays its owner's, whatever others do. */
  lemma ActOwned(b: Book, a: Act, t: int, c: string)
    requires TicketsOk(b) && Enabled(b, a) && Owned(b, t, c)
    requires a.Enters() ==> a.request.comment != c
    ensures Owned(Apply(b, a), t, c)
  {
    hide CalcProfit, Commission;
  }

  lemma CalmReflexive(b: Book, c: string)
    ensures Calm(b, b, c)
  {
  }

  lemma CalmTransitive(b0: Book, b1: Book, b2: Book, c: string)
    requires Calm(b0, b1, c) && Calm(b1, b2, c)
    ensures Calm(b0, b2, c)
  {
  }

  lemma RestingAfter(orders: map<int, PendingOrder>, t: int, o: PendingOrder, c: string)
    ensures t !in orders ==> Resting(orders[t := o], c) == Resting(orders, c) + (if o.comment == c then {t} else {})
    ensures t in orders && o.comment == orders[t].comment ==> Resting(orders[t := o], c) == Resting(orders, c)
    ensures Resting(orders - {t}, c) == Resting(orders, c) - {t}
  {
  }

  lemma RestingShrinks(orders: map<int, PendingOrder>, t: int, c: string)
    requires t in orders
    ensures |Resting(orders - {t}, c)| == |Resting(orders, c)| - (if orders[t].comment == c then 1 else 0)
  {
    RestingAfter(orders, t, orders[t], c);
    if orders[t].comment == c {
      assert t in Resting(orders, c);
    } else {
      assert Resting(orders, c) - {t} == Resting(orders, c);
    }
  }

  /** Triggering an order turns a resting effect into an opened one; cancels and expiries remove one;
      only entering acts add one, and only under their own comment. */
  lemma ActEffects(b: Book, a: Act, c: string)
    requires TicketsOk(b) && Enabled(b, a)
    ensures b.deals <= Apply(b, a).deals && Apply(b, a).cfg == b.cfg
    ensures a.Trigger? ==> Effects(Apply(b, a), c) == Effects(b, c)
    ensures a.Cancel? || a.Expire? ==>
      Effects(Apply(b, a), c) == Effects(b, c) - (if b.orders[a.ticket].comment == c then 1 else 0)
    ensures a.Enters() ==> Effects(Apply(b, a), c) == Effects(b, c) + (if a.request.comment == c then 1 else 0)
    ensures !a.Enters() ==> Effects(Apply(b, a), c) <= Effects(b, c)
    ensures !(a.Place? && a.request.comment == c) ==> |Resting(Apply(b, a).orders, c)| <= |Resting(b.orders, c)|
    ensures Ins(b.deals, c) <= Ins(Apply(b, a).deals, c)
  {
    var b' := Apply(b, a);
    if b'.deals != b.deals {
      DealAppended(b.deals, b'.deals[|b.deals|]);
      assert b'.deals == b.deals + [b'.deals[|b.deals|]];
    }
    match a
    case Trigger(t) => RestingShrinks(b.orders, t, c);
    case Expire(t) => RestingShrinks(b.orders, t, c);
    case Cancel(t) => RestingShrinks(b.orders, t, c);
    case Place(r) => RestingAfter(b.orders, b.nextTicket + 1, b'.orders[b.nextTicket + 1], c);
    case Amend(t, _, _, _) => RestingAfter(b.orders, t, b'.orders[t], c);
    case _ =>
  }

  /** An act keeps the tags of comment `c` unless it enters under `c` itself. */
  lemma ActTags(b: Book, a: Act, c: string, magic: int, symbol: string, since: int)
    requires TicketsOk(b) && Enabled(b, a) && Tagged(b, c, magic, symbol, since) && since <= b.now
    requires a.Quote? ==> b.now <= a.tick.time
    requires a.Enters() && a.request.comment == c ==> a.request.magic == magic && a.request.symbol == symbol
    ensures Tagged(Apply(b, a), c, magic, symbol, since)
  {
  }

  /** Every act that does not enter under `c` is calm for `c`, as long as server time does not run back. */
  lemma ActCalm(b: Book, a: Act, c: string)
    requires TicketsOk(b) && Enabled(b, a)
    requires a.Quote? ==> b.now <= a.tick.time
    requires a.Enters() ==> a.request.comment != c
    ensures Calm(b, Apply(b, a), c)
  {
    ActEffects(b, a, c);
    forall magic, symbol, since | since <= b.now && Tagged(b, c, magic, symbol, since)
      ensures Tagged(Apply(b, a), c, magic, symbol, since)
    {
      ActTags(b, a, c, magic, symbol, since);
    }
    forall t | Owned(b, t, c) ensures Owned(Apply(b, a), t, c) {
      ActOwned(b, a, t, c);
    }
  }

  /** A comment with an opening deal has a deal to show for it, and one without has none. */
  lemma InsFindsDeal(deals: seq<Deal>, c: string) returns (i: nat)
    requires Ins(deals, c) > 0
    ensures i < |deals| && deals[i].entry.IN? && deals[i].comment == c
  {
    var n := |deals| - 1;
    if deals[n].entry.IN? && deals[n].comment == c {
      i := n;
    } else {
      i := InsFindsDeal(deals[..n], c);
    }
  }

  /** With no effect under `c`, the broker shows no order, no position and no deal under `c`. */
  lemma NoEffectsNothingShown(b: Book, c: string)
    requires TicketsOk(b) && Sourced(b) && Effects(b, c) == 0
    ensures forall t :: t in b.orders ==> b.orders[t].comment != c
    ensures forall t :: t in b.positions ==> b.positions[t].comment != c
    ensures forall i | 0 <= i < |b.deals| :: b.deals[i].comment != c
  {
    assert Resting(b.orders, c) == {};
    forall t | t in b.orders ensures b.orders[t].comment != c {
      assert t !in Resting(b.orders, c);
    }
    forall t | t in b.positions ensures b.positions[t].comment != c {
      assert Ins(b.deals, b.positions[t].comment) > 0;
    }
    forall i | 0 <= i < |b.deals| ensures b.deals[i].comment != c {
      assert Ins(b.deals, b.deals[i].comment) > 0;
    }
  }
}
