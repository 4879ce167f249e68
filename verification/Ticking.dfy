/** What the three passes of a tick have settled so far, and why each step keeps it settled.
    `todo` is the part of the snapshot that the pass has not looked at yet. */
module Ticking {
  import opened Protocol
  import opened Market

  /** Orders on `symbol` outside `todo` are untouched; every order that left was triggered. */
  ghost predicate Triggered(b0: Book, b: Book, acts: seq<Act>, symbol: string, tick: Tick, todo: set<int>)
  {
    && Run(b0, acts) == Some(b) && TicketsOk(b)
    && b.cfg == b0.cfg && b.ticks == b0.ticks && b.now == b0.now && b.expired == b0.expired
    && symbol in b.cfg.specs && symbol in b.ticks && b.ticks[symbol] == tick
    && (forall a | a in acts :: a.Trigger?)
    && (forall t | t in todo :: t in b.orders && b.orders[t].symbol == symbol)
    && (forall t | t in b.orders :: t in b0.orders && b.orders[t] == b0.orders[t])
    && (forall t | t in b.orders && b.orders[t].symbol == symbol && t !in todo :: !Touched(b.orders[t], tick))
    && (forall t | t in b0.orders && t !in b.orders :: Trigger(t) in acts)
  }

  lemma TriggeredStep(b0: Book, b: Book, acts: seq<Act>, symbol: string, tick: Tick, todo: set<int>, t: int)
    requires Triggered(b0, b, acts, symbol, tick, todo) && t in todo
    ensures !Touched(b.orders[t], tick) ==> Triggered(b0, b, acts, symbol, tick, todo - {t})
    ensures Touched(b.orders[t], tick) ==>
      && Enabled(b, Trigger(t))
      && Triggered(b0, Apply(b, Trigger(t)), acts + [Trigger(t)], symbol, tick, todo - {t})
  {
    if Touched(b.orders[t], tick) {
      RunSnoc(b0, acts, Trigger(t));
      ActKeepsTickets(b, Trigger(t));
    }
  }

  /** The close that a quote forces on a position: whole, at the stop if the stop is hit, else at the target. */
  predicate ForcedClose(positions: map<int, Position>, tick: Tick, a: Act)
  {
    && a.Close? && a.ticket in positions
    && var pos := positions[a.ticket];
       && a.volume == pos.volume
       && (StopHit(pos, tick) || TargetHit(pos, tick))
       && a.price == if StopHit(pos, tick) then pos.sl else pos.tp
  }

  /** Positions on `symbol` outside `todo` are clear of their stop and target; every close was forced. */
  ghost predicate Stopped(b0: Book, b: Book, acts: seq<Act>, symbol: string, tick: Tick, todo: set<int>)
  {
    && Run(b0, acts) == Some(b) && TicketsOk(b)
    && b.cfg == b0.cfg && b.ticks == b0.ticks && b.now == b0.now && b.expired == b0.expired && b.orders == b0.orders
    && (forall a | a in acts :: ForcedClose(b0.positions, tick, a))
    && (forall t | t in todo :: t in b.positions && b.positions[t].symbol == symbol)
    && (forall t | t in b.positions :: t in b0.positions && b.positions[t] == b0.positions[t])
    && (forall t | t in b.positions && b.positions[t].symbol == symbol && t !in todo ::
          !StopHit(b.positions[t], tick) && !TargetHit(b.positions[t], tick))
  }

  lemma StoppedStep(b0: Book, b: Book, acts: seq<Act>, symbol: string, tick: Tick, todo: set<int>, t: int, price: real)
    requires Stopped(b0, b, acts, symbol, tick, todo) && t in todo
    ensures !StopHit(b.positions[t], tick) && !TargetHit(b.positions[t], tick) ==>
      Stopped(b0, b, acts, symbol, tick, todo - {t})
    ensures ForcedClose(b.positions, tick, Close(t, b.positions[t].volume, price)) ==>
      var a := Close(t, b.positions[t].volume, price);
      Enabled(b, a) && Stopped(b0, Apply(b, a), acts + [a], symbol, tick, todo - {t})
  {
    var a := Close(t, b.positions[t].volume, price);
    if ForcedClose(b.positions, tick, a) {
      RunSnoc(b0, acts, a);
      ActKeepsTickets(b, a);
    }
  }

  /** Orders outside `todo` are not past their expiry; every order that left is listed as expired. */
  ghost predicate Lapsed(b0: Book, b: Book, acts: seq<Act>, todo: set<int>)
  {
    && Run(b0, acts) == Some(b) && TicketsOk(b)
    && b.cfg == b0.cfg && b.ticks == b0.ticks && b.now == b0.now && b.positions == b0.positions
    && b0.expired <= b.expired
    && (forall a | a in acts :: a.Expire?)
    && todo <= b.orders.Keys
    && (forall t | t in b.orders :: t in b0.orders && b.orders[t] == b0.orders[t])
    && (forall t | t in b.orders && t !in todo :: !Expired(b.orders[t], b.now))
    && (forall t | t in b0.orders && t !in b.orders :: t in b.expired)
  }

  lemma LapsedStep(b0: Book, b: Book, acts: seq<Act>, todo: set<int>, t: int)
    requires Lapsed(b0, b, acts, todo) && t in todo
    ensures !Expired(b.orders[t], b.now) ==> Lapsed(b0, b, acts, todo - {t})
    ensures Expired(b.orders[t], b.now) ==>
      Enabled(b, Expire(t)) && Lapsed(b0, Apply(b, Expire(t)), acts + [Expire(t)], todo - {t})
  {
    if Expired(b.orders[t], b.now) {
      RunSnoc(b0, acts, Expire(t));
      ActKeepsTickets(b, Expire(t));
    }
  }

  /** The book after a whole tick. */
  ghost predicate Quiescent(b0: Book, b: Book, acts: seq<Act>, symbol: string, tick: Tick)
  {
    && (forall t | t in b.orders ::
          && t in b0.orders && b.orders[t] == b0.orders[t] && !Expired(b.orders[t], b.now)
          && (b.orders[t].symbol == symbol ==> !Touched(b.orders[t], tick)))
    && (forall t | t in b.positions && b.positions[t].symbol == symbol ::
          !StopHit(b.positions[t], tick) && !TargetHit(b.positions[t], tick))
    && (forall t | t in b0.orders && t !in b.orders :: Trigger(t) in acts || t in b.expired)
  }

  /** The acts of one tick: the quote, then triggers, then forced closes, then expiries. */
  lemma TickSettles(b0: Book, symbol: string, tick: Tick, triggers: seq<Act>, b2: Book,
                    stops: seq<Act>, b3: Book, expiries: seq<Act>, b4: Book)
    requires TicketsOk(b0) && symbol in b0.cfg.specs
    requires Triggered(Apply(b0, Quote(symbol, tick)), b2, triggers, symbol, tick, {})
    requires Stopped(b2, b3, stops, symbol, tick, {}) && Lapsed(b3, b4, expiries, {})
    ensures Run(b0, [Quote(symbol, tick)] + triggers + stops + expiries) == Some(b4)
    ensures Quiescent(b0, b4, [Quote(symbol, tick)] + triggers + stops + expiries, symbol, tick)
    ensures forall a | a in triggers + stops + expiries :: a.Trigger? || a.Close? || a.Expire?
  {
    var quote := [Quote(symbol, tick)];
    RunOne(b0, Quote(symbol, tick));
    RunAppend(b0, quote, triggers);
    RunAppend(b0, quote + triggers, stops);
    RunAppend(b0, quote + triggers + stops, expiries);
  }

  /** THE LEVELS AFTER A TICK, in quotes: a resting stop order is not yet reached and a resting limit order not yet
      given, on the side of the book it trades at; an open position is closed at the other side, so a buy's bid is
      strictly between its stop and its target, and a sell's ask between its target and its stop. */
  predicate ClearOfLevels(b: Book, symbol: string, bid: real, ask: real)
  {
    && (forall t | t in b.orders && b.orders[t].symbol == symbol :: var o := b.orders[t];
          && (o.kind.BuyStop? ==> ask < o.price) && (o.kind.SellStop? ==> o.price < bid)
          && (o.kind.BuyLimit? ==> o.price < ask) && (o.kind.SellLimit? ==> bid < o.price))
    && (forall t | t in b.positions && b.positions[t].symbol == symbol :: var p := b.positions[t];
          && (p.side.BUY? ==> (p.sl == 0.0 || p.sl < bid) && (p.tp == 0.0 || bid < p.tp))
          && (p.side.SELL? ==> (p.sl == 0.0 || ask < p.sl) && (p.tp == 0.0 || p.tp < ask)))
    && (forall t | t in b.orders && b.orders[t].expiration.Some? :: b.now < b.orders[t].expiration.value)
  }

  lemma QuiescentIsClear(b0: Book, b: Book, acts: seq<Act>, symbol: string, tick: Tick)
    requires Quiescent(b0, b, acts, symbol, tick)
    ensures ClearOfLevels(b, symbol, tick.bid, tick.ask)
  {
  }

  /** An order triggers only when the quote has reached its level: the ask for a buy, the bid for a sell. It becomes a
      position of its own side, volume, price, stop and target under its own ticket. */
  lemma TriggersAtLevel(b: Book, t: int)
    requires Enabled(b, Trigger(t))
    ensures var o, tick, b' := b.orders[t], b.ticks[b.orders[t].symbol], Apply(b, Trigger(t));
      && (o.kind.BuyStop? ==> o.price <= tick.ask) && (o.kind.BuyLimit? ==> tick.ask <= o.price)
      && (o.kind.SellStop? ==> tick.bid <= o.price) && (o.kind.SellLimit? ==> o.price <= tick.bid)
      && o.kind.IsPending()
      && t !in b'.orders && t in b'.positions
      && var p := b'.positions[t];
         && (p.side.BUY? <==> o.kind.BuyStop? || o.kind.BuyLimit?)
         && p.priceOpen == o.price && p.volume == o.volume && p.sl == o.sl && p.tp == o.tp && p.comment == o.comment
  {
  }

  /** A tick closes a position only at its stop or its target, reached by the side of the book it is closed at; and at
      its stop when both are. */
  lemma ClosesAtLevel(positions: map<int, Position>, tick: Tick, a: Act)
    requires ForcedClose(positions, tick, a)
    ensures var p := positions[a.ticket];
      && (p.side.BUY? ==> (p.sl != 0.0 && tick.bid <= p.sl && a.price == p.sl)
                          || (p.tp != 0.0 && p.tp <= tick.bid && a.price == p.tp && (p.sl == 0.0 || p.sl < tick.bid)))
      && (p.side.SELL? ==> (p.sl != 0.0 && p.sl <= tick.ask && a.price == p.sl)
                           || (p.tp != 0.0 && tick.ask <= p.tp && a.price == p.tp && (p.sl == 0.0 || tick.ask < p.sl)))
  {
  }
}
