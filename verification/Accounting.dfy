/** Account equity: the balance plus the floating profit of every open position. */
module Accounting {
  import opened Protocol
  import Reals
  import opened Market
  import opened Dealing

  function PositionProfit(b: Book, pos: Position): real
  {
    if pos.symbol !in b.ticks || pos.symbol !in b.cfg.specs then 0.0
    else CalcProfit(b.cfg.specs[pos.symbol], pos.side, pos.volume, pos.priceOpen, ClosingSide(b.ticks[pos.symbol], pos.side))
  }

  /** Floating profit of the positions among `chosen` with tickets up to `n`. */
  function Floating(b: Book, chosen: set<int>, n: nat): real
  {
    if n == 0 then 0.0
    else Floating(b, chosen, n - 1) + (if n in b.positions && n in chosen then PositionProfit(b, b.positions[n]) else 0.0)
  }

  function Equity(b: Book): real
    requires 0 <= b.nextTicket
  {
    b.balance + Floating(b, b.positions.Keys, b.nextTicket)
  }

  lemma {:induction false} EmptyChoice(b: Book, n: nat)
    ensures Floating(b, {}, n) == 0.0
  {
    if n == 0 {
    } else {
      EmptyChoice(b, n - 1);
    }
  }

  lemma {:induction false} ChooseOne(b: Book, chosen: set<int>, t: int, n: nat)
    requires t !in chosen && t in b.positions
    ensures Floating(b, chosen + {t}, n) == Floating(b, chosen, n) + (if 1 <= t <= n then PositionProfit(b, b.positions[t]) else 0.0)
  {
    if n == 0 {
    } else {
      ChooseOne(b, chosen, t, n - 1);
    }
  }

  /** Changing one position changes the floating total by that position's change alone. */
  lemma {:induction false} FloatingChange(b: Book, b': Book, t: int, n: nat)
    requires b.cfg == b'.cfg && b.ticks == b'.ticks
    requires forall u :: u != t ==> (u in b.positions <==> u in b'.positions) && (u in b.positions ==> b.positions[u] == b'.positions[u])
    ensures Floating(b', b'.positions.Keys, n) - Floating(b, b.positions.Keys, n) ==
            if 1 <= t <= n then
              (if t in b'.positions then PositionProfit(b', b'.positions[t]) else 0.0)
              - (if t in b.positions then PositionProfit(b, b.positions[t]) else 0.0)
            else 0.0
  {
    if n == 0 {
    } else {
      FloatingChange(b, b', t, n - 1);
    }
  }

  lemma ProfitIsAdditive(spec: Spec, side: Side, v: int, w: int, open: real, close: real)
    ensures CalcProfit(spec, side, v, open, close) + CalcProfit(spec, side, w, open, close)
            == CalcProfit(spec, side, v + w, open, close)
  {
    var raw := (close - open) / spec.tickSize * side.Sign();
    var perLot := raw * (if raw >= 0.0 then spec.tickValue else spec.tickValueLoss);
    Spread(perLot, v as real, w as real, spec.volumeStep);
  }

  lemma Spread(x: real, a: real, b: real, s: real)
    ensures x * (a * s) + x * (b * s) == x * ((a + b) * s)
  {
  }

  /** Realising profit costs nothing but the commission: a full or partial close at the quote moves
      equity by exactly minus its commission. */
  lemma CloseAtQuoteCostsCommission(b: Book, t: int, volume: int)
    requires TicketsOk(b) && t in b.positions && volume <= b.positions[t].volume && b.positions[t].symbol in b.ticks
    ensures var pos := b.positions[t];
      var a := Close(t, volume, ClosingSide(b.ticks[pos.symbol], pos.side));
      Equity(Apply(b, a)) == Equity(b) - Commission(b.cfg, b.cfg.specs[pos.symbol], volume)
  {
    var pos := b.positions[t];
    var a := Close(t, volume, ClosingSide(b.ticks[pos.symbol], pos.side));
    var b' := Apply(b, a);
    FloatingChange(b, b', t, b.nextTicket);
    assert b'.nextTicket !in b'.positions;
    ProfitIsAdditive(b.cfg.specs[pos.symbol], pos.side, volume, pos.volume - volume, pos.priceOpen, a.price);
  }

  // ------------------------------------------------------------ what a trade earns

  /** A buy closed higher earns the ticks climbed at the tick value, closed lower it loses the ticks fallen at the
      tick value of losses; a sell the other way round. */
  lemma ProfitMeans(spec: Spec, volume: int, open: real, close: real)
    ensures var climbed, lots := (close - open) / spec.tickSize, Lots(spec, volume);
      var fallen := (open - close) / spec.tickSize;
      && (open <= close ==> CalcProfit(spec, BUY, volume, open, close) == climbed * spec.tickValue * lots)
      && (close <= open ==> CalcProfit(spec, BUY, volume, open, close) == -(fallen * spec.tickValueLoss * lots))
      && (close <= open ==> CalcProfit(spec, SELL, volume, open, close) == fallen * spec.tickValue * lots)
      && (open <= close ==> CalcProfit(spec, SELL, volume, open, close) == -(climbed * spec.tickValueLoss * lots))
  {
    TicksMoved(open, close, spec.tickSize);
    var climbed := (close - open) / spec.tickSize;
    Opposite(climbed, spec.tickValueLoss, Lots(spec, volume));
    Opposite(-climbed, spec.tickValueLoss, Lots(spec, volume));
  }

  lemma TicksMoved(open: real, close: real, t: real)
    requires 0.0 < t
    ensures (open - close) / t == -((close - open) / t)
    ensures (open <= close ==> (close - open) / t >= 0.0) && (close <= open ==> (close - open) / t <= 0.0)
    ensures open == close ==> (close - open) / t == 0.0
  {
    if open <= close {
      Reals.Divide(0.0, close - open, t);
    }
    if close <= open {
      Reals.Divide(close - open, 0.0, t);
    }
  }

  lemma Opposite(x: real, y: real, z: real)
    ensures (-x) * y * z == -(x * y * z)
  {
  }

  /** What a close does to the balance. */
  lemma CloseEarns(b: Book, t: int, volume: int, price: real)
    requires TicketsOk(b) && t in b.positions && volume <= b.positions[t].volume
    ensures var pos := b.positions[t];
      var spec := b.cfg.specs[pos.symbol];
      var lots := volume as real * spec.volumeStep;
      var earned := Apply(b, Close(t, volume, price)).balance - b.balance + b.cfg.commissionPerLot * lots;
      var climbed, fallen := (price - pos.priceOpen) / spec.tickSize, (pos.priceOpen - price) / spec.tickSize;
      && (pos.side.BUY? && pos.priceOpen <= price ==> earned == climbed * spec.tickValue * lots)
      && (pos.side.BUY? && price <= pos.priceOpen ==> earned == -(fallen * spec.tickValueLoss * lots))
      && (pos.side.SELL? && price <= pos.priceOpen ==> earned == fallen * spec.tickValue * lots)
      && (pos.side.SELL? && pos.priceOpen <= price ==> earned == -(climbed * spec.tickValueLoss * lots))
  {
    hide CalcProfit;
    var pos := b.positions[t];
    ProfitMeans(b.cfg.specs[pos.symbol], volume, pos.priceOpen, price);
  }

  /** THERE AND BACK. A market order that opens, and the order that closes all of it at the same quote: together
      they lose the spread and the slippage of the entry, at the tick value of losses, and two commissions. */
  lemma ThereAndBack(b: Book, terms: Terms, r: OrderRequest, back: OrderRequest)
    requires TicketsOk(b) && r.action.DEAL? && (r.kind.Buy? || r.kind.Sell?) && !Closes(b, r)
    requires DecideMarket(b, terms, r).acts != []
    requires back.action.DEAL? && back.symbol == r.symbol && back.positionTicket == b.nextTicket + 1 && back.volume == 0
    requires if r.kind.Buy? then back.kind.Sell? else back.kind.Buy?
    ensures r.symbol in b.cfg.specs && r.symbol in b.ticks
    ensures
      var spec, tick, entered := b.cfg.specs[r.symbol], b.ticks[r.symbol], DecideMarket(b, terms, r).acts[0];
      var cost := tick.ask - tick.bid + terms.slippagePoints as real * spec.point;
      && entered.Open? && Enabled(b, entered)
      && var b1 := Apply(b, entered);
         var left, lots := DecideMarket(b1, terms, back).acts, entered.volume as real * spec.volumeStep;
         && |left| == 1 && Enabled(b1, left[0])
         && var b2 := Apply(b1, left[0]);
            && b2.positions == b.positions
            && (cost >= 0.0 ==>
                  b2.balance == b.balance - cost / spec.tickSize * spec.tickValueLoss * lots
                                - 2.0 * (b.cfg.commissionPerLot * lots))
  {
    hide CalcProfit, FillVolume;
    var entered := DecideMarket(b, terms, r).acts[0];
    var b1 := Apply(b, entered);
    var left := DecideMarket(b1, terms, back).acts;
    assert b.nextTicket + 1 !in b.positions;
    var b2 := Apply(b1, left[0]);
    assert b2.positions == b.positions;
    CloseEarns(b1, b.nextTicket + 1, entered.volume, left[0].price);
  }

  /** The deal that an act books says what happened: an entry on the order's own side, or a close on the opposite one, of
      the volume and at the price of the act, now; and the balance moves by its profit and commission. */
  lemma DealSays(b: Book, a: Act)
    requires Enabled(b, a) && (a.Open? || a.Trigger? || a.Close?)
    ensures var b' := Apply(b, a);
      && |b'.deals| == |b.deals| + 1 && b'.deals[..|b.deals|] == b.deals
      && var d := b'.deals[|b.deals|];
         && d.time == b.now && b'.balance - b.balance == d.profit + d.commission
         && (a.Open? ==>
               && d.entry.IN? && d.price == a.price && d.volume == a.volume && d.profit == 0.0 && d.symbol == a.request.symbol
               && d.positionId in b'.positions && d.side == b'.positions[d.positionId].side
               && d.magic == a.request.magic && d.comment == a.request.comment)
         && (a.Trigger? ==> var o := b.orders[a.ticket];
               && d.entry.IN? && d.price == o.price && d.volume == o.volume && d.profit == 0.0 && d.symbol == o.symbol
               && d.positionId == a.ticket && d.side == b'.positions[a.ticket].side && d.magic == o.magic && d.comment == o.comment)
         && (a.Close? ==> var p := b.positions[a.ticket];
               && d.entry.OUT? && d.price == a.price && d.volume == a.volume && d.symbol == p.symbol
               && d.positionId == a.ticket && d.side != p.side && d.magic == p.magic && d.comment == p.comment
               && d.profit == CalcProfit(b.cfg.specs[p.symbol], p.side, a.volume, p.priceOpen, a.price)
               && (if a.volume < p.volume then b'.positions == b.positions[a.ticket := p.(volume := p.volume - a.volume)]
                   else b'.positions == b.positions - {a.ticket}))
  {
    hide CalcProfit, Commission;
  }

  /** A change of a resting order or of a position's legs: for an order a zero stands for no change, for a position it
      takes the leg away; nothing else about either changes, and nothing is booked. */
  lemma ChangeMeans(b: Book, terms: Terms, r: OrderRequest)
    requires r.action.MODIFY? || r.action.SLTP?
    ensures var acts := Decide(b, terms, r).acts;
      && (r.action.MODIFY? ==> (acts != [] <==> r.orderTicket in b.orders))
      && (r.action.SLTP? ==> (acts != [] <==> r.positionTicket in b.positions))
      && (acts != [] ==>
            && Enabled(b, acts[0])
            && var b' := Apply(b, acts[0]);
               && b' == b.(orders := b'.orders, positions := b'.positions)
               && (r.action.MODIFY? ==>
                     && b'.positions == b.positions && b'.orders.Keys == b.orders.Keys
                     && (forall t | t in b.orders && t != r.orderTicket :: b'.orders[t] == b.orders[t])
                     && var o, o' := b.orders[r.orderTicket], b'.orders[r.orderTicket];
                        && o' == o.(price := o'.price, sl := o'.sl, tp := o'.tp)
                        && (if r.price == 0.0 then o'.price == o.price else o'.price == r.price)
                        && (if r.sl == 0.0 then o'.sl == o.sl else o'.sl == r.sl)
                        && (if r.tp == 0.0 then o'.tp == o.tp else o'.tp == r.tp))
               && (r.action.SLTP? ==>
                     && b'.orders == b.orders && b'.positions.Keys == b.positions.Keys
                     && (forall t | t in b.positions && t != r.positionTicket :: b'.positions[t] == b.positions[t])
                     && var p, p' := b.positions[r.positionTicket], b'.positions[r.positionTicket];
                        p'.sl == r.sl && p'.tp == r.tp && p' == p.(sl := p'.sl, tp := p'.tp)))
  {
  }
}
