/** What an entry order becomes at a broker that takes it as it is. */
module Fills {
  import opened Protocol
  import opened Retcodes
  import opened Market
  import opened Dealing
  import opened Intents
  import opened World

  /** The broker will do what the request asks, all of it: no scripted reply waits, the checks pass, no partial fill
      is ordered, and the price of a market order is within its deviation. */
  predicate Ready(w: World, r: OrderRequest)
  {
    && w.queue == [] && Validate(w.book, w.terms, r) == 0 && r.positionTicket == 0
    && (r.action.DEAL? ==>
          var spec := w.book.cfg.specs[r.symbol];
          var price := MarketPrice(spec, w.book.ticks[r.symbol], w.terms.slippagePoints, r.kind.GetSide());
          && w.terms.partialFill <= 0.0
          && (r.deviation == 0 || r.price == 0.0 || Abs(price - r.price) <= r.deviation as real * spec.point + PRICE_EPSILON))
  }

  /** Readiness is a matter of the broker alone. */
  lemma ReadyStays(w: World, w': World, r: OrderRequest)
    requires w'.book == w.book && w'.terms == w.terms && w'.queue == w.queue
    ensures Ready(w', r) == Ready(w, r)
  {
  }

  /** The position under this ticket is what the request asked for. */
  predicate OpensAs(b: Book, t: int, r: OrderRequest)
  {
    t in b.positions &&
    var p := b.positions[t];
    && p.symbol == r.symbol && (p.side.BUY? <==> r.kind.GetSide().BUY?) && p.volume == r.volume
    && p.sl == r.sl && p.tp == r.tp && p.magic == r.magic && p.comment == r.comment && p.time == b.now
  }

  /** The order under this ticket is what the request asked for. */
  predicate RestsAs(b: Book, t: int, r: OrderRequest)
  {
    t in b.orders &&
    var o := b.orders[t];
    && o.symbol == r.symbol && o.kind == r.kind && o.volume == r.volume && o.price == r.price
    && o.sl == r.sl && o.tp == r.tp && o.magic == r.magic && o.comment == r.comment && o.expiration == r.expiration
  }

  lemma ReadyOpens(w: World, r: OrderRequest)
    requires Ready(w, r) && r.action.DEAL?
    ensures var reply := Answer(w, r).reply;
      && reply.Got? && reply.result.retcode == DONE && reply.result.volume == r.volume
      && OpensAs(Served(w, r).book, reply.result.order, r)
  {
    hide Validate, MarketPrice, CalcProfit, Commission;
    var d := Answer(w, r);
    ValidIsListed(w, r);
    RunOne(w.book, d.acts[0]);
    assert d.acts == [d.acts[0]];
  }

  lemma ReadyRests(w: World, r: OrderRequest)
    requires Ready(w, r) && r.action.PENDING?
    ensures var reply := Answer(w, r).reply;
      && reply.Got? && reply.result.retcode == Retcodes.PLACED && RestsAs(Served(w, r).book, reply.result.order, r)
  {
    hide Validate, MarketPrice;
    var d := Answer(w, r);
    RunOne(w.book, d.acts[0]);
    assert d.acts == [d.acts[0]];
  }

  lemma ValidIsListed(w: World, r: OrderRequest)
    requires Validate(w.book, w.terms, r) == 0 && r.action.DEAL?
    ensures r.symbol in w.book.cfg.specs && r.symbol in w.book.ticks
  {
  }

  /** The row of `k` records a fill under a ticket whose position is what `r` asked for. */
  predicate FilledAs(w: World, k: string, r: OrderRequest)
  {
    k in w.rows && w.rows[k].state.FILLED? && w.rows[k].volume == r.volume && OpensAs(w.book, w.rows[k].ticket, r)
  }

  /** The row of `k` records a placement under a ticket whose order is what `r` asked for. */
  predicate PlacedAs(w: World, k: string, r: OrderRequest)
  {
    k in w.rows && w.rows[k].state.PLACED? && RestsAs(w.book, w.rows[k].ticket, r)
  }
}
