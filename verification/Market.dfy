/** The broker's market state as a value, and the atomic acts that change it.
    Everything the simulated broker does is a sequence of these acts, so a law that every act keeps
    holds in every reachable broker state. */
module Market {
  import opened Protocol

  datatype Config = Config(specs: map<string, Spec>, commissionPerLot: real)

  datatype Book = Book(
    cfg: Config,
    orders: map<int, PendingOrder>,
    positions: map<int, Position>,
    deals: seq<Deal>,
    expired: seq<int>,
    ticks: map<string, Tick>,
    now: int,
    nextTicket: int,
    balance: real)

  datatype Act =
    | Quote(symbol: string, tick: Tick)
    | Trigger(ticket: int)
    | Close(ticket: int, volume: int, price: real)
    | Expire(ticket: int)
    | Open(request: OrderRequest, volume: int, price: real)
    | Place(request: OrderRequest)
    | Cancel(ticket: int)
    | Amend(ticket: int, price: real, sl: real, tp: real)
    | Protect(ticket: int, sl: real, tp: real)
  {
    /** An act that creates a new order or position. */
    predicate Enters() { Open? || Place? }
  }

  // ------------------------------------------------------------------ pricing

  /** Profit of closing `volume` at `close`: losing ticks are priced with their own tick value. */
  function CalcProfit(spec: Spec, side: Side, volume: int, open: real, close: real): real
  {
    var rawTicks := (close - open) / spec.tickSize * side.Sign();
    rawTicks * (if rawTicks >= 0.0 then spec.tickValue else spec.tickValueLoss) * Lots(spec, volume)
  }

  function Commission(cfg: Config, spec: Spec, volume: int): real
  {
    cfg.commissionPerLot * Lots(spec, volume)
  }

  /** A pending order is touched when the quote reaches its level on the order's side of the book. */
  predicate Touched(order: PendingOrder, tick: Tick)
  {
    match order.kind
    case BuyStop => tick.ask >= order.price
    case SellStop => tick.bid <= order.price
    case BuyLimit => tick.ask <= order.price
    case SellLimit => tick.bid >= order.price
    case _ => false
  }

  predicate StopHit(pos: Position, tick: Tick)
  {
    pos.sl != 0.0 && if pos.side.BUY? then tick.bid <= pos.sl else tick.ask >= pos.sl
  }

  predicate TargetHit(pos: Position, tick: Tick)
  {
    pos.tp != 0.0 && if pos.side.BUY? then tick.bid >= pos.tp else tick.ask <= pos.tp
  }

  predicate Expired(order: PendingOrder, now: int)
  {
    order.expiration.Some? && now >= order.expiration.value
  }

  // --------------------------------------------------------------------- acts

  predicate Enabled(b: Book, a: Act)
  {
    match a
    case Quote(symbol, _) => symbol in b.cfg.specs
    case Trigger(t) =>
      && t in b.orders
      && b.orders[t].symbol in b.cfg.specs
      && b.orders[t].symbol in b.ticks
      && Touched(b.orders[t], b.ticks[b.orders[t].symbol])
    case Close(t, volume, _) =>
      && t in b.positions && b.positions[t].symbol in b.cfg.specs && volume <= b.positions[t].volume
    case Expire(t) => t in b.orders && Expired(b.orders[t], b.now)
    case Open(request, _, _) => request.symbol in b.cfg.specs
    case Place(_) => true
    case Cancel(t) => t in b.orders
    case Amend(t, _, _, _) => t in b.orders
    case Protect(t, _, _) => t in b.positions
  }

  function Apply(b: Book, a: Act): Book
    requires Enabled(b, a)
  {
    match a
    case Quote(symbol, tick) => b.(ticks := b.ticks[symbol := tick], now := tick.time)
    case Trigger(t) =>
      var o := b.orders[t];
      var fee := Commission(b.cfg, b.cfg.specs[o.symbol], o.volume);
      var pos := Position(t, o.symbol, o.kind.GetSide(), o.volume, o.price, o.sl, o.tp, o.magic, o.comment, b.now);
      var deal := Deal(b.nextTicket + 1, t, t, o.symbol, o.kind.GetSide(), IN, o.volume, o.price, 0.0, -fee,
                       o.magic, o.comment, b.now);
      b.(orders := b.orders - {t}, positions := b.positions[t := pos],
         nextTicket := b.nextTicket + 1, deals := b.deals + [deal], balance := b.balance - fee)
    case Close(t, volume, price) =>
      var pos := b.positions[t];
      var spec := b.cfg.specs[pos.symbol];
      var profit := CalcProfit(spec, pos.side, volume, pos.priceOpen, price);
      var fee := Commission(b.cfg, spec, volume);
      var deal := Deal(b.nextTicket + 1, t, t, pos.symbol, pos.side.Opposite(), OUT, volume, price, profit, -fee,
                       pos.magic, pos.comment, b.now);
      b.(positions := if volume >= pos.volume then b.positions - {t} else b.positions[t := pos.(volume := pos.volume - volume)],
         nextTicket := b.nextTicket + 1, deals := b.deals + [deal], balance := b.balance + (profit - fee))
    case Expire(t) => b.(orders := b.orders - {t}, expired := b.expired + [t])
    case Open(r, volume, price) =>
      var t := b.nextTicket + 1;
      var fee := Commission(b.cfg, b.cfg.specs[r.symbol], volume);
      var pos := Position(t, r.symbol, r.kind.GetSide(), volume, price, r.sl, r.tp, r.magic, r.comment, b.now);
      var deal := Deal(t + 1, t, t, r.symbol, r.kind.GetSide(), IN, volume, price, 0.0, -fee, r.magic, r.comment, b.now);
      b.(positions := b.positions[t := pos], nextTicket := t + 1, deals := b.deals + [deal], balance := b.balance - fee)
    case Place(r) =>
      var t := b.nextTicket + 1;
      var order := PendingOrder(t, r.symbol, r.kind, r.volume, r.price, r.sl, r.tp, r.magic, r.comment, b.now, r.expiration);
      b.(orders := b.orders[t := order], nextTicket := t)
    case Cancel(t) => b.(orders := b.orders - {t})
    case Amend(t, price, sl, tp) => b.(orders := b.orders[t := b.orders[t].(price := price, sl := sl, tp := tp)])
    case Protect(t, sl, tp) => b.(positions := b.positions[t := b.positions[t].(sl := sl, tp := tp)])
  }

  /** The state after the acts, or None when some act was not enabled at its turn. */
  function Run(b: Book, acts: seq<Act>): Option<Book>
    decreases |acts|
  {
    if acts == [] then Some(b)
    else
      var before := Run(b, acts[..|acts| - 1]);
      var a := acts[|acts| - 1];
      if before.Some? && Enabled(before.value, a) then Some(Apply(before.value, a)) else None
  }

  /** A run extended by one enabled act. */
  lemma RunSnoc(b: Book, acts: seq<Act>, a: Act)
    requires Run(b, acts).Some? && Enabled(Run(b, acts).value, a)
    ensures Run(b, acts + [a]) == Some(Apply(Run(b, acts).value, a))
  {
    assert (acts + [a])[..|acts|] == acts;
  }

  lemma RunOne(b: Book, a: Act)
    requires Enabled(b, a)
    ensures Run(b, [a]) == Some(Apply(b, a))
  {
    assert [a][..0] == [];
    assert Run(b, []) == Some(b);
  }

  /** Runs compose. */
  lemma {:induction false} RunAppend(b: Book, acts: seq<Act>, more: seq<Act>)
    requires Run(b, acts).Some? && Run(Run(b, acts).value, more).Some?
    ensures Run(b, acts + more) == Run(Run(b, acts).value, more)
    decreases |more|
  {
    if more == [] {
      assert acts + more == acts;
    } else {
      var head := more[..|more| - 1];
      RunAppend(b, acts, head);
      assert (acts + more)[..|acts + more| - 1] == acts + head;
    }
  }

  // ---------------------------------------------------------------- ledgers

  /** Profits and signed commissions of all deals. */
  function CashFlow(deals: seq<Deal>): real
  {
    if deals == [] then 0.0
    else
      var d := deals[|deals| - 1];
      CashFlow(deals[..|deals| - 1]) + (d.profit + d.commission)
  }

  /** Volume bought in minus volume taken out under one position ticket. */
  function NetVolume(deals: seq<Deal>, t: int): int
  {
    if deals == [] then 0
    else
      var d := deals[|deals| - 1];
      NetVolume(deals[..|deals| - 1], t)
      + (if d.positionId != t then 0 else if d.entry.IN? then d.volume else -d.volume)
  }

  function OpenVolume(b: Book, t: int): int
  {
    if t in b.positions then b.positions[t].volume else 0
  }

  /** Number of opening deals that carry one comment. */
  function Ins(deals: seq<Deal>, c: string): nat
  {
    if deals == [] then 0
    else
      var d := deals[|deals| - 1];
      Ins(deals[..|deals| - 1], c) + (if d.entry.IN? && d.comment == c then 1 else 0)
  }

  /** Tickets of the resting orders that carry one comment. */
  function Resting(orders: map<int, PendingOrder>, c: string): set<int>
  {
    set t | t in orders && orders[t].comment == c
  }

  /** Effects an order comment has had: orders still resting plus positions ever opened. */
  function Effects(b: Book, c: string): nat
  {
    |Resting(b.orders, c)| + Ins(b.deals, c)
  }

  lemma DealAppended(deals: seq<Deal>, d: Deal)
    ensures CashFlow(deals + [d]) == CashFlow(deals) + (d.profit + d.commission)
    ensures forall t :: NetVolume(deals + [d], t) ==
                        NetVolume(deals, t) + (if d.positionId != t then 0 else if d.entry.IN? then d.volume else -d.volume)
    ensures forall c :: Ins(deals + [d], c) == Ins(deals, c) + (if d.entry.IN? && d.comment == c then 1 else 0)
  {
    assert (deals + [d])[..|deals|] == deals;
  }

  // -------------------------------------------------------------- invariant

  /** Tickets are keys, are already issued, and never name both an order and a position. */
  ghost predicate TicketsOk(b: Book)
  {
    && 0 <= b.nextTicket
    && (forall t :: t in b.orders ==> b.orders[t].ticket == t && 0 < t <= b.nextTicket)
    && (forall t :: t in b.positions ==>
          b.positions[t].ticket == t && 0 < t <= b.nextTicket && b.positions[t].symbol in b.cfg.specs)
    && b.orders.Keys !! b.positions.Keys
  }

  /** Deal tickets strictly increase; a deal's position is issued and no longer a resting order;
      no position ticket is opened twice. */
  ghost predicate DealsOk(b: Book)
  {
    && (forall i | 0 <= i < |b.deals| ::
          0 < b.deals[i].ticket <= b.nextTicket && 0 < b.deals[i].positionId <= b.nextTicket
          && b.deals[i].positionId !in b.orders)
    && (forall i, j | 0 <= i < j < |b.deals| ::
          && b.deals[i].ticket < b.deals[j].ticket
          && (b.deals[i].entry.IN? && b.deals[j].entry.IN? ==> b.deals[i].positionId != b.deals[j].positionId))
  }

  /** Every position and every deal goes back to an opening deal with its comment. */
  ghost predicate Sourced(b: Book)
  {
    && (forall t :: t in b.positions ==> Ins(b.deals, b.positions[t].comment) > 0)
    && (forall i | 0 <= i < |b.deals| :: Ins(b.deals, b.deals[i].comment) > 0)
  }

  /** The deals of one position carry one comment, and an open position's deals carry its own. */
  ghost predicate Labelled(b: Book)
  {
    && (forall i, j | 0 <= i < j < |b.deals| && b.deals[i].positionId == b.deals[j].positionId ::
          b.deals[i].comment == b.deals[j].comment)
    && (forall i | 0 <= i < |b.deals| && b.deals[i].positionId in b.positions ::
          b.deals[i].comment == b.positions[b.deals[i].positionId].comment)
  }

  ghost predicate VolumesOk(b: Book)
  {
    forall t :: NetVolume(b.deals, t) == OpenVolume(b, t)
  }

  ghost predicate Valid(b: Book)
  {
    TicketsOk(b) && DealsOk(b) && Sourced(b) && Labelled(b) && VolumesOk(b)
  }

  lemma ActKeepsTickets(b: Book, a: Act)
    requires TicketsOk(b) && Enabled(b, a)
    ensures TicketsOk(Apply(b, a))
  {
    hide CalcProfit, Commission;
  }

  lemma ActKeepsDeals(b: Book, a: Act)
    requires TicketsOk(b) && DealsOk(b) && Enabled(b, a)
    ensures DealsOk(Apply(b, a))
  {
    hide CalcProfit, Commission;
  }

  lemma ActKeepsSourced(b: Book, a: Act)
    requires TicketsOk(b) && Sourced(b) && Enabled(b, a)
    ensures Sourced(Apply(b, a))
  {
    hide CalcProfit, Commission, Ins;
    var b' := Apply(b, a);
    if a.Trigger? || a.Close? || a.Open? {
      var d := b'.deals[|b.deals|];
      DealAppended(b.deals, d);
      assert b'.deals == b.deals + [d];
      assert forall c :: Ins(b'.deals, c) >= Ins(b.deals, c);
      assert a.Close? ==> d.comment == b.positions[a.ticket].comment;
      assert Ins(b'.deals, d.comment) > 0;
      forall t | t in b'.positions ensures Ins(b'.deals, b'.positions[t].comment) > 0 {
        assert b'.positions[t].comment == d.comment || t in b.positions;
      }
    } else {
      assert b'.deals == b.deals;
    }
  }

  lemma ActKeepsLabels(b: Book, a: Act)
    requires TicketsOk(b) && DealsOk(b) && Labelled(b) && Enabled(b, a)
    ensures Labelled(Apply(b, a))
  {
    hide CalcProfit, Commission;
    var b' := Apply(b, a);
    if a.Close? && a.ticket !in b'.positions {
      // The last deals of a position that is gone: all its deals had its comment.
      assert forall i | 0 <= i < |b.deals| && b.deals[i].positionId == a.ticket :: b.deals[i].comment == b.positions[a.ticket].comment;
    }
  }

  lemma ActKeepsVolumes(b: Book, a: Act)
    requires TicketsOk(b) && VolumesOk(b) && Enabled(b, a)
    ensures VolumesOk(Apply(b, a))
  {
    hide CalcProfit, Commission, NetVolume;
    var b' := Apply(b, a);
    if a.Trigger? || a.Close? || a.Open? {
      var d := b'.deals[|b.deals|];
      DealAppended(b.deals, d);
      assert b'.deals == b.deals + [d];
      forall t ensures NetVolume(b'.deals, t) == OpenVolume(b', t) {
        assert NetVolume(b.deals, t) == OpenVolume(b, t);
      }
    } else {
      assert b'.deals == b.deals;
      forall t ensures OpenVolume(b', t) == OpenVolume(b, t) {}
    }
  }

  /** Every act moves the balance by exactly the profit and commission of the deals it books. */
  lemma ActKeepsCash(b: Book, a: Act)
    requires Enabled(b, a)
    ensures Apply(b, a).balance - CashFlow(Apply(b, a).deals) == b.balance - CashFlow(b.deals)
  {
    hide CalcProfit, Commission, CashFlow;
    var b' := Apply(b, a);
    if b'.deals != b.deals {
      DealAppended(b.deals, b'.deals[|b.deals|]);
    }
  }

  /** Conservation over every run of the broker: tickets stay disjoint and fresh, each position's open
      volume is what its deals brought in minus what they took out, and the balance is the initial
      balance plus the profits and signed commissions of all deals. */
  lemma {:induction false} RunKeepsLaws(b: Book, acts: seq<Act>)
    requires Valid(b) && Run(b, acts).Some?
    ensures Valid(Run(b, acts).value)
    ensures Run(b, acts).value.balance - CashFlow(Run(b, acts).value.deals) == b.balance - CashFlow(b.deals)
    decreases |acts|
  {
    if acts == [] {
    } else {
      var head := acts[..|acts| - 1];
      var a := acts[|acts| - 1];
      RunKeepsLaws(b, head);
      var before := Run(b, head).value;
      ActKeepsTickets(before, a);
      ActKeepsDeals(before, a);
      ActKeepsSourced(before, a);
      ActKeepsLabels(before, a);
      ActKeepsVolumes(before, a);
      ActKeepsCash(before, a);
    }
  }
}
