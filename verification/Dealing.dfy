/** How the broker decides an order request: validation, the act it performs if any, and the reply the
    sender sees. An injection replaces the reply and says whether the broker acted all the same. */
module Dealing {
  import opened Protocol
  import Reals
  import opened Retcodes
  import opened Market

  const PRICE_EPSILON := 0.000000000001

  datatype Injection = Injection(retcode: Option<int>, executeAnyway: bool)

  /** The dealing desk's current conditions. */
  datatype Terms = Terms(tradeAllowed: bool, slippagePoints: int, partialFill: real)

  datatype Decision = Decision(acts: seq<Act>, reply: Reply)

  function Refuse(code: int): Decision { Decision([], Got(OrderResult(code, 0, 0, 0, 0.0))) }

  function Validate(b: Book, terms: Terms, r: OrderRequest): int
  {
    if r.symbol !in b.cfg.specs then INVALID
    else
      var spec := b.cfg.specs[r.symbol];
      if spec.disabled then TRADE_DISABLED
      else if !terms.tradeAllowed then CLIENT_DISABLES_AT
      else if r.action.DEAL? || r.action.PENDING? then
        if r.volume < spec.volumeMin || r.volume > spec.volumeMax then INVALID_VOLUME
        else if r.filling !in spec.fillings then INVALID_FILL
        else if r.symbol !in b.ticks then PRICE_OFF
        else
          var tick := b.ticks[r.symbol];
          var ref := if r.kind.GetSide().BUY? then tick.ask else tick.bid;
          var anchor := if r.kind.IsPending() then r.price else ref;
          var minDist := spec.stopsLevel as real * spec.point;
          if r.sl != 0.0 && Abs(anchor - r.sl) < minDist - PRICE_EPSILON then INVALID_STOPS
          else if r.tp != 0.0 && Abs(anchor - r.tp) < minDist - PRICE_EPSILON then INVALID_STOPS
          else if r.kind.IsPending() && Abs(r.price - ref) < minDist - PRICE_EPSILON then INVALID_STOPS
          else 0
      else 0
  }

  function ClosingSide(tick: Tick, side: Side): real
  {
    if side.BUY? then tick.bid else tick.ask
  }

  predicate Closes(b: Book, r: OrderRequest)
  {
    r.positionTicket != 0 && r.positionTicket in b.positions
    && b.positions[r.positionTicket].side != r.kind.GetSide()
  }

  function MarketPrice(spec: Spec, tick: Tick, slippagePoints: int, side: Side): real
  {
    var slip := slippagePoints as real * spec.point;
    if side.BUY? then tick.ask + slip else tick.bid - slip
  }

  function FillVolume(spec: Spec, partialFill: real, volume: int): int
  {
    if partialFill > 0.0 then Max(spec.volumeMin, RoundHalfEven(volume as real * partialFill)) else volume
  }

  function DecideMarket(b: Book, terms: Terms, r: OrderRequest): Decision
  {
    if r.symbol !in b.cfg.specs || r.symbol !in b.ticks then Decision([], Raised)
    else if Closes(b, r) then
      var pos := b.positions[r.positionTicket];
      if pos.symbol !in b.ticks then Decision([], Raised)
      else
        var volume := Min(if r.volume == 0 then pos.volume else r.volume, pos.volume);
        var price := ClosingSide(b.ticks[pos.symbol], pos.side);
        Decision([Close(r.positionTicket, volume, price)],
                 Got(OrderResult(DONE, b.nextTicket + 1, r.positionTicket, volume, price)))
    else
      var spec := b.cfg.specs[r.symbol];
      var price := MarketPrice(spec, b.ticks[r.symbol], terms.slippagePoints, r.kind.GetSide());
      if r.deviation != 0 && r.price != 0.0 && Abs(price - r.price) > r.deviation as real * spec.point + PRICE_EPSILON
      then Refuse(REQUOTE)
      else
        var volume := FillVolume(spec, terms.partialFill, r.volume);
        Decision([Open(r, volume, price)],
                 Got(OrderResult(if volume < r.volume then DONE_PARTIAL else DONE,
                                 b.nextTicket + 2, b.nextTicket + 1, volume, price)))
  }

  function Decide(b: Book, terms: Terms, r: OrderRequest): Decision
  {
    match r.action
    case DEAL => DecideMarket(b, terms, r)
    case PENDING => Decision([Place(r)], Got(OrderResult(PLACED, 0, b.nextTicket + 1, 0, r.price)))
    case SLTP =>
      if r.positionTicket !in b.positions then Refuse(INVALID)
      else Decision([Protect(r.positionTicket, r.sl, r.tp)], Got(OrderResult(DONE, 0, 0, 0, 0.0)))
    case MODIFY =>
      if r.orderTicket !in b.orders then Refuse(INVALID)
      else
        var o := b.orders[r.orderTicket];
        Decision([Amend(r.orderTicket, if r.price != 0.0 then r.price else o.price,
                        if r.sl != 0.0 then r.sl else o.sl, if r.tp != 0.0 then r.tp else o.tp)],
                 Got(OrderResult(DONE, 0, r.orderTicket, 0, 0.0)))
    case REMOVE =>
      if r.orderTicket !in b.orders then Refuse(INVALID)
      else Decision([Cancel(r.orderTicket)], Got(OrderResult(DONE, 0, r.orderTicket, 0, 0.0)))
  }

  function InjectedReply(injection: Injection): Reply
  {
    if injection.retcode.None? then NoResult else Got(OrderResult(injection.retcode.value, 0, 0, 0, 0.0))
  }

  /** One order request against the broker, with the injection at the head of the queue if there is one. */
  function DecideSend(b: Book, terms: Terms, queue: seq<Injection>, r: OrderRequest): Decision
  {
    if queue != [] then
      if !queue[0].executeAnyway then Decision([], InjectedReply(queue[0]))
      else
        var d := Decide(b, terms, r);
        if d.reply.Raised? then d else Decision(d.acts, InjectedReply(queue[0]))
    else
      var code := Validate(b, terms, r);
      if code != 0 then Refuse(code) else Decide(b, terms, r)
  }

  /** The dealing terms after a request: a used partial-fill instruction is cleared. */
  function TermsAfter(terms: Terms, acts: seq<Act>): Terms
  {
    if acts != [] && acts[0].Open? && terms.partialFill > 0.0 then terms.(partialFill := 0.0) else terms
  }

  /** The honest broker: it acts behind a scripted reply only when that reply is one the policy table
      treats as an unknown outcome. It may still claim a success that did not happen. */
  predicate Honest(queue: seq<Injection>)
  {
    forall i | 0 <= i < |queue| :: queue[i].executeAnyway ==> ActionFor(queue[i].retcode).UNKNOWN_OUTCOME?
  }

  /** A request causes at most one act, that act is possible, and only DEAL and PENDING requests let
      something enter the books, as themselves. */
  lemma SendActs(b: Book, terms: Terms, queue: seq<Injection>, r: OrderRequest)
    requires TicketsOk(b)
    ensures var d := DecideSend(b, terms, queue, r);
      && |d.acts| <= 1
      && Run(b, d.acts).Some?
      && (forall a | a in d.acts ::
            && Enabled(b, a) && Run(b, d.acts).value == Apply(b, a)
            && !a.Quote? && !a.Trigger? && !a.Expire?
            && (a.Enters() ==> a.request == r && (r.action.DEAL? || r.action.PENDING?))
            && (a.Open? ==> r.action.DEAL?) && (a.Place? ==> r.action.PENDING?)
            && (a.Cancel? <==> r.action.REMOVE?) && (a.Cancel? ==> a.ticket == r.orderTicket))
  {
    var d := DecideSend(b, terms, queue, r);
    if d.acts != [] {
      RunOne(b, d.acts[0]);
      assert d.acts == [d.acts[0]];
    }
  }

  /** From an honest broker, an entry order has acted only if its reply is a success claim or an
      unknown outcome; so after any other reply it is safe to send again. */
  lemma HonestReply(b: Book, terms: Terms, queue: seq<Injection>, r: OrderRequest)
    requires Honest(queue) && (r.action.DEAL? || r.action.PENDING?)
    ensures DecideSend(b, terms, queue, r).acts != [] ==> MayHaveExecuted(DecideSend(b, terms, queue, r).reply)
  {
    if queue != [] {
      assert queue[0].executeAnyway ==> ActionFor(queue[0].retcode).UNKNOWN_OUTCOME?;
    }
  }

  /** Honesty is needed: a broker that fills behind a requote has acted under a reply that the engine
      answers by sending again. */
  lemma DishonestRequote(b: Book, terms: Terms, r: OrderRequest)
    requires r.action.DEAL? && r.symbol in b.cfg.specs && r.symbol in b.ticks && r.positionTicket == 0 && r.deviation == 0
    ensures var d := DecideSend(b, terms, [Injection(Some(REQUOTE), true)], r);
      d.acts != [] && d.acts[0].Open? && ActionFor(CodeOf(d.reply)).RETRY_REFRESH?
  {
  }

  /** A market order that opens pays the quote of its own side of the book: a buy at least the ask, a sell at most
      the bid, worse by the slippage and by nothing else. */
  lemma FillSide(b: Book, terms: Terms, queue: seq<Injection>, r: OrderRequest)
    requires r.action.DEAL?
    ensures forall a | a in DecideSend(b, terms, queue, r).acts && a.Open? ::
      && r.symbol in b.cfg.specs && r.symbol in b.ticks
      && var tick, slip := b.ticks[r.symbol], terms.slippagePoints as real * b.cfg.specs[r.symbol].point;
         && (r.kind.Buy? ==> a.price - tick.ask == slip)
         && (r.kind.Sell? ==> tick.bid - a.price == slip)
         && (terms.slippagePoints == 0 ==> slip == 0.0) && (terms.slippagePoints >= 0 ==> slip >= 0.0)
  {
    hide Validate;
    if r.symbol in b.cfg.specs {
      Reals.Scale(0.0, if terms.slippagePoints >= 0 then terms.slippagePoints as real else 0.0, b.cfg.specs[r.symbol].point);
    }
  }

  /** Far enough for the broker, or absent. */
  predicate Distant(near: real, anchor: real, leg: real) { leg == 0.0 || Abs(anchor - leg) >= near }

  /** The distances that the broker wants of an entry: stop and target from the quote of the order's side, or from the
      level of a pending order, and that level from the quote. */
  predicate KeepsDistance(spec: Spec, tick: Tick, r: OrderRequest)
  {
    var near := spec.stopsLevel as real * spec.point - PRICE_EPSILON;
    match r.kind
    case Buy => Distant(near, tick.ask, r.sl) && Distant(near, tick.ask, r.tp)
    case Sell => Distant(near, tick.bid, r.sl) && Distant(near, tick.bid, r.tp)
    case _ =>
      && Distant(near, r.price, r.sl) && Distant(near, r.price, r.tp)
      && Abs(r.price - (if r.kind.BuyStop? || r.kind.BuyLimit? then tick.ask else tick.bid)) >= near
  }

  /** What each refusal of the broker's checks says, and when they pass. */
  lemma ChecksMean(b: Book, terms: Terms, r: OrderRequest)
    ensures var code := Validate(b, terms, r);
      && (code == INVALID <==> r.symbol !in b.cfg.specs)
      && (r.symbol in b.cfg.specs ==>
            var spec := b.cfg.specs[r.symbol];
            var entry := r.action.DEAL? || r.action.PENDING?;
            var sized := spec.volumeMin <= r.volume <= spec.volumeMax;
            var fillable, quoted := r.filling in spec.fillings, r.symbol in b.ticks;
            && (code == TRADE_DISABLED <==> spec.disabled)
            && (code == CLIENT_DISABLES_AT <==> !spec.disabled && !terms.tradeAllowed)
            && (code in {0, INVALID_VOLUME, INVALID_FILL, PRICE_OFF, INVALID_STOPS} <==> !spec.disabled && terms.tradeAllowed)
            && (code == INVALID_VOLUME ==> entry && !sized)
            && (code == INVALID_FILL ==> entry && sized && !fillable)
            && (code == PRICE_OFF ==> entry && sized && fillable && !quoted)
            && (code == INVALID_STOPS ==> entry && sized && fillable && quoted && !KeepsDistance(spec, b.ticks[r.symbol], r))
            && (code == 0 ==> !entry || (sized && fillable && quoted && KeepsDistance(spec, b.ticks[r.symbol], r))))
  {
    hide Abs, KeepsDistance;
    if r.symbol in b.cfg.specs && r.symbol in b.ticks {
      DistancesMean(b.cfg.specs[r.symbol], b.ticks[r.symbol], r);
    }
  }

  lemma DistancesMean(spec: Spec, tick: Tick, r: OrderRequest)
    ensures
      var ref := if r.kind.GetSide().BUY? then tick.ask else tick.bid;
      var anchor := if r.kind.IsPending() then r.price else ref;
      var minDist := spec.stopsLevel as real * spec.point;
      KeepsDistance(spec, tick, r) <==>
      !(r.sl != 0.0 && Abs(anchor - r.sl) < minDist - PRICE_EPSILON) && !(r.tp != 0.0 && Abs(anchor - r.tp) < minDist - PRICE_EPSILON)
      && !(r.kind.IsPending() && Abs(r.price - ref) < minDist - PRICE_EPSILON)
  {
    hide Abs;
  }

  /** A partial fill takes the ordered share of the volume, to the nearest step, but at least the symbol's minimum. */
  lemma PartialShare(spec: Spec, partialFill: real, volume: int)
    ensures var filled := FillVolume(spec, partialFill, volume);
      && (partialFill <= 0.0 ==> filled == volume)
      && (partialFill > 0.0 ==> spec.volumeMin <= filled && filled as real >= volume as real * partialFill - 0.5
                                && (filled == spec.volumeMin || filled as real <= volume as real * partialFill + 0.5))
  {
  }

  /** With nothing injected, a market fill is within the requested deviation of the requested price,
      and a shortfall in volume is reported as a partial fill and as nothing else. */
  lemma FillWithinDeviation(b: Book, terms: Terms, r: OrderRequest)
    requires r.action.DEAL? && !Closes(b, r)
    ensures var d := DecideSend(b, terms, [], r);
      d.acts != [] ==>
        && d.acts[0].Open? && d.reply.Got?
        && (r.deviation != 0 && r.price != 0.0 ==>
              Abs(d.reply.result.price - r.price) <= r.deviation as real * b.cfg.specs[r.symbol].point + PRICE_EPSILON)
        && d.acts[0].volume == d.reply.result.volume
        && (d.reply.result.retcode == DONE_PARTIAL <==> d.acts[0].volume < r.volume)
        && (d.reply.result.retcode == DONE <==> d.acts[0].volume >= r.volume)
  {
  }
}
