/** Armed intents: the pre-built order request of a signal, and how a retry may change it. */
module Orders {
  import opened Protocol
  import opened Reals
  import opened Retcodes
  import opened Market
  import opened Dealing
  import opened Intents

  datatype Signal = Signal(symbol: string, strategy: string, side: Side, slPoints: nat, tpPoints: nat, ocoGroup: string)

  datatype ArmedIntent = ArmedIntent(key: string, signal: Signal, request: OrderRequest, spec: Spec)

  /** The request of an intent names the intent's own symbol, carries its key, and closes nothing. */
  predicate WellFormed(i: ArmedIntent)
  {
    i.request.symbol == i.signal.symbol && i.request.comment == CommentFor(i.key) && i.request.positionTicket == 0
  }

  /** The same request at possibly other prices, stops or filling mode. */
  predicate SameRequest(r: OrderRequest, r': OrderRequest)
  {
    r' == r.(price := r'.price, sl := r'.sl, tp := r'.tp, filling := r'.filling)
  }

  predicate SameOrder(i: ArmedIntent, i': ArmedIntent)
  {
    i'.key == i.key && i'.signal == i.signal && i'.spec == i.spec && SameRequest(i.request, i'.request)
  }

  lemma SameOrderIsOrder(i: ArmedIntent, i': ArmedIntent, i'': ArmedIntent)
    requires i' == i || SameOrder(i, i')
    requires i'' == i' || SameOrder(i', i'')
    ensures SameOrder(i, i'') && i''.key == i.key && i''.signal == i.signal && i''.spec == i.spec
    ensures i''.request.action == i.request.action && (WellFormed(i) ==> WellFormed(i''))
  {
  }

  function Along(quote: real, sign: real, distance: real): real { quote + sign * distance }

  function StopFor(s: Signal, spec: Spec, quote: real, sign: real): real
  {
    Along(quote, -sign, s.slPoints as real * spec.point)
  }

  function TargetFor(s: Signal, spec: Spec, quote: real, sign: real): real
  {
    Along(quote, sign, s.tpPoints as real * spec.point)
  }

  function BuildMarketRequest(s: Signal, spec: Spec, tick: Tick, volume: int, magic: int, key: string,
                              deviation: int, filling: Filling): (r: OrderRequest)
    ensures WellFormed(ArmedIntent(key, s, r, spec)) && r.action.DEAL?
  {
    var price := if s.side.BUY? then tick.ask else tick.bid;
    var sign := s.side.Sign();
    OrderRequest(DEAL, s.symbol, volume, if s.side.BUY? then Buy else Sell, RoundPrice(spec, price),
                 RoundPrice(spec, StopFor(s, spec, price, sign)), RoundPrice(spec, TargetFor(s, spec, price, sign)),
                 deviation, magic, CommentFor(key), filling, None, 0, 0)
  }

  /** A retry quotes a fresh price and keeps the stop and target distances of the signal. */
  function WithRefreshedPrice(i: ArmedIntent, tick: Tick): (i': ArmedIntent)
    ensures SameOrder(i, i')
    ensures !i.request.action.DEAL? ==> i' == i
  {
    if !i.request.action.DEAL? then i
    else
      var buy := i.request.kind.Buy?;
      var price := if buy then tick.ask else tick.bid;
      var sign := if buy then 1.0 else -1.0;
      i.(request := i.request.(
        price := RoundPrice(i.spec, price),
        sl := RoundPrice(i.spec, StopFor(i.signal, i.spec, price, sign)),
        tp := RoundPrice(i.spec, TargetFor(i.signal, i.spec, price, sign))))
  }

  function MinDistance(spec: Spec): real
  {
    (spec.stopsLevel + 1) as real * spec.point
  }

  /** A leg that is there and nearer to the price than the broker allows. */
  predicate TooNear(spec: Spec, price: real, leg: real)
  {
    leg != 0.0 && Abs(price - leg) < MinDistance(spec)
  }

  /** One leg, moved above or below the price when it is too near. */
  function WidenLeg(spec: Spec, price: real, leg: real, above: bool): real
  {
    if TooNear(spec, price, leg) then
      RoundPrice(spec, if above then price + MinDistance(spec) else price - MinDistance(spec))
    else leg
  }

  /** A leg too near the price goes to the minimum distance on its side, on the tick grid; any other stays. */
  predicate Widened(spec: Spec, price: real, leg: real, above: bool, wide: real)
  {
    if TooNear(spec, price, leg) then
      Abs((if above then price + MinDistance(spec) else price - MinDistance(spec)) - wide) <= spec.tickSize / 2.0
    else wide == leg
  }

  /** A stop or target nearer than the broker allows is moved out to the minimum distance; None when
      neither moves. */
  function WidenStops(i: ArmedIntent): (r: Option<ArmedIntent>)
    ensures r.Some? ==> SameOrder(i, r.value) && r.value.request.price == i.request.price
                        && r.value.request.filling == i.request.filling
    ensures var sell, to := i.request.kind.GetSide().SELL?, if r.Some? then r.value.request else i.request;
      && Widened(i.spec, i.request.price, i.request.sl, sell, to.sl)
      && Widened(i.spec, i.request.price, i.request.tp, !sell, to.tp)
      && (r.None? <==> to == i.request)
  {
    WideningWidens(i.spec, i.request.price, i.request.sl, i.request.kind.GetSide().SELL?);
    WideningWidens(i.spec, i.request.price, i.request.tp, i.request.kind.GetSide().BUY?);
    var wide := i.request.(sl := WidenedStop(i), tp := WidenedTarget(i));
    if wide == i.request then None else Some(i.(request := wide))
  }

  lemma WideningWidens(spec: Spec, price: real, leg: real, above: bool)
    ensures Widened(spec, price, leg, above, WidenLeg(spec, price, leg, above))
  {
    hide RoundPrice;
    RoundedWithin(spec, if above then price + MinDistance(spec) else price - MinDistance(spec));
  }

  function WidenedStop(i: ArmedIntent): real
  {
    WidenLeg(i.spec, i.request.price, i.request.sl, i.request.kind.GetSide().SELL?)
  }

  function WidenedTarget(i: ArmedIntent): real
  {
    WidenLeg(i.spec, i.request.price, i.request.tp, i.request.kind.GetSide().BUY?)
  }

  /** The next filling mode on the ladder FOK, IOC, RETURN that the symbol supports. */
  function NextFilling(spec: Spec, current: Filling): Option<Filling>
  {
    var ladder := (if FOK in spec.fillings then [FOK] else [])
                  + (if IOC in spec.fillings then [IOC] else [])
                  + (if RETURN in spec.fillings then [RETURN] else []);
    if current !in ladder then (if ladder == [] then None else Some(ladder[0]))
    else if current == ladder[|ladder| - 1] then None
    else if current == ladder[0] then Some(ladder[1])
    else Some(ladder[2])
  }

  function Rung(f: Filling): nat
  {
    match f case FOK => 0 case IOC => 1 case RETURN => 2
  }

  /** The ladder goes from FOK over IOC to RETURN, one supported mode at a time. It offers supported modes only, and
      following it never comes back to a mode it left: two climbs at most. From an unsupported mode it offers one
      whenever the symbol supports any. */
  lemma LadderClimbs(spec: Spec, current: Filling)
    ensures NextFilling(spec, current).Some? ==>
      var next := NextFilling(spec, current).value;
      next in spec.fillings && next != current && NextFilling(spec, next) != Some(current)
      && (NextFilling(spec, next).Some? ==> NextFilling(spec, NextFilling(spec, next).value).None?)
    ensures current !in spec.fillings ==> (NextFilling(spec, current).None? <==> spec.fillings == {})
    ensures current in spec.fillings ==>
      (NextFilling(spec, current).None? <==> forall f | f in spec.fillings :: Rung(f) <= Rung(current))
    ensures NextFilling(spec, current).Some? ==>
      var next := NextFilling(spec, current).value;
      if current in spec.fillings then
        Rung(current) < Rung(next) && forall f | f in spec.fillings && Rung(current) < Rung(f) :: Rung(next) <= Rung(f)
      else forall f | f in spec.fillings :: Rung(next) <= Rung(f)
  {
    if FOK !in spec.fillings && IOC !in spec.fillings && RETURN !in spec.fillings {
      forall f ensures f !in spec.fillings {
        assert f.FOK? || f.IOC? || f.RETURN?;
      }
    }
  }

  /** What the policy table changes before the next try: a fresh quote, wider stops or another filling
      mode; None when that remedy is not to be had. */
  function Remedy(i: ArmedIntent, action: Policy, tick: Option<Tick>): Option<ArmedIntent>
  {
    match action
    case RETRY_REFRESH => if tick.Some? then Some(WithRefreshedPrice(i, tick.value)) else None
    case RETRY_ONCE => if tick.Some? then Some(WithRefreshedPrice(i, tick.value)) else None
    case RECOMPUTE_STOPS_ONCE => WidenStops(i)
    case SWITCH_FILLING_ONCE =>
      var mode := NextFilling(i.spec, i.request.filling);
      if mode.Some? then Some(i.(request := i.request.(filling := mode.value))) else None
    case _ => None
  }

  lemma Split(q: real, n: real, d: real, t: real)
    requires q == n + d
    ensures q * t == n * t + d * t
  {
  }

  lemma HalfStep(d: real, t: real)
    requires 0.0 < t && -0.5 <= d <= 0.5
    ensures -(t / 2.0) <= d * t <= t / 2.0
  {
    Scale(-0.5, d, t);
    Scale(d, 0.5, t);
  }

  lemma Apart(x: real, y: real, d: real, bound: real)
    requires x == y + d && -bound <= d <= bound
    ensures Abs(x - y) <= bound
  {
  }

  lemma NearMultiple(x: real, t: real, q: real, n: real, d: real, snapped: real)
    requires 0.0 < t && q * t == x && q == n + d && -0.5 <= d <= 0.5 && snapped == n * t
    ensures Abs(x - snapped) <= t / 2.0
  {
    Split(q, n, d, t);
    HalfStep(d, t);
    Apart(x, snapped, d * t, t / 2.0);
  }

  lemma RoundedWithin(spec: Spec, x: real)
    ensures Abs(x - RoundPrice(spec, x)) <= spec.tickSize / 2.0
  {
    var q := x / spec.tickSize;
    var n := RoundHalfEven(q) as real;
    Undo(x, spec.tickSize);
    NearMultiple(x, spec.tickSize, q, n, q - n, RoundPrice(spec, x));
  }

  predicate Near(x: real, y: real, bound: real) { Abs(x - y) <= bound }

  /** To half a tick, the request is priced at the quote, a buy's stop is the signal's distance below the quote and
      its target above, and the other way round for a sell. */
  predicate Aimed(s: Signal, spec: Spec, quote: real, buy: bool, r: OrderRequest)
  {
    var half := spec.tickSize / 2.0;
    var risk, gain := s.slPoints as real * spec.point, s.tpPoints as real * spec.point;
    && Near(quote, r.price, half)
    && (if buy then Near(quote - risk, r.sl, half) && Near(quote + gain, r.tp, half)
        else Near(quote + risk, r.sl, half) && Near(quote - gain, r.tp, half))
  }

  lemma RoundedIsAimed(s: Signal, spec: Spec, quote: real, buy: bool, r: OrderRequest)
    requires r.price == RoundPrice(spec, quote)
    requires r.sl == RoundPrice(spec, StopFor(s, spec, quote, if buy then 1.0 else -1.0))
    requires r.tp == RoundPrice(spec, TargetFor(s, spec, quote, if buy then 1.0 else -1.0))
    ensures Aimed(s, spec, quote, buy, r)
  {
    hide RoundPrice, StopFor, TargetFor, Near;
    Sides(s, spec, quote);
    RoundedNear(spec, quote);
    if buy {
      RoundedNear(spec, StopFor(s, spec, quote, 1.0));
      RoundedNear(spec, TargetFor(s, spec, quote, 1.0));
    } else {
      RoundedNear(spec, StopFor(s, spec, quote, -1.0));
      RoundedNear(spec, TargetFor(s, spec, quote, -1.0));
    }
  }

  lemma RoundedNear(spec: Spec, x: real)
    ensures Near(x, RoundPrice(spec, x), spec.tickSize / 2.0)
  {
    hide RoundPrice;
    RoundedWithin(spec, x);
  }

  lemma Sides(s: Signal, spec: Spec, quote: real)
    ensures var risk, gain := s.slPoints as real * spec.point, s.tpPoints as real * spec.point;
      && StopFor(s, spec, quote, 1.0) == quote - risk && TargetFor(s, spec, quote, 1.0) == quote + gain
      && StopFor(s, spec, quote, -1.0) == quote + risk && TargetFor(s, spec, quote, -1.0) == quote - gain
  {
    hide Along;
    UpOrDown(quote, s.slPoints as real * spec.point);
    UpOrDown(quote, s.tpPoints as real * spec.point);
  }

  lemma UpOrDown(quote: real, distance: real)
    ensures Along(quote, 1.0, distance) == quote + distance && Along(quote, -1.0, distance) == quote - distance
  {
  }

  /** A new request aims from the quote that its side trades at. */
  lemma BuiltAims(s: Signal, spec: Spec, tick: Tick, volume: int, magic: int, key: string, deviation: int, filling: Filling)
    ensures var r := BuildMarketRequest(s, spec, tick, volume, magic, key, deviation, filling);
      && r.symbol == s.symbol && r.volume == volume && r.magic == magic && r.deviation == deviation && r.filling == filling
      && (if s.side.BUY? then r.kind.Buy? && Aimed(s, spec, tick.ask, true, r)
          else r.kind.Sell? && Aimed(s, spec, tick.bid, false, r))
  {
    hide RoundPrice, StopFor, TargetFor;
    RoundedIsAimed(s, spec, if s.side.BUY? then tick.ask else tick.bid, s.side.BUY?,
                   BuildMarketRequest(s, spec, tick, volume, magic, key, deviation, filling));
  }

  /** A refreshed market request aims at the same distances from the fresh quote. */
  lemma RefreshAims(i: ArmedIntent, tick: Tick)
    requires i.request.action.DEAL?
    ensures Aimed(i.signal, i.spec, if i.request.kind.Buy? then tick.ask else tick.bid, i.request.kind.Buy?,
                  WithRefreshedPrice(i, tick).request)
  {
    hide RoundPrice, StopFor, TargetFor;
    RoundedIsAimed(i.signal, i.spec, if i.request.kind.Buy? then tick.ask else tick.bid, i.request.kind.Buy?,
                   WithRefreshedPrice(i, tick).request);
  }

  // ------------------------------------------------- what a reply lets the next request change

  /** Only price, stop and target differ, and they aim from one quote at the signal's distances. */
  ghost predicate Requoted(s: Signal, spec: Spec, r: OrderRequest, r': OrderRequest)
  {
    && r' == r.(price := r'.price, sl := r'.sl, tp := r'.tp)
    && exists quote :: Aimed(s, spec, quote, r.kind.Buy?, r')
  }

  /** The next market request after a reply with this policy: freshly priced after a requote or a plain rejection;
      with only its too near stop and target moved out after INVALID_STOPS; with only another supported filling
      mode after INVALID_FILL; and there is none after any other reply. */
  ghost predicate Cures(s: Signal, spec: Spec, action: Policy, r: OrderRequest, r': OrderRequest)
  {
    match action
    case RETRY_REFRESH => Requoted(s, spec, r, r')
    case RETRY_ONCE => Requoted(s, spec, r, r')
    case RECOMPUTE_STOPS_ONCE =>
      && r' == r.(sl := r'.sl, tp := r'.tp) && r' != r
      && Widened(spec, r.price, r.sl, r.kind.GetSide().SELL?, r'.sl)
      && Widened(spec, r.price, r.tp, r.kind.GetSide().BUY?, r'.tp)
    case SWITCH_FILLING_ONCE => r' == r.(filling := r'.filling) && r'.filling in spec.fillings && r'.filling != r.filling
    case _ => false
  }

  lemma RemedyCures(i: ArmedIntent, action: Policy, tick: Option<Tick>)
    requires i.request.action.DEAL? && Remedy(i, action, tick).Some?
    ensures Cures(i.signal, i.spec, action, i.request, Remedy(i, action, tick).value.request)
    ensures SameOrder(i, Remedy(i, action, tick).value)
  {
    hide RoundPrice, StopFor, TargetFor, WidenStops, NextFilling, Aimed;
    var next := Remedy(i, action, tick).value;
    if action.SWITCH_FILLING_ONCE? {
      LadderClimbs(i.spec, i.request.filling);
    } else if action.RECOMPUTE_STOPS_ONCE? {
      WidenedMeans(i);
    } else if tick.Some? {
      RefreshAims(i, tick.value);
    }
  }

  lemma WidenedMeans(i: ArmedIntent)
    requires WidenStops(i).Some?
    ensures SameOrder(i, WidenStops(i).value)
    ensures Cures(i.signal, i.spec, RECOMPUTE_STOPS_ONCE, i.request, WidenStops(i).value.request)
  {
    hide Widened, WidenLeg;
  }

  /** Why a refusal with a remedy got none: no quote to be had, both legs already far enough away or where they
      would go, or no further supported filling mode. */
  predicate Incurable(spec: Spec, r: OrderRequest, action: Policy, tick: Option<Tick>)
  {
    match action
    case RETRY_REFRESH => tick.None?
    case RETRY_ONCE => tick.None?
    case RECOMPUTE_STOPS_ONCE =>
      && Widened(spec, r.price, r.sl, r.kind.GetSide().SELL?, r.sl)
      && Widened(spec, r.price, r.tp, r.kind.GetSide().BUY?, r.tp)
    case SWITCH_FILLING_ONCE =>
      if r.filling in spec.fillings then forall f | f in spec.fillings :: Rung(f) <= Rung(r.filling) else spec.fillings == {}
    case _ => true
  }

  lemma RemedyIncurable(i: ArmedIntent, action: Policy, tick: Option<Tick>)
    ensures Remedy(i, action, tick).None? ==> Incurable(i.spec, i.request, action, tick)
  {
    hide WithRefreshedPrice, WidenedStop, WidenedTarget, Widened, NextFilling;
    LadderClimbs(i.spec, i.request.filling);
  }

  /** The requests that reached the broker, one for each reply but perhaps the last: the armed request first, and
      each next one as the reply to the one before it asks. */
  ghost predicate Chained(i: ArmedIntent, replies: seq<Policy>, requests: seq<OrderRequest>)
  {
    && |replies| <= |requests| + 1 && |requests| <= |replies|
    && (requests != [] ==> requests[0] == i.request)
    && (forall n | 0 < n < |requests| :: Cures(i.signal, i.spec, replies[n - 1], requests[n - 1], requests[n]))
  }

  /** All of them are the armed request at other prices, stops and filling modes. */
  lemma ChainedIsSame(i: ArmedIntent, replies: seq<Policy>, requests: seq<OrderRequest>)
    requires Chained(i, replies, requests)
    ensures forall r | r in requests :: SameRequest(i.request, r)
  {
    forall n | 0 <= n < |requests| ensures SameRequest(i.request, requests[n]) {
      LinkIsSame(i, replies, requests, n);
    }
  }

  lemma {:induction false} LinkIsSame(i: ArmedIntent, replies: seq<Policy>, requests: seq<OrderRequest>, n: nat)
    requires Chained(i, replies, requests) && n < |requests|
    ensures SameRequest(i.request, requests[n])
  {
    if n > 0 {
      LinkIsSame(i, replies, requests, n - 1);
      assert Cures(i.signal, i.spec, replies[n - 1], requests[n - 1], requests[n]);
    }
  }

  /** `r` is the request to send after these. */
  ghost predicate ComesNext(i: ArmedIntent, replies: seq<Policy>, requests: seq<OrderRequest>, r: OrderRequest)
  {
    && Chained(i, replies, requests) && |requests| == |replies|
    && if requests == [] then r == i.request
       else Cures(i.signal, i.spec, replies[|replies| - 1], requests[|requests| - 1], r)
  }

  /** The chain after one more try, which is lost at most as the last one. */
  lemma ChainGrows(i: ArmedIntent, replies: seq<Policy>, requests: seq<OrderRequest>, r: OrderRequest, action: Policy, lost: bool)
    requires ComesNext(i, replies, requests, r)
    ensures Chained(i, replies + [action], requests + (if lost then [] else [r]))
    ensures !lost ==> forall r' | Cures(i.signal, i.spec, action, r, r') :: ComesNext(i, replies + [action], requests + [r], r')
  {
    hide Cures;
  }

  /** A leg is absent or at least the broker's minimum distance from the price. */
  predicate LegOk(spec: Spec, price: real, leg: real)
  {
    leg == 0.0 || Abs(price - leg) >= spec.stopsLevel as real * spec.point
  }

  /** A widened leg is far enough, rounding to the tick grid included. */
  lemma LegFar(spec: Spec, price: real, leg: real, above: bool, wide: real)
    requires spec.tickSize <= 2.0 * spec.point && wide == WidenLeg(spec, price, leg, above)
    ensures LegOk(spec, price, wide)
  {
    var d := MinDistance(spec);
    var least := spec.stopsLevel as real * spec.point;
    Distribute(spec.stopsLevel as real, 1.0, spec.point);
    assert d == least + spec.point;
    Scale(0.0, spec.stopsLevel as real, spec.point);
    RoundedWithin(spec, if above then price + d else price - d);
  }

  /** With the quote still at the requested price, legs that are far enough are not refused. */
  lemma FarStopsPass(b: Book, terms: Terms, r: OrderRequest)
    requires r.action.DEAL? && !r.kind.IsPending() && r.symbol in b.cfg.specs && r.symbol in b.ticks
    requires r.price == if r.kind.GetSide().BUY? then b.ticks[r.symbol].ask else b.ticks[r.symbol].bid
    requires LegOk(b.cfg.specs[r.symbol], r.price, r.sl) && LegOk(b.cfg.specs[r.symbol], r.price, r.tp)
    ensures Validate(b, terms, r) != INVALID_STOPS
  {
  }

  /** One widening is enough: with the quote still at the requested price and a tick no coarser than two
      points, the broker does not refuse the widened stops again. */
  lemma WidenedStopsPass(b: Book, terms: Terms, i: ArmedIntent)
    requires i.spec.tickSize <= 2.0 * i.spec.point && WidenStops(i).Some?
    requires i.request.action.DEAL? && !i.request.kind.IsPending()
    requires i.request.symbol in b.cfg.specs && b.cfg.specs[i.request.symbol] == i.spec && i.request.symbol in b.ticks
    requires i.request.price == if i.request.kind.GetSide().BUY? then b.ticks[i.request.symbol].ask
                                else b.ticks[i.request.symbol].bid
    ensures Validate(b, terms, WidenStops(i).value.request) != INVALID_STOPS
  {
    var r := WidenStops(i).value.request;
    LegFar(i.spec, i.request.price, i.request.sl, i.request.kind.GetSide().SELL?, r.sl);
    LegFar(i.spec, i.request.price, i.request.tp, i.request.kind.GetSide().BUY?, r.tp);
    FarStopsPass(b, terms, r);
  }
}
