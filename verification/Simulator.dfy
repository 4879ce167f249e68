/** The simulated broker: order requests and scripted ticks change its books in place. */
module Simulator {
  import opened Protocol
  import opened Retcodes
  import opened Market
  import opened Dealing
  import opened Ticking
  import opened Accounting
  import opened Snapshots

  class SimClient {
    const cfg: Config
    var orders: map<int, PendingOrder>
    var positions: map<int, Position>
    var deals: seq<Deal>
    var expired: seq<int>
    var ticks: map<string, Tick>
    var now: int
    var nextTicket: int
    var balance: real
    var selected: set<string>
    var injections: seq<Injection>
    var sendCount: nat
    var tradeAllowed: bool
    var slippagePoints: int
    var partialFill: real

    function State(): Book
      reads this
    {
      Book(cfg, orders, positions, deals, expired, ticks, now, nextTicket, balance)
    }

    function Conditions(): Terms
      reads this
    {
      Terms(tradeAllowed, slippagePoints, partialFill)
    }

    constructor (specs: map<string, Spec>, balance: real, commissionPerLot: real, now: int)
      ensures Valid(State())
      ensures this.balance == balance && deals == [] && orders == map[] && positions == map[] && injections == []
      ensures cfg == Config(specs, commissionPerLot) && this.now == now && tradeAllowed
    {
      cfg := Config(specs, commissionPerLot);
      orders, positions, deals, expired, ticks := map[], map[], [], [], map[];
      this.now, nextTicket, this.balance := now, 1000, balance;
      selected, injections, sendCount := {}, [], 0;
      tradeAllowed, slippagePoints, partialFill := true, 0, 0.0;
    }

    /** Equity as the account reports it: the floating profits summed in whatever order the positions come. */
    method AccountEquity() returns (equity: real)
      requires TicketsOk(State())
      ensures equity == Equity(State())
    {
      var floating, todo := 0.0, positions.Keys;
      ghost var done: set<int> := {};
      EmptyChoice(State(), nextTicket);
      while todo != {}
        invariant todo + done == positions.Keys && todo !! done
        invariant floating == Floating(State(), done, nextTicket)
        decreases todo
      {
        SomeMember(todo);
        var t :| t in todo;
        ChooseOne(State(), done, t, nextTicket);
        floating := floating + PositionProfit(State(), positions[t]);
        todo, done := todo - {t}, done + {t};
      }
      assert done == positions.Keys;
      equity := balance + floating;
    }

    /** Queues one scripted reply for a later `order_send`. */
    method Inject(injection: Injection)
      modifies this`injections
      ensures injections == old(injections) + [injection]
    {
      injections := injections + [injection];
    }

    method SetConditions(terms: Terms)
      modifies this`tradeAllowed, this`slippagePoints, this`partialFill
      ensures Conditions() == terms
    {
      tradeAllowed, slippagePoints, partialFill := terms.tradeAllowed, terms.slippagePoints, terms.partialFill;
    }

    // --------------------------------------------------------------- reading

    method PositionsGet(symbol: Option<string>) returns (ps: seq<Position>)
      requires TicketsOk(State())
      ensures ListsPositions(positions, symbol, ps)
    {
      var chosen := set t | t in positions && OnSymbol(positions[t].symbol, symbol);
      var tickets := Ascending(chosen);
      ps := [];
      for i := 0 to |tickets|
        invariant |ps| == i
        invariant forall k | 0 <= k < i :: tickets[k] in chosen && ps[k] == positions[tickets[k]] && ps[k].ticket == tickets[k]
      {
        assert tickets[i] in tickets;
        ps := ps + [positions[tickets[i]]];
      }
      forall t | t in positions && OnSymbol(positions[t].symbol, symbol) ensures positions[t] in ps {
        assert t in tickets;
      }
    }

    method OrdersGet(symbol: Option<string>) returns (os: seq<PendingOrder>)
      requires TicketsOk(State())
      ensures ListsOrders(orders, symbol, os)
    {
      var chosen := set t | t in orders && OnSymbol(orders[t].symbol, symbol);
      var tickets := Ascending(chosen);
      os := [];
      for i := 0 to |tickets|
        invariant |os| == i
        invariant forall k | 0 <= k < i :: tickets[k] in chosen && os[k] == orders[tickets[k]] && os[k].ticket == tickets[k]
      {
        assert tickets[i] in tickets;
        os := os + [orders[tickets[i]]];
      }
      forall t | t in orders && OnSymbol(orders[t].symbol, symbol) ensures orders[t] in os {
        assert t in tickets;
      }
    }

    method HistoryDealsGet(from: int, to: int) returns (ds: seq<Deal>)
      ensures ds == DealsWithin(deals, from, to)
    {
      ds := [];
      for i := 0 to |deals|
        invariant ds == DealsWithin(deals[..i], from, to)
      {
        assert deals[..i + 1][..i] == deals[..i];
        if from <= deals[i].time <= to {
          ds := ds + [deals[i]];
        }
      }
      assert deals[..|deals|] == deals;
    }

    method SymbolInfoTick(name: string) returns (tick: Option<Tick>)
      ensures tick == if name in selected && name in ticks then Some(ticks[name]) else None
    {
      if name !in selected || name !in ticks {
        return None;
      }
      tick := Some(ticks[name]);
    }

    // --------------------------------------------------------------- trading

    /** Books the closing deal of `volume` at `price` and shrinks or removes the position. */
    method SettleClose(pos: Position, volume: int, price: real) returns (result: OrderResult)
      requires TicketsOk(State()) && pos.ticket in positions && positions[pos.ticket] == pos && volume <= pos.volume
      modifies this`deals, this`nextTicket, this`balance, this`positions
      ensures State() == Apply(old(State()), Close(pos.ticket, volume, price))
      ensures result == OrderResult(DONE, nextTicket, pos.ticket, volume, price)
    {
      var spec := cfg.specs[pos.symbol];
      var profit := CalcProfit(spec, pos.side, volume, pos.priceOpen, price);
      var commission := Commission(cfg, spec, volume);
      nextTicket := nextTicket + 1;
      deals := deals + [Deal(nextTicket, pos.ticket, pos.ticket, pos.symbol, pos.side.Opposite(), OUT, volume,
                             price, profit, -commission, pos.magic, pos.comment, now)];
      balance := balance + (profit - commission);
      if volume >= pos.volume {
        positions := positions - {pos.ticket};
      } else {
        positions := positions[pos.ticket := pos.(volume := pos.volume - volume)];
      }
      result := OrderResult(DONE, nextTicket, pos.ticket, volume, price);
    }

    /** Opens a position of `volume` at `price` under two fresh tickets and books its deal. */
    method OpenPosition(r: OrderRequest, volume: int, price: real) returns (result: OrderResult)
      requires TicketsOk(State()) && r.symbol in cfg.specs
      modifies this`deals, this`nextTicket, this`balance, this`positions
      ensures State() == Apply(old(State()), Open(r, volume, price))
      ensures result == OrderResult(DONE, nextTicket, nextTicket - 1, volume, price) && nextTicket == old(nextTicket) + 2
    {
      var ticket := nextTicket + 1;
      nextTicket := ticket + 1;
      var commission := Commission(cfg, cfg.specs[r.symbol], volume);
      var side := r.kind.GetSide();
      positions := positions[ticket := Position(ticket, r.symbol, side, volume, price, r.sl, r.tp, r.magic, r.comment, now)];
      deals := deals + [Deal(nextTicket, ticket, ticket, r.symbol, side, IN, volume, price, 0.0, -commission, r.magic, r.comment, now)];
      balance := balance - commission;
      result := OrderResult(DONE, nextTicket, ticket, volume, price);
    }

    /** Closes up to `volume` of a position (all of it for volume 0) at the current quote. */
    method ClosePosition(pos: Position, volume: int) returns (reply: Reply, ghost acts: seq<Act>)
      requires TicketsOk(State()) && pos.ticket in positions && positions[pos.ticket] == pos
      modifies this`deals, this`nextTicket, this`balance, this`positions
      ensures Run(old(State()), acts) == Some(State())
      ensures Decision(acts, reply) ==
              if pos.symbol !in ticks then Decision([], Raised)
              else
                var v := Min(if volume == 0 then pos.volume else volume, pos.volume);
                var price := ClosingSide(ticks[pos.symbol], pos.side);
                Decision([Close(pos.ticket, v, price)],
                         Got(OrderResult(DONE, old(nextTicket) + 1, pos.ticket, v, price)))
    {
      acts := [];
      if pos.symbol !in ticks {
        return Raised, [];
      }
      var tick := ticks[pos.symbol];
      var price := if pos.side.BUY? then tick.bid else tick.ask;
      var wanted := if volume == 0 then pos.volume else volume;
      acts := [Close(pos.ticket, Min(wanted, pos.volume), price)];
      RunOne(State(), acts[0]);
      var result := SettleClose(pos, Min(wanted, pos.volume), price);
      reply := Got(result);
    }

    /** The volume a market order fills, and the return code that says whether it is all of it. A used
        partial-fill instruction is cleared. */
    method TakeVolume(spec: Spec, wanted: int) returns (volume: int, retcode: int)
      modifies this`partialFill
      ensures volume == FillVolume(spec, old(partialFill), wanted)
      ensures retcode == if volume < wanted then DONE_PARTIAL else DONE
      ensures partialFill == if old(partialFill) > 0.0 then 0.0 else old(partialFill)
    {
      volume, retcode := wanted, DONE;
      if partialFill > 0.0 {
        volume := FillVolume(spec, partialFill, volume);
        if volume < wanted {
          retcode := DONE_PARTIAL;
        }
        partialFill := 0.0;
      }
    }

    method ExecMarket(r: OrderRequest) returns (reply: Reply, ghost acts: seq<Act>)
      requires TicketsOk(State()) && r.action.DEAL?
      modifies this`deals, this`nextTicket, this`balance, this`positions, this`partialFill
      ensures Decision(acts, reply) == DecideMarket(old(State()), old(Conditions()), r)
      ensures Run(old(State()), acts) == Some(State())
      ensures Conditions() == TermsAfter(old(Conditions()), acts)
    {
      hide CalcProfit, Commission, MarketPrice, FillVolume, TicketsOk, Apply;
      acts := [];
      if r.symbol !in cfg.specs || r.symbol !in ticks {
        return Raised, [];
      }
      var spec := cfg.specs[r.symbol];
      var side := r.kind.GetSide();
      if r.positionTicket != 0 && r.positionTicket in positions && positions[r.positionTicket].side != side {
        KeyIsTicket(State(), r.positionTicket);
        reply, acts := ClosePosition(positions[r.positionTicket], r.volume);
        return;
      }
      var price := MarketPrice(spec, ticks[r.symbol], slippagePoints, side);
      if r.deviation != 0 && r.price != 0.0 {
        if Abs(price - r.price) > r.deviation as real * spec.point + PRICE_EPSILON {
          return Got(OrderResult(REQUOTE, 0, 0, 0, 0.0)), [];
        }
      }
      var volume, retcode := TakeVolume(spec, r.volume);
      acts := [Open(r, volume, price)];
      RunOne(State(), acts[0]);
      var result := OpenPosition(r, volume, price);
      reply := Got(result.(retcode := retcode));
    }

    lemma KeyIsTicket(b: Book, t: int)
      requires TicketsOk(b) && t in b.positions
      ensures b.positions[t].ticket == t
    {
    }

    method Execute(r: OrderRequest) returns (reply: Reply, ghost acts: seq<Act>)
      requires TicketsOk(State())
      modifies this`deals, this`nextTicket, this`balance, this`positions, this`partialFill, this`orders
      ensures Decision(acts, reply) == Decide(old(State()), old(Conditions()), r)
      ensures Conditions() == TermsAfter(old(Conditions()), acts)
      ensures Run(old(State()), acts) == Some(State())
    {
      hide DecideMarket, CalcProfit, Commission;
      acts := Decide(State(), Conditions(), r).acts;
      ghost var before := State();
      if acts != [] && Enabled(before, acts[0]) {
        RunOne(before, acts[0]);
        assert |acts| == 1 ==> [acts[0]] == acts;
      }
      match r.action
      case DEAL =>
        reply, acts := ExecMarket(r);
      case PENDING =>
        var ticket := nextTicket + 1;
        nextTicket := ticket;
        orders := orders[ticket := PendingOrder(ticket, r.symbol, r.kind, r.volume, r.price, r.sl, r.tp, r.magic,
                                                r.comment, now, r.expiration)];
        reply := Got(OrderResult(PLACED, 0, ticket, 0, r.price));
      case SLTP =>
        if r.positionTicket !in positions {
          reply := Got(OrderResult(INVALID, 0, 0, 0, 0.0));
        } else {
          positions := positions[r.positionTicket := positions[r.positionTicket].(sl := r.sl, tp := r.tp)];
          reply := Got(OrderResult(DONE, 0, 0, 0, 0.0));
        }
      case MODIFY =>
        if r.orderTicket !in orders {
          reply := Got(OrderResult(INVALID, 0, 0, 0, 0.0));
        } else {
          var o := orders[r.orderTicket];
          orders := orders[r.orderTicket := o.(price := if r.price != 0.0 then r.price else o.price,
                                               sl := if r.sl != 0.0 then r.sl else o.sl,
                                               tp := if r.tp != 0.0 then r.tp else o.tp)];
          reply := Got(OrderResult(DONE, 0, r.orderTicket, 0, 0.0));
        }
      case REMOVE =>
        if r.orderTicket !in orders {
          reply := Got(OrderResult(INVALID, 0, 0, 0, 0.0));
        } else {
          orders := orders - {r.orderTicket};
          reply := Got(OrderResult(DONE, 0, r.orderTicket, 0, 0.0));
        }
    }

    /** One `order_send`: the head injection, if any, decides the reply and whether the broker acts. */
    method OrderSend(r: OrderRequest) returns (reply: Reply, ghost acts: seq<Act>)
      requires TicketsOk(State())
      modifies this`deals, this`nextTicket, this`balance, this`positions, this`partialFill, this`orders,
               this`injections, this`sendCount
      ensures Decision(acts, reply) == DecideSend(old(State()), old(Conditions()), old(injections), r)
      ensures Run(old(State()), acts) == Some(State())
      ensures injections == if old(injections) == [] then [] else old(injections)[1..]
      ensures sendCount == old(sendCount) + 1
      ensures Conditions() == TermsAfter(old(Conditions()), acts)
    {
      hide Decide, Validate;
      acts := [];
      sendCount := sendCount + 1;
      if injections != [] {
        var injection := injections[0];
        injections := injections[1..];
        if injection.executeAnyway {
          reply, acts := Execute(r);
          if reply.Raised? {
            return;
          }
        }
        if injection.retcode.None? {
          return NoResult, acts;
        }
        return Got(OrderResult(injection.retcode.value, 0, 0, 0, 0.0)), acts;
      }
      var code := Validate(State(), Conditions(), r);
      if code != 0 {
        return Got(OrderResult(code, 0, 0, 0, 0.0)), [];
      }
      reply, acts := Execute(r);
    }

    // -------------------------------------------------------- tick processing

    /** A touched pending order becomes a position under the same ticket, at its own level. */
    method TriggerOrder(order: PendingOrder)
      requires TicketsOk(State()) && order.ticket in orders && orders[order.ticket] == order
      requires Enabled(State(), Trigger(order.ticket))
      modifies this`orders, this`positions, this`deals, this`nextTicket, this`balance
      ensures State() == Apply(old(State()), Trigger(order.ticket))
    {
      orders := orders - {order.ticket};
      nextTicket := nextTicket + 1;
      var commission := Commission(cfg, cfg.specs[order.symbol], order.volume);
      var side := order.kind.GetSide();
      positions := positions[order.ticket := Position(order.ticket, order.symbol, side, order.volume, order.price,
                                                      order.sl, order.tp, order.magic, order.comment, now)];
      deals := deals + [Deal(nextTicket, order.ticket, order.ticket, order.symbol, side, IN, order.volume,
                             order.price, 0.0, -commission, order.magic, order.comment, now)];
      balance := balance - commission;
    }

    method ProcessTriggers(symbol: string, tick: Tick) returns (ghost acts: seq<Act>)
      requires TicketsOk(State()) && symbol in cfg.specs && symbol in ticks && ticks[symbol] == tick
      modifies this`orders, this`positions, this`deals, this`nextTicket, this`balance
      ensures Triggered(old(State()), State(), acts, symbol, tick, {}) && TicketsOk(State())
    {
      ghost var b0 := State();
      acts := [];
      var todo := set t | t in orders && orders[t].symbol == symbol;
      while todo != {}
        invariant Triggered(b0, State(), acts, symbol, tick, todo)
        decreases todo
      {
        SomeMember(todo);
        var t :| t in todo;
        TriggeredStep(b0, State(), acts, symbol, tick, todo, t);
        todo := todo - {t};
        var order := orders[t];
        if Touched(order, tick) {
          TriggerOrder(order);
          acts := acts + [Trigger(t)];
        }
      }
    }

    /** Each position on the symbol that the quote has reached is closed, its stop taking precedence. */
    method ProcessStops(symbol: string, tick: Tick) returns (ghost acts: seq<Act>)
      requires TicketsOk(State())
      modifies this`positions, this`deals, this`nextTicket, this`balance
      ensures Stopped(old(State()), State(), acts, symbol, tick, {}) && TicketsOk(State())
    {
      ghost var b0 := State();
      acts := [];
      var todo := set t | t in positions && positions[t].symbol == symbol;
      while todo != {}
        invariant Stopped(b0, State(), acts, symbol, tick, todo)
        decreases todo
      {
        SomeMember(todo);
        var t :| t in todo;
        var pos := positions[t];
        if StopHit(pos, tick) {
          StoppedStep(b0, State(), acts, symbol, tick, todo, t, pos.sl);
          var _ := SettleClose(pos, pos.volume, pos.sl);
          acts := acts + [Close(t, pos.volume, pos.sl)];
        } else if TargetHit(pos, tick) {
          StoppedStep(b0, State(), acts, symbol, tick, todo, t, pos.tp);
          var _ := SettleClose(pos, pos.volume, pos.tp);
          acts := acts + [Close(t, pos.volume, pos.tp)];
        } else {
          StoppedStep(b0, State(), acts, symbol, tick, todo, t, 0.0);
        }
        todo := todo - {t};
      }
    }

    method ProcessExpirations() returns (ghost acts: seq<Act>)
      requires TicketsOk(State())
      modifies this`orders, this`expired
      ensures Lapsed(old(State()), State(), acts, {})
    {
      ghost var b0 := State();
      acts := [];
      var todo := orders.Keys;
      while todo != {}
        invariant Lapsed(b0, State(), acts, todo)
        decreases todo
      {
        SomeMember(todo);
        var t :| t in todo;
        LapsedStep(b0, State(), acts, todo, t);
        todo := todo - {t};
        if Expired(orders[t], now) {
          orders := orders - {t};
          expired := expired + [t];
          acts := acts + [Expire(t)];
        }
      }
    }

    lemma QuoteKeepsTickets(b: Book, symbol: string, tick: Tick)
      requires TicketsOk(b) && symbol in b.cfg.specs
      ensures TicketsOk(Apply(b, Quote(symbol, tick)))
      ensures Apply(b, Quote(symbol, tick)) == b.(ticks := b.ticks[symbol := tick], now := tick.time)
    {
    }

    /** One scripted tick. Afterwards the book is quiescent: no resting order on the symbol is touched,
        no open position on it (a just triggered one included) is at its stop or target, no resting
        order anywhere is past its expiry, and every order that left either triggered under its own
        ticket or is listed as expired. */
    method PushTick(symbol: string, bid: real, ask: real, time: int) returns (raised: bool, ghost acts: seq<Act>)
      requires Valid(State())
      modifies this`orders, this`positions, this`deals, this`nextTicket, this`balance, this`expired, this`ticks, this`now
      ensures raised <==> symbol !in cfg.specs
      ensures raised ==> State() == old(State()) && acts == []
      ensures Run(old(State()), acts) == Some(State()) && Valid(State())
      ensures balance - CashFlow(deals) == old(balance - CashFlow(deals))
      ensures !raised ==> acts != [] && acts[0] == Quote(symbol, Tick(time, bid, ask))
      ensures !raised ==> forall a | a in acts[1..] :: a.Trigger? || a.Close? || a.Expire?
      ensures !raised ==> Quiescent(old(State()), State(), acts, symbol, Tick(time, bid, ask)) && now == time
      ensures !raised ==> ClearOfLevels(State(), symbol, bid, ask)
    {
      hide ClearOfLevels, Quiescent, CalcProfit, DealsOk, Sourced, Labelled, VolumesOk, CashFlow, Triggered, Stopped, Lapsed;
      ghost var b0 := State();
      acts := [];
      if symbol !in cfg.specs {
        return true, [];
      }
      QuoteKeepsTickets(b0, symbol, Tick(time, bid, ask));
      raised := false;
      now := time;
      var tick := Tick(time, bid, ask);
      ticks := ticks[symbol := tick];
      assert State() == b0.(ticks := ticks, now := time);
      ghost var triggers := ProcessTriggers(symbol, tick);
      ghost var b2 := State();
      ghost var stops := ProcessStops(symbol, tick);
      ghost var b3 := State();
      ghost var expiries := ProcessExpirations();
      TickSettles(b0, symbol, tick, triggers, b2, stops, b3, expiries, State());
      acts := [Quote(symbol, tick)] + triggers + stops + expiries;
      QuiescentIsClear(b0, State(), acts, symbol, tick);
      assert acts[1..] == triggers + stops + expiries;
      RunKeepsLaws(b0, acts);
    }
  }
}
