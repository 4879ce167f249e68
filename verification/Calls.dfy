/** The stages of one execution call, as facts about the world, and why they last. */
module Calls {
  import opened Protocol
  import opened Retcodes
  import opened Market
  import opened Footprint
  import opened Dealing
  import opened Snapshots
  import opened Intents
  import opened World
  import opened Rely

  const FIVE_MINUTES := 300

  datatype Outcome =
    | Refused                        // the claim was refused; nothing was sent
    | Finished(state: OrderState)    // the row holds this state
    | Aborted                        // a gateway read raised; the row is in flight unless somebody cancelled it

  /** The row is in this state, or somebody has cancelled it. */
  predicate Stands(row: Row, state: OrderState) { row.state == state || row.state.CANCELLED? }

  /** The call for `k` may still send: nothing at the broker carries its key. */
  ghost predicate Sending(w: World, k: string)
  {
    k in w.rows && Stands(w.rows[k], ARMED) && w.rows[k].ticket == 0 && k in w.entitled
  }

  /** The call for `k` may not send any more; what carries its key has this magic and symbol and is not
      older than `since`. */
  ghost predicate Waiting(w: World, k: string, state: OrderState, magic: int, symbol: string, since: int)
  {
    && k in w.rows && Stands(w.rows[k], state) && w.rows[k].ticket == 0 && k !in w.entitled
    && Tagged(w.book, CommentFor(k), magic, symbol, since) && since <= w.book.now
  }

  /** Where the call stands after a reply. */
  ghost predicate Answered(w: World, k: string, r: OrderRequest, reply: Reply, since: int)
  {
    && (if MayHaveExecuted(reply) then Waiting(w, k, ARMED, r.magic, r.symbol, since) else Sending(w, k))
    && (r.action.DEAL? ==> |Resting(w.book.orders, CommentFor(k))| == 0)
    && (r.action.PENDING? && ActionFor(CodeOf(reply)).ACCEPT_PARTIAL? ==> Effects(w.book, CommentFor(k)) == 0)
    && Booked(w.book, r, reply, CommentFor(k))
  }

  /** A deal under `c` from before `cutoff`. */
  predicate AgedDeal(b: Book, c: string, cutoff: int)
  {
    exists i | 0 <= i < |b.deals| :: b.deals[i].comment == c && b.deals[i].time < cutoff
  }

  /** What a finished call may say: the state is true of the broker, PLACED means an order rests now, and
      CANCELLED means there was never an effect, unless the call has run for more than a day and the key's deal
      is older than that. */
  ghost predicate Sayable(b: Book, k: string, s: OrderState, since: int)
  {
    && TrueOf(b, k, s)
    && (s.PLACED? ==> |Resting(b.orders, CommentFor(k))| > 0)
    && (s.CANCELLED? ==> Effects(b, CommentFor(k)) == 0 || (DAY < b.now - since && AgedDeal(b, CommentFor(k), b.now - DAY)))
    && (s.FILLED? || s.PLACED? || s.PARTIAL? || s.REJECTED? || s.CANCELLED? || s.UNKNOWN?)
  }

  /** What the broker shows for the ticket and volume that a row records: an open position or a deal for a
      fill, a resting order for a placement. A partial fill claimed without a ticket did not happen. */
  ghost predicate Evidence(b: Book, row: Row, c: string)
  {
    match row.state
    case FILLED => FillShown(b, row.ticket, row.volume, c)
    case PARTIAL => if row.ticket != 0 then FillShown(b, row.ticket, row.volume, c) else Effects(b, c) == 0
    case PLACED => row.ticket in b.orders && b.orders[row.ticket].comment == c
    case _ => true
  }

  predicate FillShown(b: Book, t: int, volume: int, c: string)
  {
    || DealShown(b, t, volume, c)
    || (t in b.positions && b.positions[t].comment == c && b.positions[t].volume == volume)
  }

  /** What a returned outcome says about row and broker, for a call that began at `since`. */
  ghost predicate Reported(o: Outcome, w: World, k: string, since: int)
  {
    match o
    case Refused => true
    case Aborted => k in w.rows && (InFlight(w.rows[k].state) || w.rows[k].state.CANCELLED?) && k !in w.entitled
    case Finished(s) =>
      k in w.rows && w.rows[k].state == s && k !in w.entitled && Sayable(w.book, k, s, since)
      && Evidence(w.book, w.rows[k], CommentFor(k))
  }

  lemma BookedKept(w: World, w': World, k: string, r: OrderRequest, reply: Reply)
    requires Booked(w.book, r, reply, CommentFor(k)) && Undisturbed(w, w', k)
    ensures Booked(w'.book, r, reply, CommentFor(k))
  {
    hide Owned, Effects;
    if reply.Got? && DealShown(w.book, reply.result.order, reply.result.volume, CommentFor(k)) {
      var i :| 0 <= i < |w.book.deals| && w.book.deals[i].positionId == reply.result.order
               && w.book.deals[i].volume == reply.result.volume && w.book.deals[i].comment == CommentFor(k);
      assert w'.book.deals[i] == w.book.deals[i];
    }
  }

  /** A believed success claim names its ticket: with a position of the key open, the replied ticket and
      volume are a deal of the key. */
  lemma BelievedClaim(w: World, k: string, r: OrderRequest, reply: Reply, p: Position)
    requires Core(w) && Booked(w.book, r, reply, CommentFor(k)) && r.action.DEAL? && r.positionTicket == 0
    requires reply.Got? && ClaimsSuccess(reply)
    requires p.ticket in w.book.positions && w.book.positions[p.ticket] == p && p.comment == CommentFor(k)
    ensures Owned(w.book, reply.result.order, CommentFor(k))
    ensures reply.result.order != 0 && DealShown(w.book, reply.result.order, reply.result.volume, CommentFor(k))
  {
    hide Core, Owned, DealShown, TrueOf;
    PositionSeen(w, k, p);
  }

  lemma SendingKept(w: World, w': World, k: string)
    requires Sending(w, k) && Undisturbed(w, w', k)
    ensures Sending(w', k) && w.book.now <= w'.book.now
  {
  }

  lemma WaitingKept(w: World, w': World, k: string, state: OrderState, magic: int, symbol: string, since: int)
    requires Waiting(w, k, state, magic, symbol, since) && Undisturbed(w, w', k)
    ensures Waiting(w', k, state, magic, symbol, since)
    ensures |Resting(w'.book.orders, CommentFor(k))| <= |Resting(w.book.orders, CommentFor(k))|
  {
  }

  lemma SendAnswered(w: World, k: string, r: OrderRequest, reply: Reply, w': World, since: int)
    requires Core(w) && Sending(w, k) && Makes(w, Send(k, r, reply), w') && since <= w.book.now
    ensures Answered(w', k, r, reply, since)
  {
    hide DecideSend, Served, Effects, Booked, Core;
    SendBooked(w, Send(k, r, reply));
    SendTags(w, Send(k, r, reply));
    SendMeans(w, Send(k, r, reply));
    ServedFrame(w, r);
  }

  /** A send that raised before it reached the broker counts as unanswered. */
  lemma RaisedAnswered(w: World, k: string, r: OrderRequest, w': World, since: int)
    requires Core(w) && Sending(w, k) && w' == w.(entitled := w.entitled - {k}) && since <= w.book.now
    ensures Answered(w', k, r, Raised, since)
  {
    assert AtMostOnce(w, k);
    NoEffectsNothingShown(w.book, CommentFor(k));
  }

  lemma SendingHasNoEffect(w: World, k: string)
    requires Core(w) && Sending(w, k)
    ensures Effects(w.book, CommentFor(k)) == 0
  {
    assert AtMostOnce(w, k);
  }

  lemma NothingIsRejected(b: Book, k: string, since: int)
    requires Effects(b, CommentFor(k)) == 0
    ensures Sayable(b, k, REJECTED, since)
  {
  }

  lemma RestingIsPlaced(b: Book, k: string, o: PendingOrder, since: int)
    requires o.ticket in b.orders && b.orders[o.ticket] == o && o.comment == CommentFor(k)
    ensures Sayable(b, k, PLACED, since)
  {
    assert o.ticket in Resting(b.orders, CommentFor(k));
  }

  /** What a row may say once a listing shows something under its key, or a believed reply names it. */
  ghost predicate Settles(w: World, k: string, s: OrderState, ticket: int, volume: int, since: int)
    requires k in w.rows
  {
    && Sayable(w.book, k, s, since) && Owned(w.book, ticket, CommentFor(k))
    && Evidence(w.book, Written(w.rows, k, s, ticket, volume)[k], CommentFor(k))
  }

  lemma PositionSettles(w: World, k: string, p: Position, since: int)
    requires Core(w) && k in w.rows
    requires p.ticket in w.book.positions && w.book.positions[p.ticket] == p && p.comment == CommentFor(k)
    ensures Settles(w, k, FILLED, p.ticket, p.volume, since)
  {
    hide TrueOf, Owned, DealShown;
    PositionSeen(w, k, p);
    PositionOwned(w, k, p);
  }

  lemma OrderSettles(w: World, k: string, o: PendingOrder, since: int)
    requires Core(w) && k in w.rows
    requires o.ticket in w.book.orders && w.book.orders[o.ticket] == o && o.comment == CommentFor(k)
    ensures Settles(w, k, PLACED, o.ticket, 0, since) && |Resting(w.book.orders, CommentFor(k))| > 0
  {
    hide TrueOf, Owned, DealShown;
    RestingIsPlaced(w.book, k, o, since);
    OrderOwned(w, k, o);
  }

  lemma DealSettles(w: World, k: string, d: Deal, since: int)
    requires Core(w) && k in w.rows && d in w.book.deals && d.comment == CommentFor(k)
    ensures Settles(w, k, FILLED, d.positionId, d.volume, since)
  {
    hide TrueOf, Owned;
    DealSeen(w, k, d);
    DealOwned(w, k, d);
    var i :| 0 <= i < |w.book.deals| && w.book.deals[i] == d;
  }

  /** A success claim believed because a position of the key is open. */
  lemma ReplySettles(w: World, k: string, r: OrderRequest, reply: Reply, p: Position, since: int)
    requires Core(w) && k in w.rows && Booked(w.book, r, reply, CommentFor(k)) && r.action.DEAL? && r.positionTicket == 0
    requires reply.Got? && ClaimsSuccess(reply)
    requires p.ticket in w.book.positions && w.book.positions[p.ticket] == p && p.comment == CommentFor(k)
    ensures Settles(w, k, FILLED, reply.result.order, reply.result.volume, since)
  {
    hide TrueOf, Owned, DealShown, Booked, ClaimsSuccess;
    PositionSeen(w, k, p);
    BelievedClaim(w, k, r, reply, p);
  }

  /** A partial fill is recorded as the reply has it. */
  lemma PartialSettles(w: World, k: string, r: OrderRequest, reply: Reply, since: int)
    requires ClaimsSuccess(reply)
    requires k in w.rows && w.rows[k].ticket == 0 && |Resting(w.book.orders, CommentFor(k))| == 0
    requires Booked(w.book, r, reply, CommentFor(k)) && r.action.DEAL? && r.positionTicket == 0 && reply.Got?
    ensures Settles(w, k, PARTIAL, reply.result.order, reply.result.volume, since)
  {
    hide Owned, DealShown, Effects;
  }

  /** States that record no ticket. */
  lemma NoTicketSettles(w: World, k: string, s: OrderState, since: int)
    requires k in w.rows && (s.REJECTED? || s.CANCELLED? || s.UNKNOWN?) && Sayable(w.book, k, s, since)
    ensures Settles(w, k, s, 0, 0, since)
  {
    hide Sayable;
  }

  /** A placement's reply: placed under its ticket if that ticket is listed, else unknown. */
  lemma PlacementSettles(w: World, k: string, r: OrderRequest, reply: Reply, since: int)
    requires Core(w) && k in w.rows && Booked(w.book, r, reply, CommentFor(k)) && r.positionTicket == 0 && reply.Got?
    ensures Settles(w, k, OrderState.UNKNOWN, reply.result.order, 0, since)
    ensures reply.result.order in w.book.orders ==> Settles(w, k, PLACED, reply.result.order, 0, since)
  {
    hide DealShown, Effects;
    var t := reply.result.order;
    if t in w.book.orders {
      RestingIsPlaced(w.book, k, w.book.orders[t], since);
    }
  }

  lemma Listed(b: Book, symbol: string, os: seq<PendingOrder>, t: int)
    requires TicketsOk(b) && ListsOrders(b.orders, Some(symbol), os)
    requires t in b.orders && OnSymbol(b.orders[t].symbol, Some(symbol))
    ensures exists k | 0 <= k < |os| :: os[k].ticket == t
  {
    assert b.orders[t] in os;
  }

  /** A claimed placement whose ticket is not listed on the symbol: nothing of the key rests. */
  lemma PlacementUnseen(w: World, k: string, r: OrderRequest, reply: Reply, symbol: string, since: int, os: seq<PendingOrder>)
    requires Core(w) && Booked(w.book, r, reply, CommentFor(k)) && r.positionTicket == 0
    requires reply.Got? && ClaimsSuccess(reply)
    requires Tagged(w.book, CommentFor(k), r.magic, symbol, since) && ListsOrders(w.book.orders, Some(symbol), os)
    requires forall j | 0 <= j < |os| :: os[j].ticket != reply.result.order
    ensures |Resting(w.book.orders, CommentFor(k))| == 0
  {
    hide DealShown, ClaimsSuccess;
    var t := reply.result.order;
    if t in w.book.orders && w.book.orders[t].comment == CommentFor(k) {
      Listed(w.book, symbol, os, t);
      assert false;
    }
    if t != 0 {
      forall u | u in w.book.orders ensures w.book.orders[u].comment != CommentFor(k) {
        assert w.book.orders[u].comment == CommentFor(k) ==> u == t;
      }
      assert Resting(w.book.orders, CommentFor(k)) == {};
    }
  }

  /** With nothing resting and no deal in the last day's window, there was no effect since then. */
  lemma AbsentIsCancelled(b: Book, k: string, magic: int, symbol: string, since: int)
    requires |Resting(b.orders, CommentFor(k))| == 0 && Tagged(b, CommentFor(k), magic, symbol, since)
    requires forall d | d in DealsWithin(b.deals, b.now - DAY, b.now + FIVE_MINUTES) ::
               !(d.comment == CommentFor(k) && d.magic == magic)
    ensures Sayable(b, k, CANCELLED, since)
  {
    if Ins(b.deals, CommentFor(k)) > 0 {
      var i := InsFindsDeal(b.deals, CommentFor(k));
      DealsWithinMembers(b.deals, b.now - DAY, b.now + FIVE_MINUTES, b.deals[i]);
    }
  }

  // ------------------------------------------------------------------ removals

  /** A request to remove one resting order; it touches no price, volume or comment. */
  function RemoveRequest(symbol: string, ticket: int): OrderRequest
  {
    OrderRequest(REMOVE, symbol, 0, Buy, 0.0, 0.0, 0.0, 0, 0, "", FOK, None, 0, ticket)
  }

  /** With nothing injected, a removal works exactly when the order is there to remove and the desk and the
      named symbol are open for trading. */
  lemma RemovalRemoves(w: World, symbol: string, ticket: int)
    requires w.queue == []
    ensures ticket !in Served(w, RemoveRequest(symbol, ticket)).book.orders <==>
            ticket !in w.book.orders
            || (symbol in w.book.cfg.specs && !w.book.cfg.specs[symbol].disabled && w.terms.tradeAllowed)
  {
    var r := RemoveRequest(symbol, ticket);
    var d := Answer(w, r);
    if d.acts == [] {
      assert Run(w.book, d.acts) == Some(w.book);
    } else {
      assert d.acts == [Cancel(ticket)];
      RunOne(w.book, Cancel(ticket));
    }
  }

  /** When CANCELLED is true after a DONE reply to a removal: exactly when nothing of the key rested before,
      or the removed ticket was the key's and the reply was not an injected one. */
  lemma CancelledIsTrueWhen(w: World, key: string, symbol: string, ticket: int)
    requires Core(w) && CodeOf(Answer(w, RemoveRequest(symbol, ticket)).reply) == Some(DONE)
    ensures TrueOf(Served(w, RemoveRequest(symbol, ticket)).book, key, CANCELLED) <==>
            var resting := Resting(w.book.orders, CommentFor(key));
            resting == {} || (resting == {ticket} && w.queue == [])
  {
    hide Valid, Effects;
    var r, c := RemoveRequest(symbol, ticket), CommentFor(key);
    var d := Answer(w, r);
    var resting := Resting(w.book.orders, c);
    AtMostOneRests(w, key);
    if w.queue != [] {
      assert HonestInjection(w.queue[0]);
      assert d.acts == [];
      assert Run(w.book, d.acts) == Some(w.book);
    } else {
      assert d.acts == [Cancel(ticket)];
      RunOne(w.book, Cancel(ticket));
      RestingAfter(w.book.orders, ticket, w.book.orders[ticket], c);
    }
  }

  lemma RemovalReplies(w: World, symbol: string, ticket: int)
    requires w.queue == [] && ticket in w.book.orders
    requires symbol in w.book.cfg.specs && !w.book.cfg.specs[symbol].disabled && w.terms.tradeAllowed
    ensures var r := RemoveRequest(symbol, ticket);
      CodeOf(Answer(w, r).reply) == Some(DONE) && Served(w, r) == w.(book := Apply(w.book, Cancel(ticket)))
  {
    var d := Answer(w, RemoveRequest(symbol, ticket));
    assert d.acts == [Cancel(ticket)];
    RunOne(w.book, Cancel(ticket));
  }

  /** A CANCEL UNDER A RUNNING CALL. The call for `k` has placed its order and not yet read it back when another call
      removes the order and marks the row CANCELLED. A new intent claims the symbol. The first call finds nothing
      and writes UNKNOWN. Every write is true of the broker, and the symbol is claimed twice. */
  lemma CancelledUnderneath(w: World, k: string, o: PendingOrder, other: string, strategy: string, direction: Side)
      returns (ws: seq<World>, ms: seq<Move>)
    requires Core(w) && OneInFlight(w.rows) && k in w.rows && w.rows[k].state.ARMED? && k !in w.entitled
    requires o.ticket in w.book.orders && w.book.orders[o.ticket] == o && o.comment == CommentFor(k)
    requires w.queue == [] && w.terms.tradeAllowed
    requires w.rows[k].symbol in w.book.cfg.specs && !w.book.cfg.specs[w.rows[k].symbol].disabled
    requires other !in w.rows && forall x | x in w.rows && x != k :: !Blocks(w.rows[x], w.rows[k].symbol, "")
    ensures IsRun(ws, ms) && |ms| == 4 && ws[0] == w
    ensures ms[0].Trader? && ms[0].request == RemoveRequest(w.rows[k].symbol, o.ticket) && CodeOf(ms[0].reply) == Some(DONE)
    ensures ms[1] == Write(k, CANCELLED, 0, 0) && Faithful(ws[1], ms[1]) && !Revives(ws[1], ms[1])
    ensures ms[2] == Claim(other, w.rows[k].symbol, strategy, direction, "")
    ensures ms[3] == Write(k, OrderState.UNKNOWN, o.ticket, 0) && Faithful(ws[3], ms[3]) && Revives(ws[3], ms[3])
    ensures OneInFlight(ws[3].rows) && !OneInFlight(ws[4].rows)
  {
    hide Core, DecideSend, Served, Apply, Owned, OneInFlight, Resting, TrueOf;
    var symbol := w.rows[k].symbol;
    var r := RemoveRequest(symbol, o.ticket);
    RemovalReplies(w, symbol, o.ticket);
    var m0, m1 := Trader(r, Answer(w, r).reply), Write(k, CANCELLED, 0, 0);
    var m2, m3 := Claim(other, symbol, strategy, direction, ""), Write(k, OrderState.UNKNOWN, o.ticket, 0);
    var w1 := After(w, m0);
    ServedFrame(w, r);
    RemovedIsGone(w, k, o);
    var w2 := After(w1, m1);
    MoveKeepsLock(w1, m1);
    var w3 := After(w2, m2);
    MoveKeepsLock(w2, m2);
    var w4 := After(w3, m3);
    MoveKeepsLock(w3, m3);
    var mine, theirs := w3.rows[k], w3.rows[other];
    assert theirs.state.ARMED? && theirs.symbol == mine.symbol && theirs.ocoGroup == "" && mine.state.CANCELLED?;
    ws, ms := [w, w1, w2, w3, w4], [m0, m1, m2, m3];
    forall i | 0 <= i < |ms| ensures StepAt(ws, ms, i) {
    }
  }

  lemma RemovedIsGone(w: World, k: string, o: PendingOrder)
    requires Core(w) && o.ticket in w.book.orders && w.book.orders[o.ticket] == o && o.comment == CommentFor(k)
    ensures var b := Apply(w.book, Cancel(o.ticket));
      TrueOf(b, k, CANCELLED) && TrueOf(b, k, OrderState.UNKNOWN) && Owned(b, o.ticket, CommentFor(k))
  {
    hide Effects;
    OrderOwned(w, k, o);
    AtMostOneRests(w, k);
    assert o.ticket in Resting(w.book.orders, CommentFor(k));
    RestingAfter(w.book.orders, o.ticket, o, CommentFor(k));
    ActOwned(w.book, Cancel(o.ticket), o.ticket, CommentFor(k));
  }
}
