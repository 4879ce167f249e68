/** Startup stop enforcement: an our-magic position without a stop is given a fallback stop. */
module Stops {
  import opened Protocol
  import opened Market
  import opened World
  import Reals

  const FALLBACK_POINT := 0.0001

  function Offset(points: int, point: real): real { points as real * point }

  /** The stop `points` away from the opening price, on the losing side. */
  function FallbackStop(b: Book, p: Position, points: int): real
  {
    var point := if p.symbol in b.cfg.specs then b.cfg.specs[p.symbol].point else FALLBACK_POINT;
    if p.side.BUY? then p.priceOpen - Offset(points, point) else p.priceOpen + Offset(points, point)
  }

  function StopRequest(p: Position, sl: real): OrderRequest
  {
    OrderRequest(SLTP, p.symbol, 0, Buy, 0.0, sl, p.tp, 0, 0, "", FOK, None, p.ticket, 0)
  }

  /** The world after a stop has been sent for each position of the list that has none. */
  function Secure(w: World, ps: seq<Position>, points: int): World
  {
    if ps == [] then w
    else
      var p, before := ps[|ps| - 1], Secure(w, ps[..|ps| - 1], points);
      if p.sl == 0.0 then Served(before, StopRequest(p, FallbackStop(w.book, p, points))) else before
  }

  /** The tickets of the positions without a stop, in listing order. */
  function BareTickets(ps: seq<Position>): seq<int>
  {
    if ps == [] then []
    else
      var p := ps[|ps| - 1];
      BareTickets(ps[..|ps| - 1]) + (if p.sl == 0.0 then [p.ticket] else [])
  }

  function Bare(ps: seq<Position>): set<int> { set p | p in ps && p.sl == 0.0 :: p.ticket }

  /** The listed positions are the open ones, each listed once. */
  ghost predicate Current(b: Book, ps: seq<Position>)
  {
    && (forall p | p in ps :: p.ticket in b.positions && b.positions[p.ticket] == p)
    && (forall i, j | 0 <= i < j < |ps| :: ps[i].ticket != ps[j].ticket)
  }

  predicate Tradable(w: World, symbol: string)
  {
    symbol in w.book.cfg.specs && !w.book.cfg.specs[symbol].disabled && w.terms.tradeAllowed
  }

  /** The positions with a fallback stop where one is missing and the symbol may be traded. */
  function Guarded(w: World, ps: seq<Position>, points: int): map<int, Position>
  {
    map t | t in w.book.positions ::
      if t in Bare(ps) && Tradable(w, w.book.positions[t].symbol)
      then w.book.positions[t].(sl := FallbackStop(w.book, w.book.positions[t], points))
      else w.book.positions[t]
  }

  /** Whether the `i`-th stop request takes effect: the injected reply that it meets says so, or, with none left, the
      desk decides. */
  predicate Acts(w: World, i: nat, symbol: string)
  {
    if i < |w.queue| then w.queue[i].executeAnyway else Tradable(w, symbol)
  }

  predicate Secured(w: World, ps: seq<Position>, t: int)
    requires t in w.book.positions
  {
    exists i | 0 <= i < |BareTickets(ps)| :: BareTickets(ps)[i] == t && Acts(w, i, w.book.positions[t].symbol)
  }

  /** The positions with a fallback stop where a request for one takes effect. */
  function SecuredPositions(w: World, ps: seq<Position>, points: int): map<int, Position>
  {
    map t | t in w.book.positions ::
      if Secured(w, ps, t) then w.book.positions[t].(sl := FallbackStop(w.book, w.book.positions[t], points))
      else w.book.positions[t]
  }

  /** Serving one stop request changes at most that position's stop and target. */
  lemma StopServed(w: World, p: Position, sl: real)
    requires p.ticket in w.book.positions
    ensures var r := StopRequest(p, sl);
      && var positions := Served(w, r).book.positions;
         positions == w.book.positions
         || positions == w.book.positions[p.ticket := w.book.positions[p.ticket].(sl := sl, tp := p.tp)]
    ensures Served(w, StopRequest(p, sl)) ==
            w.(book := w.book.(positions := Served(w, StopRequest(p, sl)).book.positions),
               queue := if w.queue == [] then [] else w.queue[1..])
    ensures Served(w, StopRequest(p, sl)).book.positions ==
      if Acts(w, 0, p.symbol) then w.book.positions[p.ticket := w.book.positions[p.ticket].(sl := sl, tp := p.tp)]
      else w.book.positions
  {
    var r := StopRequest(p, sl);
    var d := Answer(w, r);
    if d.acts == [] {
      assert Run(w.book, d.acts) == Some(w.book);
    } else {
      assert d.acts == [Protect(p.ticket, sl, p.tp)];
      RunOne(w.book, d.acts[0]);
    }
  }

  lemma CurrentPrefix(b: Book, ps: seq<Position>)
    requires Current(b, ps) && ps != []
    ensures Current(b, ps[..|ps| - 1]) && ps[|ps| - 1] in ps
    ensures ps[|ps| - 1].ticket !in Bare(ps[..|ps| - 1])
    ensures Bare(ps) == Bare(ps[..|ps| - 1]) + (if ps[|ps| - 1].sl == 0.0 then {ps[|ps| - 1].ticket} else {})
  {
    var n := |ps| - 1;
    assert ps == ps[..n] + [ps[n]];
    assert forall p | p in ps[..n] :: p in ps;
  }

  lemma {:induction false} BareTicketsAre(ps: seq<Position>)
    requires forall i, j | 0 <= i < j < |ps| :: ps[i].ticket != ps[j].ticket
    ensures forall t :: t in BareTickets(ps) <==> t in Bare(ps)
    ensures forall i, j | 0 <= i < j < |BareTickets(ps)| :: BareTickets(ps)[i] != BareTickets(ps)[j]
  {
    if ps == [] {
    } else {
      var n := |ps| - 1;
      BareTicketsAre(ps[..n]);
      assert ps == ps[..n] + [ps[n]];
      assert Bare(ps) == Bare(ps[..n]) + (if ps[n].sl == 0.0 then {ps[n].ticket} else {});
      assert ps[n].ticket !in Bare(ps[..n]);
    }
  }

  /** One more bare position at the end of the list meets the next injected reply. */
  lemma SecuredNext(w: World, ps: seq<Position>, t: int)
    requires Current(w.book, ps) && ps != [] && t in w.book.positions
    ensures var n := |ps| - 1;
      Secured(w, ps, t) <==>
      if ps[n].sl == 0.0 && ps[n].ticket == t then Acts(w, |BareTickets(ps[..n])|, w.book.positions[t].symbol)
      else Secured(w, ps[..n], t)
  {
    hide Acts;
    var n := |ps| - 1;
    CurrentPrefix(w.book, ps);
    BareTicketsAre(ps[..n]);
    var before, after := BareTickets(ps[..n]), BareTickets(ps);
    assert after == before + (if ps[n].sl == 0.0 then [ps[n].ticket] else []);
    if Secured(w, ps[..n], t) {
      var i :| 0 <= i < |before| && before[i] == t && Acts(w, i, w.book.positions[t].symbol);
      assert after[i] == t && t in before;
    }
    if ps[n].sl == 0.0 && ps[n].ticket == t {
      assert after[|before|] == t && t !in before;
    }
  }

  /** STOPS IN PLACE. Each listed position without a stop sends one request and uses up one injected reply; exactly
      those whose request takes effect get the fallback stop, and nothing else at the desk changes. */
  lemma {:induction false} SecureExactly(w: World, ps: seq<Position>, points: int)
    requires Current(w.book, ps)
    ensures Secure(w, ps, points) ==
            w.(book := w.book.(positions := SecuredPositions(w, ps, points)),
               queue := w.queue[Min(|w.queue|, |BareTickets(ps)|)..])
  {
    hide Served, FallbackStop, Bare, Secured, Acts;
    if ps == [] {
      NoneSecured(w);
      assert SecuredPositions(w, ps, points) == w.book.positions;
    } else {
      var n := |ps| - 1;
      var p := ps[n];
      CurrentPrefix(w.book, ps);
      SecureExactly(w, ps[..n], points);
      var before := Secure(w, ps[..n], points);
      forall t | t in w.book.positions
        ensures Secured(w, ps, t) <==>
                if p.sl == 0.0 && p.ticket == t then Acts(w, |BareTickets(ps[..n])|, w.book.positions[t].symbol)
                else Secured(w, ps[..n], t)
      {
        SecuredNext(w, ps, t);
      }
      NotYetSecured(w, ps);
      assert before.book.positions[p.ticket] == p;
      StopServed(before, p, FallbackStop(w.book, p, points));
      NextActs(w, before, |BareTickets(ps[..n])|, p.symbol);
      assert Secure(w, ps, points).book.positions == SecuredPositions(w, ps, points);
    }
  }

  lemma NoneSecured(w: World)
    ensures forall t | t in w.book.positions :: !Secured(w, [], t)
  {
  }

  lemma NotYetSecured(w: World, ps: seq<Position>)
    requires Current(w.book, ps) && ps != []
    ensures ps[|ps| - 1].ticket in w.book.positions && !Secured(w, ps[..|ps| - 1], ps[|ps| - 1].ticket)
  {
    hide Acts;
    CurrentPrefix(w.book, ps);
    BareTicketsAre(ps[..|ps| - 1]);
  }

  /** After `m` requests the next one meets the reply that the `m`-th meets. */
  lemma NextActs(w: World, w': World, m: nat, symbol: string)
    requires w'.book.cfg == w.book.cfg && w'.terms == w.terms && w'.queue == w.queue[Min(|w.queue|, m)..]
    ensures Acts(w', 0, symbol) <==> Acts(w, m, symbol)
  {
  }

  /** With no injected replies waiting, exactly the listed positions that had no stop and may be traded get the
      fallback stop, and nothing else at the desk changes. */
  lemma SecureQuiet(w: World, ps: seq<Position>, points: int)
    requires Current(w.book, ps) && w.queue == []
    ensures Secure(w, ps, points) == w.(book := w.book.(positions := Guarded(w, ps, points)))
  {
    hide FallbackStop, Secure, BareTickets, Tradable;
    SecureExactly(w, ps, points);
    BareTicketsAre(ps);
    assert SecuredPositions(w, ps, points) == Guarded(w, ps, points);
  }

  lemma BareOfNone()
    ensures Bare([]) == {}
  {
  }

  /** A position after enforcement, whatever replies are injected: unchanged, or bare before and given the
      fallback stop. */
  predicate Touchable(w: World, ps: seq<Position>, points: int, t: int, p': Position)
    requires t in w.book.positions
  {
    var p := w.book.positions[t];
    p' == p || (t in Bare(ps) && p' == p.(sl := FallbackStop(w.book, p, points)))
  }

  lemma {:induction false} SecureOnlyGuards(w: World, ps: seq<Position>, points: int)
    requires Current(w.book, ps)
    ensures var w' := Secure(w, ps, points);
      && w'.book == w.book.(positions := w'.book.positions) && w' == w.(book := w'.book, queue := w'.queue)
      && w'.book.positions.Keys == w.book.positions.Keys
      && forall t | t in w.book.positions :: Touchable(w, ps, points, t, w'.book.positions[t])
  {
    hide Served, FallbackStop, Bare;
    if ps == [] {
    } else {
      var n := |ps| - 1;
      var p := ps[n];
      CurrentPrefix(w.book, ps);
      SecureOnlyGuards(w, ps[..n], points);
      var before := Secure(w, ps[..n], points);
      assert Touchable(w, ps[..n], points, p.ticket, before.book.positions[p.ticket]);
      StopServed(before, p, FallbackStop(w.book, p, points));
      forall t | t in w.book.positions ensures Touchable(w, ps, points, t, Secure(w, ps, points).book.positions[t]) {
        assert Touchable(w, ps[..n], points, t, before.book.positions[t]);
      }
    }
  }

  /** The place of a bare position among the bare ones. */
  lemma {:induction false} BarePlace(ps: seq<Position>, k: nat)
    requires k < |ps| && ps[k].sl == 0.0
    ensures var i := |BareTickets(ps[..k])|;
      i < |BareTickets(ps)| && BareTickets(ps)[i] == ps[k].ticket
    decreases |ps|
  {
    var n := |ps| - 1;
    if k == n {
    } else {
      BarePlace(ps[..n], k);
      assert ps[..n][..k] == ps[..k];
    }
  }

  /** Which positions have a stop after startup: exactly those that had one, and those whose own request takes
      effect (the i-th bare position meets the i-th injected reply) and whose fallback stop is not the price
      zero that stands for none. */
  lemma StoppedAfterStartup(w: World, ps: seq<Position>, points: int, k: nat)
    requires Current(w.book, ps) && k < |ps|
    ensures var p, after := ps[k], Secure(w, ps, points).book.positions;
      p.ticket in after &&
      (after[p.ticket].sl != 0.0 <==>
         p.sl != 0.0 || (Acts(w, |BareTickets(ps[..k])|, p.symbol) && FallbackStop(w.book, p, points) != 0.0))
  {
    hide FallbackStop, Tradable, Secure, BareTickets, Acts;
    var p := ps[k];
    SecureExactly(w, ps, points);
    BareTicketsAre(ps);
    assert p in ps;
    if p.sl == 0.0 {
      BarePlace(ps, k);
    } else {
      assert p.ticket !in Bare(ps) by {
        forall q | q in ps && q.ticket == p.ticket ensures q == p {
        }
      }
    }
  }

  /** ON THE LOSING SIDE. A listed position without a stop whose request takes effect has, after startup, its stop
      the given points below the opening price of a buy and above that of a sell, a point being a ten-thousandth for
      a symbol the desk does not know; all else about it is as it was. So a positive distance leaves the position
      open at any quote no worse than its opening price. */
  lemma StopOnLosingSide(w: World, ps: seq<Position>, points: int, k: nat, tick: Tick)
    requires Current(w.book, ps) && k < |ps| && ps[k].sl == 0.0 && Acts(w, |BareTickets(ps[..k])|, ps[k].symbol)
    ensures ps[k].ticket in Secure(w, ps, points).book.positions
    ensures var p, after := ps[k], Secure(w, ps, points).book.positions[ps[k].ticket];
      var distance := points as real * (if p.symbol in w.book.cfg.specs then w.book.cfg.specs[p.symbol].point else 0.0001);
      && after == p.(sl := after.sl)
      && (p.side.BUY? ==> p.priceOpen - after.sl == distance)
      && (p.side.SELL? ==> after.sl - p.priceOpen == distance)
      && (points > 0 && (if p.side.BUY? then tick.bid >= p.priceOpen else tick.ask <= p.priceOpen) ==> !StopHit(after, tick))
  {
    hide Tradable, Secure, BareTickets, Acts;
    var p := ps[k];
    SecureExactly(w, ps, points);
    BarePlace(ps, k);
    assert Secured(w, ps, p.ticket);
    if points > 0 {
      Reals.ScaleStrictly(0.0, points as real, if p.symbol in w.book.cfg.specs then w.book.cfg.specs[p.symbol].point else 0.0001);
    }
  }
}
