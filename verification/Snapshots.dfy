/** What broker reads return: open positions and resting orders by ascending ticket, deals by time window. */
module Snapshots {
  import opened Protocol

  lemma {:induction false} MinExists(s: set<int>)
    requires s != {}
    ensures exists t :: t in s && forall u | u in s :: t <= u
  {
    SomeMember(s);
    var t :| t in s;
    var rest := s - {t};
    assert forall u | u in s :: u == t || u in rest;
    if rest != {} {
      MinExists(rest);
      var m :| m in rest && forall u | u in rest :: m <= u;
      var least := if t <= m then t else m;
      assert least in s && forall u | u in s :: least <= u;
    } else {
      assert t in s && forall u | u in s :: t <= u;
    }
  }

  method Ascending(s: set<int>) returns (ts: seq<int>)
    ensures forall i, j | 0 <= i < j < |ts| :: ts[i] < ts[j]
    ensures forall t :: t in ts <==> t in s
  {
    var todo := s;
    ts := [];
    while todo != {}
      invariant todo <= s
      invariant forall t :: t in ts <==> t in s && t !in todo
      invariant forall i, j | 0 <= i < j < |ts| :: ts[i] < ts[j]
      invariant forall i, u | 0 <= i < |ts| && u in todo :: ts[i] < u
      decreases todo
    {
      MinExists(todo);
      var t :| t in todo && forall u | u in todo :: t <= u;
      ts := ts + [t];
      todo := todo - {t};
    }
  }

  predicate OnSymbol(name: string, symbol: Option<string>) { symbol.None? || name == symbol.value }

  /** `ps` lists exactly the positions on the symbol (on any symbol for None), by ascending ticket. */
  ghost predicate ListsPositions(positions: map<int, Position>, symbol: Option<string>, ps: seq<Position>)
  {
    && (forall p | p in ps :: p.ticket in positions && positions[p.ticket] == p && OnSymbol(p.symbol, symbol))
    && (forall t | t in positions && OnSymbol(positions[t].symbol, symbol) :: positions[t] in ps)
    && (forall i, j | 0 <= i < j < |ps| :: ps[i].ticket < ps[j].ticket)
  }

  ghost predicate ListsOrders(orders: map<int, PendingOrder>, symbol: Option<string>, os: seq<PendingOrder>)
  {
    && (forall o | o in os :: o.ticket in orders && orders[o.ticket] == o && OnSymbol(o.symbol, symbol))
    && (forall t | t in orders && OnSymbol(orders[t].symbol, symbol) :: orders[t] in os)
    && (forall i, j | 0 <= i < j < |os| :: os[i].ticket < os[j].ticket)
  }

  function DealsWithin(deals: seq<Deal>, from: int, to: int): seq<Deal>
  {
    if deals == [] then []
    else
      var n := |deals| - 1;
      DealsWithin(deals[..n], from, to) + (if from <= deals[n].time <= to then [deals[n]] else [])
  }

  lemma {:induction false} DealsWithinMembers(deals: seq<Deal>, from: int, to: int, d: Deal)
    ensures d in DealsWithin(deals, from, to) <==> d in deals && from <= d.time <= to
  {
    if deals == [] {
    } else {
      var n := |deals| - 1;
      DealsWithinMembers(deals[..n], from, to, d);
      assert deals == deals[..n] + [deals[n]];
    }
  }
}
