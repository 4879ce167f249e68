/** Startup reconciliation: one pass over broker and registry. Nothing else moves meanwhile. */
module Reconcile {
  import opened Protocol
  import opened Market
  import opened Dealing
  import opened Simulator
  import opened Intents
  import opened World
  import opened Rely
  import opened Calls
  import opened Recovery
  import opened Stops

  datatype Report = Report(positionsMatched: nat, pendingsMatched: nat, orphansAdopted: seq<int>,
                           unknownResolved: map<string, string>, manualOverrides: set<string>,
                           paused: set<string>, slEnforced: seq<int>)

  function WorldOf(broker: SimClient, store: IntentStore): World
    reads broker, store
  {
    World(broker.State(), broker.injections, broker.Conditions(), store.rows, {})
  }

  /** The broker is where `w` says. */
  ghost predicate At(broker: SimClient, w: World)
    reads broker
  {
    broker.State() == w.book && broker.injections == w.queue && broker.Conditions() == w.terms
  }

  method OurPositions(broker: SimClient) returns (ps: seq<Position>)
    requires TicketsOk(broker.State())
    ensures forall p | p in ps :: p.ticket in broker.positions && broker.positions[p.ticket] == p && MagicPrefixOk(p.magic)
    ensures forall t | t in broker.positions && MagicPrefixOk(broker.positions[t].magic) :: broker.positions[t] in ps
    ensures forall j, k | 0 <= j < k < |ps| :: ps[j].ticket < ps[k].ticket
  {
    var all := broker.PositionsGet(None);
    ps := [];
    for i := 0 to |all|
      invariant forall p | p in ps :: p in all[..i] && MagicPrefixOk(p.magic)
      invariant forall k | 0 <= k < i && MagicPrefixOk(all[k].magic) :: all[k] in ps
      invariant forall j, k | 0 <= j < k < |ps| :: ps[j].ticket < ps[k].ticket
    {
      if MagicPrefixOk(all[i].magic) {
        ps := ps + [all[i]];
      }
    }
    forall t | t in broker.positions && MagicPrefixOk(broker.positions[t].magic) ensures broker.positions[t] in ps {
      assert broker.positions[t] in all;
    }
  }

  method OurOrders(broker: SimClient) returns (os: seq<PendingOrder>)
    requires TicketsOk(broker.State())
    ensures forall o | o in os :: o.ticket in broker.orders && broker.orders[o.ticket] == o && MagicPrefixOk(o.magic)
    ensures forall t | t in broker.orders && MagicPrefixOk(broker.orders[t].magic) :: broker.orders[t] in os
    ensures forall j, k | 0 <= j < k < |os| :: os[j].ticket < os[k].ticket
  {
    var all := broker.OrdersGet(None);
    os := [];
    for i := 0 to |all|
      invariant forall o | o in os :: o in all[..i] && MagicPrefixOk(o.magic)
      invariant forall k | 0 <= k < i && MagicPrefixOk(all[k].magic) :: all[k] in os
      invariant forall j, k | 0 <= j < k < |os| :: os[j].ticket < os[k].ticket
    {
      if MagicPrefixOk(all[i].magic) {
        os := os + [all[i]];
      }
    }
    forall t | t in broker.orders && MagicPrefixOk(broker.orders[t].magic) ensures broker.orders[t] in os {
      assert broker.orders[t] in all;
    }
  }

  method ReadSnapshot(broker: SimClient, now: int) returns (s: Snapshot)
    requires TicketsOk(broker.State())
    ensures Reads(broker.State(), now, s) && TicketsPositive(s) && Current(broker.State(), s.positions)
  {
    var ps := OurPositions(broker);
    var os := OurOrders(broker);
    var ds := broker.HistoryDealsGet(now - TWO_DAYS, now + FIVE_MINUTES);
    s := Snapshot(ps, os, ds);
  }

  /** How the report names a verdict. */
  function Label(verdict: OrderState): string
  {
    if verdict.FILLED? then "FILLED" else if verdict.PLACED? then "PLACED" else "ABSENT"
  }

  /** What a manual override pauses. */
  function PauseName(row: Row): string { row.symbol + ":" + row.strategy }

  method Judge(s: Snapshot, key: string) returns (verdict: OrderState)
    ensures verdict == Verdict(s, key)
  {
    hide OpenKeys, PendingKeys, DealKeys;
    if Some(key) in OpenKeys(s) || Some(key) in DealKeys(s) {
      verdict := FILLED;
    } else if Some(key) in PendingKeys(s) {
      verdict := PLACED;
    } else {
      verdict := CANCELLED;
    }
  }

  /** Every unknown outcome is resolved against the snapshot. */
  method ResolveUnknowns(store: IntentStore, s: Snapshot) returns (resolved: map<string, string>)
    modifies store
    ensures store.rows == Resolve(old(store.rows), s)
    ensures resolved == map k | k in old(store.rows) && old(store.rows)[k].state.UNKNOWN? :: Label(Verdict(s, k))
  {
    hide Verdict, Label;
    ghost var rows := store.rows;
    var todo := set k | k in store.rows && store.rows[k].state.UNKNOWN?;
    resolved := map[];
    while todo != {}
      invariant forall k | k in todo :: k in rows && rows[k].state.UNKNOWN?
      invariant store.rows == map k | k in rows ::
        if rows[k].state.UNKNOWN? && k !in todo then rows[k].(state := Verdict(s, k)) else rows[k]
      invariant forall k :: k in resolved <==> k in rows && rows[k].state.UNKNOWN? && k !in todo
      invariant forall k | k in resolved :: resolved[k] == Label(Verdict(s, k))
      decreases todo
    {
      var k :| k in todo;
      todo := todo - {k};
      var verdict := Judge(s, k);
      assert store.rows[k] == rows[k];
      store.SetState(k, verdict, 0, 0);
      resolved := resolved[k := Label(verdict)];
    }
  }

  /** Gives a position without a stop the fallback stop; the reply is not looked at. */
  method EnforceStop(broker: SimClient, p: Position, points: int, ghost w: World)
    requires TicketsOk(broker.State()) && At(broker, w)
    modifies broker
    ensures At(broker, Served(w, StopRequest(p, FallbackStop(w.book, p, points))))
  {
    hide DecideSend, Offset, TicketsOk;
    var point := if p.symbol in broker.cfg.specs then broker.cfg.specs[p.symbol].point else FALLBACK_POINT;
    var sl := if p.side.BUY? then p.priceOpen - Offset(points, point) else p.priceOpen + Offset(points, point);
    var _, _ := broker.OrderSend(StopRequest(p, sl));
  }

  lemma MatchSnoc(rows: Rows, seen: seq<Sighting>, state: OrderState, i: nat)
    requires i < |seen|
    ensures Match(rows, seen[..i + 1], state) ==
            if Known(rows, seen[i])
            then Written(Match(rows, seen[..i], state), seen[i].key.value, state, seen[i].ticket, seen[i].volume)
            else Match(rows, seen[..i], state)
    ensures Orphans(rows, seen[..i + 1]) == Orphans(rows, seen[..i]) + (if Known(rows, seen[i]) then [] else [seen[i].ticket])
  {
    assert seen[..i + 1][..i] == seen[..i];
  }

  lemma StaysBookable(w: World, ps: seq<Position>, points: int)
    requires TicketsOk(w.book) && Current(w.book, ps)
    ensures TicketsOk(Secure(w, ps, points).book)
  {
    hide FallbackStop, Secure;
    SecureOnlyGuards(w, ps, points);
    assert forall t | t in w.book.positions :: Touchable(w, ps, points, t, Secure(w, ps, points).book.positions[t]);
  }

  /** One more position of the list. */
  lemma SecureSnoc(w: World, ps: seq<Position>, points: int, i: nat)
    requires TicketsOk(w.book) && Current(w.book, ps) && i < |ps|
    ensures TicketsOk(Secure(w, ps[..i + 1], points).book)
    ensures var before := Secure(w, ps[..i], points);
      Secure(w, ps[..i + 1], points) ==
      if ps[i].sl == 0.0 then Served(before, StopRequest(ps[i], FallbackStop(before.book, ps[i], points))) else before
  {
    hide Served, TicketsOk, Bare;
    assert ps[..i + 1][..i] == ps[..i];
    assert Current(w.book, ps[..i]) && Current(w.book, ps[..i + 1]);
    SecureOnlyGuards(w, ps[..i], points);
    StaysBookable(w, ps[..i + 1], points);
  }

  lemma NoneMatched(rows: Rows, seen: seq<Sighting>, state: OrderState)
    ensures Match(rows, seen[..0], state) == rows && Orphans(rows, seen[..0]) == []
  {
  }

  /** Matches the positions: a known key's row is marked FILLED, an unknown one is adopted, and a missing
      stop is put in place. */
  method MatchPositions(broker: SimClient, store: IntentStore, ps: seq<Position>, known: set<string>, points: int)
      returns (matched: nat, adopted: seq<int>, enforced: seq<int>)
    requires TicketsOk(broker.State()) && Current(broker.State(), ps) && known == store.rows.Keys
    modifies broker, store
    ensures store.rows == Match(old(store.rows), SeenPositions(ps), FILLED)
    ensures adopted == Orphans(old(store.rows), SeenPositions(ps)) && matched + |adopted| == |ps|
    ensures enforced == BareTickets(ps)
    ensures At(broker, Secure(old(WorldOf(broker, store)), ps, points))
    ensures TicketsOk(broker.State())
  {
    hide Match, Orphans, TicketsOk, Served, FallbackStop, Bare, Written;
    ghost var w0, rows, seen := WorldOf(broker, store), store.rows, SeenPositions(ps);
    matched, adopted, enforced := 0, [], [];
    NoneMatched(rows, seen, FILLED);
    for i := 0 to |ps|
      invariant store.rows == Match(rows, seen[..i], FILLED)
      invariant adopted == Orphans(rows, seen[..i]) && matched + |adopted| == i
      invariant enforced == BareTickets(ps[..i])
      invariant At(broker, Secure(w0, ps[..i], points))
      invariant TicketsOk(broker.State())
    {
      var p := ps[i];
      var key := KeyFromComment(p.comment);
      assert ps[..i + 1][..i] == ps[..i];
      MatchSnoc(rows, seen, FILLED, i);
      if KnownKey(known, key) {
        matched := matched + 1;
        store.SetState(key.value, FILLED, p.ticket, p.volume);
      } else {
        adopted := adopted + [p.ticket];
      }
      SecureSnoc(w0, ps, points, i);
      if p.sl == 0.0 {
        EnforceStop(broker, p, points, Secure(w0, ps[..i], points));
        enforced := enforced + [p.ticket];
      }
    }
    assert ps[..|ps|] == ps && seen[..|ps|] == seen;
  }

  method MatchOrders(store: IntentStore, os: seq<PendingOrder>, known: set<string>) returns (matched: nat, adopted: seq<int>)
    requires known == store.rows.Keys
    modifies store
    ensures store.rows == Match(old(store.rows), SeenOrders(os), PLACED)
    ensures adopted == Orphans(old(store.rows), SeenOrders(os)) && matched + |adopted| == |os|
  {
    hide Match, Orphans, Written;
    ghost var rows, seen := store.rows, SeenOrders(os);
    matched, adopted := 0, [];
    NoneMatched(rows, seen, PLACED);
    for i := 0 to |os|
      invariant store.rows == Match(rows, seen[..i], PLACED)
      invariant adopted == Orphans(rows, seen[..i]) && matched + |adopted| == i
    {
      var key := KeyFromComment(os[i].comment);
      MatchSnoc(rows, seen, PLACED, i);
      if KnownKey(known, key) {
        matched := matched + 1;
        store.SetState(key.value, PLACED, os[i].ticket, 0);
      } else {
        adopted := adopted + [os[i].ticket];
      }
    }
    assert seen[..|os|] == seen;
  }

  /** A row believed live that the broker does not show: FILLED if our own deal closed it, else overridden. */
  method DetectOverrides(store: IntentStore, s: Snapshot) returns (overridden: set<string>, paused: set<string>)
    modifies store
    ensures store.rows == SettleAll(old(store.rows), s)
    ensures overridden == set k | k in old(store.rows) && Missing(old(store.rows)[k], s)
                                  && !ClosedByUs(s.deals, old(store.rows)[k].ticket)
    ensures overridden <= old(store.rows).Keys
    ensures paused == set k | k in overridden :: PauseName(old(store.rows)[k])
  {
    hide ClosedByUs, Live, PauseName;
    ghost var rows := store.rows;
    var live := Live(s);
    var todo := set k | k in store.rows && (store.rows[k].state.FILLED? || store.rows[k].state.PLACED?);
    overridden, paused := {}, {};
    while todo != {}
      invariant forall k | k in todo :: k in rows && (rows[k].state.FILLED? || rows[k].state.PLACED?)
      invariant store.rows == map k | k in rows :: if k in todo then rows[k] else Settled(rows[k], s)
      invariant overridden == set k | k in rows && k !in todo && Missing(rows[k], s) && !ClosedByUs(s.deals, rows[k].ticket)
      invariant paused == set k | k in overridden :: PauseName(rows[k])
      decreases todo
    {
      var k :| k in todo;
      todo := todo - {k};
      var row := store.rows[k];
      if row.ticket != 0 && row.ticket !in live {
        if ClosedByUs(s.deals, row.ticket) {
          store.SetState(k, FILLED, 0, 0);
        } else {
          overridden, paused := overridden + {k}, paused + {PauseName(row)};
          store.SetState(k, CANCELLED, 0, 0);
        }
      }
    }
  }

  /** The desk after a startup: no call is running, missing stops have been requested, rows are recovered. */
  function Startup(w: World, s: Snapshot, points: int): World
  {
    Secure(w.(entitled := {}), s.positions, points).(rows := Recovered(w.rows, s))
  }

  /** Startup reconciliation. */
  method StartupReconcile(broker: SimClient, store: IntentStore, now: int, points: int)
      returns (report: Report, ghost s: Snapshot)
    requires TicketsOk(broker.State())
    modifies broker, store
    ensures Reads(old(broker.State()), now, s) && TicketsPositive(s) && Current(old(broker.State()), s.positions)
    ensures WorldOf(broker, store) == Startup(old(WorldOf(broker, store)), s, points)
    ensures report.positionsMatched + |Orphans(old(store.rows), SeenPositions(s.positions))| == |s.positions|
    ensures report.pendingsMatched + |Orphans(old(store.rows), SeenOrders(s.orders))| == |s.orders|
    ensures report.orphansAdopted ==
            Orphans(old(store.rows), SeenPositions(s.positions)) + Orphans(old(store.rows), SeenOrders(s.orders))
    ensures report.unknownResolved ==
            map k | k in old(store.rows) && old(store.rows)[k].state.UNKNOWN? :: Label(Verdict(s, k))
    ensures report.manualOverrides ==
            set k | k in Matched(old(store.rows), s) && Missing(Matched(old(store.rows), s)[k], s)
                    && !ClosedByUs(s.deals, Matched(old(store.rows), s)[k].ticket)
    ensures report.paused == set k | k in report.manualOverrides :: PauseName(Matched(old(store.rows), s)[k])
    ensures report.slEnforced == BareTickets(s.positions)
  {
    hide Reads, Match, Orphans, Secure, Missing, ClosedByUs, Verdict, Settled, TicketsOk, Current, Known;
    ghost var w, rows := WorldOf(broker, store), store.rows;
    var known := store.rows.Keys;
    var snapshot := ReadSnapshot(broker, now);
    s := snapshot;
    var resolved := ResolveUnknowns(store, snapshot);
    SameKeys(rows, s);
    var positionsMatched, adoptedPositions, enforced := MatchPositions(broker, store, snapshot.positions, known, points);
    var pendingsMatched, adoptedOrders := MatchOrders(store, snapshot.orders, known);
    var overridden, paused := DetectOverrides(store, snapshot);
    report := Report(positionsMatched, pendingsMatched, adoptedPositions + adoptedOrders, resolved, overridden, paused,
                     enforced);
    SecureIgnoresRows(w, w.(rows := Resolve(rows, s)), s.positions, points);
  }

  lemma {:induction false} OrphansByKeys(rows: Rows, rows': Rows, seen: seq<Sighting>)
    requires rows.Keys == rows'.Keys
    ensures Orphans(rows, seen) == Orphans(rows', seen)
  {
    if seen == [] {
    } else {
      OrphansByKeys(rows, rows', seen[..|seen| - 1]);
      assert Known(rows, seen[|seen| - 1]) <==> Known(rows', seen[|seen| - 1]);
    }
  }

  lemma SameKeys(rows: Rows, s: Snapshot)
    ensures var resolved := Resolve(rows, s);
      var matched := Match(resolved, SeenPositions(s.positions), FILLED);
      && resolved.Keys == rows.Keys && matched.Keys == rows.Keys
      && Orphans(resolved, SeenPositions(s.positions)) == Orphans(rows, SeenPositions(s.positions))
      && Orphans(matched, SeenOrders(s.orders)) == Orphans(rows, SeenOrders(s.orders))
  {
    hide Verdict, Match, Orphans;
    var resolved := Resolve(rows, s);
    MatchKeys(resolved, SeenPositions(s.positions), FILLED);
    OrphansByKeys(resolved, rows, SeenPositions(s.positions));
    OrphansByKeys(Match(resolved, SeenPositions(s.positions), FILLED), rows, SeenOrders(s.orders));
  }

  lemma {:induction false} SecureIgnoresRows(w: World, w': World, ps: seq<Position>, points: int)
    requires w' == w.(rows := w'.rows)
    ensures Secure(w', ps, points) == Secure(w, ps, points).(rows := w'.rows)
    ensures Secure(w, ps, points).rows == w.rows && Secure(w, ps, points).entitled == w.entitled
  {
    hide DecideSend;
    if ps == [] {
    } else {
      SecureIgnoresRows(w, w', ps[..|ps| - 1], points);
    }
  }

  // ----------------------------------------------------------------- theorems

  lemma AllButLast(a: seq<int>)
    requires a != [] && forall i, j | 0 <= i < j < |a| :: a[i] < a[j]
    ensures forall x :: x in a[..|a| - 1] <==> x in a && x != a[|a| - 1]
  {
    assert a == a[..|a| - 1] + [a[|a| - 1]];
  }

  lemma SomeElement(a: seq<int>)
    ensures a == [] || exists x :: x in a
  {
    if a != [] {
      var x := a[0];
      assert x in a;
    }
  }

  lemma {:induction false} AscendingUnique(a: seq<int>, b: seq<int>)
    requires forall i, j | 0 <= i < j < |a| :: a[i] < a[j]
    requires forall i, j | 0 <= i < j < |b| :: b[i] < b[j]
    requires (forall x | x in a :: x in b) && (forall x | x in b :: x in a)
    ensures a == b
  {
    if |a| > 0 && |b| > 0 {
      var i, j := |a| - 1, |b| - 1;
      assert a[i] in a && b[j] in b;
      AllButLast(a);
      AllButLast(b);
      assert a[i] == b[j];
      forall x | x in a[..i] ensures x in b[..j] {
        assert x in a && x in b;
      }
      forall x | x in b[..j] ensures x in a[..i] {
        assert x in b && x in a;
      }
      AscendingUnique(a[..i], b[..j]);
      assert a == a[..i] + [a[i]] && b == b[..j] + [b[j]];
    } else {
      SomeElement(a);
      SomeElement(b);
    }
  }

  function PositionTickets(ps: seq<Position>): seq<int> { seq(|ps|, i requires 0 <= i < |ps| => ps[i].ticket) }

  function OrderTickets(os: seq<PendingOrder>): seq<int> { seq(|os|, i requires 0 <= i < |os| => os[i].ticket) }

  lemma PositionTicketsAre(b: Book, now: int, s: Snapshot)
    requires TicketsOk(b) && Reads(b, now, s)
    ensures forall t :: t in PositionTickets(s.positions) <==> t in b.positions && MagicPrefixOk(b.positions[t].magic)
  {
    var ts := PositionTickets(s.positions);
    forall t | t in ts ensures t in b.positions && MagicPrefixOk(b.positions[t].magic) {
      var i :| 0 <= i < |ts| && ts[i] == t;
      assert s.positions[i] in s.positions;
    }
    forall t | t in b.positions && MagicPrefixOk(b.positions[t].magic) ensures t in ts {
      var i :| 0 <= i < |s.positions| && s.positions[i] == b.positions[t];
      assert ts[i] == t;
    }
  }

  lemma OrderTicketsAre(b: Book, now: int, s: Snapshot)
    requires TicketsOk(b) && Reads(b, now, s)
    ensures forall t :: t in OrderTickets(s.orders) <==> t in b.orders && MagicPrefixOk(b.orders[t].magic)
  {
    var ts := OrderTickets(s.orders);
    forall t | t in ts ensures t in b.orders && MagicPrefixOk(b.orders[t].magic) {
      var i :| 0 <= i < |ts| && ts[i] == t;
      assert s.orders[i] in s.orders;
    }
    forall t | t in b.orders && MagicPrefixOk(b.orders[t].magic) ensures t in ts {
      var i :| 0 <= i < |s.orders| && s.orders[i] == b.orders[t];
      assert ts[i] == t;
    }
  }

  lemma SameOrders(b: Book, now: int, s: Snapshot, b': Book, now': int, s': Snapshot)
    requires TicketsOk(b) && TicketsOk(b') && Reads(b, now, s) && Reads(b', now', s') && b.orders == b'.orders
    ensures s.orders == s'.orders
  {
    hide TicketsOk;
    var ts, ts' := OrderTickets(s.orders), OrderTickets(s'.orders);
    OrderTicketsAre(b, now, s);
    OrderTicketsAre(b', now', s');
    AscendingUnique(ts, ts');
    forall i | 0 <= i < |s.orders| ensures s.orders[i] == s'.orders[i] {
      assert ts[i] == ts'[i];
      assert s.orders[i] in s.orders && s'.orders[i] in s'.orders;
    }
  }

  /** Books whose positions differ in stops alone show the same sightings. */
  lemma SameSightings(b: Book, now: int, s: Snapshot, b': Book, now': int, s': Snapshot)
    requires TicketsOk(b) && TicketsOk(b') && Reads(b, now, s) && Reads(b', now', s')
    requires b.positions.Keys == b'.positions.Keys
    requires forall t | t in b.positions :: b'.positions[t] == b.positions[t].(sl := b'.positions[t].sl)
    ensures SeenPositions(s'.positions) == SeenPositions(s.positions)
  {
    hide TicketsOk;
    var ts, ts' := PositionTickets(s.positions), PositionTickets(s'.positions);
    PositionTicketsAre(b, now, s);
    PositionTicketsAre(b', now', s');
    AscendingUnique(ts, ts');
    forall i | 0 <= i < |s.positions| ensures SeenPositions(s'.positions)[i] == SeenPositions(s.positions)[i] {
      assert ts[i] == ts'[i];
      assert s.positions[i] in s.positions && s'.positions[i] in s'.positions;
    }
  }

  lemma LiveBySightings(s: Snapshot, s': Snapshot)
    requires SeenPositions(s'.positions) == SeenPositions(s.positions) && s.orders == s'.orders
    ensures Live(s) == Live(s')
  {
    assert |s.positions| == |SeenPositions(s.positions)| == |s'.positions|;
    forall i | 0 <= i < |s.positions| ensures s.positions[i].ticket == s'.positions[i].ticket {
      assert SeenPositions(s'.positions)[i] == SeenPositions(s.positions)[i];
    }
  }

  /** When a second startup, at whatever time, on the broker that the first one left changes no intent row:
      exactly when one of our own closing deals of every ticket that the first one found closed is still dated
      in the second one's window. The replies to the first one's stop requests do not matter. */
  lemma SecondStartup(w: World, now: int, s: Snapshot, points: int, now': int, s': Snapshot)
    requires TicketsOk(w.book) && Reads(w.book, now, s) && TicketsPositive(s) && Current(w.book, s.positions)
    requires Reads(Secure(w, s.positions, points).book, now', s') && TicketsPositive(s')
    ensures var once := Recovered(w.rows, s);
      Recovered(once, s') == once <==>
      forall k | k in once && Missing(once[k], s) ::
        ClosedWithin(w.book, once[k].ticket, now' - TWO_DAYS, now' + FIVE_MINUTES)
  {
    hide TicketsOk, Reads, Secure, TicketsPositive, Recovered, SeenPositions, FallbackStop, Live, Bare, Current,
         Missing, ClosedByUs;
    var w' := Secure(w, s.positions, points);
    SecureOnlyGuards(w, s.positions, points);
    forall t | t in w.book.positions ensures w'.book.positions[t] == w.book.positions[t].(sl := w'.book.positions[t].sl) {
      assert Touchable(w, s.positions, points, t, w'.book.positions[t]);
    }
    StaysBookable(w, s.positions, points);
    SameOrders(w.book, now, s, w'.book, now', s');
    SameSightings(w.book, now, s, w'.book, now', s');
    LiveBySightings(s, s');
    RecoveredAgain(w.rows, s, s');
    var once := Recovered(w.rows, s);
    forall k | k in once
      ensures ClosedByUs(s'.deals, once[k].ticket) <==>
              ClosedWithin(w.book, once[k].ticket, now' - TWO_DAYS, now' + FIVE_MINUTES)
    {
      ClosedByUsIs(w'.book, now', s', once[k].ticket);
    }
  }

  /** Every listed ticket is matched to a known key's row or adopted as an orphan, never both. */
  lemma {:induction false} MatchedOrAdopted(rows: Rows, seen: seq<Sighting>, t: int)
    requires forall i, j | 0 <= i < j < |seen| :: seen[i].ticket != seen[j].ticket
    ensures t in Orphans(rows, seen) <==> exists x | x in seen :: x.ticket == t && !Known(rows, x)
  {
    if seen == [] {
    } else {
      var n := |seen| - 1;
      MatchedOrAdopted(rows, seen[..n], t);
      assert seen == seen[..n] + [seen[n]];
      assert forall x :: x in seen <==> x in seen[..n] || x == seen[n];
    }
  }
}
