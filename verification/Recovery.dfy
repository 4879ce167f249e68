/** Startup recovery as a function of the intent rows and one snapshot of the broker, and what it
    guarantees. The broker is the source of truth: rows follow it, never the other way round. */
module Recovery {
  import opened Protocol
  import opened Market
  import opened Footprint
  import opened Snapshots
  import opened Intents
  import opened World
  import opened Rely
  import opened Calls

  const TWO_DAYS := 172800

  /** What startup reads: our-magic positions and orders by ascending ticket, and the deals of two days. */
  datatype Snapshot = Snapshot(positions: seq<Position>, orders: seq<PendingOrder>, deals: seq<Deal>)

  ghost predicate Reads(b: Book, now: int, s: Snapshot)
  {
    && (forall p | p in s.positions :: p.ticket in b.positions && b.positions[p.ticket] == p && MagicPrefixOk(p.magic))
    && (forall t | t in b.positions && MagicPrefixOk(b.positions[t].magic) :: b.positions[t] in s.positions)
    && (forall o | o in s.orders :: o.ticket in b.orders && b.orders[o.ticket] == o && MagicPrefixOk(o.magic))
    && (forall t | t in b.orders && MagicPrefixOk(b.orders[t].magic) :: b.orders[t] in s.orders)
    && (forall i, j | 0 <= i < j < |s.positions| :: s.positions[i].ticket < s.positions[j].ticket)
    && (forall i, j | 0 <= i < j < |s.orders| :: s.orders[i].ticket < s.orders[j].ticket)
    && s.deals == DealsWithin(b.deals, now - TWO_DAYS, now + FIVE_MINUTES)
  }

  // --------------------------------------------------------- unknown outcomes

  function OpenKeys(s: Snapshot): set<Option<string>> { set p | p in s.positions :: KeyFromComment(p.comment) }

  function PendingKeys(s: Snapshot): set<Option<string>> { set o | o in s.orders :: KeyFromComment(o.comment) }

  function DealKeys(s: Snapshot): set<Option<string>> { set d | d in s.deals :: KeyFromComment(d.comment) }

  function Verdict(s: Snapshot, key: string): OrderState
  {
    if Some(key) in OpenKeys(s) || Some(key) in DealKeys(s) then FILLED
    else if Some(key) in PendingKeys(s) then PLACED
    else CANCELLED
  }

  function Resolve(rows: Rows, s: Snapshot): Rows
  {
    map k | k in rows :: if rows[k].state.UNKNOWN? then rows[k].(state := Verdict(s, k)) else rows[k]
  }

  // ----------------------------------------------------------------- matching

  /** A position or order as far as matching looks at it. */
  datatype Sighting = Sighting(ticket: int, key: Option<string>, volume: int)

  function SeenPositions(ps: seq<Position>): seq<Sighting>
  {
    seq(|ps|, i requires 0 <= i < |ps| => Sighting(ps[i].ticket, KeyFromComment(ps[i].comment), ps[i].volume))
  }

  function SeenOrders(os: seq<PendingOrder>): seq<Sighting>
  {
    seq(|os|, i requires 0 <= i < |os| => Sighting(os[i].ticket, KeyFromComment(os[i].comment), 0))
  }

  predicate KnownKey(known: set<string>, key: Option<string>) { key.Some? && key.value in known }

  predicate Known(rows: Rows, s: Sighting) { KnownKey(rows.Keys, s.key) }

  /** The rows after every sighting with a known key has been written into its row. */
  function Match(rows: Rows, seen: seq<Sighting>, state: OrderState): Rows
  {
    if seen == [] then rows
    else
      var s, before := seen[|seen| - 1], Match(rows, seen[..|seen| - 1], state);
      if Known(rows, s) then Written(before, s.key.value, state, s.ticket, s.volume) else before
  }

  function Orphans(rows: Rows, seen: seq<Sighting>): seq<int>
  {
    if seen == [] then []
    else
      var s := seen[|seen| - 1];
      Orphans(rows, seen[..|seen| - 1]) + (if Known(rows, s) then [] else [s.ticket])
  }

  /** The last sighting of a key. */
  function LastSeen(seen: seq<Sighting>, key: string): Option<Sighting>
  {
    if seen == [] then None
    else if seen[|seen| - 1].key == Some(key) then Some(seen[|seen| - 1])
    else LastSeen(seen[..|seen| - 1], key)
  }

  function Marked(row: Row, state: OrderState, s: Option<Sighting>): Row
  {
    if s.Some? then row.(state := state, ticket := s.value.ticket, volume := s.value.volume) else row
  }

  // ---------------------------------------------------------- manual overrides

  predicate ClosedByUs(deals: seq<Deal>, ticket: int)
  {
    exists d | d in deals :: d.positionId == ticket && d.entry.OUT? && MagicPrefixOk(d.magic)
  }

  function Live(s: Snapshot): set<int>
  {
    (set p | p in s.positions :: p.ticket) + (set o | o in s.orders :: o.ticket)
  }

  /** A row believed live whose ticket the broker no longer shows. */
  predicate Missing(row: Row, s: Snapshot)
  {
    (row.state.FILLED? || row.state.PLACED?) && row.ticket != 0 && row.ticket !in Live(s)
  }

  function Settled(row: Row, s: Snapshot): Row
  {
    if Missing(row, s) then row.(state := if ClosedByUs(s.deals, row.ticket) then FILLED else CANCELLED) else row
  }

  function SettleAll(rows: Rows, s: Snapshot): Rows
  {
    map k | k in rows :: Settled(rows[k], s)
  }

  function Matched(rows: Rows, s: Snapshot): Rows
  {
    Match(Match(Resolve(rows, s), SeenPositions(s.positions), FILLED), SeenOrders(s.orders), PLACED)
  }

  /** The rows after startup recovery. */
  function Recovered(rows: Rows, s: Snapshot): Rows
  {
    SettleAll(Matched(rows, s), s)
  }

  // ------------------------------------------------------------------ by rows

  predicate Ticketed(seen: seq<Sighting>) { forall x | x in seen :: x.ticket != 0 }

  lemma {:induction false} MatchKeys(rows: Rows, seen: seq<Sighting>, state: OrderState)
    ensures Match(rows, seen, state).Keys == rows.Keys
  {
    if seen == [] {
    } else {
      MatchKeys(rows, seen[..|seen| - 1], state);
    }
  }

  /** Matching row by row: the last sighting of a key decides. */
  lemma {:induction false} MatchAt(rows: Rows, seen: seq<Sighting>, state: OrderState, k: string)
    requires Ticketed(seen) && k in rows
    ensures k in Match(rows, seen, state)
    ensures Match(rows, seen, state)[k] == Marked(rows[k], state, LastSeen(seen, k))
  {
    if seen == [] {
    } else {
      var n := |seen| - 1;
      assert seen[n] in seen && forall y | y in seen[..n] :: y in seen;
      MatchKeys(rows, seen[..n], state);
      MatchAt(rows, seen[..n], state, k);
    }
  }

  ghost predicate TicketsPositive(s: Snapshot)
  {
    (forall p | p in s.positions :: p.ticket > 0) && (forall o | o in s.orders :: o.ticket > 0)
  }

  /** One row after recovery: a resting order decides over a position, a position over a verdict. */
  function RecoveredRow(row: Row, key: string, s: Snapshot): Row
  {
    var resolved := if row.state.UNKNOWN? then row.(state := Verdict(s, key)) else row;
    Settled(Marked(Marked(resolved, FILLED, LastSeen(SeenPositions(s.positions), key)),
                   PLACED, LastSeen(SeenOrders(s.orders), key)), s)
  }

  lemma RowByRow(rows: Rows, s: Snapshot)
    requires TicketsPositive(s)
    ensures Recovered(rows, s).Keys == rows.Keys
    ensures forall k | k in rows :: Recovered(rows, s)[k] == RecoveredRow(rows[k], k, s)
  {
    hide Verdict, Settled, LastSeen, Marked;
    var resolved := Resolve(rows, s);
    var matched := Match(resolved, SeenPositions(s.positions), FILLED);
    MatchKeys(resolved, SeenPositions(s.positions), FILLED);
    MatchKeys(matched, SeenOrders(s.orders), PLACED);
    forall k | k in rows ensures Recovered(rows, s)[k] == RecoveredRow(rows[k], k, s) {
      MatchAt(resolved, SeenPositions(s.positions), FILLED, k);
      MatchAt(matched, SeenOrders(s.orders), PLACED, k);
    }
  }

  lemma {:induction false} LastSeenIn(seen: seq<Sighting>, key: string)
    ensures LastSeen(seen, key).Some? ==> LastSeen(seen, key).value in seen && LastSeen(seen, key).value.key == Some(key)
    ensures LastSeen(seen, key).None? ==> forall x | x in seen :: x.key != Some(key)
  {
    if seen == [] {
    } else {
      LastSeenIn(seen[..|seen| - 1], key);
    }
  }

  lemma SightingsAreLive(s: Snapshot, key: string)
    ensures var p := LastSeen(SeenPositions(s.positions), key); p.Some? ==> p.value.ticket in Live(s)
    ensures var o := LastSeen(SeenOrders(s.orders), key); o.Some? ==> o.value.ticket in Live(s)
  {
    LastSeenIn(SeenPositions(s.positions), key);
    LastSeenIn(SeenOrders(s.orders), key);
    forall x | x in SeenPositions(s.positions) ensures x.ticket in Live(s) {
      var i :| 0 <= i < |s.positions| && SeenPositions(s.positions)[i] == x;
      assert s.positions[i] in s.positions;
    }
    forall x | x in SeenOrders(s.orders) ensures x.ticket in Live(s) {
      var i :| 0 <= i < |s.orders| && SeenOrders(s.orders)[i] == x;
      assert s.orders[i] in s.orders;
    }
  }

  // ----------------------------------------------------------------- theorems

  /** After recovery no outcome is unknown, and every row held to be live with a ticket either has that
      ticket shown by the broker or was closed by our own closing deal. */
  lemma NothingLeftUnknown(rows: Rows, s: Snapshot)
    requires TicketsPositive(s)
    ensures Recovered(rows, s).Keys == rows.Keys
    ensures forall k | k in rows :: var row := Recovered(rows, s)[k];
      && !row.state.UNKNOWN?
      && ((row.state.FILLED? || row.state.PLACED?) && row.ticket != 0 ==>
            row.ticket in Live(s) || (row.state.FILLED? && ClosedByUs(s.deals, row.ticket)))
  {
    hide Recovered, LastSeen;
    RowByRow(rows, s);
  }

  /** A row that the broker shows is marked with what it shows: a resting order's ticket and PLACED, or else
      an open position's ticket and volume and FILLED. */
  lemma ShownIsMarked(rows: Rows, s: Snapshot, k: string)
    requires TicketsPositive(s) && k in rows
    ensures var p, o := LastSeen(SeenPositions(s.positions), k), LastSeen(SeenOrders(s.orders), k);
      && k in Recovered(rows, s)
      && (o.Some? ==> Recovered(rows, s)[k] == Marked(rows[k], PLACED, o))
      && (o.None? && p.Some? ==> Recovered(rows, s)[k] == Marked(rows[k], FILLED, p))
  {
    hide Recovered, LastSeen, Live;
    RowByRow(rows, s);
    SightingsAreLive(s, k);
  }

  /** The row is in flight after startup: its order is shown, or its call stopped before an order was confirmed
      and no position is shown, or it was placed under no ticket or one that is shown. */
  predicate StaysOpen(row: Row, s: Snapshot, k: string)
  {
    || LastSeen(SeenOrders(s.orders), k).Some?
    || (LastSeen(SeenPositions(s.positions), k).None?
        && (row.state.ARMED? || row.state.CHECKED? || row.state.SUBMITTED? || (row.state.PLACED? && !Missing(row, s))))
  }

  /** Exactly which rows startup leaves in flight. Such a row keeps its symbol locked. */
  lemma LeftInFlight(rows: Rows, s: Snapshot, k: string)
    requires TicketsPositive(s) && k in rows
    ensures k in Recovered(rows, s)
    ensures InFlight(Recovered(rows, s)[k].state) <==> StaysOpen(rows[k], s, k)
  {
    hide Recovered, LastSeen, Live, ClosedByUs, OpenKeys, PendingKeys, DealKeys, SeenPositions, SeenOrders;
    RowByRow(rows, s);
    SightingsAreLive(s, k);
    OpenIsSighted(s, k);
  }

  /** When a second startup that sees the same tickets and keys changes no row: exactly when it still sees our
      own closing deal of every ticket that the first one found closed. */
  lemma RecoveredAgain(rows: Rows, s: Snapshot, s': Snapshot)
    requires TicketsPositive(s) && TicketsPositive(s') && s'.orders == s.orders
    requires SeenPositions(s'.positions) == SeenPositions(s.positions) && Live(s') == Live(s)
    ensures var once := Recovered(rows, s);
      Recovered(once, s') == once <==> forall k | k in once && Missing(once[k], s) :: ClosedByUs(s'.deals, once[k].ticket)
  {
    hide Recovered, RecoveredRow;
    var once := Recovered(rows, s);
    RowByRow(rows, s);
    RowByRow(once, s');
    forall k | k in rows
      ensures RecoveredRow(once[k], k, s') == once[k] <==> (Missing(once[k], s) ==> ClosedByUs(s'.deals, once[k].ticket))
    {
      RowAgain(rows[k], k, s, s');
    }
  }

  lemma RowAgain(row: Row, k: string, s: Snapshot, s': Snapshot)
    requires s'.orders == s.orders && SeenPositions(s'.positions) == SeenPositions(s.positions) && Live(s') == Live(s)
    ensures var once := RecoveredRow(row, k, s);
      RecoveredRow(once, k, s') == once <==> (Missing(once, s) ==> ClosedByUs(s'.deals, once.ticket))
  {
    hide LastSeen, Live, Verdict, SeenPositions, SeenOrders, ClosedByUs;
    SightingsAreLive(s, k);
    VerdictIsKnown(s, k);
  }

  lemma VerdictIsKnown(s: Snapshot, k: string)
    ensures !Verdict(s, k).UNKNOWN?
  {
  }

  /** One of our own closing deals of the ticket is dated in this window. */
  predicate ClosedWithin(b: Book, ticket: int, from: int, to: int)
  {
    exists d | d in b.deals :: d.positionId == ticket && d.entry.OUT? && MagicPrefixOk(d.magic) && from <= d.time <= to
  }

  lemma ClosedByUsIs(b: Book, now: int, s: Snapshot, ticket: int)
    requires Reads(b, now, s)
    ensures ClosedByUs(s.deals, ticket) <==> ClosedWithin(b, ticket, now - TWO_DAYS, now + FIVE_MINUTES)
  {
    forall d ensures d in s.deals <==> d in b.deals && now - TWO_DAYS <= d.time <= now + FIVE_MINUTES {
      DealsWithinMembers(b.deals, now - TWO_DAYS, now + FIVE_MINUTES, d);
    }
  }

  /** A vanished ticket counts as closed by us only while its closing deal is in the two-day window; an older
      close of our own is reported as a manual override. */
  lemma ClosedByUsWithinTwoDays(b: Book, now: int, s: Snapshot, row: Row)
    requires Reads(b, now, s) && Missing(row, s)
    ensures Settled(row, s).state.CANCELLED? <==> !ClosedWithin(b, row.ticket, now - TWO_DAYS, now + FIVE_MINUTES)
  {
    hide Reads, ClosedByUs, ClosedWithin;
    ClosedByUsIs(b, now, s, row.ticket);
  }

  /** The witness: an intent filled and closed by us at time 0, so that the broker shows an opening and a closing
      deal under its key, stays FILLED at a startup one second later, and is reported as a manual override and
      marked CANCELLED at a startup two days later. */
  lemma LaterStartupOverrides(b0: Book, r: OrderRequest, price: real, exit: real)
    requires Valid(b0) && b0.orders == map[] && b0.positions == map[] && b0.deals == [] && b0.now == 0
    requires r.symbol == "EURUSD" && r.symbol in b0.cfg.specs && r.comment == CommentFor("k") && MagicPrefixOk(r.magic)
    ensures var t := b0.nextTicket + 1;
      var filled := Apply(b0, Open(r, 1, price));
      && Enabled(filled, Close(t, 1, exit))
      && var b := Apply(filled, Close(t, 1, exit));
         var rows := map["k" := Row("EURUSD", "breakout", BUY, FILLED, t, 1, "")];
         var s, s' := Snapshot([], [], b.deals), Snapshot([], [], []);
         && Valid(b) && Reads(b, 1, s) && Reads(b, 1 + TWO_DAYS, s')
         && Recovered(rows, s) == rows
         && Recovered(rows, s') == map["k" := rows["k"].(state := CANCELLED)]
  {
    hide Recovered, RecoveredRow, DealsWithin, Valid, Apply, Missing;
    var t := b0.nextTicket + 1;
    FilledAndClosed(b0, r, price, exit);
    var b := Apply(Apply(b0, Open(r, 1, price)), Close(t, 1, exit));
    var row := Row("EURUSD", "breakout", BUY, FILLED, t, 1, "");
    var rows := map["k" := row];
    var s, s' := Snapshot([], [], b.deals), Snapshot([], [], []);
    TwoDealsWithin(b.deals[0], b.deals[1], 1 - TWO_DAYS, 1 + FIVE_MINUTES);
    TwoDealsWithin(b.deals[0], b.deals[1], 1, 1 + TWO_DAYS + FIVE_MINUTES);
    RowByRow(rows, s);
    RowByRow(rows, s');
    NothingShown(row, "k", s);
    NothingShown(row, "k", s');
    assert b.deals[1] in s.deals;
  }

  lemma FilledAndClosed(b0: Book, r: OrderRequest, price: real, exit: real)
    requires Valid(b0) && b0.orders == map[] && b0.positions == map[] && b0.deals == [] && b0.now == 0
    requires r.symbol in b0.cfg.specs
    ensures var t := b0.nextTicket + 1;
      var filled := Apply(b0, Open(r, 1, price));
      && 0 < t && Enabled(filled, Close(t, 1, exit))
      && var b := Apply(filled, Close(t, 1, exit));
         && Valid(b) && b.orders == map[] && b.positions == map[]
         && b.deals == [b.deals[0], b.deals[1]] && b.deals[0].time == b.deals[1].time == 0
         && b.deals[0].entry.IN? && b.deals[1].entry.OUT? && b.deals[1].positionId == t && b.deals[1].magic == r.magic
  {
    hide Valid, CalcProfit, Commission;
    TicketIsPositive(b0);
    ActKeepsValid(b0, Open(r, 1, price));
    ActKeepsValid(Apply(b0, Open(r, 1, price)), Close(b0.nextTicket + 1, 1, exit));
  }

  lemma TicketIsPositive(b: Book)
    requires Valid(b)
    ensures 0 <= b.nextTicket
  {
  }

  lemma TwoDealsWithin(d: Deal, e: Deal, from: int, to: int)
    requires d.time == e.time
    ensures DealsWithin([d, e], from, to) == if from <= d.time <= to then [d, e] else []
  {
    assert [d, e][..1] == [d] && [d][..0] == [];
    assert DealsWithin([d], from, to) == if from <= d.time <= to then [d] else [];
  }

  /** What recovery makes of a ticketed FILLED row when the broker shows nothing. */
  lemma NothingShown(row: Row, k: string, s: Snapshot)
    requires s.positions == [] && s.orders == [] && row.state.FILLED? && row.ticket != 0
    ensures RecoveredRow(row, k, s) == row.(state := if ClosedByUs(s.deals, row.ticket) then FILLED else CANCELLED)
  {
  }

  // ------------------------------------------------- the two resolvers compared

  predicate ShowsPosition(b: Book, c: string, magic: int, symbol: string)
  {
    exists t :: t in b.positions && b.positions[t].comment == c && b.positions[t].magic == magic && b.positions[t].symbol == symbol
  }

  predicate ShowsOrder(b: Book, c: string, magic: int, symbol: string)
  {
    exists t :: t in b.orders && b.orders[t].comment == c && b.orders[t].magic == magic && b.orders[t].symbol == symbol
  }

  predicate ShowsDeal(deals: seq<Deal>, c: string, magic: int)
  {
    exists d | d in deals :: d.comment == c && d.magic == magic
  }

  /** The engine's verdict on one snapshot: position, then order, then a deal of the last day. */
  function EngineVerdict(b: Book, key: string, magic: int, symbol: string, now: int): OrderState
  {
    var c := CommentFor(key);
    if ShowsPosition(b, c, magic, symbol) then FILLED
    else if ShowsOrder(b, c, magic, symbol) then PLACED
    else if ShowsDeal(DealsWithin(b.deals, now - DAY, now + FIVE_MINUTES), c, magic) then FILLED
    else CANCELLED
  }

  /** No comment at the broker reads back as `key` without being the key's own comment. */
  ghost predicate Legible(b: Book, key: string)
  {
    && 1 <= |key| <= 12
    && (forall t :: t in b.orders && KeyFromComment(b.orders[t].comment) == Some(key) ==> b.orders[t].comment == CommentFor(key))
    && (forall t :: t in b.positions && KeyFromComment(b.positions[t].comment) == Some(key) ==> b.positions[t].comment == CommentFor(key))
    && (forall d | d in b.deals :: KeyFromComment(d.comment) == Some(key) ==> d.comment == CommentFor(key))
  }

  /** Reading keys back from the snapshot finds exactly what carries the key's comment. */
  lemma KeysAreComments(b: Book, now: int, s: Snapshot, key: string, magic: int, symbol: string, since: int)
    requires Reads(b, now, s) && Legible(b, key) && MagicPrefixOk(magic)
    requires Tagged(b, CommentFor(key), magic, symbol, since) && now - TWO_DAYS <= since && b.now <= now + FIVE_MINUTES
    ensures Some(key) in OpenKeys(s) <==> ShowsPosition(b, CommentFor(key), magic, symbol)
    ensures Some(key) in PendingKeys(s) <==> ShowsOrder(b, CommentFor(key), magic, symbol)
    ensures Some(key) in DealKeys(s) <==> ShowsDeal(b.deals, CommentFor(key), magic)
  {
    var c := CommentFor(key);
    KeyRoundTrip(key);
    forall d ensures d in s.deals <==> d in b.deals && now - TWO_DAYS <= d.time <= now + FIVE_MINUTES {
      DealsWithinMembers(b.deals, now - TWO_DAYS, now + FIVE_MINUTES, d);
    }
    if ShowsDeal(b.deals, c, magic) {
      var d :| d in b.deals && d.comment == c && d.magic == magic;
      assert d in s.deals;
    }
    if ShowsPosition(b, c, magic, symbol) {
      var t :| t in b.positions && b.positions[t].comment == c && b.positions[t].magic == magic && b.positions[t].symbol == symbol;
      assert b.positions[t] in s.positions;
    }
    if ShowsOrder(b, c, magic, symbol) {
      var t :| t in b.orders && b.orders[t].comment == c && b.orders[t].magic == magic && b.orders[t].symbol == symbol;
      assert b.orders[t] in s.orders;
    }
  }

  lemma DayDeals(b: Book, now: int, c: string, magic: int, symbol: string, since: int)
    requires Tagged(b, c, magic, symbol, since) && now - DAY <= since && b.now <= now + FIVE_MINUTES
    ensures ShowsDeal(DealsWithin(b.deals, now - DAY, now + FIVE_MINUTES), c, magic) <==> ShowsDeal(b.deals, c, magic)
  {
    forall d ensures d in DealsWithin(b.deals, now - DAY, now + FIVE_MINUTES) <==>
                     d in b.deals && now - DAY <= d.time <= now + FIVE_MINUTES {
      DealsWithinMembers(b.deals, now - DAY, now + FIVE_MINUTES, d);
    }
    if ShowsDeal(b.deals, c, magic) {
      var d :| d in b.deals && d.comment == c && d.magic == magic;
      assert d in DealsWithin(b.deals, now - DAY, now + FIVE_MINUTES);
    }
  }

  /** When the engine takes an intent for one that never had an effect: exactly when nothing under its key rests
      or is open and every deal under it, if there is any, is more than a day old. */
  lemma EngineFindsNothing(b: Book, key: string, magic: int, symbol: string, now: int, since: int)
    requires Tagged(b, CommentFor(key), magic, symbol, since) && b.now <= now + FIVE_MINUTES
    ensures EngineVerdict(b, key, magic, symbol, now).CANCELLED? <==>
            && (forall t :: t in b.orders ==> b.orders[t].comment != CommentFor(key))
            && (forall t :: t in b.positions ==> b.positions[t].comment != CommentFor(key))
            && (forall d | d in b.deals && d.comment == CommentFor(key) :: d.time < now - DAY)
  {
    var c, within := CommentFor(key), DealsWithin(b.deals, now - DAY, now + FIVE_MINUTES);
    forall d ensures d in within <==> d in b.deals && now - DAY <= d.time <= now + FIVE_MINUTES {
      DealsWithinMembers(b.deals, now - DAY, now + FIVE_MINUTES, d);
    }
    if d :| d in b.deals && d.comment == c && now - DAY <= d.time {
      assert d in within && d.magic == magic;
      assert ShowsDeal(within, c, magic);
    }
    if t :| t in b.orders && b.orders[t].comment == c {
      assert ShowsOrder(b, c, magic, symbol);
    }
    if t :| t in b.positions && b.positions[t].comment == c {
      assert ShowsPosition(b, c, magic, symbol);
    }
  }

  /** The engine and startup look in different orders, windows and by different marks. On one snapshot of
      at most a day they disagree exactly when a key shows a resting order and a deal but no position. */
  lemma VerdictsCompared(b: Book, now: int, s: Snapshot, key: string, magic: int, symbol: string, since: int)
    requires Reads(b, now, s) && Legible(b, key) && MagicPrefixOk(magic)
    requires Tagged(b, CommentFor(key), magic, symbol, since) && now - DAY <= since && b.now <= now + FIVE_MINUTES
    ensures var c := CommentFor(key);
      Verdict(s, key) == EngineVerdict(b, key, magic, symbol, now) <==>
      !(ShowsOrder(b, c, magic, symbol) && ShowsDeal(b.deals, c, magic) && !ShowsPosition(b, c, magic, symbol))
  {
    hide Reads, Legible, Tagged, ShowsDeal, ShowsOrder, ShowsPosition, OpenKeys, PendingKeys, DealKeys, DealsWithin;
    KeysAreComments(b, now, s, key, magic, symbol, since);
    DayDeals(b, now, CommentFor(key), magic, symbol, since);
  }

  /** Where one key has at most one effect, they agree. */
  lemma AgreeWithin(w: World, now: int, s: Snapshot, key: string, magic: int, symbol: string, since: int)
    requires Core(w) && Reads(w.book, now, s) && Legible(w.book, key) && MagicPrefixOk(magic)
    requires Tagged(w.book, CommentFor(key), magic, symbol, since) && now - DAY <= since && w.book.now <= now + FIVE_MINUTES
    ensures Verdict(s, key) == EngineVerdict(w.book, key, magic, symbol, now)
  {
    hide Core, Reads, Legible, Tagged, Verdict, EngineVerdict;
    VerdictsCompared(w.book, now, s, key, magic, symbol, since);
    var c := CommentFor(key);
    if ShowsOrder(w.book, c, magic, symbol) && ShowsDeal(w.book.deals, c, magic) {
      var d :| d in w.book.deals && d.comment == c && d.magic == magic;
      DealSeen(w, key, d);
      var t :| t in w.book.orders && w.book.orders[t].comment == c;
      assert t in Resting(w.book.orders, c);
      FillSeen(w, key);
      assert false;
    }
  }

  // ------------------------------------------------------------------- truth

  /** The marks of `key` at the broker can be told: its comment is legible, and the orders that carry it
      have our magic prefix. */
  ghost predicate Traceable(b: Book, key: string)
  {
    Legible(b, key) && forall t :: t in b.orders && b.orders[t].comment == CommentFor(key) ==> MagicPrefixOk(b.orders[t].magic)
  }

  lemma RestingIsSighted(b: Book, now: int, s: Snapshot, key: string, ticket: int)
    requires Reads(b, now, s) && Traceable(b, key) && Owned(b, ticket, CommentFor(key))
    ensures Resting(b.orders, CommentFor(key)) != {} <==> LastSeen(SeenOrders(s.orders), key).Some?
    ensures Resting(b.orders, CommentFor(key)) != {} && ticket != 0 ==> ticket in Live(s)
  {
    hide LastSeen;
    KeyRoundTrip(key);
    LastSeenIn(SeenOrders(s.orders), key);
    var resting := Resting(b.orders, CommentFor(key));
    if resting != {} {
      SomeMember(resting);
      var t :| t in resting;
      assert b.orders[t] in s.orders;
      var i :| 0 <= i < |s.orders| && s.orders[i] == b.orders[t];
      assert SeenOrders(s.orders)[i].key == Some(key) && SeenOrders(s.orders)[i] in SeenOrders(s.orders);
    }
    if LastSeen(SeenOrders(s.orders), key).Some? {
      var i :| 0 <= i < |s.orders| && SeenOrders(s.orders)[i] == LastSeen(SeenOrders(s.orders), key).value;
      assert s.orders[i] in s.orders;
      assert s.orders[i].ticket in resting;
    }
  }

  lemma SightedIsFilled(w: World, now: int, s: Snapshot, key: string)
    requires Core(w) && Reads(w.book, now, s) && Legible(w.book, key)
    requires LastSeen(SeenPositions(s.positions), key).Some? || Some(key) in DealKeys(s)
    ensures TrueOf(w.book, key, FILLED)
  {
    hide Core, LastSeen, TrueOf;
    LastSeenIn(SeenPositions(s.positions), key);
    if LastSeen(SeenPositions(s.positions), key).Some? {
      var x := LastSeen(SeenPositions(s.positions), key).value;
      var i :| 0 <= i < |SeenPositions(s.positions)| && SeenPositions(s.positions)[i] == x;
      assert s.positions[i] in s.positions;
      PositionSeen(w, key, s.positions[i]);
    } else {
      var d :| d in s.deals && KeyFromComment(d.comment) == Some(key);
      DealsWithinMembers(w.book.deals, now - TWO_DAYS, now + FIVE_MINUTES, d);
      DealSeen(w, key, d);
    }
  }

  lemma OpenIsSighted(s: Snapshot, key: string)
    ensures Some(key) in OpenKeys(s) <==> LastSeen(SeenPositions(s.positions), key).Some?
    ensures Some(key) in PendingKeys(s) <==> LastSeen(SeenOrders(s.orders), key).Some?
  {
    hide LastSeen;
    LastSeenIn(SeenPositions(s.positions), key);
    LastSeenIn(SeenOrders(s.orders), key);
    assert forall i | 0 <= i < |s.positions| :: SeenPositions(s.positions)[i] in SeenPositions(s.positions)
                                                && s.positions[i] in s.positions;
    assert forall i | 0 <= i < |s.orders| :: SeenOrders(s.orders)[i] in SeenOrders(s.orders) && s.orders[i] in s.orders;
  }

  lemma ClosedIsFilled(w: World, now: int, s: Snapshot, key: string, ticket: int)
    requires Core(w) && Reads(w.book, now, s) && Owned(w.book, ticket, CommentFor(key)) && ticket != 0 && ClosedByUs(s.deals, ticket)
    ensures TrueOf(w.book, key, FILLED)
  {
    hide Core, TrueOf;
    var d :| d in s.deals && d.positionId == ticket;
    DealsWithinMembers(w.book.deals, now - TWO_DAYS, now + FIVE_MINUTES, d);
    DealSeen(w, key, d);
  }

  /** The recovered row of a traceable key is true of the broker, its ticket is the key's own, and it is in
      flight only if it was. */
  lemma RowRecoversTrue(w: World, now: int, s: Snapshot, k: string)
    requires Core(w) && Reads(w.book, now, s) && k in w.rows && Traceable(w.book, k)
    requires TrueOf(w.book, k, w.rows[k].state) && Owned(w.book, w.rows[k].ticket, CommentFor(k))
    ensures TrueOf(w.book, k, RecoveredRow(w.rows[k], k, s).state)
    ensures Owned(w.book, RecoveredRow(w.rows[k], k, s).ticket, CommentFor(k))
    ensures InFlight(RecoveredRow(w.rows[k], k, s).state) ==> InFlight(w.rows[k].state)
  {
    hide Core, Reads, Traceable, LastSeen, Resting, Ins, Live, ClosedByUs, OpenKeys, PendingKeys, DealKeys, SeenPositions,
         SeenOrders, Owned;
    var row := w.rows[k];
    RestingIsSighted(w.book, now, s, k, row.ticket);
    OpenIsSighted(s, k);
    SightingsAreLive(s, k);
    SightingsOwned(w, now, s, k);
    assert Legible(w.book, k) by { TraceableIsLegible(w.book, k); }
    if LastSeen(SeenPositions(s.positions), k).Some? || Some(k) in DealKeys(s) {
      SightedIsFilled(w, now, s, k);
    }
    if row.ticket != 0 && ClosedByUs(s.deals, row.ticket) {
      ClosedIsFilled(w, now, s, k, row.ticket);
    }
    NoneRests(w.book, CommentFor(k));
  }

  /** A sighting's ticket is the key's own. */
  lemma SightingsOwned(w: World, now: int, s: Snapshot, k: string)
    requires Core(w) && Reads(w.book, now, s) && Traceable(w.book, k)
    ensures var p := LastSeen(SeenPositions(s.positions), k); p.Some? ==> Owned(w.book, p.value.ticket, CommentFor(k))
    ensures var o := LastSeen(SeenOrders(s.orders), k); o.Some? ==> Owned(w.book, o.value.ticket, CommentFor(k))
  {
    hide Core, LastSeen, Owned;
    LastSeenIn(SeenPositions(s.positions), k);
    LastSeenIn(SeenOrders(s.orders), k);
    if LastSeen(SeenPositions(s.positions), k).Some? {
      var x := LastSeen(SeenPositions(s.positions), k).value;
      var i :| 0 <= i < |SeenPositions(s.positions)| && SeenPositions(s.positions)[i] == x;
      assert s.positions[i] in s.positions;
      PositionOwned(w, k, s.positions[i]);
    }
    if LastSeen(SeenOrders(s.orders), k).Some? {
      var x := LastSeen(SeenOrders(s.orders), k).value;
      var i :| 0 <= i < |SeenOrders(s.orders)| && SeenOrders(s.orders)[i] == x;
      assert s.orders[i] in s.orders;
      OrderOwned(w, k, s.orders[i]);
    }
  }

  lemma TraceableIsLegible(b: Book, key: string)
    requires Traceable(b, key)
    ensures Legible(b, key)
  {
  }

  lemma NoneRests(b: Book, c: string)
    ensures |Resting(b.orders, c)| == 0 <==> Resting(b.orders, c) == {}
  {
  }

  // -------------------------------------------------------------- three reads

  /** Positions, orders and deals read one after another, from three states of the broker. */
  ghost predicate ReadsApart(b1: Book, b2: Book, b3: Book, now: int, s: Snapshot)
  {
    && (forall p | p in s.positions :: p.ticket in b1.positions && b1.positions[p.ticket] == p && MagicPrefixOk(p.magic))
    && (forall t | t in b1.positions && MagicPrefixOk(b1.positions[t].magic) :: b1.positions[t] in s.positions)
    && (forall o | o in s.orders :: o.ticket in b2.orders && b2.orders[o.ticket] == o && MagicPrefixOk(o.magic))
    && (forall t | t in b2.orders && MagicPrefixOk(b2.orders[t].magic) :: b2.orders[t] in s.orders)
    && s.deals == DealsWithin(b3.deals, now - TWO_DAYS, now + FIVE_MINUTES)
  }

  /** What the broker does on its own. */
  predicate BrokerOnly(acts: seq<Act>)
  {
    forall a | a in acts :: a.Quote? || a.Trigger? || a.Close? || a.Expire?
  }

  /** On its own the broker only takes orders out of its books. */
  lemma {:induction false} OrdersOnlyLeave(b: Book, acts: seq<Act>)
    requires Run(b, acts).Some? && BrokerOnly(acts)
    ensures forall t | t in Run(b, acts).value.orders :: t in b.orders && Run(b, acts).value.orders[t] == b.orders[t]
    decreases |acts|
  {
    hide Enabled;
    if acts == [] {
    } else {
      assert acts[|acts| - 1] in acts;
      OrdersOnlyLeave(b, acts[..|acts| - 1]);
    }
  }

  lemma NoPositionSighted(w: World, b2: Book, b3: Book, now: int, s: Snapshot, k: string, t: int)
    requires Core(w) && Traceable(w.book, k) && ReadsApart(w.book, b2, b3, now, s)
    requires t in w.book.orders && w.book.orders[t].comment == CommentFor(k)
    ensures LastSeen(SeenPositions(s.positions), k).None?
  {
    hide Core, TrueOf;
    LastSeenIn(SeenPositions(s.positions), k);
    assert t in Resting(w.book.orders, CommentFor(k));
    if LastSeen(SeenPositions(s.positions), k).Some? {
      var x := LastSeen(SeenPositions(s.positions), k).value;
      var i :| 0 <= i < |SeenPositions(s.positions)| && SeenPositions(s.positions)[i] == x;
      assert s.positions[i] in s.positions;
      PositionSeen(w, k, s.positions[i]);
      FillSeen(w, k);
      assert false;
    }
  }

  /** The key's order is sighted exactly if it still rests when the orders are read. */
  lemma OrderSighted(w: World, b2: Book, b3: Book, now: int, s: Snapshot, k: string, t: int)
    requires Core(w) && Traceable(w.book, k) && ReadsApart(w.book, b2, b3, now, s)
    requires t in w.book.orders && w.book.orders[t].comment == CommentFor(k)
    requires forall u | u in b2.orders :: u in w.book.orders && b2.orders[u] == w.book.orders[u]
    ensures LastSeen(SeenOrders(s.orders), k).Some? <==> t in b2.orders
    ensures LastSeen(SeenOrders(s.orders), k).Some? ==> LastSeen(SeenOrders(s.orders), k).value.ticket == t
  {
    hide Core;
    KeyRoundTrip(k);
    LastSeenIn(SeenOrders(s.orders), k);
    AtMostOneRests(w, k);
    OrderTicket(w, t);
    assert t in Resting(w.book.orders, CommentFor(k));
    if t in b2.orders {
      var i :| 0 <= i < |s.orders| && s.orders[i] == b2.orders[t];
      assert SeenOrders(s.orders)[i].key == Some(k) && SeenOrders(s.orders)[i] in SeenOrders(s.orders);
    }
    if LastSeen(SeenOrders(s.orders), k).Some? {
      var i :| 0 <= i < |s.orders| && SeenOrders(s.orders)[i] == LastSeen(SeenOrders(s.orders), k).value;
      assert s.orders[i] in s.orders;
      assert s.orders[i].ticket in Resting(w.book.orders, CommentFor(k));
    }
  }

  lemma OrderTicket(w: World, t: int)
    requires Core(w) && t in w.book.orders
    ensures w.book.orders[t].ticket == t && t > 0 && t !in w.book.positions
    ensures forall u | u in w.book.positions :: w.book.positions[u].ticket == u > 0
    ensures forall u | u in w.book.orders :: w.book.orders[u].ticket == u > 0
  {
  }

  /** STARTUP'S THREE READS. The broker acts between the reads of positions, orders and deals. A placed row whose
      order rests when the positions are read stays PLACED if the order still rests when the orders are read. If
      it has left by then, neither listing shows it: the row is FILLED if a closing deal of ours is dated in the
      window, and otherwise CANCELLED as a manual override, even if its position is open. */
  lemma LeftBetweenReads(w: World, acts: seq<Act>, acts': seq<Act>, now: int, s: Snapshot, k: string)
    requires Core(w) && Traceable(w.book, k) && k in w.rows && w.rows[k].state.PLACED?
    requires Run(w.book, acts).Some? && BrokerOnly(acts) && Run(Run(w.book, acts).value, acts').Some?
    requires var t := w.rows[k].ticket; t in w.book.orders && w.book.orders[t].comment == CommentFor(k)
    requires ReadsApart(w.book, Run(w.book, acts).value, Run(Run(w.book, acts).value, acts').value, now, s)
    ensures var t, b2, b3 := w.rows[k].ticket, Run(w.book, acts).value, Run(Run(w.book, acts).value, acts').value;
      && k in Recovered(w.rows, s)
      && Recovered(w.rows, s)[k].state ==
         if t in b2.orders then PLACED
         else if ClosedWithin(b3, t, now - TWO_DAYS, now + FIVE_MINUTES) then FILLED
         else CANCELLED
  {
    hide Core, Traceable, LastSeen, SeenPositions, SeenOrders, Recovered, ClosedByUs, ClosedWithin, Run;
    var t, b2 := w.rows[k].ticket, Run(w.book, acts).value;
    var b3 := Run(b2, acts').value;
    OrdersOnlyLeave(w.book, acts);
    OrderTicket(w, t);
    NoPositionSighted(w, b2, b3, now, s, k, t);
    OrderSighted(w, b2, b3, now, s, k, t);
    RowByRow(w.rows, s);
    ClosedApart(w.book, b2, b3, now, s, t);
    SightingsAreLive(s, k);
    if t !in b2.orders {
      assert t !in Live(s);
    }
  }

  lemma ClosedApart(b1: Book, b2: Book, b3: Book, now: int, s: Snapshot, t: int)
    requires ReadsApart(b1, b2, b3, now, s)
    ensures ClosedByUs(s.deals, t) <==> ClosedWithin(b3, t, now - TWO_DAYS, now + FIVE_MINUTES)
  {
    forall d ensures d in s.deals <==> d in b3.deals && now - TWO_DAYS <= d.time <= now + FIVE_MINUTES {
      DealsWithinMembers(b3.deals, now - TWO_DAYS, now + FIVE_MINUTES, d);
    }
  }

  /** The witness: the desk's only order triggers between the first two reads. Its position is open, and the row is
      reported as a manual override and marked CANCELLED. */
  lemma TriggeredBetweenReads(w: World, k: string, o: PendingOrder, tick: Tick, now: int)
    requires Core(w) && Traceable(w.book, k) && k in w.rows && w.rows[k].state.PLACED? && w.rows[k].ticket == o.ticket
    requires w.book.orders == map[o.ticket := o] && o.comment == CommentFor(k) && w.book.positions == map[] && w.book.deals == []
    requires o.symbol in w.book.cfg.specs && Touched(o, tick)
    ensures var acts := [Quote(o.symbol, tick), Trigger(o.ticket)];
      && Run(w.book, acts).Some?
      && var b := Run(w.book, acts).value;
         var s := Snapshot([], [], DealsWithin(b.deals, now - TWO_DAYS, now + FIVE_MINUTES));
         && ReadsApart(w.book, b, b, now, s)
         && o.ticket in b.positions && b.positions[o.ticket].comment == CommentFor(k)
         && k in Recovered(w.rows, s) && Recovered(w.rows, s)[k].state.CANCELLED?
  {
    hide Core, Traceable, Recovered, DealsWithin, Commission;
    var acts := [Quote(o.symbol, tick), Trigger(o.ticket)];
    RunOne(w.book, acts[0]);
    RunSnoc(w.book, [acts[0]], acts[1]);
    assert [acts[0]] + [acts[1]] == acts;
    var b := Run(w.book, acts).value;
    assert Run(b, []) == Some(b);
    var s := Snapshot([], [], DealsWithin(b.deals, now - TWO_DAYS, now + FIVE_MINUTES));
    LeftBetweenReads(w, acts, [], now, s, k);
  }

  // -------------------------------------------------------------- symbol lock

  /** Recovery puts the row back in flight: its order rests, though the row was finished. */
  predicate Revived(rows: Rows, s: Snapshot, k: string)
    requires k in rows
  {
    !InFlight(rows[k].state) && LastSeen(SeenOrders(s.orders), k).Some?
  }

  /** Recovery revives no row beside another row that is in flight afterwards on its symbol, other legs of its
      OCO group aside. */
  ghost predicate RecoveryFits(rows: Rows, s: Snapshot)
  {
    forall k, k' | k in rows && k' in rows && k != k' && Revived(rows, s, k) && StaysOpen(rows[k'], s, k') ::
      rows[k].symbol == rows[k'].symbol ==> rows[k].ocoGroup == rows[k'].ocoGroup != ""
  }

  /** Exactly when recovery keeps the symbol lock. */
  lemma RecoveryKeepsLock(rows: Rows, s: Snapshot)
    requires TicketsPositive(s) && OneInFlight(rows)
    ensures Recovered(rows, s).Keys == rows.Keys && (OneInFlight(Recovered(rows, s)) <==> RecoveryFits(rows, s))
  {
    hide Recovered, LastSeen, Live, SeenPositions, SeenOrders, RecoveredRow, Missing, StaysOpen;
    var rows' := Recovered(rows, s);
    RowByRow(rows, s);
    forall k | k in rows ensures InFlight(rows'[k].state) <==> StaysOpen(rows[k], s, k)
      ensures InFlight(rows'[k].state) ==> InFlight(rows[k].state) || Revived(rows, s, k)
      ensures Revived(rows, s, k) ==> StaysOpen(rows[k], s, k)
      ensures rows'[k].symbol == rows[k].symbol && rows'[k].ocoGroup == rows[k].ocoGroup
    {
      LeftInFlight(rows, s, k);
      OnlyShownRevive(rows, s, k);
      SameIdentity(rows[k], k, s);
    }
    if OneInFlight(rows') {
      assert forall k, k' | k in rows' && k' in rows' && k != k' :: Compatible(rows'[k], rows'[k']);
    } else {
      var k, k' :| k in rows' && k' in rows' && k != k' && !Compatible(rows'[k], rows'[k']);
      assert Compatible(rows[k], rows[k']);
      assert Revived(rows, s, k) || Revived(rows, s, k');
    }
  }

  lemma OnlyShownRevive(rows: Rows, s: Snapshot, k: string)
    requires k in rows
    ensures StaysOpen(rows[k], s, k) ==> InFlight(rows[k].state) || Revived(rows, s, k)
    ensures Revived(rows, s, k) ==> StaysOpen(rows[k], s, k)
  {
  }

  /** The witness: an order that still rests brings back the row that was marked CANCELLED over it, beside
      the intent that has claimed the symbol since. */
  lemma RecoveryRevives(b: Book, o: PendingOrder)
    requires b.orders == map[4 := o] && o.ticket == 4 && o.comment == CommentFor("a") && MagicPrefixOk(o.magic)
    requires b.positions == map[] && b.deals == []
    ensures var rows := map["a" := Row("EURUSD", "breakout", BUY, CANCELLED, 4, 0, ""),
                            "b" := Row("EURUSD", "breakout", BUY, ARMED, 0, 0, "")];
      var s := Snapshot([], [o], []);
      Reads(b, 0, s) && OneInFlight(rows) && !OneInFlight(Recovered(rows, s))
  {
    hide Recovered, RecoveredRow;
    var a, c := Row("EURUSD", "breakout", BUY, CANCELLED, 4, 0, ""), Row("EURUSD", "breakout", BUY, ARMED, 0, 0, "");
    var rows := map["a" := a, "b" := c];
    var s := Snapshot([], [o], []);
    KeyRoundTrip("a");
    RowByRow(rows, s);
    var seen := SeenOrders(s.orders);
    assert seen == [Sighting(4, Some("a"), 0)];
    assert seen[..0] == [];
    LeftInFlight(rows, s, "a");
    LeftInFlight(rows, s, "b");
    SameIdentity(a, "a", s);
    SameIdentity(c, "b", s);
    assert !Compatible(Recovered(rows, s)["a"], Recovered(rows, s)["b"]);
  }

  lemma SameIdentity(row: Row, k: string, s: Snapshot)
    ensures RecoveredRow(row, k, s).symbol == row.symbol && RecoveredRow(row, k, s).ocoGroup == row.ocoGroup
  {
    hide LastSeen, Verdict, Missing, ClosedByUs;
  }
}
