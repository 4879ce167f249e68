/** The execution engine: claims, retcode-driven sends, verification and unknown-outcome resolution.
    Between any two of its gateway calls other threads, other traders and the broker may move; the
    script says how, and every contract holds for every script. */
module Engine {
  import opened Protocol
  import opened Retcodes
  import opened Market
  import opened Footprint
  import opened Dealing
  import opened Ticking
  import opened Snapshots
  import opened Simulator
  import opened Intents
  import opened Orders
  import opened World
  import opened Rely
  import opened Fuse
  import opened Windows
  import opened Calls
  import opened Fills
  import Recovery

  const MAX_TOTAL_RETRIES := 2
  const MAX_SENDS := 6
  datatype Event = TickEvent(symbol: string, bid: real, ask: real, time: int) | Peer(move: Move)

  /** What happens before one gateway call reaches the broker, and whether that call raises. */
  datatype Turn = Turn(events: seq<Event>, raises: bool)

  /** The event writes no row of `k`. */
  predicate Leaves(e: Event, k: string) { !(e.Peer? && e.move.Write? && e.move.key == k) }

  /** Nobody writes the row of `k` in this turn. */
  predicate Spares(turn: Turn, k: string)
  {
    forall e | e in turn.events :: Leaves(e, k)
  }

  /** Nobody claims a key in this turn. */
  predicate Claimless(turn: Turn)
  {
    forall e | e in turn.events :: !(e.Peer? && e.move.Claim?)
  }

  /** The next `n` gateway calls are served at once: nobody moves before them and none raises. */
  predicate Quiet(script: seq<Turn>, n: nat)
  {
    forall i | 0 <= i < n && i < |script| :: script[i] == Turn([], false)
  }

  /** The tick reaches the broker, and its books settle. */
  ghost predicate Ticked(w: World, symbol: string, tick: Protocol.Tick, w': World)
  {
    w' == w.(book := w'.book) &&
    exists acts :: acts != [] && acts[0] == Quote(symbol, tick) && Run(w.book, acts) == Some(w'.book)
                   && Quiescent(w.book, w'.book, acts, symbol, tick)
  }

  /** The move as it would be made here and now: the reply to a request is the broker's own. */
  function Meant(w: World, m: Move): Move
  {
    match m
    case Trader(r, _) => Trader(r, Answer(w, r).reply)
    case Send(key, r, _) => Send(key, r, Answer(w, r).reply)
    case _ => m
  }

  /** Not for others to make while the call for `k` runs, or not possible here and now. */
  predicate Idle(w: World, m: Move, k: string)
  {
    m.Broker? || (Touches(m, k) && !Cancels(m, k)) || !Possible(w, Meant(w, m))
  }

  /** What one event of a turn does: a tick is taken unless it is late or names an unknown symbol, and a move of a
      peer is made unless it is not possible, not the peer's to make, or a send without a send left. */
  ghost predicate Occurs(w: World, e: Event, k: string, w': World)
  {
    match e
    case TickEvent(symbol, bid, ask, time) =>
      if w.book.now <= time && symbol in w.book.cfg.specs then Ticked(w, symbol, Protocol.Tick(time, bid, ask), w') else w' == w
    case Peer(m) =>
      if Idle(w, m, k) then w' == w else Makes(w, Meant(w, m), w') || (m.Send? && w' == w)
  }

  ghost predicate Path(path: seq<World>, events: seq<Event>, k: string)
  {
    |path| == |events| + 1 && forall i | 0 <= i < |events| :: Occurs(path[i], events[i], k, path[i + 1])
  }

  /** The events happen one after another. */
  ghost predicate Unfolds(w: World, events: seq<Event>, k: string, w': World)
  {
    exists path :: Path(path, events, k) && path[0] == w && path[|events|] == w'
  }

  lemma UnfoldsFrom(w: World, k: string)
    ensures Unfolds(w, [], k, w)
  {
    assert Path([w], [], k);
  }

  lemma UnfoldsOn(w: World, events: seq<Event>, k: string, mid: World, e: Event, w': World)
    requires Unfolds(w, events, k, mid) && Occurs(mid, e, k, w')
    ensures Unfolds(w, events + [e], k, w')
  {
    hide Occurs;
    var path :| Path(path, events, k) && path[0] == w && path[|events|] == mid;
    assert Path(path + [w'], events + [e], k);
  }

  /** The events before the next gateway call happen. */
  ghost predicate Unfolded(w: World, script: seq<Turn>, k: string, w': World)
  {
    if script == [] then w' == w else Unfolds(w, script[0].events, k, w')
  }

  /** The order under this ticket rests on the symbol. */
  predicate Rests(w: World, ticket: int, symbol: string)
  {
    ticket in w.book.orders && w.book.orders[ticket].symbol == symbol
  }

  lemma RestsMeans(w: World, ticket: int, symbol: string)
    ensures Rests(w, ticket, symbol) <==>
            ticket in w.book.orders && OnSymbol(w.book.orders[ticket].symbol, Some(symbol))
  {
  }

  lemma PeerOccurs(w: World, m: Move, k: string, w': World)
    requires !m.Broker? && (!Touches(m, k) || Cancels(m, k)) && Makes(w, Meant(w, m), w')
    ensures Occurs(w, Peer(m), k, w')
  {
    hide Possible, After;
  }

  lemma NothingOccurs(w: World, m: Move, k: string)
    requires Idle(w, m, k) || m.Send?
    ensures Occurs(w, Peer(m), k, w)
  {
    hide Possible, After;
  }

  /** Nobody moves before any of the next gateway calls, and none raises. */
  predicate Silent(script: seq<Turn>)
  {
    forall i | 0 <= i < |script| :: script[i] == Turn([], false)
  }

  lemma SilentNext(script: seq<Turn>)
    ensures Silent(script) ==>
      var later := if script == [] then [] else script[1..];
      !Raising(script) && Quiet(script, 1) && Silent(later) && Quiet(later, 1) && Quiet(later, 3) && Quiet(later, 4)
  {
  }

  /** The next gateway call raises. */
  predicate Raising(script: seq<Turn>) { script != [] && script[0].raises }

  /** The first position that carries this comment and magic. */
  method FindPosition(ps: seq<Position>, comment: string, magic: int) returns (found: Option<Position>)
    ensures found.Some? ==> found.value in ps && found.value.comment == comment && found.value.magic == magic
    ensures found.None? ==> forall p | p in ps :: !(p.comment == comment && p.magic == magic)
  {
    for i := 0 to |ps|
      invariant forall k | 0 <= k < i :: !(ps[k].comment == comment && ps[k].magic == magic)
    {
      if ps[i].comment == comment && ps[i].magic == magic {
        return Some(ps[i]);
      }
    }
    found := None;
  }

  method FindOrder(os: seq<PendingOrder>, comment: string, magic: int) returns (found: Option<PendingOrder>)
    ensures found.Some? ==> found.value in os && found.value.comment == comment && found.value.magic == magic
    ensures found.None? ==> forall o | o in os :: !(o.comment == comment && o.magic == magic)
  {
    for i := 0 to |os|
      invariant forall k | 0 <= k < i :: !(os[k].comment == comment && os[k].magic == magic)
    {
      if os[i].comment == comment && os[i].magic == magic {
        return Some(os[i]);
      }
    }
    found := None;
  }

  method FindDeal(ds: seq<Deal>, comment: string, magic: int) returns (found: Option<Deal>)
    ensures found.Some? ==> found.value in ds && found.value.comment == comment && found.value.magic == magic
    ensures found.None? ==> forall d | d in ds :: !(d.comment == comment && d.magic == magic)
  {
    for i := 0 to |ds|
      invariant forall k | 0 <= k < i :: !(ds[k].comment == comment && ds[k].magic == magic)
    {
      if ds[i].comment == comment && ds[i].magic == magic {
        return Some(ds[i]);
      }
    }
    found := None;
  }

  // ------------------------------------------------------------ ticks as moves

  predicate TickActs(now: int, acts: seq<Act>)
  {
    && (forall a | a in acts :: a.Quote? || a.Trigger? || a.Close? || a.Expire?)
    && (forall i | 0 <= i < |acts| && acts[i].Quote? :: i == 0 && now <= acts[i].tick.time)
  }

  /** The acts of a tick extend a run move by move, write no row, send nothing, and leave every intent
      undisturbed. */
  lemma {:induction false} TickIsMoves(ws: seq<World>, ms: seq<Move>, acts: seq<Act>, k: string)
      returns (ws': seq<World>, ms': seq<Move>)
    requires IsRun(ws, ms) && Core(ws[0])
    requires Run(ws[|ms|].book, acts).Some? && TickActs(ws[|ms|].book.now, acts)
    ensures IsRun(ws', ms') && ws'[0] == ws[0] && ws <= ws'
    ensures ws'[|ms'|] == ws[|ms|].(book := Run(ws[|ms|].book, acts).value)
    ensures forall j :: FaithfulRun(ws, ms, j) ==> FaithfulRun(ws', ms', j)
    ensures forall j :: NoRevivals(ws, ms, j) ==> NoRevivals(ws', ms', j)
    ensures SendMoves(ms') == SendMoves(ms)
    ensures Undisturbed(ws[|ms|], ws'[|ms'|], k)
    decreases |acts|
  {
    hide StepAt, FaithfulAt, RevivesAt, Core, Possible, After, Undisturbed, Apply, Enabled, SendMoves, FaithfulRun, NoRevivals;
    var w := ws[|ms|];
    if acts == [] {
      StillUndisturbed(w, k);
      ws', ms' := ws, ms;
    } else {
      var head, a := acts[..|acts| - 1], acts[|acts| - 1];
      assert a in acts && (a.Quote? ==> head == []);
      assert TickActs(w.book.now, head);
      var ws1, ms1 := TickIsMoves(ws, ms, head, k);
      var mid := ws1[|ms1|];
      ExactlyOnce(ws1, ms1, |ms1|);
      BrokerPossible(mid, a);
      ws', ms' := ws1 + [After(mid, Broker(a))], ms1 + [Broker(a)];
      RunSteps(ws1, ms1, Broker(a));
      forall j | FaithfulRun(ws, ms, j) ensures FaithfulRun(ws', ms', j) {
        FaithfulSteps(ws1, ms1, Broker(a), After(mid, Broker(a)), j);
      }
      forall j | NoRevivals(ws, ms, j) ensures NoRevivals(ws', ms', j) {
        NoRevivalSteps(ws1, ms1, Broker(a), After(mid, Broker(a)), j);
      }
      SendMovesSnoc(ms1, Broker(a));
      PeerMove(mid, Broker(a), k);
      UndisturbedTransitive(w, mid, After(mid, Broker(a)), k);
    }
  }

  /** Entry sends among the moves. */
  function SendMoves(ms: seq<Move>): nat
  {
    if ms == [] then 0 else SendMoves(ms[..|ms| - 1]) + (if ms[|ms| - 1].Send? then 1 else 0)
  }

  lemma SendMovesSnoc(ms: seq<Move>, m: Move)
    ensures SendMoves(ms + [m]) == SendMoves(ms) + (if m.Send? then 1 else 0)
  {
    assert (ms + [m])[..|ms|] == ms;
  }

  lemma BrokerPossible(w: World, a: Act)
    ensures Enabled(w.book, a) && (a.Quote? || a.Trigger? || a.Close? || a.Expire?) && (a.Quote? ==> w.book.now <= a.tick.time)
            <==> Possible(w, Broker(a))
    ensures Possible(w, Broker(a)) ==> After(w, Broker(a)) == w.(book := Apply(w.book, a)) && !Touches(Broker(a), "")
    ensures forall k :: !Touches(Broker(a), k)
  {
    hide Enabled, Apply;
  }

  lemma StillUndisturbed(w: World, k: string)
    ensures Undisturbed(w, w, k)
  {
    CalmReflexive(w.book, CommentFor(k));
  }

  lemma QuoteFirst(acts: seq<Act>, symbol: string, tick: Protocol.Tick, now: int)
    requires acts == [] || (acts[0] == Quote(symbol, tick) && now <= tick.time
                            && forall a | a in acts[1..] :: a.Trigger? || a.Close? || a.Expire?)
    ensures TickActs(now, acts)
  {
    forall i | 0 < i < |acts| ensures acts[i].Trigger? || acts[i].Close? || acts[i].Expire? {
      assert acts[i] == acts[1..][i - 1];
    }
  }

  lemma SettingMoves(w: World, m: Move, w': World)
    requires || (m.Condition? && w' == w.(terms := m.terms))
             || (m.Script? && HonestInjection(m.injection) && w' == w.(queue := w.queue + [m.injection]))
    ensures Makes(w, m, w')
  {
  }

  lemma RefusedIsReported(w: World, k: string, since: int)
    ensures Reported(Refused, w, k, since)
    ensures Reported(Finished(REJECTED), w, k, w.book.now) ==> Reported(Finished(REJECTED), w, k, since)
  {
  }

  lemma MadeIsServed(w: World, r: OrderRequest, reply: Reply, w': World)
    requires Makes(w, Trader(r, reply), w')
    ensures Possible(w, Trader(r, reply)) && w' == Served(w, r)
  {
  }

  lemma SameRight(w: World, w': World, k: string)
    requires Undisturbed(w, w', k)
    ensures k in w.entitled <==> k in w'.entitled
  {
  }

  lemma RowsAreKept(w: World)
    ensures forall j :: RowKept(w, w, j)
  {
  }

  lemma MadeKeepsRows(w: World, m: Move, w': World)
    requires Makes(w, m, w') && m.Trader?
    ensures w'.rows == w.rows && w'.entitled == w.entitled
  {
    ServedFrame(w, m.request);
  }

  lemma LeftInFlight(w: World, k: string, state: OrderState, magic: int, symbol: string, since: int)
    requires Waiting(w, k, state, magic, symbol, since) && InFlight(state)
    ensures Reported(Aborted, w, k, since)
  {
  }

  lemma AnsweredMeans(w: World, k: string, r: OrderRequest, reply: Reply, since: int)
    requires Answered(w, k, r, reply, since)
    ensures !MayHaveExecuted(reply) ==> Sending(w, k)
  {
  }

  lemma SameBroker(w: World, w': World, r: OrderRequest)
    requires w'.book == w.book && w'.terms == w.terms && w'.queue == w.queue
    ensures Answer(w', r) == Answer(w, r) && Ready(w', r) == Ready(w, r)
  {
  }

  lemma SendIsAnswered(w: World, k: string, r: OrderRequest, reply: Reply, w': World)
    requires Makes(w, Send(k, r, reply), w')
    ensures reply == Answer(w, r).reply
  {
  }

  lemma SendingRow(w: World, k: string)
    requires Sending(w, k)
    ensures k in w.rows
  {
  }


  lemma RefusalEnds(reply: Reply, o: Outcome)
    requires !MayHaveExecuted(reply) && (o.Aborted? || o == Finished(REJECTED))
    ensures EndsWith(o, ActionFor(CodeOf(reply)))
  {
  }

  /** Which of the once-only remedies a call has used up. */
  datatype Budget = Budget(stops: bool, retry: bool, filling: bool) {
    function Count(): nat { (if stops then 1 else 0) + (if retry then 1 else 0) + (if filling then 1 else 0) }

    /** The budget after one more remedy for this refusal; None when none is left. */
    function Spend(action: Policy, attempt: nat): Option<Budget>
    {
      match action
      case RETRY_REFRESH => if attempt <= MAX_TOTAL_RETRIES then Some(this) else None
      case RECOMPUTE_STOPS_ONCE => if stops then None else Some(this.(stops := true))
      case RETRY_ONCE => if retry then None else Some(this.(retry := true))
      case SWITCH_FILLING_ONCE => if filling then None else Some(this.(filling := true))
      case _ => None
    }
  }

  /** The refusals that have a remedy. */
  predicate Retriable(a: Policy)
  {
    a.RETRY_REFRESH? || a.RECOMPUTE_STOPS_ONCE? || a.RETRY_ONCE? || a.SWITCH_FILLING_ONCE?
  }

  /** Every remedy but a requote's fresh quote is used at most once. */
  ghost predicate OnceEach(replies: seq<Policy>)
  {
    && (forall a | a in replies :: Retriable(a))
    && (forall i, j | 0 <= i < j < |replies| && replies[i] == replies[j] :: replies[i].RETRY_REFRESH?)
  }

  ghost predicate Uses(used: Budget, replies: seq<Policy>)
  {
    && (used.stops <==> RECOMPUTE_STOPS_ONCE in replies)
    && (used.retry <==> RETRY_ONCE in replies)
    && (used.filling <==> SWITCH_FILLING_ONCE in replies)
  }

  lemma MaySettle(reply: Reply, used: Budget, attempt: nat)
    ensures reply.Raised? || ActionFor(CodeOf(reply)).VERIFY_FILL? ==> MayHaveExecuted(reply)
    ensures MayHaveExecuted(reply) ==> used.Spend(ActionFor(CodeOf(reply)), attempt).None?
  {
  }

  /** The last refusal still had its remedy to spend. */
  ghost predicate Affordable(replies: seq<Policy>)
    requires replies != []
  {
    var last := replies[|replies| - 1];
    if last.RETRY_REFRESH? then |replies| <= MAX_TOTAL_RETRIES else Retriable(last) && last !in replies[..|replies| - 1]
  }

  lemma AffordableMeans(used: Budget, replies: seq<Policy>, action: Policy)
    requires Uses(used, replies)
    ensures Affordable(replies + [action]) <==> used.Spend(action, |replies| + 1).Some?
  {
    assert (replies + [action])[..|replies|] == replies;
  }

  lemma OneMoreRemedy(used: Budget, used': Budget, replies: seq<Policy>, action: Policy, attempt: nat)
    requires Uses(used, replies) && OnceEach(replies) && used.Spend(action, attempt) == Some(used')
    ensures Uses(used', replies + [action]) && OnceEach(replies + [action]) && Retriable(action)
  {
    assert forall i | 0 <= i < |replies| :: replies[i] in replies;
  }

  lemma NoRemedyYet()
    ensures OnceEach([]) && Uses(Budget(false, false, false), [])
  {
  }

  /** What a final refusal halts, and the seconds it backs off. */
  function HaltsFor(action: Policy, strategy: string): seq<string>
  {
    match action
    case REJECT_HALT_ENTRIES => ["NO_MONEY"]
    case HALT_TRADING_DISABLED => ["TRADING_DISABLED"]
    case REJECT_QUARANTINE => ["QUARANTINE:" + strategy]
    case _ => []
  }

  function BackoffFor(action: Policy, attempt: nat): seq<nat>
  {
    if action.BACKOFF_STORM_CHECK? then [attempt] else []
  }

  /** What a return code makes the desk do beyond the one order: money and permission codes halt entries, an invalid
      request quarantines its strategy, too many requests back off, for as many seconds as tries; no other code does
      any of this, and none does two. */
  lemma ReactionsByCode(code: int, strategy: string, attempt: nat)
    ensures var halts, backoffs := HaltsFor(ActionFor(Some(code)), strategy), BackoffFor(ActionFor(Some(code)), attempt);
      && (halts == ["NO_MONEY"] <==> code == 10019)
      && (halts == ["TRADING_DISABLED"] <==> code == 10017 || code == 10026 || code == 10027)
      && (code == 10013 ==> halts == ["QUARANTINE:" + strategy])
      && (halts != [] <==> code == 10019 || code == 10017 || code == 10026 || code == 10027 || code == 10013)
      && backoffs == if code == 10024 then [attempt] else []
  {
    assert ("QUARANTINE:" + strategy)[0] == 'Q';
  }

  lemma NothingToReactTo(reply: Reply, strategy: string, attempt: nat)
    requires MayHaveExecuted(reply)
    ensures HaltsFor(ActionFor(CodeOf(reply)), strategy) == [] && BackoffFor(ActionFor(CodeOf(reply)), attempt) == []
  {
  }

  /** The world once the row of `k` records the fill that the reply names. */
  function RecordedFill(w: World, k: string, reply: Reply): World
    requires reply.Got?
  {
    w.(rows := Written(w.rows, k, FILLED, reply.result.order, reply.result.volume))
  }

  /** A market order that a ready broker takes is filled as asked, and its fill is found and recorded. */
  lemma ReadyFills(w: World, i: ArmedIntent, reply: Reply, w': World)
    requires Core(w) && Ready(w, i.request) && WellFormed(i) && i.request.action.DEAL? && i.key in w.rows
    requires Makes(w, Send(i.key, i.request, reply), w')
    ensures reply.Got? && ActionFor(CodeOf(reply)).VERIFY_FILL? && PositionShown(w'.book, i)
    ensures FilledAs(RecordedFill(w', i.key, reply), i.key, i.request)
  {
    hide Served, Ready, DecideSend;
    ReadyOpens(w, i.request);
    ServedFrame(w, i.request);
    ReadyTicket(w, i.request);
  }

  lemma ReadyTicket(w: World, r: OrderRequest)
    requires Core(w) && Ready(w, r) && IsEntry(r)
    ensures Answer(w, r).reply.Got? && Answer(w, r).reply.result.order > 0
  {
    hide Validate, MarketPrice;
    if r.action.DEAL? {
      ValidIsListed(w, r);
    }
  }

  /** A pending order that a ready broker takes rests as asked. */
  lemma ReadyPlaces(w: World, i: ArmedIntent, reply: Reply, w': World)
    requires Core(w) && Ready(w, i.request) && WellFormed(i) && i.request.action.PENDING? && i.key in w.rows
    requires Makes(w, Send(i.key, i.request, reply), w')
    ensures reply.Got? && ActionFor(CodeOf(reply)).VERIFY_FILL? && PlacementShown(w'.book, i, reply)
    ensures PlacedAs(RecordedPlacement(w', i.key, reply), i.key, i.request)
  {
    hide Served, Ready, DecideSend;
    ReadyRests(w, i.request);
    ServedFrame(w, i.request);
    ReadyTicket(w, i.request);
  }

  /** The world once the row of `k` records the placement that the reply names. */
  function RecordedPlacement(w: World, k: string, reply: Reply): World
    requires reply.Got?
  {
    w.(rows := Written(w.rows, k, OrderState.PLACED, reply.result.order, 0))
  }

  lemma PlacementListed(b: Book, i: ArmedIntent, reply: Reply, os: seq<PendingOrder>)
    requires TicketsOk(b) && ListsOrders(b.orders, Some(i.signal.symbol), os) && PlacementShown(b, i, reply)
    ensures exists k | 0 <= k < |os| :: os[k].ticket == reply.result.order
  {
    Listed(b, i.signal.symbol, os, reply.result.order);
  }

  predicate PlacementShown(b: Book, i: ArmedIntent, reply: Reply)
  {
    reply.Got? && reply.result.order in b.orders && b.orders[reply.result.order].symbol == i.signal.symbol
  }

  /** How a placement may end after the reply to its one send. */
  predicate PlacementEnds(o: Outcome, last: Policy)
  {
    match o
    case Refused => false
    case Aborted => last.VERIFY_FILL? || last.UNKNOWN_OUTCOME?
    case Finished(s) =>
      if last.VERIFY_FILL? then s.PLACED? || s.UNKNOWN?
      else if last.UNKNOWN_OUTCOME? then s.FILLED? || s.PLACED? || s.CANCELLED?
      else s.REJECTED?
  }

  /** Where the send loop stands before a send: `current` is the request to send next, after these. */
  ghost predicate Underway(intent: ArmedIntent, current: ArmedIntent, used: Budget, replies: seq<Policy>,
                           requests: seq<OrderRequest>)
  {
    && WellFormed(current) && current.request.action.DEAL? && SameOrder(intent, current)
    && ComesNext(intent, replies, requests, current.request)
    && OnceEach(replies) && Uses(used, replies) && |replies| <= MAX_TOTAL_RETRIES + used.Count()
  }

  lemma UnderwayStarts(i: ArmedIntent)
    requires WellFormed(i) && i.request.action.DEAL?
    ensures Underway(i, i, Budget(false, false, false), [], [])
  {
    NoRemedyYet();
    SameOrderIsOrder(i, i, i);
  }

  lemma UnderwayMeans(intent: ArmedIntent, current: ArmedIntent, used: Budget, replies: seq<Policy>, requests: seq<OrderRequest>)
    requires Underway(intent, current, used, replies, requests)
    ensures WellFormed(current) && current.request.action.DEAL? && |replies| < MAX_SENDS
    ensures current.key == intent.key && current.signal == intent.signal
  {
  }

  lemma UnderwayOn(intent: ArmedIntent, current: ArmedIntent, used: Budget, replies: seq<Policy>, requests: seq<OrderRequest>,
                   action: Policy, tick: Option<Protocol.Tick>, used': Budget)
    requires Underway(intent, current, used, replies, requests) && Remedy(current, action, tick).Some?
    requires used.Spend(action, |replies| + 1) == Some(used')
    ensures Underway(intent, Remedy(current, action, tick).value, used', replies + [action], requests + [current.request])
  {
    hide Remedy, Cures, WellFormed, OnceEach, Uses, ComesNext, SameRequest;
    var next := Remedy(current, action, tick).value;
    ChainGrows(intent, replies, requests, current.request, action, false);
    OneMoreRemedy(used, used', replies, action, |replies| + 1);
    RemedyCures(current, action, tick);
    SameOrderIsOrder(intent, current, next);
    SameOrderIsOrder(current, current, next);
    assert ComesNext(intent, replies + [action], requests + [current.request], next.request);
  }

  lemma UnderwayEnds(intent: ArmedIntent, current: ArmedIntent, used: Budget, replies: seq<Policy>, requests: seq<OrderRequest>,
                     action: Policy, tick: Option<Protocol.Tick>, lost: bool)
    requires Underway(intent, current, used, replies, requests)
    ensures var all, sent := replies + [action], requests + (if lost then [] else [current.request]);
      && Chained(intent, all, sent) && (forall r | r in sent :: SameRequest(intent.request, r))
      && OnceEach(all[..|replies|]) && |sent| <= |all| <= MAX_SENDS
      && ((forall a | a in all :: a.RETRY_REFRESH?) ==> |all| <= 1 + MAX_TOTAL_RETRIES)
      && (sent == [] <==> |all| == 1 && lost)
      && (!lost && used.Spend(action, |all|).None? ==> !Affordable(all))
      && (!lost && Remedy(current, action, tick).None? ==>
            sent[|sent| - 1] == current.request && Incurable(intent.spec, sent[|sent| - 1], action, tick))
  {
    hide Remedy, Cures, Incurable, WellFormed, SameRequest;
    ChainGrows(intent, replies, requests, current.request, action, lost);
    ChainedIsSame(intent, replies + [action], requests + (if lost then [] else [current.request]));
    AffordableMeans(used, replies, action);
    RemedyIncurable(current, action, tick);
    assert (replies + [action])[..|replies|] == replies;
    if forall a | a in replies + [action] :: a.RETRY_REFRESH? {
      assert forall a | a in replies :: a in replies + [action];
    }
  }

  lemma QuietNext(script: seq<Turn>, n: nat)
    ensures Quiet(script, n + 1) ==> Quiet(script, 1) && Quiet(if script == [] then [] else script[1..], n)
  {
    if Quiet(script, n + 1) {
      forall i | 0 <= i < n && i + 1 < |script| ensures script[1..][i] == Turn([], false) {
        assert script[i + 1] == Turn([], false);
      }
    }
  }

  lemma ListingShowsPosition(b: Book, comment: string, magic: int, symbol: string, ps: seq<Position>)
    requires ListsPositions(b.positions, Some(symbol), ps)
    ensures Recovery.ShowsPosition(b, comment, magic, symbol) <==>
            exists p | p in ps :: p.comment == comment && p.magic == magic
  {
    if Recovery.ShowsPosition(b, comment, magic, symbol) {
      var t :| t in b.positions && b.positions[t].comment == comment && b.positions[t].magic == magic
               && b.positions[t].symbol == symbol;
      assert b.positions[t] in ps;
    }
  }

  lemma ListingShowsOrder(b: Book, comment: string, magic: int, symbol: string, os: seq<PendingOrder>)
    requires ListsOrders(b.orders, Some(symbol), os)
    ensures Recovery.ShowsOrder(b, comment, magic, symbol) <==>
            exists o | o in os :: o.comment == comment && o.magic == magic
  {
    if Recovery.ShowsOrder(b, comment, magic, symbol) {
      var t :| t in b.orders && b.orders[t].comment == comment && b.orders[t].magic == magic && b.orders[t].symbol == symbol;
      assert b.orders[t] in os;
    }
  }

  ghost predicate PositionShown(b: Book, i: ArmedIntent)
  {
    Recovery.ShowsPosition(b, CommentFor(i.key), i.request.magic, i.signal.symbol)
  }

  ghost predicate OrderShown(b: Book, i: ArmedIntent)
  {
    Recovery.ShowsOrder(b, CommentFor(i.key), i.request.magic, i.signal.symbol)
  }

  function DayDeals(b: Book): seq<Deal> { DealsWithin(b.deals, b.now - DAY, b.now + FIVE_MINUTES) }

  ghost predicate DealShownToday(b: Book, i: ArmedIntent)
  {
    Recovery.ShowsDeal(DayDeals(b), CommentFor(i.key), i.request.magic)
  }

  /** What the resolver says of the intent on this broker state. */
  ghost function VerdictOn(b: Book, i: ArmedIntent): OrderState
  {
    Recovery.EngineVerdict(b, i.key, i.request.magic, i.signal.symbol, b.now)
  }

  lemma VerdictIs(b: Book, i: ArmedIntent)
    ensures VerdictOn(b, i) == if PositionShown(b, i) then FILLED else if OrderShown(b, i) then PLACED
                               else if DealShownToday(b, i) then FILLED else CANCELLED
  {
    hide Recovery.ShowsPosition, Recovery.ShowsOrder, Recovery.ShowsDeal, DealsWithin;
  }

  /** How a market call that will not send again may end after its last reply. */
  predicate EndsWith(o: Outcome, last: Policy)
  {
    match o
    case Refused => false
    case Aborted => !last.ACCEPT_PARTIAL?
    case Finished(s) =>
      if last.ACCEPT_PARTIAL? then s.PARTIAL?
      else if last.VERIFY_FILL? || last.UNKNOWN_OUTCOME? then s.FILLED? || s.CANCELLED?
      else s.REJECTED?
  }

  /** What the proof keeps about entry sends: what each key has sent, how many sends were counted for it, which
      keys have a counted send not made yet, and how many calls were running when the fuse blew. */
  datatype Audit = Audit(sent: map<string, seq<OrderRequest>>, counted: map<string, nat>, due: set<string>, crowd: nat)

  /** Only running calls have sends left; every entry send was counted in the fuse before it was made; and
      once the fuse is blown, the sends past it and those still left are fewer than the calls that were
      running when it blew could make. */
  ghost predicate Balanced(sent: nat, running: set<string>, left: set<Slot>, audit: Audit, counted: nat, blown: bool, over: nat)
  {
    && (forall s | s in left :: s.key in running && s.n < MAX_SENDS)
    && sent + |audit.due| <= counted
    && (blown ==> over + |left| < MAX_SENDS * audit.crowd)
  }

  /** One more send is counted: it uses up one that its call had left. */
  lemma OneMoreCounted(sent: nat, running: set<string>, left: set<Slot>, audit: Audit, counted: nat, blown: bool, over: nat,
                       s: Slot, audit': Audit, blown': bool, over': nat)
    requires Balanced(sent, running, left, audit, counted, blown, over) && s in left
    requires audit'.due == audit.due + {s.key} && audit'.crowd == (if blown then audit.crowd else |running|)
    requires over' == if blown then over + 1 else 0
    ensures Balanced(sent, running, left - {s}, audit', counted + 1, blown', over')
  {
    SlotsBound(left, running, MAX_SENDS);
  }

  /** The run so far, the keys whose rows nobody else is going to write, those whose writes so far were true, those
      whose rows were never put back in flight, and those whose call would be alone. */
  datatype Standing = Standing(worlds: seq<World>, spared: iset<string>, sound: iset<string>, locked: iset<string>,
                               solo: iset<string>)

  /** The run goes on from where it was; a row that nobody else writes stays so, and the call under `key` writes none
      but its own; and a call that was alone stays alone. */
  ghost predicate Follows(a: Standing, b: Standing, key: string)
  {
    && a.worlds <= b.worlds && a.spared <= b.spared
    && (forall j: string | j in a.spared && j != key :: (j in a.sound ==> j in b.sound) && (j in a.locked ==> j in b.locked))
    && (key in a.solo ==> key in b.solo)
  }

  lemma FollowsOn(a: Standing, b: Standing, c: Standing, key: string)
    requires Follows(a, b, key) && Follows(b, c, key)
    ensures Follows(a, c, key)
  {
  }

  class ExecutionEngine {
    const broker: SimClient
    const store: IntentStore
    const fuse: StormFuse
    var ocoMap: map<int, int>
    var ocoCancelled: set<int>
    var halts: seq<string>
    var backoffs: seq<nat>
    var entitled: set<string>   // keys whose running call may still send
    var script: seq<Turn>
    var left: set<Slot>         // sends that running calls past their fuse check may still make
    ghost var audit: Audit
    ghost var worlds: seq<World>
    ghost var moves: seq<Move>

    constructor (broker: SimClient, store: IntentStore, fuse: StormFuse, script: seq<Turn>)
      requires fuse.Valid() && fuse.history == [] && !fuse.blown
      requires Core(World(broker.State(), broker.injections, broker.Conditions(), store.rows, {}))
      ensures this.broker == broker && this.store == store && this.fuse == fuse && this.script == script
      ensures Legal() && (forall k :: Sound(k) && Locked(k)) && worlds == [W()] && moves == [] && entitled == {} && left == {}
      ensures ocoMap == map[] && ocoCancelled == {} && audit == Audit(map[], map[], {}, 0)
    {
      this.broker, this.store, this.fuse := broker, store, fuse;
      ocoMap, ocoCancelled, halts, backoffs := map[], {}, [], [];
      this.script, entitled, left := script, {}, {};
      worlds := [World(broker.State(), broker.injections, broker.Conditions(), store.rows, {})];
      moves, audit := [], Audit(map[], map[], {}, 0);
    }

    function W(): World
      reads this`entitled, broker
      reads store
    {
      World(broker.State(), broker.injections, broker.Conditions(), store.rows, entitled)
    }

    ghost function Quoted(name: string): Option<Protocol.Tick>
      reads broker
    {
      if name in broker.selected && name in broker.ticks then Some(broker.ticks[name]) else None
    }

    ghost function SentBy(key: string): seq<OrderRequest>
      reads this`audit
    {
      if key in audit.sent then audit.sent[key] else []
    }

    /** Sends counted for the key in the storm fuse. */
    ghost function CountedFor(key: string): nat
      reads this`audit
    {
      if key in audit.counted then audit.counted[key] else 0
    }

    ghost function Spent(key: string): (seq<OrderRequest>, nat)
      reads this`audit
    {
      (SentBy(key), CountedFor(key))
    }

    function LeftOf(key: string): set<Slot>
      reads this`left
    {
      set s | s in left && s.key == key
    }

    /** Everything the accounts say about one key. */
    ghost function Account(key: string): (seq<OrderRequest>, nat, bool, set<Slot>)
      reads this`audit, this`left
    {
      (SentBy(key), CountedFor(key), key in audit.due, LeftOf(key))
    }

    ghost predicate Accounted()
      reads this`moves, this`entitled, this`left, this`audit, fuse
    {
      Balanced(SendMoves(moves), entitled, left, audit, |fuse.history|, fuse.blown, fuse.over)
    }

    /** The desk got where it is by possible moves from a state where the core invariant held. */
    ghost predicate Legal()
      reads this`worlds, this`moves, this`entitled, this`left, this`audit, broker, store, fuse
    {
      && IsRun(worlds, moves) && Core(worlds[0]) && worlds[|moves|] == W()
      && fuse.Valid() && (fuse.history == [] || fuse.history[|fuse.history| - 1] <= broker.now)
      && Accounted()
    }

    /** Every write of the key's row so far was true of the broker when made. */
    ghost predicate Sound(k: string)
      reads this`worlds, this`moves
    {
      FaithfulRun(worlds, moves, k)
    }

    /** No write so far put the key's row back in flight. */
    ghost predicate Locked(k: string)
      reads this`worlds, this`moves
    {
      NoRevivals(worlds, moves, k)
    }

    /** Nobody else is going to cancel the key's row. */
    ghost predicate Spared(k: string)
      reads this`script
    {
      forall turn | turn in script :: Spares(turn, k)
    }

    /** At most the call for `k` may send, and none other was running if the fuse is blown. */
    ghost predicate Single(k: string)
      reads this`entitled, this`audit, fuse
    {
      entitled <= {k} && (fuse.blown ==> audit.crowd <= 1)
    }

    /** No other call is running that may send, and none is going to start. */
    ghost predicate Solo(k: string)
      reads this`entitled, this`audit, this`script, fuse
    {
      Single(k) && forall turn | turn in script :: Claimless(turn)
    }

    /** What a call under `key` leaves of everything else: the run goes on from where it was; a row that nobody else
        writes stays so, and this call writes none but its own; and a call that was alone stays alone. */
    twostate predicate Continues(key: string)
      reads this`worlds, this`moves, this`entitled, this`audit, this`script, fuse
    {
      && old(worlds) <= worlds
      && (forall j: string | old(Spared(j)) ::
            Spared(j) && (j != key ==> (old(Sound(j)) ==> Sound(j)) && (old(Locked(j)) ==> Locked(j))))
      && (old(Solo(key)) ==> Solo(key))
    }

    ghost function StandingNow(): Standing
      reads this`worlds, this`moves, this`entitled, this`audit, this`script, fuse
    {
      Standing(worlds, iset j: string | Spared(j), iset j: string | Sound(j), iset j: string | Locked(j),
               iset j: string | Solo(j))
    }

    /** The same as values, for loops over calls. */
    twostate lemma ContinuesMeans(key: string)
      ensures Continues(key) <==> Follows(old(StandingNow()), StandingNow(), key)
    {
      hide Sound, Locked, Spared, Solo;
      var a, b := old(StandingNow()), StandingNow();
      if Continues(key) {
        forall j | j in a.spared ensures j in b.spared {
          assert old(Spared(j));
        }
      }
      if Follows(a, b, key) {
        forall j: string | old(Spared(j))
          ensures Spared(j) && (j != key ==> (old(Sound(j)) ==> Sound(j)) && (old(Locked(j)) ==> Locked(j)))
        {
          assert j in a.spared;
        }
      }
    }

    lemma StandsStill()
      ensures forall key :: Follows(StandingNow(), StandingNow(), key)
    {
    }

    /** The key's row is in flight, and nobody else is going to cancel it. */
    ghost predicate Clear(k: string)
      reads this`script, store
    {
      Spared(k) && k in store.rows && InFlight(store.rows[k].state)
    }

    lemma ClearRow(k: string)
      ensures Clear(k) ==> k in store.rows && InFlight(store.rows[k].state)
    {
    }

    lemma BooksOf()
      ensures W().book == broker.State() && W().queue == broker.injections && W().terms == broker.Conditions()
    {
    }

    lemma CoreNow()
      requires Legal()
      ensures Core(W()) && Valid(broker.State()) && TicketsOk(broker.State())
    {
      hide StepAt;
      ExactlyOnce(worlds, moves, |moves|);
    }

    /** A row that started true and was written truthfully is true now. */
    lemma TruthNow(k: string)
      requires Legal() && Sound(k) && TruthOf(worlds[0], k)
      ensures TruthOf(W(), k)
    {
      hide StepAt, FaithfulAt;
      RowStaysTrue(worlds, moves, k, |moves|);
    }

    /** No symbol is claimed twice, if no row was put back in flight, true or not what was written. */
    lemma LockNow()
      requires Legal() && OneInFlight(worlds[0].rows) && forall k :: Locked(k)
      ensures OneInFlight(store.rows)
    {
      hide StepAt, NoRevivals;
      forall k ensures NoRevivals(worlds, moves, k) {
        assert Locked(k);
      }
      LockStays(worlds, moves, |moves|);
    }

    /** Every entry send of every call is counted in the fuse, and any closed minute holds at most the cap,
        or, once the fuse has blown, fewer than the cap plus six sends for each call that was then running:
        the cap plus five when calls do not overlap. */
    lemma SendsPerMinute(x: int)
      requires Legal()
      ensures SendMoves(moves) <= |fuse.history|
      ensures InWindow(fuse.history, x, MINUTE) <= fuse.cap + (if fuse.blown then MAX_SENDS * audit.crowd - 1 else 0)
    {
      assert Bounded(fuse.history, MINUTE, fuse.cap + fuse.over);
    }

    /** Calls that do not overlap: any closed minute holds at most the cap and five more. */
    lemma SendsPerMinuteAlone(x: int, k: string)
      requires Legal() && Single(k)
      ensures InWindow(fuse.history, x, MINUTE) <= fuse.cap + MAX_SENDS - 1
    {
      hide IsRun, Core;
      SendsPerMinute(x);
    }

    // ---------------------------------------------------------- single moves

    /** Adds a move just carried out to the run. */
    ghost method Record(m: Move)
      requires IsRun(worlds, moves) && Core(worlds[0]) && Possible(worlds[|moves|], m)
      modifies this`worlds, this`moves
      ensures IsRun(worlds, moves) && Core(worlds[0]) && moves == old(moves) + [m]
      ensures worlds == old(worlds) + [After(old(worlds)[|old(moves)|], m)]
      ensures SendMoves(moves) == old(SendMoves(moves)) + (if m.Send? then 1 else 0)
      ensures forall k :: old(Sound(k)) && (m.Write? && m.key == k ==> Faithful(old(worlds)[|old(moves)|], m)) ==> Sound(k)
      ensures forall k :: old(Locked(k)) && !(m.Write? && m.key == k && Revives(old(worlds)[|old(moves)|], m)) ==> Locked(k)
    {
      hide StepAt, FaithfulAt, RevivesAt, Possible, After, Faithful, Revives, Core, SendMoves;
      RunSteps(worlds, moves, m);
      SendMovesSnoc(moves, m);
      forall k | FaithfulRun(worlds, moves, k) && (m.Write? && m.key == k ==> Faithful(worlds[|moves|], m))
        ensures FaithfulRun(worlds + [After(worlds[|moves|], m)], moves + [m], k)
      {
        FaithfulSteps(worlds, moves, m, After(worlds[|moves|], m), k);
      }
      forall k | NoRevivals(worlds, moves, k) && !(m.Write? && m.key == k && Revives(worlds[|moves|], m))
        ensures NoRevivals(worlds + [After(worlds[|moves|], m)], moves + [m], k)
      {
        NoRevivalSteps(worlds, moves, m, After(worlds[|moves|], m), k);
      }
      worlds := worlds + [After(worlds[|moves|], m)];
      moves := moves + [m];
    }

    /** The broker serves one request. */
    method Submit(r: OrderRequest) returns (reply: Reply)
      requires TicketsOk(broker.State())
      modifies broker
      ensures reply == Answer(old(W()), r).reply && W() == Served(old(W()), r) && broker.now == old(broker.now)
    {
      hide DecideSend, TicketsOk;
      ghost var acts;
      reply, acts := broker.OrderSend(r);
    }

    /** An order request on nobody's behalf: a cancel, a stop change, or another trader's order. */
    method Serve(r: OrderRequest) returns (reply: Reply)
      requires Legal() && (IsEntry(r) ==> !OurComment(r.comment))
      modifies broker, this`worlds, this`moves
      ensures Legal() && moves == old(moves) + [Trader(r, reply)]
      ensures Makes(old(W()), Trader(r, reply), W())
      ensures forall k :: (old(Sound(k)) ==> Sound(k)) && (old(Locked(k)) ==> Locked(k))
      ensures broker.now == old(broker.now)
      ensures old(worlds) <= worlds
    {
      hide DecideSend, Served, Core, Valid, StepAt, FaithfulAt, RevivesAt, FaithfulRun, NoRevivals, SendMoves, Balanced;
      ghost var w := W();
      BooksNow();
      reply := Submit(r);
      assert W() == After(w, Trader(r, reply));
      Record(Trader(r, reply));
    }

    lemma BooksNow()
      requires Legal()
      ensures TicketsOk(broker.State()) && Valid(broker.State())
    {
      CoreNow();
    }

    /** Uses up one send of a running call. */
    method UseUp(s: Slot, ghost crowd: nat)
      requires s in left
      modifies this`left, this`audit
      ensures left == old(left) - {s} && |LeftOf(s.key)| == |old(LeftOf(s.key))| - 1
      ensures SentBy(s.key) == old(SentBy(s.key)) && CountedFor(s.key) == old(CountedFor(s.key)) + 1
      ensures audit.due == old(audit.due) + {s.key} && audit.crowd == crowd
      ensures forall k | k != s.key :: Account(k) == old(Account(k))
    {
      var key := s.key;
      audit := audit.(due := audit.due + {key}, counted := audit.counted[key := CountedFor(key) + 1], crowd := crowd);
      left := left - {s};
      assert LeftOf(key) == old(LeftOf(key)) - {s};
      forall k | k != key ensures LeftOf(k) == old(LeftOf(k)) {
      }
    }

    /** Counts one send of a running call in the storm fuse. */
    method CountSend(key: string)
      requires Legal() && LeftOf(key) != {}
      modifies fuse, this`left, this`audit
      ensures Legal() && W() == old(W()) && key in audit.due
      ensures |LeftOf(key)| == |old(LeftOf(key))| - 1 && SentBy(key) == old(SentBy(key))
      ensures CountedFor(key) == old(CountedFor(key)) + 1 && fuse.history == old(fuse.history) + [broker.now]
      ensures audit.crowd == if old(fuse.blown) then old(audit.crowd) else |entitled|
      ensures forall k | k != key :: Account(k) == old(Account(k))
      ensures (old(Single(key)) ==> Single(key)) && (old(Solo(key)) ==> Solo(key))
    {
      hide Core, IsRun, FaithfulRun, NoRevivals, Bounded, Sorted, Since, CountIn, SendMoves, Balanced;
      var s :| s in LeftOf(key);
      hide LeftOf, SentBy, CountedFor;
      if entitled <= {key} {
        SubsetSize(entitled, {key});
      }
      ghost var crowd := if fuse.blown then audit.crowd else |entitled|;
      ghost var was, blown, over, lefts := audit, fuse.blown, fuse.over, left;
      fuse.RecordSend(broker.now);
      UseUp(s, crowd);
      OneMoreCounted(SendMoves(moves), entitled, lefts, was, |old(fuse.history)|, blown, over, s, audit, fuse.blown, fuse.over);
    }

    /** A running call has passed the fuse check: it may make its sends. */
    method Grant(key: string)
      requires Legal() && key in entitled && !fuse.blown
      modifies this`left
      ensures Legal() && LeftOf(key) == SlotsOf(key, MAX_SENDS) && |LeftOf(key)| == MAX_SENDS
      ensures forall k | k != key :: LeftOf(k) == old(LeftOf(k))
    {
      hide Core, StepAt, IsRun, NoRevivals, SendMoves;
      SlotsOfSize(key, MAX_SENDS);
      left := (set s | s in left && s.key != key) + SlotsOf(key, MAX_SENDS);
      assert LeftOf(key) == SlotsOf(key, MAX_SENDS);
    }

    /** The fuse check of a call that has claimed its key. */
    method PassFuse(key: string) returns (ok: bool)
      requires Legal() && key in entitled
      modifies fuse, this`left
      ensures Legal() && fuse.history == old(fuse.history) && fuse.over == old(fuse.over) && fuse.blown == old(fuse.blown)
      ensures ok <==> !fuse.blown
      ensures ok ==> |LeftOf(key)| == MAX_SENDS
      ensures forall k | k != key :: LeftOf(k) == old(LeftOf(k))
      ensures old(Solo(key)) ==> Solo(key)
    {
      hide Core, StepAt, IsRun, NoRevivals, SendMoves, Bounded, Sorted, Since, CountIn, LeftOf, SlotsOf;
      ok := fuse.Check(broker.now);
      if ok {
        Grant(key);
      }
    }

    /** The call for `key` will not send again. */
    method Close(key: string)
      requires Accounted()
      modifies this`entitled, this`left, this`audit
      ensures Accounted() && entitled == old(entitled) - {key} && Spent(key) == old(Spent(key))
      ensures |audit.due| <= |old(audit.due)| && audit.crowd == old(audit.crowd)
      ensures forall k | k != key :: Account(k) == old(Account(k))
      ensures old(Solo(key)) ==> Solo(key)
    {
      hide SendMoves;
      entitled := entitled - {key};
      var others := set s | s in left && s.key != key;
      SubsetSize(others, left);
      left := others;
      audit := audit.(due := audit.due - {key});
      forall k | k != key ensures LeftOf(k) == old(LeftOf(k)) {
      }
    }

    /** A counted send is about to be made. */
    ghost method Enter(key: string, r: OrderRequest)
      requires Accounted() && key in audit.due
      modifies this`audit
      ensures Accounted() && SendMoves(moves) + |audit.due| < |fuse.history| && audit.crowd == old(audit.crowd)
      ensures SentBy(key) == old(SentBy(key)) + [r] && CountedFor(key) == old(CountedFor(key))
      ensures forall k | k != key :: Account(k) == old(Account(k))
      ensures old(Solo(key)) ==> Solo(key)
    {
      hide SendMoves, LeftOf;
      audit := audit.(sent := audit.sent[key := SentBy(key) + [r]], due := audit.due - {key});
    }

    /** One send, already counted, on behalf of an intent that may still send. */
    method Dispatch(key: string, r: OrderRequest) returns (reply: Reply)
      requires Legal() && key in entitled && key in audit.due && IsEntry(r) && r.comment == CommentFor(key)
      modifies broker, this`entitled, this`left, this`worlds, this`moves, this`audit
      ensures Legal() && moves == old(moves) + [Send(key, r, reply)]
      ensures SentBy(key) == old(SentBy(key)) + [r] && CountedFor(key) == old(CountedFor(key))
      ensures !MayHaveExecuted(reply) ==> left == old(left)
      ensures forall k | k != key :: Account(k) == old(Account(k))
      ensures Makes(old(W()), Send(key, r, reply), W())
      ensures forall k :: (old(Sound(k)) ==> Sound(k)) && (old(Locked(k)) ==> Locked(k))
      ensures broker.now == old(broker.now)
      ensures entitled == if MayHaveExecuted(reply) then old(entitled) - {key} else old(entitled)
      ensures old(worlds) <= worlds && audit.crowd == old(audit.crowd)
      ensures old(Solo(key)) ==> Solo(key)
    {
      hide DecideSend, Served, Core, Valid, StepAt, FaithfulAt, RevivesAt, MayHaveExecuted, FaithfulRun, NoRevivals,
           SendMoves, LeftOf, SentBy, CountedFor, Apply, Solo;
      ghost var w := W();
      BooksNow();
      reply := Submit(r);
      ServedFrame(w, r);
      Enter(key, r);
      if MayHaveExecuted(reply) {
        Close(key);
      }
      assert W() == After(w, Send(key, r, reply));
      Record(Send(key, r, reply));
    }

    method SetState(key: string, state: OrderState, ticket: int, volume: int)
      requires Legal() && !state.ARMED?
      modifies store, this`worlds, this`moves
      ensures Legal() && moves == old(moves) + [Write(key, state, ticket, volume)]
      ensures Makes(old(W()), Write(key, state, ticket, volume), W())
      ensures store.rows == Written(old(store.rows), key, state, ticket, volume)
      ensures forall k :: old(Sound(k)) && (k == key ==> Faithful(old(W()), Write(key, state, ticket, volume))) ==> Sound(k)
      ensures forall k :: old(Locked(k)) && (k == key ==> !Revives(old(W()), Write(key, state, ticket, volume))) ==> Locked(k)
      ensures old(worlds) <= worlds
    {
      hide Core, StepAt, FaithfulAt, RevivesAt, Faithful, FaithfulRun, NoRevivals, SendMoves, Balanced;
      ghost var w := W();
      store.SetState(key, state, ticket, volume);
      assert W() == After(w, Write(key, state, ticket, volume));
      Record(Write(key, state, ticket, volume));
    }

    /** The call for `key` gives up its right to send. */
    method GiveUp(key: string)
      requires Legal()
      modifies this`entitled, this`left, this`worlds, this`moves, this`audit
      ensures Legal() && moves == old(moves) + [Retire(key)] && entitled == old(entitled) - {key}
      ensures Makes(old(W()), Retire(key), W()) && Spent(key) == old(Spent(key))
      ensures forall k | k != key :: Account(k) == old(Account(k))
      ensures forall k :: (old(Sound(k)) ==> Sound(k)) && (old(Locked(k)) ==> Locked(k))
      ensures old(worlds) <= worlds && audit.crowd == old(audit.crowd)
      ensures old(Solo(key)) ==> Solo(key)
    {
      hide Core, StepAt, FaithfulAt, RevivesAt, FaithfulRun, NoRevivals, SendMoves, LeftOf, SentBy, CountedFor, Solo;
      ghost var w := W();
      Close(key);
      assert W() == After(w, Retire(key));
      Record(Retire(key));
    }

    method TryClaim(key: string, symbol: string, strategy: string, direction: Side, ocoGroup: string) returns (ok: bool)
      requires Legal()
      modifies store, this`entitled, this`worlds, this`moves
      ensures Legal()
      ensures ok <==> Claimable(old(store.rows), key, symbol, ocoGroup)
      ensures moves == if ok then old(moves) + [Claim(key, symbol, strategy, direction, ocoGroup)] else old(moves)
      ensures ok ==> Makes(old(W()), Claim(key, symbol, strategy, direction, ocoGroup), W())
      ensures store.rows == if ok then Claimed(old(store.rows), key, symbol, strategy, direction, ocoGroup) else old(store.rows)
      ensures entitled == if ok then old(entitled) + {key} else old(entitled)
      ensures forall k :: (old(Sound(k)) ==> Sound(k)) && (old(Locked(k)) ==> Locked(k))
      ensures old(worlds) <= worlds
      ensures old(Solo(key)) ==> Solo(key)
    {
      hide Core, StepAt, FaithfulAt, RevivesAt, Claimable, FaithfulRun, NoRevivals, SendMoves;
      ghost var w := W();
      ok := store.TryClaim(key, symbol, strategy, direction, ocoGroup);
      if ok {
        entitled := entitled + {key};
        assert W() == After(w, Claim(key, symbol, strategy, direction, ocoGroup));
        Record(Claim(key, symbol, strategy, direction, ocoGroup));
      }
    }

    // ------------------------------------------------------------ the others

    /** One tick reaches the broker. */
    method Tick(symbol: string, bid: real, ask: real, time: int, ghost k: string)
      requires Legal() && broker.now <= time
      modifies broker, this`worlds, this`moves
      ensures Legal() && Undisturbed(old(W()), W(), k) && RowKept(old(W()), W(), k)
      ensures forall j :: (old(Sound(j)) ==> Sound(j)) && (old(Locked(j)) ==> Locked(j))
      ensures old(worlds) <= worlds
      ensures Occurs(old(W()), TickEvent(symbol, bid, ask, time), k, W())
    {
      hide Core, IsRun, FaithfulRun, NoRevivals, SendMoves, Balanced, Undisturbed, Quiescent, Possible, After, Valid, TicketsOk,
           Apply, Enabled;
      ghost var w := W();
      BooksNow();
      var _, acts := broker.PushTick(symbol, bid, ask, time);
      QuoteFirst(acts, symbol, Protocol.Tick(time, bid, ask), w.book.now);
      ghost var ws, ms := TickIsMoves(worlds, moves, acts, k);
      worlds, moves := ws, ms;
    }

    method SetTerms(terms: Terms)
      requires Legal()
      modifies broker, this`worlds, this`moves
      ensures Legal() && moves == old(moves) + [Condition(terms)]
      ensures Makes(old(W()), Condition(terms), W())
      ensures forall k :: (old(Sound(k)) ==> Sound(k)) && (old(Locked(k)) ==> Locked(k))
      ensures old(worlds) <= worlds
    {
      hide Core, StepAt, FaithfulAt, RevivesAt, NoRevivals, SendMoves, Balanced;
      ghost var w := W();
      broker.SetConditions(terms);
      SettingMoves(w, Condition(terms), W());
      Record(Condition(terms));
    }

    method Enqueue(injection: Injection)
      requires Legal() && HonestInjection(injection)
      modifies broker, this`worlds, this`moves
      ensures Legal() && moves == old(moves) + [Script(injection)]
      ensures Makes(old(W()), Script(injection), W())
      ensures forall k :: (old(Sound(k)) ==> Sound(k)) && (old(Locked(k)) ==> Locked(k))
      ensures old(worlds) <= worlds
    {
      hide Core, StepAt, FaithfulAt, RevivesAt, NoRevivals, SendMoves, Balanced;
      ghost var w := W();
      broker.Inject(injection);
      SettingMoves(w, Script(injection), W());
      Record(Script(injection));
    }

    /** One move of a peer at the broker, unless it is not possible now or a send without a send left. */
    method PeerServes(m: Move, k: string)
      requires Legal() && !Touches(m, k) && !m.Claim? && !m.Retire? && !m.Write?
      modifies broker, store, fuse, this`entitled, this`left, this`worlds, this`moves, this`audit
      ensures Account(k) == old(Account(k)) && Legal() && Undisturbed(old(W()), W(), k)
      ensures Occurs(old(W()), Peer(m), k, W())
      ensures m.Send? && !old(Idle(W(), m, k)) && old(LeftOf(m.key)) != {} ==> Makes(old(W()), old(Meant(W(), m)), W())
      ensures old(worlds) <= worlds && (old(Locked(k)) ==> Locked(k))
      ensures !m.Claim? && old(Single(k)) ==> Single(k)
      ensures forall j ::
                RowKept(old(W()), W(), j) && (old(Sound(j)) ==> Sound(j)) && (old(Locked(j)) ==> Locked(j))
    {
      hide Core, Undisturbed, After, DecideSend, Served, Legal, Sound, Locked, Single;
      ghost var w := W();
      CoreNow();
      StillUndisturbed(w, k);
      if Idle(w, m, k) || m.Send? {
        NothingOccurs(w, m, k);
      }
      match m {
        case Condition(terms) =>
          SetTerms(terms);
          PeerMove(w, m, k);
          PeerOccurs(w, m, k, W());
        case Script(injection) =>
          if HonestInjection(injection) {
            Enqueue(injection);
            PeerMove(w, m, k);
            PeerOccurs(w, m, k, W());
          }
        case Trader(r, _) =>
          if !(IsEntry(r) && OurComment(r.comment)) {
            var reply := Serve(r);
            PeerMove(w, Trader(r, reply), k);
            PeerOccurs(w, m, k, W());
          }
        case Send(key, r, _) =>
          if key in entitled && IsEntry(r) && r.comment == CommentFor(key) && LeftOf(key) != {} {
            OnlyOne(key, k);
            CountSend(key);
            var reply := Dispatch(key, r);
            PeerMove(w, Send(key, r, reply), k);
            PeerOccurs(w, m, k, W());
          }
        case _ =>
      }
    }

    lemma OnlyOne(key: string, k: string)
      requires key in entitled && key != k
      ensures !Single(k)
    {
    }

    /** One move of a peer in the registry. */
    method PeerRegisters(m: Move, k: string)
      requires Legal() && (!Touches(m, k) || Cancels(m, k)) && (m.Claim? || m.Retire? || m.Write?)
      modifies broker, store, fuse, this`entitled, this`left, this`worlds, this`moves, this`audit
      ensures Account(k) == old(Account(k)) && Legal() && Undisturbed(old(W()), W(), k)
      ensures Occurs(old(W()), Peer(m), k, W())
      ensures old(worlds) <= worlds && (old(Locked(k)) ==> Locked(k))
      ensures !m.Claim? && old(Single(k)) ==> Single(k)
      ensures forall j | !(m.Write? && m.key == j) ::
                RowKept(old(W()), W(), j) && (old(Sound(j)) ==> Sound(j)) && (old(Locked(j)) ==> Locked(j))
    {
      hide Core, Undisturbed, After, Legal, Sound, Locked;
      ghost var w := W();
      CoreNow();
      StillUndisturbed(w, k);
      if Idle(w, m, k) {
        NothingOccurs(w, m, k);
      }
      match m {
        case Claim(key, symbol, strategy, direction, ocoGroup) =>
          var ok := TryClaim(key, symbol, strategy, direction, ocoGroup);
          if ok {
            PeerMove(w, m, k);
            PeerOccurs(w, m, k, W());
            var _ := PassFuse(key);
          }
        case Retire(key) =>
          GiveUp(key);
          PeerMove(w, m, k);
          PeerOccurs(w, m, k, W());
        case Write(key, state, ticket, volume) =>
          if !state.ARMED? {
            SetState(key, state, ticket, volume);
            PeerMove(w, m, k);
            PeerOccurs(w, m, k, W());
          }
        case _ =>
      }
    }

    /** One move of a peer, unless it is not possible now or is none that another call makes: a send without a
        send left, or a move in the name of `k` other than marking its row CANCELLED. */
    method PeerMoves(m: Move, k: string)
      requires Legal()
      modifies broker, store, fuse, this`entitled, this`left, this`worlds, this`moves, this`audit
      ensures Account(k) == old(Account(k)) && Legal() && Undisturbed(old(W()), W(), k)
      ensures Occurs(old(W()), Peer(m), k, W())
      ensures old(worlds) <= worlds && (old(Locked(k)) ==> Locked(k))
      ensures !m.Claim? && old(Single(k)) ==> Single(k)
      ensures forall j | !(m.Write? && m.key == j) ::
                RowKept(old(W()), W(), j) && (old(Sound(j)) ==> Sound(j)) && (old(Locked(j)) ==> Locked(j))
    {
      hide Undisturbed, Legal, Sound, Locked, Single, RowKept;
      StillUndisturbed(W(), k);
      if Touches(m, k) && !Cancels(m, k) {
        RowsAreKept(W());
        NothingOccurs(W(), m, k);
      } else if m.Claim? || m.Retire? || m.Write? {
        PeerRegisters(m, k);
      } else {
        PeerServes(m, k);
      }
    }

    /** One event of a turn. */
    method Happens(e: Event, k: string)
      requires Legal()
      modifies broker, store, fuse, this`entitled, this`left, this`worlds, this`moves, this`audit
      ensures Account(k) == old(Account(k)) && Legal() && Undisturbed(old(W()), W(), k)
      ensures Occurs(old(W()), e, k, W())
      ensures old(worlds) <= worlds && (old(Locked(k)) ==> Locked(k))
      ensures !(e.Peer? && e.move.Claim?) && old(Single(k)) ==> Single(k)
      ensures forall j | Leaves(e, j) ::
                RowKept(old(W()), W(), j) && (old(Sound(j)) ==> Sound(j)) && (old(Locked(j)) ==> Locked(j))
    {
      hide Core, Undisturbed, Legal, Sound, Locked, Single;
      StillUndisturbed(W(), k);
      match e {
        case TickEvent(symbol, bid, ask, time) =>
          if broker.now <= time {
            Tick(symbol, bid, ask, time, k);
          }
        case Peer(m) =>
          PeerMoves(m, k);
      }
    }

    /** The wait before a gateway call is served: everyone but the owner of `k` may move, and others may have
        cancelled its order and mark its row. */
    method Yield(k: string) returns (raises: bool)
      requires Legal()
      modifies broker, store, fuse, this`entitled, this`left, this`script, this`worlds, this`moves, this`audit
      ensures Account(k) == old(Account(k)) && Spent(k) == old(Spent(k)) && LeftOf(k) == old(LeftOf(k))
      ensures Legal() && Undisturbed(old(W()), W(), k) && (old(Locked(k)) ==> Locked(k))
      ensures Continues(k)
      ensures forall j | old(Spared(j)) :: RowKept(old(W()), W(), j) && (old(Sound(j)) ==> Sound(j))
      ensures old(Clear(k)) ==> Clear(k) && (old(Sound(k)) ==> Sound(k))
      ensures script == (if old(script) == [] then [] else old(script)[1..])
      ensures raises <==> Raising(old(script))
      ensures Unfolded(old(W()), old(script), k, W())
      ensures Quiet(old(script), 1) ==> !raises && W() == old(W())
      ensures k in entitled <==> k in old(entitled)
    {
      hide Core, Undisturbed, Legal, Sound, Locked, Leaves, Single, Unfolds, Occurs;
      StillUndisturbed(W(), k);
      if script == [] {
        return false;
      }
      ghost var before := script;
      var turn := script[0];
      script := script[1..];
      ghost var w := W();
      UnfoldsFrom(w, k);
      assert turn.events[..0] == [];
      for i := 0 to |turn.events|
        invariant Legal() && Undisturbed(w, W(), k) && Account(k) == old(Account(k))
        invariant (old(Locked(k)) ==> Locked(k)) && script == before[1..] && (i == 0 ==> W() == w)
        invariant Unfolds(w, turn.events[..i], k, W())
        invariant old(worlds) <= worlds && (Claimless(turn) && old(Single(k)) ==> Single(k))
        invariant forall j | Spares(turn, j) ::
                    RowKept(w, W(), j) && (old(Sound(j)) ==> Sound(j)) && (old(Locked(j)) ==> Locked(j))
      {
        ghost var mid := W();
        assert turn.events[i] in turn.events;
        Happens(turn.events[i], k);
        UndisturbedTransitive(w, mid, W(), k);
        UnfoldsOn(w, turn.events[..i], k, mid, turn.events[i], W());
        assert turn.events[..i + 1] == turn.events[..i] + [turn.events[i]];
      }
      assert turn.events[..|turn.events|] == turn.events;
      SameRight(w, W(), k);
      raises := turn.raises;
    }

    // -------------------------------------------------------- stages of a call

    /** Writes the final state of a call that will not send again, and returns it. */
    method Conclude(key: string, s: OrderState, ticket: int, volume: int, ghost since: int) returns (o: Outcome)
      requires Legal() && key in store.rows && key !in entitled
      requires !s.ARMED? && Settles(W(), key, s, ticket, volume, since)
      modifies store, this`worlds, this`moves
      ensures Legal() && o == Finished(s) && Reported(o, W(), key, since)
      ensures store.rows == Written(old(store.rows), key, s, ticket, volume)
      ensures old(Sound(key)) ==> Sound(key)
      ensures old(Locked(key)) && (InFlight(s) ==> old(InFlight(store.rows[key].state))) ==> Locked(key)
      ensures Continues(key)
    {
      hide Core, StepAt, FaithfulAt, RevivesAt, NoRevivals, SendMoves, Accounted, Makes, TrueOf, IsRun, FaithfulRun,
           Owned, Evidence;
      SetState(key, s, ticket, volume);
      o := Finished(s);
    }

    /** A rejection: nothing carries the key, and nothing will. */
    method Reject(key: string, ghost since: int) returns (o: Outcome)
      requires Legal() && key in store.rows
      requires Effects(broker.State(), CommentFor(key)) == 0
      modifies store, this`entitled, this`left, this`worlds, this`moves, this`audit
      ensures Spent(key) == old(Spent(key))
      ensures Legal() && o == Finished(REJECTED) && Reported(o, W(), key, since)
      ensures (old(Sound(key)) ==> Sound(key)) && (old(Locked(key)) ==> Locked(key))
      ensures Continues(key)
    {
      hide Core, StepAt, FaithfulAt, RevivesAt, NoRevivals, SendMoves, Accounted, Makes, TrueOf, IsRun, FaithfulRun;
      GiveUp(key);
      NothingIsRejected(broker.State(), key, since);
      NoTicketSettles(W(), key, REJECTED, since);
      o := Conclude(key, REJECTED, 0, 0, since);
    }

    /** One gateway send; a raise before it reached the broker is an unanswered send. */
    method SendOrder(key: string, r: OrderRequest, ghost since: int) returns (reply: Reply, raises: bool)
      requires Legal() && Sending(W(), key) && key in audit.due && IsEntry(r) && r.comment == CommentFor(key)
      requires since <= broker.now
      modifies broker, store, fuse, this`entitled, this`left, this`script, this`worlds, this`moves, this`audit
      ensures SentBy(key) == old(SentBy(key)) + (if raises then [] else [r]) && CountedFor(key) == old(CountedFor(key))
      ensures !MayHaveExecuted(reply) ==> LeftOf(key) == old(LeftOf(key))
      ensures Legal() && Answered(W(), key, r, reply, since) && since <= broker.now
      ensures (raises <==> Raising(old(script))) && (raises ==> reply.Raised?)
      ensures script == (if old(script) == [] then [] else old(script)[1..])
      ensures Quiet(old(script), 1) ==> Makes(old(W()), Send(key, r, reply), W())
      ensures old(Clear(key) && Sound(key)) ==> Sound(key)
      ensures old(Clear(key) && Locked(key)) ==> Locked(key)
      ensures old(Clear(key)) ==> Clear(key)
      ensures Continues(key)
    {
      hide Unfolded, Core, Makes, TrueOf, Answered, Undisturbed, Effects, Legal, Sound, Locked, Clear, Spared, Solo;
      ghost var w0 := W();
      raises := Yield(key);
      SendingKept(w0, W(), key);
      CoreNow();
      ghost var w := W();
      if raises {
        GiveUp(key);
        RaisedAnswered(w, key, r, W(), since);
        return Raised, true;
      }
      reply := Dispatch(key, r);
      SendAnswered(w, key, r, reply, W(), since);
    }

    /** One send, counted in the storm fuse before it is made. */
    method SendCounted(i: ArmedIntent, ghost since: int) returns (reply: Reply, raises: bool)
      requires Legal() && WellFormed(i) && IsEntry(i.request) && Sending(W(), i.key) && LeftOf(i.key) != {}
      requires since <= broker.now
      modifies broker, store, fuse, this`entitled, this`left, this`script, this`worlds, this`moves, this`audit
      ensures SentBy(i.key) == old(SentBy(i.key)) + (if raises then [] else [i.request])
      ensures CountedFor(i.key) == old(CountedFor(i.key)) + 1
      ensures !MayHaveExecuted(reply) ==> |LeftOf(i.key)| == |old(LeftOf(i.key))| - 1
      ensures Legal() && Answered(W(), i.key, i.request, reply, since) && since <= broker.now
      ensures (raises <==> Raising(old(script))) && (raises ==> reply.Raised?)
      ensures script == (if old(script) == [] then [] else old(script)[1..])
      ensures Quiet(old(script), 1) ==> Makes(old(W()), Send(i.key, i.request, reply), W())
      ensures old(Clear(i.key) && Sound(i.key)) ==> Sound(i.key)
      ensures old(Clear(i.key) && Locked(i.key)) ==> Locked(i.key)
      ensures old(Clear(i.key)) ==> Clear(i.key)
      ensures Continues(i.key)
    {
      hide Core, Makes, TicketsOk, Valid, Sending, Answered, SentBy, Effects, MayHaveExecuted, Legal, Sound, Locked, Clear,
           Spared, Solo, W, Quiet, Raising;
      CountSend(i.key);
      reply, raises := SendOrder(i.key, i.request, since);
    }

    /** The wait before a read by a call that will not send again. */
    method Await(i: ArmedIntent, ghost state: OrderState, ghost since: int) returns (raises: bool)
      requires Legal() && Waiting(W(), i.key, state, i.request.magic, i.signal.symbol, since) && InFlight(state)
      modifies broker, store, fuse, this`entitled, this`left, this`script, this`worlds, this`moves, this`audit
      ensures Legal() && Waiting(W(), i.key, state, i.request.magic, i.signal.symbol, since)
      ensures Spent(i.key) == old(Spent(i.key)) && Undisturbed(old(W()), W(), i.key)
      ensures |Resting(broker.orders, CommentFor(i.key))| <= old(|Resting(broker.orders, CommentFor(i.key))|)
      ensures Core(W()) && TicketsOk(broker.State()) && i.key in store.rows && i.key !in entitled
      ensures Tagged(broker.State(), CommentFor(i.key), i.request.magic, i.signal.symbol, since)
      ensures Reported(Aborted, W(), i.key, since) && (old(Locked(i.key)) ==> Locked(i.key))
      ensures old(Clear(i.key)) ==> Clear(i.key) && (old(Sound(i.key)) ==> Sound(i.key))
      ensures script == (if old(script) == [] then [] else old(script)[1..])
      ensures raises <==> Raising(old(script))
      ensures Quiet(old(script), 1) ==> !raises && W() == old(W())
      ensures Continues(i.key)
    {
      hide Unfolded, Core, Undisturbed, TicketsOk, Legal, Sound, Locked, Clear, Spared, Solo, Quiet, Tagged, Resting;
      ghost var w := W();
      raises := Yield(i.key);
      WaitingKept(w, W(), i.key, state, i.request.magic, i.signal.symbol, since);
      LeftInFlight(W(), i.key, state, i.request.magic, i.signal.symbol, since);
      CoreNow();
    }

    /** The first read of the resolution. */
    method LookForPosition(i: ArmedIntent) returns (p: Option<Position>)
      requires TicketsOk(broker.State()) && WellFormed(i)
      ensures p.Some? <==> PositionShown(broker.State(), i)
      ensures p.Some? ==>
        && p.value.ticket in broker.positions && broker.positions[p.value.ticket] == p.value
        && p.value.comment == CommentFor(i.key)
    {
      hide TicketsOk, Recovery.ShowsPosition;
      var ps := broker.PositionsGet(Some(i.signal.symbol));
      ListingShowsPosition(broker.State(), i.request.comment, i.request.magic, i.signal.symbol, ps);
      p := FindPosition(ps, i.request.comment, i.request.magic);
    }

    /** The second read; when it finds nothing, nothing of the key rests. */
    method LookForOrder(i: ArmedIntent, ghost since: int) returns (o: Option<PendingOrder>)
      requires TicketsOk(broker.State()) && WellFormed(i)
      requires Tagged(broker.State(), CommentFor(i.key), i.request.magic, i.signal.symbol, since)
      ensures o.Some? <==> OrderShown(broker.State(), i)
      ensures o.Some? ==>
        && o.value.ticket in broker.orders && broker.orders[o.value.ticket] == o.value
        && o.value.comment == CommentFor(i.key)
      ensures o.None? ==> |Resting(broker.orders, CommentFor(i.key))| == 0
    {
      hide TicketsOk, Recovery.ShowsOrder, Tagged, Resting;
      var os := broker.OrdersGet(Some(i.signal.symbol));
      ListingShowsOrder(broker.State(), i.request.comment, i.request.magic, i.signal.symbol, os);
      o := FindOrder(os, i.request.comment, i.request.magic);
      if o.None? {
        OrderUnseen(broker.State(), i.key, i.request.magic, i.signal.symbol, since, os);
      }
    }

    /** The last read; when it finds nothing either, CANCELLED may be said. */
    method LookForDeal(i: ArmedIntent, ghost since: int) returns (d: Option<Deal>)
      requires WellFormed(i) && |Resting(broker.orders, CommentFor(i.key))| == 0
      requires Tagged(broker.State(), CommentFor(i.key), i.request.magic, i.signal.symbol, since)
      ensures d.Some? <==> DealShownToday(broker.State(), i)
      ensures d.Some? ==> d.value in broker.deals && d.value.comment == CommentFor(i.key)
      ensures d.None? ==> Sayable(broker.State(), i.key, CANCELLED, since)
    {
      hide DealsWithin, Tagged, Resting, Sayable;
      var ds := broker.HistoryDealsGet(broker.now - DAY, broker.now + FIVE_MINUTES);
      d := FindDeal(ds, i.request.comment, i.request.magic);
      if d.Some? {
        DealsWithinMembers(broker.deals, broker.now - DAY, broker.now + FIVE_MINUTES, d.value);
      } else {
        AbsentIsCancelled(broker.State(), i.key, i.request.magic, i.signal.symbol, since);
      }
    }

    /** Reconcile before any resend: position, then pending order, then deals of the last day; absent means
        CANCELLED. The reads are not atomic: a resting order may fill or lapse between them. */
    method ResolveUnknown(i: ArmedIntent, ghost since: int) returns (o: Outcome)
      requires Legal() && WellFormed(i)
      requires Waiting(W(), i.key, UNKNOWN, i.request.magic, i.signal.symbol, since)
      modifies broker, store, fuse, this`entitled, this`left, this`script, this`worlds, this`moves, this`audit
      ensures Spent(i.key) == old(Spent(i.key))
      ensures Legal() && Reported(o, W(), i.key, since) && !o.Refused?
      ensures o.Finished? ==> o.state.FILLED? || o.state.PLACED? || o.state.CANCELLED?
      ensures old(Clear(i.key) && Sound(i.key)) ==> Sound(i.key)
      ensures old(Clear(i.key) && Locked(i.key)) ==> Locked(i.key)
      ensures old(Clear(i.key)) && o.Aborted? ==> Clear(i.key)
      ensures o == Finished(PLACED) ==> old(|Resting(broker.orders, CommentFor(i.key))|) > 0
      ensures Raising(old(script)) ==> o == Aborted
      ensures Quiet(old(script), 3) ==> o == Finished(VerdictOn(old(broker.State()), i))
      ensures Continues(i.key)
    {
      hide Core, Makes, TrueOf, Undisturbed, Effects, Sayable, Tagged, Valid, TicketsOk, DealsWithin, Legal, Sound, Locked,
           Clear, Spared, Solo, PositionShown, OrderShown, DealShownToday, VerdictOn, Quiet, Resting, Settles, Waiting, Reported;
      QuietNext(script, 2);
      var raises := Await(i, UNKNOWN, since);
      if raises {
        return Aborted;
      }
      VerdictIs(broker.State(), i);
      var p := LookForPosition(i);
      if p.Some? {
        PositionSettles(W(), i.key, p.value, since);
        o := Conclude(i.key, FILLED, p.value.ticket, p.value.volume, since);
        return;
      }
      o := ResolveByOrders(i, since);
    }

    method ResolveByOrders(i: ArmedIntent, ghost since: int) returns (o: Outcome)
      requires Legal() && WellFormed(i)
      requires Waiting(W(), i.key, UNKNOWN, i.request.magic, i.signal.symbol, since)
      modifies broker, store, fuse, this`entitled, this`left, this`script, this`worlds, this`moves, this`audit
      ensures Spent(i.key) == old(Spent(i.key))
      ensures Legal() && Reported(o, W(), i.key, since) && !o.Refused?
      ensures o.Finished? ==> o.state.FILLED? || o.state.PLACED? || o.state.CANCELLED?
      ensures old(Clear(i.key) && Sound(i.key)) ==> Sound(i.key)
      ensures old(Clear(i.key) && Locked(i.key)) ==> Locked(i.key)
      ensures old(Clear(i.key)) && o.Aborted? ==> Clear(i.key)
      ensures o == Finished(PLACED) ==> old(|Resting(broker.orders, CommentFor(i.key))|) > 0
      ensures Raising(old(script)) ==> o == Aborted
      ensures Quiet(old(script), 2) && !PositionShown(old(broker.State()), i) ==>
                o == Finished(VerdictOn(old(broker.State()), i))
      ensures Continues(i.key)
    {
      hide Core, Makes, TrueOf, Undisturbed, Effects, Sayable, Tagged, Valid, TicketsOk, DealsWithin, Legal, Sound, Locked,
           Clear, Spared, Solo, PositionShown, OrderShown, DealShownToday, VerdictOn, Quiet, Resting, Settles, Waiting, Reported;
      QuietNext(script, 1);
      var raises := Await(i, UNKNOWN, since);
      if raises {
        return Aborted;
      }
      VerdictIs(broker.State(), i);
      ClearRow(i.key);
      var order := LookForOrder(i, since);
      if order.Some? {
        OrderSettles(W(), i.key, order.value, since);
        o := Conclude(i.key, PLACED, order.value.ticket, 0, since);
        return;
      }
      o := ResolveByDeals(i, since);
    }

    /** The last read of the resolution: no order rests any more, so the deals decide. */
    method ResolveByDeals(i: ArmedIntent, ghost since: int) returns (o: Outcome)
      requires Legal() && WellFormed(i)
      requires Waiting(W(), i.key, UNKNOWN, i.request.magic, i.signal.symbol, since)
      requires |Resting(broker.orders, CommentFor(i.key))| == 0
      modifies broker, store, fuse, this`entitled, this`left, this`script, this`worlds, this`moves, this`audit
      ensures Spent(i.key) == old(Spent(i.key))
      ensures Legal() && Reported(o, W(), i.key, since) && !o.Refused?
      ensures o.Finished? ==> o.state.FILLED? || o.state.CANCELLED?
      ensures old(Clear(i.key) && Sound(i.key)) ==> Sound(i.key)
      ensures old(Clear(i.key) && Locked(i.key)) ==> Locked(i.key)
      ensures old(Clear(i.key)) && o.Aborted? ==> Clear(i.key)
      ensures Raising(old(script)) ==> o == Aborted
      ensures Quiet(old(script), 1) ==> o == Finished(if DealShownToday(old(broker.State()), i) then FILLED else CANCELLED)
      ensures Continues(i.key)
    {
      hide Core, Makes, TrueOf, Undisturbed, Effects, Sayable, Tagged, Valid, TicketsOk, DealsWithin, Legal, Sound, Locked,
           Clear, Spared, Solo, DealShownToday, Quiet, Resting, Settles, Waiting, Reported;
      var raises := Await(i, UNKNOWN, since);
      if raises {
        return Aborted;
      }
      var d := LookForDeal(i, since);
      if d.Some? {
        DealSettles(W(), i.key, d.value, since);
        o := Conclude(i.key, FILLED, d.value.positionId, d.value.volume, since);
        return;
      }
      NoTicketSettles(W(), i.key, CANCELLED, since);
      o := Conclude(i.key, CANCELLED, 0, 0, since);
    }

    /** Marks the outcome unknown and resolves it against the broker. */
    method Unknown(i: ArmedIntent, ghost since: int) returns (o: Outcome)
      requires Legal() && WellFormed(i)
      requires Waiting(W(), i.key, ARMED, i.request.magic, i.signal.symbol, since)
      modifies broker, store, fuse, this`entitled, this`left, this`script, this`worlds, this`moves, this`audit
      ensures Spent(i.key) == old(Spent(i.key))
      ensures Legal() && Reported(o, W(), i.key, since) && !o.Refused?
      ensures o.Finished? ==> o.state.FILLED? || o.state.PLACED? || o.state.CANCELLED?
      ensures old(Clear(i.key) && Sound(i.key)) ==> Sound(i.key)
      ensures old(Clear(i.key) && Locked(i.key)) ==> Locked(i.key)
      ensures old(Clear(i.key)) && o.Aborted? ==> Clear(i.key)
      ensures o == Finished(PLACED) ==> old(|Resting(broker.orders, CommentFor(i.key))|) > 0
      ensures Raising(old(script)) ==> o == Aborted
      ensures Quiet(old(script), 3) ==> o == Finished(VerdictOn(old(broker.State()), i))
      ensures Continues(i.key)
    {
      hide Core, Undisturbed, Effects, Tagged, Valid, Legal, Sound, Locked, VerdictOn, Quiet;
      SetState(i.key, UNKNOWN, 0, 0);
      o := ResolveUnknown(i, since);
    }

    /** A success claim is believed only if a position with the intent's comment and magic is open; then the
        replied ticket and volume are the intent's own fill. */
    method VerifyAndRecord(i: ArmedIntent, reply: Reply, ghost since: int) returns (o: Outcome)
      requires Legal() && WellFormed(i) && i.request.action.DEAL? && reply.Got? && ClaimsSuccess(reply)
      requires Waiting(W(), i.key, ARMED, i.request.magic, i.signal.symbol, since)
      requires |Resting(broker.orders, CommentFor(i.key))| == 0
      requires Booked(broker.State(), i.request, reply, CommentFor(i.key))
      modifies broker, store, fuse, this`entitled, this`left, this`script, this`worlds, this`moves, this`audit
      ensures Spent(i.key) == old(Spent(i.key))
      ensures Legal() && Reported(o, W(), i.key, since) && !o.Refused?
      ensures o.Finished? ==> o.state.FILLED? || o.state.CANCELLED?
      ensures old(Clear(i.key) && Sound(i.key)) ==> Sound(i.key)
      ensures old(Clear(i.key) && Locked(i.key)) ==> Locked(i.key)
      ensures old(Clear(i.key)) && o.Aborted? ==> Clear(i.key)
      ensures Raising(old(script)) ==> o == Aborted
      ensures Quiet(old(script), 4) ==> o == Finished(VerdictOn(old(broker.State()), i))
      ensures Quiet(old(script), 1) && PositionShown(old(broker.State()), i) ==>
                o == Finished(FILLED) && W() == RecordedFill(old(W()), i.key, reply)
      ensures Continues(i.key)
    {
      hide Core, Makes, TrueOf, Undisturbed, Effects, Sayable, Tagged, Valid, TicketsOk, DealsWithin, Legal, Sound, Locked,
           Clear, Spared, Solo, Booked, Settles, ClaimsSuccess, Reported, PositionShown, OrderShown, DealShownToday,
           VerdictOn, Quiet;
      ghost var w := W();
      QuietNext(script, 3);
      VerdictIs(broker.State(), i);
      var raises := Await(i, ARMED, since);
      BookedKept(w, W(), i.key, i.request, reply);
      if raises {
        return Aborted;
      }
      var p := LookForPosition(i);
      if p.None? {
        o := Unknown(i, since);
        return;
      }
      ReplySettles(W(), i.key, i.request, reply, p.value, since);
      o := Conclude(i.key, FILLED, reply.result.order, reply.result.volume, since);
    }

    /** After a reply that may stand for an effect: verify it, accept a partial fill without chasing the
        rest, or resolve an unknown outcome. */
    method Settle(i: ArmedIntent, reply: Reply, ghost since: int) returns (o: Outcome)
      requires Legal() && WellFormed(i) && i.request.action.DEAL?
      requires Answered(W(), i.key, i.request, reply, since) && MayHaveExecuted(reply)
      modifies broker, store, fuse, this`entitled, this`left, this`script, this`worlds, this`moves, this`audit
      ensures Spent(i.key) == old(Spent(i.key))
      ensures Legal() && Reported(o, W(), i.key, since) && !o.Refused?
      ensures EndsWith(o, ActionFor(CodeOf(reply))) && o != Finished(REJECTED)
      ensures Quiet(old(script), 4) ==> !o.Aborted?
      ensures old(Clear(i.key) && Sound(i.key)) ==> Sound(i.key)
      ensures old(Clear(i.key) && Locked(i.key)) ==> Locked(i.key)
      ensures old(Clear(i.key)) && o.Aborted? ==> Clear(i.key)
      ensures Quiet(old(script), 4) && !ActionFor(CodeOf(reply)).ACCEPT_PARTIAL? ==>
                o == Finished(VerdictOn(old(broker.State()), i))
      ensures Quiet(old(script), 1) && ActionFor(CodeOf(reply)).VERIFY_FILL? && PositionShown(old(broker.State()), i) ==>
                o == Finished(FILLED) && W() == RecordedFill(old(W()), i.key, reply)
      ensures Continues(i.key)
    {
      hide VerdictOn, PositionShown, RecordedFill;
      hide Core, Makes, Undisturbed, Effects, Tagged, Valid, TicketsOk, Legal, Sound, Locked, Clear, Spared, Solo;
      var action := ActionFor(CodeOf(reply));
      if action.VERIFY_FILL? {
        o := VerifyAndRecord(i, reply, since);
      } else if action.ACCEPT_PARTIAL? {
        PartialSettles(W(), i.key, i.request, reply, since);
        o := Conclude(i.key, PARTIAL, reply.result.order, reply.result.volume, since);
      } else {
        o := Unknown(i, since);
      }
    }

    /** A fresh quote for a retry: None when the symbol has none. */
    method Refresh(i: ArmedIntent) returns (raised: bool, refreshed: Option<ArmedIntent>)
      requires Legal() && Sending(W(), i.key)
      modifies broker, store, fuse, this`entitled, this`left, this`script, this`worlds, this`moves, this`audit
      ensures Spent(i.key) == old(Spent(i.key)) && LeftOf(i.key) == old(LeftOf(i.key))
      ensures Legal() && Sending(W(), i.key) && old(broker.now) <= broker.now
      ensures !raised ==> refreshed == Remedy(i, RETRY_REFRESH, Quoted(i.signal.symbol))
      ensures Silent(old(script)) ==> Silent(script) && !raised
      ensures old(Clear(i.key) && Sound(i.key)) ==> Sound(i.key)
      ensures old(Clear(i.key) && Locked(i.key)) ==> Locked(i.key)
      ensures old(Clear(i.key)) ==> Clear(i.key)
      ensures Continues(i.key)
    {
      hide Unfolded, Core, Undisturbed, Legal, Sound, Locked, Clear, Spared, Solo, Silent, Quiet;
      ghost var w := W();
      SilentNext(script);
      raised := Yield(i.key);
      SendingKept(w, W(), i.key);
      var tick := broker.SymbolInfoTick(i.signal.symbol);
      refreshed := if tick.Some? then Some(WithRefreshedPrice(i, tick.value)) else None;
    }

    /** Rejects the intent of a call that may still send. */
    method RejectSending(key: string, ghost since: int) returns (o: Outcome)
      requires Legal() && Sending(W(), key)
      modifies store, this`entitled, this`left, this`worlds, this`moves, this`audit
      ensures Spent(key) == old(Spent(key))
      ensures Legal() && o == Finished(REJECTED) && Reported(o, W(), key, since)
      ensures (old(Sound(key)) ==> Sound(key)) && (old(Locked(key)) ==> Locked(key))
      ensures Continues(key)
    {
      hide Core, StepAt, FaithfulAt, RevivesAt, NoRevivals, SendMoves, Accounted, IsRun, FaithfulRun, Effects;
      CoreNow();
      SendingHasNoEffect(W(), key);
      o := Reject(key, since);
    }

    /** Leaves a call through a raised exception: nothing more is sent, the row stays in flight. */
    method Abort(key: string, ghost since: int) returns (o: Outcome)
      requires Legal() && Sending(W(), key)
      modifies this`entitled, this`left, this`worlds, this`moves, this`audit
      ensures Spent(key) == old(Spent(key))
      ensures Legal() && o == Aborted && Reported(o, W(), key, since)
      ensures (old(Sound(key)) ==> Sound(key)) && (old(Locked(key)) ==> Locked(key))
      ensures old(Clear(key)) ==> Clear(key)
      ensures Continues(key)
    {
      hide Core, StepAt, FaithfulAt, RevivesAt, NoRevivals, SendMoves, Accounted, IsRun, FaithfulRun, Makes;
      GiveUp(key);
      o := Aborted;
    }

    // ------------------------------------------------------------ operations

    /** Claims the key and passes the storm fuse. None: the call may send. */
    method Admit(i: ArmedIntent) returns (stopped: Option<Outcome>)
      requires Legal()
      modifies store, fuse, this`entitled, this`left, this`worlds, this`moves, this`audit
      ensures Legal()
      ensures (old(Sound(i.key)) ==> Sound(i.key)) && (old(Locked(i.key)) ==> Locked(i.key))
      ensures fuse.history == old(fuse.history) && fuse.over == old(fuse.over) && fuse.blown == old(fuse.blown)
      ensures stopped == Some(Refused) <==> !Claimable(old(store.rows), i.key, i.signal.symbol, i.signal.ocoGroup)
      ensures stopped == Some(Refused) ==> W() == old(W()) && moves == old(moves)
      ensures stopped.Some? && !stopped.value.Refused? ==>
                stopped.value == Finished(REJECTED) && Reported(stopped.value, W(), i.key, broker.now)
      ensures stopped.None? ==> Sending(W(), i.key) && |LeftOf(i.key)| == MAX_SENDS
      ensures Spent(i.key) == old(Spent(i.key))
      ensures stopped.None? <==> stopped != Some(Refused) && !old(fuse.blown)
      ensures old(Spared(i.key)) && stopped.None? ==> Clear(i.key)
      ensures Continues(i.key)
    {
      hide Core, StepAt, FaithfulAt, RevivesAt, NoRevivals, SendMoves, Accounted, IsRun, FaithfulRun, Makes,
           Claimable, Sayable, Bounded, Sorted, Since, CountIn, Solo, Spared;
      var claimed := TryClaim(i.key, i.signal.symbol, i.signal.strategy, i.signal.side, i.signal.ocoGroup);
      if !claimed {
        return Some(Refused);
      }
      var ok := PassFuse(i.key);
      if !ok {
        var o := RejectSending(i.key, broker.now);
        return Some(o);
      }
      stopped := None;
    }

    /** What follows a reply that proves nothing happened: the remedy the policy asks for, each kind within
        its budget, or the end of the call. */
    method AfterRefusal(i: ArmedIntent, action: Policy, attempt: nat, used: Budget, ghost since: int)
        returns (next: Option<ArmedIntent>, used': Budget, o: Outcome)
      requires Legal() && Sending(W(), i.key) && since <= broker.now
      modifies broker, store, fuse, this`entitled, this`left, this`script, this`worlds, this`moves, this`audit
      modifies this`halts, this`backoffs
      ensures Legal() && since <= broker.now
      ensures old(Clear(i.key) && Sound(i.key)) ==> Sound(i.key)
      ensures old(Clear(i.key) && Locked(i.key)) ==> Locked(i.key)
      ensures halts == old(halts) + HaltsFor(action, i.signal.strategy)
      ensures backoffs == old(backoffs) + BackoffFor(action, attempt)
      ensures Spent(i.key) == old(Spent(i.key)) && (next.Some? ==> LeftOf(i.key) == old(LeftOf(i.key)))
      ensures next.Some? ==> Sending(W(), i.key) && next == Remedy(i, action, Quoted(i.signal.symbol))
      ensures next.Some? ==> used.Spend(action, attempt) == Some(used')
      ensures next.None? ==> Reported(o, W(), i.key, since)
      ensures next.None? && !o.Aborted? ==> o == Finished(REJECTED)
      ensures next.None? && !o.Aborted? && used.Spend(action, attempt).Some? ==>
                Remedy(i, action, Quoted(i.signal.symbol)).None?
      ensures Silent(old(script)) ==> Silent(script) && (next.None? ==> !o.Aborted?)
      ensures old(Clear(i.key)) && (next.Some? || o.Aborted?) ==> Clear(i.key)
      ensures Continues(i.key)
    {
      hide Core, Makes, Reported, TicketsOk, Valid, Sending, TrueOf, WidenStops, WithRefreshedPrice, NextFilling,
           ActionFor, Effects, Legal, Sound, Locked, Clear, Spared, Solo, W, Silent;
      used', next, o := used, None, Aborted;
      var again := false;
      if action.RETRY_REFRESH? && attempt <= MAX_TOTAL_RETRIES {
        again := true;
      } else if action.RECOMPUTE_STOPS_ONCE? && !used.stops {
        used' := used.(stops := true);
        next := WidenStops(i);
      } else if action.RETRY_ONCE? && !used.retry {
        used', again := used.(retry := true), true;
      } else if action.SWITCH_FILLING_ONCE? && !used.filling {
        used' := used.(filling := true);
        var mode := NextFilling(i.spec, i.request.filling);
        next := if mode.Some? then Some(i.(request := i.request.(filling := mode.value))) else None;
      } else {
        React(action, i.signal.strategy, attempt);
      }
      if again {
        var raised;
        raised, next := Refresh(i);
        if raised {
          o := Abort(i.key, since);
          next := None;
          return;
        }
      }
      if next.None? {
        o := RejectSending(i.key, since);
      }
    }

    /** One attempt: record the send, send, and either settle, end, or say what to try next. */
    method Attempt(i: ArmedIntent, attempt: nat, used: Budget, ghost since: int)
        returns (next: Option<ArmedIntent>, used': Budget, action: Policy, o: Outcome, ghost lost: bool)
      requires Legal() && WellFormed(i) && i.request.action.DEAL? && Sending(W(), i.key) && since <= broker.now
      requires LeftOf(i.key) != {}
      modifies broker, store, fuse, this`entitled, this`left, this`script, this`worlds, this`moves, this`audit
      modifies this`halts, this`backoffs
      ensures Legal()
      ensures old(Clear(i.key) && Sound(i.key)) ==> Sound(i.key)
      ensures old(Clear(i.key) && Locked(i.key)) ==> Locked(i.key)
      ensures halts == old(halts) + HaltsFor(action, i.signal.strategy)
      ensures backoffs == old(backoffs) + BackoffFor(action, attempt)
      ensures SentBy(i.key) == old(SentBy(i.key)) + (if lost then [] else [i.request])
      ensures next.Some? ==> Sending(W(), i.key) && since <= broker.now && next == Remedy(i, action, Quoted(i.signal.symbol))
      ensures next.Some? ==> used.Spend(action, attempt) == Some(used')
      ensures next.None? ==> Reported(o, W(), i.key, since) && EndsWith(o, action)
      ensures (lost <==> Raising(old(script))) && (lost ==> next.None? && o != Finished(REJECTED))
      ensures Quiet(old(script), 2) && Ready(old(W()), i.request) ==>
                next.None? && o == Finished(FILLED) && FilledAs(W(), i.key, i.request)
      ensures next.None? && o == Finished(REJECTED) && used.Spend(action, attempt).Some? ==>
                Remedy(i, action, Quoted(i.signal.symbol)).None?
      ensures Silent(old(script)) ==> if next.Some? then Silent(script) else !o.Aborted?
      ensures CountedFor(i.key) == old(CountedFor(i.key)) + 1
      ensures next.Some? ==> |LeftOf(i.key)| == |old(LeftOf(i.key))| - 1
      ensures old(Clear(i.key)) && (next.Some? || o.Aborted?) ==> Clear(i.key)
      ensures Continues(i.key)
    {
      hide Core, Makes, Reported, TicketsOk, Valid, Sending, Answered, TrueOf, Remedy, SentBy, Quoted, EndsWith,
           Effects, MayHaveExecuted, ActionFor, Legal, Sound, Locked, Clear, Spared, Solo, W, Quiet, Ready, FilledAs,
           PositionShown, VerdictOn, RecordedFill, Raising, Silent;
      next, used', o := None, used, Aborted;
      QuietNext(script, 1);
      SilentNext(script);
      ghost var w := W();
      CoreNow();
      SendingRow(w, i.key);
      var reply;
      reply, lost := SendCounted(i, since);
      action := ActionFor(CodeOf(reply));
      AnsweredMeans(W(), i.key, i.request, reply, since);
      BooksOf();
      if Makes(w, Send(i.key, i.request, reply), W()) && Ready(w, i.request) {
        ReadyFills(w, i, reply, W());
      }
      MaySettle(reply, used, attempt);
      if MayHaveExecuted(reply) {
        NothingToReactTo(reply, i.signal.strategy, attempt);
        o := Settle(i, reply, since);
      } else {
        next, used', o := AfterRefusal(i, action, attempt, used, since);
        if next.None? {
          RefusalEnds(reply, o);
        }
      }
    }

    /** The send loop of an admitted call. */
    method Pursue(intent: ArmedIntent, ghost since: int)
        returns (o: Outcome, sends: nat, ghost replies: seq<Policy>, ghost requests: seq<OrderRequest>)
      requires Legal() && WellFormed(intent) && intent.request.action.DEAL?
      requires Sending(W(), intent.key) && since <= broker.now && |LeftOf(intent.key)| == MAX_SENDS
      modifies broker, store, fuse, this`entitled, this`left, this`script, this`worlds, this`moves, this`audit
      modifies this`halts, this`backoffs
      ensures Legal()
      ensures old(Clear(intent.key) && Sound(intent.key)) ==> Sound(intent.key)
      ensures old(Clear(intent.key) && Locked(intent.key)) ==> Locked(intent.key)
      ensures Reported(o, W(), intent.key, since)
      ensures 0 < sends <= MAX_SENDS && |replies| == sends && EndsWith(o, replies[sends - 1])
      ensures (forall a | a in replies :: a.RETRY_REFRESH?) ==> sends <= 1 + MAX_TOTAL_RETRIES
      ensures OnceEach(replies[..sends - 1])
      ensures halts == old(halts) + HaltsFor(replies[sends - 1], intent.signal.strategy)
      ensures backoffs == old(backoffs) + BackoffFor(replies[sends - 1], sends)
      ensures SentBy(intent.key) == old(SentBy(intent.key)) + requests && |requests| <= sends
      ensures forall r | r in requests :: SameRequest(intent.request, r)
      ensures Chained(intent, replies, requests) && (requests == [] <==> Raising(old(script)))
      ensures o == Finished(REJECTED) && Affordable(replies) ==>
                requests != [] && Incurable(intent.spec, requests[|requests| - 1], replies[sends - 1], Quoted(intent.signal.symbol))
      ensures Silent(old(script)) ==> !o.Aborted?
      ensures Quiet(old(script), 2) && Ready(old(W()), intent.request) ==>
                sends == 1 && o == Finished(FILLED) && FilledAs(W(), intent.key, intent.request)
      ensures CountedFor(intent.key) == old(CountedFor(intent.key)) + sends
      ensures old(Clear(intent.key)) && o.Aborted? ==> Clear(intent.key)
      ensures Continues(intent.key)
    {
      hide Core, Makes, Reported, TicketsOk, Valid, Sending, Answered, Remedy, TrueOf, SentBy, Quoted, Effects,
           EndsWith, SameRequest, Legal, Sound, Locked, Clear, Spared, Solo, W, OnceEach, Uses, SameOrder,
           WellFormed, Follows, StandingNow, Continues, Quiet, Ready, FilledAs, Raising, Chained, ComesNext, Cures,
           Silent, Affordable, Incurable, Underway;
      UnderwayStarts(intent);
      sends, replies, requests := 0, [], [];
      var used := Budget(false, false, false);
      var current := intent;
      StandsStill();
      while true
        invariant Follows(old(StandingNow()), StandingNow(), intent.key)
        invariant Legal() && (old(Clear(intent.key)) ==> Clear(intent.key))
        invariant old(Clear(intent.key) && Sound(intent.key)) ==> Sound(intent.key)
        invariant old(Clear(intent.key) && Locked(intent.key)) ==> Locked(intent.key)
        invariant Underway(intent, current, used, replies, requests)
        invariant Sending(W(), intent.key) && since <= broker.now
        invariant |replies| == sends && CountedFor(intent.key) == old(CountedFor(intent.key)) + sends
        invariant |LeftOf(intent.key)| == MAX_SENDS - sends
        invariant halts == old(halts) && backoffs == old(backoffs)
        invariant SentBy(intent.key) == old(SentBy(intent.key)) + requests
        invariant Silent(old(script)) ==> Silent(script)
        invariant sends == 0 ==> current == intent && script == old(script) && W() == old(W())
        invariant sends > 0 ==> !Raising(old(script)) && !(Quiet(old(script), 2) && Ready(old(W()), intent.request))
        decreases MAX_SENDS - sends
      {
        UnderwayMeans(intent, current, used, replies, requests);
        sends := sends + 1;
        var next, action;
        ghost var lost;
        ghost var before := used;
        ghost var standing := StandingNow();
        label tried:
        next, used, action, o, lost := Attempt(current, sends, used, since);
        ContinuesMeans@tried(intent.key);
        FollowsOn(old(StandingNow()), standing, StandingNow(), intent.key);
        ghost var quote := Quoted(intent.signal.symbol);
        if next.None? {
          UnderwayEnds(intent, current, before, replies, requests, action, quote, lost);
        } else {
          UnderwayOn(intent, current, before, replies, requests, action, quote, used);
        }
        replies := replies + [action];
        requests := requests + (if lost then [] else [current.request]);
        if next.None? {
          ContinuesMeans(intent.key);
          return;
        }
        current := next.value;
      }
    }

    /** A market entry. At most one effect whatever replies are lost: it sends again only after replies
        that prove nothing happened, always the same order up to prices, stops and filling mode, at most
        six times, and at most three if every reply is a requote. If nobody else cancels its row meanwhile, its
        writes are true of the broker and put nothing back in flight. */
    method ExecuteMarket(intent: ArmedIntent)
        returns (o: Outcome, sends: nat, ghost replies: seq<Policy>, ghost requests: seq<OrderRequest>)
      requires Legal() && WellFormed(intent) && intent.request.action.DEAL?
      modifies broker, store, fuse, this`entitled, this`left, this`script, this`worlds, this`moves, this`audit
      modifies this`halts, this`backoffs
      ensures Legal()
      ensures old(Spared(intent.key) && Sound(intent.key)) ==> Sound(intent.key)
      ensures old(Spared(intent.key) && Locked(intent.key)) ==> Locked(intent.key)
      ensures Reported(o, W(), intent.key, old(broker.now))
      ensures o.Refused? <==> !Claimable(old(store.rows), intent.key, intent.signal.symbol, intent.signal.ocoGroup)
      ensures o.Refused? ==> W() == old(W()) && moves == old(moves)
      ensures sends == 0 <==> o.Refused? || old(fuse.blown)
      ensures sends == 0 && !o.Refused? ==> o == Finished(REJECTED)
      ensures sends <= MAX_SENDS && |replies| == sends && CountedFor(intent.key) == old(CountedFor(intent.key)) + sends
      ensures sends > 0 ==> EndsWith(o, replies[sends - 1])
      ensures (forall a | a in replies :: a.RETRY_REFRESH?) ==> sends <= 1 + MAX_TOTAL_RETRIES
      ensures sends > 0 ==> OnceEach(replies[..sends - 1])
      ensures halts == old(halts) + (if sends > 0 then HaltsFor(replies[sends - 1], intent.signal.strategy) else [])
      ensures backoffs == old(backoffs) + (if sends > 0 then BackoffFor(replies[sends - 1], sends) else [])
      ensures SentBy(intent.key) == old(SentBy(intent.key)) + requests && |requests| <= sends
      ensures forall r | r in requests :: SameRequest(intent.request, r)
      ensures Chained(intent, replies, requests) && (requests == [] <==> sends == 0 || Raising(old(script)))
      ensures o == Finished(REJECTED) && sends > 0 && Affordable(replies) ==>
                requests != [] && Incurable(intent.spec, requests[|requests| - 1], replies[sends - 1], Quoted(intent.signal.symbol))
      ensures Silent(old(script)) ==> !o.Aborted?
      ensures !o.Refused? && !old(fuse.blown) && Quiet(old(script), 2) && Ready(old(W()), intent.request) ==>
                sends == 1 && o == Finished(FILLED) && FilledAs(W(), intent.key, intent.request)
      ensures old(Spared(intent.key)) && o.Aborted? ==> InFlight(store.rows[intent.key].state)
      ensures Continues(intent.key)
    {
      hide Core, StepAt, FaithfulAt, RevivesAt, NoRevivals, SendMoves, Accounted, IsRun, FaithfulRun, Makes,
           Claimable, Reported, TicketsOk, Valid, Sending, TrueOf, Effects, SentBy, SameRequest, Quiet, Ready, FilledAs,
           Cures, Silent, Affordable, Incurable;
      ghost var since, w := broker.now, W();
      var stopped := Admit(intent);
      if stopped.Some? {
        RefusedIsReported(W(), intent.key, since);
        return stopped.value, 0, [], [];
      }
      ReadyStays(w, W(), intent.request);
      o, sends, replies, requests := Pursue(intent, since);
    }

    /** Halts and backs off as the policy of a final refusal asks. */
    method React(action: Policy, strategy: string, attempt: nat)
      modifies this`halts, this`backoffs
      ensures halts == old(halts) + HaltsFor(action, strategy)
      ensures backoffs == old(backoffs) + BackoffFor(action, attempt)
    {
      if action.REJECT_HALT_ENTRIES? {
        halts := halts + ["NO_MONEY"];
      } else if action.HALT_TRADING_DISABLED? {
        halts := halts + ["TRADING_DISABLED"];
      } else if action.REJECT_QUARANTINE? {
        halts := halts + ["QUARANTINE:" + strategy];
      } else if action.BACKOFF_STORM_CHECK? {
        backoffs := backoffs + [attempt];
      }
    }

    /** A pending entry: one send, and PLACED only if the returned ticket is seen resting. If somebody else cancels
        its row meanwhile, its last write may put the row back in flight. */
    method PlacePending(intent: ArmedIntent) returns (o: Outcome, sends: nat, ghost reply: Reply)
      requires Legal() && WellFormed(intent) && intent.request.action.PENDING?
      modifies broker, store, fuse, this`entitled, this`left, this`script, this`worlds, this`moves, this`audit
      ensures Legal()
      ensures old(Spared(intent.key) && Sound(intent.key)) ==> Sound(intent.key)
      ensures old(Spared(intent.key) && Locked(intent.key)) ==> Locked(intent.key)
      ensures o == Finished(UNKNOWN) ==> |Resting(broker.orders, CommentFor(intent.key))| == 0
      ensures Reported(o, W(), intent.key, old(broker.now))
      ensures o.Refused? <==> !Claimable(old(store.rows), intent.key, intent.signal.symbol, intent.signal.ocoGroup)
      ensures o.Refused? ==> W() == old(W()) && moves == old(moves)
      ensures CountedFor(intent.key) == old(CountedFor(intent.key)) + sends
      ensures sends == if o.Refused? || old(fuse.blown) then 0 else 1
      ensures sends == 0 && !o.Refused? ==> o == Finished(REJECTED)
      ensures SentBy(intent.key) ==
              old(SentBy(intent.key)) + (if sends == 0 || Raising(old(script)) then [] else [intent.request])
      ensures sends == 1 ==> PlacementEnds(o, ActionFor(CodeOf(reply)))
      ensures Silent(old(script)) ==> !o.Aborted?
      ensures sends == 1 && Quiet(old(script), 1) ==> reply == Answer(old(W()), intent.request).reply
      ensures sends == 1 && Quiet(old(script), 2) && Ready(old(W()), intent.request) ==>
                o == Finished(PLACED) && PlacedAs(W(), intent.key, intent.request)
      ensures old(Spared(intent.key)) && o.Aborted? ==> InFlight(store.rows[intent.key].state)
      ensures Continues(intent.key)
    {
      hide Core, Makes, Claimable, Reported, TicketsOk, Valid, Sending, MayHaveExecuted, Answered, Legal, Sound,
           Locked, Clear, Spared, Solo, SentBy, Quiet, Ready, PlacedAs, PlacementShown, DecideSend, W, PlacementEnds,
           RecordedPlacement, Silent;
      ghost var since, w0 := broker.now, W();
      BooksOf();
      SilentNext(script);
      QuietNext(script, 1);
      var stopped := Admit(intent);
      if stopped.Some? {
        RefusedIsReported(W(), intent.key, since);
        return stopped.value, 0, NoResult;
      }
      ghost var w := W();
      CoreNow();
      SendingRow(w, intent.key);
      BooksOf();
      SameBroker(w0, w, intent.request);
      var answer, lost := SendCounted(intent, since);
      sends, reply := 1, answer;
      BooksOf();
      if Makes(w, Send(intent.key, intent.request, reply), W()) {
        SendIsAnswered(w, intent.key, intent.request, reply, W());
        if Ready(w, intent.request) {
          ReadyPlaces(w, intent, reply, W());
        }
      }
      o := SettlePending(intent, answer, since);
      ClearRow(intent.key);
    }

    method SettlePending(i: ArmedIntent, reply: Reply, ghost since: int) returns (o: Outcome)
      requires Legal() && WellFormed(i) && i.request.action.PENDING?
      requires Answered(W(), i.key, i.request, reply, since) && since <= broker.now
      modifies broker, store, fuse, this`entitled, this`left, this`script, this`worlds, this`moves, this`audit
      ensures Spent(i.key) == old(Spent(i.key))
      ensures Legal() && !o.Refused?
      ensures old(Clear(i.key) && Sound(i.key)) ==> Sound(i.key)
      ensures old(Clear(i.key) && Locked(i.key)) ==> Locked(i.key)
      ensures o == Finished(UNKNOWN) ==> |Resting(broker.orders, CommentFor(i.key))| == 0
      ensures Reported(o, W(), i.key, since)
      ensures old(Clear(i.key)) && o.Aborted? ==> Clear(i.key)
      ensures PlacementEnds(o, ActionFor(CodeOf(reply)))
      ensures Quiet(old(script), 3) && Quiet(old(script), 1) ==> !o.Aborted?
      ensures Quiet(old(script), 3) && ActionFor(CodeOf(reply)).UNKNOWN_OUTCOME? ==>
                o == Finished(VerdictOn(old(broker.State()), i))
      ensures Quiet(old(script), 1) && ActionFor(CodeOf(reply)).VERIFY_FILL? && PlacementShown(old(broker.State()), i, reply) ==>
                o == Finished(PLACED) && W() == RecordedPlacement(old(W()), i.key, reply)
      ensures Continues(i.key)
    {
      hide VerdictOn, PlacementShown, RecordedPlacement, Quiet;
      hide Core, Makes, Undisturbed, TicketsOk, Valid, Effects, Tagged, Booked, Legal, Sound, Locked, Clear, Spared, Solo;
      var action := ActionFor(CodeOf(reply));
      if action.VERIFY_FILL? {
        o := VerifyPlaced(i, reply, since);
      } else if action.UNKNOWN_OUTCOME? {
        o := Unknown(i, since);
      } else {
        CoreNow();
        if !MayHaveExecuted(reply) {
          SendingHasNoEffect(W(), i.key);
        }
        o := Reject(i.key, since);
      }
    }

    method VerifyPlaced(i: ArmedIntent, reply: Reply, ghost since: int) returns (o: Outcome)
      requires Legal() && WellFormed(i) && reply.Got? && ClaimsSuccess(reply)
      requires Waiting(W(), i.key, ARMED, i.request.magic, i.signal.symbol, since)
      requires Booked(broker.State(), i.request, reply, CommentFor(i.key))
      modifies broker, store, fuse, this`entitled, this`left, this`script, this`worlds, this`moves, this`audit
      ensures Spent(i.key) == old(Spent(i.key))
      ensures Legal() && !o.Refused?
      ensures old(Clear(i.key) && Sound(i.key)) ==> Sound(i.key)
      ensures old(Clear(i.key) && Locked(i.key)) ==> Locked(i.key)
      ensures Reported(o, W(), i.key, since)
      ensures o.Finished? ==> o.state.PLACED? || o.state.UNKNOWN?
      ensures o == Finished(UNKNOWN) ==> |Resting(broker.orders, CommentFor(i.key))| == 0
      ensures old(Clear(i.key)) && o.Aborted? ==> Clear(i.key)
      ensures Raising(old(script)) ==> o == Aborted
      ensures Quiet(old(script), 1) ==> !o.Aborted?
      ensures Quiet(old(script), 1) && PlacementShown(old(broker.State()), i, reply) ==>
                o == Finished(PLACED) && W() == RecordedPlacement(old(W()), i.key, reply)
      ensures Continues(i.key)
    {
      hide Quiet;
      hide Core, Makes, Undisturbed, TicketsOk, Valid, Effects, Tagged, Sayable, Legal, Sound, Locked, Clear, Spared,
           Solo, Booked, Settles,
           Reported, TrueOf, Resting, ClaimsSuccess;
      ghost var w := W();
      var raises := Await(i, ARMED, since);
      BookedKept(w, W(), i.key, i.request, reply);
      if raises {
        return Aborted;
      }
      ClearRow(i.key);
      PlacementSettles(W(), i.key, i.request, reply, since);
      var os := broker.OrdersGet(Some(i.signal.symbol));
      if PlacementShown(broker.State(), i, reply) {
        PlacementListed(broker.State(), i, reply, os);
      }
      for k := 0 to |os|
        invariant forall j | 0 <= j < k :: os[j].ticket != reply.result.order
      {
        if os[k].ticket == reply.result.order {
          assert os[k] in os;
          o := Conclude(i.key, PLACED, reply.result.order, 0, since);
          return;
        }
      }
      PlacementUnseen(W(), i.key, i.request, reply, i.signal.symbol, since, os);
      o := Conclude(i.key, OrderState.UNKNOWN, reply.result.order, 0, since);
    }

    /** Cancels a resting order; the row is marked CANCELLED on a DONE reply and on no other. The mark is true
        of the broker unless an order of the key still rests, and it puts nothing back in flight. What the key's
        own call does before the removal is served counts as done before this call. */
    method CancelPending(key: string, ticket: int, symbol: string)
        returns (ok: bool, raised: bool, ghost served: World, ghost reply: Reply)
      requires Legal()
      modifies broker, store, fuse, this`entitled, this`left, this`script, this`worlds, this`moves, this`audit
      ensures Legal() && Spent(key) == old(Spent(key))
      ensures Undisturbed(old(W()), served, key)
      ensures raised <==> Raising(old(script))
      ensures Quiet(old(script), 1) ==> served == old(W())
      ensures raised ==> !ok && W() == served
      ensures !raised ==> Possible(served, Trader(RemoveRequest(symbol, ticket), reply))
      ensures !raised ==> (ok <==> CodeOf(reply) == Some(DONE))
      ensures !raised ==> var w := Served(served, RemoveRequest(symbol, ticket));
        W() == if ok then w.(rows := Written(w.rows, key, CANCELLED, 0, 0)) else w
      ensures old(Locked(key)) ==> Locked(key)
      ensures old(Spared(key) && Sound(key)) && !ok ==> Sound(key)
      ensures old(Spared(key) && Sound(key)) && |Resting(broker.orders, CommentFor(key))| == 0 && key !in entitled ==>
                Sound(key)
      ensures Continues(key)
      ensures key in entitled <==> key in old(entitled)
    {
      hide Unfolded, Core, Makes, Undisturbed, TicketsOk, Valid, DecideSend, Served, Legal, Sound, Locked;
      ghost var w := W();
      raised := Yield(key);
      served, reply := W(), NoResult;
      if raised {
        return false, true, served, reply;
      }
      var r := RemoveRequest(symbol, ticket);
      var answer := Serve(r);
      reply := answer;
      MadeIsServed(served, r, reply, W());
      ok := answer.Got? && answer.result.retcode == DONE;
      if ok {
        SetState(key, CANCELLED, 0, 0);
      }
    }

    // ---------------------------------------------------------- OCO backstop

    method RegisterOco(a: int, b: int)
      modifies this`ocoMap
      ensures ocoMap == old(ocoMap)[a := b][b := a]
    {
      ocoMap := ocoMap[a := b];
      ocoMap := ocoMap[b := a];
    }

    lemma RestingSeen(ticket: int, symbol: string)
      requires Legal() && Rests(W(), ticket, symbol)
      ensures |worlds| > 0 && Rests(worlds[|worlds| - 1], ticket, symbol)
    {
    }

    /** Whether a ticket is listed among the symbol's resting orders. */
    method StillRests(ticket: int, symbol: string) returns (rests: bool)
      requires TicketsOk(broker.State())
      ensures rests <==> ticket in broker.orders && OnSymbol(broker.orders[ticket].symbol, Some(symbol))
    {
      var os := broker.OrdersGet(Some(symbol));
      rests := exists k | 0 <= k < |os| :: os[k].ticket == ticket;
      if ticket in broker.orders && OnSymbol(broker.orders[ticket].symbol, Some(symbol)) {
        Listed(broker.State(), symbol, os, ticket);
      }
      assert forall k | 0 <= k < |os| :: os[k] in os;
    }

    /** Removes a ticket if it still rests on the symbol: the call's own moves are one removal request at most. */
    method RemoveIfResting(ticket: int, symbol: string)
        returns (removed: bool, raised: bool, ghost served: World, ghost reply: Reply, ghost waited: seq<Move>)
      requires Legal()
      modifies broker, store, fuse, this`entitled, this`left, this`script, this`worlds, this`moves, this`audit
      ensures Legal() && Continues("") && (old(Sound("") && Spared("")) ==> Sound("")) && (old(Locked("")) ==> Locked(""))
      ensures forall j | old(Spared(j)) :: RowKept(old(W()), W(), j)
      ensures Undisturbed(old(W()), served, "")
      ensures moves == waited + (if removed then [Trader(RemoveRequest(symbol, ticket), reply)] else [])
      ensures !removed ==> W() == served
      ensures removed ==> !raised && Makes(served, Trader(RemoveRequest(symbol, ticket), reply), W())
      ensures !removed && !raised ==>
                !(ticket in broker.orders && OnSymbol(broker.orders[ticket].symbol, Some(symbol)))
      ensures Raising(old(script)) ==> raised
      ensures removed ==> exists n :: |old(worlds)| - 1 <= n < |worlds| && Rests(worlds[n], ticket, symbol)
      ensures Quiet(old(script), 2) ==> !raised && served == old(W()) && (removed <==> Rests(old(W()), ticket, symbol))
      ensures "" in entitled <==> "" in old(entitled)
    {
      hide Unfolded, Rests, Core, Makes, Undisturbed, TicketsOk, Valid, DecideSend, Served, Legal, Sound, Locked, ListsOrders,
           SentBy, Possible, After, OnSymbol, Quiet, Raising, Spares, Clear, Single, Claimless;
      removed, reply := false, NoResult;
      QuietNext(script, 1);
      raised := Yield("");
      served, waited := W(), moves;
      if raised {
        return;
      }
      CoreNow();
      var rests := StillRests(ticket, symbol);
      RestsMeans(W(), ticket, symbol);
      if !rests {
        return;
      }
      RestingSeen(ticket, symbol);
      ghost var w, mid := old(W()), W();
      raised, served, reply, waited := Withdraw(ticket, symbol);
      UndisturbedTransitive(w, mid, served, "");
      removed := !raised;
    }

    /** Asks for the removal of an order, on behalf of no key. */
    method Withdraw(ticket: int, symbol: string)
        returns (raised: bool, ghost served: World, ghost reply: Reply, ghost waited: seq<Move>)
      requires Legal()
      modifies broker, store, fuse, this`entitled, this`left, this`script, this`worlds, this`moves, this`audit
      ensures Legal() && Continues("") && (old(Sound("") && Spared("")) ==> Sound("")) && (old(Locked("")) ==> Locked(""))
      ensures forall j | old(Spared(j)) :: RowKept(old(W()), W(), j)
      ensures Undisturbed(old(W()), served, "") && (raised <==> Raising(old(script)))
      ensures Quiet(old(script), 1) ==> !raised && served == old(W())
      ensures moves == waited + (if raised then [] else [Trader(RemoveRequest(symbol, ticket), reply)])
      ensures if raised then W() == served else Makes(served, Trader(RemoveRequest(symbol, ticket), reply), W())
      ensures "" in entitled <==> "" in old(entitled)
    {
      hide Unfolded, Core, Makes, Undisturbed, TicketsOk, Valid, DecideSend, Served, Legal, Sound, Locked, SentBy,
           Possible, After, Quiet, Spares, Clear, Single, Claimless, Raising;
      reply := NoResult;
      raised := Yield("");
      served, waited := W(), moves;
      if raised {
        return;
      }
      var answer := Serve(RemoveRequest(symbol, ticket));
      reply := answer;
      MadeKeepsRows(served, Trader(RemoveRequest(symbol, ticket), reply), W());
    }

    /** A fill of one OCO leg cancels its sibling: once, and only if the sibling still rests. No row is written: the
        call's own moves are the removal request or none. A raised read or removal is not tried again, since the
        sibling already counts as cancelled. The call belongs to no key: the empty one stands for none. */
    method OnFillDetected(filled: int, symbol: string)
        returns (sibling: Option<int>, removed: bool, raised: bool, ghost served: World, ghost reply: Reply,
                 ghost waited: seq<Move>)
      requires Legal()
      modifies broker, store, fuse, this`entitled, this`left, this`script, this`worlds, this`moves, this`audit
      modifies this`ocoMap, this`ocoCancelled
      ensures Legal() && Continues("") && (old(Sound("") && Spared("")) ==> Sound("")) && (old(Locked("")) ==> Locked(""))
      ensures forall j | old(Spared(j)) :: RowKept(old(W()), W(), j)
      ensures sibling == if filled in old(ocoMap) && old(ocoMap)[filled] !in old(ocoCancelled) then Some(old(ocoMap)[filled])
                         else None
      ensures sibling.None? ==> ocoMap == old(ocoMap) - {filled} && ocoCancelled == old(ocoCancelled)
      ensures sibling.None? ==> W() == old(W()) && moves == old(moves) && !removed && !raised
      ensures sibling.Some? ==> ocoMap == old(ocoMap) - {filled} - {sibling.value}
      ensures sibling.Some? ==> ocoCancelled == old(ocoCancelled) + {sibling.value}
      ensures Undisturbed(old(W()), served, "")
      ensures removed ==> sibling.Some?
      ensures moves == waited + (if removed then [Trader(RemoveRequest(symbol, sibling.value), reply)] else [])
      ensures !removed ==> W() == served
      ensures removed ==> Makes(served, Trader(RemoveRequest(symbol, sibling.value), reply), W())
      ensures sibling.Some? && !removed && !raised ==>
                !(sibling.value in broker.orders && OnSymbol(broker.orders[sibling.value].symbol, Some(symbol)))
      ensures sibling.Some? && Raising(old(script)) ==> raised
      ensures removed ==> exists n :: |old(worlds)| - 1 <= n < |worlds| && Rests(worlds[n], sibling.value, symbol)
      ensures sibling.Some? && Quiet(old(script), 2) ==>
                !raised && served == old(W()) && (removed <==> Rests(old(W()), sibling.value, symbol))
      ensures "" in entitled <==> "" in old(entitled)
    {
      hide Core, Makes, Undisturbed, Legal, Sound, Locked, OnSymbol, Clear, Single, Spares, Claimless, Rests, Quiet, Raising;
      StillUndisturbed(W(), "");
      removed, raised, served, reply, waited := false, false, W(), NoResult, moves;
      sibling := if filled in ocoMap then Some(ocoMap[filled]) else None;
      ocoMap := ocoMap - {filled};
      if sibling.None? || sibling.value in ocoCancelled {
        sibling := None;
        return;
      }
      ocoMap := ocoMap - {sibling.value};
      ocoCancelled := ocoCancelled + {sibling.value};
      removed, raised, served, reply, waited := RemoveIfResting(sibling.value, symbol);
    }
  }
}
