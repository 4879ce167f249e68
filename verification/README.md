# Aegis Velocity: execution safety and its arithmetic, modelled in Dafny

Aegis Velocity is a trading desk. A strategy's signal becomes an armed intent with an idempotency key; the
execution engine claims the key, sends the order through a single-worker gateway, reads the return code, and
verifies, retries or reconciles; at startup the desk recovers its intent rows from what the broker shows. This
project models that core and proves what it keeps, and beside it the arithmetic that decides whether and how
big a trade may be.

## How it is built

The model follows the program's parts, one module each.

- **The broker.** `Market` has its books as a value and nine atomic acts; `Dealing` decides a request;
  `Simulator.SimClient` is the broker as a class that changes its maps in place and is proved against both.
  `Ticking`, `Accounting`, `Snapshots` and `Footprint` hold the laws of a tick, of equity, of listings, and of
  what one order comment leaves in the books.
- **The protocol.** `Intents` has the registry and the key encoding, `Orders` the retry remedies, `Retcodes` the
  policy table. `World` is the whole desk as one state machine; its theorem is that one key never has more than
  one effect, over every interleaving. `Rely` says what a call may rely on while others act, what makes a row
  true of the broker, and why no symbol is claimed twice. `Calls` and `Engine` are the engine: its methods loop over
  broker and store, and between any two of their gateway calls a script lets ticks arrive, other calls claim, pass
  the fuse, send and write, other traders trade, and the read itself raise. Every contract holds for every script.
  The others' writes need not be true and may put rows back in flight, and another call may cancel the running call's
  own order and mark its row; in the name of the running call's key they do nothing else, as only that call sends and
  resolves under it. `Fuse` and `Windows` bound the sends per minute, those of the other calls included. `Desk` makes
  engine calls one after another, any number of them, and draws the conclusions. `Fills` says what an order becomes at
  a broker that is ready for it: no scripted reply waits, its checks pass, and it fills in full within the deviation.
  A script is quiet for some calls if nobody moves before them and none raises.
- **The gateway.** `Gateway` is the priority queue with its one worker, as a transition system and as a class
  whose worker loop is a run of it.
- **Startup.** `Recovery` is the recovery of rows as a function of one snapshot, `Stops` the stop enforcement,
  `Reconcile` the imperative pass proved against both. `Sessions` puts moves and startups together: its theorems
  hold over every history of sessions, and `Sessions.CleanStart` says from where.
- **Arithmetic.** `Sizing`, `RateGuard`, `Stats`, `Ledger`, `Liquidity`, `Council`, `Backtest` and `LookAhead`;
  `Reals` has the small facts about products and quotients.

Prices and money are reals, volumes are whole steps of the symbol's grid, times are integers.

## The honesty assumption

A broker is honest if it acts behind an injected reply only when that reply is missing, TIMEOUT or CONNECTION, the
replies that the policy table maps to an unknown outcome. It may refuse, requote, lose replies and even claim a
success that did not happen. `Dealing.DishonestRequote` shows what breaks without it. An order whose caller stopped
waiting is an order with a lost reply: the engine model decides it at once, either it takes effect or it never does.
`Gateway.TimedOutSend` is why the caller's later reads, which have a lower priority, can rely on that: when they are
served the send has been served before them, and it never is again.

## Where code and description differ

The model follows the code.

- "Nothing is reported as filled unless verified" holds for FILLED. A partial fill is recorded as verified without
  a position lookup (`src/aegis_velocity/execution/engine.py:94-104`): a PARTIAL row with a ticket is a fill of the
  key, and a PARTIAL row without one never had an effect (`Calls.PartialSettles`).
- "Absent" means that the resolver saw nothing in one day of deals. A fill that is open no more and older than that
  is recorded as CANCELLED (`Recovery.EngineFindsNothing`).
- The order fuse is checked once per call and its count goes on inside the call, so calls that are running when it
  blows may still send: the minute then holds more than the cap (`Engine.ExecutionEngine.SendsPerMinute`).
- The storm fuse counts again when asked (`src/aegis_velocity/risk/guards.py:156-164`), but that count can never
  blow it: a recorded send would have done so first (`Fuse.StormFuse.Check`).
- The OCO backstop counts a sibling as cancelled before it reads or removes anything, so a raised read or removal
  is never tried again (`Engine.ExecutionEngine.OnFillDetected`).
- A "manual override" is any FILLED or PLACED row whose ticket is gone without a closing deal of ours in the last
  two days. A stop of our own that closed the position earlier than that is reported as an override as well
  (`Recovery.ClosedByUsWithinTwoDays`). So startup is not idempotent in time: a row that one startup leaves FILLED a
  later one cancels (`Reconcile.SecondStartup`, `Recovery.LaterStartupOverrides`).
- "One in-flight intent per symbol" needs that nobody cancels a pending order whose placing call still runs. Nothing
  in the code prevents it: `cancel_pending` marks the row CANCELLED, a new intent may claim the symbol, and the placing
  call then writes PLACED or UNKNOWN over the mark (`Calls.CancelledUnderneath`). Calls made one after another are
  spared that, and keep the lock (`Desk.MakeAll`); in general it holds if rows are written in order
  (`Rely.NoRevivalsMeansInOrder`), and write by write `Intents.WriteKeepsLock` is exact.
- Startup reads positions, orders and deals one after another. An order that triggers between the first two reads is
  in neither listing, and its row is marked CANCELLED as a manual override though its position is open
  (`Recovery.LeftBetweenReads`, `Recovery.TriggeredBetweenReads`).
- Startup marks a row PLACED when its order rests, whatever the row said. A row that was cancelled on a false DONE
  comes back in flight that way, even beside a later claim of the symbol (`Recovery.RecoveryKeepsLock`,
  `Recovery.RecoveryRevives`). A row left ARMED by a crash, with nothing shown, stays in flight and keeps its symbol
  locked (`Recovery.LeftInFlight`).
- A startup stop is reported as enforced whatever the reply to its request was; `Stops.StoppedAfterStartup` says
  when there really is one.
- Rate caps above 2000 never refuse (`RateGuard.TruncatedLogDecides`), and a symbol called "global" would share
  the global log.
- With validated configuration the council's quality floor rejects nothing but trades whose round-trip cost is
  zero or negative (`Council.QualityFloorReach`).
- Ledger verification alone does not see rows missing at the end; the remembered tip does (`Ledger.CutShort`,
  `Ledger.EqualTips`).
- "No look-ahead possible" holds for a walked strategy as long as the signals it looks at are settled. A resting
  order that later ticks decide holds up, or does not hold up, the signals after it (`LookAhead.WalkExactly`,
  `LookAhead.UnsettledOrderLooksAhead`).

## Model

| member | source | states |
|---|---|---|
| Dealing.HonestReply | src/aegis_velocity/mt5/sim.py:284-300 | From an honest broker an entry order has taken effect only if the reply is a success claim or an unknown outcome, so every reply the engine answers by sending again proves that nothing happened |
| Dealing.DishonestRequote | src/aegis_velocity/mt5/retcodes.py:80-111 | Honesty is needed: a broker that fills behind a requote has opened a position under a reply that the policy table answers with a retry |
| Dealing.SendActs | src/aegis_velocity/mt5/sim.py:284-334 | One request causes at most one change of the books, that change is possible when it happens, and only DEAL and PENDING requests let something enter, with the request's own terms |
| Dealing.FillWithinDeviation | src/aegis_velocity/mt5/sim.py:336-379 | Without injection a fill is within the requested deviation of the requested price, and a shortfall in volume is reported as a partial fill and as nothing else |
| Dealing.FillSide | src/aegis_velocity/mt5/sim.py:342-346 | A market buy that opens is filled at the ask, a sell at the bid, worse by exactly the slippage, which is nothing when none is set and never in the order's favour when it is not negative |
| Dealing.ChecksMean | src/aegis_velocity/mt5/sim.py:240-271 | Each refusal of the broker's checks in the order it makes them, and that they pass only for an entry of allowed volume and filling, with a quote, whose stop and target keep their distance from the ask of a buy, the bid of a sell or the level of a pending order, and that level from the quote |
| Dealing.PartialShare | src/aegis_velocity/mt5/sim.py:351-356 | An ordered partial fill takes its share of the volume to the nearest step, but at least the minimum |
| Retcodes.PolicyTable | src/aegis_velocity/mt5/retcodes.py:80-111 | The policy of every return code, by number; a missing result is an unknown outcome |
| Market.RunKeepsLaws | src/aegis_velocity/mt5/sim.py:393-457 | Over every sequence of broker acts: order and position tickets stay disjoint and already issued, each position's open volume is its IN minus OUT volume, no ticket opens twice, a position's deals share its comment, every position and deal goes back to an opening deal with its comment, and balance moves by exactly the profits and signed commissions of the deals |
| Market.ActKeepsTickets | src/aegis_velocity/mt5/sim.py:147-149 | Every act keeps tickets fresh, issued in order, and never shared by an order and a position |
| Market.ActKeepsDeals | src/aegis_velocity/mt5/sim.py:336-457 | Every act keeps deal tickets strictly increasing and no position ticket opened twice |
| Market.ActKeepsSourced | src/aegis_velocity/mt5/sim.py:336-457 | Every act keeps each position's and each deal's comment backed by an opening deal with that comment |
| Market.ActKeepsLabels | src/aegis_velocity/mt5/sim.py:336-457 | Every act keeps the deals of one position under one comment, the position's own while it is open |
| Market.ActKeepsVolumes | src/aegis_velocity/mt5/sim.py:393-413 | Every act keeps each position's volume equal to what its deals brought in less what they took out |
| Market.ActKeepsCash | src/aegis_velocity/mt5/sim.py:393-413 | Every act moves balance and booked cash flow by the same amount |
| Market.RunAppend | src/aegis_velocity/mt5/sim.py:115-137 | Sequences of acts compose: running two in a row is running their concatenation |
| Footprint.ActEffects | src/aegis_velocity/mt5/sim.py:302-465 | What each kind of act does to the number of effects (resting orders plus opening deals) under one order comment: a trigger keeps it, a cancel or expiry removes one, an entry adds one under its own comment only |
| Footprint.ActCalm | src/aegis_velocity/mt5/sim.py:302-465 | An act that does not enter under a comment never adds an order, an effect or a mis-tagged record under it |
| Footprint.ActTags | src/aegis_velocity/mt5/sim.py:302-465 | Everything that carries a comment keeps carrying the magic and symbol it entered with, and its deals stay dated from its send on |
| Footprint.ActOwned | src/aegis_velocity/mt5/sim.py:302-465 | A ticket that belongs to a comment stays its own whatever others do: nothing under that ticket ever carries another comment |
| Footprint.NoEffectsNothingShown | src/aegis_velocity/mt5/sim.py:479-492 | With no effect under a comment, no order, position or deal listing shows that comment |
| Simulator.SimClient.constructor | src/aegis_velocity/mt5/sim.py:68-105 | A fresh broker satisfies all ledger laws |
| Simulator.SimClient.OrderSend | src/aegis_velocity/mt5/sim.py:284-300 | The in-place broker decides every request, injected or not, exactly as the value specification does, and its new books are the result of the decided act |
| Simulator.SimClient.Execute | src/aegis_velocity/mt5/sim.py:302-334 | Each request kind changes the maps in place to exactly the specified next books, with the specified reply |
| Simulator.SimClient.ExecMarket | src/aegis_velocity/mt5/sim.py:336-379 | A market order closes the named opposite position, or requotes, or opens under two fresh tickets, as specified, and clears a used partial-fill instruction |
| Simulator.SimClient.TakeVolume | src/aegis_velocity/mt5/sim.py:352-360 | The filled volume, the partial-fill return code exactly when it falls short, and the instruction cleared once used |
| Simulator.SimClient.ClosePosition | src/aegis_velocity/mt5/sim.py:388-391 | A close takes at most the open volume, at the quote on the position's side, and fails when there is no quote |
| Simulator.SimClient.SettleClose | src/aegis_velocity/mt5/sim.py:393-413 | The whole next state of a full or partial close: one OUT deal, balance, and the position shrunk or gone |
| Simulator.SimClient.OpenPosition | src/aegis_velocity/mt5/sim.py:362-379 | The whole next state of an opening: position and IN deal under two consecutive fresh tickets |
| Simulator.SimClient.TriggerOrder | src/aegis_velocity/mt5/sim.py:417-444 | A touched order leaves and becomes a position under the same ticket at its own level, with its IN deal |
| Simulator.SimClient.ProcessTriggers | src/aegis_velocity/mt5/sim.py:417-444 | After the pass no resting order on the symbol is touched, others are untouched in both senses, and every order that left was triggered |
| Simulator.SimClient.ProcessStops | src/aegis_velocity/mt5/sim.py:446-457 | After the pass no position on the symbol is at its stop or target, and every close was forced, whole, at the stop if the stop was reached and at the target otherwise |
| Simulator.SimClient.ProcessExpirations | src/aegis_velocity/mt5/sim.py:459-463 | After the pass no order anywhere is past its expiry and every order that left is listed as expired |
| Simulator.SimClient.PushTick | src/aegis_velocity/mt5/sim.py:115-137 | After every tick the book is quiescent: nothing on the symbol is touched, stopped or targeted, nothing anywhere is expired, each order that left was triggered under its own ticket or listed as expired; cash flow still explains the balance; an unknown symbol raises and changes nothing; in quotes, a resting buy order is clear of the ask and a sell order of the bid, and every open position is strictly between its stop and its target at the side it is closed at |
| Ticking.TickSettles | src/aegis_velocity/mt5/sim.py:115-137 | Quote, triggers, forced closes and expiries in that order form one run that ends quiescent, positions opened by the same tick included |
| Ticking.TriggersAtLevel | src/aegis_velocity/mt5/sim.py:417-444 | An order triggers only when the ask (for a buy) or the bid (for a sell) has reached its level, and becomes a position of its own side, volume, price, stop and target |
| Ticking.ClosesAtLevel | src/aegis_velocity/mt5/sim.py:446-457 | A tick closes a position only at its stop or target, reached by the bid of a buy or the ask of a sell, and at the stop when both are |
| Simulator.SimClient.AccountEquity | src/aegis_velocity/mt5/sim.py:166-171 | The account's equity is the balance plus all floating profits, whatever order the positions are summed in |
| Accounting.CloseAtQuoteCostsCommission | src/aegis_velocity/mt5/sim.py:381-413 | A full or partial close at the quote changes equity by exactly minus its commission |
| Accounting.ThereAndBack | src/aegis_velocity/mt5/sim.py:336-413 | Opening at the market and closing all of it at the unmoved quote loses the spread and the slippage of the entry, at the tick value of losses, and two commissions, and leaves the positions as they were |
| Accounting.CloseEarns | src/aegis_velocity/mt5/sim.py:393-413 | A buy closed higher earns its ticks at the tick value and closed lower loses them at the tick value of losses, a sell the other way round, less the commission |
| Accounting.ProfitMeans | src/aegis_velocity/mt5/sim.py:212-220 | The same of the profit calculation itself, for every side and price |
| Accounting.DealSays | src/aegis_velocity/mt5/sim.py:362-413 | The deal of an entry, a trigger or a close has the side, volume, price, profit, comment, magic and time of what happened, a close on the opposite side, and the balance moves by its profit and commission |
| Accounting.ChangeMeans | src/aegis_velocity/mt5/sim.py:313-328 | A modify request changes just the nonzero ones of price, stop and target of its order; a stop request sets both legs of its position, zero taking one away; nothing else changes or is booked |
| Accounting.FloatingChange | src/aegis_velocity/mt5/sim.py:467-473 | Changing one position changes total floating profit by that position's change alone |
| Accounting.ProfitIsAdditive | src/aegis_velocity/mt5/sim.py:212-220 | Profit of two part volumes is the profit of their sum |
| Simulator.SimClient.PositionsGet | src/aegis_velocity/mt5/sim.py:479-486 | Exactly the open positions of the symbol, each once, by ascending ticket |
| Simulator.SimClient.OrdersGet | src/aegis_velocity/mt5/sim.py:487-489 | Exactly the resting orders of the symbol, each once, by ascending ticket |
| Simulator.SimClient.HistoryDealsGet | src/aegis_velocity/mt5/sim.py:491-492 | Exactly the deals dated within the closed window, in order |
| Snapshots.DealsWithinMembers | src/aegis_velocity/mt5/sim.py:491-492 | A deal is listed if and only if it happened and lies in the window |
| Simulator.SimClient.SymbolInfoTick | src/aegis_velocity/mt5/sim.py:196-199 | A quote only for a selected symbol that has one |
| Simulator.SimClient.Inject | src/aegis_velocity/mt5/sim.py:108-110 | A scripted reply goes to the end of the queue |
| Intents.KeyRoundTrip | src/aegis_velocity/execution/idempotency.py:41-48 | A key survives the trip through an order comment if and only if it has 1 to 12 characters |
| Intents.MagicRoundTrip | src/aegis_velocity/execution/idempotency.py:35-38 | A magic keeps its prefix if and only if ordinal and version fit five digits; two-digit versions keep different strategies and versions apart |
| Intents.CommentsAreInjective | src/aegis_velocity/execution/idempotency.py:41-42 | Different keys have different comments, and all are recognised as ours |
| Intents.IntentStore.TryClaim | src/aegis_velocity/execution/idempotency.py:87-124 | A claim succeeds if and only if the key is new and no in-flight row blocks the symbol outside the same non-empty OCO group; a refused claim changes nothing |
| Intents.IntentStore.SetState | src/aegis_velocity/execution/idempotency.py:126-138 | The update touches the key's row only; ticket and volume are written only when one of them is nonzero; an unknown key changes nothing |
| Intents.ClaimKeepsLock | src/aegis_velocity/execution/idempotency.py:87-124 | A successful claim keeps any two in-flight rows of one symbol in one non-empty OCO group |
| Intents.WriteKeepsLock | src/aegis_velocity/execution/idempotency.py:126-138 | A write keeps that lock if and only if it puts no finished row back in flight, or every other in-flight row on the symbol is a leg of its non-empty OCO group |
| Intents.RevivalBreaksLock | src/aegis_velocity/execution/idempotency.py:126-138 | And the exception is real: reviving a finished row beside a foreign in-flight row breaks the lock |
| Orders.BuildMarketRequest | src/aegis_velocity/execution/intents.py:67-98 | A built market request is well-formed for its intent: own symbol, own key in the comment, no position to close |
| Orders.BuiltAims | src/aegis_velocity/execution/intents.py:67-98 | It is priced at the ask for a buy and the bid for a sell, and its stop and target are the signal's distances away on the right sides, all to half a tick |
| Orders.WithRefreshedPrice | src/aegis_velocity/execution/intents.py:40-64 | A refreshed retry is the same order: nothing but price, stop and target may differ, and a pending intent is not changed at all |
| Orders.RefreshAims | src/aegis_velocity/execution/intents.py:40-64 | The retry is priced at the fresh quote and keeps the signal's stop and target distances from it, to half a tick |
| Orders.RemedyCures | src/aegis_velocity/execution/engine.py:112-143 | What a reply lets the next market request change: after a requote or a plain rejection price, stop and target, aimed from one quote at the signal's distances; after INVALID_STOPS the too near legs alone; after INVALID_FILL the filling alone, to another supported mode; after any other reply there is no next request |
| Orders.RemedyIncurable | src/aegis_velocity/execution/engine.py:112-143 | A remedy is not to be had only without a quote, with both legs far enough already or where they would go, or with no further supported filling mode |
| Orders.LinkIsSame | src/aegis_velocity/execution/engine.py:71-143 | Over a whole chain of retries symbol, side, volume, magic, comment and deviation stay those of the armed request |
| Orders.WidenStops | src/aegis_velocity/execution/engine.py:353-367 | A leg nearer than the broker allows goes to the minimum distance on its own side, to half a tick; any other leg, the price and the filling stay; None if and only if that changes nothing |
| Orders.WidenedStopsPass | src/aegis_velocity/execution/engine.py:353-367 | One widening suffices: with the quote unmoved and a tick of at most two points, grid rounding included, the broker does not answer INVALID_STOPS to the widened request |
| Orders.LadderClimbs | src/aegis_velocity/execution/intents.py:132-142 | From any mode, supported or not, the filling ladder offers supported modes only, never returns to a mode it left, and ends after at most two climbs; from an unsupported mode it offers one if and only if the symbol supports any; from a supported mode it is the next supported one in the order FOK, IOC, RETURN, and None if and only if there is none |
| World.ExactlyOnce | src/aegis_velocity/execution/engine.py:61-217 | In every state of every interleaving of claims, sends, retries, lost or false replies, state writes, other traders and broker activity, resting orders plus opening deals under one key never exceed one |
| World.MoveKeepsCore | src/aegis_velocity/execution/engine.py:61-217 | Each single move keeps it: no effect before the claim, none while the call may still send, at most one after |
| World.ClaimedOnce | src/aegis_velocity/execution/idempotency.py:87-124 | Over every run each key is accepted at most once |
| Rely.LockStays | src/aegis_velocity/execution/idempotency.py:87-138 | THE SYMBOL LOCK. Over every run whose state writes put no finished row back in flight, true or not, any two in-flight rows on one symbol are legs of one non-empty OCO group; Intents.RevivalBreaksLock shows that the condition is needed |
| Rely.MoveKeepsLock | src/aegis_velocity/execution/idempotency.py:87-138 | A single claim, write, send or broker move keeps that lock if and only if it is no write that revives a finished row beside a foreign in-flight one |
| Rely.NoRevivalsMeansInOrder | src/aegis_velocity/execution/idempotency.py:126-138 | Over every run no write revives a row if and only if each row is written in order: no in-flight state after a finished one, none at all into a row finished at the start |
| Rely.RowStaysTrue | src/aegis_velocity/execution/engine.py:91-113 | Over every run the row of a key whose own writes were truthful stays true of the broker, whatever is written into other rows: FILLED has an opening deal, REJECTED never had an effect, a finished row leaves nothing resting, a recorded ticket is the key's own |
| Rely.PeerMove | src/aegis_velocity/execution/engine.py:61-345 | No move of anyone else adds an effect under a key, or gives or takes its right to send; nor does it change the key's row, but for the CANCELLED that a finished cancel writes |
| Rely.SendMeans | src/aegis_velocity/execution/engine.py:76-111 | What a reply says about the send: a retriable reply means no effect; a market order leaves nothing resting; a placement that is neither confirmed nor unknown means no effect |
| Rely.SendBooked | src/aegis_velocity/execution/engine.py:76-90 | What an answered order's ticket stands for: the order's own effect with the replied volume, or no ticket, and then a claimed success did not happen |
| Rely.PositionOwned | src/aegis_velocity/execution/engine.py:272-283 | The ticket of an open position under a key is the key's own |
| Rely.DealOwned | src/aegis_velocity/execution/engine.py:299-308 | So is the position id of a deal under the key |
| Rely.OrderOwned | src/aegis_velocity/execution/engine.py:283-292 | So is the ticket of a resting order under the key |
| Rely.SendTags | src/aegis_velocity/execution/engine.py:76-90 | Whatever carries the key after its first send has the request's magic and symbol and is dated from that send |
| Rely.OrderUnseen | src/aegis_velocity/execution/engine.py:283-292 | A symbol listing without the key's comment and magic means no order of the key rests anywhere |
| Rely.DealUnseen | src/aegis_velocity/execution/engine.py:293-308 | Deals of a window that covers the call without the key's comment and magic mean the key never opened anything |
| Calls.AbsentIsCancelled | src/aegis_velocity/execution/engine.py:309-316 | Nothing resting and no deal of the last day: then there never was an effect, unless the call has run for more than a day and the key's deal is older than that |
| Calls.BelievedClaim | src/aegis_velocity/execution/engine.py:320-345 | A success claim believed because a position of the key is open names a ticket and volume that are a deal of the key |
| Calls.PlacementUnseen | src/aegis_velocity/execution/engine.py:203-209 | A claimed placement whose ticket is not listed on the symbol leaves nothing of the key resting |
| Calls.RemovalRemoves | src/aegis_velocity/mt5/sim.py:329-333 | With nothing injected a removal works if and only if the order was there and desk and symbol are open for trading |
| Calls.CancelledIsTrueWhen | src/aegis_velocity/execution/engine.py:219-233 | After a DONE reply to a removal CANCELLED is true of the broker if and only if nothing of the key rested before, or the removed ticket was the key's and the reply was not an injected one |
| Engine.ExecutionEngine.ExecuteMarket | src/aegis_velocity/execution/engine.py:61-179 | Whatever others do between its gateway calls, a cancel of its own key included: refused if and only if the key is not claimable, and then nothing changed; otherwise the row holds the returned state with a ticket and volume the broker shows for the key, that state is true of the broker, a PARTIAL row without a ticket had no effect, a CANCELLED row had none unless its deal is more than a day old, nothing is left UNKNOWN, at most 6 sends (3 if all replies are requotes), each counted in the fuse, all the same order up to price, stops and filling, none when the fuse is blown, each once-only remedy at most once, halts and backoffs exactly what the last reply's policy asks, and an outcome that fits the last reply, never PLACED; and if nobody else cancels its row meanwhile, its writes are truthful and put no finished row back in flight; the first request sent is the armed one and each later one differs from the one before it as that one's reply allows; a call ends REJECTED on a reply with a remedy still affordable only if that remedy was not to be had; and on a quiet desk whose broker is ready for the order it is filled by one send under the row's ticket, as asked: side, volume, stop, target, magic and comment |
| Engine.ExecutionEngine.Pursue | src/aegis_velocity/execution/engine.py:65-179 | The retry loop terminates on every reply sequence within its send budget, sends nothing but the claimed order, and stops at the first reply without a remedy left; what it sends is the armed request first and then, reply by reply, what the reply lets change; it gives up on a remedy only when that is spent or not to be had; and with a ready broker and no one moving it sends once and the position is the one asked for |
| Engine.ExecutionEngine.Attempt | src/aegis_velocity/execution/engine.py:73-111 | One attempt counts one send, sends exactly the current request, and ends or names the one remedy the policy table and the remaining budget allow; a try is lost exactly when the send raises, and then it is the last |
| Engine.ExecutionEngine.AfterRefusal | src/aegis_velocity/execution/engine.py:115-179 | A refusal is followed by the policy's remedy if and only if budget and remedy exist, unless a read raised; otherwise the row is REJECTED and nothing of the key is at the broker |
| Engine.ExecutionEngine.Admit | src/aegis_velocity/execution/engine.py:61-71 | The claim and the fuse: refused, rejected by a blown fuse, or entitled to send |
| Engine.ExecutionEngine.PlacePending | src/aegis_velocity/execution/engine.py:183-217 | Whatever others do between its gateway calls, a cancel of its own key included: it sends exactly once unless the claim is refused or the fuse has blown, and sends the armed request, which is lost only when the send raises; the reply decides between PLACED or UNKNOWN, resolution, and REJECTED; PLACED only with the row's ticket resting under the key, UNKNOWN only with nothing of the key resting, REJECTED only when nothing took effect; on a quiet desk whose broker is ready for the order it is PLACED and rests as asked: kind, volume, price, stop, target, expiration, magic and comment; and if nobody else cancels its row meanwhile, its writes put no finished row back in flight |
| Engine.ExecutionEngine.VerifyPlaced | src/aegis_velocity/execution/engine.py:203-209 | Even if another call cancels the order before the read, a placement is PLACED with a returned ticket that rests under the key, and UNKNOWN only if nothing of the key rests; the read raising ends the call, and a listed ticket is recorded as it is |
| Engine.ExecutionEngine.SettlePending | src/aegis_velocity/execution/engine.py:201-217 | Confirmed, unknown and failed placements each end in a state that is true of the broker; which one is fixed by the reply |
| Engine.ExecutionEngine.ResolveUnknown | src/aegis_velocity/execution/engine.py:265-316 | Resolution with three separate reads, others acting between them: on a broker that stands still exactly the resolver's verdict; otherwise it sends nothing, ends FILLED only with the ticket and volume of a position or deal of the key, PLACED only with the ticket of its resting order, CANCELLED only if there never was an effect or the key's deal is more than a day old |
| Engine.ExecutionEngine.ResolveByOrders | src/aegis_velocity/execution/engine.py:283-292 | The order read: PLACED with the resting ticket, or proof that nothing rests before the deals decide |
| Engine.ExecutionEngine.ResolveByDeals | src/aegis_velocity/execution/engine.py:293-316 | The deal read: FILLED with a deal of the key, or CANCELLED |
| Engine.ExecutionEngine.VerifyAndRecord | src/aegis_velocity/execution/engine.py:320-345 | A success claim is FILLED only if a position with the intent's comment and magic is open, and then the recorded ticket and volume are a deal of the key; else it is resolved as unknown; when nobody moves, an open position of the intent is recorded with the replied ticket and volume |
| Engine.ExecutionEngine.Settle | src/aegis_velocity/execution/engine.py:91-111 | After a reply that may stand for an effect: verified, accepted as partial, or resolved, never rejected and never sent again |
| Engine.ExecutionEngine.Reject | src/aegis_velocity/execution/engine.py:446-465 | A row is REJECTED only when nothing at the broker carries its key |
| Engine.ExecutionEngine.Conclude | src/aegis_velocity/execution/engine.py:425-464 | A final state is written only if it is true of the broker at that moment, with a ticket of the key's own that the broker shows |
| Engine.ExecutionEngine.SendOrder | src/aegis_velocity/execution/engine.py:76-87 | One send, or a raise that counts as no reply; the reply fixes whether the call may send again |
| Engine.ExecutionEngine.SendCounted | src/aegis_velocity/execution/engine.py:74-87 | A send is counted in the fuse first; it reaches the broker as one move unless the call raises |
| Engine.ExecutionEngine.Yield | src/aegis_velocity/mt5/gateway.py:106-170 | Before a gateway call is served, the events that the script names happen one after another: ticks settle the books, others' possible moves are made, and nothing else |
| Engine.ExecutionEngine.PeerMoves | src/aegis_velocity/execution/engine.py:61-262 | A move of another call or trader is made whenever it is possible and the other's to make, and leaves this call undisturbed |
| Fills.ReadyOpens | src/aegis_velocity/mt5/sim.py:336-379 | A broker that is ready for a market order fills all of it under the replied ticket: symbol, side, volume, stop, target, magic and comment as asked |
| Fills.ReadyRests | src/aegis_velocity/mt5/sim.py:302-334 | A broker that is ready for a pending order lets it rest under the replied ticket with its kind, volume, price, stop, target, expiration, magic and comment |
| Engine.ExecutionEngine.Refresh | src/aegis_velocity/execution/engine.py:347-351 | The refreshed intent carries the quote of the read, None without one |
| Engine.ExecutionEngine.React | src/aegis_velocity/execution/engine.py:466-469 | A final refusal halts entries, halts trading, quarantines the strategy or backs off for as many seconds as attempts, as its policy asks, and does no more |
| Engine.ReactionsByCode | src/aegis_velocity/execution/engine.py:144-170 | By number: which return codes halt entries, which quarantines the strategy, and which backs off for as many seconds as tries; no other does any of it |
| Engine.ExecutionEngine.CancelPending | src/aegis_velocity/execution/engine.py:219-233 | One removal request; CANCELLED is written on DONE and on no other reply; nothing else of the key changes; the mark puts nothing back in flight, so the symbol lock survives even when it is false; only a raise keeps the request from being sent |
| Engine.ExecutionEngine.RegisterOco | src/aegis_velocity/execution/engine.py:237-239 | Each leg is the other's sibling |
| Engine.ExecutionEngine.OnFillDetected | src/aegis_velocity/execution/engine.py:241-261 | The sibling is removed at most once ever and only if it still rests on the symbol; a second notification changes nothing; the call's own moves are one removal request or none, and no row changes that nobody else writes; a raised read or removal is never tried again; when nobody moves, it is removed exactly when it rests |
| Engine.ExecutionEngine.TruthNow | src/aegis_velocity/execution/engine.py:61-345 | At any time, if a row started true and every write of it so far was truthful, it is true of the broker; Desk.MakeAll carries both conditions through whole sequences of calls |
| Engine.ExecutionEngine.LockNow | src/aegis_velocity/execution/idempotency.py:87-138 | At any time, if no write so far put a finished row back in flight, true or not what was written, no symbol is claimed by two intents outside one OCO group; Desk.MakeAll carries the condition through whole sequences of calls |
| Desk.MakeAll | src/aegis_velocity/execution/engine.py:61-262 | Any number of market entries, pending entries, cancels and fill notices, one after another in any order, while the broker ticks, others trade and reads raise: if nobody else writes rows, no symbol is claimed twice, and every row that began true and is not cancelled by a call is true of the broker; if nobody else claims either, any closed minute holds at most the cap of the fuse and five more sends; each call is answered, an entry being refused exactly when its key could not be claimed as it began |
| Desk.Make | src/aegis_velocity/execution/engine.py:61-262 | Each such call keeps the desk orderly: it writes no row but its own, puts none back in flight, continues the run, and ends with no call running if it began so; and answers it: an entry is refused or claims its key, a cancel marks the row on success, a fill notice retires the sibling |
| Calls.CancelledUnderneath | src/aegis_velocity/execution/engine.py:197-228 | When somebody does, the lock can break: a placed order is removed and its row marked CANCELLED before the placing call has read it back, a new intent claims the symbol, and the first call writes UNKNOWN; each write is true of the broker |
| Engine.ExecutionEngine.SendsPerMinute | src/aegis_velocity/execution/engine.py:65-76 | Every entry send of every call, overlapping calls included, was counted in the fuse first; and any closed minute holds at most the cap, or once the fuse has blown fewer than the cap plus six sends for each call that was running when it blew |
| Engine.ExecutionEngine.SendsPerMinuteAlone | src/aegis_velocity/execution/engine.py:65-76 | With calls that do not overlap any closed minute holds at most the cap and five more; Desk.MakeAll shows that calls made one after another meet the condition |
| Engine.ExecutionEngine.CountSend | src/aegis_velocity/execution/engine.py:73-76 | A counted send uses up one of the six its call may make, and the count that blows the fuse notes how many calls are running |
| Engine.OneMoreCounted | src/aegis_velocity/execution/engine.py:65-76 | The arithmetic of the bound: one more counted send keeps the sends past the blown fuse and those still possible below six for each running call |
| Engine.FindPosition | src/aegis_velocity/execution/engine.py:272-283 | The first listed position with this comment and magic, or proof there is none |
| Engine.FindOrder | src/aegis_velocity/execution/engine.py:283-292 | The first listed order with this comment and magic, or proof there is none |
| Engine.FindDeal | src/aegis_velocity/execution/engine.py:299-308 | The first listed deal with this comment and magic, or proof there is none |
| Fuse.StormFuse.RecordSend | src/aegis_velocity/risk/guards.py:149-154 | Over the whole history, pruned or not, no closed minute exceeds the cap by more than the sends recorded after the fuse blew; it blows exactly when the last minute holds the cap, and stays blown |
| Fuse.StormFuse.Check | src/aegis_velocity/risk/guards.py:156-164 | The fuse refuses if and only if it is blown: counting again at the check can never blow it |
| Fuse.StormFuse.Reset | src/aegis_velocity/risk/guards.py:166-168 | A reset forgets history and unblows the fuse |
| Reconcile.StartupReconcile | src/aegis_velocity/execution/reconcile.py:35-166 | Rows become exactly the recovered rows, stops are enforced as specified, and the report counts every listed ticket as matched or adopted, names each resolved unknown FILLED, PLACED or ABSENT, flags a row if and only if it is missing without our own closing deal, and pauses exactly the symbol and strategy of the flagged rows |
| Reconcile.ReadSnapshot | src/aegis_velocity/execution/reconcile.py:47-62 | Exactly the our-magic positions and orders and the two-day deals, by ascending ticket |
| Reconcile.ResolveUnknowns | src/aegis_velocity/execution/reconcile.py:65-80 | Every UNKNOWN row and no other gets its verdict |
| Reconcile.MatchPositions | src/aegis_velocity/execution/reconcile.py:82-117 | Every known key's row is marked with its last position, every other position adopted, every missing stop requested |
| Reconcile.MatchOrders | src/aegis_velocity/execution/reconcile.py:119-131 | Every known key's row is marked PLACED with its last order, every other order adopted |
| Reconcile.DetectOverrides | src/aegis_velocity/execution/reconcile.py:133-153 | Missing rows become FILLED with our own closing deal and CANCELLED and flagged without |
| Reconcile.EnforceStop | src/aegis_velocity/execution/reconcile.py:97-113 | One stop request at the fallback distance on the losing side, with the default point for an unknown symbol; Stops.StopOnLosingSide says where that is over the book |
| Recovery.NothingLeftUnknown | src/aegis_velocity/execution/reconcile.py:65-153 | After recovery no row is UNKNOWN, and every FILLED or PLACED row with a ticket has that ticket shown by the broker or closed by our own OUT deal |
| Recovery.LeftInFlight | src/aegis_velocity/execution/reconcile.py:65-153 | Exactly which rows startup leaves in flight, their symbols locked: those whose order is shown, those ARMED, CHECKED or SUBMITTED without a position, and those PLACED under no ticket or one that is shown |
| Recovery.ShownIsMarked | src/aegis_velocity/execution/reconcile.py:82-131 | A row the broker shows carries what is shown: a resting order's ticket and PLACED before an open position's ticket, volume and FILLED |
| Recovery.RecoveredAgain | src/aegis_velocity/execution/reconcile.py:35-153 | A second recovery from the same tickets and keys changes no row if and only if it still sees our own closing deal of every ticket that the first found closed |
| Reconcile.SecondStartup | src/aegis_velocity/execution/reconcile.py:47-153 | A second startup, at whatever time, on the broker the first one left changes no row if and only if one of our closing deals of each ticket found closed is dated from two days before to five minutes after the second startup |
| Recovery.LaterStartupOverrides | src/aegis_velocity/execution/reconcile.py:58-153 | The condition is real, on a broker state reached by one opening and one close of ours: the row stays FILLED at a startup one second later and is cancelled as a manual override at one two days later |
| Recovery.ClosedByUsWithinTwoDays | src/aegis_velocity/execution/reconcile.py:136-153 | A missing row is reported as a manual override if and only if no closing deal of ours lies within the two-day window, so an older close of our own is reported too |
| Recovery.LeftBetweenReads | src/aegis_velocity/execution/reconcile.py:47-153 | Startup reads positions, orders and deals one after another, and the broker may act in between: a PLACED row whose order rests at the first read stays PLACED if and only if it still rests at the second; otherwise it is FILLED with a closing deal of ours in the window, and without one CANCELLED as a manual override, open position or not |
| Recovery.TriggeredBetweenReads | src/aegis_velocity/execution/reconcile.py:47-153 | And that happens: an order that triggers between the first two reads leaves an open position and a row marked CANCELLED |
| Recovery.OrdersOnlyLeave | src/aegis_velocity/mt5/sim.py:115-137 | Between requests the broker only takes orders out of its books, unchanged until then |
| Recovery.VerdictsCompared | src/aegis_velocity/execution/reconcile.py:65-76 | On one snapshot of at most a day the engine's and the startup's verdicts differ if and only if the key shows a resting order and a deal but no position |
| Recovery.AgreeWithin | src/aegis_velocity/execution/reconcile.py:65-76 | Where a key has at most one effect, the two verdicts agree on one snapshot of at most a day |
| Sessions.VerdictsAgree | src/aegis_velocity/execution/reconcile.py:65-76 | In every state of every history of moves and startups from a desk in order, on one snapshot within a day of the key's claim, the engine's and the startup's verdicts agree |
| Recovery.EngineFindsNothing | src/aegis_velocity/execution/engine.py:265-316 | The engine takes an intent for one without effect if and only if nothing under its key rests or is open and every deal under it is more than a day old |
| Recovery.KeysAreComments | src/aegis_velocity/execution/reconcile.py:60-64 | Keys read back from comments find exactly what carries the key's comment |
| Recovery.RecoveryKeepsLock | src/aegis_velocity/execution/reconcile.py:65-153 | Recovery keeps the symbol lock if and only if it revives no finished row, whose order still rests, beside a row of the symbol that stays in flight outside its OCO group |
| Recovery.RecoveryRevives | src/aegis_velocity/execution/reconcile.py:119-131 | And it can: a row marked CANCELLED over an order that still rests comes back beside the intent that has claimed the symbol since |
| Recovery.RowRecoversTrue | src/aegis_velocity/execution/reconcile.py:65-153 | The recovered state of each traceable row is true of the broker, its ticket is the key's own, and it is in flight only if it was before |
| Sessions.StartupKeepsTruth | src/aegis_velocity/execution/reconcile.py:35-166 | Startup leaves a desk from which the next session can start: at most one effect per key, marks that can be read back, true rows, one claim per symbol, no running call and no UNKNOWN |
| Sessions.ExactlyOnceAcross | src/aegis_velocity/execution/reconcile.py:35-166 | EXACTLY ONCE, over sessions. In every state of every history of moves and startups, crashes and further sessions included, resting orders plus opening deals under one key never exceed one |
| Sessions.ClaimedOnceAcross | src/aegis_velocity/execution/idempotency.py:87-124 | No key is accepted twice, in one session or in two |
| Sessions.TrueAcross | src/aegis_velocity/execution/reconcile.py:65-153 | Over every history the row of a key whose own writes were truthful stays true of the broker, through every startup |
| Sessions.LockExactly | src/aegis_velocity/execution/reconcile.py:65-153 | THE SYMBOL LOCK, over sessions, exactly. Over every history no symbol is ever claimed twice if and only if none is at the start, no write revives a finished row beside a foreign in-flight one on its symbol, and no startup does, true or not what was written |
| Sessions.StepKeepsLock | src/aegis_velocity/execution/reconcile.py:65-153 | Each single step, move or startup, keeps the lock if and only if it fits |
| Sessions.TrueLockAcross | src/aegis_velocity/execution/reconcile.py:65-153 | In particular, when writes are truthful and revive nothing, every startup fits, all rows stay true and no symbol is claimed twice |
| Sessions.MarksStay | src/aegis_velocity/execution/idempotency.py:28-48 | Over every history whose claims draw keys of 1 to 12 characters and whose entries carry our magic prefix, every mark of ours at the broker is a claimed key and every order under one carries the prefix |
| Sessions.MarkedIsTraceable | src/aegis_velocity/execution/idempotency.py:41-48 | So startup reads every claimed key back from exactly its own marks |
| Sessions.TagsStay | src/aegis_velocity/execution/engine.py:76-90 | What carries a key carries the magic and symbol of its sends and is no older than a time at which the key was unclaimed, through every startup |
| Sessions.CleanStart | src/aegis_velocity/execution/idempotency.py:50-85 | A desk without rows, running calls and marks of ours at the broker satisfies everything these theorems start from |
| Sessions.Resume | src/aegis_velocity/execution/reconcile.py:35-166 | Startup followed by a new engine: the engine's contracts hold from the recovered desk on |
| Reconcile.MatchedOrAdopted | src/aegis_velocity/execution/reconcile.py:82-131 | A listed ticket is adopted if and only if its key is not a known one |
| Stops.SecureExactly | src/aegis_velocity/execution/reconcile.py:97-117 | Whatever replies are injected: each listed position without a stop uses up one, exactly those whose request takes effect get the fallback stop (the reply lets it, or with none left the desk), and nothing else changes |
| Stops.SecureQuiet | src/aegis_velocity/execution/reconcile.py:97-117 | With no injected reply waiting exactly the tradable positions without a stop get the fallback stop, and nothing else at the desk changes |
| Stops.SecureOnlyGuards | src/aegis_velocity/execution/reconcile.py:97-117 | Whatever replies are injected, stop enforcement changes at most the stop of a position that had none |
| Stops.StoppedAfterStartup | src/aegis_velocity/execution/reconcile.py:97-117 | Whatever replies are injected, a position has a stop afterwards if and only if it had one, or its own request takes effect and its fallback price is not the zero that means none; the i-th position without a stop meets the i-th reply |
| Stops.StopOnLosingSide | src/aegis_velocity/execution/reconcile.py:97-113 | After startup a bare position whose request takes effect has its stop the given points below the opening price of a buy and above that of a sell, all else unchanged; so with a positive distance no quote as good as the opening price hits it |
| Gateway.SendBeforeRead | src/aegis_velocity/mt5/gateway.py:118-170 | A job pushed before another and ranking before it is executed before it, once, across timeouts of its caller and any number of backoffs: an absent verdict is never followed by a late execution |
| Gateway.TimedOutSend | src/aegis_velocity/mt5/gateway.py:118-170 | A send whose caller stopped waiting and later made another call at the same or a lower priority: once that call has been executed, the send has been executed before it, and it never waits or is executed again |
| Gateway.RunKeepsOrder | src/aegis_velocity/mt5/gateway.py:118-170 | In every reachable state each pushed job is in exactly one place, and no job is taken or executed ahead of an earlier smaller one |
| Gateway.StepKeepsOrder | src/aegis_velocity/mt5/gateway.py:140-170 | Taking the least job, putting it back under backoff, executing and draining each keep that order |
| Gateway.StepKeepsPlaces | src/aegis_velocity/mt5/gateway.py:140-170 | Each step keeps every pushed job in exactly one of heap, hand, executed, dropped |
| Gateway.LaterCallRanksBehind | src/aegis_velocity/mt5/gateway.py:118-130 | A call made after a push ranks behind the pushed job unless its priority is higher |
| Gateway.ServedOrDropped | src/aegis_velocity/mt5/gateway.py:140-170 | A job pushed before the drain ends executed once or dropped, and which of the two never changes again |
| Gateway.Mt5Gateway.PopLeast | src/aegis_velocity/mt5/gateway.py:140-148 | The worker takes a job no waiting job ranks before |
| Gateway.Mt5Gateway.Finish | src/aegis_velocity/mt5/gateway.py:149-165 | The job in hand is put back if and only if a backoff lasts and it is no emergency; otherwise it is executed and counted |
| Gateway.Mt5Gateway.Allocate | src/aegis_velocity/mt5/gateway.py:118-125 | Each call draws a fresh number; a stopped gateway refuses |
| Gateway.Mt5Gateway.Push | src/aegis_velocity/mt5/gateway.py:126-128 | A pushed job waits in the heap |
| Gateway.Mt5Gateway.DrainAll | src/aegis_velocity/mt5/gateway.py:166-170 | Every job still waiting fails |
| Gateway.Mt5Gateway.Run | src/aegis_velocity/mt5/gateway.py:140-170 | For every schedule of callers the worker stays a run of the queue machine; each turn that begins with a waiting job and is not stopped takes exactly one job and executes or defers it; with nobody pushing or stopping, the waiting jobs are executed one a turn, least first, when no backoff lasts, and the emergencies among them whatever backoff lasts; and once stopped every job pushed before its end is executed or failed |
| Gateway.Mt5Gateway.Round | src/aegis_velocity/mt5/gateway.py:140-165 | One turn: the callers' pushes, stop and backoff take effect, and a waiting job is taken and executed or put back, exactly one if any waits |
| Gateway.Mt5Gateway.TakeOne | src/aegis_velocity/mt5/gateway.py:145-165 | The job taken is the least waiting one; it is put back exactly under a backoff that does not spare it |
| Gateway.EmergencyServed | src/aegis_velocity/mt5/gateway.py:149-165 | A turn that serves or puts back the least job brings the emergencies one nearer to none, backoff or not |
| RateGuard.TruncatedLogDecides | src/aegis_velocity/core/anchors.py:108-116 | Counting over the log cut to 2000 entries decides a cap as the full history does for every cap up to 2000, and never refuses for a larger one |
| Windows.TailCounts | src/aegis_velocity/core/anchors.py:108-116 | A sorted log cut to its last n entries counts right up to n |
| RateGuard.PersistedCounters.RecordEvent | src/aegis_velocity/core/anchors.py:108-112 | The log keeps the last 2000 events of the bucket |
| RateGuard.PersistedCounters.CountWithin | src/aegis_velocity/core/anchors.py:114-116 | The number of kept events at or after the cutoff |
| RateGuard.TradeRateGuard.Check | src/aegis_velocity/risk/guards.py:32-42 | The check over truncated logs passes if and only if the full history admits one more trade, with the hourly reason exactly when an hourly cap is reached and the daily one when only that cap is |
| RateGuard.TradeRateGuard.RecordTrade | src/aegis_velocity/risk/guards.py:28-30 | If each trade is recorded only right after a passing check, no closed hour or day ever exceeds its global or per-symbol cap |
| Sizing.SizePosition | src/aegis_velocity/risk/commander.py:94-189 | For every symbol, one whose minimum exceeds its maximum included, an accepted size is within the symbol's limits, loses at most budget (1.5 times for a canary) and hard cap up to a billionth of a step, agrees with the broker's loss within the 2 percent rule, keeps the margin floor, and outside canary is maximal; and every refusal names one of six reasons that is then really so: in particular it refuses a size only when the minimum volume overspends, and a loss or margin only when the broker's answer for some legal volume fails the rule |
| Sizing.ChooseLots | src/aegis_velocity/risk/commander.py:119-147 | The volume choice under budget, cap and limits with its maximality and the meaning of its refusals |
| Sizing.CheckBroker | src/aegis_velocity/risk/commander.py:149-189 | What passing the broker's loss and margin cross-checks guarantees |
| Sizing.FloorSpends | src/aegis_velocity/risk/commander.py:66-68 | Flooring with the nudge overspends by at most the nudge, and one more step would overspend the budget |
| Sizing.AgreementBounds | src/aegis_velocity/risk/commander.py:153-162 | Agreement within 2 percent bounds the broker's loss by the tick-math loss over 0.98 |
| Sizing.StopCostsThat | src/aegis_velocity/risk/commander.py:104-118 | The loss that sizing counts with is what the ledger books when the whole volume is closed at its stop |
| Sizing.AgreesWithinTwoPercent | src/aegis_velocity/risk/commander.py:149-162 | The broker agrees if and only if it answers both questions with a nonzero loss and tick mathematics is within two percent of it on either side |
| Sizing.MarginMeans | src/aegis_velocity/risk/commander.py:163-180 | The margin floor holds if and only if equity is at least the demanded percentage of old and new margin together |
| Stats.BenjaminiHochberg | src/aegis_velocity/audit/stats.py:105-115 | The survivors are the largest set of candidates significant at the level its own size allows, whatever order ties are ranked in |
| Stats.CutoffDiscovers | src/aegis_velocity/audit/stats.py:109-115 | The last rank within its threshold cuts off exactly that largest set |
| Stats.DiscoveriesGrow | src/aegis_velocity/audit/stats.py:105-115 | That set is unique and only grows with the level |
| Stats.MaxDrawdown | src/aegis_velocity/audit/stats.py:60-70 | One pass finds the maximum over all ordered pairs of steps of the fall between them, and a pair attains it |
| Stats.FallIsLost | src/aegis_velocity/audit/stats.py:60-70 | A fall between two steps is what the returns between them lose in total |
| Ledger.EqualTips | src/aegis_velocity/core/ledger.py:27-31 | Two verifying chains have the same tip if and only if they are equal row by row, so no edit, insertion, reorder or deletion keeps the tip |
| Ledger.HashesDiffer | src/aegis_velocity/core/ledger.py:58-72 | No hash occurs twice in a verifying chain, so the uniqueness constraint never refuses an append |
| Ledger.CutShort | src/aegis_velocity/core/ledger.py:120-137 | A chain cut short still verifies, but under another tip |
| Ledger.EditIsLocated | src/aegis_velocity/core/ledger.py:120-137 | Rewriting one row's facts breaks the chain at that row and at none before it |
| Ledger.Ledger.Append | src/aegis_velocity/core/ledger.py:82-117 | Appending adds one row, keeps the chain verifying if and only if it was, and its hash is new |
| Ledger.Ledger.Verify | src/aegis_velocity/core/ledger.py:120-137 | Accepts exactly the chained ledgers and otherwise counts the rows before the first that does not link |
| Liquidity.SpreadHistory.SpreadPercentile | src/aegis_velocity/cost/liquidity.py:63-71 | Asked at or after every recorded time, the pruned history answers as the full one would; None below thirty recent samples |
| Liquidity.SpreadHistory.Record | src/aegis_velocity/cost/liquidity.py:55-61 | Recording with in-place pruning keeps every bucket answering like its full history for all later queries; the new sample is kept last, no bucket begins with a lapsed one, and nothing is dropped from a small bucket without one |
| Liquidity.RecentOfRecent | src/aegis_velocity/cost/liquidity.py:60-67 | What a later cutoff keeps is kept by an earlier prune |
| Liquidity.PercentileIs | src/aegis_velocity/cost/liquidity.py:19-32 | The percentile does not depend on the order of the samples and only rises with the percentage |
| Liquidity.PercentileBetween | src/aegis_velocity/cost/liquidity.py:19-32 | It lies between the sorted value at the floor of its rank and the next one, and is the former where the rank is whole |
| Liquidity.PercentileInterpolates | src/aegis_velocity/cost/liquidity.py:19-32 | It is the lower neighbour plus the rank's fraction of the step to the upper one, the rank being the percentage of the way from the first place to the last |
| Liquidity.SortedIs | src/aegis_velocity/cost/liquidity.py:23 | Sorting is an ascending rearrangement |
| Council.QualityFloorReach | src/aegis_velocity/consensus/council.py:65-104 | Past all hard gates at positive cost the score is at least 0.33125, so under default floors the quality floor rejects if and only if the trade costs nothing and its remaining score is below 0.30 |
| Council.QualityFloorWitnesses | src/aegis_velocity/consensus/council.py:86-104 | Inputs that meet the bound, and inputs of no cost that the floor does reject |
| Council.Decide | src/aegis_velocity/consensus/council.py:49-104 | A failed gate rejects with its reasons at score zero; otherwise APPROVE, APPROVE_REDUCED, SHADOW_ONLY and REJECT each hold exactly between their floors, and QUALITY_FLOOR is the only other rejection |
| Council.QualityLost | src/aegis_velocity/consensus/council.py:86-95 | What the score loses from one: 0.35 shared over cost headroom up to eight times the cost, 0.30 over reliability, 0.20 over integrity up to 100, and 0.09 for slippage not in order |
| Council.QualityRises | src/aegis_velocity/consensus/council.py:86-95 | Better inputs never lower the score, and more reliability raises it |
| Council.CheckGates | src/aegis_velocity/consensus/council.py:65-84 | No reason is given if and only if the cost gate passes, integrity is at its floor, the tick at most half a second off, the signal at most 2 or, pending, 30 seconds old, and nothing conflicts, is in flight or quarantined, and the cost gate's reasons are all passed on |
| Council.EvaluateCost | src/aegis_velocity/cost/engine.py:119-193 | Fails exactly when the point has no positive value; passes if and only if target and net reward clear the demanded multiples, the spread is within its cap and within the liquidity window's threshold, which must be known, the session is open and no news blocks; a pass at positive cost has at least that multiple and a break-even win rate of at most 1/1.8; the multiple is target over cost, and the reasons are those of the tests that fail, in their order |
| Council.CostTests | src/aegis_velocity/cost/engine.py:127-181 | Each failed test adds its own reason and no other, and there is no reason exactly when all pass |
| Council.PaysAboveBreakeven | src/aegis_velocity/cost/engine.py:54-55 | Expected value after costs is positive exactly above the break-even win rate and zero exactly at it |
| Council.CandidatePays | src/aegis_velocity/cost/engine.py:137-143 | A candidate that wins its target less cost or loses its stop plus cost pays exactly above the break-even rate of its verdict |
| Council.CommissionEarnedBack | src/aegis_velocity/cost/engine.py:46-51 | The commission in points is the move that earns both sides' charge back, and there is none exactly when a tick is worth nothing or less |
| Backtest.NoLookAhead | src/aegis_velocity/backtest/tick_engine.py:100-184 | Replacing, adding or dropping ticks after the exit leaves a stopped, targeted or timed-out fill exactly as it was |
| Backtest.EndOfDataLooksAtTheLastTick | src/aegis_velocity/backtest/tick_engine.py:160-163 | A fill that runs to the end of the data exits at the last tick's quote |
| Backtest.EntryWaits | src/aegis_velocity/backtest/tick_engine.py:105-120 | Entry is never before decision plus truncated latency, a pending entry is at its level and within its time to live, and exit is never before entry; side and latency are the signal's and the draw's |
| Backtest.RBounds | src/aegis_velocity/backtest/tick_engine.py:122-169 | A trade that leaves on a later tick loses at most its stop and gains at most its target in R, and net R is gross R less the round-trip commission |
| Backtest.ExitIsFirst | src/aegis_velocity/backtest/tick_engine.py:136-163 | The exit is the first later tick that reaches stop, target or deadline, stop before target before time, and END_OF_DATA only when none does |
| Backtest.HeldNoLonger | src/aegis_velocity/backtest/tick_engine.py:132-163 | A time stop comes no sooner than the longest holding time after entry, 900 seconds by default, and no tick before an exit is later than that |
| Backtest.TouchSides | src/aegis_velocity/backtest/tick_engine.py:186-207 | Buy orders look at the stressed ask and sell orders at the stressed bid; the price comes up to buy stops and sell limits and down to sell stops and buy limits |
| Backtest.WiderTouches | src/aegis_velocity/backtest/tick_engine.py:86-92 | A wider stressed spread touches every stop order that a narrower one does, and no limit order that it does not |
| Backtest.StressScalesSpread | src/aegis_velocity/backtest/tick_engine.py:86-92 | Stress keeps the mid and multiplies the spread; from one upward it only worsens both quotes |
| Backtest.LastTickEntry | src/aegis_velocity/backtest/tick_engine.py:108-163 | Why a later tick is needed: a market entry on the last tick loses spread and slippage whatever its stop |
| Backtest.BisectFinds | src/aegis_velocity/backtest/tick_engine.py:94-95 | On a nondecreasing series the search finds the first tick at or after the time |
| Backtest.TickBacktester.RunSignal | src/aegis_velocity/backtest/tick_engine.py:100-184 | The imperative simulation gives exactly the specified fill, drawing one latency for a market entry and none for a pending one |
| Backtest.TickBacktester.FindEntry | src/aegis_velocity/backtest/tick_engine.py:105-120 | Where and at what price the signal enters, or that it never does |
| Backtest.TickBacktester.FindExit | src/aegis_velocity/backtest/tick_engine.py:122-163 | The first later tick that stops, targets or times out the trade, in that order of precedence |
| Backtest.TickBacktester.PendingTriggerIndex | src/aegis_velocity/backtest/tick_engine.py:186-207 | The first touch within the time to live, or none |
| Backtest.TickBacktester.RunStrategy | src/aegis_velocity/backtest/tick_engine.py:213-244 | The loop gives exactly the specified walk; fills never overlap on a nondecreasing series, signals seen equal fills plus untriggered, and each fill is what its own signal simulates to at a step of the walk |
| LookAhead.SettledExactly | src/aegis_velocity/backtest/tick_engine.py:100-207 | The outcome of a signal depends on no tick after the n-th if and only if by then it has stopped, reached its target or timed out, or is a resting order that has lapsed or that no quote touches |
| LookAhead.WalkExactly | src/aegis_velocity/backtest/tick_engine.py:213-244 | The steps of a walk that decide before a tick depend, step by step, on no tick after it if and only if every signal they look at is settled by that tick |
| LookAhead.TriedExactly | src/aegis_velocity/backtest/tick_engine.py:230-243 | What one step makes of its signals depends on no tick after the n-th if and only if every signal it looks at is settled by then |
| LookAhead.WalkNoLookAhead | src/aegis_velocity/backtest/tick_engine.py:213-244 | Two series that agree up to a tick, with the same draws, give the same first fills: those of all steps that look at signals settled by that tick |
| LookAhead.UnsettledOrderLooksAhead | src/aegis_velocity/backtest/tick_engine.py:230-243 | The walk does look ahead otherwise: a resting order that has not lapsed gives way to a signal that fills and leaves, and with one more tick it is the order that fills and the signal is never looked at |

## Left out

- Sockets, threads as such, SQLite, JSON files, journal syncing, log output, latency figures, ledger payload text
  and the record objects the engine writes: I/O or records only. The engine's ledger events are not part of the
  engine model.
- Floating-point rounding: reals for prices and money. The tolerances of 1e-12 on volumes, the check that a
  requested volume lies on the step grid, and the rounding to eight decimals in `floor_to_step` vanish with whole
  steps; `round_price` has no decimal-digit rounding.
- Hashes and the random generator: the row hash is any injective function that avoids the genesis hash, latencies
  are any stream in the drawn range, keys are any strings.
- Dishonest replies that hide an effect behind a retriable return code: excluded by the honesty assumption.
- Restarting a stopped gateway object, the tick pump, metrics, and real time inside the worker: the clock is an
  input of each round. A call that passes the stop test but pushes after the drain is never served; the model has
  it waiting in the heap.
- A second clock: the engine, the fuse and the resolver's window read the broker's server time; startup has its own.
- `reset` of the storm fuse while the engine runs, and clocks that run backwards: server time is monotone in the
  protocol model.
- Pending requests built from signals, order staleness tests, `order_check`, `order_calc_margin`, account login and
  bar history: single-pass code.
- Engine.ExecutionEngine.Conclude: a gateway read and the state write that follows it are one step. Another call that
  moves between the two can make "PLACED, and the order rests now" stale by the time it is written.
- Engine.ExecutionEngine.OnFillDetected: the keys under which others move while it waits are non-empty, as all keys are.
- Engine.ExecutionEngine.SendsPerMinute: a send is dated by its count in the fuse, as in the code; the broker gets it
  later.
- Engine.ExecutionEngine.CancelPending: keeps the record truthful only if no order of the key rests afterwards;
  Calls.CancelledIsTrueWhen says exactly when that is.
- Orders.WidenedStopsPass: one direction only, for a quote that has not moved and a tick of at most two points; with
  a moved quote the broker may refuse again and the engine then rejects.
- Reconcile.StartupReconcile: the broker does not move while startup reads and writes, no gateway call raises, and
  the clock is read once where the code reads it twice. Recovery.LeftBetweenReads says what becomes of a placed row
  when the broker does move between the reads.
- Simulator.SimClient.AccountEquity: equity alone; margin, margin level and the None of a disconnected client are not
  modelled.
- Simulator.SimClient.PositionsGet: the listed positions carry no floating profit; nothing modelled reads it from there.
- LookAhead.WalkNoLookAhead: one direction; the exact conditions are LookAhead.TriedExactly and LookAhead.WalkExactly.
- Stats.BenjaminiHochberg: for nonnegative p-values or a nonnegative level, which is what p-values and levels are.
- RateGuard.TradeRateGuard.RecordTrade: for timestamps that do not run backwards and symbols not called "global".
- Backtest.TickBacktester.RunStrategy: for a positive window and step; the original raises or misindexes otherwise.
- Council.EvaluateCost: the session check and the news calendar come in as their results, the liquidity window as its
  threshold, which Liquidity.SpreadHistory.SpreadPercentile computes.
- The other guards (loss velocity, cooldown, anti-churn, slippage breaker), the halt ladder, open-risk and
  correlation caps, promotion gates, strategies, the bridge server and the terminal-side expert advisor: mostly
  single-pass branching, timers and platform calls.
- `OrderStateMachine`: neither the engine nor the registry uses it.
