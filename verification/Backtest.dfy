/** The tick backtester: one signal against a tick series, and a strategy walked over the series. Ticks
    after the exit must not matter, and a walked strategy never holds two trades at once. */
module Backtest {
  import opened Protocol
  import opened Reals

  const DEFAULT_HOLD_S := 900
  const ORDER_TTL_MSC := 1800000

  /** `time` and `timeMsc` are the tick's two time stamps, both in milliseconds. */
  datatype SimTick = SimTick(time: int, timeMsc: int, bid: real, ask: real)

  type Ticks = seq<SimTick>

  datatype TradeSignal = TradeSignal(pending: bool, pendingType: Option<OrderKind>, side: Side, entryPrice: real,
                                     slPoints: int, tpPoints: int, maxHoldS: int)

  datatype Stress = Stress(spread: real, slippage: real, latency: real)

  datatype SettingsData = SettingsData(point: real, commissionPoints: real, stress: Stress)

  type Settings = s: SettingsData | s.point > 0.0 witness SettingsData(1.0, 0.0, Stress(1.0, 1.0, 1.0))

  datatype Reason = TP | SL | TIME_STOP | END_OF_DATA

  datatype Exit = Exit(index: nat, price: real, reason: Reason)

  datatype Entry = Entry(index: nat, price: real)

  datatype Fill = Fill(side: Side, entryTime: int, entryPrice: real, exitTime: int, exitPrice: real, reason: Reason,
                       latency: real, grossR: real, netR: real, costsPoints: real)

  // ------------------------------------------------------------------ pieces

  predicate Nondecreasing(ticks: Ticks)
  {
    forall i, j | 0 <= i <= j < |ticks| :: ticks[i].timeMsc <= ticks[j].timeMsc
  }

  function Quotes(stress: Stress, tick: SimTick): (real, real)
  {
    if stress.spread == 1.0 then (tick.bid, tick.ask)
    else
      var mid := (tick.bid + tick.ask) / 2.0;
      var half := (tick.ask - tick.bid) / 2.0 * stress.spread;
      (mid - half, mid + half)
  }

  /** The price a position of this side is closed at. */
  function Mark(stress: Stress, tick: SimTick, side: Side): real
  {
    if side.BUY? then Quotes(stress, tick).0 else Quotes(stress, tick).1
  }

  /** Stress keeps the mid and multiplies the spread, and so the distance of either quote from the mid. */
  lemma StressScalesSpread(stress: Stress, tick: SimTick)
    ensures var (bid, ask) := Quotes(stress, tick);
      && bid + ask == tick.bid + tick.ask
      && ask - bid == (tick.ask - tick.bid) * stress.spread
      && (stress.spread >= 1.0 && tick.bid <= tick.ask ==> bid <= tick.bid && tick.ask <= ask)
  {
    var d := tick.ask - tick.bid;
    Halves(d, stress.spread);
    if stress.spread >= 1.0 && tick.bid <= tick.ask {
      Scale(1.0, stress.spread, d);
    }
  }

  lemma Halves(d: real, k: real)
    ensures d / 2.0 * k + d / 2.0 * k == d * k && d * 1.0 == d
  {
    Distribute(d / 2.0, d / 2.0, k);
  }

  /** Truncation toward zero. */
  function Truncated(x: real): int { if x >= 0.0 then x.Floor else -((-x).Floor) }

  /** Truncation takes off less than one millisecond, and never changes the sign. */
  lemma TruncatesTowardZero(x: real)
    ensures var n := Truncated(x) as real;
      && -1.0 < x - n < 1.0 && (x >= 0.0 ==> 0.0 <= n <= x) && (x <= 0.0 ==> x <= n <= 0.0)
  {
  }

  /** Binary search between `lo` and `hi` for the leftmost place of a time. */
  function Bisect(ticks: Ticks, time: int, lo: nat, hi: nat): (n: nat)
    requires lo <= hi <= |ticks|
    ensures lo <= n <= hi
    decreases hi - lo
  {
    if lo == hi then lo
    else
      var mid := (lo + hi) / 2;
      if ticks[mid].timeMsc < time then Bisect(ticks, time, mid + 1, hi) else Bisect(ticks, time, lo, mid)
  }

  function FirstAtOrAfter(ticks: Ticks, time: int): (n: nat)
    ensures n <= |ticks|
  {
    Bisect(ticks, time, 0, |ticks|)
  }

  /** On a nondecreasing series the search finds the first tick at or after the time. */
  lemma {:induction false} BisectFinds(ticks: Ticks, time: int, lo: nat, hi: nat)
    requires Nondecreasing(ticks) && lo <= hi <= |ticks|
    requires (forall i | 0 <= i < lo :: ticks[i].timeMsc < time) && (forall i | hi <= i < |ticks| :: time <= ticks[i].timeMsc)
    ensures var n := Bisect(ticks, time, lo, hi);
      (forall i | 0 <= i < n :: ticks[i].timeMsc < time) && (forall i | n <= i < |ticks| :: time <= ticks[i].timeMsc)
    decreases hi - lo
  {
    if lo == hi {
    } else {
      var mid := (lo + hi) / 2;
      if ticks[mid].timeMsc < time {
        BisectFinds(ticks, time, mid + 1, hi);
      } else {
        BisectFinds(ticks, time, lo, mid);
      }
    }
  }

  predicate TouchedAt(stress: Stress, s: TradeSignal, tick: SimTick)
  {
    var (bid, ask) := Quotes(stress, tick);
    match s.pendingType
    case Some(BuyStop) => ask >= s.entryPrice
    case Some(SellStop) => bid <= s.entryPrice
    case Some(BuyLimit) => ask <= s.entryPrice
    case Some(SellLimit) => bid >= s.entryPrice
    case _ => false
  }

  /** Which quote touches which order: a buy order looks at the stressed ask, a sell order at the stressed bid, and the
      price has to come up to a buy stop or sell limit and down to a sell stop or buy limit. */
  lemma TouchSides(stress: Stress, s: TradeSignal, tick: SimTick)
    ensures var half := (tick.ask - tick.bid) * stress.spread / 2.0;
      var mid := (tick.bid + tick.ask) / 2.0;
      && (s.pendingType == Some(BuyStop) ==> (TouchedAt(stress, s, tick) <==> s.entryPrice <= mid + half))
      && (s.pendingType == Some(BuyLimit) ==> (TouchedAt(stress, s, tick) <==> mid + half <= s.entryPrice))
      && (s.pendingType == Some(SellStop) ==> (TouchedAt(stress, s, tick) <==> mid - half <= s.entryPrice))
      && (s.pendingType == Some(SellLimit) ==> (TouchedAt(stress, s, tick) <==> s.entryPrice <= mid - half))
      && (TouchedAt(stress, s, tick) ==> s.pendingType.Some? && s.pendingType.value.IsPending())
  {
    hide Quotes;
    StressScalesSpread(stress, tick);
  }

  /** A wider spread brings stop orders nearer and limit orders farther away. */
  lemma WiderTouches(stress: Stress, wider: Stress, s: TradeSignal, tick: SimTick)
    requires stress.spread <= wider.spread && tick.bid <= tick.ask && s.pendingType.Some?
    ensures s.pendingType.value.BuyStop? || s.pendingType.value.SellStop? ==>
              (TouchedAt(stress, s, tick) ==> TouchedAt(wider, s, tick))
    ensures s.pendingType.value.BuyLimit? || s.pendingType.value.SellLimit? ==>
              (TouchedAt(wider, s, tick) ==> TouchedAt(stress, s, tick))
  {
    hide Quotes;
    StressWidens(stress, wider, tick);
  }

  lemma StressWidens(stress: Stress, wider: Stress, tick: SimTick)
    requires stress.spread <= wider.spread && tick.bid <= tick.ask
    ensures Quotes(wider, tick).0 <= Quotes(stress, tick).0 && Quotes(stress, tick).1 <= Quotes(wider, tick).1
  {
    hide Quotes;
    StressScalesSpread(stress, tick);
    StressScalesSpread(wider, tick);
    Scale(stress.spread, wider.spread, tick.ask - tick.bid);
    Swapped(tick.ask - tick.bid, stress.spread);
    Swapped(tick.ask - tick.bid, wider.spread);
  }

  lemma Swapped(a: real, b: real)
    ensures a * b == b * a
  {
  }

  /** The first tick from `i` on that touches the order before its time to live ends. */
  function TriggerFrom(ticks: Ticks, stress: Stress, s: TradeSignal, ttl: int, i: nat): Option<nat>
    requires i <= |ticks|
    decreases |ticks| - i
  {
    if i == |ticks| || ticks[i].timeMsc > ttl then None
    else if TouchedAt(stress, s, ticks[i]) then Some(i)
    else TriggerFrom(ticks, stress, s, ttl, i + 1)
  }

  /** A market fill slips by one point, stressed. */
  function Slippage(cfg: Settings): real { cfg.point * cfg.stress.slippage }

  function EntryOf(ticks: Ticks, cfg: Settings, s: TradeSignal, decision: int, latency: real): Option<Entry>
  {
    if s.pending then
      var trigger := TriggerFrom(ticks, cfg.stress, s, decision + ORDER_TTL_MSC, FirstAtOrAfter(ticks, decision));
      if trigger.None? then None else Some(Entry(trigger.value, s.entryPrice))
    else
      var i := FirstAtOrAfter(ticks, decision + Truncated(latency));
      if i == |ticks| then None
      else
        var slip := Slippage(cfg);
        Some(Entry(i, Mark(cfg.stress, ticks[i], s.side.Opposite()) + s.side.Sign() * slip))
  }

  function StopPrice(cfg: Settings, s: TradeSignal, entry: real): real { entry - s.side.Sign() * (s.slPoints as real * cfg.point) }

  function TargetPrice(cfg: Settings, s: TradeSignal, entry: real): real { entry + s.side.Sign() * (s.tpPoints as real * cfg.point) }

  function Deadline(s: TradeSignal, entryTick: SimTick): int
  {
    entryTick.time + 1000 * (if s.maxHoldS != 0 then s.maxHoldS else DEFAULT_HOLD_S)
  }

  /** What a tick does to an open trade: stop before target before time. */
  function ExitAt(cfg: Settings, s: TradeSignal, entry: real, deadline: int, tick: SimTick): Option<(real, Reason)>
  {
    var mark := Mark(cfg.stress, tick, s.side);
    var sl, tp := StopPrice(cfg, s, entry), TargetPrice(cfg, s, entry);
    if (if s.side.BUY? then mark <= sl else mark >= sl) then Some((sl, SL))
    else if (if s.side.BUY? then mark >= tp else mark <= tp) then Some((tp, TP))
    else if tick.time >= deadline then Some((mark, TIME_STOP))
    else None
  }

  function ExitFrom(ticks: Ticks, cfg: Settings, s: TradeSignal, entry: real, deadline: int, i: nat): Exit
    requires 0 < i <= |ticks|
    decreases |ticks| - i
  {
    if i == |ticks| then Exit(|ticks| - 1, Mark(cfg.stress, ticks[|ticks| - 1], s.side), END_OF_DATA)
    else
      var x := ExitAt(cfg, s, entry, deadline, ticks[i]);
      if x.Some? then Exit(i, x.value.0, x.value.1) else ExitFrom(ticks, cfg, s, entry, deadline, i + 1)
  }

  function RiskPoints(s: TradeSignal): real { if s.slPoints != 0 then s.slPoints as real else 1.0 }

  function GrossPoints(cfg: Settings, side: Side, entry: real, exit: real): real
  {
    (exit - entry) / cfg.point * side.Sign()
  }

  function Settle(ticks: Ticks, cfg: Settings, s: TradeSignal, e: Entry, latency: real): (Fill, nat)
    requires e.index < |ticks|
  {
    var x := ExitFrom(ticks, cfg, s, e.price, Deadline(s, ticks[e.index]), e.index + 1);
    ExitInRange(ticks, cfg, s, e.price, Deadline(s, ticks[e.index]), e.index + 1);
    var gross := GrossPoints(cfg, s.side, e.price, x.price);
    var costs := 2.0 * cfg.commissionPoints;
    (Fill(s.side, ticks[e.index].timeMsc, e.price, ticks[x.index].timeMsc, x.price, x.reason,
          if s.pending then 0.0 else latency, gross / RiskPoints(s), (gross - costs) / RiskPoints(s), costs),
     x.index)
  }

  /** One signal end to end: the fill with the index of its exit tick, or None if never triggered. */
  function Simulate(ticks: Ticks, cfg: Settings, s: TradeSignal, decision: int, latency: real): Option<(Fill, nat)>
  {
    EntryInRange(ticks, cfg, s, decision, latency);
    var e := EntryOf(ticks, cfg, s, decision, latency);
    if e.None? then None else Some(Settle(ticks, cfg, s, e.value, latency))
  }

  /** The fill of one signal, or None if it never triggers. */
  function Outcome(ticks: Ticks, cfg: Settings, s: TradeSignal, decision: int, latency: real): Option<Fill>
  {
    var r := Simulate(ticks, cfg, s, decision, latency);
    if r.Some? then Some(r.value.0) else None
  }

  lemma {:induction false} ExitInRange(ticks: Ticks, cfg: Settings, s: TradeSignal, entry: real, deadline: int, i: nat)
    requires 0 < i <= |ticks|
    ensures var x := ExitFrom(ticks, cfg, s, entry, deadline, i);
      && i - 1 <= x.index < |ticks|
      && (x.reason.END_OF_DATA? ==> x.index == |ticks| - 1)
      && (!x.reason.END_OF_DATA? ==> i <= x.index)
    decreases |ticks| - i
  {
    if i == |ticks| {
    } else if ExitAt(cfg, s, entry, deadline, ticks[i]).None? {
      ExitInRange(ticks, cfg, s, entry, deadline, i + 1);
    }
  }

  lemma {:induction false} TriggerInRange(ticks: Ticks, stress: Stress, s: TradeSignal, ttl: int, i: nat)
    requires i <= |ticks|
    ensures var t := TriggerFrom(ticks, stress, s, ttl, i);
      t.Some? ==> i <= t.value < |ticks| && ticks[t.value].timeMsc <= ttl && TouchedAt(stress, s, ticks[t.value])
    decreases |ticks| - i
  {
    if i == |ticks| {
    } else if ticks[i].timeMsc <= ttl && !TouchedAt(stress, s, ticks[i]) {
      TriggerInRange(ticks, stress, s, ttl, i + 1);
    }
  }

  lemma EntryInRange(ticks: Ticks, cfg: Settings, s: TradeSignal, decision: int, latency: real)
    ensures var e := EntryOf(ticks, cfg, s, decision, latency); e.Some? ==> e.value.index < |ticks|
  {
    TriggerInRange(ticks, cfg.stress, s, decision + ORDER_TTL_MSC, FirstAtOrAfter(ticks, decision));
  }

  // ---------------------------------------------------------------- theorems

  /** The two series agree up to and including tick `n`. */
  predicate Agree(ticks: Ticks, ticks': Ticks, n: nat)
  {
    n < |ticks| && n < |ticks'| && forall i | 0 <= i <= n :: ticks[i] == ticks'[i]
  }

  lemma FirstAgrees(ticks: Ticks, ticks': Ticks, n: nat, time: int)
    requires Nondecreasing(ticks) && Nondecreasing(ticks') && Agree(ticks, ticks', n) && FirstAtOrAfter(ticks, time) <= n
    ensures FirstAtOrAfter(ticks', time) == FirstAtOrAfter(ticks, time)
  {
    BisectFinds(ticks, time, 0, |ticks|);
    BisectFinds(ticks', time, 0, |ticks'|);
    var m, m' := FirstAtOrAfter(ticks, time), FirstAtOrAfter(ticks', time);
    var earlier := Min(m', n);
    assert ticks'[earlier] == ticks[earlier] && ticks'[m] == ticks[m];
  }

  lemma {:induction false} TriggerAgrees(ticks: Ticks, ticks': Ticks, n: nat, stress: Stress, s: TradeSignal, ttl: int, i: nat)
    requires Agree(ticks, ticks', n) && i <= n
    requires TriggerFrom(ticks, stress, s, ttl, i).Some? && TriggerFrom(ticks, stress, s, ttl, i).value <= n
    ensures TriggerFrom(ticks', stress, s, ttl, i) == TriggerFrom(ticks, stress, s, ttl, i)
    decreases n - i
  {
    if ticks[i].timeMsc > ttl || TouchedAt(stress, s, ticks[i]) {
    } else {
      TriggerInRange(ticks, stress, s, ttl, i + 1);
      TriggerAgrees(ticks, ticks', n, stress, s, ttl, i + 1);
    }
  }

  lemma EntryAgrees(ticks: Ticks, ticks': Ticks, n: nat, cfg: Settings, s: TradeSignal, decision: int, latency: real)
    requires Nondecreasing(ticks) && Nondecreasing(ticks') && Agree(ticks, ticks', n)
    requires EntryOf(ticks, cfg, s, decision, latency).Some? && EntryOf(ticks, cfg, s, decision, latency).value.index <= n
    ensures EntryOf(ticks', cfg, s, decision, latency) == EntryOf(ticks, cfg, s, decision, latency)
  {
    if s.pending {
      var ttl := decision + ORDER_TTL_MSC;
      var i := FirstAtOrAfter(ticks, decision);
      TriggerInRange(ticks, cfg.stress, s, ttl, i);
      FirstAgrees(ticks, ticks', n, decision);
      TriggerAgrees(ticks, ticks', n, cfg.stress, s, ttl, i);
    } else {
      FirstAgrees(ticks, ticks', n, decision + Truncated(latency));
    }
  }

  lemma {:induction false} ExitAgrees(ticks: Ticks, ticks': Ticks, n: nat, cfg: Settings, s: TradeSignal, entry: real,
                                         deadline: int, i: nat)
    requires Agree(ticks, ticks', n) && 0 < i <= n
    requires ExitFrom(ticks, cfg, s, entry, deadline, i).index == n
    requires !ExitFrom(ticks, cfg, s, entry, deadline, i).reason.END_OF_DATA?
    ensures ExitFrom(ticks', cfg, s, entry, deadline, i) == ExitFrom(ticks, cfg, s, entry, deadline, i)
    decreases n - i
  {
    if ExitAt(cfg, s, entry, deadline, ticks[i]).Some? {
    } else {
      ExitInRange(ticks, cfg, s, entry, deadline, i + 1);
      ExitAgrees(ticks, ticks', n, cfg, s, entry, deadline, i + 1);
    }
  }

  /** NO LOOK-AHEAD. Replacing, adding or dropping ticks after the exit tick leaves a stopped, targeted or
      timed-out fill exactly as it was. */
  lemma NoLookAhead(ticks: Ticks, ticks': Ticks, n: nat, cfg: Settings, s: TradeSignal, decision: int, latency: real)
    requires Nondecreasing(ticks) && Nondecreasing(ticks') && Agree(ticks, ticks', n)
    requires Simulate(ticks, cfg, s, decision, latency).Some?
    requires Simulate(ticks, cfg, s, decision, latency).value.1 == n
    requires !Simulate(ticks, cfg, s, decision, latency).value.0.reason.END_OF_DATA?
    ensures Simulate(ticks', cfg, s, decision, latency) == Simulate(ticks, cfg, s, decision, latency)
  {
    hide EntryOf, ExitAt;
    EntryInRange(ticks, cfg, s, decision, latency);
    var e := EntryOf(ticks, cfg, s, decision, latency).value;
    var deadline := Deadline(s, ticks[e.index]);
    ExitInRange(ticks, cfg, s, e.price, deadline, e.index + 1);
    EntryAgrees(ticks, ticks', n, cfg, s, decision, latency);
    assert ticks'[e.index] == ticks[e.index];
    ExitAgrees(ticks, ticks', n, cfg, s, e.price, deadline, e.index + 1);
    assert ticks'[n] == ticks[n];
  }

  /** The other fills do look at the end of the series: they are closed at the last tick's quote. */
  lemma EndOfDataLooksAtTheLastTick(ticks: Ticks, cfg: Settings, s: TradeSignal, decision: int, latency: real)
    requires Simulate(ticks, cfg, s, decision, latency).Some?
    requires Simulate(ticks, cfg, s, decision, latency).value.0.reason.END_OF_DATA?
    ensures var (fill, n) := Simulate(ticks, cfg, s, decision, latency).value;
      n == |ticks| - 1 && fill.exitPrice == Mark(cfg.stress, ticks[n], s.side)
  {
    EntryInRange(ticks, cfg, s, decision, latency);
    var e := EntryOf(ticks, cfg, s, decision, latency).value;
    EndMarks(ticks, cfg, s, e.price, Deadline(s, ticks[e.index]), e.index + 1);
  }

  lemma {:induction false} EndMarks(ticks: Ticks, cfg: Settings, s: TradeSignal, entry: real, deadline: int, i: nat)
    requires 0 < i <= |ticks|
    ensures var x := ExitFrom(ticks, cfg, s, entry, deadline, i);
      x.reason.END_OF_DATA? ==> x == Exit(|ticks| - 1, Mark(cfg.stress, ticks[|ticks| - 1], s.side), END_OF_DATA)
    decreases |ticks| - i
  {
    if i == |ticks| {
    } else if ExitAt(cfg, s, entry, deadline, ticks[i]).None? {
      EndMarks(ticks, cfg, s, entry, deadline, i + 1);
    }
  }

  /** A trade is never entered before the decision plus the truncated latency, a pending one never after
      its time to live, and is not closed before it is entered. */
  lemma EntryWaits(ticks: Ticks, cfg: Settings, s: TradeSignal, decision: int, latency: real)
    requires Nondecreasing(ticks) && Simulate(ticks, cfg, s, decision, latency).Some?
    ensures var fill := Simulate(ticks, cfg, s, decision, latency).value.0;
      && fill.entryTime >= decision + (if s.pending then 0 else Truncated(latency))
      && (s.pending ==> fill.entryTime <= decision + ORDER_TTL_MSC && fill.entryPrice == s.entryPrice)
      && fill.entryTime <= fill.exitTime
      && fill.side == s.side && fill.latency == (if s.pending then 0.0 else latency)
  {
    hide ExitAt, EntryOf, Truncated, Nondecreasing, ExitFrom;
    EntryInRange(ticks, cfg, s, decision, latency);
    var e := EntryOf(ticks, cfg, s, decision, latency).value;
    EntryTime(ticks, cfg, s, decision, latency);
    var deadline := Deadline(s, ticks[e.index]);
    ExitInRange(ticks, cfg, s, e.price, deadline, e.index + 1);
    InOrder(ticks, e.index, ExitFrom(ticks, cfg, s, e.price, deadline, e.index + 1).index);
  }

  lemma InOrder(ticks: Ticks, i: nat, j: nat)
    requires Nondecreasing(ticks) && i <= j < |ticks|
    ensures ticks[i].timeMsc <= ticks[j].timeMsc
  {
  }

  lemma EntryTime(ticks: Ticks, cfg: Settings, s: TradeSignal, decision: int, latency: real)
    requires Nondecreasing(ticks) && EntryOf(ticks, cfg, s, decision, latency).Some?
    ensures var e := EntryOf(ticks, cfg, s, decision, latency).value;
      && e.index < |ticks|
      && ticks[e.index].timeMsc >= decision + (if s.pending then 0 else Truncated(latency))
      && (s.pending ==> ticks[e.index].timeMsc <= decision + ORDER_TTL_MSC && e.price == s.entryPrice)
  {
    hide Truncated, Quotes;
    if s.pending {
      BisectFinds(ticks, decision, 0, |ticks|);
      TriggerInRange(ticks, cfg.stress, s, decision + ORDER_TTL_MSC, FirstAtOrAfter(ticks, decision));
    } else {
      BisectFinds(ticks, decision + Truncated(latency), 0, |ticks|);
    }
  }

  /** An exit on a tick after the entry lies between stop and target. */
  predicate Between(cfg: Settings, s: TradeSignal, entry: real, price: real)
  {
    var sl, tp := StopPrice(cfg, s, entry), TargetPrice(cfg, s, entry);
    if s.side.BUY? then sl <= price <= tp else tp <= price <= sl
  }

  lemma StopBeforeTarget(cfg: Settings, s: TradeSignal, entry: real)
    requires 0 <= s.slPoints && 0 <= s.tpPoints
    ensures Between(cfg, s, entry, StopPrice(cfg, s, entry)) && Between(cfg, s, entry, TargetPrice(cfg, s, entry))
  {
    assert 0.0 <= s.slPoints as real * cfg.point && 0.0 <= s.tpPoints as real * cfg.point;
  }

  lemma {:induction false} ExitIsBetween(ticks: Ticks, cfg: Settings, s: TradeSignal, entry: real, deadline: int, i: nat)
    requires 0 < i < |ticks| && 0 <= s.slPoints && 0 <= s.tpPoints
    ensures Between(cfg, s, entry, ExitFrom(ticks, cfg, s, entry, deadline, i).price)
    decreases |ticks| - i
  {
    hide Mark;
    StopBeforeTarget(cfg, s, entry);
    if ExitAt(cfg, s, entry, deadline, ticks[i]).Some? || i + 1 == |ticks| {
    } else {
      ExitIsBetween(ticks, cfg, s, entry, deadline, i + 1);
    }
  }

  lemma Quotient(x: real, y: real, z: real, p: real)
    requires p > 0.0 && y * p <= x <= z * p
    ensures y <= x / p <= z
  {
    Divide(y * p, x, p);
    Divide(x, z * p, p);
    Cancel(y, p);
    Cancel(z, p);
  }

  lemma Negated(x: real, p: real)
    ensures (-x) * p == -(x * p)
    ensures p != 0.0 ==> (-x) / p == -(x / p)
  {
  }

  /** Between stop and target means between minus the stop distance and the target distance in points. */
  lemma BetweenInPoints(cfg: Settings, s: TradeSignal, entry: real, price: real)
    requires Between(cfg, s, entry, price)
    ensures -(s.slPoints as real) <= GrossPoints(cfg, s.side, entry, price) <= s.tpPoints as real
  {
    var sl, tp, p := s.slPoints as real, s.tpPoints as real, cfg.point;
    Negated(sl, p);
    if s.side.BUY? {
      Quotient(price - entry, -sl, tp, p);
    } else {
      Quotient(entry - price, -sl, tp, p);
      Negated(entry - price, p);
    }
  }

  /** R BOUNDS. A trade that leaves on a later tick loses at most its stop and gains at most its target, and
      the net result is the gross result less the round-trip commission, all in units of the stop. */
  lemma RBounds(ticks: Ticks, cfg: Settings, s: TradeSignal, decision: int, latency: real)
    requires Simulate(ticks, cfg, s, decision, latency).Some? && 0 <= s.slPoints && 0 <= s.tpPoints
    ensures var (fill, n) := Simulate(ticks, cfg, s, decision, latency).value;
      var e := EntryOf(ticks, cfg, s, decision, latency).value;
      && (n > e.index ==> -(s.slPoints as real) / RiskPoints(s) <= fill.grossR <= s.tpPoints as real / RiskPoints(s))
      && fill.netR == fill.grossR - 2.0 * cfg.commissionPoints / RiskPoints(s)
  {
    hide EntryOf, ExitAt, Between, GrossPoints;
    EntryInRange(ticks, cfg, s, decision, latency);
    var e := EntryOf(ticks, cfg, s, decision, latency).value;
    var (fill, n) := Simulate(ticks, cfg, s, decision, latency).value;
    var gross := GrossPoints(cfg, s.side, e.price, fill.exitPrice);
    if n > e.index {
      ExitIsBetween(ticks, cfg, s, e.price, Deadline(s, ticks[e.index]), e.index + 1);
      BetweenInPoints(cfg, s, e.price, fill.exitPrice);
      Divide(-(s.slPoints as real), gross, RiskPoints(s));
      Divide(gross, s.tpPoints as real, RiskPoints(s));
    }
    Difference(gross, 2.0 * cfg.commissionPoints, RiskPoints(s));
  }

  /** Why the bounds need a later tick: a market entry on the last tick is closed on that same tick and loses
      the spread and the slippage, however near its stop is. */
  lemma LastTickEntry(ticks: Ticks, cfg: Settings, s: TradeSignal, decision: int, latency: real)
    requires !s.pending && Simulate(ticks, cfg, s, decision, latency).Some?
    requires EntryOf(ticks, cfg, s, decision, latency).value.index == |ticks| - 1
    ensures var fill := Simulate(ticks, cfg, s, decision, latency).value.0;
      var (bid, ask) := Quotes(cfg.stress, ticks[|ticks| - 1]);
      fill.reason.END_OF_DATA? && (fill.exitPrice - fill.entryPrice) * s.side.Sign() == -(ask - bid + cfg.point * cfg.stress.slippage)
  {
    EntryInRange(ticks, cfg, s, decision, latency);
    var e := EntryOf(ticks, cfg, s, decision, latency).value;
    assert ExitFrom(ticks, cfg, s, e.price, Deadline(s, ticks[e.index]), |ticks|).reason.END_OF_DATA?;
  }

  /** What a tick leaves open: neither stop nor target reached, and the deadline not yet. */
  predicate StaysOpen(cfg: Settings, s: TradeSignal, entry: real, deadline: int, tick: SimTick)
  {
    !StopReached(cfg, s, entry, tick) && !TargetReached(cfg, s, entry, tick) && tick.time < deadline
  }

  predicate StopReached(cfg: Settings, s: TradeSignal, entry: real, tick: SimTick)
  {
    var (bid, ask) := Quotes(cfg.stress, tick);
    if s.side.BUY? then bid <= entry - s.slPoints as real * cfg.point else ask >= entry + s.slPoints as real * cfg.point
  }

  predicate TargetReached(cfg: Settings, s: TradeSignal, entry: real, tick: SimTick)
  {
    var (bid, ask) := Quotes(cfg.stress, tick);
    if s.side.BUY? then bid >= entry + s.tpPoints as real * cfg.point else ask <= entry - s.tpPoints as real * cfg.point
  }

  /** A trade leaves at the first later tick that does not leave it open, and the stop is taken before the
      target and the target before the time stop; otherwise it runs to the end of the data. */
  lemma {:induction false} ExitIsFirst(ticks: Ticks, cfg: Settings, s: TradeSignal, entry: real, deadline: int, i: nat)
    requires 0 < i <= |ticks|
    ensures var x := ExitFrom(ticks, cfg, s, entry, deadline, i);
      && x.index < |ticks|
      && (forall j | i <= j < |ticks| && (j < x.index || x.reason.END_OF_DATA?) :: StaysOpen(cfg, s, entry, deadline, ticks[j]))
      && (x.reason.SL? ==> i <= x.index && StopReached(cfg, s, entry, ticks[x.index]))
      && (x.reason.TP? ==> i <= x.index && TargetReached(cfg, s, entry, ticks[x.index]) && !StopReached(cfg, s, entry, ticks[x.index]))
      && (x.reason.TIME_STOP? ==>
            && i <= x.index && ticks[x.index].time >= deadline
            && !StopReached(cfg, s, entry, ticks[x.index]) && !TargetReached(cfg, s, entry, ticks[x.index]))
    decreases |ticks| - i
  {
    hide Quotes;
    if i == |ticks| {
    } else {
      TickDecides(cfg, s, entry, deadline, ticks[i]);
      if ExitAt(cfg, s, entry, deadline, ticks[i]).None? {
        ExitInRange(ticks, cfg, s, entry, deadline, i + 1);
        ExitIsFirst(ticks, cfg, s, entry, deadline, i + 1);
      }
    }
  }

  lemma TickDecides(cfg: Settings, s: TradeSignal, entry: real, deadline: int, tick: SimTick)
    ensures var x := ExitAt(cfg, s, entry, deadline, tick);
      && (x.None? <==> StaysOpen(cfg, s, entry, deadline, tick))
      && (x.Some? && x.value.1.SL? <==> StopReached(cfg, s, entry, tick))
      && (x.Some? && x.value.1.TP? <==> TargetReached(cfg, s, entry, tick) && !StopReached(cfg, s, entry, tick))
      && (x.Some? ==> !x.value.1.END_OF_DATA?)
  {
    hide Quotes;
  }

  /** HELD NO LONGER. A trade stopped by time has been held for its longest time, 900 seconds if the signal names
      none, and every tick of any trade before its exit comes earlier than that after its entry. */
  lemma HeldNoLonger(ticks: Ticks, cfg: Settings, s: TradeSignal, decision: int, latency: real)
    requires Simulate(ticks, cfg, s, decision, latency).Some?
    ensures EntryOf(ticks, cfg, s, decision, latency).Some?
    ensures var (fill, n) := Simulate(ticks, cfg, s, decision, latency).value;
      var e := EntryOf(ticks, cfg, s, decision, latency).value.index;
      var longest := if s.maxHoldS == 0 then 900000 else 1000 * s.maxHoldS;
      && e < |ticks| && n < |ticks|
      && (fill.reason.TIME_STOP? ==> longest <= ticks[n].time - ticks[e].time)
      && forall j | e < j < n :: ticks[j].time - ticks[e].time < longest
  {
    hide EntryOf, ExitAt, ExitFrom, StopReached, TargetReached;
    EntryInRange(ticks, cfg, s, decision, latency);
    var e := EntryOf(ticks, cfg, s, decision, latency).value;
    ExitIsFirst(ticks, cfg, s, e.price, Deadline(s, ticks[e.index]), e.index + 1);
  }

  lemma Difference(a: real, b: real, r: real)
    requires r != 0.0
    ensures (a - b) / r == a / r - b / r
  {
  }

  // ------------------------------------------------------------ the backtester

  /** One raw latency draw, in milliseconds. */
  type Draw = r: real | 100.0 <= r <= 400.0 witness 100.0

  type SignalMaker = Ticks -> seq<TradeSignal>

  /** Why a walked strategy filled: at which step, on which signal, with which latency. */
  datatype Choice = Choice(turn: nat, end: nat, signal: TradeSignal, latency: real)

  ghost predicate Explains(c: Choice, fill: Fill, ticks: Ticks, cfg: Settings, make: SignalMaker, window: nat, step: nat)
  {
    && 0 < window <= c.end < |ticks| && c.end == window + c.turn * step
    && c.signal in make(ticks[c.end - window..c.end])
    && Simulate(ticks, cfg, c.signal, ticks[c.end - 1].timeMsc, c.latency).Some?
    && Simulate(ticks, cfg, c.signal, ticks[c.end - 1].timeMsc, c.latency).value.0 == fill
    && (0.0 <= cfg.stress.latency ==> 0.0 <= c.latency)
  }

  /** Each trade is entered at or after every earlier exit. */
  ghost predicate OneAtATime(fills: seq<Fill>)
  {
    forall i, j | 0 <= i < j < |fills| :: fills[i].exitTime <= fills[j].entryTime
  }

  /** What came of the signals of one step: how many were looked at, the first fill, and the latency draws used. */
  datatype Tried = Tried(count: nat, fill: Option<Fill>, drawn: nat)

  function LatencyOf(cfg: Settings, stream: nat -> Draw, s: TradeSignal, drawn: nat): real
  {
    if s.pending then 0.0 else stream(drawn) * cfg.stress.latency
  }

  function DrawsAfter(s: TradeSignal, drawn: nat): nat { if s.pending then drawn else drawn + 1 }

  function Try(ticks: Ticks, cfg: Settings, stream: nat -> Draw, signals: seq<TradeSignal>, decision: int, drawn: nat): Tried
  {
    if signals == [] then Tried(0, None, drawn)
    else
      var s := signals[0];
      var outcome := Outcome(ticks, cfg, s, decision, LatencyOf(cfg, stream, s, drawn));
      if outcome.Some? then Tried(1, outcome, DrawsAfter(s, drawn))
      else
        var rest := Try(ticks, cfg, stream, signals[1..], decision, DrawsAfter(s, drawn));
        rest.(count := rest.count + 1)
  }

  /** How far a walk has come. */
  datatype Progress = Progress(fills: seq<Fill>, seen: nat, untriggered: int, openUntil: int, drawn: nat)

  function Advanced(p: Progress, tried: Tried): Progress
  {
    if tried.fill.Some? then
      Progress(p.fills + [tried.fill.value], p.seen + tried.count, p.untriggered + tried.count - 1,
               tried.fill.value.exitTime, tried.drawn)
    else p.(seen := p.seen + tried.count, untriggered := p.untriggered + tried.count, drawn := tried.drawn)
  }

  /** One step of the walk: nothing while a trade is open, else the first signal that fills. */
  function StepWalk(p: Progress, ticks: Ticks, cfg: Settings, stream: nat -> Draw, make: SignalMaker, window: nat,
                    end: nat): Progress
    requires 0 < window <= end <= |ticks|
  {
    var decision := ticks[end - 1].timeMsc;
    if decision < p.openUntil then p
    else
      Advanced(p, Try(ticks, cfg, stream, make(ticks[end - window..end]), decision, p.drawn))
  }

  /** The walk from the step at `end` through every step before `bound`. */
  function Walk(p: Progress, ticks: Ticks, cfg: Settings, stream: nat -> Draw, make: SignalMaker, window: nat, step: nat,
                end: nat, bound: nat): Progress
    requires 0 < window <= end && 0 < step && bound <= |ticks|
    decreases if end < bound then bound - end else 0
  {
    if end >= bound then p
    else Walk(StepWalk(p, ticks, cfg, stream, make, window, end), ticks, cfg, stream, make, window, step, end + step, bound)
  }

  class TickBacktester {
    const ticks: Ticks
    const cfg: Settings
    const stream: nat -> Draw
    var drawn: nat

    constructor (ticks: Ticks, cfg: Settings, stream: nat -> Draw)
      requires ticks != []
      ensures this.ticks == ticks && this.cfg == cfg && this.stream == stream && drawn == 0
    {
      this.ticks, this.cfg, this.stream, drawn := ticks, cfg, stream, 0;
    }

    method DrawLatency() returns (latency: real)
      modifies this
      ensures latency == stream(old(drawn)) * cfg.stress.latency && drawn == old(drawn) + 1
    {
      latency := stream(drawn) * cfg.stress.latency;
      drawn := drawn + 1;
    }

    /** Pending orders trigger at touch; past the last tick when they never do. */
    method PendingTriggerIndex(s: TradeSignal, decision: int) returns (index: nat, price: real)
      ensures var t := TriggerFrom(ticks, cfg.stress, s, decision + ORDER_TTL_MSC, FirstAtOrAfter(ticks, decision));
        if t.Some? then index == t.value && price == s.entryPrice else index == |ticks|
    {
      hide TouchedAt;
      var ttl := decision + ORDER_TTL_MSC;
      var start := FirstAtOrAfter(ticks, decision);
      for i := start to |ticks|
        invariant TriggerFrom(ticks, cfg.stress, s, ttl, start) == TriggerFrom(ticks, cfg.stress, s, ttl, i)
      {
        if ticks[i].timeMsc > ttl {
          break;
        }
        if TouchedAt(cfg.stress, s, ticks[i]) {
          return i, s.entryPrice;
        }
      }
      return |ticks|, 0.0;
    }

    /** The first tick after the entry that ends the trade, or the end of the data. */
    method FindExit(s: TradeSignal, e: Entry) returns (x: Exit)
      requires e.index < |ticks|
      ensures x == ExitFrom(ticks, cfg, s, e.price, Deadline(s, ticks[e.index]), e.index + 1)
    {
      hide Mark, StopPrice, TargetPrice;
      var sl, tp := StopPrice(cfg, s, e.price), TargetPrice(cfg, s, e.price);
      var deadline := Deadline(s, ticks[e.index]);
      for i := e.index + 1 to |ticks|
        invariant ExitFrom(ticks, cfg, s, e.price, deadline, e.index + 1) == ExitFrom(ticks, cfg, s, e.price, deadline, i)
      {
        var mark := Mark(cfg.stress, ticks[i], s.side);
        if s.side.BUY? {
          if mark <= sl {
            return Exit(i, sl, SL);
          }
          if mark >= tp {
            return Exit(i, tp, TP);
          }
        } else {
          if mark >= sl {
            return Exit(i, sl, SL);
          }
          if mark <= tp {
            return Exit(i, tp, TP);
          }
        }
        if ticks[i].time >= deadline {
          return Exit(i, mark, TIME_STOP);
        }
      }
      x := Exit(|ticks| - 1, Mark(cfg.stress, ticks[|ticks| - 1], s.side), END_OF_DATA);
    }

    /** Where and at what price a signal enters; a market entry draws one latency, a pending order none. */
    method FindEntry(s: TradeSignal, decision: int) returns (e: Option<Entry>, wait: real)
      modifies this
      ensures drawn == if s.pending then old(drawn) else old(drawn) + 1
      ensures wait == if s.pending then 0.0 else stream(old(drawn)) * cfg.stress.latency
      ensures e == EntryOf(ticks, cfg, s, decision, wait) && (e.Some? ==> e.value.index < |ticks|)
    {
      hide TriggerFrom, TouchedAt, Truncated, Slippage, Quotes;
      EntryInRange(ticks, cfg, s, decision, 0.0);
      if s.pending {
        var index, price := PendingTriggerIndex(s, decision);
        TriggerInRange(ticks, cfg.stress, s, decision + ORDER_TTL_MSC, FirstAtOrAfter(ticks, decision));
        return if index >= |ticks| then None else Some(Entry(index, price)), 0.0;
      }
      wait := DrawLatency();
      var index := FirstAtOrAfter(ticks, decision + Truncated(wait));
      if index >= |ticks| {
        return None, wait;
      }
      var (bid, ask) := Quotes(cfg.stress, ticks[index]);
      var slip := Slippage(cfg);
      e := Some(Entry(index, if s.side.BUY? then ask + slip else bid - slip));
    }

    /** One signal end to end. */
    method RunSignal(s: TradeSignal, decision: int) returns (fill: Option<Fill>, ghost latency: real)
      modifies this
      ensures drawn == if s.pending then old(drawn) else old(drawn) + 1
      ensures latency == if s.pending then 0.0 else stream(old(drawn)) * cfg.stress.latency
      ensures fill == Outcome(ticks, cfg, s, decision, latency)
    {
      hide EntryOf, ExitFrom, Mark, StopPrice, TargetPrice;
      var e, wait := FindEntry(s, decision);
      latency := wait;
      if e.None? {
        return None, latency;
      }
      var x := FindExit(s, e.value);
      ExitInRange(ticks, cfg, s, e.value.price, Deadline(s, ticks[e.value.index]), e.value.index + 1);
      var gross := (x.price - e.value.price) / cfg.point * s.side.Sign();
      var costs := 2.0 * cfg.commissionPoints;
      var risk := if s.slPoints != 0 then s.slPoints as real else 1.0;
      fill := Some(Fill(s.side, ticks[e.value.index].timeMsc, e.value.price, ticks[x.index].timeMsc, x.price, x.reason,
                        wait, gross / risk, (gross - costs) / risk, costs));
      ghost var settled := Settle(ticks, cfg, s, e.value, latency).0;
      assert fill.value.grossR == settled.grossR && fill.value.netR == settled.netR;
    }

    /** A strategy walked over the series, one position at a time. Every signal seen either filled or never
        triggered, every fill is what its own signal simulates to at a step of the walk, and fills never
        overlap. */
    method RunStrategy(make: SignalMaker, window: nat, step: nat)
        returns (fills: seq<Fill>, seen: nat, untriggered: nat, ghost choices: seq<Choice>)
      requires 0 < window && 0 < step
      modifies this
      ensures seen == |fills| + untriggered
      ensures |choices| == |fills|
      ensures forall i | 0 <= i < |fills| :: Explains(choices[i], fills[i], ticks, cfg, make, window, step)
      ensures forall i, j | 0 <= i < j < |choices| :: choices[i].end < choices[j].end
      ensures Nondecreasing(ticks) && 0.0 <= cfg.stress.latency ==> OneAtATime(fills)
      ensures var p := Walk(Progress([], 0, 0, 0, old(drawn)), ticks, cfg, stream, make, window, step, window, |ticks|);
        fills == p.fills && seen == p.seen && untriggered == p.untriggered && drawn == p.drawn
    {
      hide Simulate, Nondecreasing, Explains, OneAtATime, Try;
      NoFills();
      fills, seen, untriggered, choices := [], 0, 0, [];
      var openUntil, end := 0, window;
      ghost var turn := 0;
      while end < |ticks|
        invariant seen == |fills| + untriggered && |choices| == |fills|
        invariant Walk(Progress(fills, seen, untriggered, openUntil, drawn), ticks, cfg, stream, make, window, step, end,
                       |ticks|) == Walk(Progress([], 0, 0, 0, old(drawn)), ticks, cfg, stream, make, window, step, window, |ticks|)
        invariant window <= end == window + turn * step
        invariant forall i | 0 <= i < |fills| :: Explains(choices[i], fills[i], ticks, cfg, make, window, step)
        invariant forall c | c in choices :: c.end < end
        invariant forall i, j | 0 <= i < j < |choices| :: choices[i].end < choices[j].end
        invariant Nondecreasing(ticks) && 0.0 <= cfg.stress.latency ==>
          OneAtATime(fills) && forall f | f in fills :: f.exitTime <= openUntil
      {
        var seenTicks := ticks[end - window..end];
        var decision := seenTicks[|seenTicks| - 1].timeMsc;
        if decision >= openUntil {
          var signals := make(seenTicks);
          var count, fill;
          ghost var c;
          count, fill, c := FirstFill(signals, decision, turn, end);
          seen := seen + count;
          if fill.Some? {
            untriggered := untriggered + (count - 1);
            Explained(c, fill.value, make, window, step);
            if Nondecreasing(ticks) && 0.0 <= cfg.stress.latency {
              LaterFill(fills, openUntil, c, fill.value, decision);
            }
            fills, choices := fills + [fill.value], choices + [c];
            openUntil := fill.value.exitTime;
          } else {
            untriggered := untriggered + count;
          }
        }
        NextTurn(turn, step);
        turn, end := turn + 1, end + step;
      }
    }

    /** The first of the signals of one step that fills, and how many signals were looked at. */
    method FirstFill(signals: seq<TradeSignal>, decision: int, ghost turn: nat, ghost end: nat)
        returns (count: nat, fill: Option<Fill>, ghost c: Choice)
      modifies this
      ensures count <= |signals| && (fill.Some? ==> 0 < count)
      ensures fill.None? ==> count == |signals|
      ensures Tried(count, fill, drawn) == Try(ticks, cfg, stream, signals, decision, old(drawn))
      ensures fill.Some? ==> c.turn == turn && c.end == end && c.signal == signals[count - 1]
      ensures fill.Some? && 0.0 <= cfg.stress.latency ==> 0.0 <= c.latency
      ensures fill.Some? ==> Outcome(ticks, cfg, c.signal, decision, c.latency) == fill
    {
      hide Simulate, Outcome;
      fill, c := None, Choice(turn, end, TradeSignal(false, None, BUY, 0.0, 0, 0, 0), 0.0);
      count := 0;
      while count < |signals|
        invariant count <= |signals| && fill.None?
        invariant var rest := Try(ticks, cfg, stream, signals[count..], decision, drawn);
          Try(ticks, cfg, stream, signals, decision, old(drawn)) == rest.(count := rest.count + count)
      {
        ghost var was := drawn;
        TryNext(signals, count, decision, was);
        ghost var latency;
        var r;
        r, latency := RunSignal(signals[count], decision);
        assert latency == LatencyOf(cfg, stream, signals[count], was);
        count := count + 1;
        if r.Some? {
          return count, r, Choice(turn, end, signals[count - 1], latency);
        }
      }
    }

    lemma TryNext(signals: seq<TradeSignal>, count: nat, decision: int, drawn: nat)
      requires count < |signals|
      ensures var s := signals[count];
        var outcome := Outcome(ticks, cfg, s, decision, LatencyOf(cfg, stream, s, drawn));
        var rest := Try(ticks, cfg, stream, signals[count + 1..], decision, DrawsAfter(s, drawn));
        Try(ticks, cfg, stream, signals[count..], decision, drawn) ==
        if outcome.Some? then Tried(1, outcome, DrawsAfter(s, drawn)) else rest.(count := rest.count + 1)
    {
      hide Outcome;
      assert signals[count..][1..] == signals[count + 1..];
    }

    lemma NextTurn(turn: nat, step: nat)
      ensures (turn + 1) * step == turn * step + step
    {
    }

    lemma NoFills()
      ensures OneAtATime([])
    {
    }

    lemma Explained(c: Choice, fill: Fill, make: SignalMaker, window: nat, step: nat)
      requires 0 < window <= c.end < |ticks| && c.end == window + c.turn * step
      requires c.signal in make(ticks[c.end - window..c.end])
      requires Simulate(ticks, cfg, c.signal, ticks[c.end - 1].timeMsc, c.latency).Some?
      requires Simulate(ticks, cfg, c.signal, ticks[c.end - 1].timeMsc, c.latency).value.0 == fill
      requires 0.0 <= cfg.stress.latency ==> 0.0 <= c.latency
      ensures Explains(c, fill, ticks, cfg, make, window, step)
    {
    }

    lemma LaterFill(fills: seq<Fill>, openUntil: int, c: Choice, fill: Fill, decision: int)
      requires Nondecreasing(ticks) && 0.0 <= c.latency && openUntil <= decision
      requires OneAtATime(fills) && forall f | f in fills :: f.exitTime <= openUntil
      requires Simulate(ticks, cfg, c.signal, decision, c.latency).Some?
      requires Simulate(ticks, cfg, c.signal, decision, c.latency).value.0 == fill
      ensures OneAtATime(fills + [fill])
      ensures forall f | f in fills + [fill] :: f.exitTime <= fill.exitTime
    {
      hide Simulate;
      EntryWaits(ticks, cfg, c.signal, decision, c.latency);
    }
  }
}
