/** How far ahead the tick backtester looks: when a signal's outcome is settled by a tick, and what that means
    for a walked strategy. */
module LookAhead {
  import opened Protocol
  import opened Backtest

  /** A kind of order that some quote touches. */
  predicate Touchable(s: TradeSignal) { s.pendingType.Some? && s.pendingType.value.IsPending() }

  /** By tick `n` the signal has left its trade, or can no longer enter one. */
  predicate SettledBy(ticks: Ticks, cfg: Settings, s: TradeSignal, decision: int, latency: real, n: nat)
    requires n < |ticks|
  {
    match Simulate(ticks, cfg, s, decision, latency)
    case Some(r) => !r.0.reason.END_OF_DATA? && r.1 <= n
    case None => s.pending && (!Touchable(s) || decision + ORDER_TTL_MSC < ticks[n].timeMsc)
  }

  lemma {:induction false} NeverTouched(ticks: Ticks, stress: Stress, s: TradeSignal, ttl: int, i: nat)
    requires i <= |ticks| && !Touchable(s)
    ensures TriggerFrom(ticks, stress, s, ttl, i).None?
    decreases |ticks| - i
  {
    if i == |ticks| {
    } else {
      NeverTouched(ticks, stress, s, ttl, i + 1);
    }
  }

  lemma {:induction false} LapsedAgrees(ticks: Ticks, ticks': Ticks, n: nat, stress: Stress, s: TradeSignal, ttl: int, i: nat)
    requires Agree(ticks, ticks', n) && i <= n && ttl < ticks[n].timeMsc && TriggerFrom(ticks, stress, s, ttl, i).None?
    ensures TriggerFrom(ticks', stress, s, ttl, i).None?
    decreases n - i
  {
    if ticks[i].timeMsc > ttl {
    } else {
      LapsedAgrees(ticks, ticks', n, stress, s, ttl, i + 1);
    }
  }

  lemma SettledStays(ticks: Ticks, ticks': Ticks, n: nat, cfg: Settings, s: TradeSignal, decision: int, latency: real)
    requires Nondecreasing(ticks) && Nondecreasing(ticks') && Agree(ticks, ticks', n)
    requires SettledBy(ticks, cfg, s, decision, latency, n)
    ensures Outcome(ticks', cfg, s, decision, latency) == Outcome(ticks, cfg, s, decision, latency)
  {
    hide Settle, TouchedAt;
    var r := Simulate(ticks, cfg, s, decision, latency);
    if r.Some? {
      NoLookAhead(ticks, ticks', r.value.1, cfg, s, decision, latency);
    } else if !Touchable(s) {
      NeverTouched(ticks', cfg.stress, s, decision + ORDER_TTL_MSC, FirstAtOrAfter(ticks', decision));
    } else {
      BisectFinds(ticks, decision, 0, |ticks|);
      FirstAgrees(ticks, ticks', n, decision);
      LapsedAgrees(ticks, ticks', n, cfg.stress, s, decision + ORDER_TTL_MSC, FirstAtOrAfter(ticks, decision));
    }
  }

  // ----------------------------------------------------- other continuations

  lemma {:induction false} ExitRunsOn(ticks: Ticks, tick: SimTick, cfg: Settings, s: TradeSignal, entry: real,
                                      deadline: int, i: nat)
    requires 0 < i <= |ticks| && ExitFrom(ticks, cfg, s, entry, deadline, i).reason.END_OF_DATA?
    ensures ExitFrom(ticks + [tick], cfg, s, entry, deadline, i).index == |ticks|
    decreases |ticks| - i
  {
    hide ExitAt, Mark;
    if i == |ticks| {
      assert ExitFrom(ticks + [tick], cfg, s, entry, deadline, i + 1).index == |ticks|;
    } else {
      DecidesNotEnd(cfg, s, entry, deadline, ticks[i]);
      ExitRunsOn(ticks, tick, cfg, s, entry, deadline, i + 1);
    }
  }

  lemma DecidesNotEnd(cfg: Settings, s: TradeSignal, entry: real, deadline: int, tick: SimTick)
    ensures ExitAt(cfg, s, entry, deadline, tick).Some? ==> !ExitAt(cfg, s, entry, deadline, tick).value.1.END_OF_DATA?
  {
    hide Mark, StopPrice, TargetPrice;
  }

  /** One more tick, a millisecond later: a trade that ran to the end of the data now leaves there. */
  lemma LaterEnd(ticks: Ticks, cfg: Settings, s: TradeSignal, decision: int, latency: real) returns (ticks': Ticks)
    requires Nondecreasing(ticks) && Simulate(ticks, cfg, s, decision, latency).Some?
    requires Simulate(ticks, cfg, s, decision, latency).value.0.reason.END_OF_DATA?
    ensures ticks != [] && Nondecreasing(ticks') && |ticks| < |ticks'| && ticks'[..|ticks|] == ticks
    ensures Outcome(ticks', cfg, s, decision, latency) != Outcome(ticks, cfg, s, decision, latency)
  {
    hide EntryOf, ExitAt, Mark, GrossPoints;
    EntryInRange(ticks, cfg, s, decision, latency);
    var last := ticks[|ticks| - 1];
    var tick := SimTick(last.time, last.timeMsc + 1, last.bid, last.ask);
    ticks' := ticks + [tick];
    var e := EntryOf(ticks, cfg, s, decision, latency).value;
    EntryAgrees(ticks, ticks', |ticks| - 1, cfg, s, decision, latency);
    EntryInRange(ticks', cfg, s, decision, latency);
    var deadline := Deadline(s, ticks[e.index]);
    ExitInRange(ticks, cfg, s, e.price, deadline, e.index + 1);
    ExitRunsOn(ticks, tick, cfg, s, e.price, deadline, e.index + 1);
    assert ticks'[e.index] == ticks[e.index];
    assert Outcome(ticks', cfg, s, decision, latency).value.exitTime == tick.timeMsc;
    assert Outcome(ticks, cfg, s, decision, latency).value.exitTime == last.timeMsc;
  }

  /** No tick after `n`: a trade that left later has not left there. */
  lemma CutBeforeExit(ticks: Ticks, n: nat, cfg: Settings, s: TradeSignal, decision: int, latency: real)
    requires Nondecreasing(ticks) && Simulate(ticks, cfg, s, decision, latency).Some?
    requires n < |ticks| && n < Simulate(ticks, cfg, s, decision, latency).value.1
    requires !Simulate(ticks, cfg, s, decision, latency).value.0.reason.END_OF_DATA?
    ensures Outcome(ticks[..n + 1], cfg, s, decision, latency) != Outcome(ticks, cfg, s, decision, latency)
  {
    hide EntryOf, ExitAt, Mark, GrossPoints;
    var cut := ticks[..n + 1];
    if Outcome(cut, cfg, s, decision, latency) == Outcome(ticks, cfg, s, decision, latency) {
      var m := Simulate(cut, cfg, s, decision, latency).value.1;
      EntryInRange(cut, cfg, s, decision, latency);
      var e := EntryOf(cut, cfg, s, decision, latency).value;
      ExitInRange(cut, cfg, s, e.price, Deadline(s, cut[e.index]), e.index + 1);
      NoLookAhead(cut, ticks, m, cfg, s, decision, latency);
      assert false;
    }
  }

  /** A tick at the fill time: a market order that found none enters. */
  lemma LateFill(ticks: Ticks, cfg: Settings, s: TradeSignal, decision: int, latency: real) returns (ticks': Ticks)
    requires Nondecreasing(ticks) && !s.pending && Simulate(ticks, cfg, s, decision, latency).None?
    ensures Nondecreasing(ticks') && |ticks| < |ticks'| && ticks'[..|ticks|] == ticks
    ensures Outcome(ticks', cfg, s, decision, latency).Some?
  {
    hide Settle, Mark;
    var time := decision + Truncated(latency);
    BisectFinds(ticks, time, 0, |ticks|);
    ticks' := ticks + [SimTick(time, time, 0.0, 0.0)];
    BisectFinds(ticks', time, 0, |ticks'|);
    assert ticks'[|ticks|].timeMsc == time;
  }

  lemma {:induction false} TriggerFound(ticks: Ticks, stress: Stress, s: TradeSignal, ttl: int, i: nat)
    requires i < |ticks| && TouchedAt(stress, s, ticks[|ticks| - 1]) && forall j | i <= j < |ticks| :: ticks[j].timeMsc <= ttl
    ensures TriggerFrom(ticks, stress, s, ttl, i).Some?
    decreases |ticks| - i
  {
    hide TouchedAt;
    if i == |ticks| - 1 {
    } else {
      TriggerFound(ticks, stress, s, ttl, i + 1);
    }
  }

  /** A quote at the order's own price touches it, whatever its kind and however the spread is stressed. */
  lemma OwnPriceTouches(stress: Stress, s: TradeSignal, time: int)
    requires Touchable(s)
    ensures TouchedAt(stress, s, SimTick(time, time, s.entryPrice, s.entryPrice))
  {
  }

  /** A touching tick after `n`: a resting order still in its time to live enters. */
  lemma LateTouch(ticks: Ticks, n: nat, cfg: Settings, s: TradeSignal, decision: int, latency: real) returns (ticks': Ticks)
    requires Nondecreasing(ticks) && n < |ticks| && s.pending && Touchable(s)
    requires ticks[n].timeMsc <= decision + ORDER_TTL_MSC
    ensures Nondecreasing(ticks') && Agree(ticks, ticks', n)
    ensures Outcome(ticks', cfg, s, decision, latency).Some?
  {
    hide Settle, TouchedAt, Touchable;
    var time := Max(ticks[n].timeMsc, decision);
    var tick := SimTick(time, time, s.entryPrice, s.entryPrice);
    ticks' := ticks[..n + 1] + [tick];
    OwnPriceTouches(cfg.stress, s, time);
    BisectFinds(ticks', decision, 0, |ticks'|);
    assert ticks'[n + 1] == tick;
    TriggerFound(ticks', cfg.stress, s, decision + ORDER_TTL_MSC, FirstAtOrAfter(ticks', decision));
  }

  lemma Extends(ticks: Ticks, ticks': Ticks, n: nat)
    requires n < |ticks| < |ticks'| && ticks'[..|ticks|] == ticks
    ensures Agree(ticks, ticks', n)
  {
  }

  /** A signal that is not settled by `n` comes out otherwise on some other continuation of the series. */
  lemma OtherSeries(ticks: Ticks, n: nat, cfg: Settings, s: TradeSignal, decision: int, latency: real) returns (ticks': Ticks)
    requires Nondecreasing(ticks) && n < |ticks| && !SettledBy(ticks, cfg, s, decision, latency, n)
    ensures Nondecreasing(ticks') && Agree(ticks, ticks', n)
    ensures Outcome(ticks', cfg, s, decision, latency) != Outcome(ticks, cfg, s, decision, latency)
  {
    hide Simulate, Touchable;
    var r := Simulate(ticks, cfg, s, decision, latency);
    if r.Some? && r.value.0.reason.END_OF_DATA? {
      ticks' := LaterEnd(ticks, cfg, s, decision, latency);
      Extends(ticks, ticks', n);
    } else if r.Some? {
      ticks' := ticks[..n + 1];
      CutBeforeExit(ticks, n, cfg, s, decision, latency);
    } else if s.pending {
      ticks' := LateTouch(ticks, n, cfg, s, decision, latency);
    } else {
      ticks' := LateFill(ticks, cfg, s, decision, latency);
      Extends(ticks, ticks', n);
    }
  }

  /** HOW FAR AHEAD. The outcome of a signal depends on no tick after `n` exactly when it is settled by `n`:
      it has stopped, reached its target or timed out by then, or it is a resting order that has lapsed by then
      or that no quote touches. */
  lemma SettledExactly(ticks: Ticks, n: nat, cfg: Settings, s: TradeSignal, decision: int, latency: real)
    requires Nondecreasing(ticks) && n < |ticks|
    ensures SettledBy(ticks, cfg, s, decision, latency, n) <==>
            forall ticks' | Nondecreasing(ticks') && Agree(ticks, ticks', n) ::
              Outcome(ticks', cfg, s, decision, latency) == Outcome(ticks, cfg, s, decision, latency)
  {
    hide SettledBy, Outcome, Nondecreasing, Agree;
    if SettledBy(ticks, cfg, s, decision, latency, n) {
      forall ticks' | Nondecreasing(ticks') && Agree(ticks, ticks', n)
        ensures Outcome(ticks', cfg, s, decision, latency) == Outcome(ticks, cfg, s, decision, latency)
      {
        SettledStays(ticks, ticks', n, cfg, s, decision, latency);
      }
    } else {
      var other := OtherSeries(ticks, n, cfg, s, decision, latency);
      assert Nondecreasing(other) && Agree(ticks, other, n);
    }
  }

  // ---------------------------------------------------------- walked strategy

  /** Every signal that this step looks at is settled by `n`. */
  predicate TriedSettled(ticks: Ticks, cfg: Settings, stream: nat -> Draw, signals: seq<TradeSignal>, decision: int,
                         drawn: nat, n: nat)
    requires n < |ticks|
  {
    signals == [] ||
    var s := signals[0];
    var latency := LatencyOf(cfg, stream, s, drawn);
    && SettledBy(ticks, cfg, s, decision, latency, n)
    && (Outcome(ticks, cfg, s, decision, latency).None? ==>
          TriedSettled(ticks, cfg, stream, signals[1..], decision, DrawsAfter(s, drawn), n))
  }

  /** The signals that the step looks at, if it looks at any, are settled by `n`. */
  predicate StepSettled(p: Progress, ticks: Ticks, cfg: Settings, stream: nat -> Draw, make: SignalMaker, window: nat,
                        end: nat, n: nat)
    requires 0 < window <= end <= |ticks| && n < |ticks|
  {
    p.openUntil <= ticks[end - 1].timeMsc ==>
      TriedSettled(ticks, cfg, stream, make(ticks[end - window..end]), ticks[end - 1].timeMsc, p.drawn, n)
  }

  /** Every signal that the walk looks at before `bound` is settled by `n`. */
  predicate WalkSettled(p: Progress, ticks: Ticks, cfg: Settings, stream: nat -> Draw, make: SignalMaker, window: nat,
                        step: nat, end: nat, bound: nat, n: nat)
    requires 0 < window <= end && 0 < step && bound <= |ticks| && n < |ticks|
    decreases if end < bound then bound - end else 0
  {
    end >= bound ||
    (&& StepSettled(p, ticks, cfg, stream, make, window, end, n)
     && WalkSettled(StepWalk(p, ticks, cfg, stream, make, window, end), ticks, cfg, stream, make, window, step, end + step,
                    bound, n))
  }

  lemma {:induction false} TriesAgree(ticks: Ticks, ticks': Ticks, n: nat, cfg: Settings, stream: nat -> Draw,
                                      signals: seq<TradeSignal>, decision: int, drawn: nat)
    requires Nondecreasing(ticks) && Nondecreasing(ticks') && Agree(ticks, ticks', n)
    requires TriedSettled(ticks, cfg, stream, signals, decision, drawn, n)
    ensures Try(ticks', cfg, stream, signals, decision, drawn) == Try(ticks, cfg, stream, signals, decision, drawn)
  {
    hide SettledBy, Outcome, Nondecreasing, Agree, LatencyOf, DrawsAfter;
    if signals == [] {
    } else {
      var s := signals[0];
      var latency := LatencyOf(cfg, stream, s, drawn);
      SettledStays(ticks, ticks', n, cfg, s, decision, latency);
      if Outcome(ticks, cfg, s, decision, latency).None? {
        TriesAgree(ticks, ticks', n, cfg, stream, signals[1..], decision, DrawsAfter(s, drawn));
      }
    }
  }

  lemma StepsAgree(p: Progress, ticks: Ticks, ticks': Ticks, n: nat, cfg: Settings, stream: nat -> Draw, make: SignalMaker,
                   window: nat, end: nat)
    requires Nondecreasing(ticks) && Nondecreasing(ticks') && Agree(ticks, ticks', n)
    requires 0 < window <= end <= n + 1
    requires StepSettled(p, ticks, cfg, stream, make, window, end, n)
    ensures StepWalk(p, ticks', cfg, stream, make, window, end) == StepWalk(p, ticks, cfg, stream, make, window, end)
  {
    hide Try, TriedSettled;
    assert ticks'[end - window..end] == ticks[end - window..end];
    if p.openUntil <= ticks[end - 1].timeMsc {
      TriesAgree(ticks, ticks', n, cfg, stream, make(ticks[end - window..end]), ticks[end - 1].timeMsc, p.drawn);
    }
  }

  /** Walks coincide as long as the signals they look at are settled by the last tick that the series share. */
  lemma {:induction false} WalksAgree(p: Progress, ticks: Ticks, ticks': Ticks, n: nat, cfg: Settings, stream: nat -> Draw,
                                      make: SignalMaker, window: nat, step: nat, end: nat, bound: nat)
    requires Nondecreasing(ticks) && Nondecreasing(ticks') && Agree(ticks, ticks', n)
    requires 0 < window <= end && 0 < step && bound <= n + 2 && bound <= |ticks| && bound <= |ticks'|
    requires WalkSettled(p, ticks, cfg, stream, make, window, step, end, bound, n)
    ensures Walk(p, ticks', cfg, stream, make, window, step, end, bound)
            == Walk(p, ticks, cfg, stream, make, window, step, end, bound)
    decreases if end < bound then bound - end else 0
  {
    hide StepWalk, TriedSettled, Nondecreasing, Agree;
    if end >= bound {
    } else {
      StepsAgree(p, ticks, ticks', n, cfg, stream, make, window, end);
      WalksAgree(StepWalk(p, ticks, cfg, stream, make, window, end), ticks, ticks', n, cfg, stream, make, window, step,
                 end + step, bound);
    }
  }

  /** A walk only adds fills. */
  lemma {:induction false} WalkAdds(p: Progress, ticks: Ticks, cfg: Settings, stream: nat -> Draw, make: SignalMaker,
                                    window: nat, step: nat, end: nat, bound: nat, bound': nat)
    requires 0 < window <= end && 0 < step && bound <= bound' <= |ticks|
    ensures p.fills <= Walk(p, ticks, cfg, stream, make, window, step, end, bound').fills
    ensures Walk(p, ticks, cfg, stream, make, window, step, end, bound).fills
            <= Walk(p, ticks, cfg, stream, make, window, step, end, bound').fills
    decreases if end < bound' then bound' - end else 0
  {
    hide Try;
    if end >= bound' {
    } else {
      var p' := StepWalk(p, ticks, cfg, stream, make, window, end);
      WalkAdds(p', ticks, cfg, stream, make, window, step, end + step, bound, bound');
      assert p.fills <= p'.fills;
    }
  }

  /** NO LOOK-AHEAD IN A WALK. Two series that agree up to tick `n` give the same first fills: all those of the
      steps up to the first that looks at a signal not settled by `n`. */
  lemma WalkNoLookAhead(ticks: Ticks, ticks': Ticks, n: nat, cfg: Settings, stream: nat -> Draw, make: SignalMaker,
                        window: nat, step: nat, bound: nat, drawn: nat)
    requires Nondecreasing(ticks) && Nondecreasing(ticks') && Agree(ticks, ticks', n)
    requires 0 < window && 0 < step && bound <= n + 2 && bound <= |ticks| && bound <= |ticks'|
    requires WalkSettled(Progress([], 0, 0, 0, drawn), ticks, cfg, stream, make, window, step, window, bound, n)
    ensures var start := Progress([], 0, 0, 0, drawn);
      var first := Walk(start, ticks, cfg, stream, make, window, step, window, bound).fills;
      && first <= Walk(start, ticks, cfg, stream, make, window, step, window, |ticks|).fills
      && first <= Walk(start, ticks', cfg, stream, make, window, step, window, |ticks'|).fills
  {
    hide WalkSettled, Walk, Nondecreasing, Agree;
    var start := Progress([], 0, 0, 0, drawn);
    WalksAgree(start, ticks, ticks', n, cfg, stream, make, window, step, window, bound);
    WalkAdds(start, ticks, cfg, stream, make, window, step, window, bound, |ticks|);
    WalkAdds(start, ticks', cfg, stream, make, window, step, window, bound, |ticks'|);
  }

  // ------------------------------------------------------------- and exactly

  /** One signal of the step is not settled: on another continuation the step comes out otherwise. */
  lemma {:induction false} OtherTries(ticks: Ticks, n: nat, cfg: Settings, stream: nat -> Draw, signals: seq<TradeSignal>,
                                      decision: int, drawn: nat) returns (ticks': Ticks)
    requires Nondecreasing(ticks) && n < |ticks| && !TriedSettled(ticks, cfg, stream, signals, decision, drawn, n)
    ensures Nondecreasing(ticks') && Agree(ticks, ticks', n)
    ensures Try(ticks', cfg, stream, signals, decision, drawn) != Try(ticks, cfg, stream, signals, decision, drawn)
    decreases |signals|
  {
    hide SettledBy, Outcome, Nondecreasing, Agree, LatencyOf, DrawsAfter;
    var s := signals[0];
    var latency := LatencyOf(cfg, stream, s, drawn);
    if !SettledBy(ticks, cfg, s, decision, latency, n) {
      ticks' := OtherSeries(ticks, n, cfg, s, decision, latency);
      LooksAtOne(ticks, cfg, stream, signals[1..], decision, DrawsAfter(s, drawn));
      LooksAtOne(ticks', cfg, stream, signals[1..], decision, DrawsAfter(s, drawn));
    } else {
      ticks' := OtherTries(ticks, n, cfg, stream, signals[1..], decision, DrawsAfter(s, drawn));
      SettledStays(ticks, ticks', n, cfg, s, decision, latency);
    }
  }

  lemma LooksAtOne(ticks: Ticks, cfg: Settings, stream: nat -> Draw, signals: seq<TradeSignal>, decision: int, drawn: nat)
    ensures Try(ticks, cfg, stream, signals, decision, drawn).count == 0 <==> signals == []
    ensures signals == [] ==> Try(ticks, cfg, stream, signals, decision, drawn).fill.None?
  {
    hide Outcome;
  }

  /** What a step makes of its signals depends on no tick after `n` exactly when every signal it looks at is
      settled by `n`. */
  lemma TriedExactly(ticks: Ticks, n: nat, cfg: Settings, stream: nat -> Draw, signals: seq<TradeSignal>, decision: int,
                     drawn: nat)
    requires Nondecreasing(ticks) && n < |ticks|
    ensures TriedSettled(ticks, cfg, stream, signals, decision, drawn, n) <==>
            forall ticks' | Nondecreasing(ticks') && Agree(ticks, ticks', n) ::
              Try(ticks', cfg, stream, signals, decision, drawn) == Try(ticks, cfg, stream, signals, decision, drawn)
  {
    hide TriedSettled, Try, Nondecreasing, Agree;
    if TriedSettled(ticks, cfg, stream, signals, decision, drawn, n) {
      forall ticks' | Nondecreasing(ticks') && Agree(ticks, ticks', n)
        ensures Try(ticks', cfg, stream, signals, decision, drawn) == Try(ticks, cfg, stream, signals, decision, drawn)
      {
        TriesAgree(ticks, ticks', n, cfg, stream, signals, decision, drawn);
      }
    } else {
      var other := OtherTries(ticks, n, cfg, stream, signals, decision, drawn);
      assert Nondecreasing(other) && Agree(ticks, other, n);
    }
  }

  /** The walk shows what a step made of its signals. */
  lemma AdvanceShows(p: Progress, tried: Tried, tried': Tried)
    requires Advanced(p, tried) == Advanced(p, tried')
    ensures tried == tried'
  {
    var fills, fills' := Advanced(p, tried).fills, Advanced(p, tried').fills;
    assert |fills| == |p.fills| + (if tried.fill.Some? then 1 else 0);
    assert |fills'| == |p.fills| + (if tried'.fill.Some? then 1 else 0);
    if tried.fill.Some? {
      assert fills[|p.fills|] == tried.fill.value && fills'[|p.fills|] == tried'.fill.value;
    }
  }

  lemma OtherStep(p: Progress, ticks: Ticks, n: nat, cfg: Settings, stream: nat -> Draw, make: SignalMaker, window: nat,
                  end: nat) returns (ticks': Ticks)
    requires Nondecreasing(ticks) && n < |ticks| && 0 < window <= end <= n + 1
    requires !StepSettled(p, ticks, cfg, stream, make, window, end, n)
    ensures Nondecreasing(ticks') && Agree(ticks, ticks', n)
    ensures StepWalk(p, ticks', cfg, stream, make, window, end) != StepWalk(p, ticks, cfg, stream, make, window, end)
  {
    hide Try, TriedSettled, Nondecreasing, Advanced;
    var signals, decision := make(ticks[end - window..end]), ticks[end - 1].timeMsc;
    ticks' := OtherTries(ticks, n, cfg, stream, signals, decision, p.drawn);
    assert ticks'[end - window..end] == ticks[end - window..end];
    if StepWalk(p, ticks', cfg, stream, make, window, end) == StepWalk(p, ticks, cfg, stream, make, window, end) {
      AdvanceShows(p, Try(ticks', cfg, stream, signals, decision, p.drawn), Try(ticks, cfg, stream, signals, decision, p.drawn));
      assert false;
    }
  }

  /** The state of the walk after each of its steps before `bound`. */
  function Trace(p: Progress, ticks: Ticks, cfg: Settings, stream: nat -> Draw, make: SignalMaker, window: nat, step: nat,
                 end: nat, bound: nat): seq<Progress>
    requires 0 < window <= end && 0 < step && bound <= |ticks|
    decreases if end < bound then bound - end else 0
  {
    if end >= bound then []
    else
      var p' := StepWalk(p, ticks, cfg, stream, make, window, end);
      [p'] + Trace(p', ticks, cfg, stream, make, window, step, end + step, bound)
  }

  /** The walk ends where its trace ends. */
  lemma {:induction false} TraceEnds(p: Progress, ticks: Ticks, cfg: Settings, stream: nat -> Draw, make: SignalMaker,
                                     window: nat, step: nat, end: nat, bound: nat)
    requires 0 < window <= end && 0 < step && bound <= |ticks|
    ensures var trace := Trace(p, ticks, cfg, stream, make, window, step, end, bound);
      Walk(p, ticks, cfg, stream, make, window, step, end, bound) == if trace == [] then p else trace[|trace| - 1]
    decreases if end < bound then bound - end else 0
  {
    hide StepWalk;
    if end >= bound {
    } else {
      TraceEnds(StepWalk(p, ticks, cfg, stream, make, window, end), ticks, cfg, stream, make, window, step, end + step, bound);
    }
  }

  lemma {:induction false} TracesAgree(p: Progress, ticks: Ticks, ticks': Ticks, n: nat, cfg: Settings, stream: nat -> Draw,
                                       make: SignalMaker, window: nat, step: nat, end: nat, bound: nat)
    requires Nondecreasing(ticks) && Nondecreasing(ticks') && Agree(ticks, ticks', n)
    requires 0 < window <= end && 0 < step && bound <= n + 1
    requires WalkSettled(p, ticks, cfg, stream, make, window, step, end, bound, n)
    ensures Trace(p, ticks', cfg, stream, make, window, step, end, bound)
            == Trace(p, ticks, cfg, stream, make, window, step, end, bound)
    decreases if end < bound then bound - end else 0
  {
    hide StepWalk, TriedSettled, Nondecreasing;
    if end >= bound {
    } else {
      StepsAgree(p, ticks, ticks', n, cfg, stream, make, window, end);
      TracesAgree(StepWalk(p, ticks, cfg, stream, make, window, end), ticks, ticks', n, cfg, stream, make, window, step,
                  end + step, bound);
    }
  }

  lemma {:induction false} OtherTrace(p: Progress, ticks: Ticks, n: nat, cfg: Settings, stream: nat -> Draw, make: SignalMaker,
                                      window: nat, step: nat, end: nat, bound: nat) returns (ticks': Ticks)
    requires Nondecreasing(ticks) && n < |ticks| && 0 < window <= end && 0 < step && bound <= n + 1
    requires !WalkSettled(p, ticks, cfg, stream, make, window, step, end, bound, n)
    ensures Nondecreasing(ticks') && Agree(ticks, ticks', n)
    ensures Trace(p, ticks', cfg, stream, make, window, step, end, bound)
            != Trace(p, ticks, cfg, stream, make, window, step, end, bound)
    decreases if end < bound then bound - end else 0
  {
    hide StepWalk, TriedSettled, Nondecreasing;
    var p' := StepWalk(p, ticks, cfg, stream, make, window, end);
    if !StepSettled(p, ticks, cfg, stream, make, window, end, n) {
      ticks' := OtherStep(p, ticks, n, cfg, stream, make, window, end);
      assert Trace(p, ticks', cfg, stream, make, window, step, end, bound)[0]
             == StepWalk(p, ticks', cfg, stream, make, window, end);
      assert Trace(p, ticks, cfg, stream, make, window, step, end, bound)[0] == p';
    } else {
      ticks' := OtherTrace(p', ticks, n, cfg, stream, make, window, step, end + step, bound);
      StepsAgree(p, ticks, ticks', n, cfg, stream, make, window, end);
      assert Trace(p, ticks', cfg, stream, make, window, step, end, bound)[1..]
             == Trace(p', ticks', cfg, stream, make, window, step, end + step, bound);
      assert Trace(p, ticks, cfg, stream, make, window, step, end, bound)[1..]
             == Trace(p', ticks, cfg, stream, make, window, step, end + step, bound);
    }
  }

  /** HOW FAR AHEAD A WALK LOOKS. The steps of a walk that decide by tick `n` depend on no later tick, step by step,
      exactly when every signal they look at is settled by `n`. */
  lemma WalkExactly(p: Progress, ticks: Ticks, n: nat, cfg: Settings, stream: nat -> Draw, make: SignalMaker, window: nat,
                    step: nat, end: nat, bound: nat)
    requires Nondecreasing(ticks) && n < |ticks| && 0 < window <= end && 0 < step && bound <= n + 1
    ensures WalkSettled(p, ticks, cfg, stream, make, window, step, end, bound, n) <==>
            forall ticks' | Nondecreasing(ticks') && Agree(ticks, ticks', n) ::
              Trace(p, ticks', cfg, stream, make, window, step, end, bound)
              == Trace(p, ticks, cfg, stream, make, window, step, end, bound)
  {
    hide WalkSettled, Trace, Nondecreasing;
    if WalkSettled(p, ticks, cfg, stream, make, window, step, end, bound, n) {
      forall ticks' | Nondecreasing(ticks') && Agree(ticks, ticks', n)
        ensures Trace(p, ticks', cfg, stream, make, window, step, end, bound)
                == Trace(p, ticks, cfg, stream, make, window, step, end, bound)
      {
        TracesAgree(p, ticks, ticks', n, cfg, stream, make, window, step, end, bound);
      }
    } else {
      var other := OtherTrace(p, ticks, n, cfg, stream, make, window, step, end, bound);
      assert Nondecreasing(other) && Agree(ticks, other, n);
    }
  }

  /** Why settled signals are needed: a resting order that has not lapsed by the end of the series gives way to
      the next signal, which fills and leaves; one more tick, and the order fills and the next signal is not
      looked at. */
  lemma UnsettledOrderLooksAhead(ticks: Ticks, cfg: Settings, stream: nat -> Draw, order: TradeSignal, next: TradeSignal,
                                 decision: int, drawn: nat) returns (ticks': Ticks)
    requires Nondecreasing(ticks) && ticks != [] && order.pending && Touchable(order)
    requires ticks[|ticks| - 1].timeMsc <= decision + ORDER_TTL_MSC
    requires Outcome(ticks, cfg, order, decision, 0.0).None?
    requires Outcome(ticks, cfg, next, decision, LatencyOf(cfg, stream, next, drawn)).Some?
    ensures Nondecreasing(ticks') && Agree(ticks, ticks', |ticks| - 1)
    ensures Try(ticks, cfg, stream, [order, next], decision, drawn).count == 2
    ensures Try(ticks, cfg, stream, [order, next], decision, drawn).fill
            == Outcome(ticks, cfg, next, decision, LatencyOf(cfg, stream, next, drawn))
    ensures Try(ticks', cfg, stream, [order, next], decision, drawn).count == 1
  {
    hide Simulate, Touchable, Nondecreasing;
    ticks' := LateTouch(ticks, |ticks| - 1, cfg, order, decision, 0.0);
    assert [order, next][1..] == [next];
  }
}
