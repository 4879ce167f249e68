/** Position sizing under several caps at once. Volumes are whole steps of the symbol's volume grid. */
module Sizing {
  import opened Protocol
  import opened Reals
  import Market
  import Accounting

  const NUDGE := 0.000000001
  const TOLERANCE := 0.02
  const CANARY_MULTIPLE := 1.5

  datatype RiskData = RiskData(riskPerTrade: real, maxRiskPerTrade: real, minMarginLevelPct: real)

  /** A validated risk configuration. */
  type RiskConfig = c: RiskData | 0.0 < c.riskPerTrade <= c.maxRiskPerTrade && 100.0 < c.minMarginLevelPct
    witness RiskData(1.0, 1.0, 101.0)

  /** The broker's own answers for a volume in steps; None when it cannot say. */
  datatype BrokerCalc = BrokerCalc(profit: int -> Option<real>, margin: int -> Option<real>)

  datatype SizingResult =
    | Refusal(reason: string)
    | Sized(lots: int, riskCcy: real, riskFrac: real, brokerLoss: real, margin: real, canary: bool)

  /** Whole steps in a volume, rounded down after a nudge against representation error. */
  function FloorToStep(volume: real, step: real): int
    requires step > 0.0
  {
    (volume / step + NUDGE).Floor
  }

  function LossPerLot(spec: Spec, entry: real, sl: real): real
  {
    Abs(entry - sl) / spec.tickSize * spec.tickValueLoss
  }

  /** Loss of `lots` steps at the stop. */
  function LossOf(lots: int, step: real, lossPerLot: real): real
  {
    lots as real * step * lossPerLot
  }

  function Budget(cfg: RiskConfig, equity: real): real { equity * cfg.riskPerTrade }

  function Cap(cfg: RiskConfig, equity: real): real { equity * cfg.maxRiskPerTrade }

  // -------------------------------------------------------------- arithmetic

  lemma LossRises(m: int, n: int, step: real, perLot: real)
    requires m <= n && step > 0.0 && perLot > 0.0
    ensures LossOf(m, step, perLot) <= LossOf(n, step, perLot)
  {
    Scale(m as real, n as real, step);
    Scale(m as real * step, n as real * step, perLot);
  }

  lemma Above(v: real, d: real, m: real)
    requires d > 0.0 && v / d < m
    ensures v < m * d
  {
    Undo(v, d);
    ScaleStrictly(v / d, m, d);
  }

  lemma Below(v: real, d: real, m: real, e: real)
    requires d > 0.0 && m <= v / d + e
    ensures m * d <= v + e * d
  {
    Undo(v, d);
    Scale(m, v / d + e, d);
    Distribute(v / d, e, d);
  }

  /** Flooring spends at most the budget, up to the nudge, and one more step would overspend it. */
  lemma FloorSpends(budget: real, step: real, perLot: real)
    requires step > 0.0 && perLot > 0.0
    ensures var n := FloorToStep(budget / perLot, step);
      && LossOf(n, step, perLot) <= budget + NUDGE * step * perLot
      && LossOf(n + 1, step, perLot) > budget
  {
    var v := budget / perLot;
    var n := FloorToStep(v, step);
    var lots, more := n as real * step, (n + 1) as real * step;
    Below(v, step, n as real, NUDGE);
    Below(budget, perLot, lots, NUDGE * step);
    Above(v, step, (n + 1) as real);
    Above(budget, perLot, more);
  }

  /** A larger budget never floors to fewer steps. */
  lemma FloorRises(small: real, large: real, step: real, perLot: real)
    requires small <= large && step > 0.0 && perLot > 0.0
    ensures FloorToStep(small / perLot, step) <= FloorToStep(large / perLot, step)
  {
    Divide(small, large, perLot);
    Divide(small / perLot, large / perLot, step);
  }

  lemma OneMore(n: int, step: real, perLot: real)
    ensures LossOf(n + 1, step, perLot) == LossOf(n, step, perLot) + step * perLot
  {
    Distribute(n as real, 1.0, step);
    Distribute(n as real * step, step, perLot);
  }

  /** Flooring never reaches past a volume that already overspends the budget. */
  lemma FloorBelow(budget: real, step: real, perLot: real, lots: int)
    requires step > 0.0 && perLot > 0.0 && LossOf(lots, step, perLot) > budget
    ensures FloorToStep(budget / perLot, step) <= lots
  {
    hide LossOf, FloorToStep;
    var n := FloorToStep(budget / perLot, step);
    FloorSpends(budget, step, perLot);
    OneMore(n - 1, step, perLot);
    SmallNudge(step, perLot);
    if n > lots {
      LossRises(lots, n - 1, step, perLot);
      assert false;
    }
  }

  lemma SmallNudge(step: real, perLot: real)
    requires step > 0.0 && perLot > 0.0
    ensures 0.0 < NUDGE * step * perLot < step * perLot
  {
    ScaleStrictly(0.0, step, perLot);
    assert NUDGE * step * perLot == NUDGE * (step * perLot);
  }

  // ------------------------------------------------------------------ sizing

  /** The broker's loss for this volume agrees with tick mathematics. */
  predicate LossAgrees(answers: BrokerCalc, lots: int, risk: real)
  {
    answers.profit(lots).Some? && answers.margin(lots).Some?
    && var loss := Abs(answers.profit(lots).value);
       loss > 0.0 && Abs(loss - risk) / loss <= TOLERANCE
  }

  predicate MarginHolds(cfg: RiskConfig, equity: real, marginUsed: real, margin: real)
  {
    marginUsed + margin > 0.0 ==> equity / (marginUsed + margin) * 100.0 >= cfg.minMarginLevelPct
  }

  /** The smallest volume that may be sized: the symbol's minimum, unless its maximum is smaller still. */
  function Least(spec: Spec): int { Min(spec.volumeMin, spec.volumeMax) }

  /** What an accepted size guarantees. */
  ghost predicate Acceptable(cfg: RiskConfig, spec: Spec, entry: real, sl: real, equity: real, marginUsed: real,
                             canary: bool, r: SizingResult)
    requires r.Sized? && equity > 0.0
  {
    var perLot := LossPerLot(spec, entry, sl);
    var budget := Budget(cfg, equity);
    var slack := NUDGE * spec.volumeStep * perLot;
    && Least(spec) <= r.lots <= spec.volumeMax
    && r.riskCcy == LossOf(r.lots, spec.volumeStep, perLot) && r.riskFrac == r.riskCcy / equity && r.canary == canary
    && r.riskCcy <= (if canary then CANARY_MULTIPLE * budget else budget + slack)
    && r.riskCcy <= Cap(cfg, equity) + slack
    && 0.0 < r.brokerLoss <= r.riskCcy / (1.0 - TOLERANCE)
    && MarginHolds(cfg, equity, marginUsed, r.margin)
    && (canary ==> r.lots == Least(spec))
    && (!canary ==> r.lots == spec.volumeMax || LossOf(r.lots + 1, spec.volumeStep, perLot) > budget)
  }

  /** What each reason for a refusal says; there is no other. */
  ghost predicate Justified(cfg: RiskConfig, spec: Spec, perLot: real, equity: real, answers: BrokerCalc, marginUsed: real,
                            canary: bool, reason: string)
  {
    var least := LossOf(spec.volumeMin, spec.volumeStep, perLot);
    && (reason in {"NO_EQUITY", "NO_STOP", "SPEC_MISMATCH", "RISK_TOO_SMALL_FOR_MIN_LOT", "CANARY_MIN_LOT_TOO_RISKY",
                   "MARGIN_FLOOR"})
    && (reason == "RISK_TOO_SMALL_FOR_MIN_LOT" ==> least > if canary then Cap(cfg, equity) else Budget(cfg, equity))
    && (reason == "CANARY_MIN_LOT_TOO_RISKY" ==> canary && least > CANARY_MULTIPLE * Budget(cfg, equity))
    && (reason == "SPEC_MISMATCH" ==> perLot <= 0.0 || exists lots | Least(spec) <= lots <= spec.volumeMax ::
          !LossAgrees(answers, lots, LossOf(lots, spec.volumeStep, perLot)))
    && (reason == "MARGIN_FLOOR" ==> equity > 0.0 && exists lots | Least(spec) <= lots <= spec.volumeMax ::
          MarginFails(cfg, equity, answers, marginUsed, lots))
  }

  predicate MarginFails(cfg: RiskConfig, equity: real, answers: BrokerCalc, marginUsed: real, lots: int)
  {
    answers.margin(lots).Some? && !MarginHolds(cfg, equity, marginUsed, answers.margin(lots).value)
  }

  /** Sizes a trade, or refuses it with a reason. An accepted size lies on the volume grid within the symbol's
      limits, loses no more at its stop than the risk budget (one and a half times that for a canary's
      minimum lot) and the hard cap, agrees with the broker's own loss, keeps the margin level above its
      floor, and outside canary mode is as large as the budget allows. */
  method SizePosition(cfg: RiskConfig, spec: Spec, entry: real, sl: real, equity: real, answers: BrokerCalc,
                      marginUsed: real, canary: bool) returns (r: SizingResult)
    ensures r.Sized? ==> equity > 0.0 && Acceptable(cfg, spec, entry, sl, equity, marginUsed, canary, r)
    ensures r.Sized? ==> answers.profit(r.lots).Some? && r.brokerLoss == Abs(answers.profit(r.lots).value)
    ensures r.Sized? ==> answers.margin(r.lots) == Some(r.margin)
    ensures r == Refusal("NO_EQUITY") <==> equity <= 0.0
    ensures r == Refusal("NO_STOP") <==> equity > 0.0 && (entry == sl || sl <= 0.0)
    ensures r.Refusal? ==> Justified(cfg, spec, LossPerLot(spec, entry, sl), equity, answers, marginUsed, canary, r.reason)
  {
    hide LossOf, LossPerLot, FloorToStep, LossAgrees, MarginHolds, MarginFails, Budget, Cap;
    if equity <= 0.0 {
      return Refusal("NO_EQUITY");
    }
    if Abs(entry - sl) <= 0.0 || sl <= 0.0 {
      return Refusal("NO_STOP");
    }
    var perLot := LossPerLot(spec, entry, sl);
    if perLot <= 0.0 {
      return Refusal("SPEC_MISMATCH");
    }
    BudgetWithinCap(equity, cfg);
    var refusal, lots := ChooseLots(spec, perLot, Budget(cfg, equity), Cap(cfg, equity), canary);
    if refusal != "" {
      return Refusal(refusal);
    }
    r := CheckBroker(cfg, equity, answers, marginUsed, canary, lots, LossOf(lots, spec.volumeStep, perLot));
  }

  /** The largest volume within budget, cap and the symbol's limits; the minimum volume for a canary. */
  method ChooseLots(spec: Spec, perLot: real, budget: real, cap: real, canary: bool) returns (refusal: string, lots: int)
    requires perLot > 0.0 && budget <= cap
    ensures refusal in {"", "RISK_TOO_SMALL_FOR_MIN_LOT", "CANARY_MIN_LOT_TOO_RISKY"}
    ensures refusal == "CANARY_MIN_LOT_TOO_RISKY" ==>
      canary && LossOf(spec.volumeMin, spec.volumeStep, perLot) > CANARY_MULTIPLE * budget
    ensures refusal == "RISK_TOO_SMALL_FOR_MIN_LOT" ==>
      LossOf(spec.volumeMin, spec.volumeStep, perLot) > if canary then cap else budget
    ensures refusal == "" ==>
      var slack := NUDGE * spec.volumeStep * perLot;
      var loss := LossOf(lots, spec.volumeStep, perLot);
      && Least(spec) <= lots <= spec.volumeMax
      && loss <= (if canary then CANARY_MULTIPLE * budget else budget + slack) && loss <= cap + slack
      && (canary ==> lots == Least(spec))
      && (!canary ==> lots == spec.volumeMax || LossOf(lots + 1, spec.volumeStep, perLot) > budget)
  {
    hide LossOf, FloorToStep;
    var step := spec.volumeStep;
    FloorSpends(budget, step, perLot);
    SmallNudge(step, perLot);
    var floored := FloorToStep(budget / perLot, step);
    lots := floored;
    if canary {
      lots := spec.volumeMin;
      if LossOf(lots, step, perLot) > CANARY_MULTIPLE * budget {
        return "CANARY_MIN_LOT_TOO_RISKY", lots;
      }
    } else if lots < spec.volumeMin {
      LossRises(floored + 1, spec.volumeMin, step, perLot);
      return "RISK_TOO_SMALL_FOR_MIN_LOT", lots;
    }
    lots := Min(lots, spec.volumeMax);
    LossRises(lots, if canary then spec.volumeMin else floored, step, perLot);
    if LossOf(lots, step, perLot) > cap {
      var capped := FloorToStep(cap / perLot, step);
      FloorSpends(cap, step, perLot);
      FloorRises(budget, cap, step, perLot);
      FloorBelow(cap, step, perLot, lots);
      LossRises(capped, lots, step, perLot);
      lots := capped;
      if lots < spec.volumeMin {
        LossRises(capped + 1, spec.volumeMin, step, perLot);
        return "RISK_TOO_SMALL_FOR_MIN_LOT", lots;
      }
    }
    refusal := "";
  }

  lemma BudgetWithinCap(equity: real, cfg: RiskConfig)
    requires equity > 0.0
    ensures 0.0 < Budget(cfg, equity) <= Cap(cfg, equity)
  {
    ScaleStrictly(0.0, cfg.riskPerTrade, equity);
    Scale(cfg.riskPerTrade, cfg.maxRiskPerTrade, equity);
  }

  /** The broker's own loss must agree with tick mathematics, and the margin level must hold. */
  method CheckBroker(cfg: RiskConfig, equity: real, answers: BrokerCalc, marginUsed: real, canary: bool, lots: int, risk: real)
      returns (r: SizingResult)
    requires equity > 0.0
    ensures r.Refusal? ==> r.reason == "SPEC_MISMATCH" || r.reason == "MARGIN_FLOOR"
    ensures r == Refusal("SPEC_MISMATCH") <==> !LossAgrees(answers, lots, risk)
    ensures r == Refusal("MARGIN_FLOOR") ==> MarginFails(cfg, equity, answers, marginUsed, lots)
    ensures r.Sized? ==>
      && r.lots == lots && r.riskCcy == risk && r.riskFrac == risk / equity && r.canary == canary
      && answers.profit(lots).Some? && r.brokerLoss == Abs(answers.profit(lots).value)
      && answers.margin(lots) == Some(r.margin)
      && 0.0 < r.brokerLoss <= risk / (1.0 - TOLERANCE)
      && MarginHolds(cfg, equity, marginUsed, r.margin)
  {
    var profit := answers.profit(lots);
    if profit.None? {
      return Refusal("SPEC_MISMATCH");
    }
    var brokerLoss := Abs(profit.value);
    if brokerLoss <= 0.0 || Abs(brokerLoss - risk) / brokerLoss > TOLERANCE {
      return Refusal("SPEC_MISMATCH");
    }
    AgreementBounds(brokerLoss, risk);
    var margin := answers.margin(lots);
    if margin.None? {
      return Refusal("SPEC_MISMATCH");
    }
    var projected := marginUsed + margin.value;
    if projected > 0.0 {
      if equity / projected * 100.0 < cfg.minMarginLevelPct {
        return Refusal("MARGIN_FLOOR");
      }
    }
    r := Sized(lots, risk, risk / equity, brokerLoss, margin.value, canary);
  }

  /** The loss that sizing counts with is the loss that the ledger books when the stop is hit. */
  lemma StopCostsThat(spec: Spec, side: Side, lots: int, entry: real, sl: real)
    requires if side.BUY? then sl <= entry else entry <= sl
    ensures Market.CalcProfit(spec, side, lots, entry, sl) == -LossOf(lots, spec.volumeStep, LossPerLot(spec, entry, sl))
  {
    hide Market.CalcProfit;
    Accounting.ProfitMeans(spec, lots, entry, sl);
    Commutes(Abs(entry - sl) / spec.tickSize * spec.tickValueLoss, lots as real * spec.volumeStep);
  }

  lemma Commutes(a: real, b: real)
    ensures a * b == b * a
  {
  }

  /** The broker agrees when it answers and tick mathematics is within two percent of its loss either way. */
  lemma AgreesWithinTwoPercent(answers: BrokerCalc, lots: int, risk: real)
    ensures LossAgrees(answers, lots, risk) <==>
            && answers.profit(lots).Some? && answers.profit(lots).value != 0.0 && answers.margin(lots).Some?
            && var loss := Abs(answers.profit(lots).value);
               0.98 * loss <= risk <= 1.02 * loss
  {
    if answers.profit(lots).Some? && answers.profit(lots).value != 0.0 {
      WithinTwoPercent(Abs(answers.profit(lots).value), risk);
    }
  }

  lemma WithinTwoPercent(loss: real, risk: real)
    requires loss > 0.0
    ensures Abs(loss - risk) / loss <= TOLERANCE <==> 0.98 * loss <= risk <= 1.02 * loss
  {
    var d := Abs(loss - risk);
    var share := d / loss;
    Undo(d, loss);
    Commutes(share, loss);
    if share <= TOLERANCE {
      Scale(share, TOLERANCE, loss);
    } else {
      ScaleStrictly(TOLERANCE, share, loss);
    }
  }

  /** The margin level holds when equity is at least the demanded percentage of all margin, new and old. */
  lemma MarginMeans(cfg: RiskConfig, equity: real, marginUsed: real, margin: real)
    requires marginUsed + margin > 0.0
    ensures MarginHolds(cfg, equity, marginUsed, margin) <==>
            cfg.minMarginLevelPct * (marginUsed + margin) <= equity * 100.0
  {
    Undo(equity, marginUsed + margin);
    LevelMeans(equity / (marginUsed + margin), marginUsed + margin, cfg.minMarginLevelPct, equity);
  }

  lemma LevelMeans(level: real, used: real, pct: real, equity: real)
    requires used > 0.0 && level * used == equity
    ensures level * 100.0 >= pct <==> pct * used <= equity * 100.0
  {
    Swap(level, 100.0, used);
    if level * 100.0 >= pct {
      Scale(pct, level * 100.0, used);
    } else {
      ScaleStrictly(level * 100.0, pct, used);
    }
  }

  lemma Swap(a: real, b: real, c: real)
    ensures a * b * c == a * c * b
  {
  }

  lemma AgreementBounds(broker: real, risk: real)
    requires broker > 0.0 && Abs(broker - risk) / broker <= TOLERANCE
    ensures broker <= risk / (1.0 - TOLERANCE)
  {
    var d := Abs(broker - risk);
    Undo(d, broker);
    Scale(d / broker, TOLERANCE, broker);
    assert broker - risk <= d <= TOLERANCE * broker;
    assert (1.0 - TOLERANCE) * broker <= risk;
    Divide((1.0 - TOLERANCE) * broker, risk, 1.0 - TOLERANCE);
  }
}
