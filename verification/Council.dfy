/** The cost gate and the council: hard gates first, then a quality score with verdict bands. */
module Council {
  import opened Protocol
  import opened Reals

  const TICK_MAX_AGE_S := 0.5

  // -------------------------------------------------------------------- cost

  datatype GateData = GateData(kMultiple: real, kFloor: real, minNetRr: real, minNetRrFloor: real)

  /** A validated cost gate: the floors themselves have hard lower limits. */
  type CostGate = g: GateData | 3.0 <= g.kFloor <= g.kMultiple && 0.8 <= g.minNetRrFloor <= g.minNetRr
    witness GateData(4.0, 3.0, 1.0, 0.8)

  datatype Candidate = Candidate(slPoints: int, tpPoints: int, spreadPoints: real, kOverride: Option<real>, minRrOverride: Option<real>)

  datatype CostVerdict = CostVerdict(ok: bool, reasons: seq<string>, costPoints: real, costMultiple: real, netRr: real, wrBe: real)

  /** Round-trip commission in points; None when the symbol's point has no positive value. */
  function CommissionPoints(spec: Spec, commissionPerSide: real): Option<real>
  {
    var money := spec.tickValue * (spec.point / spec.tickSize);
    if money <= 0.0 then None else Some(2.0 * commissionPerSide / money)
  }

  /** The win rate at which a trade of this net reward-to-risk breaks even. */
  function WrBreakeven(netRr: real): real { if netRr > 0.0 then 1.0 / (1.0 + netRr) else 1.0 }

  function NetRr(c: Candidate, cost: real): real
  {
    var loss := c.slPoints as real + cost;
    if loss > 0.0 then (c.tpPoints as real - cost) / loss else 0.0
  }

  /** A strategy may demand more than the configured floors, never less. */
  function Demanded(floor: real, override: Option<real>): (k: real)
    ensures k >= floor
  {
    Larger(floor, if override.Some? then override.value else 0.0)
  }

  /** The cost verdict of a candidate that cleared a validated gate. */
  predicate Cleared(cost: CostVerdict)
  {
    cost.ok && (cost.costPoints > 0.0 ==> cost.costMultiple >= 3.0) && (cost.costPoints <= 0.0 ==> cost.costMultiple == 0.0)
  }

  /** What the news calendar says about the symbol now. */
  datatype News = CLEAR | BLACKOUT | UNKNOWN

  function When(holds: bool, reason: string): seq<string> { if holds then [reason] else [] }

  /** Every test that fails gives its reason. */
  function CostReasons(gate: CostGate, c: Candidate, cost: real, netRr: real, spreadCap: real, quiet: Option<real>,
                       closed: Option<string>, news: News): seq<string>
  {
    When(c.tpPoints as real < Demanded(gate.kMultiple, c.kOverride) * cost, "COST_GATE_FAIL")
    + When(netRr < Demanded(gate.minNetRr, c.minRrOverride), "RR_TOO_LOW")
    + When(c.spreadPoints > spreadCap, "SPREAD_TOO_HIGH")
    + When(quiet.None? || c.spreadPoints > quiet.value, "LIQUIDITY_WINDOW")
    + When(closed.Some?, if closed.Some? then closed.value else "")
    + When(!news.CLEAR?, if news.BLACKOUT? then "NEWS_BLACKOUT" else "NEWS_UNKNOWN_BLOCKED")
  }

  /** The cost gate; None stands for the error raised when the symbol's point has no positive value. `quiet` is
      the spread that the liquidity window allows, None without enough history; `closed` is why the session is
      closed, None while it is open. */
  method EvaluateCost(gate: CostGate, spec: Spec, c: Candidate, commissionPerSide: real, slippage: real, spreadCap: real,
                      quiet: Option<real>, closed: Option<string>, news: News)
      returns (r: Option<CostVerdict>)
    ensures r.None? <==> CommissionPoints(spec, commissionPerSide).None?
    ensures r.Some? ==> var v := r.value;
      && v.costPoints == c.spreadPoints + CommissionPoints(spec, commissionPerSide).value + slippage
      && v.netRr == NetRr(c, v.costPoints) && v.wrBe == WrBreakeven(v.netRr)
      && (v.ok <==> v.reasons == [])
      && (v.ok <==> && c.tpPoints as real >= Demanded(gate.kMultiple, c.kOverride) * v.costPoints
                    && v.netRr >= Demanded(gate.minNetRr, c.minRrOverride)
                    && c.spreadPoints <= spreadCap && quiet.Some? && c.spreadPoints <= quiet.value
                    && closed.None? && news.CLEAR?)
      && (v.ok ==> Cleared(v) && v.wrBe <= 1.0 / (1.0 + gate.minNetRr) <= 1.0 / 1.8)
      && (v.ok && v.costPoints > 0.0 ==> v.costMultiple >= Demanded(gate.kMultiple, c.kOverride))
      && (if v.costPoints > 0.0 then v.costMultiple * v.costPoints == c.tpPoints as real else v.costMultiple == 0.0)
    ensures r.Some? ==>
      r.value.reasons == CostReasons(gate, c, r.value.costPoints, r.value.netRr, spreadCap, quiet, closed, news)
  {
    hide WrBreakeven, NetRr, CommissionPoints, CostReasons;
    var commission := CommissionPoints(spec, commissionPerSide);
    if commission.None? {
      return None;
    }
    var cost := c.spreadPoints + commission.value + slippage;
    var k := Demanded(gate.kMultiple, c.kOverride);
    var tp := c.tpPoints as real;
    var multiple := if cost > 0.0 then tp / cost else 0.0;
    if cost > 0.0 {
      Undo(tp, cost);
    }
    var netRr := NetRr(c, cost);
    var reasons := CostTests(gate, c, cost, netRr, spreadCap, quiet, closed, news);
    if tp >= k * cost && cost > 0.0 {
      ClearsCost(tp, k, cost);
    }
    if netRr >= Demanded(gate.minNetRr, c.minRrOverride) {
      BreakevenFalls(gate.minNetRr, netRr);
      BreakevenFalls(0.8, gate.minNetRr);
    }
    r := Some(CostVerdict(reasons == [], reasons, cost, multiple, netRr, WrBreakeven(netRr)));
  }

  /** The tests of the cost gate, one after another. */
  method CostTests(gate: CostGate, c: Candidate, cost: real, netRr: real, spreadCap: real, quiet: Option<real>,
                   closed: Option<string>, news: News) returns (reasons: seq<string>)
    ensures reasons == CostReasons(gate, c, cost, netRr, spreadCap, quiet, closed, news)
    ensures reasons == [] <==> && c.tpPoints as real >= Demanded(gate.kMultiple, c.kOverride) * cost
                               && netRr >= Demanded(gate.minNetRr, c.minRrOverride)
                               && c.spreadPoints <= spreadCap && quiet.Some? && c.spreadPoints <= quiet.value
                               && closed.None? && news.CLEAR?
  {
    hide When;
    NothingWhenClear(c.tpPoints as real < Demanded(gate.kMultiple, c.kOverride) * cost, "COST_GATE_FAIL");
    reasons := Noted([], c.tpPoints as real < Demanded(gate.kMultiple, c.kOverride) * cost, "COST_GATE_FAIL");
    reasons := Noted(reasons, netRr < Demanded(gate.minNetRr, c.minRrOverride), "RR_TOO_LOW");
    reasons := Noted(reasons, c.spreadPoints > spreadCap, "SPREAD_TOO_HIGH");
    reasons := Noted(reasons, quiet.None? || c.spreadPoints > quiet.value, "LIQUIDITY_WINDOW");
    reasons := Noted(reasons, closed.Some?, if closed.Some? then closed.value else "");
    reasons := Noted(reasons, !news.CLEAR?, if news.BLACKOUT? then "NEWS_BLACKOUT" else "NEWS_UNKNOWN_BLOCKED");
  }

  lemma NothingWhenClear(fails: bool, reason: string)
    ensures [] + When(fails, reason) == When(fails, reason)
  {
  }

  /** One more reason if a test fails. */
  method Noted(before: seq<string>, fails: bool, reason: string) returns (reasons: seq<string>)
    ensures reasons == before + When(fails, reason) && (reasons == [] <==> before == [] && !fails)
  {
    reasons := before;
    if fails {
      reasons := reasons + [reason];
    }
  }

  lemma ClearsCost(tp: real, k: real, cost: real)
    requires tp >= k * cost && cost > 0.0
    ensures tp / cost >= k
  {
    Divide(k * cost, tp, cost);
    Cancel(k, cost);
  }

  lemma BreakevenFalls(low: real, high: real)
    requires 0.0 < low <= high
    ensures WrBreakeven(high) <= WrBreakeven(low) == 1.0 / (1.0 + low)
  {
    var a, b := 1.0 + low, 1.0 + high;
    Divide(a, b, b);
    Divide(a / b, 1.0, a);
    assert b / b == 1.0;
    assert (a / b) / a == 1.0 / b;
  }

  /** The break-even win rate is the one at which the expected value after costs is zero; above it the
      trade pays, below it it loses. */
  lemma PaysAboveBreakeven(gain: real, loss: real, rate: real)
    requires gain > 0.0 && loss > 0.0
    ensures rate * gain - (1.0 - rate) * loss > 0.0 <==> rate > WrBreakeven(gain / loss)
    ensures rate * gain - (1.0 - rate) * loss == 0.0 <==> rate == WrBreakeven(gain / loss)
  {
    var be := WrBreakeven(gain / loss);
    BreakevenShare(gain, loss);
    assert rate * gain - (1.0 - rate) * loss == rate * (gain + loss) - loss;
    assert be * (gain + loss) == loss;
    Order(rate, be, gain + loss);
    Order(be, rate, gain + loss);
  }

  /** A candidate earns its target less the cost or loses its stop and the cost. It pays after costs exactly when it
      wins more often than the break-even rate of its verdict. */
  lemma CandidatePays(c: Candidate, cost: real, rate: real)
    requires c.tpPoints as real > cost && c.slPoints as real + cost > 0.0
    ensures rate * (c.tpPoints as real - cost) - (1.0 - rate) * (c.slPoints as real + cost) > 0.0 <==>
            rate > WrBreakeven(NetRr(c, cost))
  {
    hide WrBreakeven;
    PaysAboveBreakeven(c.tpPoints as real - cost, c.slPoints as real + cost, rate);
  }

  /** The commission in points is the move that earns back what both sides of a lot are charged. */
  lemma CommissionEarnedBack(spec: Spec, commissionPerSide: real)
    ensures var points := CommissionPoints(spec, commissionPerSide);
      && (points.Some? <==> spec.tickValue > 0.0)
      && (points.Some? ==> points.value * (spec.tickValue * (spec.point / spec.tickSize)) == 2.0 * commissionPerSide)
  {
    var perTick := spec.point / spec.tickSize;
    Divide(0.0, spec.point, spec.tickSize);
    Undo(spec.point, spec.tickSize);
    assert perTick > 0.0;
    if spec.tickValue > 0.0 {
      ScaleStrictly(0.0, spec.tickValue, perTick);
      Undo(2.0 * commissionPerSide, spec.tickValue * perTick);
    } else {
      Scale(spec.tickValue, 0.0, perTick);
    }
  }

  lemma Order(a: real, b: real, c: real)
    requires c > 0.0
    ensures a * c < b * c <==> a < b
  {
  }

  lemma BreakevenShare(gain: real, loss: real)
    requires gain > 0.0 && loss > 0.0
    ensures WrBreakeven(gain / loss) * (gain + loss) == loss
  {
    var rr := gain / loss;
    assert rr > 0.0;
    assert rr * loss == gain;
    assert (1.0 + rr) * loss == gain + loss;
    var be := 1.0 / (1.0 + rr);
    assert be * (1.0 + rr) == 1.0;
    Regroup(be, 1.0 + rr, loss);
  }

  lemma Regroup(a: real, b: real, c: real)
    ensures a * (b * c) == (a * b) * c
  {
  }

  // ----------------------------------------------------------------- council

  datatype Verdict = APPROVE | APPROVE_REDUCED | SHADOW_ONLY | REJECT

  datatype Inputs = Inputs(dataIntegrity: real, tickAge: real, signalAge: real, pending: bool,
                           conflictingPosition: bool, inFlightIntent: bool, quarantined: bool,
                           reliability: real, slippageOk: bool)

  datatype Floors = Floors(minIntegrity: real, approve: real, reduced: real, shadow: real)

  const DEFAULTS := Floors(70.0, 0.60, 0.45, 0.30)

  function MaxSignalAge(pending: bool): real { if pending then 30.0 else 2.0 }

  predicate GatesPass(floors: Floors, i: Inputs, cost: CostVerdict)
  {
    && cost.ok && i.dataIntegrity >= floors.minIntegrity
    && -TICK_MAX_AGE_S <= i.tickAge <= TICK_MAX_AGE_S
    && i.signalAge <= MaxSignalAge(i.pending)
    && !i.conflictingPosition && !i.inFlightIntent && !i.quarantined
  }

  function Quality(i: Inputs, cost: CostVerdict): real
  {
    0.35 * Smaller(1.0, cost.costMultiple / 8.0) + 0.30 * i.reliability
    + 0.20 * Smaller(1.0, i.dataIntegrity / 100.0) + 0.15 * (if i.slippageOk then 1.0 else 0.4)
  }

  /** The score as points lost from one: 0.35 shared out over the cost headroom up to eight times the cost, 0.30 over
      reliability, 0.20 over data integrity up to 100, and 0.09 for a slippage that is not in order. */
  lemma QualityLost(i: Inputs, cost: CostVerdict)
    ensures 1.0 - Quality(i, cost) ==
            (if cost.costMultiple >= 8.0 then 0.0 else 0.35 * (8.0 - cost.costMultiple) / 8.0)
            + 0.30 * (1.0 - i.reliability)
            + (if i.dataIntegrity >= 100.0 then 0.0 else 0.20 * (100.0 - i.dataIntegrity) / 100.0)
            + (if i.slippageOk then 0.0 else 0.09)
  {
  }

  /** Better inputs never lower the score. */
  lemma QualityRises(i: Inputs, cost: CostVerdict, i': Inputs, cost': CostVerdict)
    requires cost.costMultiple <= cost'.costMultiple && i.reliability <= i'.reliability
    requires i.dataIntegrity <= i'.dataIntegrity && (i.slippageOk ==> i'.slippageOk)
    ensures Quality(i, cost) <= Quality(i', cost')
    ensures i.reliability < i'.reliability ==> Quality(i, cost) < Quality(i', cost')
  {
    QualityLost(i, cost);
    QualityLost(i', cost');
  }

  /** The hard gates, all checked, each failure with its reason. */
  method CheckGates(floors: Floors, i: Inputs, cost: CostVerdict) returns (reasons: seq<string>)
    requires cost.ok <==> cost.reasons == []
    ensures reasons == [] <==> GatesPass(floors, i, cost)
    ensures reasons == [] <==>
            && cost.ok && floors.minIntegrity <= i.dataIntegrity && Abs(i.tickAge) <= 0.5
            && i.signalAge <= (if i.pending then 30.0 else 2.0)
            && !i.conflictingPosition && !i.inFlightIntent && !i.quarantined
    ensures cost.reasons <= reasons
    ensures reasons == WithDataReasons(cost.reasons, floors, i)
                       + When(i.signalAge > MaxSignalAge(i.pending), "SIGNAL_TOO_OLD")
                       + When(i.conflictingPosition || i.inFlightIntent, "CONFLICTING_EXPOSURE")
                       + When(i.quarantined, "STRATEGY_QUARANTINED")
  {
    hide When;
    reasons := Noted(cost.reasons, i.dataIntegrity < floors.minIntegrity, "DATA_STALE");
    reasons := Noted(reasons, !(-TICK_MAX_AGE_S <= i.tickAge <= TICK_MAX_AGE_S),
                     if "DATA_STALE" !in reasons then "DATA_STALE" else "TICK_STALE");
    reasons := Noted(reasons, i.signalAge > MaxSignalAge(i.pending), "SIGNAL_TOO_OLD");
    reasons := Noted(reasons, i.conflictingPosition || i.inFlightIntent, "CONFLICTING_EXPOSURE");
    reasons := Noted(reasons, i.quarantined, "STRATEGY_QUARANTINED");
  }

  /** A stale tick is named after stale data when that has been named already. */
  function WithDataReasons(before: seq<string>, floors: Floors, i: Inputs): seq<string>
  {
    var reasons := before + When(i.dataIntegrity < floors.minIntegrity, "DATA_STALE");
    reasons + When(Abs(i.tickAge) > TICK_MAX_AGE_S, if "DATA_STALE" in reasons then "TICK_STALE" else "DATA_STALE")
  }

  /** Any failed gate rejects with its reasons and scores zero; otherwise the quality score picks the band,
      and a score below every band is the only other reason to reject. */
  method Decide(floors: Floors, i: Inputs, cost: CostVerdict) returns (verdict: Verdict, reasons: seq<string>, quality: real)
    requires cost.ok <==> cost.reasons == []
    ensures GatesPass(floors, i, cost) ==> quality == Quality(i, cost)
    ensures GatesPass(floors, i, cost) ==>
      && (verdict.APPROVE? <==> floors.approve <= quality)
      && (verdict.APPROVE_REDUCED? <==> floors.reduced <= quality < floors.approve)
      && (verdict.SHADOW_ONLY? <==> floors.shadow <= quality < floors.approve && quality < floors.reduced)
      && (verdict.REJECT? <==> quality < floors.approve && quality < floors.reduced && quality < floors.shadow)
      && reasons == if verdict.REJECT? then ["QUALITY_FLOOR"] else []
    ensures !GatesPass(floors, i, cost) ==> verdict.REJECT? && quality == 0.0 && reasons != []
    ensures !GatesPass(floors, i, cost) ==> cost.reasons <= reasons
    ensures verdict.REJECT? <==> reasons != []
  {
    reasons := CheckGates(floors, i, cost);
    if reasons != [] {
      return REJECT, reasons, 0.0;
    }
    var headroom := Smaller(1.0, cost.costMultiple / (2.0 * 4.0));
    var integrity := Smaller(1.0, i.dataIntegrity / 100.0);
    var slippage := if i.slippageOk then 1.0 else 0.4;
    quality := 0.35 * headroom + 0.30 * i.reliability + 0.20 * integrity + 0.15 * slippage;
    if quality >= floors.approve {
      verdict := APPROVE;
    } else if quality >= floors.reduced {
      verdict := APPROVE_REDUCED;
    } else if quality >= floors.shadow {
      verdict := SHADOW_ONLY;
    } else {
      verdict, reasons := REJECT, reasons + ["QUALITY_FLOOR"];
    }
  }

  /** A signal that clears every hard gate at a positive cost scores at least 0.33125 under the default
      floors. So with default floors the quality floor rejects nothing but trades of no cost, and of those
      exactly the ones whose reliability, integrity and slippage leave the score below 0.30. */
  lemma QualityFloorReach(i: Inputs, cost: CostVerdict)
    requires GatesPass(DEFAULTS, i, cost) && Cleared(cost) && 0.0 <= i.reliability
    ensures cost.costPoints > 0.0 ==> Quality(i, cost) >= 0.33125
    ensures Quality(i, cost) < DEFAULTS.shadow <==>
            cost.costPoints <= 0.0
            && 0.30 * i.reliability + 0.20 * Smaller(1.0, i.dataIntegrity / 100.0)
               + 0.15 * (if i.slippageOk then 1.0 else 0.4) < 0.30
  {
    assert Smaller(1.0, i.dataIntegrity / 100.0) >= 0.7;
    if cost.costPoints > 0.0 {
      assert Smaller(1.0, cost.costMultiple / 8.0) >= 0.375;
    }
  }

  /** The bound is met, and the floor is reached, by concrete inputs. */
  lemma QualityFloorWitnesses()
    ensures var i := Inputs(70.0, 0.0, 0.0, false, false, false, false, 0.0, false);
      && Quality(i, CostVerdict(true, [], 1.0, 3.0, 1.0, 0.5)) == 0.33125
      && GatesPass(DEFAULTS, i, CostVerdict(true, [], 0.0, 0.0, 1.0, 0.5))
      && Quality(i, CostVerdict(true, [], 0.0, 0.0, 1.0, 0.5)) < DEFAULTS.shadow
  {
  }
}
