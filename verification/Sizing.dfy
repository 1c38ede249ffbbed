/** The starting quantity of a trading panel, in all six modes. */
module Sizing {
  import opened Trading

  datatype Mode = FIXED | CAPITAL_BASED | RISK_BASED | ATR_BASED | IV_BASED | KELLY

  datatype RiskResult = RiskResult(quantity: int, cappedByCapital: bool, budgetTooSmall: bool)

  /** The account's side of every mode. */
  datatype Funds = Funds(capital: Option<real>, percent: real, buffer: real, charges: Option<real>)

  /** A computation that can raise ZeroDivisionError. */
  datatype Answer<+T> = Is(value: T) | DividesByZero

  /** The inputs of the modes; `dayRoot` stands for the square root of 1/365. */
  datatype Inputs = Inputs(
    funds: Funds,
    entryPrice: Option<real>,
    lotSize: int,
    defaultLots: int,
    riskAmount: real,
    riskIsPercent: bool,
    stopLoss: real,
    atr: Option<real>,
    delta: Option<real>,
    iv: Option<real>,
    atrMultiplier: real,
    ivMultiplier: real,
    dayRoot: real,
    tradeCount: int,
    winRate: Option<real>,
    averageWin: Option<real>,
    averageLoss: Option<real>,
    kellyCapital: Option<real>
  )

  /** `int(x)`: toward zero. */
  function Truncated(x: real): int { if x >= 0.0 then x.Floor else -((-x).Floor) }

  // ---- capital -------------------------------------------------------------------------------------

  /** What may be spent once reserves are taken off. */
  function Allotted(f: Funds): real
    requires f.capital.Some?
  {
    MaxReal(f.capital.value * f.percent / 100.0 - f.buffer - (if f.charges.Some? then f.charges.value else 0.0), 0.0)
  }

  function MaxAffordable(f: Funds, entryPrice: Option<real>, lotSize: int): Option<int> {
    var lot := Max(lotSize, 1);
    if entryPrice.None? || entryPrice.value <= 0.0 || f.capital.None? || CostOfLot(entryPrice.value, lot) <= 0.0 then None
    else Some(Truncated(Allotted(f) / CostOfLot(entryPrice.value, lot)) * lot)
  }

  function CostOfLot(entryPrice: real, lot: int): real { entryPrice * lot as real }

  // ---- risk ------------------------------------------------------------------------------------------

  function SizeByRisk(riskAmount: real, perLotRisk: real, lot: int, entryPrice: real, f: Funds): RiskResult
    requires lot >= 1 && perLotRisk > 0.0
  {
    var riskBased := RiskLots(riskAmount, perLotRisk);
    var cap := MaxAffordable(f, Some(entryPrice), lot);
    var riskLots := Max(riskBased, 1);
    var lots := if cap.Some? then Min(riskLots, Max(cap.value / lot, 0)) else riskLots;
    RiskResult(Max(lots, 1) * lot, cap.Some? && cap.value / lot < riskLots, riskBased < 1)
  }

  /** The money at risk per unit up to the stop, or none if a mode lacks its inputs. */
  function StopDistance(i: Inputs, mode: Mode): Option<real> {
    if i.entryPrice.None? || i.entryPrice.value <= 0.0 then None
    else
      var price := i.entryPrice.value;
      match mode
      case ATR_BASED =>
        if i.atr.None? || i.atr.value <= 0.0 || i.delta.None? || AbsReal(i.delta.value) <= 0.0 then None
        else Positive(AtrStop(i.atr.value, AbsReal(i.delta.value), i.atrMultiplier))
      case IV_BASED =>
        if i.iv.None? || i.iv.value <= 0.0 then None else Positive(IvStop(price, i.iv.value, i.dayRoot, i.ivMultiplier))
      case _ => Positive(if i.riskIsPercent then PercentStop(price, i.stopLoss) else i.stopLoss)
  }

  function AtrStop(atr: real, delta: real, multiplier: real): real { atr * delta * multiplier }

  function IvStop(price: real, iv: real, dayRoot: real, multiplier: real): real { price * (iv / 100.0) * dayRoot * multiplier }

  function PercentStop(price: real, percent: real): real { price * percent / 100.0 }

  function Positive(distance: real): Option<real> { if distance <= 0.0 then None else Some(distance) }

  function PerLotRisk(distance: real, lot: int): (r: real)
    requires distance > 0.0 && lot >= 1
    ensures r > 0.0
  {
    distance * lot as real
  }

  /** The risk-style modes for a given budget. */
  function RiskBased(i: Inputs, mode: Mode, riskAmount: real): Option<RiskResult> {
    var lot, distance := Max(i.lotSize, 1), StopDistance(i, mode);
    if distance.None? || distance.value <= 0.0 then None
    else Some(SizeByRisk(riskAmount, PerLotRisk(distance.value, lot), lot, i.entryPrice.value, i.funds))
  }

  // ---- Kelly -------------------------------------------------------------------------------------------

  predicate KellyReady(i: Inputs) {
    && i.tradeCount > 0
    && i.kellyCapital.Some? && i.kellyCapital.value > 0.0
    && i.averageLoss.Some? && i.averageLoss.value != 0.0
    && i.winRate.Some?
  }

  /** Half Kelly, never less than nothing and never more than a quarter. */
  function KellyFraction(i: Inputs): Answer<real>
    requires KellyReady(i)
  {
    var w := MinReal(MaxReal(i.winRate.value / 100.0, 0.0), 1.0);
    var ratio := (if i.averageWin.Some? then i.averageWin.value else 0.0) / AbsReal(i.averageLoss.value);
    if ratio == 0.0 then DividesByZero
    else Is(MinReal(MaxReal((w - (1.0 - w) / ratio) * 0.5, 0.0), 0.25))
  }

  function Share(fraction: real, capital: real): real { fraction * capital }

  function KellyBased(i: Inputs): Answer<Option<RiskResult>> {
    if !KellyReady(i) then Is(None)
    else
      var fraction := KellyFraction(i);
      if fraction.DividesByZero? then DividesByZero
      else Is(RiskBased(i, KELLY, Share(fraction.value, i.kellyCapital.value)))
  }

  // ---- the panel ------------------------------------------------------------------------------------------

  function OrOneLot(r: Option<RiskResult>, lot: int): int { if r.Some? && r.value.quantity > 0 then r.value.quantity else lot }

  function DefaultQuantity(held: int, mode: Mode, i: Inputs): Answer<int> {
    var lot := Max(i.lotSize, 1);
    if held > 0 then Is(held)
    else match mode
      case CAPITAL_BASED =>
        var q := MaxAffordable(i.funds, i.entryPrice, lot);
        Is(if q.Some? && q.value != 0 then q.value else lot)
      case KELLY =>
        var r := KellyBased(i);
        if r.DividesByZero? then DividesByZero else Is(OrOneLot(r.value, lot))
      case FIXED => Is(Max(i.defaultLots, 1) * lot)
      case _ => Is(OrOneLot(RiskBased(i, mode, i.riskAmount), lot))
  }

  // ---- what the sizes mean ----------------------------------------------------------------------------------

  lemma Scaled(a: real, b: real, d: real)
    requires a <= b && d >= 0.0
    ensures a * d <= b * d
  {
  }

  lemma ScaledStrictly(a: real, b: real, d: real)
    requires a < b && d > 0.0
    ensures a * d < b * d
  {
  }

  lemma Quotient(budget: real, piece: real)
    requires budget >= 0.0 && piece > 0.0
    ensures budget / piece >= 0.0 && (budget / piece) * piece == budget
  {
    var x := budget / piece;
    assert x * piece == budget;
    if x < 0.0 { ScaledStrictly(x, 0.0, piece); }
  }

  /** Rounding down counts the pieces that fit: `n` of them do exactly when `n` is no more than that. */
  lemma PiecesThatFit(budget: real, piece: real, n: int)
    requires budget >= 0.0 && piece > 0.0
    ensures Truncated(budget / piece) >= 0
    ensures n as real * piece <= budget <==> n <= Truncated(budget / piece)
  {
    Quotient(budget, piece);
    FitsIff(budget / piece, piece, n);
  }

  lemma FitsIff(x: real, piece: real, n: int)
    requires x >= 0.0 && piece > 0.0
    ensures n as real * piece <= x * piece <==> n <= x.Floor
  {
    if n <= x.Floor {
      assert n as real <= x;
      Scaled(n as real, x, piece);
    } else {
      assert x < n as real;
      ScaledStrictly(x, n as real, piece);
    }
  }

  lemma Whole(n: int, lot: int)
    requires n >= 0 && lot >= 1
    ensures n * lot >= 0 && n * lot % lot == 0 && n * lot / lot == n
  {
    var r, q := n * lot % lot, n * lot / lot;
    assert q * lot + r == n * lot;
    Scales(0, n, lot);
    if q < n { Scales(q + 1, n, lot); }
    if q > n { Scales(n + 1, q, lot); }
  }

  /** `n` lots cost no more than the allotment. */
  predicate Affords(f: Funds, entryPrice: real, lot: int, n: int)
    requires f.capital.Some?
  {
    (n * lot) as real * entryPrice <= Allotted(f)
  }

  lemma CostOfLots(n: int, lot: int, price: real)
    ensures n as real * CostOfLot(price, lot) == (n * lot) as real * price
  {
    assert n as real * lot as real == (n * lot) as real;
    Regrouped(n as real, price, lot as real);
  }

  lemma Regrouped(a: real, b: real, c: real)
    ensures a * (b * c) == a * c * b
  {
  }

  lemma LotCosts(price: real, lot: int)
    requires price > 0.0 && lot >= 1
    ensures CostOfLot(price, lot) > 0.0
  {
    ScaledStrictly(0.0, lot as real, price);
  }

  /** The affordable quantity is a whole number of lots, and any number of lots is affordable exactly
      when it is no more than that. */
  lemma AffordableIsLargest(f: Funds, entryPrice: real, lotSize: int, n: int)
    requires entryPrice > 0.0 && f.capital.Some?
    ensures var lot, q := Max(lotSize, 1), MaxAffordable(f, Some(entryPrice), lotSize);
            && q.Some? && q.value >= 0 && q.value == q.value / lot * lot
            && (Affords(f, entryPrice, lot, n) <==> n <= q.value / lot)
  {
    var lot := Max(lotSize, 1);
    var cost, most := CostOfLot(entryPrice, lot), Truncated(Allotted(f) / CostOfLot(entryPrice, lot));
    LotCosts(entryPrice, lot);
    PiecesThatFit(Allotted(f), cost, n);
    CostOfLots(n, lot, entryPrice);
    Whole(most, lot);
    AffordableFrom(f, entryPrice, lotSize, lot, most);
  }

  lemma AffordableFrom(f: Funds, entryPrice: real, lotSize: int, lot: int, most: int)
    requires entryPrice > 0.0 && f.capital.Some? && lot == Max(lotSize, 1) && CostOfLot(entryPrice, lot) > 0.0
    requires most == Truncated(Allotted(f) / CostOfLot(entryPrice, lot))
    ensures MaxAffordable(f, Some(entryPrice), lotSize) == Some(most * lot)
  {
  }

  /** `n` lots keep to the risk budget. */
  predicate WithinRisk(n: int, riskAmount: real, perLotRisk: real) { n as real * perLotRisk <= riskAmount }

  /** ... and to the allotted capital where it is known. */
  predicate WithinBudgets(n: int, riskAmount: real, perLotRisk: real, lot: int, entryPrice: real, f: Funds) {
    WithinRisk(n, riskAmount, perLotRisk) && (f.capital.Some? ==> Affords(f, entryPrice, lot, n))
  }

  function RiskLots(riskAmount: real, perLotRisk: real): int
    requires perLotRisk > 0.0
  {
    if riskAmount > 0.0 then Truncated(riskAmount / perLotRisk) else 0
  }

  lemma RiskLotsAreLargest(riskAmount: real, perLotRisk: real, n: int)
    requires perLotRisk > 0.0 && n >= 1
    ensures RiskLots(riskAmount, perLotRisk) >= 0
    ensures WithinRisk(n, riskAmount, perLotRisk) <==> n <= RiskLots(riskAmount, perLotRisk)
  {
    if riskAmount > 0.0 {
      PiecesThatFit(riskAmount, perLotRisk, n);
    } else {
      ScaledStrictly(0.0, n as real, perLotRisk);
    }
  }

  /** Risk sizing gives the largest number of lots within both budgets, but never less than one. */
  lemma RiskSizeIsLargest(riskAmount: real, perLotRisk: real, lot: int, entryPrice: real, f: Funds)
    requires lot >= 1 && perLotRisk > 0.0 && entryPrice > 0.0
    ensures var q := SizeByRisk(riskAmount, perLotRisk, lot, entryPrice, f).quantity;
            && q == q / lot * lot && q / lot >= 1
            && (q / lot > 1 ==> WithinBudgets(q / lot, riskAmount, perLotRisk, lot, entryPrice, f))
            && !WithinBudgets(q / lot + 1, riskAmount, perLotRisk, lot, entryPrice, f)
  {
    var lots := LotsOf(riskAmount, perLotRisk, lot, entryPrice, f);
    Whole(lots, lot);
    forall n: int | n == lots || n == lots + 1 ensures WithinRisk(n, riskAmount, perLotRisk) <==> n <= RiskLots(riskAmount, perLotRisk) {
      RiskLotsAreLargest(riskAmount, perLotRisk, n);
    }
    if f.capital.Some? {
      AffordableIsLargest(f, entryPrice, lot, lots);
      AffordableIsLargest(f, entryPrice, lot, lots + 1);
    }
  }

  function LotsOf(riskAmount: real, perLotRisk: real, lot: int, entryPrice: real, f: Funds): (lots: int)
    requires lot >= 1 && perLotRisk > 0.0
    ensures lots >= 1 && SizeByRisk(riskAmount, perLotRisk, lot, entryPrice, f).quantity == lots * lot
  {
    var cap, risk := MaxAffordable(f, Some(entryPrice), lot), Max(RiskLots(riskAmount, perLotRisk), 1);
    Max(if cap.Some? then Min(risk, Max(cap.value / lot, 0)) else risk, 1)
  }

  /** What the two flags say: one lot already risks more than the budget; and of the lots the risk budget
      allows (one at least) not all are affordable. */
  lemma FlagsMean(riskAmount: real, perLotRisk: real, lot: int, entryPrice: real, f: Funds)
    requires lot >= 1 && perLotRisk > 0.0 && entryPrice > 0.0
    ensures var r := SizeByRisk(riskAmount, perLotRisk, lot, entryPrice, f);
            && (r.budgetTooSmall <==> riskAmount < perLotRisk)
            && (r.cappedByCapital <==> f.capital.Some? && !Affords(f, entryPrice, lot, Max(RiskLots(riskAmount, perLotRisk), 1)))
  {
    RiskLotsAreLargest(riskAmount, perLotRisk, 1);
    if f.capital.Some? { AffordableIsLargest(f, entryPrice, lot, Max(RiskLots(riskAmount, perLotRisk), 1)); }
  }

  predicate IsRiskStyle(mode: Mode) { mode in {RISK_BASED, ATR_BASED, IV_BASED, KELLY} }

  /** The risk budget of a mode: what was asked for, or Kelly's share of its capital. */
  function BudgetOf(i: Inputs, mode: Mode): Answer<real> {
    if mode != KELLY then Is(i.riskAmount)
    else if !KellyReady(i) then Is(0.0)
    else if KellyFraction(i).DividesByZero? then DividesByZero
    else Is(Share(KellyFraction(i).value, i.kellyCapital.value))
  }

  /** With nothing held every mode that does not raise gives at least one whole lot. In a risk-style mode
      anything above one lot is within both the risk budget and the allotted capital, and with the
      inputs the mode needs one lot more would not be. */
  lemma DefaultQuantityIsSound(held: int, mode: Mode, i: Inputs)
    requires held <= 0 && DefaultQuantity(held, mode, i).Is?
    ensures var q, lot := DefaultQuantity(held, mode, i).value, Max(i.lotSize, 1);
            && q >= lot && q == q / lot * lot
            && (IsRiskStyle(mode) ==> BudgetOf(i, mode).Is?)
            && (IsRiskStyle(mode) && StopDistance(i, mode).Some? && (mode == KELLY ==> KellyReady(i)) ==>
                  var perLot := PerLotRisk(StopDistance(i, mode).value, lot);
                  && (q / lot > 1 ==> WithinBudgets(q / lot, BudgetOf(i, mode).value, perLot, lot, i.entryPrice.value, i.funds))
                  && !WithinBudgets(q / lot + 1, BudgetOf(i, mode).value, perLot, lot, i.entryPrice.value, i.funds))
            && (IsRiskStyle(mode) && (StopDistance(i, mode).None? || (mode == KELLY && !KellyReady(i))) ==> q == lot)
  {
    var lot := Max(i.lotSize, 1);
    Whole(1, lot);
    match mode
    case CAPITAL_BASED => CapitalBasedIsWhole(i, lot);
    case FIXED => FixedIsWhole(i.defaultLots, lot);
    case _ =>
      if StopDistance(i, mode).Some? {
        var distance := StopDistance(i, mode).value;
        var budget := BudgetOf(i, mode).value;
        RiskSizeIsLargest(budget, PerLotRisk(distance, lot), lot, i.entryPrice.value, i.funds);
        Scales(1, LotsOf(budget, PerLotRisk(distance, lot), lot, i.entryPrice.value, i.funds), lot);
      }
  }

  lemma CapitalBasedIsWhole(i: Inputs, lot: int)
    requires lot == Max(i.lotSize, 1)
    ensures var q := MaxAffordable(i.funds, i.entryPrice, lot);
            q.Some? && q.value != 0 ==> q.value >= lot && q.value == q.value / lot * lot
  {
    if i.entryPrice.Some? && i.entryPrice.value > 0.0 && i.funds.capital.Some? {
      AffordableIsLargest(i.funds, i.entryPrice.value, lot, 1);
      var q := MaxAffordable(i.funds, i.entryPrice, lot).value;
      if q / lot >= 1 { Scales(1, q / lot, lot); }
    }
  }

  lemma FixedIsWhole(lots: int, lot: int)
    requires lot >= 1
    ensures Max(lots, 1) * lot >= lot && Max(lots, 1) * lot == Max(lots, 1) * lot / lot * lot
  {
    Whole(Max(lots, 1), lot);
    Scales(1, Max(lots, 1), lot);
  }

  /** Capital-based sizing gives the most lots the allotment pays for, or one. */
  lemma CapitalBasedIsLargest(i: Inputs, n: int)
    requires i.entryPrice.Some? && i.entryPrice.value > 0.0 && i.funds.capital.Some?
    ensures var q, lot := DefaultQuantity(0, CAPITAL_BASED, i).value, Max(i.lotSize, 1);
            && (Affords(i.funds, i.entryPrice.value, lot, 1) ==> (Affords(i.funds, i.entryPrice.value, lot, n) <==> n <= q / lot))
            && (!Affords(i.funds, i.entryPrice.value, lot, 1) ==> q == lot)
  {
    var lot := Max(i.lotSize, 1);
    AffordableIsLargest(i.funds, i.entryPrice.value, lot, n);
    AffordableIsLargest(i.funds, i.entryPrice.value, lot, 1);
    if MaxAffordable(i.funds, i.entryPrice, lot).value / lot == 0 { Whole(0, lot); }
  }

  /** Kelly's budget is never more than a quarter of its capital, and never negative. */
  lemma KellyBudgetIsModest(i: Inputs)
    requires KellyReady(i) && KellyFraction(i).Is?
    ensures 0.0 <= BudgetOf(i, KELLY).value <= i.kellyCapital.value * 0.25
  {
    FractionIsModest(i);
    ModestShare(KellyFraction(i).value, i.kellyCapital.value);
  }

  lemma FractionIsModest(i: Inputs)
    requires KellyReady(i) && KellyFraction(i).Is?
    ensures 0.0 <= KellyFraction(i).value <= 0.25
  {
  }

  lemma ModestShare(fraction: real, capital: real)
    requires 0.0 <= fraction <= 0.25 && capital > 0.0
    ensures 0.0 <= Share(fraction, capital) <= capital * 0.25
  {
    ShareIsPositive(fraction, capital);
    ShareIsAtMost(fraction, 0.25, capital);
    assert Share(0.25, capital) == capital * 0.25;
  }

  lemma ShareIsPositive(fraction: real, capital: real)
    requires fraction >= 0.0 && capital > 0.0
    ensures Share(fraction, capital) >= 0.0
  {
    Scaled(0.0, fraction, capital);
  }

  lemma ShareIsAtMost(fraction: real, most: real, capital: real)
    requires fraction <= most && capital > 0.0
    ensures Share(fraction, capital) <= Share(most, capital)
  {
    Scaled(fraction, most, capital);
  }

  /** The only way any mode raises: Kelly, with everything else there, has no average win or one of zero. */
  lemma RaisesIff(held: int, mode: Mode, i: Inputs)
    ensures DefaultQuantity(held, mode, i).DividesByZero?
            <==> held <= 0 && mode == KELLY && KellyReady(i) && (i.averageWin.None? || i.averageWin.value == 0.0)
  {
    if KellyReady(i) && i.averageWin.Some? {
      var a, b := i.averageWin.value, AbsReal(i.averageLoss.value);
      assert b > 0.0;
      ZeroQuotient(a, b);
    }
  }

  lemma ZeroQuotient(a: real, b: real)
    requires b > 0.0
    ensures a / b == 0.0 <==> a == 0.0
  {
    var x := a / b;
    assert x * b == a;
  }
}
