/** What the sizes mean in money: what is spent, what is left in reserve, and what is lost at the stop. */
module SizingLaws {
  import opened Trading
  import opened Sizing

  /** What may be spent before reserves: the percentage of the capital. */
  predicate KeepsReserves(f: Funds, entryPrice: real, quantity: int)
    requires f.capital.Some?
  {
    quantity as real * entryPrice + f.buffer + (if f.charges.Some? then f.charges.value else 0.0) <= f.capital.value * f.percent / 100.0
  }

  /** Any number of lots, one or more, can be afforded exactly if paying for them keeps buffer and charges
      back from the percentage of the capital set aside. */
  lemma AffordsIffReservesKept(f: Funds, entryPrice: real, lot: int, n: int)
    requires f.capital.Some? && entryPrice > 0.0 && lot >= 1 && n >= 1
    ensures Affords(f, entryPrice, lot, n) <==> KeepsReserves(f, entryPrice, n * lot)
  {
    Scales(1, n, lot);
    ScaledStrictly(0.0, (n * lot) as real, entryPrice);
  }

  /** The affordable quantity is the most whole lots that keep the reserves. */
  lemma AffordableKeepsReserves(f: Funds, entryPrice: real, lotSize: int)
    requires f.capital.Some? && entryPrice > 0.0
    ensures var q, lot := MaxAffordable(f, Some(entryPrice), lotSize), Max(lotSize, 1);
            && q.Some? && q.value % lot == 0
            && (q.value > 0 ==> KeepsReserves(f, entryPrice, q.value))
            && !KeepsReserves(f, entryPrice, q.value + lot)
  {
    var q, lot := MaxAffordable(f, Some(entryPrice), lotSize).value, Max(lotSize, 1);
    AffordableIsLargest(f, entryPrice, lotSize, q / lot);
    AffordableIsLargest(f, entryPrice, lotSize, q / lot + 1);
    Whole(q / lot, lot);
    OneMoreLot(q / lot, lot);
    AffordsIffReservesKept(f, entryPrice, lot, q / lot + 1);
    if q / lot >= 1 { AffordsIffReservesKept(f, entryPrice, lot, q / lot); }
  }

  lemma OneMoreLot(n: int, lot: int)
    ensures (n + 1) * lot == n * lot + lot
  {
  }

  // ---- stops ------------------------------------------------------------------------------------------

  function PercentBelow(price: real, percent: real): real { price * (1.0 - percent / 100.0) }

  /** Where a long position is stopped out: so many percent, or so many points, below its entry. */
  function StopPrice(i: Inputs): real
    requires i.entryPrice.Some?
  {
    if i.riskIsPercent then PercentBelow(i.entryPrice.value, i.stopLoss) else i.entryPrice.value - i.stopLoss
  }

  /** In the modes with a stop of their own, one unit loses exactly the distance there; without a loss
      there is no distance. */
  lemma DistanceIsLostAtTheStop(i: Inputs, mode: Mode)
    requires mode in {RISK_BASED, KELLY} && i.entryPrice.Some? && i.entryPrice.value > 0.0
    ensures var loss := i.entryPrice.value - StopPrice(i);
            StopDistance(i, mode) == if loss <= 0.0 then None else Some(loss)
  {
    PercentOff(i.entryPrice.value, i.stopLoss);
  }

  lemma PercentOff(price: real, percent: real)
    ensures PercentStop(price, percent) == price - PercentBelow(price, percent)
  {
    var s := percent / 100.0;
    assert price * percent / 100.0 == price * s;
    assert price * (1.0 - s) == price - price * s;
  }

  /** The ATR distance is what the contract moves when its underlying moves the multiple of its range;
      the implied-volatility distance is the multiple of one day's share of a year's move. */
  lemma DistanceOfMoves(i: Inputs, underlying: real, year: real)
    requires i.entryPrice.Some? && i.entryPrice.value > 0.0
    requires i.atr.Some? && underlying == i.atr.value * i.atrMultiplier && i.iv.Some? && year == i.entryPrice.value * i.iv.value / 100.0
    ensures StopDistance(i, ATR_BASED).Some? ==> i.delta.Some? && StopDistance(i, ATR_BASED).value == AbsReal(i.delta.value) * underlying
    ensures StopDistance(i, IV_BASED).Some? ==> StopDistance(i, IV_BASED).value == year * i.dayRoot * i.ivMultiplier
    ensures i.delta.Some? && i.delta.value != 0.0 && underlying > 0.0 && i.atr.value > 0.0 ==> StopDistance(i, ATR_BASED).Some?
    ensures year > 0.0 && i.dayRoot > 0.0 && i.ivMultiplier > 0.0 ==> StopDistance(i, IV_BASED).Some?
  {
    AtrDistance(i);
    IvDistance(i);
    IvMove(i.entryPrice.value, i.iv.value, i.dayRoot, i.ivMultiplier);
    if i.delta.Some? {
      AtrMove(i.atr.value, AbsReal(i.delta.value), i.atrMultiplier);
      if i.delta.value != 0.0 && underlying > 0.0 { ScaledStrictly(0.0, AbsReal(i.delta.value), underlying); }
    }
    if year > 0.0 && i.dayRoot > 0.0 && i.ivMultiplier > 0.0 { YearMoves(i.entryPrice.value, i.iv.value, year, i.dayRoot, i.ivMultiplier); }
  }

  lemma AtrDistance(i: Inputs)
    requires i.entryPrice.Some? && i.entryPrice.value > 0.0 && i.atr.Some?
    ensures StopDistance(i, ATR_BASED)
            == if i.atr.value > 0.0 && i.delta.Some? && i.delta.value != 0.0 then Positive(AtrStop(i.atr.value, AbsReal(i.delta.value), i.atrMultiplier)) else None
  {
  }

  lemma IvDistance(i: Inputs)
    requires i.entryPrice.Some? && i.entryPrice.value > 0.0 && i.iv.Some?
    ensures StopDistance(i, IV_BASED)
            == if i.iv.value > 0.0 then Positive(IvStop(i.entryPrice.value, i.iv.value, i.dayRoot, i.ivMultiplier)) else None
  {
  }

  lemma YearMoves(price: real, iv: real, year: real, dayRoot: real, multiplier: real)
    requires price > 0.0 && year == price * iv / 100.0 && year > 0.0 && dayRoot > 0.0 && multiplier > 0.0
    ensures iv > 0.0 && year * dayRoot * multiplier > 0.0
  {
    ScaledStrictly(0.0, year, dayRoot);
    ScaledStrictly(0.0, year * dayRoot, multiplier);
    assert price * iv > 0.0;
  }

  lemma AtrMove(atr: real, delta: real, multiplier: real)
    ensures AtrStop(atr, delta, multiplier) == delta * (atr * multiplier)
  {
  }

  lemma IvMove(price: real, iv: real, dayRoot: real, multiplier: real)
    ensures IvStop(price, iv, dayRoot, multiplier) == price * iv / 100.0 * dayRoot * multiplier
  {
    assert price * (iv / 100.0) == price * iv / 100.0;
  }

  /** What is lost when a quantity is stopped out. */
  function LossAtStop(i: Inputs, mode: Mode, quantity: int): real
    requires StopDistance(i, mode).Some?
  {
    quantity as real * StopDistance(i, mode).value
  }

  /** In every risk-style mode: being stopped out of more than one lot costs no more than the budget, and
      paying for it keeps the reserves; with one lot more either would not hold. */
  lemma SizeKeepsBudgetAndReserves(mode: Mode, i: Inputs, budget: real)
    requires IsRiskStyle(mode) && StopDistance(i, mode).Some? && (mode == KELLY ==> KellyReady(i)) && BudgetOf(i, mode) == Is(budget)
    requires DefaultQuantity(0, mode, i).Is?
    ensures var q, lot := DefaultQuantity(0, mode, i).value, Max(i.lotSize, 1);
            && (q > lot ==> LossAtStop(i, mode, q) <= budget && (i.funds.capital.Some? ==> KeepsReserves(i.funds, i.entryPrice.value, q)))
            && (LossAtStop(i, mode, q + lot) > budget || (i.funds.capital.Some? && !KeepsReserves(i.funds, i.entryPrice.value, q + lot)))
  {
    DefaultQuantityIsSound(0, mode, i);
    var lot := Max(i.lotSize, 1);
    var n := DefaultQuantity(0, mode, i).value / lot;
    LotsWithinBudgets(i, mode, lot, n, budget);
    LotsWithinBudgets(i, mode, lot, n + 1, budget);
    OneMoreLot(n, lot);
    AtLeastOneLot(DefaultQuantity(0, mode, i).value, lot);
  }

  lemma AtLeastOneLot(q: int, lot: int)
    requires lot >= 1 && q >= lot && q == q / lot * lot
    ensures q / lot >= 1 && (q > lot ==> q / lot > 1)
  {
    if q / lot < 1 { Scales(q / lot, 0, lot); }
  }

  lemma LotsWithinBudgets(i: Inputs, mode: Mode, lot: int, n: int, budget: real)
    requires StopDistance(i, mode).Some? && lot >= 1
    ensures StopDistance(i, mode).value > 0.0 && i.entryPrice.Some?
    ensures n >= 1 ==> (WithinBudgets(n, budget, PerLotRisk(StopDistance(i, mode).value, lot), lot, i.entryPrice.value, i.funds)
                        <==> LossAtStop(i, mode, n * lot) <= budget && (i.funds.capital.Some? ==> KeepsReserves(i.funds, i.entryPrice.value, n * lot)))
  {
    LossOfLots(n, lot, StopDistance(i, mode).value);
    if i.funds.capital.Some? && n >= 1 { AffordsIffReservesKept(i.funds, i.entryPrice.value, lot, n); }
  }

  lemma LossOfLots(n: int, lot: int, distance: real)
    requires distance > 0.0 && lot >= 1
    ensures n as real * PerLotRisk(distance, lot) == (n * lot) as real * distance
  {
    assert n as real * lot as real == (n * lot) as real;
    Regrouped(n as real, distance, lot as real);
  }

  // ---- the other modes ----------------------------------------------------------------------------------

  /** An open position is offered whole, so that the opposite order flattens it, whatever the mode. */
  lemma HeldIsOffered(held: int, mode: Mode, i: Inputs)
    requires held > 0
    ensures DefaultQuantity(held, mode, i) == Is(held)
  {
  }

  /** The fixed mode gives so many lots, at least one of at least one unit. */
  lemma FixedIsLots(i: Inputs)
    requires i.defaultLots >= 1 && i.lotSize >= 1
    ensures DefaultQuantity(0, FIXED, i) == Is(i.defaultLots * i.lotSize)
  {
  }

  /** Kelly sizing without trades, capital, an average loss or a win rate, or without a stop, gives one lot;
      so does every mode without an entry price. */
  lemma OneLotWithoutInputs(mode: Mode, i: Inputs)
    requires mode != FIXED
    requires i.entryPrice.None? || (mode == KELLY && (i.tradeCount <= 0 || i.winRate.None? || i.kellyCapital.None? || i.kellyCapital.value <= 0.0
                                                      || i.averageLoss.None? || i.averageLoss.value == 0.0))
    ensures DefaultQuantity(0, mode, i).Is? ==> DefaultQuantity(0, mode, i).value == Max(i.lotSize, 1)
  {
  }

  // ---- Kelly -----------------------------------------------------------------------------------------------

  /** What a trade is expected to bring, per trade. */
  function ExpectedPnl(i: Inputs): real
    requires KellyReady(i) && i.averageWin.Some?
  {
    var w := MinReal(MaxReal(i.winRate.value / 100.0, 0.0), 1.0);
    w * i.averageWin.value - (1.0 - w) * AbsReal(i.averageLoss.value)
  }

  /** Kelly's share is half of what a trade is expected to bring per unit won, and in any case none when
      nothing is to be expected, and never more than a quarter. */
  lemma KellyIsHalfTheEdge(i: Inputs)
    requires KellyReady(i) && i.averageWin.Some? && i.averageWin.value > 0.0
    ensures var edge, win := ExpectedPnl(i), i.averageWin.value;
            && KellyFraction(i).Is?
            && var f := KellyFraction(i).value;
               if edge <= 0.0 then f == 0.0 else if edge >= win * 0.5 then f == 0.25 else 2.0 * f * win == edge
  {
    var w, win, loss := MinReal(MaxReal(i.winRate.value / 100.0, 0.0), 1.0), i.averageWin.value, AbsReal(i.averageLoss.value);
    assert loss > 0.0;
    RawKelly(w, win, loss);
    var raw := w - (1.0 - w) / (win / loss);
    assert KellyFraction(i) == Is(MinReal(MaxReal(raw * 0.5, 0.0), 0.25));
    HalfOfRaw(raw, win, ExpectedPnl(i), KellyFraction(i).value);
  }

  /** Whatever the average win, if only it is not zero: the share is half of the edge per unit won, cut off
      at nothing and at a quarter. */
  lemma KellyIsCutOff(i: Inputs, raw: real)
    requires KellyReady(i) && i.averageWin.Some? && i.averageWin.value != 0.0 && raw * i.averageWin.value == ExpectedPnl(i)
    ensures KellyFraction(i).Is? && KellyFraction(i).value == MinReal(MaxReal(raw * 0.5, 0.0), 0.25)
  {
    var w, win, loss := MinReal(MaxReal(i.winRate.value / 100.0, 0.0), 1.0), i.averageWin.value, AbsReal(i.averageLoss.value);
    RawKelly(w, win, loss);
    SameQuotient(raw, w - (1.0 - w) / (win / loss), win);
  }

  lemma SameQuotient(a: real, b: real, c: real)
    requires a * c == b * c && c != 0.0
    ensures a == b
  {
    assert (a - b) * c == 0.0;
  }

  lemma HalfOfRaw(raw: real, win: real, edge: real, f: real)
    requires win > 0.0 && raw * win == edge && f == MinReal(MaxReal(raw * 0.5, 0.0), 0.25)
    ensures if edge <= 0.0 then f == 0.0 else if edge >= win * 0.5 then f == 0.25 else 2.0 * f * win == edge
  {
    if raw <= 0.0 { NoEdge(raw, win, edge); } else if raw >= 0.5 { FullEdge(raw, win, edge); } else { SomeEdge(raw, win, edge, f); }
  }

  lemma NoEdge(raw: real, win: real, edge: real)
    requires raw <= 0.0 && win > 0.0 && raw * win == edge
    ensures edge <= 0.0
  {
    Scaled(raw, 0.0, win);
  }

  lemma FullEdge(raw: real, win: real, edge: real)
    requires raw >= 0.5 && win > 0.0 && raw * win == edge
    ensures edge >= win * 0.5 > 0.0
  {
    Scaled(0.5, raw, win);
  }

  lemma SomeEdge(raw: real, win: real, edge: real, f: real)
    requires 0.0 < raw < 0.5 && win > 0.0 && raw * win == edge && f == raw * 0.5
    ensures 0.0 < edge < win * 0.5 && 2.0 * f * win == edge
  {
    AnEdge(raw, win, edge);
    BelowHalf(raw, win, edge);
    TwiceHalf(raw, win, edge, f);
  }

  lemma AnEdge(raw: real, win: real, edge: real)
    requires raw > 0.0 && win > 0.0 && raw * win == edge
    ensures 0.0 < edge
  {
    ScaledStrictly(0.0, raw, win);
  }

  lemma BelowHalf(raw: real, win: real, edge: real)
    requires raw < 0.5 && win > 0.0 && raw * win == edge
    ensures edge < win * 0.5
  {
    ScaledStrictly(raw, 0.5, win);
  }

  lemma TwiceHalf(raw: real, win: real, edge: real, f: real)
    requires raw * win == edge && f == raw * 0.5
    ensures 2.0 * f * win == edge
  {
    assert 2.0 * f == raw;
  }

  lemma RawKelly(w: real, win: real, loss: real)
    requires win != 0.0 && loss > 0.0
    ensures win / loss != 0.0 && (w - (1.0 - w) / (win / loss)) * win == w * win - (1.0 - w) * loss
  {
    var ratio := win / loss;
    assert ratio * loss == win;
    ZeroQuotient(win, loss);
    var share := (1.0 - w) / ratio;
    assert share * ratio == 1.0 - w;
    Associates(share, ratio, loss);
    assert share * win == (1.0 - w) * loss;
    Distributes(w, share, win);
  }

  lemma Associates(a: real, b: real, c: real)
    ensures a * (b * c) == a * b * c
  {
  }

  lemma Distributes(a: real, b: real, c: real)
    ensures (a - b) * c == a * c - b * c
  {
  }
}
