/**
 * The per-candle decision step of the dynamic strategy (init, _calculate_position_size, next).
 *
 * The backtesting substrate owns the position, equity and order fills: the position and the
 * equity at this candle are inputs of a step, and the orders the strategy places are recorded
 * in a log instead of being executed. The attributes the step writes, stop_loss and
 * take_profit, are Option fields: None until first assigned (hasattr is false).
 */
module StrategySession {
  import opened Util
  import opened RuleTree
  import opened RuleEvaluation

  /** The risk and sizing parameters read by init. */
  datatype Params = Params(stopLossPct: real, takeProfitPct: real, trailingStopPct: real, sizing: string, riskPct: real)

  /** The stop and target levels the strategy has set, None when never assigned. */
  datatype Levels = Levels(stopLoss: Option<real>, takeProfit: Option<real>)

  /** The substrate's position at the current candle; `entryBar` is the bar index the position was entered at. */
  datatype Position = Flat | Long(entryBar: nat) | Short

  datatype Order = Buy(size: real) | CloseLong

  /**
   * What one call of next leaves behind: the attribute values and the orders placed, and
   * whether it raised (ZeroDivisionError in the position sizing, which ends the run).
   */
  datatype StepResult = StepResult(levels: Levels, orders: seq<Order>, raised: bool)

  /**
   * _calculate_position_size; None when its division raises ZeroDivisionError. Every policy
   * divides by the price, so that happens exactly at a zero price.
   */
  function PositionSize(sizing: string, equity: real, riskPct: real, stopLossPct: real, price: real): (size: Option<real>)
    ensures size.None? <==> price == 0.0
    ensures size.Some? && sizing == "percentage" ==> size.value * price == equity * riskPct / 100.0
    ensures size.Some? && sizing == "risk_based" && stopLossPct != 0.0 ==>
      size.value * (price * stopLossPct / 100.0) == equity * riskPct / 100.0
    ensures size.Some? && sizing != "percentage" && !(sizing == "risk_based" && stopLossPct != 0.0) ==>
      size.value * price == 0.1 * equity
  {
    if price == 0.0 then None
    else if sizing == "fixed" then Some(0.1 * equity / price)
    else if sizing == "percentage" then Some((equity * riskPct / 100.0) / price)
    else if sizing == "risk_based" then
      if stopLossPct == 0.0 then Some(0.1 * equity / price)
      else Some((equity * riskPct / 100.0) / (price * stopLossPct / 100.0))
    else Some(0.1 * equity / price)
  }

  /** The stop level set on entry: stop_loss_pct below the close. */
  function EntryStop(close: real, pct: real): real
  {
    close * (1.0 - pct / 100.0)
  }

  /** The target level set on entry: take_profit_pct above the close. */
  function EntryTarget(close: real, pct: real): real
  {
    close * (1.0 + pct / 100.0)
  }

  /** The largest value of a non-empty sequence (Python's max). */
  function MaxOf(s: seq<real>): (m: real)
    requires |s| > 0
    ensures m in s
    ensures forall j :: 0 <= j < |s| ==> s[j] <= m
  {
    if |s| == 1 then s[0]
    else
      var rest := MaxOf(s[1..]);
      assert forall j :: 1 <= j < |s| ==> s[j] == s[1..][j - 1];
      if s[0] >= rest then s[0] else rest
  }

  /** The candles seen so far, with a high for each; the last one is the current candle. */
  predicate Candles(f: Frame, high: seq<real>)
  {
    |f.close| > 0 && |high| == |f.close|
  }

  /**
   * The entry branch of next at a candle closing at `close`: one buy, and the levels whose
   * percentages are positive. When the sizing raises, nothing is placed or set.
   */
  function Enter(p: Params, lv: Levels, close: real, equity: real): StepResult
  {
    match PositionSize(p.sizing, equity, p.riskPct, p.stopLossPct, close)
    case None => StepResult(lv, [], true)
    case Some(size) => StepResult(EntryLevelsAt(p, lv, close), [Buy(size)], false)
  }

  /** The levels set on entry at `close`: each one whose percentage is positive is replaced. */
  function EntryLevelsAt(p: Params, lv: Levels, close: real): Levels
  {
    var stop := if p.stopLossPct > 0.0 then Some(EntryStop(close, p.stopLossPct)) else lv.stopLoss;
    var target := if p.takeProfitPct > 0.0 then Some(EntryTarget(close, p.takeProfitPct)) else lv.takeProfit;
    Levels(stop, target)
  }

  /** The trailing level: trailing_stop_pct below the highest high since entry. */
  function TrailLevel(highs: seq<real>, trailingStopPct: real): real
    requires |highs| > 0
  {
    MaxOf(highs) * (1.0 - trailingStopPct / 100.0)
  }

  /** The stop after the trailing update with a trailing level: raised to the level when that is higher. */
  function Trail(trailingStopPct: real, stopLoss: Option<real>, level: real): Option<real>
  {
    if trailingStopPct > 0.0 then
      if stopLoss.None? || level > stopLoss.value then Some(level) else stopLoss
    else stopLoss
  }

  /** The branch of next while long: the trailing update, then a close when the sell signal is true. */
  function Hold(p: Params, lv: Levels, highs: seq<real>, sell: bool): StepResult
    requires |highs| > 0
  {
    StepResult(Levels(Trail(p.trailingStopPct, lv.stopLoss, TrailLevel(highs, p.trailingStopPct)), lv.takeProfit),
               if sell then [CloseLong] else [], false)
  }

  /** One call of next, as a function of the attribute values before it. */
  function Step(p: Params, buyRules: Tree, sellRules: Tree, lv: Levels, pos: Position, f: Frame, high: seq<real>, equity: real): StepResult
    requires Candles(f, high)
    requires pos.Long? ==> pos.entryBar < |f.close|
  {
    var i := |f.close| - 1;
    match pos
    case Flat =>
      if |buyRules.entries| > 0 && EvalRules(buyRules, f, i) then Enter(p, lv, f.close[i], equity)
      else StepResult(lv, [], false)
    case Long(e) =>
      Hold(p, lv, high[e..i + 1], |sellRules.entries| > 0 && EvalRules(sellRules, f, i))
    case Short => StepResult(lv, [], false)
  }

  /** The strategy instance: its configuration, the attributes next writes, and the orders it has placed. */
  class Session {
    const buyRules: Tree
    const sellRules: Tree
    const params: Params
    var stopLoss: Option<real>
    var takeProfit: Option<real>
    var orders: seq<Order>

    /** init: a missing rule side is {}, and each missing parameter takes its default. */
    constructor(buy: Option<Tree>, sell: Option<Tree>, stopLossPct: Option<real>, takeProfitPct: Option<real>,
                trailingStopPct: Option<real>, sizing: Option<string>, riskPct: Option<real>)
      ensures buyRules == (if buy.Some? then buy.value else Tree([]))
      ensures sellRules == (if sell.Some? then sell.value else Tree([]))
      ensures params == Params(if stopLossPct.Some? then stopLossPct.value else 0.0,
                               if takeProfitPct.Some? then takeProfitPct.value else 0.0,
                               if trailingStopPct.Some? then trailingStopPct.value else 0.0,
                               if sizing.Some? then sizing.value else "fixed",
                               if riskPct.Some? then riskPct.value else 2.0)
      ensures stopLoss.None? && takeProfit.None? && orders == []
    {
      buyRules := if buy.Some? then buy.value else Tree([]);
      sellRules := if sell.Some? then sell.value else Tree([]);
      params := Params(if stopLossPct.Some? then stopLossPct.value else 0.0,
                       if takeProfitPct.Some? then takeProfitPct.value else 0.0,
                       if trailingStopPct.Some? then trailingStopPct.value else 0.0,
                       if sizing.Some? then sizing.value else "fixed",
                       if riskPct.Some? then riskPct.value else 2.0);
      stopLoss := None;
      takeProfit := None;
      orders := [];
    }

    /** next: the decision for the current (last) candle; `raised` reports a ZeroDivisionError. */
    method Next(pos: Position, f: Frame, high: seq<real>, equity: real) returns (raised: bool)
      requires Candles(f, high)
      requires pos.Long? ==> pos.entryBar < |f.close|
      modifies this
      ensures var r := Step(params, buyRules, sellRules, old(Levels(stopLoss, takeProfit)), pos, f, high, equity);
        Levels(stopLoss, takeProfit) == r.levels && orders == old(orders) + r.orders && raised == r.raised
    {
      raised := false;
      var i := |f.close| - 1;
      if pos.Flat? {
        var signal := false;
        if |buyRules.entries| > 0 {
          signal := EvaluateRules(buyRules, f, i);
        }
        if signal {
          var size := PositionSize(params.sizing, equity, params.riskPct, params.stopLossPct, f.close[i]);
          if size.None? {
            assert Enter(params, Levels(stopLoss, takeProfit), f.close[i], equity) == StepResult(Levels(stopLoss, takeProfit), [], true);
            return true;
          }
          ghost var entered := StepResult(EntryLevelsAt(params, Levels(stopLoss, takeProfit), f.close[i]), [Buy(size.value)], false);
          assert Enter(params, Levels(stopLoss, takeProfit), f.close[i], equity) == entered;
          orders := orders + [Buy(size.value)];
          if params.stopLossPct > 0.0 {
            stopLoss := Some(EntryStop(f.close[i], params.stopLossPct));
          }
          if params.takeProfitPct > 0.0 {
            takeProfit := Some(EntryTarget(f.close[i], params.takeProfitPct));
          }
          assert Levels(stopLoss, takeProfit) == entered.levels;
        }
      } else if pos.Long? {
        var highs := high[pos.entryBar..i + 1];
        if params.trailingStopPct > 0.0 {
          var highest := MaxOf(highs);
          var newStop := highest * (1.0 - params.trailingStopPct / 100.0);
          assert newStop == TrailLevel(highs, params.trailingStopPct);
          if stopLoss.None? || newStop > stopLoss.value {
            stopLoss := Some(newStop);
          }
        }
        assert stopLoss == Trail(params.trailingStopPct, old(stopLoss), TrailLevel(highs, params.trailingStopPct));
        var signal := false;
        if |sellRules.entries| > 0 {
          signal := EvaluateRules(sellRules, f, i);
        }
        if signal {
          orders := orders + [CloseLong];
        }
        assert Levels(stopLoss, takeProfit) == Hold(params, old(Levels(stopLoss, takeProfit)), highs, signal).levels;
      }
    }
  }

  // ---- Properties of a step ----

  /** At most one order per candle: a buy only when flat, a close only when long, nothing when short. */
  lemma OrdersMatchPosition(p: Params, buyRules: Tree, sellRules: Tree, lv: Levels, pos: Position, f: Frame, high: seq<real>, equity: real)
    requires Candles(f, high)
    requires pos.Long? ==> pos.entryBar < |f.close|
    ensures var r := Step(p, buyRules, sellRules, lv, pos, f, high, equity);
      && |r.orders| <= 1
      && (pos.Flat? ==>
            && (|r.orders| == 1 <==> |buyRules.entries| > 0 && EvalRules(buyRules, f, |f.close| - 1) && f.close[|f.close| - 1] != 0.0)
            && (r.raised <==> |buyRules.entries| > 0 && EvalRules(buyRules, f, |f.close| - 1) && f.close[|f.close| - 1] == 0.0)
            && forall o :: o in r.orders ==> o.Buy?)
      && (!pos.Flat? ==> !r.raised)
      && (pos.Long? ==> (r.orders == [CloseLong] <==> |sellRules.entries| > 0 && EvalRules(sellRules, f, |f.close| - 1)) && (r.orders == [] || r.orders == [CloseLong]))
      && (pos.Short? ==> r == StepResult(lv, [], false))
  {
  }

  /**
   * On entry the stop is set below and the target above the entry close when their
   * percentages are in range; a percentage that is not positive leaves the old value in place.
   */
  lemma EntryLevels(p: Params, buyRules: Tree, sellRules: Tree, lv: Levels, f: Frame, high: seq<real>, equity: real)
    requires Candles(f, high)
    requires |buyRules.entries| > 0 && EvalRules(buyRules, f, |f.close| - 1)
    requires f.close[|f.close| - 1] > 0.0
    ensures var r := Step(p, buyRules, sellRules, lv, Flat, f, high, equity);
      var close := f.close[|f.close| - 1];
      && !r.raised
      && r.orders == [Buy(PositionSize(p.sizing, equity, p.riskPct, p.stopLossPct, close).value)]
      && (0.0 < p.stopLossPct < 100.0 ==> r.levels.stopLoss.Some? && 0.0 < r.levels.stopLoss.value < close)
      && (p.stopLossPct <= 0.0 ==> r.levels.stopLoss == lv.stopLoss)
      && (p.takeProfitPct > 0.0 ==> r.levels.takeProfit.Some? && r.levels.takeProfit.value > close)
      && (p.takeProfitPct <= 0.0 ==> r.levels.takeProfit == lv.takeProfit)
  {
    var close := f.close[|f.close| - 1];
    assert Step(p, buyRules, sellRules, lv, Flat, f, high, equity) == Enter(p, lv, close, equity);
    EnterLevels(p, lv, close, equity);
  }

  lemma EnterLevels(p: Params, lv: Levels, close: real, equity: real)
    requires close > 0.0
    ensures var r := Enter(p, lv, close, equity);
      && !r.raised
      && r.orders == [Buy(PositionSize(p.sizing, equity, p.riskPct, p.stopLossPct, close).value)]
      && (0.0 < p.stopLossPct < 100.0 ==> r.levels.stopLoss.Some? && 0.0 < r.levels.stopLoss.value < close)
      && (p.stopLossPct <= 0.0 ==> r.levels.stopLoss == lv.stopLoss)
      && (p.takeProfitPct > 0.0 ==> r.levels.takeProfit.Some? && r.levels.takeProfit.value > close)
      && (p.takeProfitPct <= 0.0 ==> r.levels.takeProfit == lv.takeProfit)
  {
    var size := PositionSize(p.sizing, equity, p.riskPct, p.stopLossPct, close);
    assert size.Some?;
    assert Enter(p, lv, close, equity) == StepResult(EntryLevelsAt(p, lv, close), [Buy(size.value)], false);
    EntryLevelsOrder(p, lv, close);
  }

  /** At a positive close, a positive stop below 100% lies between 0 and the close, and a positive target above it. */
  lemma EntryLevelsOrder(p: Params, lv: Levels, close: real)
    requires close > 0.0
    ensures var l := EntryLevelsAt(p, lv, close);
      && (0.0 < p.stopLossPct < 100.0 ==> l.stopLoss.Some? && 0.0 < l.stopLoss.value < close)
      && (p.stopLossPct <= 0.0 ==> l.stopLoss == lv.stopLoss)
      && (p.takeProfitPct > 0.0 ==> l.takeProfit.Some? && l.takeProfit.value > close)
      && (p.takeProfitPct <= 0.0 ==> l.takeProfit == lv.takeProfit)
  {
    if 0.0 < p.stopLossPct < 100.0 {
      assert 0.0 < 1.0 - p.stopLossPct / 100.0 < 1.0;
      MulBelow(close, 1.0 - p.stopLossPct / 100.0);
    }
    if p.takeProfitPct > 0.0 {
      MulAbove(close, 1.0 + p.takeProfitPct / 100.0);
    }
  }

  lemma MulBelow(x: real, k: real)
    requires x > 0.0 && 0.0 < k < 1.0
    ensures 0.0 < x * k < x
  {
  }

  lemma MulAbove(x: real, k: real)
    requires x > 0.0 && k > 1.0
    ensures x * k > x
  {
  }

  /**
   * Ratchet: while long, an existing stop never falls, and with a trailing percentage the stop is
   * at least the trailing level below the highest high since entry. The target is not touched.
   */
  lemma TrailingStopRatchets(p: Params, lv: Levels, highs: seq<real>, sell: bool)
    requires |highs| > 0
    ensures var r := Hold(p, lv, highs, sell);
      && (lv.stopLoss.Some? ==> r.levels.stopLoss.Some? && r.levels.stopLoss.value >= lv.stopLoss.value)
      && (p.trailingStopPct > 0.0 ==>
            r.levels.stopLoss.Some? && r.levels.stopLoss.value >= TrailLevel(highs, p.trailingStopPct))
      && (p.trailingStopPct <= 0.0 ==> r.levels.stopLoss == lv.stopLoss)
      && r.levels.takeProfit == lv.takeProfit
      && (r.orders == [CloseLong] <==> sell) && (r.orders == [] <==> !sell)
  {
    TrailRatchets(p.trailingStopPct, lv.stopLoss, TrailLevel(highs, p.trailingStopPct));
  }

  lemma TrailRatchets(trailingStopPct: real, stopLoss: Option<real>, level: real)
    ensures var stop := Trail(trailingStopPct, stopLoss, level);
      && (stopLoss.Some? ==> stop.Some? && stop.value >= stopLoss.value)
      && (trailingStopPct > 0.0 ==> stop.Some? && stop.value >= level)
      && (trailingStopPct <= 0.0 ==> stop == stopLoss)
  {
  }

  /**
   * Risk-based sizing spends exactly the risk budget: if the entry stop is hit, the loss
   * size * (price - stop) equals risk_percentage percent of equity.
   */
  lemma RiskBasedLossAtStop(equity: real, riskPct: real, stopLossPct: real, price: real)
    requires price != 0.0 && stopLossPct != 0.0
    ensures PositionSize("risk_based", equity, riskPct, stopLossPct, price).value * (price - EntryStop(price, stopLossPct))
      == equity * riskPct / 100.0
  {
    assert price - EntryStop(price, stopLossPct) == price * stopLossPct / 100.0;
  }

  /** equity 10000, price 100, stop 2%, risk 2%, risk_based: a position of 100 units. */
  lemma ScenarioRiskBasedSize()
    ensures PositionSize("risk_based", 10000.0, 2.0, 2.0, 100.0) == Some(100.0)
  {
  }

  /**
   * A buy signal at a candle closing at 0 raises ZeroDivisionError in the sizing: no order is
   * placed and the levels stay as they were, whatever the policy.
   */
  lemma ScenarioZeroClose(p: Params, buyRules: Tree, sellRules: Tree, lv: Levels, f: Frame, high: seq<real>, equity: real)
    requires Candles(f, high) && f.close[|f.close| - 1] == 0.0
    requires |buyRules.entries| > 0 && EvalRules(buyRules, f, |f.close| - 1)
    ensures Step(p, buyRules, sellRules, lv, Flat, f, high, equity) == StepResult(lv, [], true)
  {
  }

  /**
   * stop_loss is never cleared: a level left from an earlier position that sits above the new
   * trailing level stays in force (highs of 100 with a 5% trail give 95, below a stale 120).
   */
  lemma ScenarioStaleStop(f: Frame, buyRules: Tree, sellRules: Tree, equity: real)
    requires Candles(f, [100.0])
    ensures Step(Params(0.0, 0.0, 5.0, "fixed", 2.0), buyRules, sellRules, Levels(Some(120.0), None), Long(0), f, [100.0], equity).levels
      == Levels(Some(120.0), None)
  {
    assert [100.0][0..1] == [100.0];
  }
}
