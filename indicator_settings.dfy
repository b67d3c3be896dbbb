/**
 * Range checks on the settings of the indicators the strategy service knows
 * (validateIndicatorSettings and the five per-indicator checks).
 *
 * Settings arrive as decoded JSON, so a number is a float64 (here a real) and the
 * type assertion `.(float64)` succeeds exactly on numbers. An error is Some(message),
 * nil is None.
 */
module IndicatorSettings {
  import opened Util

  datatype JsonValue = JNumber(x: real) | JString(s: string) | JBool(b: bool) | JNull | JComposite

  type Settings = map<string, JsonValue>

  /** The number check and the closed-range check of one present parameter. */
  function RangeError(v: JsonValue, lo: real, hi: real, notNumber: string, outOfRange: string): (e: Option<string>)
    ensures e.None? <==> v.JNumber? && lo <= v.x <= hi
    ensures !v.JNumber? ==> e == Some(notNumber)
    ensures v.JNumber? && !(lo <= v.x <= hi) ==> e == Some(outOfRange)
  {
    if !v.JNumber? then Some(notNumber)
    else if v.x < lo || v.x > hi then Some(outOfRange)
    else None
  }

  /** The parameter is present and a number in [lo, hi]. */
  predicate InRange(s: Settings, param: string, lo: real, hi: real)
  {
    param in s && s[param].JNumber? && lo <= s[param].x <= hi
  }

  function RsiError(s: Settings): (e: Option<string>)
    ensures e.None? <==> InRange(s, "period", 2.0, 100.0)
  {
    if "period" !in s then Some("RSI requires 'period' parameter")
    else RangeError(s["period"], 2.0, 100.0, "RSI period must be a number", "RSI period must be between 2 and 100")
  }

  function BollingerError(s: Settings): (e: Option<string>)
    ensures e.None? <==> InRange(s, "period", 2.0, 100.0) && InRange(s, "deviations", 0.1, 5.0)
  {
    if "period" !in s then Some("Bollinger Bands requires 'period' parameter")
    else if "deviations" !in s then Some("Bollinger Bands requires 'deviations' parameter")
    else
      var p := RangeError(s["period"], 2.0, 100.0, "Bollinger Bands period must be a number", "Bollinger Bands period must be between 2 and 100");
      if p.Some? then p
      else RangeError(s["deviations"], 0.1, 5.0, "Bollinger Bands deviations must be a number", "Bollinger Bands deviations must be between 0.1 and 5")
  }

  function MacdError(s: Settings): (e: Option<string>)
    ensures e.None? <==>
      InRange(s, "fastPeriod", 2.0, 100.0) && InRange(s, "slowPeriod", 2.0, 100.0) && InRange(s, "signalPeriod", 2.0, 100.0)
      && s["slowPeriod"].x > s["fastPeriod"].x
  {
    if "fastPeriod" !in s then Some("MACD requires 'fastPeriod' parameter")
    else if "slowPeriod" !in s then Some("MACD requires 'slowPeriod' parameter")
    else if "signalPeriod" !in s then Some("MACD requires 'signalPeriod' parameter")
    else
      var fast := RangeError(s["fastPeriod"], 2.0, 100.0, "MACD fastPeriod must be a number", "MACD fastPeriod must be between 2 and 100");
      if fast.Some? then fast
      else
        var slow := RangeError(s["slowPeriod"], 2.0, 100.0, "MACD slowPeriod must be a number", "MACD slowPeriod must be between 2 and 100");
        if slow.Some? then slow
        else if s["slowPeriod"].x <= s["fastPeriod"].x then Some("MACD slowPeriod must be greater than fastPeriod")
        else RangeError(s["signalPeriod"], 2.0, 100.0, "MACD signalPeriod must be a number", "MACD signalPeriod must be between 2 and 100")
  }

  const MovingAverageTypes: set<string> := {"sma", "ema", "wma", "dema", "tema", "trima", "kama", "mama"}

  function MovingAverageError(s: Settings): (e: Option<string>)
    ensures e.None? <==> InRange(s, "period", 2.0, 200.0) && ("type" in s ==> s["type"].JString? && s["type"].s in MovingAverageTypes)
  {
    if "period" !in s then Some("Moving Average requires 'period' parameter")
    else
      var p := RangeError(s["period"], 2.0, 200.0, "Moving Average period must be a number", "Moving Average period must be between 2 and 200");
      if p.Some? then p
      else if "type" !in s then None
      else if !s["type"].JString? then Some("Moving Average type must be a string")
      else if s["type"].s !in MovingAverageTypes then Some("invalid Moving Average type: " + s["type"].s)
      else None
  }

  function StochasticError(s: Settings): (e: Option<string>)
    ensures e.None? <==> InRange(s, "kPeriod", 1.0, 100.0) && InRange(s, "dPeriod", 1.0, 100.0) && InRange(s, "slowing", 1.0, 100.0)
  {
    if "kPeriod" !in s then Some("Stochastic requires 'kPeriod' parameter")
    else if "dPeriod" !in s then Some("Stochastic requires 'dPeriod' parameter")
    else if "slowing" !in s then Some("Stochastic requires 'slowing' parameter")
    else
      var k := RangeError(s["kPeriod"], 1.0, 100.0, "Stochastic kPeriod must be a number", "Stochastic kPeriod must be between 1 and 100");
      if k.Some? then k
      else
        var d := RangeError(s["dPeriod"], 1.0, 100.0, "Stochastic dPeriod must be a number", "Stochastic dPeriod must be between 1 and 100");
        if d.Some? then d
        else RangeError(s["slowing"], 1.0, 100.0, "Stochastic slowing must be a number", "Stochastic slowing must be between 1 and 100")
  }

  /** validateIndicatorSettings: dispatch on the indicator's display name; unknown names pass. */
  function SettingsError(indicatorName: string, s: Settings): (e: Option<string>)
    ensures indicatorName !in {"RSI", "Bollinger Bands", "MACD", "Moving Average", "Stochastic"} ==> e.None?
  {
    if indicatorName == "RSI" then RsiError(s)
    else if indicatorName == "Bollinger Bands" then BollingerError(s)
    else if indicatorName == "MACD" then MacdError(s)
    else if indicatorName == "Moving Average" then MovingAverageError(s)
    else if indicatorName == "Stochastic" then StochasticError(s)
    else None
  }

  /** The settings each known indicator accepts, stated as one condition per indicator. */
  predicate Acceptable(indicatorName: string, s: Settings)
  {
    if indicatorName == "RSI" then InRange(s, "period", 2.0, 100.0)
    else if indicatorName == "Bollinger Bands" then InRange(s, "period", 2.0, 100.0) && InRange(s, "deviations", 0.1, 5.0)
    else if indicatorName == "MACD" then
      InRange(s, "fastPeriod", 2.0, 100.0) && InRange(s, "slowPeriod", 2.0, 100.0) && InRange(s, "signalPeriod", 2.0, 100.0)
      && s["slowPeriod"].x > s["fastPeriod"].x
    else if indicatorName == "Moving Average" then
      InRange(s, "period", 2.0, 200.0) && ("type" in s ==> s["type"].JString? && s["type"].s in MovingAverageTypes)
    else if indicatorName == "Stochastic" then
      InRange(s, "kPeriod", 1.0, 100.0) && InRange(s, "dPeriod", 1.0, 100.0) && InRange(s, "slowing", 1.0, 100.0)
    else true
  }

  /** The settings check passes exactly on acceptable settings. */
  lemma SettingsErrorIffUnacceptable(indicatorName: string, s: Settings)
    ensures SettingsError(indicatorName, s).None? <==> Acceptable(indicatorName, s)
  {
  }

  /** A missing required parameter is reported before any value is looked at. */
  lemma MissingReportedFirst(s: Settings)
    ensures "period" !in s ==> SettingsError("RSI", s) == Some("RSI requires 'period' parameter")
    ensures "period" !in s ==> SettingsError("Bollinger Bands", s) == Some("Bollinger Bands requires 'period' parameter")
    ensures "period" in s && "deviations" !in s ==> SettingsError("Bollinger Bands", s) == Some("Bollinger Bands requires 'deviations' parameter")
    ensures "fastPeriod" in s && "slowPeriod" in s && "signalPeriod" !in s ==>
      SettingsError("MACD", s) == Some("MACD requires 'signalPeriod' parameter")
  {
  }

  /** MACD with fast 26 and slow 12 is rejected for the order of its periods, not their range. */
  lemma ScenarioMacdOrder()
    ensures SettingsError("MACD", map["fastPeriod" := JNumber(26.0), "slowPeriod" := JNumber(12.0), "signalPeriod" := JNumber(9.0)])
      == Some("MACD slowPeriod must be greater than fastPeriod")
    ensures SettingsError("MACD", map["fastPeriod" := JNumber(12.0), "slowPeriod" := JNumber(26.0), "signalPeriod" := JNumber(9.0)]).None?
  {
  }

  /** A period given as the text "14" is not a number. */
  lemma ScenarioTextPeriod()
    ensures SettingsError("RSI", map["period" := JString("14")]) == Some("RSI period must be a number")
  {
  }
}
