/** The exchange client's timeframe/interval mappings and the kline request limit. */
module BinanceClient {

  /** The eight timeframes both sides know. */
  const Timeframes: set<string> := {"1m", "5m", "15m", "30m", "1h", "4h", "1d", "1w"}

  /** The largest number of klines one request asks for. */
  const MaxKlinesLimit := 1000

  /** MapBinanceIntervalToTimeframe: a known interval maps to itself, anything else to "". */
  function MapBinanceIntervalToTimeframe(interval: string): (t: string)
    ensures interval in Timeframes ==> t == interval
    ensures interval !in Timeframes ==> t == ""
  {
    if interval == "1m" then "1m"
    else if interval == "5m" then "5m"
    else if interval == "15m" then "15m"
    else if interval == "30m" then "30m"
    else if interval == "1h" then "1h"
    else if interval == "4h" then "4h"
    else if interval == "1d" then "1d"
    else if interval == "1w" then "1w"
    else ""
  }

  /** MapTimeframeToBinanceInterval: a known timeframe maps to itself, anything else to "". */
  function MapTimeframeToBinanceInterval(timeframe: string): (i: string)
    ensures timeframe in Timeframes ==> i == timeframe
    ensures timeframe !in Timeframes ==> i == ""
  {
    if timeframe == "1m" then "1m"
    else if timeframe == "5m" then "5m"
    else if timeframe == "15m" then "15m"
    else if timeframe == "30m" then "30m"
    else if timeframe == "1h" then "1h"
    else if timeframe == "4h" then "4h"
    else if timeframe == "1d" then "1d"
    else if timeframe == "1w" then "1w"
    else ""
  }

  /** Mapping a timeframe out and back gives the interval it was mapped to, and a known timeframe back. */
  lemma TimeframeRoundTrip(t: string)
    ensures MapBinanceIntervalToTimeframe(MapTimeframeToBinanceInterval(t)) == MapTimeframeToBinanceInterval(t)
    ensures t in Timeframes ==> MapBinanceIntervalToTimeframe(MapTimeframeToBinanceInterval(t)) == t
  {
    assert "" !in Timeframes;
  }

  /** The other direction: an interval mapped in and out again. */
  lemma IntervalRoundTrip(i: string)
    ensures MapTimeframeToBinanceInterval(MapBinanceIntervalToTimeframe(i)) == MapBinanceIntervalToTimeframe(i)
  {
    assert "" !in Timeframes;
  }

  /** The limit GetKlines sends: capped at MaxKlinesLimit, otherwise unchanged (including zero and below). */
  function KlinesLimit(limit: int): (r: int)
    ensures r <= MaxKlinesLimit
    ensures limit <= MaxKlinesLimit ==> r == limit
    ensures limit > MaxKlinesLimit ==> r == MaxKlinesLimit
  {
    if limit > MaxKlinesLimit then MaxKlinesLimit else limit
  }
}
