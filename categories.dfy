/**
 * Keyword categorisation of indicator names, as both the strategy service (categorizeIndicator)
 * and the backtesting service (categorize_indicator) do it: the keyword lists are tried tier by
 * tier (Trend, Momentum, Volatility, Volume), a keyword matches when its upper-cased text occurs
 * in the upper-cased name, and the first matching tier names the category; "Other" otherwise.
 */
module IndicatorCategories {
  import opened Util

  datatype Tier = Tier(category: string, keywords: seq<string>)

  /** The keyword lists of categorizeIndicator. */
  const GoTiers: seq<Tier> := [
    Tier("Trend", ["MA", "EMA", "SMA", "MACD", "ADX", "Ichimoku"]),
    Tier("Momentum", ["RSI", "CCI", "Stochastic", "TRIX", "ROC", "Momentum"]),
    Tier("Volatility", ["Bollinger", "ATR", "Volatility", "Standard Deviation"]),
    Tier("Volume", ["Volume", "OBV", "Money Flow", "Accumulation"])
  ]

  /** The keyword lists of categorize_indicator. */
  const PythonTiers: seq<Tier> := [
    Tier("Trend", ["MA", "EMA", "SMA", "MACD", "ADX", "DEMA", "TEMA", "TRIMA", "Ichimoku"]),
    Tier("Momentum", ["RSI", "CCI", "Stochastic", "TRIX", "ROC", "MOM", "Momentum", "Williams", "TSI"]),
    Tier("Volatility", ["Bollinger", "ATR", "Keltner", "Standard Deviation", "Donchian"]),
    Tier("Volume", ["Volume", "OBV", "Money Flow", "Accumulation", "CMF", "Volume Profile"])
  ]

  /** Case-insensitive substring match of one keyword. */
  predicate KeywordMatches(name: string, keyword: string)
  {
    Contains(Upper(name), Upper(keyword))
  }

  /** Some keyword of the list matches, trying them in order. */
  function AnyKeyword(name: string, keywords: seq<string>): (r: bool)
    ensures r <==> exists k :: 0 <= k < |keywords| && KeywordMatches(name, keywords[k])
  {
    if keywords == [] then false
    else if KeywordMatches(name, keywords[0]) then true
    else
      assert forall k :: 1 <= k < |keywords| ==> keywords[k] == keywords[1..][k - 1];
      AnyKeyword(name, keywords[1..])
  }

  /** The category of the first tier with a matching keyword, or "Other". */
  function Categorize(tiers: seq<Tier>, name: string): (c: string)
    ensures c == "Other" || exists j :: 0 <= j < |tiers| && c == tiers[j].category
  {
    if tiers == [] then "Other"
    else if AnyKeyword(name, tiers[0].keywords) then tiers[0].category
    else
      var c := Categorize(tiers[1..], name);
      assert c != "Other" ==> exists j :: 0 <= j < |tiers| && c == tiers[j].category by {
        if c != "Other" {
          var j :| 0 <= j < |tiers[1..]| && c == tiers[1..][j].category;
          assert tiers[j + 1] == tiers[1..][j];
        }
      }
      c
  }

  /** The first tier with a matching keyword decides; when none matches the result is "Other". */
  lemma {:induction false} CategorizeFirstMatch(tiers: seq<Tier>, name: string, j: nat)
    requires j <= |tiers|
    requires forall k :: 0 <= k < j ==> !AnyKeyword(name, tiers[k].keywords)
    ensures j < |tiers| && AnyKeyword(name, tiers[j].keywords) ==> Categorize(tiers, name) == tiers[j].category
    ensures j == |tiers| ==> Categorize(tiers, name) == "Other"
  {
    if j > 0 {
      assert !AnyKeyword(name, tiers[0].keywords);
      assert forall k :: 0 <= k < j - 1 ==> tiers[1..][k] == tiers[k + 1];
      CategorizeFirstMatch(tiers[1..], name, j - 1);
    }
  }

  function GoCategory(name: string): string
  {
    Categorize(GoTiers, name)
  }

  function PythonCategory(name: string): string
  {
    Categorize(PythonTiers, name)
  }

  predicate IsCategory(c: string)
  {
    c in {"Trend", "Momentum", "Volatility", "Volume", "Other"}
  }

  /** categorizeIndicator: one of the five categories, decided by the first matching tier. */
  lemma GoCategoryMeaning(name: string)
    ensures IsCategory(GoCategory(name))
    ensures GoCategory(name) == "Trend" <==> AnyKeyword(name, GoTiers[0].keywords)
    ensures GoCategory(name) == "Momentum" <==>
      !AnyKeyword(name, GoTiers[0].keywords) && AnyKeyword(name, GoTiers[1].keywords)
    ensures GoCategory(name) == "Volatility" <==>
      (!AnyKeyword(name, GoTiers[0].keywords) && !AnyKeyword(name, GoTiers[1].keywords) && AnyKeyword(name, GoTiers[2].keywords))
    ensures GoCategory(name) == "Volume" <==>
      (!AnyKeyword(name, GoTiers[0].keywords) && !AnyKeyword(name, GoTiers[1].keywords)
       && !AnyKeyword(name, GoTiers[2].keywords) && AnyKeyword(name, GoTiers[3].keywords))
    ensures GoCategory(name) == "Other" <==>
      (!AnyKeyword(name, GoTiers[0].keywords) && !AnyKeyword(name, GoTiers[1].keywords)
       && !AnyKeyword(name, GoTiers[2].keywords) && !AnyKeyword(name, GoTiers[3].keywords))
  {
    var m0, m1 := AnyKeyword(name, GoTiers[0].keywords), AnyKeyword(name, GoTiers[1].keywords);
    var m2, m3 := AnyKeyword(name, GoTiers[2].keywords), AnyKeyword(name, GoTiers[3].keywords);
    TiersDecide(GoTiers, name);
    assert GoCategory(name) ==
      if m0 then "Trend" else if m1 then "Momentum" else if m2 then "Volatility" else if m3 then "Volume" else "Other";
    assert "Trend"[0] != "Other"[0];
  }

  /** categorize_indicator: one of the five categories, decided by the first matching tier. */
  lemma PythonCategoryMeaning(name: string)
    ensures IsCategory(PythonCategory(name))
    ensures PythonCategory(name) == "Trend" <==> AnyKeyword(name, PythonTiers[0].keywords)
    ensures PythonCategory(name) == "Momentum" <==>
      !AnyKeyword(name, PythonTiers[0].keywords) && AnyKeyword(name, PythonTiers[1].keywords)
    ensures PythonCategory(name) == "Volatility" <==>
      (!AnyKeyword(name, PythonTiers[0].keywords) && !AnyKeyword(name, PythonTiers[1].keywords)
       && AnyKeyword(name, PythonTiers[2].keywords))
    ensures PythonCategory(name) == "Volume" <==>
      (!AnyKeyword(name, PythonTiers[0].keywords) && !AnyKeyword(name, PythonTiers[1].keywords)
       && !AnyKeyword(name, PythonTiers[2].keywords) && AnyKeyword(name, PythonTiers[3].keywords))
    ensures PythonCategory(name) == "Other" <==>
      (!AnyKeyword(name, PythonTiers[0].keywords) && !AnyKeyword(name, PythonTiers[1].keywords)
       && !AnyKeyword(name, PythonTiers[2].keywords) && !AnyKeyword(name, PythonTiers[3].keywords))
  {
    var m0, m1 := AnyKeyword(name, PythonTiers[0].keywords), AnyKeyword(name, PythonTiers[1].keywords);
    var m2, m3 := AnyKeyword(name, PythonTiers[2].keywords), AnyKeyword(name, PythonTiers[3].keywords);
    TiersDecide(PythonTiers, name);
    assert PythonCategory(name) ==
      if m0 then "Trend" else if m1 then "Momentum" else if m2 then "Volatility" else if m3 then "Volume" else "Other";
    assert "Trend"[0] != "Other"[0];
  }

  /** For four tiers the category is that of the first matching tier, else "Other". */
  lemma TiersDecide(tiers: seq<Tier>, name: string)
    requires |tiers| == 4
    ensures Categorize(tiers, name) ==
      if AnyKeyword(name, tiers[0].keywords) then tiers[0].category
      else if AnyKeyword(name, tiers[1].keywords) then tiers[1].category
      else if AnyKeyword(name, tiers[2].keywords) then tiers[2].category
      else if AnyKeyword(name, tiers[3].keywords) then tiers[3].category
      else "Other"
  {
    var t1 := tiers[1..];
    var t2 := t1[1..];
    var t3 := t2[1..];
    var t4 := t3[1..];
    assert t1[0] == tiers[1] && t2[0] == tiers[2] && t3[0] == tiers[3] && t4 == [];
    assert Categorize(t3, name) == if AnyKeyword(name, tiers[3].keywords) then tiers[3].category else Categorize(t4, name);
    assert Categorize(t2, name) == if AnyKeyword(name, tiers[2].keywords) then tiers[2].category else Categorize(t3, name);
    assert Categorize(t1, name) == if AnyKeyword(name, tiers[1].keywords) then tiers[1].category else Categorize(t2, name);
  }

  /** Any name containing "MA" in any letter case is a trend indicator, in both services. */
  lemma ContainsMaIsTrend(name: string)
    requires Contains(Upper(name), "MA")
    ensures GoCategory(name) == "Trend"
    ensures PythonCategory(name) == "Trend"
  {
    assert Upper("MA") == "MA";
    assert KeywordMatches(name, GoTiers[0].keywords[0]);
    assert KeywordMatches(name, PythonTiers[0].keywords[0]);
    GoCategoryMeaning(name);
    PythonCategoryMeaning(name);
  }
}
