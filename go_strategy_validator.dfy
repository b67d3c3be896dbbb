/**
 * The strategy service's validator for the list-based rule tree: each rule is a leaf
 * ("rule") or a group ("group") holding nested rules, and every rule carries the
 * operator joining it to the next one. An error is Some(message), nil is None.
 */
module GoStrategyValidator {
  import opened Util
  import opened IndicatorSettings

  datatype GoIndicator = GoIndicator(id: string, name: string)
  datatype GoCondition = GoCondition(id: string, name: string, symbol: string)

  /** model.Rule; a nil pointer is None, an absent string field is "". */
  datatype GoRule = GoRule(
    ty: string,
    indicator: Option<GoIndicator>,
    condition: Option<GoCondition>,
    value: string,
    settings: Settings,
    operator: string,
    rules: seq<GoRule>)

  /** isValidComparisonSymbol. */
  const ComparisonSymbols: set<string> :=
    {">", "<", ">=", "<=", "==", "!=", "crosses_above", "crosses_below", "is_above", "is_below"}

  // ---- strconv.ParseFloat syntax ----

  /** The number of decimal digits starting at position i. */
  function DigitRun(s: string, i: nat): (n: nat)
    requires i <= |s|
    ensures i + n <= |s|
    ensures forall j :: i <= j < i + n ==> IsDigit(s[j])
    ensures i + n < |s| ==> !IsDigit(s[i + n])
    decreases |s| - i
  {
    if i < |s| && IsDigit(s[i]) then 1 + DigitRun(s, i + 1) else 0
  }

  /** Decimal float syntax: [sign] digits [. digits] or [sign] . digits, then an optional exponent. */
  predicate IsDecimalFloat(s: string)
  {
    var i0 := SignAt(s, 0);
    var a := DigitRun(s, i0);
    var dot := i0 + a < |s| && s[i0 + a] == '.';
    var b := if dot then DigitRun(s, i0 + a + 1) else 0;
    var k := if dot then i0 + a + 1 + b else i0 + a;
    a + b > 0 &&
    (k == |s| ||
     (s[k] in {'e', 'E'} &&
      var m := k + 1 + SignAt(s, k + 1);
      var c := DigitRun(s, m);
      c > 0 && m + c == |s|))
  }

  /** The spellings of infinity and NaN that ParseFloat accepts (case-insensitive; NaN without a sign). */
  predicate IsSpecialFloat(s: string)
  {
    Lower(s) == "nan" ||
    var rest := s[SignAt(s, 0)..];
    Lower(rest) == "inf" || Lower(rest) == "infinity"
  }

  /** The values strconv.ParseFloat(v, 64) accepts. */
  predicate IsGoFloat(s: string): (b: bool)
    ensures b ==> s != ""
    ensures s != "" && AllDigits(s) ==> b
  {
    IsDecimalFloat(s) || IsSpecialFloat(s)
  }

  lemma ScenarioGoFloatInteger()
    ensures IsGoFloat("30")
  {
    assert DigitRun("30", 2) == 0;
    assert DigitRun("30", 1) == 1;
    assert DigitRun("30", 0) == 2;
  }

  lemma ScenarioGoFloatFraction()
    ensures IsGoFloat("-1.5")
  {
    assert DigitRun("-1.5", 4) == 0;
    assert DigitRun("-1.5", 3) == 1;
    assert DigitRun("-1.5", 2) == 0;
    assert DigitRun("-1.5", 1) == 1;
  }

  lemma ScenarioGoFloatExponent()
    ensures IsGoFloat("1e5")
  {
    assert DigitRun("1e5", 3) == 0;
    assert DigitRun("1e5", 2) == 1;
    assert DigitRun("1e5", 1) == 0;
    assert DigitRun("1e5", 0) == 1;
  }

  lemma ScenarioGoFloatInfinity()
    ensures IsGoFloat("+Inf")
  {
    assert Lower("+Inf"[1..]) == "inf";
  }

  /** The empty text, an exponent without digits and a lone dot are not numbers. */
  lemma ScenarioGoFloatRejects()
    ensures !IsGoFloat("") && !IsGoFloat("1e") && !IsGoFloat(".")
  {
    assert Lower("") == "";
    RejectsDanglingExponent();
    RejectsLoneDot();
  }

  lemma RejectsDanglingExponent()
    ensures !IsGoFloat("1e")
  {
    assert Lower("1e") == "1e";
    assert DigitRun("1e", 2) == 0;
    assert DigitRun("1e", 1) == 0;
    assert DigitRun("1e", 0) == 1;
  }

  lemma RejectsLoneDot()
    ensures !IsGoFloat(".")
  {
    assert Lower(".") == ".";
    assert DigitRun(".", 1) == 0;
    assert DigitRun(".", 0) == 0;
  }

  // ---- The validator ----

  /** validateSingleRule, up to the settings check. */
  function SingleRuleError(r: GoRule): (e: Option<string>)
    ensures r.indicator.None? ==> e == Some("indicator is required for rule type")
    ensures r.indicator.Some? && r.indicator.value.id == "" ==> e == Some("indicator ID is required")
    ensures e.None? ==> r.value != ""
    ensures e.None? && r.condition.Some? && r.condition.value.symbol !in {"==", "!="} ==> IsGoFloat(r.value)
  {
    if r.indicator.None? then Some("indicator is required for rule type")
    else if r.indicator.value.id == "" then Some("indicator ID is required")
    else if r.indicator.value.name == "" then Some("indicator name is required")
    else if r.condition.None? then Some("condition is required for rule type")
    else if r.condition.value.symbol == "" then Some("comparison symbol is required")
    else if r.condition.value.symbol !in ComparisonSymbols then Some("invalid comparison symbol: " + r.condition.value.symbol)
    else if r.value == "" then Some("comparison value is required")
    else if r.condition.value.symbol != "==" && r.condition.value.symbol != "!=" && !IsGoFloat(r.value) then
      Some("invalid numeric value: " + r.value)
    else SettingsError(r.indicator.value.name, r.settings)
  }

  /** validateRule. */
  function RuleError(r: GoRule): (e: Option<string>)
    ensures r.ty != "rule" && r.ty != "group" ==> e == Some("invalid rule type: " + r.ty)
    ensures e.None? ==> r.operator in {"AND", "OR"}
    ensures r.ty == "group" && r.operator in {"AND", "OR"} && |r.rules| == 0 ==> e == Some("rule group cannot be empty")
    decreases r, 1
  {
    if r.ty != "rule" && r.ty != "group" then Some("invalid rule type: " + r.ty)
    else if r.operator != "AND" && r.operator != "OR" then Some("invalid operator: " + r.operator)
    else if r.ty == "rule" then SingleRuleError(r)
    else if |r.rules| == 0 then Some("rule group cannot be empty")
    else NestedError(r, 0)
  }

  /** validateRuleGroup's loop from position k: the first failure, tagged with its 1-based position. */
  function NestedError(r: GoRule, k: nat): (e: Option<string>)
    ensures e.Some? ==> k < |r.rules| && StartsWith(e.value, "nested rule ")
    decreases r, 0, |r.rules| - k
  {
    if k >= |r.rules| then None
    else match RuleError(r.rules[k])
      case Some(m) => Some("nested rule " + IntToString(k + 1) + ": " + m)
      case None => NestedError(r, k + 1)
  }

  /** validateRules' loop from position k. */
  function RulesError(rules: seq<GoRule>, k: nat): (e: Option<string>)
    ensures e.Some? ==> k < |rules| && StartsWith(e.value, "rule ")
    decreases |rules| - k
  {
    if k >= |rules| then None
    else match RuleError(rules[k])
      case Some(m) => Some("rule " + IntToString(k + 1) + ": " + m)
      case None => RulesError(rules, k + 1)
  }

  /** ValidateStrategyStructure. */
  function StructureError(buyRules: seq<GoRule>, sellRules: seq<GoRule>): (e: Option<string>)
    ensures |buyRules| == 0 ==> e == Some("buy rules cannot be empty")
    ensures |buyRules| > 0 && |sellRules| == 0 ==> e == Some("sell rules cannot be empty")
  {
    if |buyRules| == 0 then Some("buy rules cannot be empty")
    else if |sellRules| == 0 then Some("sell rules cannot be empty")
    else match RulesError(buyRules, 0)
      case Some(m) => Some("invalid buy rules: " + m)
      case None =>
        match RulesError(sellRules, 0)
        case Some(m) => Some("invalid sell rules: " + m)
        case None => None
  }

  // ---- What the validator accepts ----

  /** A leaf the validator accepts. */
  predicate ValidLeaf(r: GoRule)
  {
    && r.indicator.Some? && r.indicator.value.id != "" && r.indicator.value.name != ""
    && r.condition.Some? && r.condition.value.symbol in ComparisonSymbols
    && r.value != ""
    && (r.condition.value.symbol !in {"==", "!="} ==> IsGoFloat(r.value))
    && Acceptable(r.indicator.value.name, r.settings)
  }

  /** A rule the validator accepts: every rule at every depth has a known type and AND/OR, leaves are valid, groups are non-empty. */
  predicate Valid(r: GoRule)
    decreases r
  {
    && r.ty in {"rule", "group"}
    && r.operator in {"AND", "OR"}
    && (r.ty == "rule" ==> ValidLeaf(r))
    && (r.ty == "group" ==> |r.rules| > 0 && forall k :: 0 <= k < |r.rules| ==> Valid(r.rules[k]))
  }

  lemma SingleRuleErrorMeaning(r: GoRule)
    ensures SingleRuleError(r).None? <==> ValidLeaf(r)
  {
    if r.indicator.Some? {
      SettingsErrorIffUnacceptable(r.indicator.value.name, r.settings);
    }
  }

  /** validateRule returns nil exactly on valid rules. */
  lemma {:induction false} RuleErrorMeaning(r: GoRule)
    ensures RuleError(r).None? <==> Valid(r)
    decreases r, 1
  {
    SingleRuleErrorMeaning(r);
    if r.ty == "group" && r.operator in {"AND", "OR"} && |r.rules| > 0 {
      NestedErrorMeaning(r, 0);
    }
  }

  lemma {:induction false} NestedErrorMeaning(r: GoRule, k: nat)
    ensures NestedError(r, k).None? <==> forall j :: k <= j < |r.rules| ==> Valid(r.rules[j])
    decreases r, 0, |r.rules| - k
  {
    if k < |r.rules| {
      RuleErrorMeaning(r.rules[k]);
      NestedErrorMeaning(r, k + 1);
    }
  }

  /** The position of the first rule at k or later that fails, or |rules| when none does. */
  function FirstInvalid(rules: seq<GoRule>, k: nat): (m: nat)
    requires k <= |rules|
    ensures k <= m <= |rules|
    decreases |rules| - k
  {
    if k == |rules| || RuleError(rules[k]).Some? then k else FirstInvalid(rules, k + 1)
  }

  /** validateRules' loop returns the error of the first failing rule, tagged with its 1-based position. */
  lemma {:induction false} RulesErrorAtFirstFailure(rules: seq<GoRule>, k: nat)
    requires k <= |rules|
    ensures var m := FirstInvalid(rules, k);
      && (m < |rules| ==>
            (RuleError(rules[m]).Some?
             && RulesError(rules, k) == Some("rule " + IntToString(m + 1) + ": " + RuleError(rules[m]).value)))
      && (m == |rules| <==> RulesError(rules, k).None?)
    decreases |rules| - k
  {
    if k < |rules| && RuleError(rules[k]).None? {
      RulesErrorAtFirstFailure(rules, k + 1);
    }
  }

  /** Every rule before the first failing one is valid. */
  lemma {:induction false} ValidBeforeFirstFailure(rules: seq<GoRule>, k: nat)
    requires k <= |rules|
    ensures forall j :: k <= j < FirstInvalid(rules, k) ==> Valid(rules[j])
    decreases |rules| - k
  {
    if k < |rules| && RuleError(rules[k]).None? {
      assert FirstInvalid(rules, k) == FirstInvalid(rules, k + 1);
      RuleErrorMeaning(rules[k]);
      ValidBeforeFirstFailure(rules, k + 1);
      forall j | k <= j < FirstInvalid(rules, k)
        ensures Valid(rules[j])
      {
        if j == k {
          assert Valid(rules[k]);
        }
      }
    } else {
      assert FirstInvalid(rules, k) == k;
    }
  }

  /**
   * validateRules reports the first invalid rule, prefixed with its 1-based position;
   * every rule before it is valid, and nil means every rule is valid.
   */
  lemma RulesErrorIsFirstFailure(rules: seq<GoRule>, k: nat)
    requires k <= |rules|
    ensures var m := FirstInvalid(rules, k);
      && (forall j :: k <= j < m ==> Valid(rules[j]))
      && (m < |rules| ==>
            (!Valid(rules[m]) && RuleError(rules[m]).Some?
             && RulesError(rules, k) == Some("rule " + IntToString(m + 1) + ": " + RuleError(rules[m]).value)))
      && (m == |rules| <==> RulesError(rules, k).None?)
  {
    var m := FirstInvalid(rules, k);
    RulesErrorAtFirstFailure(rules, k);
    ValidBeforeFirstFailure(rules, k);
    if m < |rules| {
      RuleErrorMeaning(rules[m]);
    }
  }

  /** The structure passes exactly when both lists are non-empty and every rule in them is valid. */
  lemma StructureErrorMeaning(buyRules: seq<GoRule>, sellRules: seq<GoRule>)
    ensures StructureError(buyRules, sellRules).None? <==>
      |buyRules| > 0 && |sellRules| > 0
      && (forall j :: 0 <= j < |buyRules| ==> Valid(buyRules[j]))
      && (forall j :: 0 <= j < |sellRules| ==> Valid(sellRules[j]))
  {
    RulesErrorIsFirstFailure(buyRules, 0);
    RulesErrorIsFirstFailure(sellRules, 0);
  }

  /** An empty group nested as the second rule is reported with both positions. */
  lemma ScenarioNestedPosition(leaf: GoRule)
    requires Valid(leaf) && leaf.ty == "rule"
    ensures RulesError([leaf, GoRule("group", None, None, "", map[], "AND", [])], 0)
      == Some("rule " + IntToString(2) + ": " + "rule group cannot be empty")
  {
    RuleErrorMeaning(leaf);
    var rules := [leaf, GoRule("group", None, None, "", map[], "AND", [])];
    assert RulesError(rules, 0) == RulesError(rules, 1);
  }
}
