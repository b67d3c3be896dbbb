/** The two validators of a strategy's structure side by side. */
module ValidatorComparison {
  import opened Util
  import opened RuleTree
  import RuleValidation
  import opened GoStrategyValidator

  /**
   * A strategy with buy rules only: the backtesting service's validator accepts a single valid
   * RSI < 30 rule with no sell side, while the strategy service's validator rejects every strategy
   * whose buy list is non-empty and whose sell list is empty, before looking at any rule.
   */
  lemma BuyOnlyStrategy(goBuy: seq<GoRule>)
    requires |goBuy| > 0
    ensures RuleValidation.ValidateStrategy(RuleValidation.StrategyConfig(
              Some(Tree([RuleEntry("0", Rule(Some(Indicator(Some("RSI"))), Some(Condition(Some(Numeric(Finite(30.0))), Some("<")))))])),
              None)).ok
    ensures StructureError(goBuy, []) == Some("sell rules cannot be empty")
  {
    var t := Tree([RuleEntry("0", Rule(Some(Indicator(Some("RSI"))), Some(Condition(Some(Numeric(Finite(30.0))), Some("<")))))]);
    assert !HasSequence(t);
    assert RuleValidation.EntriesError(t, 0) == RuleValidation.EntriesError(t, 1);
  }
}
