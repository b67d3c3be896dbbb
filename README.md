# Trading platform core, modelled in Dafny

This project models the deterministic core of a trading-strategy platform. At its centre is the backtesting service's strategy rule engine. It has three parts. A fail-fast validator checks a strategy's dict-encoded rule trees: `rule<i>`, `group<i>` and `operator<i>` keys, with an optional `_sequence`. A recursive evaluator folds leaf comparisons of indicator values left to right with AND/OR. A per-candle decision step handles entry, stop-loss, take-profit, the ratcheting trailing stop and position sizing.

Around the engine sit the smaller sequential pieces of the services:
- the indicator catalogue: alias resolution, parameter merging, parameter text and column writing;
- the strategy service's validator for its list-based rule tree, and its indicator-settings range checks;
- the gap computation for missing candle ranges;
- keyword categorisation of indicators, in both services;
- the indicator-catalogue sync into the strategy database, in both services;
- in-memory and query-parameter pagination, in the strategy service and the shared model;
- the exchange client's timeframe mappings and kline limit;
- the gateway's token-bucket rate limiter, proxy-path rewrite and authentication helpers;
- the shared password policy and sanitisers;
- the shared API error type;
- sort-direction normalisation.

Each piece is written in the form of its source:
- Pure code becomes datatypes, functions and lemmas.
- Loops become methods with invariants, proved equal to a function that states what they compute.
- State updated in place becomes a class whose methods state the new state: the strategy instance, the indicator registry and data frame, the rate limiter, the admin path table, and the API error.

Integers are unbounded, prices, equity, token counts and times are reals, and strings are sequences of characters. Where Go measures a string in bytes the model counts UTF-8 bytes (`Util.ByteLen`, `IndicatorSync.Bytes`).

Where the code behaves differently from what its names and docstrings suggest, the model follows the code:
- When `_sequence` is absent, only `rule*` and `operator*` keys contribute terms: the simple path (`strategies.py:131-157`) skips group keys entirely, although groups are part of the rule format (`EvaluationLaws.SimplePathIgnoresGroups`).
- The sequence path runs only when `_sequence` and some `operator*` key are both present (`strategies.py:83-88`). A `_sequence` without operators is ignored.
- The Python validator needs only one non-empty side (`strategies.py:287-288`). The Go validator needs both (`strategy_validator.go:14-20`). Each is modelled as written, and `ValidatorComparison.BuyOnlyStrategy` states the difference.
- The strategy service counts 1 page for 0 items (`pagination.go:43-49`); the shared model counts 0 (`shared/go/model/pagination.go:53-68`). `SharedPagination.PageCountsCompared` states both.

## Model

| member | source | states |
|---|---|---|
| RuleTree.FindRule | services/backtesting-service/src/strategies.py:102-104 | The position of the first entry stored under "rule" + suffix, when there is one; None exactly when no entry has that key. |
| RuleTree.FindGroup | services/backtesting-service/src/strategies.py:106-110 | The position of the first entry stored under "group" + suffix; None exactly when no entry has that key. |
| RuleTree.FindOperator | services/backtesting-service/src/strategies.py:120-123 | The value of the first entry stored under "operator" + suffix; None exactly when the key is absent. |
| RuleTree.SequenceItems | services/backtesting-service/src/strategies.py:92 | `rules.get("_sequence", [])`: no items without a "_sequence" key. |
| RuleEvaluation.IndicatorValue | services/backtesting-service/src/strategies.py:193-216 | A matching column's value; otherwise the close price for "Price", and 0.0 for any other name. |
| RuleEvaluation.Compare | services/backtesting-service/src/strategies.py:175-188 | Each of the six symbols compares as its float operator: finite values by their order, -inf below and +inf above every finite value, an infinity equal to itself; with a NaN operand only "!=" holds; an unknown symbol gives false. |
| RuleEvaluation.EvalRule | services/backtesting-service/src/strategies.py:159-191 | A leaf never raises: a value float() rejects gives false, an unknown symbol gives false, otherwise the comparison of the indicator value with the value; a missing condition compares with 0 under "==". |
| RuleEvaluation.ItemResults | services/backtesting-service/src/strategies.py:98-113 | One sequence item contributes at most one result. |
| RuleEvaluation.ItemResultsMeaning | services/backtesting-service/src/strategies.py:98-113 | An item contributes exactly when it is a rule or group item whose key is present; a rule item contributes that rule's evaluation and a group item the group's; operator items and everything else contribute nothing. |
| RuleEvaluation.SequenceResultsAppend | services/backtesting-service/src/strategies.py:96-113 | The results of two item lists one after the other are the results of the first followed by those of the second, so the results list follows the sequence item by item. |
| RuleEvaluation.SequenceResultsSingle | services/backtesting-service/src/strategies.py:97-113 | A one-item sequence yields exactly that item's results. |
| RuleEvaluation.SequenceResultsStep | services/backtesting-service/src/strategies.py:97-113 | Each loop step appends the current item's results to those of the items before it. |
| RuleEvaluation.SequenceResults | services/backtesting-service/src/strategies.py:96-113 | The sequence path yields at most one result per sequence item. |
| RuleEvaluation.FoldResults | services/backtesting-service/src/strategies.py:115-129 | The fold loop returns the left-to-right fold: false on no results, else results[0] combined with each later result through its operator. |
| RuleEvaluation.EvaluateRules | services/backtesting-service/src/strategies.py:81-88 | The engine returns the tree's value; the sequence path runs only when "_sequence" and some operator key are both present. |
| RuleEvaluation.EvaluateComplex | services/backtesting-service/src/strategies.py:90-129 | The results loop over "_sequence" followed by the fold with rules["operator{j-1}"] gives the complex-path value. |
| RuleEvaluation.EvaluateItem | services/backtesting-service/src/strategies.py:98-113 | A rule or group item contributes its value when its key exists, otherwise nothing. |
| RuleEvaluation.EvaluateSimple | services/backtesting-service/src/strategies.py:131-157 | The entry loop collects rule results and operators in entry order (groups skipped) and folds them. |
| EvaluationLaws.FoldAllAnd | services/backtesting-service/src/strategies.py:116-129 | When every operator used is AND, the fold is true exactly when there are results and all of them are true. |
| EvaluationLaws.FoldAllOr | services/backtesting-service/src/strategies.py:116-129 | When every operator used is OR, the fold is true exactly when some result is true. |
| EvaluationLaws.FoldWithoutOperators | services/backtesting-service/src/strategies.py:120-127 | With no AND/OR operator at any used position the accumulator never changes: the fold is results[0]. |
| EvaluationLaws.FoldUsesOnlyLeadingOperators | services/backtesting-service/src/strategies.py:120-122 | The fold of n results reads only the operators at positions 0..n-2; later operator keys do not matter. |
| EvaluationLaws.NoTermsNoSequenceResults | services/backtesting-service/src/strategies.py:97-113 | A tree with no rule and no group entries yields no sequence results, whatever the items. |
| EvaluationLaws.NoRulesNoSimpleResults | services/backtesting-service/src/strategies.py:137-141 | A tree without rule entries yields no results on the simple path. |
| EvaluationLaws.EmptyTreeIsFalse | services/backtesting-service/src/strategies.py:116-117 | A tree with no rule and no group entries evaluates to false, on either path. |
| EvaluationLaws.SimplePartsSnoc | services/backtesting-service/src/strategies.py:137-141 | Appending an entry to the tree adds its rule result or its operator at the end, and nothing for any other entry. |
| EvaluationLaws.SimplePartsOfFilter | services/backtesting-service/src/strategies.py:137-141 | The simple path sees only the rule and operator entries: removing every other entry leaves its results and operators unchanged. |
| EvaluationLaws.SimplePathIgnoresGroups | services/backtesting-service/src/strategies.py:131-157 | Off the sequence path, the value equals that of the tree stripped to its rule and operator entries: groups and "_sequence" do not count. |
| EvaluationLaws.ScenarioSingleLeaf | services/backtesting-service/src/strategies.py:159-191 | The leaf RSI < 30 holds at RSI 25 and fails at RSI 35. |
| EvaluationLaws.ScenarioInfiniteThreshold | services/backtesting-service/src/strategies.py:172-186 | Against a float("inf") threshold every finite reading is below and never equal; against float("-inf") every finite reading is above. |
| EvaluationLaws.ScenarioAndOr | services/backtesting-service/src/strategies.py:147-155 | With RSI < 30 true and SMA > 50 false, {rule0, operator0: op, rule1} is true exactly when op is not "AND". |
| EvaluationLaws.ScenarioGroupWithoutSequence | services/backtesting-service/src/strategies.py:83-88 | {group0, operator0: AND, rule1} without "_sequence" evaluates to rule1 alone. |
| EvaluationLaws.ScenarioSequenceWithoutOperator | services/backtesting-service/src/strategies.py:83-88 | A "_sequence" listing rule1 before rule0 but no operator key is ignored: entry order makes the tree true where RSI < 30 and SMA ≤ 50. |
| EvaluationLaws.OrderedTreeResults | services/backtesting-service/src/strategies.py:97-113 | With "_sequence" [rule1, operator0, rule0] the results come in sequence order: [SMA > 50, RSI < 30]. |
| EvaluationLaws.ScenarioSequenceWithOperator | services/backtesting-service/src/strategies.py:115-129 | The same tree with operator0 "AND" follows the declared order and is false where RSI < 30 and SMA ≤ 50. |
| RuleValidation.RuleError | services/backtesting-service/src/strategies.py:366-387 | A rule passes exactly when indicator, condition, indicator.name, condition.value and condition.symbol exist and the symbol is one of the six; the missing indicator is reported first, then the missing condition. |
| RuleValidation.RulesError | services/backtesting-service/src/strategies.py:304-361 | A tree whose keys are none of rule, group, operator and _sequence passes. |
| RuleValidation.SeqError | services/backtesting-service/src/strategies.py:311-344 | The error of a sequence is the error of one of its items. |
| RuleValidation.ItemError | services/backtesting-service/src/strategies.py:312-344 | An item without type or index fails with "Sequence items must have type and index"; an item of any other type passes; a rule item whose key is absent reports "Referenced rule rule<i> not found", and a present one gives that rule's own error; a missing group reports "Referenced group group<i> not found", and a present one gives the group's error; a missing operator reports "Referenced operator operator<i> not found", and a present one passes exactly when its value is AND or OR, failing with "Operator operator<i> must be AND or OR". |
| RuleValidation.EntriesError | services/backtesting-service/src/strategies.py:348-359 | The error of the entries is the error of one entry at or after the starting position. |
| RuleValidation.ValidateRule | services/backtesting-service/src/strategies.py:363-388 | validate_rule succeeds exactly when the rule has no error, and otherwise reports that error. |
| RuleValidation.ValidateStrategy | services/backtesting-service/src/strategies.py:284-302 | Fails with the "at least buyRules or sellRules" message when neither side is truthy; succeeds exactly when one side is truthy and each present side validates; a bad buy side is reported first. |
| RuleValidation.ValidateRules | services/backtesting-service/src/strategies.py:304-361 | The fail-fast walk returns the verdict of the sequence or entry check, and succeeds exactly when the tree has no error. |
| ValidationLaws.RulesErrorMeaning | services/backtesting-service/src/strategies.py:304-361 | validate_rules accepts a tree exactly when it is valid in the declarative sense: with "_sequence", every item has type and index, and every referenced rule, group and operator is present and itself valid (a valid rule, a valid group, AND or OR); without it, every rule entry is a valid rule, every operator is AND or OR and every group is valid. |
| ValidationLaws.ItemErrorMeaning | services/backtesting-service/src/strategies.py:311-344 | One sequence item passes exactly when it is valid in that sense. |
| ValidationLaws.EntryErrorMeaning | services/backtesting-service/src/strategies.py:348-359 | One entry of a tree without "_sequence" passes exactly when it is valid in that sense. |
| ValidationLaws.SeqErrorIsFirstFailure | services/backtesting-service/src/strategies.py:307-344 | A sequence passes exactly when every item passes; otherwise the error is that of the first failing item. |
| ValidationLaws.EntriesErrorIsFirstFailure | services/backtesting-service/src/strategies.py:345-359 | Without "_sequence" the error is that of the first failing entry, and every entry before it passes. |
| ValidationLaws.ValidRuleEvaluation | services/backtesting-service/src/strategies.py:159-191 | A rule that validates is false for a value float() rejects, and otherwise is the comparison of its indicator value and value under its own symbol. |
| ValidationLaws.ScenarioUnreferencedOperator | services/backtesting-service/src/strategies.py:307-344 | With "_sequence", an operator key the sequence does not reference is never checked. |
| ValidationLaws.ScenarioReferencedOperator | services/backtesting-service/src/strategies.py:338-344 | The same operator is reported once the sequence references it. |
| ValidationLaws.ScenarioStrayOperatorWithoutSequence | services/backtesting-service/src/strategies.py:351-355 | Without "_sequence" every operator key is checked. |
| ValidationLaws.ScenarioOneSideSuffices | services/backtesting-service/src/strategies.py:287-288 | A strategy with only sell rules is accepted, and one with both sides empty is rejected. |
| ValidatorComparison.BuyOnlyStrategy | services/strategy-service/internal/validator/strategy_validator.go:14-20 | The Go validator rejects a buy-only strategy with "sell rules cannot be empty", while validate_strategy (strategies.py:287-302) accepts one whose buy rules are valid. |
| StrategySession.PositionSize | services/backtesting-service/src/strategies.py:218-232 | The division raises (None) exactly at a zero price; otherwise fixed is 0.1·E/p, percentage is E·r/100/p, risk_based is E·r/100/(p·sl/100), and a zero stop and unknown policies fall back to fixed. |
| StrategySession.MaxOf | services/backtesting-service/src/strategies.py:263 | The maximum of the highs since entry: an element that bounds every element. |
| StrategySession.Session.constructor | services/backtesting-service/src/strategies.py:23-40 | A missing rule side is {}; missing parameters take 0, 0, 0, "fixed" and 2; no stop, target or orders yet. |
| StrategySession.Session.Next | services/backtesting-service/src/strategies.py:234-272 | One call of next: the new stop and target, the orders placed and whether it raised are those of the step function. |
| StrategySession.OrdersMatchPosition | services/backtesting-service/src/strategies.py:243-272 | At most one order: when flat, a buy exactly when the buy rules are non-empty and true and the close is non-zero, and a ZeroDivisionError exactly when they are true at a zero close; only the flat branch can raise; when long, a close exactly when the sell rules are non-empty and true; a short position does nothing. |
| StrategySession.EntryLevels | services/backtesting-service/src/strategies.py:243-256 | On entry at a positive close nothing raises, a buy of the computed size is placed, the stop is set below and the target above the close when their percentages are positive, and a non-positive percentage keeps the old value. |
| StrategySession.EntryLevelsOrder | services/backtesting-service/src/strategies.py:251-256 | At a positive close, a stop percentage strictly between 0 and 100 gives a stop strictly between 0 and the close, a positive target percentage gives a target above the close, and a non-positive percentage keeps the old level. |
| StrategySession.TrailingStopRatchets | services/backtesting-service/src/strategies.py:259-272 | While long, an existing stop never falls; with a trailing percentage it is at least the trailing level below the highest high; the target is untouched; a close happens exactly on a sell signal. |
| StrategySession.TrailRatchets | services/backtesting-service/src/strategies.py:266-268 | The trailing update never lowers an existing stop, reaches at least the new level when trailing is on, and changes nothing when it is off. |
| StrategySession.RiskBasedLossAtStop | services/backtesting-service/src/strategies.py:226-229 | With risk-based sizing, size × (entry − stop) equals the risked share of equity. |
| StrategySession.ScenarioRiskBasedSize | services/backtesting-service/src/strategies.py:226-229 | 10000 equity, 2% risk, 2% stop at price 100 buys 100 units. |
| StrategySession.ScenarioZeroClose | services/backtesting-service/src/strategies.py:243-256 | A buy signal at a zero close raises: no order is placed and the levels stay as they were. |
| StrategySession.ScenarioStaleStop | services/backtesting-service/src/strategies.py:261-268 | A stop of 120 above the 5% trailing level under a high of 100 is kept unchanged. |
| Indicators.Resolve | services/backtesting-service/src/indicators.py:127-135 | The exact catalog entry first, else the entry of the alias target when the name is an alias and its target is catalogued, else None. |
| Indicators.AliasesIdempotent | services/backtesting-service/src/indicators.py:22-33 | An alias target that is itself an alias maps to itself, so resolving twice changes nothing. |
| Indicators.ResolveComesFromCatalog | services/backtesting-service/src/indicators.py:127-135 | A resolved entry is the catalog's entry for the name or for its alias target. |
| Indicators.ScenarioAliases | services/backtesting-service/src/indicators.py:22-33 | The display names resolve to their canonical entries, e.g. "Moving Average" to SMA and "Stochastic" to STOCH. |
| Indicators.InitializeIdempotent | services/backtesting-service/src/indicators.py:114-121 | Once discovery has filled the catalog, initialising again keeps it, whatever a later discovery finds. |
| Indicators.EmptyDiscoveryRetries | services/backtesting-service/src/indicators.py:116-119 | An empty discovery leaves the catalog empty, so the next call discovers again. |
| Indicators.Registry.constructor | services/backtesting-service/src/indicators.py:19 | The catalog starts empty. |
| Indicators.Registry.Initialize | services/backtesting-service/src/indicators.py:114-121 | The catalog becomes the discovery result only when it was empty. |
| Indicators.Registry.GetIndicator | services/backtesting-service/src/indicators.py:123-135 | Initialises the catalog, then returns its resolution of the name. |
| PyValues.Truncate | services/backtesting-service/src/indicators.py:149-150 | int() of a float truncates toward zero: the result has the sign of the value and lies within one of it, no farther from zero. |
| PyValues.IntConv | services/backtesting-service/src/indicators.py:149-150 | int() of an integer is itself, of a flag 0 or 1, of a float its truncation, of None an error; of text, the integer its digits spell after surrounding white space and one optional sign, with single underscores allowed between digits, and an error for anything else. |
| PyValues.FloatAccepts | services/backtesting-service/src/indicators.py:151-152 | float() raises on None and on an integer of magnitude 2^1024 - 2^970 or more, accepts every float and flag, and accepts text exactly when it is decimal or inf/infinity/nan syntax after white space and an optional sign. |
| PyValues.IntTextRoundTrip | services/backtesting-service/src/indicators.py:149-150 | int() reads the decimal text of every integer back as that integer. |
| PyValues.ScenarioIntAccepts | services/backtesting-service/src/indicators.py:149-150 | " 14\n" gives 14, "-7" gives -7, "1_000" gives 1000, and the float -2.5 gives -2. |
| PyValues.ScenarioIntRejects | services/backtesting-service/src/indicators.py:149-150 | "abc", "14.5", "", "1__0" and None raise. |
| PyValues.ScenarioFloatAccepts | services/backtesting-service/src/indicators.py:151-152 | "1.5", ".5", "1.", "-Infinity", " nan " and "1e999" convert. |
| PyValues.ScenarioFloatRejects | services/backtesting-service/src/indicators.py:151-152 | "abc", "", ".", "1e", "_1" and None raise. |
| PyValues.ScenarioFloatOverflow | services/backtesting-service/src/indicators.py:151-152 | The integer just below 2^1024 - 2^970 converts; that bound and its negation raise. |
| Indicators.UserArg | services/backtesting-service/src/indicators.py:147-156 | A supplied value is converted by its declared type: "int" raises exactly where int() does and "float" exactly where float() does; "bool" gives the truthiness; other types pass the value unchanged. |
| Indicators.DefaultArg | services/backtesting-service/src/indicators.py:157-166 | A "bool" default converts to lower() == "true" when it is text and raises otherwise; any other type converts like a supplied value, raising where int() or float() raises. |
| Indicators.Assign | services/backtesting-service/src/indicators.py:147-166 | Dictionary assignment: the key is present afterwards with the new value and every other key keeps its value. |
| Indicators.MergedNoneStays | services/backtesting-service/src/indicators.py:145-166 | A conversion error in a prefix of the declarations ends the merge for the whole list. |
| Indicators.Merged | services/backtesting-service/src/indicators.py:145-166 | The merge raises exactly when some declaration raises: its supplied value fails its conversion, or, with no supplied value, its truthy default does. |
| Indicators.MergeParams | services/backtesting-service/src/indicators.py:145-166 | The merge loop computes the merged arguments of the declarations, and raises exactly when the merge does. |
| Indicators.MergedOnlyDeclared | services/backtesting-service/src/indicators.py:145-147 | Only declared names are passed: undeclared user keys are ignored. |
| Indicators.MergedUserWins | services/backtesting-service/src/indicators.py:147-156 | A supplied value always wins over the default for the last declaration of a name. |
| Indicators.MergedDefaultUsed | services/backtesting-service/src/indicators.py:157-166 | Without a supplied value a truthy default is passed, converted by its type. |
| Indicators.MergedFalsyOmitted | services/backtesting-service/src/indicators.py:157 | A name without a supplied value whose defaults are all falsy is not passed. |
| Indicators.PeriodDefault | services/backtesting-service/src/indicators.py:147-160 | Without a supplied period, the stored default text "14" goes through int() and 14 is passed. |
| Indicators.ScenarioPeriodConversion | services/backtesting-service/src/indicators.py:147-160 | For an "int" period whose default is stored as the text "14": "abc" and "14.5" raise, "20" is passed as 20, and without a value 14 is passed. |
| Indicators.ParamsToStringAppend | services/backtesting-service/src/indicators.py:203-205 | Joining distributes over concatenation: the two joins with one "_" between them. |
| Indicators.ParamsToStringLength | services/backtesting-service/src/indicators.py:203-205 | The joined text of a non-empty list is as long as the "k_v" pieces plus one separator between each two. |
| Indicators.ScenarioParamsToString | services/backtesting-service/src/indicators.py:203-205 | An empty map gives ""; one pair gives "k_v"; two pairs are joined by "_". |
| Indicators.ParamsToString | services/backtesting-service/src/indicators.py:203-205 | The joined text is empty exactly when there are no parameters. |
| Indicators.NewColumns | services/backtesting-service/src/indicators.py:168-197 | Nothing is written when the call raised or gave nothing; a TA-Lib series gives one column named with the parameter text, a tuple one numbered column per part; a pandas-ta table gives its own columns, a series its own name. |
| Indicators.WrittenKeepsOthers | services/backtesting-service/src/indicators.py:168-197 | Writing the columns leaves every column it does not name as it was, present or absent. |
| Indicators.Written | services/backtesting-service/src/indicators.py:168-197 | The written frame has exactly the old columns plus the written names. |
| Indicators.WrittenLastWins | services/backtesting-service/src/indicators.py:168-197 | A column written more than once holds its last write. |
| Indicators.DataFrame.CalculateIndicator | services/backtesting-service/src/indicators.py:137-201 | An unresolved name leaves the frame unchanged; a failed conversion raises and changes nothing; otherwise the new columns are written over the old frame. |
| GoStrategyValidator.ScenarioGoFloatInteger | services/strategy-service/internal/validator/strategy_validator.go:98-102 | "30" parses as a number. |
| GoStrategyValidator.ScenarioGoFloatFraction | services/strategy-service/internal/validator/strategy_validator.go:98-102 | "-1.5" parses as a number. |
| GoStrategyValidator.ScenarioGoFloatExponent | services/strategy-service/internal/validator/strategy_validator.go:98-102 | "1e5" parses as a number. |
| GoStrategyValidator.ScenarioGoFloatInfinity | services/strategy-service/internal/validator/strategy_validator.go:98-102 | "+Inf" parses as a number. |
| GoStrategyValidator.ScenarioGoFloatRejects | services/strategy-service/internal/validator/strategy_validator.go:98-102 | "", "1e" and "." do not parse. |
| GoStrategyValidator.IsGoFloat | services/strategy-service/internal/validator/strategy_validator.go:98-102 | A value that parses as a number is non-empty, and every non-empty digit string parses. |
| GoStrategyValidator.StructureError | services/strategy-service/internal/validator/strategy_validator.go:13-33 | An empty buy list is reported first, then an empty sell list. |
| GoStrategyValidator.RulesError | services/strategy-service/internal/validator/strategy_validator.go:36-43 | An error is reported for a rule at or after the starting position, as "rule ...". |
| GoStrategyValidator.RuleError | services/strategy-service/internal/validator/strategy_validator.go:46-65 | A type other than rule or group is reported with its name; a passing rule has operator AND or OR; an empty group is reported as such. |
| GoStrategyValidator.SingleRuleError | services/strategy-service/internal/validator/strategy_validator.go:68-110 | A missing indicator and an empty indicator ID are reported first, each with its message; a passing leaf has a non-empty value, one that parses as a number unless the symbol is == or !=. |
| GoStrategyValidator.NestedError | services/strategy-service/internal/validator/strategy_validator.go:113-126 | An error is reported for a nested rule at or after the starting position, as "nested rule ...". |
| GoStrategyValidator.SingleRuleErrorMeaning | services/strategy-service/internal/validator/strategy_validator.go:68-110 | A leaf passes exactly when its indicator has an ID and a Name, it has a condition with one of the ten symbols and a non-empty value, and the value parses as a number unless the symbol is == or !=. |
| GoStrategyValidator.RuleErrorMeaning | services/strategy-service/internal/validator/strategy_validator.go:46-65 | A rule at any depth passes exactly when its type is rule or group, its operator is AND or OR, and its leaf or group checks pass. |
| GoStrategyValidator.NestedErrorMeaning | services/strategy-service/internal/validator/strategy_validator.go:113-126 | The nested rules of a group pass exactly when each of them is valid. |
| GoStrategyValidator.RulesErrorIsFirstFailure | services/strategy-service/internal/validator/strategy_validator.go:36-43 | The list passes exactly when every rule is valid; otherwise the error is that of the first invalid rule, tagged with its 1-based position. |
| GoStrategyValidator.StructureErrorMeaning | services/strategy-service/internal/validator/strategy_validator.go:13-33 | The strategy passes exactly when both lists are non-empty and every rule in them is valid. |
| GoStrategyValidator.ScenarioNestedPosition | services/strategy-service/internal/validator/strategy_validator.go:113-126 | An empty group as the second rule is reported as "rule 2: rule group cannot be empty". |
| IndicatorSettings.RangeError | services/strategy-service/internal/validator/indicator_validator.go:35-43 | A parameter passes exactly when it is a number within [lo, hi]; a non-number and an out-of-range number get their own messages. |
| IndicatorSettings.RsiError | services/strategy-service/internal/validator/indicator_validator.go:28-46 | RSI needs a numeric period in [2, 100]. |
| IndicatorSettings.BollingerError | services/strategy-service/internal/validator/indicator_validator.go:49-83 | Bollinger Bands needs a period in [2, 100] and deviations in [0.1, 5]. |
| IndicatorSettings.MacdError | services/strategy-service/internal/validator/indicator_validator.go:86-139 | MACD needs the three periods in [2, 100] and a slow period greater than the fast one. |
| IndicatorSettings.MovingAverageError | services/strategy-service/internal/validator/indicator_validator.go:142-185 | Moving Average needs a period in [2, 200]; a type, when present, must be one of the eight names. |
| IndicatorSettings.StochasticError | services/strategy-service/internal/validator/indicator_validator.go:188-237 | Stochastic needs kPeriod, dPeriod and slowing each in [1, 100]. |
| IndicatorSettings.SettingsError | services/strategy-service/internal/validator/indicator_validator.go:9-25 | Unknown indicator names are accepted without checks. |
| IndicatorSettings.SettingsErrorIffUnacceptable | services/strategy-service/internal/validator/indicator_validator.go:9-237 | The settings check passes exactly on the settings each indicator accepts. |
| IndicatorSettings.MissingReportedFirst | services/strategy-service/internal/validator/indicator_validator.go:28-102 | A missing required parameter is reported before any value is looked at. |
| IndicatorSettings.ScenarioMacdOrder | services/strategy-service/internal/validator/indicator_validator.go:124-126 | Fast 26 with slow 12 is rejected for the order of the periods; fast 12 with slow 26 passes. |
| IndicatorSettings.ScenarioTextPeriod | services/strategy-service/internal/validator/indicator_validator.go:36-39 | A period given as the text "14" is not a number. |
| IndicatorCategories.AnyKeyword | services/strategy-service/internal/repository/indicator_repository.go:824-828 | True exactly when some keyword of the list occurs in the name, ignoring case. |
| IndicatorCategories.Categorize | services/strategy-service/internal/repository/indicator_repository.go:818-855 | The category of the first tier with a matching keyword, else "Other". |
| IndicatorCategories.CategorizeFirstMatch | services/strategy-service/internal/repository/indicator_repository.go:818-855 | A matching tier with no earlier match decides the category; no match gives "Other". |
| IndicatorCategories.GoCategoryMeaning | services/strategy-service/internal/repository/indicator_repository.go:818-855 | categorizeIndicator gives one of the five categories, with priority Trend, Momentum, Volatility, Volume, else Other. |
| IndicatorCategories.PythonCategoryMeaning | services/backtesting-service/src/db.py:461-497 | categorize_indicator gives one of the five categories, with the same priority and "Other" when nothing matches. |
| IndicatorCategories.ContainsMaIsTrend | services/strategy-service/internal/repository/indicator_repository.go:823-827 | Any name containing "MA" in any letter case is Trend, in both services. |
| IndicatorPaging.PageOf | services/strategy-service/internal/repository/indicator_repository.go:194-209 | Empty when the page starts at or after the end; otherwise limit rows, or the rest of the list, taken from position (page-1)·limit. |
| IndicatorPaging.PageIsSlice | services/strategy-service/internal/repository/indicator_repository.go:198-209 | A page is the slice between its start and its end, both cut at the end of the list. |
| IndicatorPaging.PagesArePrefix | services/strategy-service/internal/repository/indicator_repository.go:198-209 | Pages 1..n laid end to end are the first n·limit rows (or all of them). |
| IndicatorPaging.RowOnItsPage | services/strategy-service/internal/repository/indicator_repository.go:198-209 | For a positive limit, row i sits at position i mod limit of page i/limit + 1. |
| IndicatorSync.LastIndicator | services/strategy-service/internal/repository/indicator_repository.go:633-636 | The name lookup gives the id of the last row with that name, and none when no row has it. |
| IndicatorSync.LastParam | services/strategy-service/internal/repository/indicator_repository.go:691-694 | The parameter lookup gives a row with that indicator and name, and none exactly when no row has them. |
| IndicatorSync.EnumInsertsOnlyMissing | services/strategy-service/internal/repository/indicator_repository.go:774-799 | Every inserted enum row belongs to the parameter and holds an option the lookup lacked. |
| IndicatorSync.EnumInsertsComplete | services/strategy-service/internal/repository/indicator_repository.go:774-799 | Afterwards the parameter has every option value. |
| IndicatorSync.UpsertParam | services/strategy-service/internal/repository/indicator_repository.go:716-748 | The parameter row the lookup finds is updated, otherwise a row is appended; the written row holds the new type and default, and the id comes back. |
| IndicatorSync.IndicatorIds | services/strategy-service/internal/repository/indicator_repository.go:633-636 | The map loop builds a name-to-id map that gives each name the id of its last row. |
| IndicatorSync.ParamIds | services/strategy-service/internal/repository/indicator_repository.go:691-694 | The map loop builds the parameter name-to-id map of one indicator, again keeping the last row of each name. |
| IndicatorSync.EnumValues | services/strategy-service/internal/repository/indicator_repository.go:764-771 | The loop collects exactly the enum values the parameter already has. |
| IndicatorSync.InsertMissingOptions | services/strategy-service/internal/repository/indicator_repository.go:774-800 | The options loop appends exactly the inserts the snapshot lookup calls for. |
| IndicatorSync.Truncate | services/strategy-service/internal/repository/indicator_repository.go:701-708 | At most 50 bytes, the text itself when it fits, and otherwise its first 50 bytes. |
| IndicatorSync.TruncateAll | services/strategy-service/internal/repository/indicator_repository.go:775-783 | Every option text is truncated the same way. |
| IndicatorSync.GoParamType | services/strategy-service/internal/repository/indicator_repository.go:711-714 | A parameter with options is stored as "enum", any other with its declared type. |
| IndicatorSync.GoSyncParam | services/strategy-service/internal/repository/indicator_repository.go:697-801 | One parameter leaves the indicator table alone, keeps the parameter rows' keys, and keeps every stored text within 50 bytes. |
| IndicatorSync.GoSyncParams | services/strategy-service/internal/repository/indicator_repository.go:697-801 | The parameter loop does the same for all parameters of an indicator. |
| IndicatorSync.GoUpsertIndicator | services/strategy-service/internal/repository/indicator_repository.go:643-673 | The indicator the lookup finds gets the new description and becomes inactive; otherwise it is appended with its category, inactive. |
| IndicatorSync.GoSyncIndicator | services/strategy-service/internal/repository/indicator_repository.go:642-805 | One indicator keeps the stored rows' names and categories, leaves a row with the input's name, and keeps the stored texts within 50 bytes. |
| IndicatorSync.GoSyncAll | services/strategy-service/internal/repository/indicator_repository.go:641-805 | The whole sync keeps the stored rows' names and categories and keeps the stored texts within 50 bytes. |
| IndicatorSync.GoSyncRowsEvolve | services/strategy-service/internal/repository/indicator_repository.go:641-805 | Stored indicator rows keep their name and category; only rows the lookup found change; new rows carry their category. |
| IndicatorSync.GoSyncNamesPresent | services/strategy-service/internal/repository/indicator_repository.go:641-805 | After the sync every input indicator has a row with its name. |
| IndicatorSync.GoSyncParamWritten | services/strategy-service/internal/repository/indicator_repository.go:697-801 | After one parameter is synced its row holds the decided type and the truncated default, and it has every truncated option. |
| IndicatorSync.SyncIndicators | services/strategy-service/internal/repository/indicator_repository.go:612-815 | On success the tables are those of the whole sync and syncedCount equals the number of inputs. |
| IndicatorSync.GoSyncOne | services/strategy-service/internal/repository/indicator_repository.go:642-805 | The body of the indicator loop computes one indicator's sync. |
| IndicatorSync.GoSyncParamsLoop | services/strategy-service/internal/repository/indicator_repository.go:697-802 | The parameter loop computes the sync of the indicator's parameters. |
| IndicatorSync.GoUpsertIndicatorStep | services/strategy-service/internal/repository/indicator_repository.go:643-673 | The update-or-insert computes the indicator upsert. |
| IndicatorSync.GoSyncParamStep | services/strategy-service/internal/repository/indicator_repository.go:697-801 | The body of the parameter loop, with its options loop, computes one parameter's sync. |
| IndicatorSync.PyParamType | services/backtesting-service/src/db.py:395-402 | A parameter with options is stored as 'enum'; otherwise its type, 'string' when it has none. |
| IndicatorSync.PyInputErrorMeaning | services/backtesting-service/src/db.py:368-394 | The sync raises exactly when some indicator lacks its name or description, or a parameter lacks its name. |
| IndicatorSync.PyInputErrorPrefix | services/backtesting-service/src/db.py:368-394 | A KeyError in a prefix of the list is the one the whole list raises. |
| IndicatorSync.PyInputErrorIsKeyName | services/backtesting-service/src/db.py:368-394 | The error text is the quoted name of the missing key, 'name' or 'description'. |
| IndicatorSync.PySyncParam | services/backtesting-service/src/db.py:388-439 | One parameter leaves the indicator table alone and keeps the parameter rows' keys. |
| IndicatorSync.PySyncParams | services/backtesting-service/src/db.py:388-439 | The parameter loop does the same for all parameters of an indicator. |
| IndicatorSync.PyUpsertIndicator | services/backtesting-service/src/db.py:371-386 | The indicator the lookup finds gets the new description; otherwise it is appended with its category; activity is not written. |
| IndicatorSync.PySyncIndicator | services/backtesting-service/src/db.py:368-441 | One indicator keeps the stored rows' names and categories. |
| IndicatorSync.PySyncAll | services/backtesting-service/src/db.py:368-441 | The whole loop keeps the stored rows' names and categories. |
| IndicatorSync.PySyncOutcome | services/backtesting-service/src/db.py:353-453 | Success exactly on well-keyed input, counting every indicator; a failure rolls back and leaves the tables as they were. |
| IndicatorSync.PySyncRowsEvolve | services/backtesting-service/src/db.py:368-441 | Stored rows keep name, category and activity; only descriptions of found rows change; new rows are categorised. |
| IndicatorSync.PySyncNamesPresent | services/backtesting-service/src/db.py:368-441 | After a successful sync every input indicator has a row with its name. |
| IndicatorSync.PySyncParamWritten | services/backtesting-service/src/db.py:388-439 | After one parameter is synced its row holds the decided type and default, and it has every option as an enum value. |
| IndicatorSync.ScenarioRepeatedOption | services/backtesting-service/src/db.py:431-439 | The options lookup is not refreshed inside the loop, so an option listed twice is inserted twice. |
| IndicatorSync.ScenarioStoredOption | services/backtesting-service/src/db.py:431-439 | An option already stored for the parameter is not inserted again. |
| IndicatorSync.PySyncIndicators | services/backtesting-service/src/db.py:353-453 | The method returns the tables and status of the whole sync: the count of every indicator on well-keyed input, a rollback otherwise. |
| IndicatorSync.PySync | services/backtesting-service/src/db.py:353-453 | A failure leaves the tables unchanged; a success counts every input, the inputs are well keyed, and the tables are those of the whole sync. |
| IndicatorSync.PySyncOne | services/backtesting-service/src/db.py:368-441 | The body of the indicator loop: the KeyError the indicator raises, or the tables after it. |
| IndicatorSync.PyUpsertIndicatorStep | services/backtesting-service/src/db.py:371-386 | The update-or-insert computes the indicator upsert. |
| IndicatorSync.PySyncParamsLoop | services/backtesting-service/src/db.py:388-439 | The parameter loop computes the parameters' sync, failing exactly when a parameter has no name. |
| IndicatorSync.PySyncParamStep | services/backtesting-service/src/db.py:388-439 | The body of the parameter loop, with its options loop. |
| MissingRanges.CalculateMissingRanges | services/historical-data-service/internal/repository/market_data_repository.go:260-308 | The loop builds the whole window when nothing is stored, otherwise the leading gap, the interior gaps and the trailing gap. |
| MissingRanges.Missing | services/historical-data-service/internal/repository/market_data_repository.go:273-307 | With nothing stored the whole window is missing; there is at most one range more than stored blocks; a window starting before the first block begins with the leading gap, and one ending after the last block ends with the trailing gap. |
| MissingRanges.InteriorGapsCover | services/historical-data-service/internal/repository/market_data_repository.go:290-297 | An uncovered second strictly between the first block's end and the last block's start lies in an interior gap. |
| MissingRanges.MissingIsComplete | services/historical-data-service/internal/repository/market_data_repository.go:273-307 | Every second of the window that no stored block contains lies in some reported range. |
| MissingRanges.InteriorGapsBetween | services/historical-data-service/internal/repository/market_data_repository.go:290-297 | Every interior gap lies strictly between two neighbouring blocks. |
| MissingRanges.MissingIsSound | services/historical-data-service/internal/repository/market_data_repository.go:273-307 | For sorted blocks no reported second is stored. |
| MissingRanges.InteriorGapsAscending | services/historical-data-service/internal/repository/market_data_repository.go:290-297 | The interior gaps of sorted blocks are ascending and lie between the first block's end and the last block's start. |
| MissingRanges.MissingAscending | services/historical-data-service/internal/repository/market_data_repository.go:260-308 | For sorted blocks and a non-empty window the reported ranges are non-empty and ascending. |
| MissingRanges.ScenarioInteriorGapNotClipped | services/historical-data-service/internal/repository/market_data_repository.go:290-297 | A window inside the gap between two blocks reports the whole gap, reaching outside the window. |
| MissingRanges.ScenarioNothingStored | services/historical-data-service/internal/repository/market_data_repository.go:274-276 | With nothing stored the window itself is reported, even when it is empty. |
| MissingRanges.ScenarioBothEnds | services/historical-data-service/internal/repository/market_data_repository.go:282-305 | A window around a single block has a leading and a trailing gap. |
| Pagination.Atoi | services/strategy-service/internal/utils/pagination.go:18-19 | A result needs non-empty text, and an all-digit text gives its decimal value. |
| Pagination.AtoiOrZero | services/strategy-service/internal/utils/pagination.go:18-19 | Text Atoi rejects reads as 0; non-empty digit text reads as its value. |
| Pagination.AtoiItoa | services/strategy-service/internal/utils/pagination.go:18-19 | Atoi reads back the decimal text of every integer. |
| Pagination.ParsePaginationParams | services/strategy-service/internal/utils/pagination.go:17-35 | The page is at least 1; a limit below 1 becomes the default, one above the cap the cap, so 1 ≤ limit ≤ max when 1 ≤ default ≤ max; in-range values are kept. |
| Pagination.CalculateOffset | services/strategy-service/internal/utils/pagination.go:38-40 | The offset is (page-1)·limit, never negative for page ≥ 1. |
| Pagination.CalculateTotalPages | services/strategy-service/internal/utils/pagination.go:43-49 | The smallest page count covering the items, and never less than 1. |
| Pagination.NewPaginationMetadata | services/strategy-service/internal/utils/pagination.go:60-67 | The inputs unchanged beside the derived page count. |
| Pagination.ScenarioParse | services/strategy-service/internal/utils/pagination.go:17-35 | Absent and empty or non-numeric queries give page 1 and the default limit; page 3 with limit 500 gives page 3 and the cap. |
| Pagination.ScenarioDigits | services/strategy-service/internal/utils/pagination.go:18-19 | "3" reads as 3 and "500" as 500. |
| SharedPagination.GetPage | shared/go/model/pagination.go:21-26 | The page when it is at least 1, else 1. |
| SharedPagination.GetPerPage | shared/go/model/pagination.go:29-37 | Always in [1, 100]: 20 below 1, 100 above 100, the value otherwise. |
| SharedPagination.GetOffset | shared/go/model/pagination.go:40-42 | (GetPage-1)·GetPerPage, never negative. |
| SharedPagination.NewPaginationMeta | shared/go/model/pagination.go:53-68 | The clamped page and size, and the smallest page count covering the items; 0 when there are none. |
| SharedPagination.LastPageStartsInside | shared/go/model/pagination.go:40-68 | A page within the reported page count starts inside the items: its offset is below the total. |
| SharedPagination.PageCountsCompared | shared/go/model/pagination.go:53-68 | On a non-empty result the shared page count equals the strategy service's (pagination.go:43-49); on an empty one the shared model gives 0 and the service 1. |
| BinanceClient.MapBinanceIntervalToTimeframe | services/historical-data-service/internal/client/binance_client.go:220-241 | The identity on the eight intervals, "" otherwise. |
| BinanceClient.MapTimeframeToBinanceInterval | services/historical-data-service/internal/client/binance_client.go:244-265 | The identity on the eight timeframes, "" otherwise. |
| BinanceClient.TimeframeRoundTrip | services/historical-data-service/internal/client/binance_client.go:220-265 | Mapping a timeframe out and back gives what it was mapped to, and a known timeframe itself. |
| BinanceClient.IntervalRoundTrip | services/historical-data-service/internal/client/binance_client.go:220-265 | Mapping an interval in and out again gives what it was mapped to. |
| BinanceClient.KlinesLimit | services/historical-data-service/internal/client/binance_client.go:76-78 | The limit is capped at 1000 and otherwise unchanged. |
| RateLimit.NewBucket | services/api-gateway/internal/middleware/rate_limit.go:44-50 | A first request's bucket is full at burstSize and refills at rpm/60 tokens per second. |
| RateLimit.Refill | services/api-gateway/internal/middleware/rate_limit.go:55-61 | Adds elapsed·rate, caps at maxTokens and moves the refill time to now. |
| RateLimit.Take | services/api-gateway/internal/middleware/rate_limit.go:55-69 | Allowed exactly when a whole token is there after the refill, and then exactly one token is consumed. |
| RateLimit.TakeKeepsBounds | services/api-gateway/internal/middleware/rate_limit.go:45-69 | With a clock that does not run backwards, 0 ≤ tokens ≤ maxTokens is kept. |
| RateLimit.WaitingAdmits | services/api-gateway/internal/middleware/rate_limit.go:55-69 | Waiting for the missing fraction of a token always lets the next request through. |
| RateLimit.BurstAdmitsTokens | services/api-gateway/internal/middleware/rate_limit.go:55-69 | A bucket holding k whole tokens admits exactly k requests made at one instant. |
| RateLimit.NewClientBurst | services/api-gateway/internal/middleware/rate_limit.go:42-69 | A new client may send burstSize requests at once; the next one is refused. |
| RateLimit.TakeToken | services/api-gateway/internal/middleware/rate_limit.go:54-69 | The field-by-field refill and take compute the bucket update. |
| RateLimit.RateLimiter.constructor | services/api-gateway/internal/middleware/rate_limit.go:28-34 | No client has a bucket yet. |
| RateLimit.RateLimiter.Allow | services/api-gateway/internal/middleware/rate_limit.go:37-70 | Only the caller's bucket changes, its refill time is set to now, the answer is the bucket's take, and the invariant survives a clock that does not run back. |
| Gateway.GetProxyPath | services/api-gateway/internal/handler/gateway_handler.go:81-97 | Without the prefix the path is unchanged; with it the rest comes back, given a leading "/" when it is non-empty and lacks one; the bare prefix gives "". |
| Gateway.ProxyPathRoundTrip | services/api-gateway/internal/handler/gateway_handler.go:83-92 | A backend path that is empty or starts with "/" comes back unchanged from behind the prefix. |
| Gateway.ScenarioPrefixInsideSegment | services/api-gateway/internal/handler/gateway_handler.go:83-85 | The prefix is cut wherever it ends, not only at a "/" boundary. |
| AuthMiddleware.ExtractToken | services/api-gateway/internal/middleware/auth.go:105-111 | The suffix after "Bearer " when the header is longer than 7 and starts with it, else "". |
| AuthMiddleware.ExtractTokenRoundTrip | services/api-gateway/internal/middleware/auth.go:105-111 | "Bearer " + token gives the token back. |
| AuthMiddleware.IsExcludedPath | services/api-gateway/internal/middleware/auth.go:114-127 | True exactly when some pattern matches the path exactly or as a wildcard stem. |
| AuthMiddleware.WildcardCoversStem | services/api-gateway/internal/middleware/auth.go:120-124 | A pattern ending in '*' matches every path beginning with the pattern minus its '*'. |
| AuthMiddleware.ExactListsExcludeMembers | services/api-gateway/internal/middleware/auth.go:116-118 | A list without wildcards excludes exactly its own members. |
| AuthMiddleware.AdminKey | services/api-gateway/internal/middleware/auth.go:26-29 | One trailing '*' is removed from a configured path. |
| AuthMiddleware.AdminTableMembers | services/api-gateway/internal/middleware/auth.go:23-32 | A key is in the table exactly when some configured path gives it. |
| AuthMiddleware.StarIsDropped | services/api-gateway/internal/middleware/auth.go:26-30 | A configured "x*" gives the key "x" only, so the table lookup is exact. |
| AuthMiddleware.AdminPaths.constructor | services/api-gateway/internal/middleware/auth.go:20 | The table starts empty. |
| AuthMiddleware.AdminPaths.InitAdminPaths | services/api-gateway/internal/middleware/auth.go:23-32 | The table becomes the keys of the configured paths, each non-empty. |
| Password.Classify | shared/go/auth/password.go:57-68 | A character sets exactly the class of its range (ASCII upper, lower, digit, punctuation or symbol), hence at most one class. |
| Password.PasswordError | shared/go/auth/password.go:50-87 | A password shorter than MinLength is rejected before any class check; then the missing classes are reported in the order upper, lower, number, special, each only when required. |
| Password.ValidatePassword | shared/go/auth/password.go:50-87 | The flag loop returns the policy's verdict. |
| Password.AsciiByteLen | shared/go/auth/password.go:51 | For ASCII text the byte length is the character count. |
| Password.ScenarioDefaultPolicyPasses | shared/go/auth/password.go:22-28 | "Secret1!" passes the default policy. |
| Password.ScenarioDefaultPolicyNeedsNumber | shared/go/auth/password.go:78-80 | "Secret!!" is refused for the missing number. |
| Password.IsCommonPassword | shared/go/auth/password.go:90-106 | Exact membership in the fixed ten-word table. |
| Password.CommonIsCaseSensitive | shared/go/auth/password.go:105 | The lookup is case-sensitive. |
| Password.TrimSpace | shared/go/auth/password.go:110 | strings.TrimSpace: the result neither starts nor ends with white space. |
| Password.SanitizeEmail | shared/go/auth/password.go:109-114 | Trimmed, then lower-cased: no upper-case ASCII letter remains. |
| Password.SanitizeEmailIdempotent | shared/go/auth/password.go:109-114 | Sanitising an email twice gives the same result as once. |
| Password.RemoveHarmful | shared/go/auth/password.go:127-128 | None of < > & ' " remains, the result is never longer, and a clean text is unchanged. |
| Password.SanitizeUsername | shared/go/auth/password.go:124-131 | The trimmed text with the harmful characters removed; it contains none of < > & ' ". |
| Password.HarmfulHeadShieldsSpace | shared/go/auth/password.go:124-131 | A harmful first character shields the white space behind it from the trim: removal happens after trimming. |
| Password.UsernameNotIdempotent | shared/go/auth/password.go:124-131 | A harmful first character followed by white space and a clean name: sanitising twice differs from sanitising once. |
| ApiErrors.StatusFor | shared/go/errors/apierror.go:26-47 | auth→401, validation→400, permission→403, not_found→404, duplicate→409, external→502, everything else→500. |
| ApiErrors.ErrorText | shared/go/errors/apierror.go:18-23 | "type: message", with " - details" appended only when details is non-empty. |
| ApiErrors.ErrorTextDetermined | shared/go/errors/apierror.go:18-23 | With non-empty details, two texts of the same type and message are equal exactly when their details are. |
| ApiErrors.APIError.StatusCode | shared/go/errors/apierror.go:26-47 | The status of the error's type. |
| ApiErrors.APIError.Error | shared/go/errors/apierror.go:18-23 | The error's text. |
| ApiErrors.APIError.WithDetails | shared/go/errors/apierror.go:50-53 | Sets the details, returns the same error and changes nothing else. |
| ApiErrors.APIError.WithInternal | shared/go/errors/apierror.go:56-59 | Sets the internal error, returns the same error and changes nothing else. |
| ApiErrors.APIError.NewAuthError | shared/go/errors/apierror.go:62-68 | Type auth, code "unauthorized", the message, no details or internal error, status 401. |
| ApiErrors.APIError.NewValidationError | shared/go/errors/apierror.go:71-77 | Type validation, code "invalid_input", the message, status 400. |
| ApiErrors.APIError.NewPermissionError | shared/go/errors/apierror.go:80-86 | Type permission, code "forbidden", the message, status 403. |
| ApiErrors.APIError.NewNotFoundError | shared/go/errors/apierror.go:89-95 | Type not_found, code "not_found", the message "<type> with ID <id> not found", status 404. |
| ApiErrors.APIError.NewDuplicateError | shared/go/errors/apierror.go:98-104 | Type duplicate, code "duplicate_resource", the message naming resource and field, status 409. |
| ApiErrors.APIError.NewDatabaseError | shared/go/errors/apierror.go:107-114 | Type database, code "database_error", a message naming the operation, the internal error kept, status 500. |
| ApiErrors.APIError.NewInternalError | shared/go/errors/apierror.go:117-124 | Type internal, code "internal_error", the message and the internal error, status 500. |
| ApiErrors.APIError.NewExternalServiceError | shared/go/errors/apierror.go:127-134 | Type external, code "external_service_error", a message naming the service, the internal error kept, status 502. |
| Sorting.NormalizeSortDirection | services/historical-data-service/internal/utils/sorting.go:6-12 | Always "ASC" or "DESC": "ASC" exactly when the upper-cased input is "ASC", so every other input gives "DESC". |
| Sorting.NormalizeIdempotent | services/historical-data-service/internal/utils/sorting.go:6-12 | Normalising twice gives the same direction as once. |
| Sorting.AnyCaseAsc | services/historical-data-service/internal/utils/sorting.go:7-11 | "asc" in any mix of letter cases gives "ASC". |
| Util.Contains | services/strategy-service/internal/repository/indicator_repository.go:825 | Substring test: true exactly when the text occurs at some position. |
| Util.Upper | services/historical-data-service/internal/utils/sorting.go:7 | ASCII letters upper-cased, every other character kept. |
| Util.Lower | shared/go/auth/password.go:111 | ASCII letters lower-cased, every other character kept. |
| Util.IntToString | services/strategy-service/internal/validator/strategy_validator.go:39 | Non-empty decimal text that starts with a digit exactly for non-negative numbers (that Atoi reads it back is Pagination.AtoiItoa). |
| Util.ByteLen | shared/go/auth/password.go:51 | Go's len(): the UTF-8 byte length, never less than the character count. |
| Util.GoQuo | services/strategy-service/internal/utils/pagination.go:44 | Go's integer division, truncating toward zero; it agrees with Euclidean division on non-negative operands. |
| Util.GoRem | shared/go/model/pagination.go:57 | Go's remainder a - b·quotient, which is the Euclidean remainder on non-negative operands. |

## Left out

- Database I/O (SQL execution, row scanning, transactions) is not modelled. The sync operations run on in-memory tables, with every database call succeeding. A Python KeyError is modelled as a rollback that leaves the tables unchanged.
- Network I/O is not modelled: HTTP handlers, gin middleware plumbing, the servers, the proxies, service clients and the exchange download loops.
- Messaging, caching, metrics, JWT, bcrypt, regular expressions, config loaders and logging are not modelled. They are library code or carry no behaviour.
- Indicator discovery and the TA-Lib / pandas-ta calls are foreign library code. Discovery's result and the call's output are parameters of `Indicators.Registry.Initialize` and `Indicators.DataFrame.CalculateIndicator`. The call's own exceptions are an output that writes nothing.
- `_process_rule_group` (strategies.py:42-79) is a foreign-library helper and is not modelled.
- The data-frame column substring search of `_get_indicator_value` is an opaque lookup from (name, row) to an optional number. It depends on pandas column naming.
- Order fills belong to the backtesting substrate. `StrategySession.Session.Next` takes the current position as input and records the orders placed. The buy order (`self.buy(size=size)`, strategies.py:249) carries no stop or target, so the stop-loss and take-profit levels are only recorded; nothing in the code acts on them, and the only later read is the trailing-stop comparison (strategies.py:267). Short positions are not implemented by the code, and the model does nothing for them.
- StrategySession.PositionSize and StrategySession.Session.Next: a negative close is not excluded; it gives a negative size (and with positive percentages a stop above and a target below the close), as the unguarded division in strategies.py:218-232 does; `StrategySession.EntryLevels` states the level order only for a positive close.
- StrategySession.Session.Next: `self.position.entry_time` (strategies.py:263) is modelled as the index of the bar the position was entered at, and the trailing-stop high is taken over the highs from that bar to the current one; the slice depends on this reading.
- The execution-time clock of the rate limiter is the `now` parameter of `RateLimit.RateLimiter.Allow`, in seconds; the two clock reads of one call are taken as one instant.
- float64 arithmetic is modelled as exact real arithmetic, in the limiter and in the position sizing.
- Indicators.UserArg and Indicators.DefaultArg: a "float" argument keeps the value it converts (`Indicators.FloatOf`); the float64 rounding of `float()` is not computed, only whether it raises.
- PyValues.IntConv and PyValues.FloatAccepts: Unicode decimal digits other than 0-9, which Python's `int()` and `float()` also accept, are not modelled; such text is treated as an error.
- PyValues.Value: lists, dictionaries and the non-standard JSON numbers Infinity and NaN are not parameter values of the model.
- RuleEvaluation.IndicatorValue: the close price behind "Price" is a finite number; an infinite or NaN close is not represented.
- The limiter's mutex and concurrent callers are not modelled. Buckets are values in a map, so pointer aliasing of buckets is not modelled.
- RateLimit.RateLimiter.Allow: the bucket invariant is only preserved when the clock does not run back for that client; the source relies on the wall clock for this.
- GoStrategyValidator.IsGoFloat: Go's float parsing (`strconv.ParseFloat`, strategy_validator.go:98-102) is modelled as decimal, exponent and Inf/NaN syntax only. Hexadecimal floats and underscores are not modelled, and neither is ErrRange: a decimal text beyond float64 range (such as a digit string of more than 309 digits, or "1e999") makes ParseFloat fail in Go, but the model accepts it, so the promise that every digit string is accepted is wider than Go's.
- Pagination.Atoi: the out-of-range error of `strconv.Atoi` for values beyond 64 bits is not modelled.
- Util.Upper and Util.Lower map ASCII letters only; Go's `strings.ToUpper`/`ToLower` and Python's `.lower()` on other scripts are not modelled.
- Password.Classify: `unicode.IsUpper`, `IsLower`, `IsNumber`, `IsPunct` and `IsSymbol` are modelled on ASCII only; other characters set no class.
- Python's `str()` of parameter values in `params_to_string` is a parameter (`show`) of the data-frame method, not a definition.
- Python raising on non-dict values where the engine expects dicts is not modelled. Rule-tree values are typed.
- Values of `operator*`, `type` and `symbol` are modelled as strings. The code only compares them with string literals.
- The interior-gap time step is one whole second (`time.Second`); timestamps are whole seconds.
- IndicatorPaging.PageOf: requires page ≥ 1 and limit ≥ 0; below that Go's slice expression panics, which is not modelled.
- The indicator-settings checks duplicated in strategy_validator.go after line 146 are not modelled separately; the copy in indicator_validator.go is.
- AuthMiddleware.AdminPaths.InitAdminPaths: requires non-empty configured paths; the source would index an empty one and panic.
- The error codes of codes.go appear only as the constants the constructors use.
