/** Properties of structural validation, and how it relates to evaluation. */
module ValidationLaws {
  import opened Util
  import opened RuleTree
  import opened RuleValidation
  import opened RuleEvaluation

  /** The sequence check fails exactly when some item fails, and then with the first failing item's message. */
  lemma {:induction false} SeqErrorIsFirstFailure(t: Tree, items: seq<SeqItem>)
    ensures SeqError(t, items).None? <==> forall k :: 0 <= k < |items| ==> ItemError(t, items[k]).None?
    ensures SeqError(t, items).Some? ==>
      exists k :: 0 <= k < |items| && SeqError(t, items) == ItemError(t, items[k])
        && forall j :: 0 <= j < k ==> ItemError(t, items[j]).None?
    decreases |items|
  {
    if items != [] {
      var rest := items[1..];
      SeqErrorIsFirstFailure(t, rest);
      assert forall k :: 0 <= k < |rest| ==> rest[k] == items[k + 1];
      if ItemError(t, items[0]).None? && SeqError(t, rest).Some? {
        var k :| 0 <= k < |rest| && SeqError(t, rest) == ItemError(t, rest[k])
          && forall j :: 0 <= j < k ==> ItemError(t, rest[j]).None?;
        assert SeqError(t, items) == ItemError(t, items[k + 1]);
        assert forall j :: 0 <= j < k + 1 ==> ItemError(t, items[j]).None? by {
          forall j | 0 <= j < k + 1
            ensures ItemError(t, items[j]).None?
          {
            if j > 0 {
              assert items[j] == rest[j - 1];
            }
          }
        }
      }
    }
  }

  /** The position of the first entry at k or later whose check fails, or |entries| when none does. */
  function FirstFailingEntry(t: Tree, k: nat): (m: nat)
    requires k <= |t.entries|
    ensures k <= m <= |t.entries|
    decreases |t.entries| - k
  {
    if k == |t.entries| || EntryError(t, k).Some? then k else FirstFailingEntry(t, k + 1)
  }

  /**
   * The entry check starting at k reports the first failing entry's message: every entry
   * before it passes, and there is no failure exactly when no entry from k on fails.
   */
  lemma {:induction false} EntriesErrorIsFirstFailure(t: Tree, k: nat)
    requires k <= |t.entries|
    ensures var m := FirstFailingEntry(t, k);
      && (forall j: nat :: k <= j < m ==> EntryError(t, j).None?)
      && (m < |t.entries| ==> EntriesError(t, k) == EntryError(t, m) && EntryError(t, m).Some?)
      && (m == |t.entries| <==> EntriesError(t, k).None?)
    decreases |t.entries| - k
  {
    if k < |t.entries| && EntryError(t, k).None? {
      EntriesErrorIsFirstFailure(t, k + 1);
      assert EntriesError(t, k) == EntriesError(t, k + 1);
    }
  }

  // ---- What a valid rule tree is ----

  /**
   * A tree validate_rules accepts, stated as conditions on its parts rather than as a first
   * failure. With "_sequence" every item must be valid; without it, every entry.
   */
  predicate PyValid(t: Tree)
    decreases t, 1
  {
    if HasSequence(t) then
      forall k :: 0 <= k < |SequenceItems(t)| ==> ItemValid(t, SequenceItems(t)[k])
    else
      forall j :: 0 <= j < |t.entries| ==> EntryValid(t, j)
  }

  /**
   * A sequence item has a type and an index; the key it references exists; a referenced rule
   * passes validate_rule, a referenced group is itself valid, and a referenced operator is
   * "AND" or "OR". An item of any other type references nothing.
   */
  predicate ItemValid(t: Tree, item: SeqItem)
    decreases t, 0
  {
    && item.kind.Some? && item.index.Some?
    && (item.kind.value == "rule" ==>
          match FindRule(t.entries, item.index.value)
          case None => false
          case Some(j) => RuleError(t.entries[j].rule).None?)
    && (item.kind.value == "group" ==>
          match FindGroup(t.entries, item.index.value)
          case None => false
          case Some(j) => PyValid(t.entries[j].group))
    && (item.kind.value == "operator" ==>
          match FindOperator(t.entries, item.index.value)
          case None => false
          case Some(op) => op == "AND" || op == "OR")
  }

  /** Without "_sequence": rules pass validate_rule, operators are "AND" or "OR", groups are valid. */
  predicate EntryValid(t: Tree, j: nat)
    requires j < |t.entries|
    decreases t, 0
  {
    match t.entries[j]
    case RuleEntry(_, r) => RuleError(r).None?
    case OperatorEntry(_, op) => op == "AND" || op == "OR"
    case GroupEntry(_, g) => PyValid(g)
    case _ => true
  }

  /** validate_rules accepts a tree exactly when it is valid. */
  lemma {:induction false} RulesErrorMeaning(t: Tree)
    ensures RulesError(t).None? <==> PyValid(t)
    decreases t, 1
  {
    if HasSequence(t) {
      var items := SequenceItems(t);
      SeqErrorIsFirstFailure(t, items);
      forall k | 0 <= k < |items|
        ensures ItemError(t, items[k]).None? <==> ItemValid(t, items[k])
      {
        ItemErrorMeaning(t, items[k]);
      }
    } else {
      EntriesErrorIsFirstFailure(t, 0);
      forall j | 0 <= j < |t.entries|
        ensures EntryError(t, j).None? <==> EntryValid(t, j)
      {
        EntryErrorMeaning(t, j);
      }
    }
  }

  /** A sequence item passes exactly when it is valid. */
  lemma {:induction false} ItemErrorMeaning(t: Tree, item: SeqItem)
    ensures ItemError(t, item).None? <==> ItemValid(t, item)
    decreases t, 0
  {
    if item.kind.Some? && item.index.Some? && item.kind.value == "group" {
      match FindGroup(t.entries, item.index.value)
      case None =>
      case Some(j) =>
        RulesErrorMeaning(t.entries[j].group);
    }
  }

  /** An entry passes exactly when it is valid. */
  lemma {:induction false} EntryErrorMeaning(t: Tree, j: nat)
    requires j < |t.entries|
    ensures EntryError(t, j).None? <==> EntryValid(t, j)
    decreases t, 0
  {
    if t.entries[j].GroupEntry? {
      RulesErrorMeaning(t.entries[j].group);
    }
  }

  /**
   * A rule that passes validation is evaluated by the comparison it names: float(value) that is
   * not a number gives false, otherwise the named comparison of the indicator value against it.
   */
  lemma ValidRuleEvaluation(r: Rule, f: Frame, i: nat)
    requires i < |f.close| && RuleError(r).None?
    ensures r.condition.value.value.value.NotNumeric? ==> !EvalRule(r, f, i)
    ensures r.condition.value.value.value.Numeric? ==>
      EvalRule(r, f, i) == Compare(r.condition.value.symbol.value, IndicatorValue(f, r.indicator.value.name, i), r.condition.value.value.value.f)
  {
  }

  // ---- Scenarios ----

  function ValidLeaf(): Rule
  {
    Rule(Some(Indicator(Some("RSI"))), Some(Condition(Some(Numeric(Finite(30.0))), Some("<"))))
  }

  lemma ValidLeafPasses()
    ensures RuleError(ValidLeaf()).None?
  {
  }

  /**
   * With "_sequence" present only the referenced keys are checked: an operator key holding
   * "XOR" that the sequence does not name is accepted.
   */
  lemma ScenarioUnreferencedOperator()
    ensures RulesError(Tree([SequenceEntry([SeqItem(Some("rule"), Some("0"))]), RuleEntry("0", ValidLeaf()), OperatorEntry("7", "XOR")])).None?
  {
    var t1 := Tree([SequenceEntry([SeqItem(Some("rule"), Some("0"))]), RuleEntry("0", ValidLeaf()), OperatorEntry("7", "XOR")]);
    assert t1.entries[0].SequenceEntry?;
    assert FindRule(t1.entries, "0") == Some(1);
  }

  /** Once the sequence names that operator key, its "XOR" is reported. */
  lemma ScenarioReferencedOperator()
    ensures RulesError(Tree([SequenceEntry([SeqItem(Some("rule"), Some("0")), SeqItem(Some("operator"), Some("7"))]), RuleEntry("0", ValidLeaf()), OperatorEntry("7", "XOR")]))
      == Some("Operator operator7 must be AND or OR")
  {
    var items2 := [SeqItem(Some("rule"), Some("0")), SeqItem(Some("operator"), Some("7"))];
    var t2 := Tree([SequenceEntry(items2), RuleEntry("0", ValidLeaf()), OperatorEntry("7", "XOR")]);
    assert t2.entries[0].SequenceEntry?;
    assert FindRule(t2.entries, "0") == Some(1);
    var es := t2.entries;
    assert FindOperator(es[2..], "7") == Some("XOR");
    assert FindOperator(es[1..], "7") == Some("XOR") by { assert es[1..][1..] == es[2..]; }
    assert FindOperator(es, "7") == Some("XOR");
    assert items2[1..][1..] == [];
    assert "Operator operator" + "7" + " must be AND or OR" == "Operator operator7 must be AND or OR";
  }

  /** Without "_sequence" every entry is checked, so the same stray operator is reported. */
  lemma ScenarioStrayOperatorWithoutSequence()
    ensures RulesError(Tree([RuleEntry("0", ValidLeaf()), OperatorEntry("7", "XOR")])) == Some("Operator operator7 must be AND or OR")
  {
    var t := Tree([RuleEntry("0", ValidLeaf()), OperatorEntry("7", "XOR")]);
    assert !HasSequence(t);
    StrayOperatorEntries(t);
  }

  lemma StrayOperatorEntries(t: Tree)
    requires t == Tree([RuleEntry("0", ValidLeaf()), OperatorEntry("7", "XOR")])
    ensures EntriesError(t, 0) == Some("Operator operator7 must be AND or OR")
  {
    ValidLeafPasses();
    assert EntryError(t, 0).None?;
    StrayOperatorLast(t);
  }

  lemma StrayOperatorLast(t: Tree)
    requires t == Tree([RuleEntry("0", ValidLeaf()), OperatorEntry("7", "XOR")])
    ensures EntriesError(t, 1) == Some("Operator operator7 must be AND or OR")
  {
    assert EntriesError(t, 2).None?;
    StrayOperatorMessage();
  }

  lemma StrayOperatorMessage()
    ensures "Operator operator" + "7" + " must be AND or OR" == "Operator operator7 must be AND or OR"
  {
  }

  /**
   * Only one side is needed: an empty buy side with a valid sell side is accepted, while
   * two empty sides are rejected.
   */
  lemma ScenarioOneSideSuffices()
    ensures ValidateStrategy(StrategyConfig(Some(Tree([])), Some(Tree([RuleEntry("0", ValidLeaf())])))).ok
    ensures ValidateStrategy(StrategyConfig(Some(Tree([])), Some(Tree([])))) == Verdict(false, "Strategy must have at least buyRules or sellRules")
  {
    var t := Tree([RuleEntry("0", ValidLeaf())]);
    assert !HasSequence(t);
    assert EntriesError(t, 0) == EntriesError(t, 1);
  }
}
