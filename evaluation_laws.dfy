/** Properties of rule-tree evaluation, and the behaviour of the engine on the documented scenarios. */
module EvaluationLaws {
  import opened Util
  import opened RuleTree
  import opened RuleEvaluation

  /** With AND between every pair of results, the fold is the conjunction of all results. */
  lemma {:induction false} FoldAllAnd(rs: seq<bool>, opAt: nat -> Option<string>)
    requires |rs| > 0
    requires forall k :: 0 <= k < |rs| - 1 ==> opAt(k) == Some("AND")
    ensures Fold(rs, opAt) <==> forall j :: 0 <= j < |rs| ==> rs[j]
    decreases |rs|
  {
    if |rs| > 1 {
      var p := rs[..|rs| - 1];
      FoldAllAnd(p, opAt);
      assert forall j :: 0 <= j < |p| ==> p[j] == rs[j];
    }
  }

  /** With OR between every pair of results, the fold is the disjunction of all results. */
  lemma {:induction false} FoldAllOr(rs: seq<bool>, opAt: nat -> Option<string>)
    requires |rs| > 0
    requires forall k :: 0 <= k < |rs| - 1 ==> opAt(k) == Some("OR")
    ensures Fold(rs, opAt) <==> exists j :: 0 <= j < |rs| && rs[j]
    decreases |rs|
  {
    if |rs| > 1 {
      var p := rs[..|rs| - 1];
      FoldAllOr(p, opAt);
      assert forall j :: 0 <= j < |p| ==> p[j] == rs[j];
    }
  }

  /** When no operator is AND or OR, every later result is ignored: the fold is the first result. */
  lemma {:induction false} FoldWithoutOperators(rs: seq<bool>, opAt: nat -> Option<string>)
    requires |rs| > 0
    requires forall k :: 0 <= k < |rs| - 1 ==> opAt(k) != Some("AND") && opAt(k) != Some("OR")
    ensures Fold(rs, opAt) == rs[0]
    decreases |rs|
  {
    if |rs| > 1 {
      FoldWithoutOperators(rs[..|rs| - 1], opAt);
    }
  }

  /** The fold depends only on the operators at positions 0 .. |rs| - 2. */
  lemma {:induction false} FoldUsesOnlyLeadingOperators(rs: seq<bool>, op1: nat -> Option<string>, op2: nat -> Option<string>)
    requires forall k :: 0 <= k < |rs| - 1 ==> op1(k) == op2(k)
    ensures Fold(rs, op1) == Fold(rs, op2)
    decreases |rs|
  {
    if |rs| > 1 {
      FoldUsesOnlyLeadingOperators(rs[..|rs| - 1], op1, op2);
    }
  }

  /** A tree is without terms when it holds no rule and no group entry. */
  predicate NoTerms(t: Tree)
  {
    forall j :: 0 <= j < |t.entries| ==> !t.entries[j].RuleEntry? && !t.entries[j].GroupEntry?
  }

  lemma {:induction false} NoTermsNoSequenceResults(t: Tree, items: seq<SeqItem>, f: Frame, i: nat)
    requires i < |f.close| && NoTerms(t)
    ensures SequenceResults(t, items, f, i) == []
    decreases |items|
  {
    if items != [] {
      NoTermsNoSequenceResults(t, items[..|items| - 1], f, i);
    }
  }

  lemma {:induction false} NoRulesNoSimpleResults(es: seq<Entry>, f: Frame, i: nat)
    requires i < |f.close|
    requires forall j :: 0 <= j < |es| ==> !es[j].RuleEntry?
    ensures SimpleParts(es, f, i).0 == []
    decreases |es|
  {
    if es != [] {
      NoRulesNoSimpleResults(es[..|es| - 1], f, i);
    }
  }

  /** Empty-tree law: a tree with no rule and no group entry evaluates to false on either path. */
  lemma EmptyTreeIsFalse(t: Tree, f: Frame, i: nat)
    requires i < |f.close| && NoTerms(t)
    ensures !EvalRules(t, f, i)
  {
    if UsesSequencePath(t) {
      NoTermsNoSequenceResults(t, SequenceItems(t), f, i);
    } else {
      NoRulesNoSimpleResults(t.entries, f, i);
    }
  }

  /** The rule and operator entries of a tree, in order; groups, "_sequence" and other keys are dropped. */
  function RulesAndOperators(es: seq<Entry>): (r: seq<Entry>)
    ensures forall j :: 0 <= j < |r| ==> r[j].RuleEntry? || r[j].OperatorEntry?
  {
    if es == [] then []
    else
      var last := es[|es| - 1];
      RulesAndOperators(es[..|es| - 1]) + (if last.RuleEntry? || last.OperatorEntry? then [last] else [])
  }

  /** SimpleParts read one entry at a time from the front of the list. */
  lemma SimplePartsSnoc(es: seq<Entry>, e: Entry, f: Frame, i: nat)
    requires i < |f.close|
    ensures e.RuleEntry? ==> SimpleParts(es + [e], f, i) == (SimpleParts(es, f, i).0 + [EvalRule(e.rule, f, i)], SimpleParts(es, f, i).1)
    ensures e.OperatorEntry? ==> SimpleParts(es + [e], f, i) == (SimpleParts(es, f, i).0, SimpleParts(es, f, i).1 + [e.op])
    ensures !e.RuleEntry? && !e.OperatorEntry? ==> SimpleParts(es + [e], f, i) == SimpleParts(es, f, i)
  {
    assert (es + [e])[..|es|] == es;
  }

  /** SimpleParts of the first k + 1 entries, from SimpleParts of the first k. */
  lemma SimplePartsStep(es: seq<Entry>, k: nat, f: Frame, i: nat)
    requires k < |es| && i < |f.close|
    ensures es[k].RuleEntry? ==> SimpleParts(es[..k + 1], f, i) == (SimpleParts(es[..k], f, i).0 + [EvalRule(es[k].rule, f, i)], SimpleParts(es[..k], f, i).1)
    ensures es[k].OperatorEntry? ==> SimpleParts(es[..k + 1], f, i) == (SimpleParts(es[..k], f, i).0, SimpleParts(es[..k], f, i).1 + [es[k].op])
    ensures !es[k].RuleEntry? && !es[k].OperatorEntry? ==> SimpleParts(es[..k + 1], f, i) == SimpleParts(es[..k], f, i)
  {
    assert es[..k + 1][..k] == es[..k];
  }

  lemma {:induction false} SimplePartsOfFilter(es: seq<Entry>, f: Frame, i: nat)
    requires i < |f.close|
    ensures SimpleParts(RulesAndOperators(es), f, i) == SimpleParts(es, f, i)
    decreases |es|
  {
    if es != [] {
      var front := es[..|es| - 1];
      var last := es[|es| - 1];
      assert es == front + [last];
      SimplePartsOfFilter(front, f, i);
      SimplePartsSnoc(front, last, f, i);
      if last.RuleEntry? || last.OperatorEntry? {
        var rf := RulesAndOperators(front);
        assert RulesAndOperators(es) == rf + [last];
        SimplePartsSnoc(rf, last, f, i);
        assert SimpleParts(rf + [last], f, i) == SimpleParts(front + [last], f, i);
      } else {
        assert RulesAndOperators(es) == RulesAndOperators(front) + [];
        assert RulesAndOperators(front) + [] == RulesAndOperators(front);
      }
    }
  }

  /**
   * Without the sequence path, group entries and "_sequence" play no part: the tree
   * evaluates like its rule and operator entries alone.
   */
  lemma SimplePathIgnoresGroups(t: Tree, f: Frame, i: nat)
    requires i < |f.close| && !UsesSequencePath(t)
    ensures EvalRules(t, f, i) == EvalRules(Tree(RulesAndOperators(t.entries)), f, i)
  {
    var filtered := Tree(RulesAndOperators(t.entries));
    assert !HasSequence(filtered);
    SimplePartsOfFilter(t.entries, f, i);
  }

  // ---- Scenarios ----

  function Leaf(name: string, symbol: string, threshold: real): Rule
  {
    Rule(Some(Indicator(Some(name))), Some(Condition(Some(Numeric(Finite(threshold))), Some(symbol))))
  }

  /** A one-candle frame whose only columns hold RSI = rsi and SMA = sma. */
  function Candle(rsi: real, sma: real): Frame
  {
    Frame((p: string, k: nat) => if p == "RSI" then Some(Finite(rsi)) else if p == "SMA" then Some(Finite(sma)) else None, [100.0])
  }

  /** The simple path on {rule, operator, rule} collects both rule results and the one operator. */
  lemma SimplePartsRuleOpRule(r1: Rule, s1: string, op: string, so: string, r2: Rule, s2: string, f: Frame, i: nat)
    requires i < |f.close|
    ensures SimpleParts([RuleEntry(s1, r1), OperatorEntry(so, op), RuleEntry(s2, r2)], f, i) == ([EvalRule(r1, f, i), EvalRule(r2, f, i)], [op])
  {
    var es := [RuleEntry(s1, r1), OperatorEntry(so, op), RuleEntry(s2, r2)];
    assert es[..0] == [] && es[..3] == es;
    SimplePartsStep(es, 0, f, i);
    SimplePartsStep(es, 1, f, i);
    SimplePartsStep(es, 2, f, i);
    assert [] + [EvalRule(r1, f, i)] == [EvalRule(r1, f, i)];
    assert [] + [op] == [op];
    assert [EvalRule(r1, f, i)] + [EvalRule(r2, f, i)] == [EvalRule(r1, f, i), EvalRule(r2, f, i)];
  }

  /** float("inf") and float("-inf") thresholds: every finite reading is below +inf and above -inf. */
  lemma ScenarioInfiniteThreshold(rsi: real)
    ensures EvalRule(Rule(Some(Indicator(Some("RSI"))), Some(Condition(Some(Numeric(PosInf)), Some("<")))), Candle(rsi, 0.0), 0)
    ensures EvalRule(Rule(Some(Indicator(Some("RSI"))), Some(Condition(Some(Numeric(NegInf)), Some(">")))), Candle(rsi, 0.0), 0)
    ensures !EvalRule(Rule(Some(Indicator(Some("RSI"))), Some(Condition(Some(Numeric(PosInf)), Some("==")))), Candle(rsi, 0.0), 0)
  {
  }

  /** The leaf RSI < 30 holds at RSI 25 and fails at RSI 35. */
  lemma ScenarioSingleLeaf()
    ensures EvalRules(Tree([RuleEntry("0", Leaf("RSI", "<", 30.0))]), Candle(25.0, 0.0), 0)
    ensures !EvalRules(Tree([RuleEntry("0", Leaf("RSI", "<", 30.0))]), Candle(35.0, 0.0), 0)
  {
    var t := Tree([RuleEntry("0", Leaf("RSI", "<", 30.0))]);
    assert !HasSequence(t);
    assert t.entries[..0] == [];
  }

  /**
   * RSI < 30 joined by operator0 to SMA > 50, at RSI 25 and SMA 40 (true, then false):
   * false with AND, true with OR, and true (the first result) with any other operator value.
   */
  lemma ScenarioAndOr(op: string)
    ensures EvalRules(Tree([RuleEntry("0", Leaf("RSI", "<", 30.0)), OperatorEntry("0", op), RuleEntry("1", Leaf("SMA", ">", 50.0))]), Candle(25.0, 40.0), 0)
        <==> op != "AND"
  {
    var f := Candle(25.0, 40.0);
    var a, b, c := RuleEntry("0", Leaf("RSI", "<", 30.0)), OperatorEntry("0", op), RuleEntry("1", Leaf("SMA", ">", 50.0));
    assert EvalRule(a.rule, f, 0) && !EvalRule(c.rule, f, 0);
    SimplePartsRuleOpRule(a.rule, "0", op, "0", c.rule, "1", f, 0);
    assert [true, false][..1] == [true];
    assert !HasSequence(Tree([a, b, c]));
  }

  /**
   * Without "_sequence" a group is never evaluated: a tree {group0, operator0: "AND", rule1}
   * evaluates to rule1 alone, whatever the group holds.
   */
  lemma ScenarioGroupWithoutSequence(g: Tree, r: Rule, f: Frame)
    requires 0 < |f.close|
    ensures EvalRules(Tree([GroupEntry("0", g), OperatorEntry("0", "AND"), RuleEntry("1", r)]), f, 0) == EvalRule(r, f, 0)
  {
    var es := [GroupEntry("0", g), OperatorEntry("0", "AND"), RuleEntry("1", r)];
    assert !HasSequence(Tree(es));
    assert es[..0] == [] && es[..3] == es;
    SimplePartsStep(es, 0, f, 0);
    SimplePartsStep(es, 1, f, 0);
    SimplePartsStep(es, 2, f, 0);
  }

  /** The simple path on {_sequence, rule, rule} collects both rule results and no operator. */
  lemma SimplePartsSeqRuleRule(items: seq<SeqItem>, r1: Rule, s1: string, r2: Rule, s2: string, f: Frame, i: nat)
    requires i < |f.close|
    ensures SimpleParts([SequenceEntry(items), RuleEntry(s1, r1), RuleEntry(s2, r2)], f, i) == ([EvalRule(r1, f, i), EvalRule(r2, f, i)], [])
  {
    var es := [SequenceEntry(items), RuleEntry(s1, r1), RuleEntry(s2, r2)];
    assert es[..0] == [] && es[..3] == es;
    SimplePartsStep(es, 0, f, i);
    SimplePartsStep(es, 1, f, i);
    SimplePartsStep(es, 2, f, i);
    assert [] + [EvalRule(r1, f, i)] == [EvalRule(r1, f, i)];
    assert [EvalRule(r1, f, i)] + [EvalRule(r2, f, i)] == [EvalRule(r1, f, i), EvalRule(r2, f, i)];
  }

  /**
   * "_sequence" = [rule1, rule0] with rule1 false and rule0 true, and no operator key: the
   * sequence is not used and the first rule entry decides (true), at every candle with RSI
   * below 30 and SMA at most 50.
   */
  lemma ScenarioSequenceWithoutOperator(rsi: real, sma: real)
    requires rsi < 30.0 && sma <= 50.0
    ensures EvalRules(Tree([SequenceEntry([SeqItem(Some("rule"), Some("1")), SeqItem(Some("rule"), Some("0"))]),
                            RuleEntry("0", Leaf("RSI", "<", 30.0)), RuleEntry("1", Leaf("SMA", ">", 50.0))]), Candle(rsi, sma), 0)
  {
    var f := Candle(rsi, sma);
    var r0, r1 := Leaf("RSI", "<", 30.0), Leaf("SMA", ">", 50.0);
    LeavesAtCandle(rsi, sma);
    var items := [SeqItem(Some("rule"), Some("1")), SeqItem(Some("rule"), Some("0"))];
    var es := [SequenceEntry(items), RuleEntry("0", r0), RuleEntry("1", r1)];
    assert !HasOperatorKey(Tree(es));
    SimplePartsSeqRuleRule(items, r0, "0", r1, "1", f, 0);
    FoldPair([true, false], ListedOperators([]));
  }

  /** {"_sequence": [rule1, operator0, rule0], rule0: RSI < 30, operator0: "AND", rule1: SMA > 50}. */
  function OrderedTree(): Tree
  {
    Tree([SequenceEntry([SeqItem(Some("rule"), Some("1")), SeqItem(Some("operator"), Some("0")), SeqItem(Some("rule"), Some("0"))]),
          RuleEntry("0", Leaf("RSI", "<", 30.0)), OperatorEntry("0", "AND"), RuleEntry("1", Leaf("SMA", ">", 50.0))])
  }

  lemma OrderedTreeSequence()
    ensures SequenceItems(OrderedTree()) == [SeqItem(Some("rule"), Some("1")), SeqItem(Some("operator"), Some("0")), SeqItem(Some("rule"), Some("0"))]
  {
  }

  lemma OrderedTreeKeys()
    ensures UsesSequencePath(OrderedTree())
    ensures SequenceItems(OrderedTree()) == [SeqItem(Some("rule"), Some("1")), SeqItem(Some("operator"), Some("0")), SeqItem(Some("rule"), Some("0"))]
    ensures FindRule(OrderedTree().entries, "1") == Some(3)
    ensures FindRule(OrderedTree().entries, "0") == Some(1)
    ensures FindOperator(OrderedTree().entries, NatToString(0)) == Some("AND")
  {
    var es := OrderedTree().entries;
    assert es[0].SequenceEntry? && es[2].OperatorEntry?;
    assert FindRule(es[3..], "1") == Some(0);
    assert FindRule(es[2..], "1") == Some(1) by { assert es[2..][1..] == es[3..]; }
    assert FindRule(es[1..], "1") == Some(2) by { assert es[1..][1..] == es[2..]; }
    assert NatToString(0) == "0";
  }

  /** At a candle with RSI below 30 and SMA at most 50, RSI < 30 holds and SMA > 50 does not. */
  lemma LeavesAtCandle(rsi: real, sma: real)
    requires rsi < 30.0 && sma <= 50.0
    ensures EvalRule(Leaf("RSI", "<", 30.0), Candle(rsi, sma), 0)
    ensures !EvalRule(Leaf("SMA", ">", 50.0), Candle(rsi, sma), 0)
  {
  }

  /** rule1 is evaluated first and reads false at such a candle. */
  lemma OrderedTreeFirstItem(rsi: real, sma: real)
    requires rsi < 30.0 && sma <= 50.0
    ensures ItemResults(OrderedTree(), SeqItem(Some("rule"), Some("1")), Candle(rsi, sma), 0) == [false]
  {
    OrderedTreeKeys();
    LeavesAtCandle(rsi, sma);
    assert OrderedTree().entries[3].rule == Leaf("SMA", ">", 50.0);
  }

  /** The operator item contributes no result. */
  lemma OrderedTreeOperatorItem(f: Frame)
    requires 0 < |f.close|
    ensures ItemResults(OrderedTree(), SeqItem(Some("operator"), Some("0")), f, 0) == []
  {
  }

  /** rule0 comes last and reads true at such a candle. */
  lemma OrderedTreeLastItem(rsi: real, sma: real)
    requires rsi < 30.0 && sma <= 50.0
    ensures ItemResults(OrderedTree(), SeqItem(Some("rule"), Some("0")), Candle(rsi, sma), 0) == [true]
  {
    OrderedTreeKeys();
    LeavesAtCandle(rsi, sma);
    assert OrderedTree().entries[1].rule == Leaf("RSI", "<", 30.0);
  }

  /** The results of a three-item sequence are the items' results in order. */
  lemma ThreeItemResults(t: Tree, items: seq<SeqItem>, f: Frame, i: nat, ra: seq<bool>, rb: seq<bool>, rc: seq<bool>)
    requires i < |f.close| && |items| == 3
    requires ItemResults(t, items[0], f, i) == ra && ItemResults(t, items[1], f, i) == rb && ItemResults(t, items[2], f, i) == rc
    ensures SequenceResults(t, items, f, i) == ra + rb + rc
  {
    var front := items[..2];
    assert front[..1][..0] == [] && front[..1][0] == items[0] && front[1] == items[1];
    assert SequenceResults(t, front[..1], f, i) == ra;
    assert SequenceResults(t, front, f, i) == ra + rb;
  }

  /** Two results are joined by the operator at position 0. */
  lemma FoldPair(rs: seq<bool>, opAt: nat -> Option<string>)
    requires |rs| == 2
    ensures Fold(rs, opAt) == Apply(rs[0], opAt(0), rs[1])
  {
    assert rs[..1] == [rs[0]];
  }

  lemma OrderedTreeResults(rsi: real, sma: real)
    requires rsi < 30.0 && sma <= 50.0
    ensures SequenceResults(OrderedTree(), SequenceItems(OrderedTree()), Candle(rsi, sma), 0) == [false, true]
  {
    OrderedTreeSequence();
    OrderedTreeFirstItem(rsi, sma);
    OrderedTreeOperatorItem(Candle(rsi, sma));
    OrderedTreeLastItem(rsi, sma);
    ThreeItemResults(OrderedTree(), SequenceItems(OrderedTree()), Candle(rsi, sma), 0, [false], [], [true]);
  }

  /**
   * With operator0 = "AND" the sequence order is used: rule1 (false) and then rule0 (true)
   * are joined by operator0, which gives false, at every candle with RSI below 30 and SMA at most 50.
   */
  lemma ScenarioSequenceWithOperator(rsi: real, sma: real)
    requires rsi < 30.0 && sma <= 50.0
    ensures !EvalRules(OrderedTree(), Candle(rsi, sma), 0)
  {
    OrderedTreeKeys();
    OrderedTreeResults(rsi, sma);
    FoldPair([false, true], KeyedOperators(OrderedTree()));
  }
}
