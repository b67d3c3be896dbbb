/**
 * Evaluation of a rule tree at one candle (_evaluate_rules and the functions it calls).
 *
 * The indicator columns of the data frame are an opaque lookup: `lookup(p, i)` is
 * the value at row i of the first column whose name contains p, or None when no
 * column name contains p.
 */
module RuleEvaluation {
  import opened Util
  import opened RuleTree

  datatype Frame = Frame(lookup: (string, nat) -> Option<Float>, close: seq<real>)

  /** The name searched for among the column names: f"{indicator_name}", which is "None" when the name is absent. */
  function Pattern(name: Option<string>): string
  {
    if name.Some? then name.value else "None"
  }

  /** _get_indicator_value: a matching column, else the close price for "Price", else 0.0. */
  function IndicatorValue(f: Frame, name: Option<string>, i: nat): (v: Float)
    requires i < |f.close|
    ensures f.lookup(Pattern(name), i).Some? ==> v == f.lookup(Pattern(name), i).value
    ensures f.lookup(Pattern(name), i).None? && name == Some("Price") ==> v == Finite(f.close[i])
    ensures f.lookup(Pattern(name), i).None? && name != Some("Price") ==> v == Finite(0.0)
  {
    match f.lookup(Pattern(name), i)
    case Some(x) => x
    case None => if name == Some("Price") then Finite(f.close[i]) else Finite(0.0)
  }

  /** Both operands are finite numbers. */
  predicate BothFinite(a: Float, b: Float)
  {
    a.Finite? && b.Finite?
  }

  /** a < b in float64's order: -inf below every finite number, +inf above; nothing is below or above NaN. */
  predicate Below(a: Float, b: Float)
  {
    match (a, b)
    case (Finite(x), Finite(y)) => x < y
    case (NegInf, Finite(_)) => true
    case (NegInf, PosInf) => true
    case (Finite(_), PosInf) => true
    case _ => false
  }

  /** a == b in float64: equal values other than NaN, so inf == inf and NaN != NaN. */
  predicate Same(a: Float, b: Float)
  {
    a == b && !a.NaN?
  }

  /** The comparison a leaf performs; an unknown symbol gives false. */
  function Compare(symbol: string, a: Float, b: Float): (r: bool)
    ensures symbol !in Comparators ==> !r
    ensures symbol in Comparators - {"!="} && (a.NaN? || b.NaN?) ==> !r
    ensures symbol == "!=" && (a.NaN? || b.NaN?) ==> r
    ensures BothFinite(a, b) && symbol == "<" ==> (r <==> a.x < b.x)
    ensures BothFinite(a, b) && symbol == ">" ==> (r <==> a.x > b.x)
    ensures BothFinite(a, b) && symbol == "<=" ==> (r <==> a.x <= b.x)
    ensures BothFinite(a, b) && symbol == ">=" ==> (r <==> a.x >= b.x)
    ensures BothFinite(a, b) && symbol == "==" ==> (r <==> a.x == b.x)
    ensures BothFinite(a, b) && symbol == "!=" ==> (r <==> a.x != b.x)
    ensures a.PosInf? && (b.Finite? || b.NegInf?) ==> (r <==> symbol in {">", ">=", "!="})
    ensures a.NegInf? && (b.Finite? || b.PosInf?) ==> (r <==> symbol in {"<", "<=", "!="})
    ensures a.Finite? && b.PosInf? ==> (r <==> symbol in {"<", "<=", "!="})
    ensures a.Finite? && b.NegInf? ==> (r <==> symbol in {">", ">=", "!="})
    ensures a == b && (a.PosInf? || a.NegInf?) ==> (r <==> symbol in {"<=", ">=", "=="})
  {
    if symbol == "<" then Below(a, b)
    else if symbol == ">" then Below(b, a)
    else if symbol == "<=" then Below(a, b) || Same(a, b)
    else if symbol == ">=" then Below(b, a) || Same(a, b)
    else if symbol == "==" then Same(a, b)
    else if symbol == "!=" then !Same(a, b)
    else false
  }

  /**
   * _evaluate_rule. A missing indicator or condition reads as {}, a missing value as 0,
   * a missing symbol as "=="; a value that float() rejects raises, and the raise gives false.
   */
  function EvalRule(r: Rule, f: Frame, i: nat): (b: bool)
    requires i < |f.close|
    ensures r.condition.Some? && r.condition.value.value == Some(NotNumeric) ==> !b
    ensures r.condition.Some? && r.condition.value.symbol.Some? && r.condition.value.symbol.value !in Comparators ==> !b
    ensures r.indicator.Some? && r.condition.Some? && r.condition.value.symbol.Some?
            && r.condition.value.value.Some? && r.condition.value.value.value.Numeric? ==>
      b == Compare(r.condition.value.symbol.value, IndicatorValue(f, r.indicator.value.name, i), r.condition.value.value.value.f)
    ensures r.condition.None? ==> b == Compare("==", IndicatorValue(f, if r.indicator.Some? then r.indicator.value.name else None, i), Finite(0.0))
  {
    var ind := if r.indicator.Some? then r.indicator.value else Indicator(None);
    var cond := if r.condition.Some? then r.condition.value else Condition(None, None);
    var lhs := IndicatorValue(f, ind.name, i);
    var cv := if cond.value.Some? then cond.value.value else Numeric(Finite(0.0));
    var symbol := if cond.symbol.Some? then cond.symbol.value else "==";
    match cv
    case NotNumeric => false
    case Numeric(rhs) => Compare(symbol, lhs, rhs)
  }

  /** One step of the fold: AND and OR combine, any other or missing operator keeps the accumulator. */
  function Apply(acc: bool, op: Option<string>, b: bool): bool
  {
    if op == Some("AND") then acc && b else if op == Some("OR") then acc || b else acc
  }

  /**
   * The left-to-right fold over the results: results[0], then each results[j]
   * combined through the operator at position j - 1; false when there are no results.
   */
  function Fold(results: seq<bool>, opAt: nat -> Option<string>): bool
    decreases |results|
  {
    if |results| == 0 then false
    else if |results| == 1 then results[0]
    else Apply(Fold(results[..|results| - 1], opAt), opAt(|results| - 2), results[|results| - 1])
  }

  /** `_sequence` together with some operator key selects the sequence path. */
  predicate UsesSequencePath(t: Tree)
  {
    HasSequence(t) && HasOperatorKey(t)
  }

  /** _evaluate_rules. */
  function EvalRules(t: Tree, f: Frame, i: nat): bool
    requires i < |f.close|
    decreases t, 1
  {
    if UsesSequencePath(t) then EvalComplex(t, f, i) else EvalSimple(t, f, i)
  }

  /** The text of a sequence index; an absent index formats as "None". */
  function IndexText(item: SeqItem): string
  {
    if item.index.Some? then item.index.value else "None"
  }

  /** A sequence item that contributes a result: a rule or group item whose key exists. */
  predicate Contributes(t: Tree, item: SeqItem)
  {
    || (item.kind == Some("rule") && FindRule(t.entries, IndexText(item)).Some?)
    || (item.kind == Some("group") && FindGroup(t.entries, IndexText(item)).Some?)
  }

  /** The results contributed by one sequence item (none when its key is missing or it is an operator). */
  function ItemResults(t: Tree, item: SeqItem, f: Frame, i: nat): (rs: seq<bool>)
    requires i < |f.close|
    ensures |rs| <= 1
    decreases t, 0, 0
  {
    if item.kind == Some("rule") then
      match FindRule(t.entries, IndexText(item))
      case None => []
      case Some(j) => [EvalRule(t.entries[j].rule, f, i)]
    else if item.kind == Some("group") then
      match FindGroup(t.entries, IndexText(item))
      case None => []
      case Some(j) => [EvalRules(t.entries[j].group, f, i)]
    else []
  }

  /** The results of the sequence path, in sequence order. */
  function SequenceResults(t: Tree, items: seq<SeqItem>, f: Frame, i: nat): (rs: seq<bool>)
    requires i < |f.close|
    ensures |rs| <= |items|
    decreases t, 0, |items|
  {
    if items == [] then []
    else SequenceResults(t, items[..|items| - 1], f, i) + ItemResults(t, items[|items| - 1], f, i)
  }

  /**
   * A rule item whose key exists contributes its rule's value, a group item whose key exists its
   * group's value, and every other item nothing.
   */
  lemma ItemResultsMeaning(t: Tree, item: SeqItem, f: Frame, i: nat)
    requires i < |f.close|
    ensures |ItemResults(t, item, f, i)| == if Contributes(t, item) then 1 else 0
    ensures item.kind == Some("rule") && FindRule(t.entries, IndexText(item)).Some? ==>
      ItemResults(t, item, f, i) == [EvalRule(t.entries[FindRule(t.entries, IndexText(item)).value].rule, f, i)]
    ensures item.kind == Some("group") && FindGroup(t.entries, IndexText(item)).Some? ==>
      ItemResults(t, item, f, i) == [EvalRules(t.entries[FindGroup(t.entries, IndexText(item)).value].group, f, i)]
  {
  }

  /** The results of a concatenation of items are the results of the parts, in order. */
  lemma {:induction false} SequenceResultsAppend(t: Tree, a: seq<SeqItem>, b: seq<SeqItem>, f: Frame, i: nat)
    requires i < |f.close|
    ensures SequenceResults(t, a + b, f, i) == SequenceResults(t, a, f, i) + SequenceResults(t, b, f, i)
    decreases |b|
  {
    if b == [] {
      assert a + b == a;
    } else {
      var b0 := b[..|b| - 1];
      SequenceResultsAppend(t, a, b0, f, i);
      var last := ItemResults(t, b[|b| - 1], f, i);
      assert (a + b)[..|a + b| - 1] == a + b0;
      assert (a + b)[|a + b| - 1] == b[|b| - 1];
      assert SequenceResults(t, a + b, f, i) == SequenceResults(t, a + b0, f, i) + last;
      assert SequenceResults(t, b, f, i) == SequenceResults(t, b0, f, i) + last;
    }
  }

  /** The results of the first k + 1 items: those of the first k, then item k's. */
  lemma SequenceResultsStep(t: Tree, items: seq<SeqItem>, k: nat, f: Frame, i: nat)
    requires i < |f.close| && k < |items|
    ensures SequenceResults(t, items[..k + 1], f, i) == SequenceResults(t, items[..k], f, i) + ItemResults(t, items[k], f, i)
  {
    assert items[..k + 1][..k] == items[..k];
  }

  /** A single item's sequence results are that item's results. */
  lemma SequenceResultsSingle(t: Tree, item: SeqItem, f: Frame, i: nat)
    requires i < |f.close|
    ensures SequenceResults(t, [item], f, i) == ItemResults(t, item, f, i)
  {
    assert [item][..0] == [];
  }

  /** On the sequence path the result at position j pairs with rules["operator{j-1}"]. */
  function KeyedOperators(t: Tree): nat -> Option<string>
  {
    (k: nat) => FindOperator(t.entries, NatToString(k))
  }

  /** _evaluate_complex_rules. */
  function EvalComplex(t: Tree, f: Frame, i: nat): bool
    requires i < |f.close|
    decreases t, 0, |SequenceItems(t)| + 1
  {
    Fold(SequenceResults(t, SequenceItems(t), f, i), KeyedOperators(t))
  }

  /** The rule results and the operator values of the first k entries, in order; groups are skipped. */
  function SimpleParts(es: seq<Entry>, f: Frame, i: nat): (p: (seq<bool>, seq<string>))
    requires i < |f.close|
  {
    if es == [] then ([], [])
    else
      var (rs, ops) := SimpleParts(es[..|es| - 1], f, i);
      match es[|es| - 1]
      case RuleEntry(_, r) => (rs + [EvalRule(r, f, i)], ops)
      case OperatorEntry(_, op) => (rs, ops + [op])
      case _ => (rs, ops)
  }

  /** On the simple path the result at position j pairs with the j-th operator value in entry order. */
  function ListedOperators(ops: seq<string>): nat -> Option<string>
  {
    (k: nat) => if k < |ops| then Some(ops[k]) else None
  }

  /** _evaluate_simple_rules. */
  function EvalSimple(t: Tree, f: Frame, i: nat): bool
    requires i < |f.close|
  {
    var (rs, ops) := SimpleParts(t.entries, f, i);
    Fold(rs, ListedOperators(ops))
  }

  /** The fold loop shared by both paths. */
  method FoldResults(results: seq<bool>, opAt: nat -> Option<string>) returns (acc: bool)
    ensures acc == Fold(results, opAt)
  {
    if |results| == 0 {
      return false;
    }
    acc := results[0];
    var j := 1;
    assert results[..1] == [results[0]];
    while j < |results|
      invariant 1 <= j <= |results|
      invariant acc == Fold(results[..j], opAt)
    {
      assert results[..j + 1][..j] == results[..j];
      acc := Apply(acc, opAt(j - 1), results[j]);
      j := j + 1;
    }
    assert results[..j] == results;
  }

  /** The engine's evaluation of a tree, with the loops of the source. */
  method EvaluateRules(t: Tree, f: Frame, i: nat) returns (b: bool)
    requires i < |f.close|
    ensures b == EvalRules(t, f, i)
    decreases t, 1
  {
    if UsesSequencePath(t) {
      b := EvaluateComplex(t, f, i);
    } else {
      b := EvaluateSimple(t, f, i);
    }
  }

  method EvaluateComplex(t: Tree, f: Frame, i: nat) returns (b: bool)
    requires i < |f.close|
    ensures b == EvalComplex(t, f, i)
    decreases t, 0, 1
  {
    var items := SequenceItems(t);
    var results: seq<bool> := [];
    var k := 0;
    while k < |items|
      invariant 0 <= k <= |items|
      invariant results == SequenceResults(t, items[..k], f, i)
    {
      SequenceResultsStep(t, items, k, f, i);
      var rs := EvaluateItem(t, items[k], f, i);
      results := results + rs;
      k := k + 1;
    }
    assert items[..k] == items;
    b := FoldResults(results, KeyedOperators(t));
  }

  /** The results one sequence item contributes: its rule's or group's value when its key exists. */
  method EvaluateItem(t: Tree, item: SeqItem, f: Frame, i: nat) returns (rs: seq<bool>)
    requires i < |f.close|
    ensures rs == ItemResults(t, item, f, i)
    decreases t, 0, 0
  {
    rs := [];
    if item.kind == Some("rule") {
      var j := FindRule(t.entries, IndexText(item));
      if j.Some? {
        rs := [EvalRule(t.entries[j.value].rule, f, i)];
      }
    } else if item.kind == Some("group") {
      var j := FindGroup(t.entries, IndexText(item));
      if j.Some? {
        var g := EvaluateRules(t.entries[j.value].group, f, i);
        rs := [g];
      }
    }
  }

  method EvaluateSimple(t: Tree, f: Frame, i: nat) returns (b: bool)
    requires i < |f.close|
    ensures b == EvalSimple(t, f, i)
  {
    var results: seq<bool> := [];
    var operators: seq<string> := [];
    var k := 0;
    while k < |t.entries|
      invariant 0 <= k <= |t.entries|
      invariant (results, operators) == SimpleParts(t.entries[..k], f, i)
    {
      assert t.entries[..k + 1][..k] == t.entries[..k];
      match t.entries[k] {
        case RuleEntry(_, r) => results := results + [EvalRule(r, f, i)];
        case OperatorEntry(_, op) => operators := operators + [op];
        case _ =>
      }
      k := k + 1;
    }
    assert t.entries[..k] == t.entries;
    b := FoldResults(results, ListedOperators(operators));
  }
}
