/**
 * Fail-fast structural validation of a strategy's rule trees
 * (validate_strategy, validate_rules, validate_rule).
 *
 * Error functions return the first failure message, or None when the
 * structure passes; the methods walk the tree with the same loops as the
 * engine and are proved to return exactly what the error functions say.
 */
module RuleValidation {
  import opened Util
  import opened RuleTree

  datatype Verdict = Verdict(ok: bool, message: string)

  /** A strategy configuration; a missing key is None. */
  datatype StrategyConfig = StrategyConfig(buyRules: Option<Tree>, sellRules: Option<Tree>)

  const SymbolMessage := "Condition symbol must be one of: <, >, <=, >=, ==, !="

  /** The first missing field of a single rule, in the order the engine checks them. */
  function RuleError(r: Rule): (e: Option<string>)
    ensures e.None? <==>
      && r.indicator.Some? && r.condition.Some?
      && r.indicator.value.name.Some?
      && r.condition.value.value.Some? && r.condition.value.symbol.Some?
      && r.condition.value.symbol.value in Comparators
    ensures r.indicator.None? ==> e == Some("Rule must have an indicator")
    ensures r.indicator.Some? && r.condition.None? ==> e == Some("Rule must have a condition")
  {
    if r.indicator.None? then Some("Rule must have an indicator")
    else if r.condition.None? then Some("Rule must have a condition")
    else if r.indicator.value.name.None? then Some("Indicator must have a name")
    else if r.condition.value.value.None? then Some("Condition must have a value")
    else if r.condition.value.symbol.None? then Some("Condition must have a symbol")
    else if r.condition.value.symbol.value !in Comparators then Some(SymbolMessage)
    else None
  }

  /** validate_rule. */
  function ValidateRule(r: Rule): (v: Verdict)
    ensures v.ok <==> RuleError(r).None?
    ensures !v.ok ==> v.message == RuleError(r).value
  {
    match RuleError(r)
    case None => Verdict(true, "Rule is valid")
    case Some(m) => Verdict(false, m)
  }

  predicate IsAndOr(op: string)
  {
    op == "AND" || op == "OR"
  }

  /** The failure of a tree, if any: the sequence path when "_sequence" is present, else every entry in order. */
  function RulesError(t: Tree): (e: Option<string>)
    ensures (forall j :: 0 <= j < |t.entries| ==> t.entries[j].OtherEntry?) ==> e.None?
    decreases t, 1
  {
    if HasSequence(t) then SeqError(t, SequenceItems(t)) else EntriesError(t, 0)
  }

  /** The first failing item of a sequence, checking the items from the front. */
  function SeqError(t: Tree, items: seq<SeqItem>): (e: Option<string>)
    ensures e.Some? ==> exists j :: 0 <= j < |items| && ItemError(t, items[j]) == e
    decreases t, 0, |items|
  {
    if items == [] then None
    else match ItemError(t, items[0])
      case Some(m) => Some(m)
      case None =>
        var rest := SeqError(t, items[1..]);
        assert forall j :: 0 <= j < |items[1..]| ==> items[1..][j] == items[j + 1];
        rest
  }

  /** The failure of one sequence item: it needs type and index, and the key it references must exist. */
  function ItemError(t: Tree, item: SeqItem): (e: Option<string>)
    ensures item.kind.None? || item.index.None? ==> e == Some("Sequence items must have type and index")
    ensures item.kind.Some? && item.index.Some? && item.kind.value !in {"rule", "group", "operator"} ==> e.None?
    ensures item.kind == Some("rule") && item.index.Some? && FindRule(t.entries, item.index.value).None? ==>
      e == Some("Referenced rule rule" + item.index.value + " not found")
    ensures item.kind == Some("rule") && item.index.Some? && FindRule(t.entries, item.index.value).Some? ==>
      e == RuleError(t.entries[FindRule(t.entries, item.index.value).value].rule)
    ensures item.kind == Some("group") && item.index.Some? && FindGroup(t.entries, item.index.value).None? ==>
      e == Some("Referenced group group" + item.index.value + " not found")
    ensures item.kind == Some("group") && item.index.Some? && FindGroup(t.entries, item.index.value).Some? ==>
      e == RulesError(t.entries[FindGroup(t.entries, item.index.value).value].group)
    ensures item.kind == Some("operator") && item.index.Some? && FindOperator(t.entries, item.index.value).None? ==>
      e == Some("Referenced operator operator" + item.index.value + " not found")
    ensures item.kind == Some("operator") && item.index.Some? && FindOperator(t.entries, item.index.value).Some? ==>
      (e.None? <==> FindOperator(t.entries, item.index.value).value in {"AND", "OR"})
    ensures item.kind == Some("operator") && item.index.Some? && FindOperator(t.entries, item.index.value).Some? && e.Some? ==>
      e == Some("Operator operator" + item.index.value + " must be AND or OR")
    decreases t, 0, 0
  {
    if item.kind.None? || item.index.None? then Some("Sequence items must have type and index")
    else
      var idx := item.index.value;
      if item.kind.value == "rule" then
        match FindRule(t.entries, idx)
        case None => Some("Referenced rule rule" + idx + " not found")
        case Some(j) => RuleError(t.entries[j].rule)
      else if item.kind.value == "group" then
        match FindGroup(t.entries, idx)
        case None => Some("Referenced group group" + idx + " not found")
        case Some(j) => RulesError(t.entries[j].group)
      else if item.kind.value == "operator" then
        match FindOperator(t.entries, idx)
        case None => Some("Referenced operator operator" + idx + " not found")
        case Some(op) => if IsAndOr(op) then None else Some("Operator operator" + idx + " must be AND or OR")
      else None
  }

  /** The first failing entry at position k or later, for a tree without "_sequence". */
  function EntriesError(t: Tree, k: nat): (e: Option<string>)
    ensures e.Some? ==> exists j :: k <= j < |t.entries| && EntryError(t, j) == e
    decreases t, 0, |t.entries| - k
  {
    if k >= |t.entries| then None
    else
      var here := EntryError(t, k);
      if here.Some? then here else EntriesError(t, k + 1)
  }

  /** The failure of the entry at position k on the path without "_sequence". */
  function EntryError(t: Tree, k: nat): Option<string>
    requires k < |t.entries|
    decreases t, 0, 0
  {
    match t.entries[k]
    case RuleEntry(_, r) => RuleError(r)
    case OperatorEntry(s, op) => if IsAndOr(op) then None else Some("Operator operator" + s + " must be AND or OR")
    case GroupEntry(_, g) => RulesError(g)
    case _ => None
  }

  function RulesVerdict(t: Tree): Verdict
  {
    match RulesError(t)
    case None => Verdict(true, "Rules structure is valid")
    case Some(m) => Verdict(false, m)
  }

  /** validate_strategy: at least one side must be truthy; then each present side is validated, buy first. */
  function ValidateStrategy(c: StrategyConfig): (v: Verdict)
    ensures !Truthy(c.buyRules) && !Truthy(c.sellRules) ==>
      v == Verdict(false, "Strategy must have at least buyRules or sellRules")
    ensures v.ok <==>
      && (Truthy(c.buyRules) || Truthy(c.sellRules))
      && (c.buyRules.Some? ==> RulesError(c.buyRules.value).None?)
      && (c.sellRules.Some? ==> RulesError(c.sellRules.value).None?)
    ensures (Truthy(c.buyRules) || Truthy(c.sellRules)) && c.buyRules.Some? && RulesError(c.buyRules.value).Some? ==>
      v.message == "Invalid buy rules: " + RulesError(c.buyRules.value).value
  {
    if !Truthy(c.buyRules) && !Truthy(c.sellRules) then
      Verdict(false, "Strategy must have at least buyRules or sellRules")
    else if c.buyRules.Some? && !RulesVerdict(c.buyRules.value).ok then
      Verdict(false, "Invalid buy rules: " + RulesVerdict(c.buyRules.value).message)
    else if c.sellRules.Some? && !RulesVerdict(c.sellRules.value).ok then
      Verdict(false, "Invalid sell rules: " + RulesVerdict(c.sellRules.value).message)
    else
      Verdict(true, "Strategy structure is valid")
  }

  /** validate_rules: the sequence loop or the entry loop, returning at the first failure. */
  method ValidateRules(t: Tree) returns (v: Verdict)
    ensures v == RulesVerdict(t)
    ensures v.ok <==> RulesError(t).None?
    decreases t
  {
    if HasSequence(t) {
      var items := SequenceItems(t);
      var k := 0;
      while k < |items|
        invariant 0 <= k <= |items|
        invariant SeqError(t, items) == SeqError(t, items[k..])
      {
        assert items[k..][1..] == items[k + 1..];
        var item := items[k];
        assert SeqError(t, items[k..]) == if ItemError(t, item).Some? then ItemError(t, item) else SeqError(t, items[k + 1..]);
        if item.kind.None? || item.index.None? {
          return Verdict(false, "Sequence items must have type and index");
        }
        var idx := item.index.value;
        if item.kind.value == "rule" {
          var j := FindRule(t.entries, idx);
          if j.None? {
            return Verdict(false, "Referenced rule rule" + idx + " not found");
          }
          var rv := ValidateRule(t.entries[j.value].rule);
          if !rv.ok {
            return Verdict(false, rv.message);
          }
        } else if item.kind.value == "group" {
          var j := FindGroup(t.entries, idx);
          if j.None? {
            return Verdict(false, "Referenced group group" + idx + " not found");
          }
          var gv := ValidateRules(t.entries[j.value].group);
          if !gv.ok {
            return Verdict(false, gv.message);
          }
        } else if item.kind.value == "operator" {
          var op := FindOperator(t.entries, idx);
          if op.None? {
            return Verdict(false, "Referenced operator operator" + idx + " not found");
          }
          if !IsAndOr(op.value) {
            return Verdict(false, "Operator operator" + idx + " must be AND or OR");
          }
        }
        k := k + 1;
      }
    } else {
      var k := 0;
      while k < |t.entries|
        invariant 0 <= k <= |t.entries|
        invariant EntriesError(t, 0) == EntriesError(t, k)
      {
        assert EntriesError(t, k) == if EntryError(t, k).Some? then EntryError(t, k) else EntriesError(t, k + 1);
        match t.entries[k] {
          case RuleEntry(_, r) =>
            var rv := ValidateRule(r);
            if !rv.ok {
              return Verdict(false, rv.message);
            }
          case OperatorEntry(s, op) =>
            if !IsAndOr(op) {
              return Verdict(false, "Operator operator" + s + " must be AND or OR");
            }
          case GroupEntry(_, g) =>
            var gv := ValidateRules(g);
            if !gv.ok {
              return Verdict(false, gv.message);
            }
          case _ =>
        }
        k := k + 1;
      }
    }
    return Verdict(true, "Rules structure is valid");
  }
}
