/**
 * The dict-encoded rule tree read by the backtesting strategy engine.
 *
 * A tree is a JSON object whose keys keep their insertion order. Keys are
 * classified by prefix exactly as the engine does with str.startswith:
 * "rule<suffix>", "group<suffix>", "operator<suffix>", the key "_sequence",
 * and every other key. Each value is projected onto the fields the engine
 * reads from it.
 */
module RuleTree {
  import opened Util

  /** A key that the engine classifies as none of rule, group, operator or _sequence. */
  type OtherKey = k: string
    | !StartsWith(k, "rule") && !StartsWith(k, "group") && !StartsWith(k, "operator") && k != "_sequence"
    witness ""

  /** A number as read from a data frame cell or produced by float(): finite, an infinity, or NaN. */
  datatype Float = Finite(x: real) | PosInf | NegInf | NaN

  /** The result of float() applied to a condition value: a number, or a value float() rejects (null, "abc"). */
  datatype CondValue = Numeric(f: Float) | NotNumeric

  datatype Indicator = Indicator(name: Option<string>)
  datatype Condition = Condition(value: Option<CondValue>, symbol: Option<string>)
  datatype Rule = Rule(indicator: Option<Indicator>, condition: Option<Condition>)

  /** An item of "_sequence"; `index` is the text that str() gives for the index value. */
  datatype SeqItem = SeqItem(kind: Option<string>, index: Option<string>)

  datatype Entry =
    | RuleEntry(suffix: string, rule: Rule)
    | GroupEntry(suffix: string, group: Tree)
    | OperatorEntry(suffix: string, op: string)
    | SequenceEntry(items: seq<SeqItem>)
    | OtherEntry(key: OtherKey)

  datatype Tree = Tree(entries: seq<Entry>)

  /** The key under which an entry is stored. */
  function Key(e: Entry): string
  {
    match e
    case RuleEntry(s, _) => "rule" + s
    case GroupEntry(s, _) => "group" + s
    case OperatorEntry(s, _) => "operator" + s
    case SequenceEntry(_) => "_sequence"
    case OtherEntry(k) => k
  }

  /** The six comparison symbols the engine understands. */
  const Comparators: set<string> := {"<", ">", "<=", ">=", "==", "!="}

  predicate HasSequence(t: Tree)
  {
    exists j :: 0 <= j < |t.entries| && t.entries[j].SequenceEntry?
  }

  /** `any(k.startswith("operator") for k in rules)`. */
  predicate HasOperatorKey(t: Tree)
  {
    exists j :: 0 <= j < |t.entries| && t.entries[j].OperatorEntry?
  }

  /** The items of the first "_sequence" entry, or [] when there is none (`rules.get("_sequence", [])`). */
  function SequenceItems(t: Tree): (items: seq<SeqItem>)
    ensures !HasSequence(t) ==> items == []
  {
    FirstSequence(t.entries)
  }

  function FirstSequence(es: seq<Entry>): (items: seq<SeqItem>)
    ensures (forall j :: 0 <= j < |es| ==> !es[j].SequenceEntry?) ==> items == []
  {
    if es == [] then [] else if es[0].SequenceEntry? then es[0].items else FirstSequence(es[1..])
  }

  /** Position of the first rule entry stored under "rule" + suffix. */
  function FindRule(es: seq<Entry>, suffix: string): (r: Option<nat>)
    ensures r.Some? ==> r.value < |es| && es[r.value].RuleEntry? && es[r.value].suffix == suffix
    ensures r.Some? ==> forall j :: 0 <= j < r.value ==> !(es[j].RuleEntry? && es[j].suffix == suffix)
    ensures r.None? <==> forall j :: 0 <= j < |es| ==> !(es[j].RuleEntry? && es[j].suffix == suffix)
  {
    if es == [] then None
    else if es[0].RuleEntry? && es[0].suffix == suffix then Some(0)
    else match FindRule(es[1..], suffix)
      case None => None
      case Some(j) => Some(j + 1)
  }

  /** Position of the first group entry stored under "group" + suffix. */
  function FindGroup(es: seq<Entry>, suffix: string): (r: Option<nat>)
    ensures r.Some? ==> r.value < |es| && es[r.value].GroupEntry? && es[r.value].suffix == suffix
    ensures r.Some? ==> forall j :: 0 <= j < r.value ==> !(es[j].GroupEntry? && es[j].suffix == suffix)
    ensures r.None? <==> forall j :: 0 <= j < |es| ==> !(es[j].GroupEntry? && es[j].suffix == suffix)
  {
    if es == [] then None
    else if es[0].GroupEntry? && es[0].suffix == suffix then Some(0)
    else match FindGroup(es[1..], suffix)
      case None => None
      case Some(j) => Some(j + 1)
  }

  /** The value of the first entry stored under "operator" + suffix, if that key exists. */
  function FindOperator(es: seq<Entry>, suffix: string): (r: Option<string>)
    ensures r.Some? ==> exists j :: FirstOperatorAt(es, suffix, j, r.value)
    ensures r.None? <==> forall j :: 0 <= j < |es| ==> !(es[j].OperatorEntry? && es[j].suffix == suffix)
  {
    if es == [] then None
    else if es[0].OperatorEntry? && es[0].suffix == suffix then
      assert FirstOperatorAt(es, suffix, 0, es[0].op);
      Some(es[0].op)
    else
      var r := FindOperator(es[1..], suffix);
      assert r.Some? ==> exists j :: FirstOperatorAt(es, suffix, j, r.value) by {
        if r.Some? {
          var j :| FirstOperatorAt(es[1..], suffix, j, r.value);
          assert es[j + 1] == OperatorEntry(suffix, r.value);
          forall m | 0 <= m < j + 1
            ensures !(es[m].OperatorEntry? && es[m].suffix == suffix)
          {
            if m > 0 {
              assert es[m] == es[1..][m - 1];
            }
          }
          assert FirstOperatorAt(es, suffix, j + 1, r.value);
        }
      }
      r
  }

  /** Position j holds the first entry stored under "operator" + suffix, and its value is op. */
  predicate FirstOperatorAt(es: seq<Entry>, suffix: string, j: int, op: string)
  {
    0 <= j < |es| && es[j] == OperatorEntry(suffix, op)
    && forall m :: 0 <= m < j ==> !(es[m].OperatorEntry? && es[m].suffix == suffix)
  }

  /** Python truthiness of an optional tree: present and non-empty. */
  predicate Truthy(t: Option<Tree>)
  {
    t.Some? && |t.value.entries| > 0
  }
}
