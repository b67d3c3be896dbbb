/**
 * Synchronisation of the indicator catalogue into the strategy database, as the strategy
 * service (SyncIndicators) and the backtesting service (sync_indicators_to_strategy_db) do it.
 *
 * The three tables are a value handed to the sync and returned by it; the id of a row is its
 * position in its table. Each service reads the rows it needs into a lookup first (indicators
 * once, parameters once per indicator, enum values once per parameter) and then updates or
 * appends rows; a name that occurs twice in a lookup's rows maps to the later row, as a Go map
 * or a Python dict comprehension filled in row order does.
 */
module IndicatorSync {
  import opened Util
  import opened IndicatorCategories

  newtype byte = x: int | 0 <= x < 256

  /** A Go string as len() and slicing see it: its UTF-8 bytes. */
  type Bytes = seq<byte>

  datatype IndicatorRow = IndicatorRow(name: string, description: string, category: string, active: Option<bool>)
  datatype ParamRow<V> = ParamRow(indicator: nat, name: string, ty: string, default: V)
  datatype EnumRow<V> = EnumRow(param: nat, value: V, display: V)
  datatype Db<V> = Db(indicators: seq<IndicatorRow>, params: seq<ParamRow<V>>, enums: seq<EnumRow<V>>)

  // ---- Lookups shared by both services ----

  /** The id the name lookup built from `rows` gives for `name`: its last row. */
  function LastIndicator(rows: seq<IndicatorRow>, name: string): (r: Option<nat>)
    ensures r.Some? ==> r.value < |rows| && rows[r.value].name == name
    ensures r.Some? ==> forall j :: r.value < j < |rows| ==> rows[j].name != name
    ensures r.None? <==> forall j :: 0 <= j < |rows| ==> rows[j].name != name
  {
    if rows == [] then None
    else if rows[|rows| - 1].name == name then Some(|rows| - 1)
    else LastIndicator(rows[..|rows| - 1], name)
  }

  /** The id the parameter lookup of indicator `ind` gives for `name`: its last row. */
  function LastParam<V>(ps: seq<ParamRow<V>>, ind: nat, name: string): (r: Option<nat>)
    ensures r.Some? ==> r.value < |ps| && ps[r.value].indicator == ind && ps[r.value].name == name
    ensures r.None? <==> forall j :: 0 <= j < |ps| ==> !(ps[j].indicator == ind && ps[j].name == name)
  {
    if ps == [] then None
    else if ps[|ps| - 1].indicator == ind && ps[|ps| - 1].name == name then Some(|ps| - 1)
    else LastParam(ps[..|ps| - 1], ind, name)
  }

  /** Parameter `p` already has the enum value `v`. */
  predicate HasEnum<V(==)>(es: seq<EnumRow<V>>, p: nat, v: V)
  {
    exists j :: 0 <= j < |es| && es[j].param == p && es[j].value == v
  }

  /** The enum rows appended for the option texts `values`: those the lookup taken from `snap` does not hold. */
  function EnumInserts<V(==)>(snap: seq<EnumRow<V>>, p: nat, values: seq<V>): seq<EnumRow<V>>
  {
    if values == [] then []
    else
      var v := values[|values| - 1];
      EnumInserts(snap, p, values[..|values| - 1]) + (if HasEnum(snap, p, v) then [] else [EnumRow(p, v, v)])
  }

  /** Every appended row belongs to `p`, shows its own value, and holds an option value that was missing. */
  lemma {:induction false} EnumInsertsOnlyMissing<V>(snap: seq<EnumRow<V>>, p: nat, values: seq<V>)
    ensures forall j :: 0 <= j < |EnumInserts(snap, p, values)| ==>
      var row := EnumInserts(snap, p, values)[j];
      row.param == p && row.display == row.value && row.value in values && !HasEnum(snap, p, row.value)
  {
    if values != [] {
      var pre := values[..|values| - 1];
      EnumInsertsOnlyMissing(snap, p, pre);
      forall v | v in pre
        ensures v in values
      {
        var k :| 0 <= k < |pre| && pre[k] == v;
        assert values[k] == v;
      }
    }
  }

  /** Every option value that was missing gets a row: afterwards the parameter has every option value. */
  lemma {:induction false} EnumInsertsComplete<V>(snap: seq<EnumRow<V>>, p: nat, values: seq<V>)
    ensures forall v :: v in values ==> HasEnum(snap + EnumInserts(snap, p, values), p, v)
  {
    if values != [] {
      var pre := values[..|values| - 1];
      var last := values[|values| - 1];
      EnumInsertsComplete(snap, p, pre);
      var ins := EnumInserts(snap, p, values);
      assert EnumInserts(snap, p, values) == EnumInserts(snap, p, pre) + (if HasEnum(snap, p, last) then [] else [EnumRow(p, last, last)]);
      forall v | v in values
        ensures HasEnum(snap + ins, p, v)
      {
        if v in pre {
          var j :| 0 <= j < |snap + EnumInserts(snap, p, pre)| && (snap + EnumInserts(snap, p, pre))[j].param == p
            && (snap + EnumInserts(snap, p, pre))[j].value == v;
          assert (snap + ins)[j] == (snap + EnumInserts(snap, p, pre))[j];
        } else {
          assert v == last;
          if HasEnum(snap, p, v) {
            var j :| 0 <= j < |snap| && snap[j].param == p && snap[j].value == v;
            assert (snap + ins)[j] == snap[j];
          } else {
            assert (snap + ins)[|snap + ins| - 1] == EnumRow(p, v, v);
          }
        }
      }
    }
  }

  /** The rows of `ps` keep the indicator and name they had in `snap`. */
  predicate SameKeys<V>(snap: seq<ParamRow<V>>, ps: seq<ParamRow<V>>)
  {
    |snap| <= |ps| && forall j :: 0 <= j < |snap| ==> ps[j].indicator == snap[j].indicator && ps[j].name == snap[j].name
  }

  /** Update the row the lookup finds for (ind, name), or append a new one; the id of the written row comes back. */
  function UpsertParam<V>(ps: seq<ParamRow<V>>, snap: seq<ParamRow<V>>, ind: nat, name: string, ty: string, d: V): (r: (seq<ParamRow<V>>, nat))
    requires SameKeys(snap, ps)
    ensures r.1 < |r.0| && r.0[r.1] == ParamRow(ind, name, ty, d)
    ensures |r.0| == |ps| || (|r.0| == |ps| + 1 && r.1 == |ps|)
    ensures forall j :: 0 <= j < |ps| && j != r.1 ==> r.0[j] == ps[j]
    ensures SameKeys(ps, r.0)
  {
    match LastParam(snap, ind, name)
    case Some(id) => (ps[id := ps[id].(ty := ty, default := d)], id)
    case None => (ps + [ParamRow(ind, name, ty, d)], |ps|)
  }

  lemma SameKeysTrans<V>(a: seq<ParamRow<V>>, b: seq<ParamRow<V>>, c: seq<ParamRow<V>>)
    requires SameKeys(a, b) && SameKeys(b, c)
    ensures SameKeys(a, c)
  {
  }

  /** The indicator rows of `rows` keep their position, name and category in `next`; more may follow. */
  predicate KeepsIndicators(rows: seq<IndicatorRow>, next: seq<IndicatorRow>)
  {
    |rows| <= |next| && forall j :: 0 <= j < |rows| ==> next[j].name == rows[j].name && next[j].category == rows[j].category
  }

  // ---- The lookups, built with the loops of the source ----

  /** The name -> id map of the indicator rows. */
  ghost predicate IndexesIndicators(m: map<string, nat>, rows: seq<IndicatorRow>)
  {
    forall n :: (n in m <==> LastIndicator(rows, n).Some?) && (n in m ==> m[n] == LastIndicator(rows, n).value)
  }

  method IndicatorIds(rows: seq<IndicatorRow>) returns (m: map<string, nat>)
    ensures IndexesIndicators(m, rows)
  {
    m := map[];
    var k := 0;
    while k < |rows|
      invariant 0 <= k <= |rows|
      invariant IndexesIndicators(m, rows[..k])
    {
      assert rows[..k + 1][..k] == rows[..k];
      m := m[rows[k].name := k];
      k := k + 1;
    }
    assert rows[..k] == rows;
  }

  /** The parameter name -> id map of indicator `ind`. */
  ghost predicate IndexesParams<V>(m: map<string, nat>, ps: seq<ParamRow<V>>, ind: nat)
  {
    forall n :: (n in m <==> LastParam(ps, ind, n).Some?) && (n in m ==> m[n] == LastParam(ps, ind, n).value)
  }

  method ParamIds<V>(ps: seq<ParamRow<V>>, ind: nat) returns (m: map<string, nat>)
    ensures IndexesParams(m, ps, ind)
  {
    m := map[];
    var k := 0;
    while k < |ps|
      invariant 0 <= k <= |ps|
      invariant IndexesParams(m, ps[..k], ind)
    {
      assert ps[..k + 1][..k] == ps[..k];
      if ps[k].indicator == ind {
        m := m[ps[k].name := k];
      }
      k := k + 1;
    }
    assert ps[..k] == ps;
  }

  /** The set of enum values parameter `p` has. */
  method EnumValues<V(==)>(es: seq<EnumRow<V>>, p: nat) returns (s: set<V>)
    ensures forall v :: v in s <==> HasEnum(es, p, v)
  {
    s := {};
    var k := 0;
    while k < |es|
      invariant 0 <= k <= |es|
      invariant forall v :: v in s <==> HasEnum(es[..k], p, v)
    {
      assert es[..k + 1][..k] == es[..k];
      if es[k].param == p {
        s := s + {es[k].value};
      }
      k := k + 1;
    }
    assert es[..k] == es;
  }

  /** The options loop: each option text the lookup lacks is appended; the lookup is not refreshed inside the loop. */
  method InsertMissingOptions<V(==)>(es: seq<EnumRow<V>>, p: nat, values: seq<V>) returns (r: seq<EnumRow<V>>)
    ensures r == es + EnumInserts(es, p, values)
  {
    var existing := EnumValues(es, p);
    r := es;
    var k := 0;
    while k < |values|
      invariant 0 <= k <= |values|
      invariant r == es + EnumInserts(es, p, values[..k])
    {
      assert values[..k + 1][..k] == values[..k];
      if values[k] !in existing {
        r := r + [EnumRow(p, values[k], values[k])];
      }
      k := k + 1;
    }
    assert values[..k] == values;
  }

  // ---- SyncIndicators (strategy service) ----

  datatype GoParameter = GoParameter(name: string, ty: string, default: Bytes, options: seq<Bytes>)
  datatype GoIndicatorInput = GoIndicatorInput(name: string, description: string, parameters: seq<GoParameter>)

  /** The column width the sync truncates default and enum values to. */
  const MaxValueBytes := 50

  /** `s[:50]` when the text is longer than 50 bytes. */
  function Truncate(b: Bytes): (r: Bytes)
    ensures |r| <= MaxValueBytes
    ensures |b| <= MaxValueBytes ==> r == b
    ensures |b| > MaxValueBytes ==> r == b[..MaxValueBytes]
  {
    if |b| > MaxValueBytes then b[..MaxValueBytes] else b
  }

  function TruncateAll(bs: seq<Bytes>): (r: seq<Bytes>)
    ensures |r| == |bs| && forall k :: 0 <= k < |bs| ==> r[k] == Truncate(bs[k])
  {
    if bs == [] then [] else TruncateAll(bs[..|bs| - 1]) + [Truncate(bs[|bs| - 1])]
  }

  /** A parameter with options is stored as "enum", any other with its declared type. */
  function GoParamType(p: GoParameter): (t: string)
    ensures |p.options| > 0 ==> t == "enum"
    ensures |p.options| == 0 ==> t == p.ty
  {
    if |p.options| > 0 then "enum" else p.ty
  }

  /** Every stored default and enum text fits the 50-byte columns. */
  predicate ShortValues(db: Db<Bytes>)
  {
    && (forall j :: 0 <= j < |db.params| ==> |db.params[j].default| <= MaxValueBytes)
    && (forall j :: 0 <= j < |db.enums| ==> |db.enums[j].value| <= MaxValueBytes && |db.enums[j].display| <= MaxValueBytes)
  }

  /** One parameter of an indicator with id `ind`, against the parameter lookup taken from `snap`. */
  function GoSyncParam(db: Db<Bytes>, ind: nat, snap: seq<ParamRow<Bytes>>, p: GoParameter): (r: Db<Bytes>)
    requires SameKeys(snap, db.params)
    ensures r.indicators == db.indicators
    ensures SameKeys(db.params, r.params)
    ensures ShortValues(db) ==> ShortValues(r)
  {
    var (ps, pid) := UpsertParam(db.params, snap, ind, p.name, GoParamType(p), Truncate(p.default));
    var es := if |p.options| > 0 then db.enums + EnumInserts(db.enums, pid, TruncateAll(p.options)) else db.enums;
    EnumInsertsOnlyMissing(db.enums, pid, TruncateAll(p.options));
    Db(db.indicators, ps, es)
  }

  function GoSyncParams(db: Db<Bytes>, ind: nat, snap: seq<ParamRow<Bytes>>, ps: seq<GoParameter>): (r: Db<Bytes>)
    requires SameKeys(snap, db.params)
    ensures r.indicators == db.indicators
    ensures SameKeys(db.params, r.params)
    ensures ShortValues(db) ==> ShortValues(r)
  {
    if ps == [] then db
    else
      var mid := GoSyncParams(db, ind, snap, ps[..|ps| - 1]);
      SameKeysTrans(snap, db.params, mid.params);
      var r := GoSyncParam(mid, ind, snap, ps[|ps| - 1]);
      SameKeysTrans(db.params, mid.params, r.params);
      r
  }

  /** Update the indicator the lookup finds (description, inactive), or append it with its category, inactive. */
  function GoUpsertIndicator(rows: seq<IndicatorRow>, snap: seq<IndicatorRow>, input: GoIndicatorInput): (r: (seq<IndicatorRow>, nat))
    requires KeepsIndicators(snap, rows)
    ensures r.1 < |r.0| && r.0[r.1].name == input.name
    ensures r.0[r.1].description == input.description && r.0[r.1].active == Some(false)
    ensures r.1 < |snap| || r.1 == |rows|
    ensures r.1 < |snap| ==> r.0[r.1] == rows[r.1].(description := input.description, active := Some(false))
    ensures r.1 >= |snap| ==> r.0[r.1].category == GoCategory(input.name)
    ensures KeepsIndicators(rows, r.0)
    ensures forall j :: 0 <= j < |rows| && j != r.1 ==> r.0[j] == rows[j]
  {
    match LastIndicator(snap, input.name)
    case Some(id) => (rows[id := rows[id].(description := input.description, active := Some(false))], id)
    case None => (rows + [IndicatorRow(input.name, input.description, GoCategory(input.name), Some(false))], |rows|)
  }

  function GoSyncIndicator(db: Db<Bytes>, snap: seq<IndicatorRow>, input: GoIndicatorInput): (r: Db<Bytes>)
    requires KeepsIndicators(snap, db.indicators)
    ensures KeepsIndicators(db.indicators, r.indicators)
    ensures exists j :: 0 <= j < |r.indicators| && r.indicators[j].name == input.name
    ensures ShortValues(db) ==> ShortValues(r)
  {
    var (rows, id) := GoUpsertIndicator(db.indicators, snap, input);
    GoSyncParams(Db(rows, db.params, db.enums), id, db.params, input.parameters)
  }

  /** The whole sync against the indicator lookup taken from `snap`. */
  function GoSyncAll(db: Db<Bytes>, snap: seq<IndicatorRow>, inputs: seq<GoIndicatorInput>): (r: Db<Bytes>)
    requires KeepsIndicators(snap, db.indicators)
    ensures KeepsIndicators(db.indicators, r.indicators)
    ensures ShortValues(db) ==> ShortValues(r)
  {
    if inputs == [] then db
    else
      var mid := GoSyncAll(db, snap, inputs[..|inputs| - 1]);
      GoSyncIndicator(mid, snap, inputs[|inputs| - 1])
  }

  /**
   * How the indicator table moves: rows keep their name and category, a row that changed is
   * one the lookup (the first `base` rows) found and is now inactive, and every appended row
   * carries the category of its name and is inactive.
   */
  predicate GoRowsEvolve(base: nat, rows: seq<IndicatorRow>, next: seq<IndicatorRow>)
  {
    && KeepsIndicators(rows, next)
    && (forall j :: 0 <= j < |rows| && next[j] != rows[j] ==> j < base && next[j].active == Some(false))
    && (forall j :: |rows| <= j < |next| ==> next[j].category == GoCategory(next[j].name) && next[j].active == Some(false))
  }

  lemma GoRowsEvolveTrans(base: nat, a: seq<IndicatorRow>, b: seq<IndicatorRow>, c: seq<IndicatorRow>)
    requires base <= |a|
    requires GoRowsEvolve(base, a, b) && GoRowsEvolve(base, b, c)
    ensures GoRowsEvolve(base, a, c)
  {
    forall j | |a| <= j < |c|
      ensures c[j].category == GoCategory(c[j].name) && c[j].active == Some(false)
    {
      if j < |b| {
        assert c[j] == b[j];
      }
    }
  }

  /**
   * Rows already stored keep their name and category, only rows the lookup found are changed
   * (and are now inactive), and every new row is inactive and categorised by its name.
   */
  lemma {:induction false} GoSyncRowsEvolve(db: Db<Bytes>, snap: seq<IndicatorRow>, inputs: seq<GoIndicatorInput>)
    requires KeepsIndicators(snap, db.indicators)
    ensures GoRowsEvolve(|snap|, db.indicators, GoSyncAll(db, snap, inputs).indicators)
  {
    if inputs != [] {
      var pre := inputs[..|inputs| - 1];
      GoSyncRowsEvolve(db, snap, pre);
      var mid := GoSyncAll(db, snap, pre);
      assert GoSyncAll(db, snap, inputs) == GoSyncIndicator(mid, snap, inputs[|inputs| - 1]);
      GoSyncIndicatorStep(mid, snap, inputs[|inputs| - 1]);
      GoRowsEvolveTrans(|snap|, db.indicators, mid.indicators, GoSyncAll(db, snap, inputs).indicators);
    }
  }

  /** Some row of the indicator table has this name. */
  predicate HasName(rows: seq<IndicatorRow>, name: string)
  {
    exists j :: 0 <= j < |rows| && rows[j].name == name
  }

  lemma HasNameKept(rows: seq<IndicatorRow>, next: seq<IndicatorRow>, name: string)
    requires KeepsIndicators(rows, next) && HasName(rows, name)
    ensures HasName(next, name)
  {
    var j :| 0 <= j < |rows| && rows[j].name == name;
    assert next[j].name == name;
  }

  /** After the sync every input indicator has a row with its name. */
  lemma {:induction false} GoSyncNamesPresent(db: Db<Bytes>, snap: seq<IndicatorRow>, inputs: seq<GoIndicatorInput>)
    requires KeepsIndicators(snap, db.indicators)
    ensures forall k :: 0 <= k < |inputs| ==> HasName(GoSyncAll(db, snap, inputs).indicators, inputs[k].name)
  {
    if inputs != [] {
      var pre := inputs[..|inputs| - 1];
      GoSyncNamesPresent(db, snap, pre);
      var mid := GoSyncAll(db, snap, pre);
      var rows := GoSyncAll(db, snap, inputs).indicators;
      assert GoSyncAll(db, snap, inputs) == GoSyncIndicator(mid, snap, inputs[|inputs| - 1]);
      GoSyncIndicatorStep(mid, snap, inputs[|inputs| - 1]);
      GoNamesCarried(pre, inputs, mid.indicators, rows);
    }
  }

  /** The names present before the last indicator stay present, and the last one's name joins them. */
  lemma GoNamesCarried(pre: seq<GoIndicatorInput>, inputs: seq<GoIndicatorInput>, mid: seq<IndicatorRow>, rows: seq<IndicatorRow>)
    requires |inputs| > 0 && pre == inputs[..|inputs| - 1]
    requires KeepsIndicators(mid, rows)
    requires forall k :: 0 <= k < |pre| ==> HasName(mid, pre[k].name)
    requires HasName(rows, inputs[|inputs| - 1].name)
    ensures forall k :: 0 <= k < |inputs| ==> HasName(rows, inputs[k].name)
  {
    forall k | 0 <= k < |inputs|
      ensures HasName(rows, inputs[k].name)
    {
      if k < |pre| {
        assert inputs[k] == pre[k];
        HasNameKept(mid, rows, pre[k].name);
      }
    }
  }

  /** One indicator of the sync moves the indicator table as GoRowsEvolve says and leaves a row with its name. */
  lemma GoSyncIndicatorStep(db: Db<Bytes>, snap: seq<IndicatorRow>, input: GoIndicatorInput)
    requires KeepsIndicators(snap, db.indicators)
    ensures var rows := GoSyncIndicator(db, snap, input).indicators;
      GoRowsEvolve(|snap|, db.indicators, rows) && HasName(rows, input.name)
  {
    var (rows, id) := GoUpsertIndicator(db.indicators, snap, input);
    assert GoSyncIndicator(db, snap, input).indicators == rows;
    assert rows[id].name == input.name;
  }

  /**
   * After one parameter is synced its row holds the decided type and the truncated default,
   * and, when it has options, every truncated option text is among its enum values.
   */
  lemma GoSyncParamWritten(db: Db<Bytes>, ind: nat, snap: seq<ParamRow<Bytes>>, p: GoParameter)
    requires SameKeys(snap, db.params)
    ensures var r := GoSyncParam(db, ind, snap, p);
      exists pid :: 0 <= pid < |r.params| && r.params[pid] == ParamRow(ind, p.name, GoParamType(p), Truncate(p.default))
        && (|p.options| > 0 ==> forall v :: v in TruncateAll(p.options) ==> HasEnum(r.enums, pid, v))
  {
    var (ps, pid) := UpsertParam(db.params, snap, ind, p.name, GoParamType(p), Truncate(p.default));
    var r := GoSyncParam(db, ind, snap, p);
    assert r.params == ps;
    EnumInsertsComplete(db.enums, pid, TruncateAll(p.options));
    if |p.options| > 0 {
      assert r.enums == db.enums + EnumInserts(db.enums, pid, TruncateAll(p.options));
    }
  }

  /** SyncIndicators, with every database call succeeding: the new tables and syncedCount. */
  method SyncIndicators(db: Db<Bytes>, inputs: seq<GoIndicatorInput>) returns (synced: Db<Bytes>, syncedCount: nat)
    ensures synced == GoSyncAll(db, db.indicators, inputs)
    ensures syncedCount == |inputs|
  {
    var existing := IndicatorIds(db.indicators);
    synced := db;
    syncedCount := 0;
    var k := 0;
    while k < |inputs|
      invariant 0 <= k <= |inputs|
      invariant synced == GoSyncAll(db, db.indicators, inputs[..k])
      invariant syncedCount == k
    {
      GoSyncAllSnoc(db, inputs, k);
      synced := GoSyncOne(synced, db.indicators, existing, inputs[k]);
      syncedCount := syncedCount + 1;
      k := k + 1;
    }
    assert inputs[..k] == inputs;
  }

  /** The sync of the first k + 1 indicators is the sync of the first k followed by indicator k. */
  lemma GoSyncAllSnoc(db: Db<Bytes>, inputs: seq<GoIndicatorInput>, k: nat)
    requires k < |inputs|
    ensures KeepsIndicators(db.indicators, GoSyncAll(db, db.indicators, inputs[..k]).indicators)
    ensures GoSyncAll(db, db.indicators, inputs[..k + 1])
      == GoSyncIndicator(GoSyncAll(db, db.indicators, inputs[..k]), db.indicators, inputs[k])
  {
    assert inputs[..k + 1][..k] == inputs[..k];
  }

  /** The body of the indicator loop. */
  method GoSyncOne(db: Db<Bytes>, snap: seq<IndicatorRow>, existing: map<string, nat>, input: GoIndicatorInput) returns (r: Db<Bytes>)
    requires KeepsIndicators(snap, db.indicators)
    requires IndexesIndicators(existing, snap)
    ensures r == GoSyncIndicator(db, snap, input)
  {
    var rows, id := GoUpsertIndicatorStep(db.indicators, snap, existing, input);
    var paramIds := ParamIds(db.params, id);
    r := GoSyncParamsLoop(Db(rows, db.params, db.enums), id, paramIds, input.parameters);
  }

  /** The parameter loop of one indicator, against the lookup taken when it starts. */
  method GoSyncParamsLoop(start: Db<Bytes>, ind: nat, paramIds: map<string, nat>, ps: seq<GoParameter>) returns (r: Db<Bytes>)
    requires IndexesParams(paramIds, start.params, ind)
    ensures r == GoSyncParams(start, ind, start.params, ps)
  {
    r := start;
    var k := 0;
    while k < |ps|
      invariant 0 <= k <= |ps|
      invariant r == GoSyncParams(start, ind, start.params, ps[..k])
    {
      assert ps[..k + 1][..k] == ps[..k];
      r := GoSyncParamStep(r, ind, start.params, paramIds, ps[k]);
      k := k + 1;
    }
    assert ps[..k] == ps;
  }

  /** The update-or-insert of one indicator row. */
  method GoUpsertIndicatorStep(rows: seq<IndicatorRow>, snap: seq<IndicatorRow>, existing: map<string, nat>, input: GoIndicatorInput)
    returns (next: seq<IndicatorRow>, id: nat)
    requires KeepsIndicators(snap, rows)
    requires IndexesIndicators(existing, snap)
    ensures (next, id) == GoUpsertIndicator(rows, snap, input)
  {
    if input.name in existing {
      id := existing[input.name];
      next := rows[id := rows[id].(description := input.description, active := Some(false))];
    } else {
      id := |rows|;
      next := rows + [IndicatorRow(input.name, input.description, GoCategory(input.name), Some(false))];
    }
  }

  /** The body of the parameter loop, with its options loop. */
  method GoSyncParamStep(db: Db<Bytes>, ind: nat, snap: seq<ParamRow<Bytes>>, paramIds: map<string, nat>, p: GoParameter)
    returns (r: Db<Bytes>)
    requires SameKeys(snap, db.params)
    requires IndexesParams(paramIds, snap, ind)
    ensures r == GoSyncParam(db, ind, snap, p)
  {
    var ty := p.ty;
    var d := p.default;
    if |d| > MaxValueBytes {
      d := d[..MaxValueBytes];
    }
    var hasOptions := |p.options| > 0;
    if hasOptions {
      ty := "enum";
    }
    var ps := db.params;
    var pid: nat;
    if p.name in paramIds {
      pid := paramIds[p.name];
      ps := ps[pid := ps[pid].(ty := ty, default := d)];
    } else {
      pid := |ps|;
      ps := ps + [ParamRow(ind, p.name, ty, d)];
    }
    assert (ps, pid) == UpsertParam(db.params, snap, ind, p.name, GoParamType(p), Truncate(p.default));
    var es := db.enums;
    if hasOptions {
      var values: seq<Bytes> := [];
      var k := 0;
      while k < |p.options|
        invariant 0 <= k <= |p.options|
        invariant values == TruncateAll(p.options[..k])
      {
        assert p.options[..k + 1][..k] == p.options[..k];
        var option := p.options[k];
        if |option| > MaxValueBytes {
          option := option[..MaxValueBytes];
        }
        values := values + [option];
        k := k + 1;
      }
      assert p.options[..k] == p.options;
      es := InsertMissingOptions(db.enums, pid, values);
    }
    r := Db(db.indicators, ps, es);
  }

  // ---- sync_indicators_to_strategy_db (backtesting service) ----

  /** A parameter dict; a missing key is None. */
  datatype PyParameter = PyParameter(name: Option<string>, ty: Option<string>, default: Option<string>, options: Option<seq<string>>)

  /** An indicator dict; option values are given by their str() texts. */
  datatype PyIndicatorInput = PyIndicatorInput(name: Option<string>, description: Option<string>, parameters: Option<seq<PyParameter>>)

  /** The outcome dict: success with the count, or the error text after the rollback. */
  datatype SyncStatus = Success(indicatorsSynced: nat) | Failure(message: string)

  function PyParameters(input: PyIndicatorInput): seq<PyParameter>
  {
    if input.parameters.Some? then input.parameters.value else []
  }

  predicate PyHasOptions(p: PyParameter)
  {
    p.options.Some? && |p.options.value| > 0
  }

  /** A parameter with options is stored as 'enum'; otherwise its type, 'string' when it has none. */
  function PyParamType(p: PyParameter): (t: string)
    ensures PyHasOptions(p) ==> t == "enum"
    ensures !PyHasOptions(p) && p.ty.None? ==> t == "string"
    ensures !PyHasOptions(p) && p.ty.Some? ==> t == p.ty.value
  {
    if PyHasOptions(p) then "enum" else if p.ty.Some? then p.ty.value else "string"
  }

  /** The stored default: '' when the parameter has none. */
  function PyDefault(p: PyParameter): string
  {
    if p.default.Some? then p.default.value else ""
  }

  /** Every parameter has a name. */
  predicate PyParamsNamed(ps: seq<PyParameter>)
  {
    forall k :: 0 <= k < |ps| ==> ps[k].name.Some?
  }

  /** The KeyError one indicator raises, by the text str() gives it: its name, its description, then a parameter's name. */
  function PyItemError(input: PyIndicatorInput): Option<string>
  {
    if input.name.None? then Some("'name'")
    else if input.description.None? then Some("'description'")
    else if !PyParamsNamed(PyParameters(input)) then Some("'name'")
    else None
  }

  /** The first KeyError of the input list, if any. */
  function PyInputError(inputs: seq<PyIndicatorInput>): Option<string>
  {
    if inputs == [] then None
    else
      var e := PyInputError(inputs[..|inputs| - 1]);
      if e.Some? then e else PyItemError(inputs[|inputs| - 1])
  }

  /** Every indicator of the list has a name, a description and named parameters. */
  predicate PyWellKeyed(inputs: seq<PyIndicatorInput>)
  {
    forall k :: 0 <= k < |inputs| ==> PyItemError(inputs[k]).None?
  }

  /** The sync raises exactly when some indicator lacks a key it reads. */
  lemma {:induction false} PyInputErrorMeaning(inputs: seq<PyIndicatorInput>)
    ensures PyInputError(inputs).None? <==> PyWellKeyed(inputs)
  {
    if inputs != [] {
      var pre := inputs[..|inputs| - 1];
      PyInputErrorMeaning(pre);
      assert forall k :: 0 <= k < |pre| ==> pre[k] == inputs[k];
    }
  }

  /** A KeyError in a prefix of the list is the one the whole list raises. */
  lemma {:induction false} PyInputErrorPrefix(inputs: seq<PyIndicatorInput>, j: nat)
    requires j <= |inputs|
    requires PyInputError(inputs[..j]).Some?
    ensures PyInputError(inputs) == PyInputError(inputs[..j])
    decreases |inputs| - j
  {
    if j < |inputs| {
      assert inputs[..j + 1][..j] == inputs[..j];
      PyInputErrorPrefix(inputs, j + 1);
    } else {
      assert inputs[..j] == inputs;
    }
  }

  function PySyncParam(db: Db<string>, ind: nat, snap: seq<ParamRow<string>>, p: PyParameter): (r: Db<string>)
    requires p.name.Some?
    requires SameKeys(snap, db.params)
    ensures r.indicators == db.indicators
    ensures SameKeys(db.params, r.params)
  {
    var (ps, pid) := UpsertParam(db.params, snap, ind, p.name.value, PyParamType(p), PyDefault(p));
    var es := if PyHasOptions(p) then db.enums + EnumInserts(db.enums, pid, p.options.value) else db.enums;
    Db(db.indicators, ps, es)
  }

  function PySyncParams(db: Db<string>, ind: nat, snap: seq<ParamRow<string>>, ps: seq<PyParameter>): (r: Db<string>)
    requires PyParamsNamed(ps)
    requires SameKeys(snap, db.params)
    ensures r.indicators == db.indicators
    ensures SameKeys(db.params, r.params)
  {
    if ps == [] then db
    else
      var mid := PySyncParams(db, ind, snap, ps[..|ps| - 1]);
      SameKeysTrans(snap, db.params, mid.params);
      var r := PySyncParam(mid, ind, snap, ps[|ps| - 1]);
      SameKeysTrans(db.params, mid.params, r.params);
      r
  }

  /** Update the description of the indicator the lookup finds, or append it with its category; activity is not written. */
  function PyUpsertIndicator(rows: seq<IndicatorRow>, snap: seq<IndicatorRow>, name: string, description: string): (r: (seq<IndicatorRow>, nat))
    requires KeepsIndicators(snap, rows)
    ensures r.1 < |r.0| && r.0[r.1].name == name && r.0[r.1].description == description
    ensures r.1 < |snap| || r.1 == |rows|
    ensures r.1 < |snap| ==> r.0[r.1] == rows[r.1].(description := description)
    ensures r.1 >= |snap| ==> r.0[r.1] == IndicatorRow(name, description, PythonCategory(name), None)
    ensures KeepsIndicators(rows, r.0)
    ensures forall j :: 0 <= j < |rows| && j != r.1 ==> r.0[j] == rows[j]
  {
    match LastIndicator(snap, name)
    case Some(id) => (rows[id := rows[id].(description := description)], id)
    case None => (rows + [IndicatorRow(name, description, PythonCategory(name), None)], |rows|)
  }

  function PySyncIndicator(db: Db<string>, snap: seq<IndicatorRow>, input: PyIndicatorInput): (r: Db<string>)
    requires PyItemError(input).None?
    requires KeepsIndicators(snap, db.indicators)
    ensures KeepsIndicators(db.indicators, r.indicators)
  {
    var (rows, id) := PyUpsertIndicator(db.indicators, snap, input.name.value, input.description.value);
    PySyncParams(Db(rows, db.params, db.enums), id, db.params, PyParameters(input))
  }

  function PySyncAll(db: Db<string>, snap: seq<IndicatorRow>, inputs: seq<PyIndicatorInput>): (r: Db<string>)
    requires PyInputError(inputs).None?
    requires KeepsIndicators(snap, db.indicators)
    ensures KeepsIndicators(db.indicators, r.indicators)
  {
    if inputs == [] then db
    else
      var mid := PySyncAll(db, snap, inputs[..|inputs| - 1]);
      PySyncIndicator(mid, snap, inputs[|inputs| - 1])
  }

  /** The tables after the commit or the rollback, and the status returned. */
  function PySync(db: Db<string>, inputs: seq<PyIndicatorInput>): (r: (Db<string>, SyncStatus))
    ensures r.1.Failure? ==> r.0 == db
    ensures r.1.Success? ==> r.1.indicatorsSynced == |inputs| && PyInputError(inputs).None? && r.0 == PySyncAll(db, db.indicators, inputs)
  {
    match PyInputError(inputs)
    case Some(m) => (db, Failure(m))
    case None => (PySyncAll(db, db.indicators, inputs), Success(|inputs|))
  }

  /** The sync succeeds exactly on well-keyed input, counting every indicator; a failure leaves the tables as they were. */
  lemma PySyncOutcome(db: Db<string>, inputs: seq<PyIndicatorInput>)
    ensures PySync(db, inputs).1.Success? <==> PyWellKeyed(inputs)
    ensures PySync(db, inputs).1.Success? ==> PySync(db, inputs).1.indicatorsSynced == |inputs|
    ensures PySync(db, inputs).1.Failure? ==>
      PySync(db, inputs).0 == db && PySync(db, inputs).1.message in {"'name'", "'description'"}
  {
    PyInputErrorMeaning(inputs);
    if PyInputError(inputs).Some? {
      PyInputErrorIsKeyName(inputs);
    }
  }

  lemma {:induction false} PyInputErrorIsKeyName(inputs: seq<PyIndicatorInput>)
    ensures PyInputError(inputs).Some? ==> PyInputError(inputs).value in {"'name'", "'description'"}
  {
    if inputs != [] {
      PyInputErrorIsKeyName(inputs[..|inputs| - 1]);
    }
  }

  /**
   * How the indicator table moves in the backtesting service's sync: a changed row is one the
   * lookup found and only its description differs; an appended row has the category of its
   * name and no activity written.
   */
  predicate PyRowsEvolve(base: nat, rows: seq<IndicatorRow>, next: seq<IndicatorRow>)
  {
    && KeepsIndicators(rows, next)
    && (forall j :: 0 <= j < |rows| && next[j] != rows[j] ==> j < base && next[j] == rows[j].(description := next[j].description))
    && (forall j :: |rows| <= j < |next| ==> next[j].category == PythonCategory(next[j].name) && next[j].active.None?)
  }

  lemma PyRowsEvolveTrans(base: nat, a: seq<IndicatorRow>, b: seq<IndicatorRow>, c: seq<IndicatorRow>)
    requires base <= |a|
    requires PyRowsEvolve(base, a, b) && PyRowsEvolve(base, b, c)
    ensures PyRowsEvolve(base, a, c)
  {
    forall j | |a| <= j < |c|
      ensures c[j].category == PythonCategory(c[j].name) && c[j].active.None?
    {
      if j < |b| {
        assert c[j] == b[j];
      }
    }
  }

  lemma PySyncIndicatorStep(db: Db<string>, snap: seq<IndicatorRow>, input: PyIndicatorInput)
    requires PyItemError(input).None?
    requires KeepsIndicators(snap, db.indicators)
    ensures var rows := PySyncIndicator(db, snap, input).indicators;
      PyRowsEvolve(|snap|, db.indicators, rows) && HasName(rows, input.name.value)
  {
    var (rows, id) := PyUpsertIndicator(db.indicators, snap, input.name.value, input.description.value);
    assert PySyncIndicator(db, snap, input).indicators == rows;
    assert rows[id].name == input.name.value;
  }

  /** Rows already stored keep name, category and activity; only descriptions of found rows change; new rows are categorised. */
  lemma {:induction false} PySyncRowsEvolve(db: Db<string>, snap: seq<IndicatorRow>, inputs: seq<PyIndicatorInput>)
    requires PyInputError(inputs).None?
    requires KeepsIndicators(snap, db.indicators)
    ensures PyRowsEvolve(|snap|, db.indicators, PySyncAll(db, snap, inputs).indicators)
  {
    if inputs != [] {
      var pre := inputs[..|inputs| - 1];
      PySyncRowsEvolve(db, snap, pre);
      var mid := PySyncAll(db, snap, pre);
      assert PySyncAll(db, snap, inputs) == PySyncIndicator(mid, snap, inputs[|inputs| - 1]);
      PySyncIndicatorStep(mid, snap, inputs[|inputs| - 1]);
      PyRowsEvolveTrans(|snap|, db.indicators, mid.indicators, PySyncAll(db, snap, inputs).indicators);
    }
  }

  /** After a successful sync every input indicator has a row with its name. */
  lemma {:induction false} PySyncNamesPresent(db: Db<string>, snap: seq<IndicatorRow>, inputs: seq<PyIndicatorInput>)
    requires PyInputError(inputs).None?
    requires KeepsIndicators(snap, db.indicators)
    ensures PyWellKeyed(inputs)
    ensures forall k :: 0 <= k < |inputs| ==> HasName(PySyncAll(db, snap, inputs).indicators, inputs[k].name.value)
  {
    PyInputErrorMeaning(inputs);
    if inputs != [] {
      var pre := inputs[..|inputs| - 1];
      var last := inputs[|inputs| - 1];
      PySyncAllLast(db, snap, inputs);
      PySyncNamesPresent(db, snap, pre);
      var mid := PySyncAll(db, snap, pre);
      PySyncIndicatorStep(mid, snap, last);
      PyNamesCarried(pre, last, inputs, mid.indicators, PySyncAll(db, snap, inputs).indicators);
    }
  }

  /** A sync that raises nothing is the sync of all but the last indicator followed by the last one. */
  lemma PySyncAllLast(db: Db<string>, snap: seq<IndicatorRow>, inputs: seq<PyIndicatorInput>)
    requires inputs != [] && PyInputError(inputs).None?
    requires KeepsIndicators(snap, db.indicators)
    ensures PyInputError(inputs[..|inputs| - 1]).None? && PyItemError(inputs[|inputs| - 1]).None?
    ensures PySyncAll(db, snap, inputs)
      == PySyncIndicator(PySyncAll(db, snap, inputs[..|inputs| - 1]), snap, inputs[|inputs| - 1])
  {
    var pre := inputs[..|inputs| - 1];
    var e := PyInputError(pre);
    assert PyInputError(inputs) == if e.Some? then e else PyItemError(inputs[|inputs| - 1]);
  }

  /** The names present before the last indicator stay present, and the last one's name joins them. */
  lemma PyNamesCarried(pre: seq<PyIndicatorInput>, last: PyIndicatorInput, inputs: seq<PyIndicatorInput>,
                       mid: seq<IndicatorRow>, rows: seq<IndicatorRow>)
    requires |inputs| > 0 && pre == inputs[..|inputs| - 1] && last == inputs[|inputs| - 1] && PyWellKeyed(inputs)
    requires KeepsIndicators(mid, rows)
    requires forall k :: 0 <= k < |pre| ==> HasName(mid, pre[k].name.value)
    requires HasName(rows, last.name.value)
    ensures forall k :: 0 <= k < |inputs| ==> HasName(rows, inputs[k].name.value)
  {
    forall k | 0 <= k < |inputs|
      ensures HasName(rows, inputs[k].name.value)
    {
      if k < |pre| {
        assert inputs[k] == pre[k];
        HasNameKept(mid, rows, pre[k].name.value);
      }
    }
  }

  /** After one parameter is synced its row holds the decided type and default, and it has every option text as an enum value. */
  lemma PySyncParamWritten(db: Db<string>, ind: nat, snap: seq<ParamRow<string>>, p: PyParameter)
    requires p.name.Some?
    requires SameKeys(snap, db.params)
    ensures var r := PySyncParam(db, ind, snap, p);
      exists pid :: 0 <= pid < |r.params| && r.params[pid] == ParamRow(ind, p.name.value, PyParamType(p), PyDefault(p))
        && (PyHasOptions(p) ==> forall v :: v in p.options.value ==> HasEnum(r.enums, pid, v))
  {
    var (ps, pid) := UpsertParam(db.params, snap, ind, p.name.value, PyParamType(p), PyDefault(p));
    var r := PySyncParam(db, ind, snap, p);
    assert r.params == ps;
    if PyHasOptions(p) {
      EnumInsertsComplete(db.enums, pid, p.options.value);
      assert r.enums == db.enums + EnumInserts(db.enums, pid, p.options.value);
    }
  }

  /** The options lookup is not refreshed inside the loop: an option listed twice is inserted twice. */
  lemma ScenarioRepeatedOption()
    ensures EnumInserts([], 7, ["sma", "sma"]) == [EnumRow(7, "sma", "sma"), EnumRow(7, "sma", "sma")]
  {
    var vs := ["sma", "sma"];
    assert vs[..1] == ["sma"];
    assert [] + [EnumRow(7, "sma", "sma")] == [EnumRow(7, "sma", "sma")];
  }

  /** An option already stored for the parameter is not inserted again. */
  lemma ScenarioStoredOption()
    ensures EnumInserts([EnumRow(7, "ema", "ema")], 7, ["ema", "sma"]) == [EnumRow(7, "sma", "sma")]
  {
    var snap := [EnumRow(7, "ema", "ema")];
    var vs := ["ema", "sma"];
    assert vs[..1] == ["ema"];
    assert snap[0].param == 7 && snap[0].value == "ema";
    assert !HasEnum(snap, 7, "sma") by {
      assert snap[0].value != "sma";
    }
  }

  /** sync_indicators_to_strategy_db with every database call succeeding; a KeyError rolls back. */
  method PySyncIndicators(db: Db<string>, inputs: seq<PyIndicatorInput>) returns (out: Db<string>, status: SyncStatus)
    ensures (out, status) == PySync(db, inputs)
  {
    var existing := IndicatorIds(db.indicators);
    var cur := db;
    var syncCount := 0;
    var k := 0;
    while k < |inputs|
      invariant 0 <= k <= |inputs|
      invariant PyInputError(inputs[..k]).None?
      invariant cur == PySyncAll(db, db.indicators, inputs[..k])
      invariant syncCount == k
    {
      var next, error := PySyncOne(cur, db.indicators, existing, inputs[k]);
      PySyncAllSnoc(db, inputs, k);
      if error.Some? {
        PyInputErrorPrefix(inputs, k + 1);
        return db, Failure(error.value);
      }
      cur := next;
      syncCount := syncCount + 1;
      k := k + 1;
    }
    assert inputs[..k] == inputs;
    return cur, Success(syncCount);
  }

  /** The first k + 1 indicators fail as indicator k does, and otherwise sync as the first k followed by indicator k. */
  lemma PySyncAllSnoc(db: Db<string>, inputs: seq<PyIndicatorInput>, k: nat)
    requires k < |inputs| && PyInputError(inputs[..k]).None?
    ensures KeepsIndicators(db.indicators, PySyncAll(db, db.indicators, inputs[..k]).indicators)
    ensures PyInputError(inputs[..k + 1]) == PyItemError(inputs[k])
    ensures PyItemError(inputs[k]).None? ==>
      PySyncAll(db, db.indicators, inputs[..k + 1])
        == PySyncIndicator(PySyncAll(db, db.indicators, inputs[..k]), db.indicators, inputs[k])
  {
    assert inputs[..k + 1][..k] == inputs[..k];
  }

  /** The body of the indicator loop: the KeyError the indicator raises, or the tables after it. */
  method PySyncOne(cur: Db<string>, snap: seq<IndicatorRow>, existing: map<string, nat>, input: PyIndicatorInput)
    returns (next: Db<string>, error: Option<string>)
    requires KeepsIndicators(snap, cur.indicators)
    requires IndexesIndicators(existing, snap)
    ensures error == PyItemError(input)
    ensures error.None? ==> next == PySyncIndicator(cur, snap, input)
  {
    if input.name.None? {
      return cur, Some("'name'");
    }
    if input.description.None? {
      return cur, Some("'description'");
    }
    var rows, id := PyUpsertIndicatorStep(cur.indicators, snap, existing, input.name.value, input.description.value);
    var paramIds := ParamIds(cur.params, id);
    var ok;
    next, ok := PySyncParamsLoop(Db(rows, cur.params, cur.enums), id, paramIds, PyParameters(input));
    error := if ok then None else Some("'name'");
  }

  method PyUpsertIndicatorStep(rows: seq<IndicatorRow>, snap: seq<IndicatorRow>, existing: map<string, nat>, name: string, description: string)
    returns (next: seq<IndicatorRow>, id: nat)
    requires KeepsIndicators(snap, rows)
    requires IndexesIndicators(existing, snap)
    ensures (next, id) == PyUpsertIndicator(rows, snap, name, description)
  {
    if name in existing {
      id := existing[name];
      next := rows[id := rows[id].(description := description)];
    } else {
      id := |rows|;
      next := rows + [IndicatorRow(name, description, PythonCategory(name), None)];
    }
  }

  /** The parameter loop of one indicator; `ok` is false when a parameter has no name (the KeyError). */
  method PySyncParamsLoop(start: Db<string>, ind: nat, paramIds: map<string, nat>, ps: seq<PyParameter>) returns (r: Db<string>, ok: bool)
    requires IndexesParams(paramIds, start.params, ind)
    ensures ok <==> PyParamsNamed(ps)
    ensures ok ==> r == PySyncParams(start, ind, start.params, ps)
  {
    r := start;
    var k := 0;
    while k < |ps|
      invariant 0 <= k <= |ps|
      invariant PyParamsNamed(ps[..k])
      invariant r == PySyncParams(start, ind, start.params, ps[..k])
    {
      assert ps[..k + 1][..k] == ps[..k];
      if ps[k].name.None? {
        assert !PyParamsNamed(ps) by {
          assert !ps[k].name.Some?;
        }
        return r, false;
      }
      var named := ps[..k + 1];
      assert PyParamsNamed(named) by {
        forall j | 0 <= j < |named|
          ensures named[j].name.Some?
        {
          if j < k {
            assert named[j] == ps[..k][j];
          }
        }
      }
      r := PySyncParamStep(r, ind, start.params, paramIds, ps[k]);
      k := k + 1;
    }
    assert ps[..k] == ps;
    ok := true;
  }

  method PySyncParamStep(db: Db<string>, ind: nat, snap: seq<ParamRow<string>>, paramIds: map<string, nat>, p: PyParameter)
    returns (r: Db<string>)
    requires p.name.Some?
    requires SameKeys(snap, db.params)
    requires IndexesParams(paramIds, snap, ind)
    ensures r == PySyncParam(db, ind, snap, p)
  {
    var name := p.name.value;
    var ty := if p.ty.Some? then p.ty.value else "string";
    var d := if p.default.Some? then p.default.value else "";
    var hasOptions := p.options.Some? && |p.options.value| > 0;
    if hasOptions {
      ty := "enum";
    }
    var ps := db.params;
    var pid: nat;
    if name in paramIds {
      pid := paramIds[name];
      ps := ps[pid := ps[pid].(ty := ty, default := d)];
    } else {
      pid := |ps|;
      ps := ps + [ParamRow(ind, name, ty, d)];
    }
    assert (ps, pid) == UpsertParam(db.params, snap, ind, name, PyParamType(p), PyDefault(p));
    var es := db.enums;
    if hasOptions {
      es := InsertMissingOptions(db.enums, pid, p.options.value);
    }
    r := Db(db.indicators, ps, es);
  }
}
