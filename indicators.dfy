/**
 * The indicator catalog of the backtesting service: alias resolution, catalog
 * initialisation, the parameter merge that precedes an indicator call, and the
 * column names under which results are stored.
 *
 * Discovery (TA-Lib and pandas-ta introspection) and the indicator computations are
 * library calls: discovery results and computation outputs are inputs here.
 */
module Indicators {
  import opened Util
  import opened PyValues

  /** A declared parameter of a catalog entry. */
  datatype ParamDecl = ParamDecl(name: string, ty: string, default: Value)

  datatype Library = Talib | PandasTa

  datatype IndicatorInfo = IndicatorInfo(name: string, source: Library, parameters: seq<ParamDecl>)

  /**
   * An argument passed to the indicator function: the integer int() gives, float() of a
   * value float() accepts, a flag, or the value unconverted.
   */
  datatype Arg = IntArg(i: int) | FloatOf(v: Value) | BoolArg(b: bool) | AsIs(v: Value)

  /** INDICATOR_MAPPING: display names to canonical catalog names. */
  const Aliases: map<string, string> := map[
    "RSI" := "RSI",
    "Moving Average" := "SMA",
    "SMA" := "SMA",
    "EMA" := "EMA",
    "MACD" := "MACD",
    "Bollinger Bands" := "BBANDS",
    "Stochastic" := "STOCH",
    "Average True Range" := "ATR",
    "Commodity Channel Index" := "CCI",
    "Relative Strength Index" := "RSI"
  ]

  /** get_indicator's lookup: the exact name first, then the alias if its target is in the catalog. */
  function Resolve(catalog: map<string, IndicatorInfo>, name: string): (r: Option<IndicatorInfo>)
    ensures name in catalog ==> r == Some(catalog[name])
    ensures r.Some? ==> (name in catalog && r.value == catalog[name])
                        || (name !in catalog && name in Aliases && Aliases[name] in catalog && r.value == catalog[Aliases[name]])
    ensures r.None? <==> name !in catalog && (name !in Aliases || Aliases[name] !in catalog)
  {
    if name in catalog then Some(catalog[name])
    else if name in Aliases && Aliases[name] in catalog then Some(catalog[Aliases[name]])
    else None
  }

  /** Every alias target that is itself an alias maps to itself, so resolving twice changes nothing. */
  lemma AliasesIdempotent()
    ensures forall n :: n in Aliases && Aliases[n] in Aliases ==> Aliases[Aliases[n]] == Aliases[n]
  {
  }

  /** Resolution never invents an entry: a result is the catalog's entry for the name or its alias. */
  lemma ResolveComesFromCatalog(catalog: map<string, IndicatorInfo>, name: string)
    requires Resolve(catalog, name).Some?
    ensures Resolve(catalog, name).value in catalog.Values
  {
    var r := Resolve(catalog, name).value;
    if name in catalog {
      assert catalog[name] == r;
    } else {
      assert catalog[Aliases[name]] == r;
    }
  }

  /** The display names of the front end reach the canonical entries. */
  lemma ScenarioAliases(catalog: map<string, IndicatorInfo>)
    requires "Moving Average" !in catalog && "Stochastic" !in catalog
    requires "SMA" in catalog && "STOCH" in catalog
    ensures Resolve(catalog, "Moving Average") == Some(catalog["SMA"])
    ensures Resolve(catalog, "Stochastic") == Some(catalog["STOCH"])
    ensures Resolve(catalog, "Relative Strength Index") == Resolve(catalog, "RSI") || "Relative Strength Index" in catalog
  {
  }

  /** initialize_indicators: discovery fills the catalog only when it is empty. */
  function Initialized(catalog: map<string, IndicatorInfo>, discovered: map<string, IndicatorInfo>): map<string, IndicatorInfo>
  {
    if |catalog| == 0 then discovered else catalog
  }

  /** Once discovery has found something, initialising again changes nothing, whatever a later discovery would find. */
  lemma InitializeIdempotent(catalog: map<string, IndicatorInfo>, d1: map<string, IndicatorInfo>, d2: map<string, IndicatorInfo>)
    requires |Initialized(catalog, d1)| > 0
    ensures Initialized(Initialized(catalog, d1), d2) == Initialized(catalog, d1)
    ensures |catalog| > 0 ==> Initialized(catalog, d1) == catalog
  {
  }

  /** An empty discovery leaves the catalog empty, so the next call discovers again. */
  lemma EmptyDiscoveryRetries(d2: map<string, IndicatorInfo>)
    ensures Initialized(Initialized(map[], map[]), d2) == d2
  {
  }

  /** The global INDICATORS dictionary. */
  class Registry {
    var catalog: map<string, IndicatorInfo>

    constructor()
      ensures catalog == map[]
    {
      catalog := map[];
    }

    /** initialize_indicators, with the discovery result supplied. */
    method Initialize(discovered: map<string, IndicatorInfo>)
      modifies this
      ensures catalog == Initialized(old(catalog), discovered)
    {
      if |catalog| == 0 {
        catalog := discovered;
      }
    }

    /** get_indicator: initialise, then resolve. */
    method GetIndicator(name: string, discovered: map<string, IndicatorInfo>) returns (r: Option<IndicatorInfo>)
      modifies this
      ensures catalog == Initialized(old(catalog), discovered)
      ensures r == Resolve(catalog, name)
    {
      Initialize(discovered);
      if name in catalog {
        return Some(catalog[name]);
      }
      if name in Aliases && Aliases[name] in catalog {
        return Some(catalog[Aliases[name]]);
      }
      return None;
    }
  }

  // ---- Parameter merge ----

  /** The argument built from a value the caller supplied; None when int() or float() raises. */
  function UserArg(ty: string, v: Value): (a: Option<Arg>)
    ensures ty == "int" ==> (a.Some? <==> IntConv(v).Some?) && (a.Some? ==> a.value == IntArg(IntConv(v).value))
    ensures ty == "float" ==> (a.Some? <==> FloatAccepts(v)) && (a.Some? ==> a.value == FloatOf(v))
    ensures ty == "bool" ==> a == Some(BoolArg(Truthy(v)))
    ensures ty != "int" && ty != "float" && ty != "bool" ==> a == Some(AsIs(v))
  {
    if ty == "int" then
      match IntConv(v)
      case None => None
      case Some(n) => Some(IntArg(n))
    else if ty == "float" then (if FloatAccepts(v) then Some(FloatOf(v)) else None)
    else if ty == "bool" then Some(BoolArg(Truthy(v)))
    else Some(AsIs(v))
  }

  /**
   * The argument built from a truthy default: converted like a supplied value, except that a
   * "bool" default is compared with "true" after .lower(), which only text has (AttributeError).
   */
  function DefaultArg(ty: string, d: Value): (a: Option<Arg>)
    ensures ty == "bool" && d.Text? ==> a == Some(BoolArg(Lower(d.s) == "true"))
    ensures ty == "bool" && !d.Text? ==> a.None?
    ensures ty != "bool" ==> a == UserArg(ty, d)
  {
    if ty == "bool" then (if d.Text? then Some(BoolArg(Lower(d.s) == "true")) else None)
    else UserArg(ty, d)
  }

  /** Handling the declaration d raises: its supplied value, or else its truthy default, fails to convert. */
  predicate StepRaises(d: ParamDecl, user: map<string, Value>)
  {
    if d.name in user then UserArg(d.ty, user[d.name]).None?
    else Truthy(d.default) && DefaultArg(d.ty, d.default).None?
  }

  /** Dictionary assignment on an insertion-ordered list of pairs: replace in place, or append. */
  function Assign(ps: seq<(string, Arg)>, k: string, a: Arg): (r: seq<(string, Arg)>)
    ensures Keys(r) == Keys(ps) + {k}
    ensures Lookup(r, k) == Some(a)
    ensures forall k2 :: k2 != k ==> Lookup(r, k2) == Lookup(ps, k2)
  {
    if ps == [] then [(k, a)]
    else if ps[0].0 == k then
      var r := [(k, a)] + ps[1..];
      assert r[1..] == ps[1..];
      r
    else
      var r := [ps[0]] + Assign(ps[1..], k, a);
      assert r[1..] == Assign(ps[1..], k, a);
      r
  }

  /** The keys of a list of pairs. */
  function Keys(ps: seq<(string, Arg)>): set<string>
  {
    if ps == [] then {} else {ps[0].0} + Keys(ps[1..])
  }

  /** The value stored under k, if any. */
  function Lookup(ps: seq<(string, Arg)>, k: string): (r: Option<Arg>)
    ensures r.Some? <==> k in Keys(ps)
  {
    if ps == [] then None
    else if ps[0].0 == k then Some(ps[0].1)
    else Lookup(ps[1..], k)
  }

  /**
   * func_params after the loop over the declarations: None once a conversion has raised,
   * which happens exactly when some declaration's conversion raises.
   */
  function Merged(decls: seq<ParamDecl>, user: map<string, Value>): (r: Option<seq<(string, Arg)>>)
    ensures r.None? <==> exists j :: 0 <= j < |decls| && StepRaises(decls[j], user)
  {
    if decls == [] then Some([])
    else
      var front := decls[..|decls| - 1];
      assert forall j :: 0 <= j < |front| ==> front[j] == decls[j];
      match Merged(front, user)
      case None => None
      case Some(ps) =>
        var d := decls[|decls| - 1];
        if d.name in user then
          match UserArg(d.ty, user[d.name])
          case None => None
          case Some(a) => Some(Assign(ps, d.name, a))
        else if Truthy(d.default) then
          match DefaultArg(d.ty, d.default)
          case None => None
          case Some(a) => Some(Assign(ps, d.name, a))
        else Some(ps)
  }

  /** A conversion error ends the merge: a failed prefix fails the whole list. */
  lemma {:induction false} MergedNoneStays(decls: seq<ParamDecl>, user: map<string, Value>, k: nat)
    requires k <= |decls| && Merged(decls[..k], user).None?
    ensures Merged(decls, user).None?
    decreases |decls| - k
  {
    if k < |decls| {
      assert decls[..k + 1][..k] == decls[..k];
      MergedNoneStays(decls, user, k + 1);
    } else {
      assert decls[..k] == decls;
    }
  }

  /** The merge loop of calculate_indicator. */
  method MergeParams(decls: seq<ParamDecl>, user: map<string, Value>) returns (r: Option<seq<(string, Arg)>>)
    ensures r == Merged(decls, user)
  {
    var ps: seq<(string, Arg)> := [];
    var k := 0;
    while k < |decls|
      invariant 0 <= k <= |decls|
      invariant Merged(decls[..k], user) == Some(ps)
    {
      assert decls[..k + 1][..k] == decls[..k];
      var d := decls[k];
      if d.name in user {
        var a := UserArg(d.ty, user[d.name]);
        if a.None? {
          assert Merged(decls[..k + 1], user).None?;
          MergedNoneStays(decls, user, k + 1);
          return None;
        }
        ps := Assign(ps, d.name, a.value);
      } else if Truthy(d.default) {
        var a := DefaultArg(d.ty, d.default);
        if a.None? {
          assert Merged(decls[..k + 1], user).None?;
          MergedNoneStays(decls, user, k + 1);
          return None;
        }
        ps := Assign(ps, d.name, a.value);
      }
      k := k + 1;
    }
    assert decls[..k] == decls;
    return Some(ps);
  }

  /** The names declared by the catalog entry. */
  function Declared(decls: seq<ParamDecl>): set<string>
  {
    if decls == [] then {} else Declared(decls[..|decls| - 1]) + {decls[|decls| - 1].name}
  }

  /** The last declaration of a name (the one whose assignment survives). */
  predicate LastDecl(decls: seq<ParamDecl>, j: int)
  {
    0 <= j < |decls| && forall m :: j < m < |decls| ==> decls[m].name != decls[j].name
  }

  /** Only declared names are passed to the indicator function. */
  lemma {:induction false} MergedOnlyDeclared(decls: seq<ParamDecl>, user: map<string, Value>)
    requires Merged(decls, user).Some?
    ensures Keys(Merged(decls, user).value) <= Declared(decls)
    decreases |decls|
  {
    if decls != [] {
      MergedOnlyDeclared(decls[..|decls| - 1], user);
    }
  }

  /** A supplied value always wins over the default: the last declaration of a name takes the caller's value. */
  lemma {:induction false} MergedUserWins(decls: seq<ParamDecl>, user: map<string, Value>, j: int)
    requires Merged(decls, user).Some? && LastDecl(decls, j) && decls[j].name in user
    ensures Lookup(Merged(decls, user).value, decls[j].name) == UserArg(decls[j].ty, user[decls[j].name])
    decreases |decls|
  {
    if j < |decls| - 1 {
      MergedUserWins(decls[..|decls| - 1], user, j);
    }
  }

  /** Without a supplied value, a truthy default is passed, converted by the declared type. */
  lemma {:induction false} MergedDefaultUsed(decls: seq<ParamDecl>, user: map<string, Value>, j: int)
    requires Merged(decls, user).Some? && LastDecl(decls, j)
    requires decls[j].name !in user && Truthy(decls[j].default)
    ensures Lookup(Merged(decls, user).value, decls[j].name) == DefaultArg(decls[j].ty, decls[j].default)
    decreases |decls|
  {
    if j < |decls| - 1 {
      MergedDefaultUsed(decls[..|decls| - 1], user, j);
    }
  }

  /** A name with no supplied value whose every declaration has a falsy default is not passed at all. */
  lemma {:induction false} MergedFalsyOmitted(decls: seq<ParamDecl>, user: map<string, Value>, n: string)
    requires Merged(decls, user).Some? && n !in user
    requires forall j :: 0 <= j < |decls| && decls[j].name == n ==> !Truthy(decls[j].default)
    ensures n !in Keys(Merged(decls, user).value)
    decreases |decls|
  {
    if decls != [] {
      var front := decls[..|decls| - 1];
      assert forall j :: 0 <= j < |front| ==> front[j] == decls[j];
      MergedFalsyOmitted(front, user, n);
    }
  }

  /** A period given as a word or as a fraction raises; given as digit text it is passed as that integer. */
  lemma ScenarioPeriodConversion()
    ensures Merged([Period], map["timeperiod" := Text("abc")]).None?
    ensures Merged([Period], map["timeperiod" := Text("14.5")]).None?
    ensures Merged([Period], map["timeperiod" := Text("20")]) == Some([("timeperiod", IntArg(20))])
    ensures Merged([Period], map[]) == Some([("timeperiod", IntArg(14))])
  {
    PeriodWordRaises();
    PeriodFractionRaises();
    PeriodDigits();
    PeriodDefault();
  }

  lemma PeriodWordRaises()
    ensures Merged([Period], map["timeperiod" := Text("abc")]).None?
  {
    IntRejectsWord();
    PeriodRejected(Text("abc"));
  }

  lemma PeriodFractionRaises()
    ensures Merged([Period], map["timeperiod" := Text("14.5")]).None?
  {
    IntRejectsFraction();
    PeriodRejected(Text("14.5"));
  }

  lemma PeriodDigits()
    ensures Merged([Period], map["timeperiod" := Text("20")]) == Some([("timeperiod", IntArg(20))])
  {
    assert IntToString(20) == "20" by {
      assert NatToString(2) == "2";
    }
    PeriodFromText(20);
  }

  /** Without a supplied period, the stored default text "14" is converted to 14. */
  lemma PeriodDefault()
    ensures Merged([Period], map[]) == Some([("timeperiod", IntArg(14))])
  {
    assert IntToString(14) == "14" by {
      assert NatToString(1) == "1";
      assert NatToString(14) == NatToString(1) + ['4'];
    }
    IntTextRoundTrip(14);
    MergedOne(Period, map[]);
  }

  /** A supplied period that int() rejects makes the merge raise. */
  lemma PeriodRejected(v: Value)
    requires IntConv(v).None?
    ensures Merged([Period], map["timeperiod" := v]).None?
  {
    assert StepRaises([Period][0], map["timeperiod" := v]);
  }

  /** The catalog's declaration of an integer period defaulting to 14, stored as the text str(14). */
  const Period := ParamDecl("timeperiod", "int", Text("14"))

  /** A supplied period in decimal text is passed as that integer. */
  lemma PeriodFromText(n: int)
    ensures Merged([Period], map["timeperiod" := Text(IntToString(n))]) == Some([("timeperiod", IntArg(n))])
  {
    IntTextRoundTrip(n);
    MergedOne(Period, map["timeperiod" := Text(IntToString(n))]);
  }

  /** The merge of a single declaration. */
  lemma MergedOne(d: ParamDecl, user: map<string, Value>)
    ensures d.name in user && UserArg(d.ty, user[d.name]).Some? ==>
      Merged([d], user) == Some([(d.name, UserArg(d.ty, user[d.name]).value)])
    ensures d.name !in user && Truthy(d.default) && DefaultArg(d.ty, d.default).Some? ==>
      Merged([d], user) == Some([(d.name, DefaultArg(d.ty, d.default).value)])
  {
    assert [d][..0] == [];
  }

  // ---- Column naming ----

  /** f"{k}_{v}" for one parameter, given the text of its value. */
  function Pair(p: (string, string)): string
  {
    p.0 + "_" + p.1
  }

  /** params_to_string: the pairs joined with "_", in order. */
  function ParamsToString(ps: seq<(string, string)>): (r: string)
    ensures r == "" <==> ps == []
  {
    if ps == [] then ""
    else if |ps| == 1 then Pair(ps[0])
    else ParamsToString(ps[..|ps| - 1]) + "_" + Pair(ps[|ps| - 1])
  }

  /** Joining distributes over concatenation of non-empty lists. */
  lemma {:induction false} ParamsToStringAppend(a: seq<(string, string)>, b: seq<(string, string)>)
    requires a != [] && b != []
    ensures ParamsToString(a + b) == ParamsToString(a) + "_" + ParamsToString(b)
    decreases |b|
  {
    var ab := a + b;
    var last := Pair(b[|b| - 1]);
    assert ab[|ab| - 1] == b[|b| - 1];
    if |b| == 1 {
      assert ab[..|ab| - 1] == a;
      assert ParamsToString(ab) == ParamsToString(a) + "_" + last;
    } else {
      var b0 := b[..|b| - 1];
      ParamsToStringAppend(a, b0);
      assert ab[..|ab| - 1] == a + b0;
      assert ParamsToString(ab) == ParamsToString(a + b0) + "_" + last;
      assert ParamsToString(b) == ParamsToString(b0) + "_" + last;
      assert ParamsToString(ab) == (ParamsToString(a) + "_" + ParamsToString(b0)) + "_" + last;
    }
  }

  /** The joined text is as long as its pieces plus one separator between each two. */
  lemma {:induction false} ParamsToStringLength(ps: seq<(string, string)>)
    requires ps != []
    ensures |ParamsToString(ps)| == |ps| - 1 + SumPairLengths(ps)
    decreases |ps|
  {
    if |ps| > 1 {
      ParamsToStringLength(ps[..|ps| - 1]);
    }
  }

  function SumPairLengths(ps: seq<(string, string)>): nat
  {
    if ps == [] then 0 else SumPairLengths(ps[..|ps| - 1]) + |Pair(ps[|ps| - 1])|
  }

  lemma ScenarioParamsToString()
    ensures ParamsToString([]) == ""
    ensures ParamsToString([("timeperiod", "14")]) == "timeperiod_14"
    ensures ParamsToString([("fastperiod", "12"), ("slowperiod", "26")]) == "fastperiod_12_slowperiod_26"
  {
    assert [("fastperiod", "12"), ("slowperiod", "26")][..1] == [("fastperiod", "12")];
  }

  /** What the indicator function handed back. */
  datatype Output = Series(seriesName: string, values: seq<real>) | Tuple(parts: seq<seq<real>>)
                  | Table(columns: seq<(string, seq<real>)>) | NoResult | Raised

  /** The columns calculate_indicator writes for a result, in the order it writes them. */
  function NewColumns(info: IndicatorInfo, paramText: string, out: Output): (cols: seq<(string, seq<real>)>)
    ensures out.Raised? || out.NoResult? ==> cols == []
    ensures info.source == Talib && out.Series? ==> cols == [(info.name + "_" + paramText, out.values)]
    ensures info.source == Talib && out.Tuple? ==>
      |cols| == |out.parts| && forall j :: 0 <= j < |cols| ==> cols[j] == (info.name + "_" + IntToString(j) + "_" + paramText, out.parts[j])
    ensures info.source == PandasTa && out.Table? ==> cols == out.columns
    ensures info.source == PandasTa && out.Series? ==> cols == [(out.seriesName, out.values)]
  {
    match (info.source, out)
    case (Talib, Series(_, vs)) => [(info.name + "_" + paramText, vs)]
    case (Talib, Tuple(parts)) => seq(|parts|, j requires 0 <= j < |parts| => (info.name + "_" + IntToString(j) + "_" + paramText, parts[j]))
    case (PandasTa, Table(cs)) => cs
    case (PandasTa, Series(n, vs)) => [(n, vs)]
    case _ => []
  }

  /** df[name] = values for each column in turn. */
  function Written(df: map<string, seq<real>>, cols: seq<(string, seq<real>)>): (r: map<string, seq<real>>)
    ensures r.Keys == df.Keys + (set j | 0 <= j < |cols| :: cols[j].0)
  {
    if cols == [] then df
    else Written(df, cols[..|cols| - 1])[cols[|cols| - 1].0 := cols[|cols| - 1].1]
  }

  /** Writing one more column is one more dictionary assignment. */
  lemma WrittenStep(df: map<string, seq<real>>, cols: seq<(string, seq<real>)>, k: nat)
    requires k < |cols|
    ensures Written(df, cols[..k + 1]) == Written(df, cols[..k])[cols[k].0 := cols[k].1]
  {
    assert cols[..k + 1][..k] == cols[..k];
  }

  /** Writing a list of columns leaves every column it does not name as it was, present or absent. */
  lemma {:induction false} WrittenKeepsOthers(df: map<string, seq<real>>, cols: seq<(string, seq<real>)>, n: string)
    requires forall j :: 0 <= j < |cols| ==> cols[j].0 != n
    ensures n in Written(df, cols) <==> n in df
    ensures n in df ==> Written(df, cols)[n] == df[n]
    decreases |cols|
  {
    if cols != [] {
      var front := cols[..|cols| - 1];
      assert forall j :: 0 <= j < |front| ==> front[j] == cols[j];
      WrittenKeepsOthers(df, front, n);
    }
  }

  /** A column written more than once holds the value of its last write. */
  lemma {:induction false} WrittenLastWins(df: map<string, seq<real>>, cols: seq<(string, seq<real>)>, n: string, j: nat)
    requires j < |cols| && cols[j].0 == n
    requires forall m :: j < m < |cols| ==> cols[m].0 != n
    ensures n in Written(df, cols) && Written(df, cols)[n] == cols[j].1
    decreases |cols|
  {
    if j < |cols| - 1 {
      var front := cols[..|cols| - 1];
      assert front[j] == cols[j];
      assert forall m :: j < m < |front| ==> front[m] == cols[m];
      WrittenLastWins(df, front, n, j);
    }
  }

  /** The data frame an indicator is computed into, as a name-to-column map. */
  class DataFrame {
    var columns: map<string, seq<real>>

    constructor(cs: map<string, seq<real>>)
      ensures columns == cs
    {
      columns := cs;
    }

    /**
     * calculate_indicator. `discovered` stands for discovery, `show` for str() of an argument
     * and `out` for what the library call returns. `raised` reports a conversion error, which
     * propagates; errors of the library call itself are caught and leave the frame as it is.
     */
    method CalculateIndicator(reg: Registry, name: string, user: map<string, Value>,
                              discovered: map<string, IndicatorInfo>, show: Arg -> string, out: Output)
      returns (raised: bool)
      modifies this, reg
      ensures reg.catalog == Initialized(old(reg.catalog), discovered)
      ensures Resolve(reg.catalog, name).None? ==> columns == old(columns) && !raised
      ensures Resolve(reg.catalog, name).Some? ==>
        var info := Resolve(reg.catalog, name).value;
        match Merged(info.parameters, user)
        case None => raised && columns == old(columns)
        case Some(ps) =>
          !raised && columns == Written(old(columns), NewColumns(info, ParamsToString(Texts(ps, show)), out))
    {
      raised := false;
      var info := reg.GetIndicator(name, discovered);
      if info.None? {
        return;
      }
      assert Resolve(reg.catalog, name) == info;
      var ps := MergeParams(info.value.parameters, user);
      if ps.None? {
        return true;
      }
      var text := ParamsToString(Texts(ps.value, show));
      var cols := NewColumns(info.value, text, out);
      var k := 0;
      while k < |cols|
        invariant 0 <= k <= |cols|
        invariant columns == Written(old(columns), cols[..k])
        invariant reg.catalog == Initialized(old(reg.catalog), discovered)
      {
        WrittenStep(old(columns), cols, k);
        columns := columns[cols[k].0 := cols[k].1];
        k := k + 1;
      }
      assert cols[..k] == cols;
      assert Merged(info.value.parameters, user) == Some(ps.value);
    }
  }

  /** The merged arguments with their values rendered as text. */
  function Texts(ps: seq<(string, Arg)>, show: Arg -> string): (r: seq<(string, string)>)
    ensures |r| == |ps| && forall j :: 0 <= j < |ps| ==> r[j] == (ps[j].0, show(ps[j].1))
  {
    seq(|ps|, j requires 0 <= j < |ps| => (ps[j].0, show(ps[j].1)))
  }
}
