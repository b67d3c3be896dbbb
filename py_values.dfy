/**
 * Python's int(), float() and bool() applied to a parameter value as it arrives from a
 * JSON request or from the indicator catalog. A conversion that raises (ValueError,
 * TypeError, OverflowError) is None.
 */
module PyValues {
  import opened Util

  /** A parameter value as it arrives from JSON or from the catalog. */
  datatype Value = Text(s: string) | Int(i: int) | Number(x: real) | Flag(b: bool) | Null

  /** Python truthiness, which is also what bool() returns. */
  predicate Truthy(v: Value)
  {
    match v
    case Text(s) => s != ""
    case Int(i) => i != 0
    case Number(x) => x != 0.0
    case Flag(b) => b
    case Null => false
  }

  // ---- Text ----

  /** str.isspace(): the characters int() and float() strip from both ends of a text. */
  predicate IsPySpace(c: char)
  {
    c == ' ' || (0x09 <= c as int <= 0x0D) || (0x1C <= c as int <= 0x1F)
    || c as int == 0x85 || c as int == 0xA0 || c as int == 0x1680 || (0x2000 <= c as int <= 0x200A)
    || c as int == 0x2028 || c as int == 0x2029 || c as int == 0x202F || c as int == 0x205F || c as int == 0x3000
  }

  function StripLeft(s: string): (r: string)
    ensures |r| <= |s|
    ensures r == [] || !IsPySpace(r[0])
    ensures forall i :: 0 <= i < |s| - |r| ==> IsPySpace(s[i])
  {
    if s != [] && IsPySpace(s[0]) then StripLeft(s[1..]) else s
  }

  function StripRight(s: string): (r: string)
    ensures |r| <= |s| && r == s[..|r|]
    ensures r == [] || !IsPySpace(r[|r| - 1])
    ensures forall i :: |r| <= i < |s| ==> IsPySpace(s[i])
  {
    if s != [] && IsPySpace(s[|s| - 1]) then StripRight(s[..|s| - 1]) else s
  }

  /** The text without its leading and trailing white space. */
  function Strip(s: string): (r: string)
    ensures r == [] || (!IsPySpace(r[0]) && !IsPySpace(r[|r| - 1]))
  {
    StripRight(StripLeft(s))
  }

  /**
   * The length of the digit part starting at position i: a digit, then digits, each
   * optionally preceded by a single underscore. 0 when s[i] is not a digit.
   */
  function PartRun(s: string, i: nat): (n: nat)
    requires i <= |s|
    ensures i + n <= |s|
    ensures n > 0 ==> IsDigit(s[i]) && IsDigit(s[i + n - 1])
    ensures i + n < |s| ==> !IsDigit(s[i + n])
  {
    if i < |s| && IsDigit(s[i]) then 1 + PartTail(s, i + 1) else 0
  }

  /** The rest of a digit part after its first digit. */
  function PartTail(s: string, i: nat): (n: nat)
    requires 0 < i <= |s|
    ensures i + n <= |s|
    ensures n > 0 ==> IsDigit(s[i + n - 1])
    ensures i + n < |s| ==> !IsDigit(s[i + n])
    decreases |s| - i
  {
    if i < |s| && IsDigit(s[i]) then 1 + PartTail(s, i + 1)
    else if i + 1 < |s| && s[i] == '_' && IsDigit(s[i + 1]) then 2 + PartTail(s, i + 2)
    else 0
  }

  /** The value of a digit part; underscores carry no value. */
  function PartValue(s: string): nat
  {
    if s == [] then 0
    else if IsDigit(s[|s| - 1]) then 10 * PartValue(s[..|s| - 1]) + (s[|s| - 1] as int - '0' as int)
    else PartValue(s[..|s| - 1])
  }

  /** int() of a text: white space around an optional sign and a digit part, and nothing else. */
  function IntText(s: string): Option<int>
  {
    var t := Strip(s);
    var i := SignAt(t, 0);
    var n := PartRun(t, i);
    if n > 0 && i + n == |t| then
      var v: int := PartValue(t[i..]);
      Some(if i == 1 && t[0] == '-' then -v else v)
    else None
  }

  /**
   * float() syntax after stripping: an optional sign, then digits with an optional
   * fraction, or a fraction alone, then an optional exponent whose digits are required.
   */
  predicate IsDecimalText(t: string)
  {
    var i0 := SignAt(t, 0);
    var a := PartRun(t, i0);
    var dot := i0 + a < |t| && t[i0 + a] == '.';
    var b := if dot then PartRun(t, i0 + a + 1) else 0;
    var k := if dot then i0 + a + 1 + b else i0 + a;
    a + b > 0 &&
    (k == |t| ||
     (t[k] in {'e', 'E'} &&
      var m := k + 1 + SignAt(t, k + 1);
      var c := PartRun(t, m);
      c > 0 && m + c == |t|))
  }

  /** The spellings of infinity and NaN float() accepts: any letter case, with an optional sign. */
  predicate IsSpecialText(t: string)
  {
    var rest := t[SignAt(t, 0)..];
    Lower(rest) == "inf" || Lower(rest) == "infinity" || Lower(rest) == "nan"
  }

  /** float() of a text accepts it. A decimal too large for float64 gives an infinity and does not raise. */
  predicate FloatText(s: string)
  {
    IsDecimalText(Strip(s)) || IsSpecialText(Strip(s))
  }

  // ---- The conversions ----

  /** 2^1024 - 2^970: integers of this magnitude round past the largest float64. */
  const Float64Limit: int := 179769313486231580793728971405303415079934132710037826936173778980444968292764750946649017977587207096330286416692887910946555547851940402630657488671505820681908902000708383676273854845817711531764475730270069855571366959622842914819860834936475292719074168444365510704342711559699508093042880177904174497792

  /** int() of a float: truncation toward zero. */
  function Truncate(x: real): (n: int)
    ensures x >= 0.0 ==> 0 <= n && n as real <= x < n as real + 1.0
    ensures x < 0.0 ==> n <= 0 && n as real - 1.0 < x <= n as real
  {
    if x >= 0.0 then x.Floor else -((-x).Floor)
  }

  /** int(v), or None when it raises. */
  function IntConv(v: Value): (r: Option<int>)
    ensures v.Int? ==> r == Some(v.i)
    ensures v.Flag? ==> r == Some(if v.b then 1 else 0)
    ensures v.Number? ==> r == Some(Truncate(v.x))
    ensures v.Null? ==> r.None?
    ensures v.Text? ==> r == IntText(v.s)
  {
    match v
    case Text(s) => IntText(s)
    case Int(i) => Some(i)
    case Number(x) => Some(Truncate(x))
    case Flag(b) => Some(if b then 1 else 0)
    case Null => None
  }

  /** float(v) succeeds. */
  function FloatAccepts(v: Value): (ok: bool)
    ensures v.Null? ==> !ok
    ensures v.Number? || v.Flag? ==> ok
    ensures v.Int? ==> (ok <==> -Float64Limit < v.i < Float64Limit)
    ensures v.Text? ==> (ok <==> FloatText(v.s))
  {
    match v
    case Text(s) => FloatText(s)
    case Int(i) => -Float64Limit < i < Float64Limit
    case Number(_) => true
    case Flag(_) => true
    case Null => false
  }

  // ---- Laws ----

  /** A run of digits from i to the end is one digit part. */
  lemma {:induction false} PartRunOfDigits(s: string, i: nat)
    requires 0 < i <= |s| && forall j :: i <= j < |s| ==> IsDigit(s[j])
    ensures PartTail(s, i) == |s| - i
    decreases |s| - i
  {
    if i < |s| {
      PartRunOfDigits(s, i + 1);
    }
  }

  /** Without underscores a digit part has its ordinary decimal value. */
  lemma {:induction false} PartValueOfDigits(s: string)
    requires AllDigits(s)
    ensures PartValue(s) == DigitsValue(s)
    decreases |s|
  {
    if s != [] {
      PartValueOfDigits(s[..|s| - 1]);
    }
  }

  /** int() reads back the decimal text of every integer. */
  lemma IntTextRoundTrip(n: int)
    ensures IntConv(Text(IntToString(n))) == Some(n)
  {
    var t := IntToString(n);
    if n >= 0 {
      assert t == NatToString(n) && t[0..] == t;
      IntTextOfDigits(t, 0);
      NatToStringValue(n);
    } else {
      assert t[0] == '-' && t[1..] == NatToString(-n);
      IntTextOfDigits(t, 1);
      NatToStringValue(-n);
    }
  }

  /** A text of digits, or of '-' and digits, reads as its decimal value. */
  lemma IntTextOfDigits(t: string, i: nat)
    requires i < |t| && AllDigits(t[i..]) && (i == 0 || (i == 1 && t[0] == '-'))
    ensures IntText(t) == Some((if i == 1 then -1 else 1) * DigitsValue(t[i..]))
  {
    assert t[i..][0] == t[i] && t[i..][|t| - 1 - i] == t[|t| - 1];
    StripUnpadded(t);
    assert SignAt(t, 0) == i;
    DigitRun(t, i);
    PartValueOfDigits(t[i..]);
  }

  /** A text with no white space at either end is its own strip. */
  lemma StripUnpadded(t: string)
    requires t != [] && !IsPySpace(t[0]) && !IsPySpace(t[|t| - 1])
    ensures Strip(t) == t
  {
    assert StripLeft(t) == t;
  }

  /** Digits from i to the end form one digit part. */
  lemma DigitRun(t: string, i: nat)
    requires i < |t| && AllDigits(t[i..])
    ensures PartRun(t, i) == |t| - i
  {
    assert forall j :: i <= j < |t| ==> t[j] == t[i..][j - i];
    PartRunOfDigits(t, i + 1);
  }

  /** Text int() accepts with surrounding white space, a sign and underscores between digits. */
  lemma ScenarioIntAccepts()
    ensures IntConv(Text(" 14\n")) == Some(14)
    ensures IntConv(Text("-7")) == Some(-7)
    ensures IntConv(Text("1_000")) == Some(1000)
    ensures IntConv(Number(-2.5)) == Some(-2)
  {
    IntPadded();
    IntSigned();
    IntUnderscored();
  }

  lemma IntPadded()
    ensures IntText(" 14\n") == Some(14)
  {
    assert StripLeft(" 14\n") == "14\n";
    assert StripRight("14\n") == "14";
    assert PartRun("14", 0) == 2;
    assert "14"[0..] == "14" && "14"[..1] == "1";
    assert PartValue("14") == 14;
  }

  lemma IntSigned()
    ensures IntText("-7") == Some(-7)
  {
    assert Strip("-7") == "-7";
    assert PartRun("-7", 1) == 1;
    assert "-7"[1..] == "7";
  }

  lemma IntUnderscored()
    ensures IntText("1_000") == Some(1000)
  {
    assert Strip("1_000") == "1_000";
    assert PartTail("1_000", 3) == 2;
    assert PartTail("1_000", 1) == 4;
    assert "1_000"[0..] == "1_000";
    UnderscoredValue();
  }

  lemma UnderscoredValue()
    ensures PartValue("1_000") == 1000
  {
    assert "1_"[..1] == "1";
    assert PartValue("1_") == 1;
    assert "1_0"[..2] == "1_";
    assert PartValue("1_0") == 10;
    assert "1_00"[..3] == "1_0";
    assert PartValue("1_00") == 100;
    assert "1_000"[..4] == "1_00";
  }

  /** Text int() rejects: a word, a fraction, the empty text, a doubled underscore; and None. */
  lemma ScenarioIntRejects()
    ensures IntConv(Text("abc")).None?
    ensures IntConv(Text("14.5")).None?
    ensures IntConv(Text("")).None?
    ensures IntConv(Text("1__0")).None?
    ensures IntConv(Null).None?
  {
    IntRejectsWord();
    IntRejectsFraction();
    IntRejectsDoubleUnderscore();
  }

  lemma IntRejectsWord()
    ensures IntText("abc").None?
  {
    assert Strip("abc") == "abc";
  }

  lemma IntRejectsFraction()
    ensures IntText("14.5").None?
  {
    assert Strip("14.5") == "14.5";
    assert PartRun("14.5", 0) == 2;
  }

  lemma IntRejectsDoubleUnderscore()
    ensures IntText("1__0").None?
  {
    assert Strip("1__0") == "1__0";
    assert PartRun("1__0", 0) == 1;
  }

  /** Text float() accepts, including the spellings of infinity and NaN and an overflowing decimal. */
  lemma ScenarioFloatAccepts()
    ensures FloatAccepts(Text("1.5")) && FloatAccepts(Text(".5")) && FloatAccepts(Text("1."))
    ensures FloatAccepts(Text("-Infinity")) && FloatAccepts(Text(" nan ")) && FloatAccepts(Text("1e999"))
  {
    FloatFractions();
    FloatSpecials();
    FloatOverflowingDecimal();
  }

  lemma FloatFractions()
    ensures FloatText("1.5") && FloatText(".5") && FloatText("1.")
  {
    FloatFraction();
    FloatFractionOnly();
    FloatTrailingDot();
  }

  lemma FloatFraction()
    ensures FloatText("1.5")
  {
    StripUnpadded("1.5");
    assert PartTail("1.5", 1) == 0 && PartRun("1.5", 0) == 1;
    assert PartTail("1.5", 3) == 0 && PartRun("1.5", 2) == 1;
    assert SignAt("1.5", 0) == 0;
    assert IsDecimalText("1.5");
  }

  lemma FloatFractionOnly()
    ensures FloatText(".5")
  {
    StripUnpadded(".5");
    var s := ".5";
    assert s[0] == '.' && s[1] == '5' && |s| == 2;
    assert SignAt(s, 0) == 0 && PartRun(s, 0) == 0;
    assert PartTail(s, 2) == 0 && PartRun(s, 1) == 1;
    assert IsDecimalText(s);
  }

  lemma FloatTrailingDot()
    ensures FloatText("1.")
  {
    assert Strip("1.") == "1." && PartRun("1.", 0) == 1 && PartRun("1.", 2) == 0;
  }

  lemma FloatSpecials()
    ensures FloatText("-Infinity") && FloatText(" nan ")
  {
    FloatInfinity();
    FloatNan();
  }

  lemma FloatInfinity()
    ensures FloatText("-Infinity")
  {
    StripUnpadded("-Infinity");
    assert SignAt("-Infinity", 0) == 1 && "-Infinity"[1..] == "Infinity";
    assert Lower("Infinity") == "infinity";
    assert IsSpecialText("-Infinity");
  }

  lemma FloatNan()
    ensures FloatText(" nan ")
  {
    assert " nan "[1..] == "nan " && !IsPySpace('n');
    assert StripLeft(" nan ") == "nan ";
    assert "nan "[..3] == "nan";
    assert StripRight("nan ") == "nan";
    assert Strip(" nan ") == "nan";
    assert SignAt("nan", 0) == 0 && "nan"[0..] == "nan";
    assert Lower("nan") == "nan";
    assert IsSpecialText("nan");
  }

  lemma FloatOverflowingDecimal()
    ensures FloatText("1e999")
  {
    StripUnpadded("1e999");
    DigitExponentDigits("1e999");
  }

  /** One digit, 'e' and three digits: a decimal with an exponent. */
  lemma DigitExponentDigits(s: string)
    requires |s| == 5 && IsDigit(s[0]) && s[1] == 'e' && IsDigit(s[2]) && IsDigit(s[3]) && IsDigit(s[4])
    ensures IsDecimalText(s)
  {
    assert SignAt(s, 0) == 0 && PartTail(s, 1) == 0 && PartRun(s, 0) == 1;
    assert SignAt(s, 2) == 0;
    assert PartTail(s, 5) == 0 && PartTail(s, 4) == 1 && PartTail(s, 3) == 2;
    assert PartRun(s, 2) == 3;
  }

  /** float() rejects a word, the empty text, a lone dot, an exponent without digits, a leading underscore and None. */
  lemma ScenarioFloatRejects()
    ensures !FloatAccepts(Text("abc")) && !FloatAccepts(Text("")) && !FloatAccepts(Text("."))
    ensures !FloatAccepts(Text("1e")) && !FloatAccepts(Text("_1")) && !FloatAccepts(Null)
  {
    FloatRejectsWords();
    FloatRejectsBareParts();
  }

  lemma FloatRejectsWords()
    ensures !FloatText("abc") && !FloatText("")
  {
    FloatRejectsAbc();
    assert Strip("") == "" && Lower("") == "";
  }

  lemma FloatRejectsAbc()
    ensures !FloatText("abc")
  {
    var s := "abc";
    StripUnpadded(s);
    assert SignAt(s, 0) == 0 && s[0..] == s && PartRun(s, 0) == 0;
    assert !IsDecimalText(s);
    assert Lower(s) == s;
    assert s[0] != "inf"[0] && s[0] != "nan"[0] && |s| != |"infinity"|;
    assert !IsSpecialText(s);
  }

  lemma FloatRejectsBareParts()
    ensures !FloatText(".") && !FloatText("1e") && !FloatText("_1")
  {
    FloatRejectsDot();
    FloatRejectsBareExponent();
    FloatRejectsUnderscoreFirst();
  }

  lemma FloatRejectsDot()
    ensures !FloatText(".")
  {
    assert Strip(".") == "." && Lower(".") == "." && PartRun(".", 0) == 0 && PartRun(".", 1) == 0;
  }

  lemma FloatRejectsBareExponent()
    ensures !FloatText("1e")
  {
    assert Strip("1e") == "1e" && Lower("1e") == "1e" && PartRun("1e", 0) == 1 && PartRun("1e", 2) == 0;
  }

  lemma FloatRejectsUnderscoreFirst()
    ensures !FloatText("_1")
  {
    assert Strip("_1") == "_1" && Lower("_1") == "_1" && PartRun("_1", 0) == 0;
  }

  /** float() of an integer raises exactly from 2^1024 - 2^970 on. */
  lemma ScenarioFloatOverflow()
    ensures FloatAccepts(Int(Float64Limit - 1)) && !FloatAccepts(Int(Float64Limit))
    ensures !FloatAccepts(Int(-Float64Limit))
  {
  }
}
