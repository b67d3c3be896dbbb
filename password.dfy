/**
 * The shared password and identity-text checks: the password policy, the common
 * password list and the email/username sanitisers.
 *
 * Character classes are decided for ASCII; every other character falls in no class
 * (see the README). Whitespace is Unicode's White_Space set, as Go's TrimSpace uses.
 */
module Password {
  import opened Util

  datatype PasswordConfig = PasswordConfig(
    minLength: int, requireUpper: bool, requireLower: bool, requireNumber: bool, requireSpecial: bool)

  const DefaultPasswordConfig := PasswordConfig(8, true, true, true, true)

  /** The class a character sets, in the order of the switch: upper, lower, number, then punctuation or symbol. */
  datatype CharClass = UpperClass | LowerClass | NumberClass | SpecialClass | NoClass

  /** The 32 ASCII punctuation and symbol characters. */
  predicate IsPunctOrSymbol(c: char)
  {
    ('!' <= c <= '/') || (':' <= c <= '@') || ('[' <= c <= '`') || ('{' <= c <= '~')
  }

  function Classify(c: char): (k: CharClass)
    ensures k == UpperClass <==> 'A' <= c <= 'Z'
    ensures k == LowerClass <==> 'a' <= c <= 'z'
    ensures k == NumberClass <==> '0' <= c <= '9'
    ensures k == SpecialClass <==> IsPunctOrSymbol(c)
  {
    if 'A' <= c <= 'Z' then UpperClass
    else if 'a' <= c <= 'z' then LowerClass
    else if '0' <= c <= '9' then NumberClass
    else if IsPunctOrSymbol(c) then SpecialClass
    else NoClass
  }

  /** Some character of the password sets class k. */
  predicate Has(password: string, k: CharClass)
  {
    exists i :: 0 <= i < |password| && Classify(password[i]) == k
  }

  const TooShort := "password is too short"
  const NeedsUpper := "password must contain at least one uppercase letter"
  const NeedsLower := "password must contain at least one lowercase letter"
  const NeedsNumber := "password must contain at least one number"
  const NeedsSpecial := "password must contain at least one special character"

  /** The policy's verdict: the length first (in UTF-8 bytes), then each required class in the order upper, lower, number, special. */
  function PasswordError(password: string, config: PasswordConfig): (e: Option<string>)
    ensures ByteLen(password) < config.minLength ==> e == Some(TooShort)
    ensures e.None? <==>
      && ByteLen(password) >= config.minLength
      && (config.requireUpper ==> Has(password, UpperClass))
      && (config.requireLower ==> Has(password, LowerClass))
      && (config.requireNumber ==> Has(password, NumberClass))
      && (config.requireSpecial ==> Has(password, SpecialClass))
    ensures e.Some? ==> e.value in {TooShort, NeedsUpper, NeedsLower, NeedsNumber, NeedsSpecial}
  {
    if ByteLen(password) < config.minLength then Some(TooShort)
    else if config.requireUpper && !Has(password, UpperClass) then Some(NeedsUpper)
    else if config.requireLower && !Has(password, LowerClass) then Some(NeedsLower)
    else if config.requireNumber && !Has(password, NumberClass) then Some(NeedsNumber)
    else if config.requireSpecial && !Has(password, SpecialClass) then Some(NeedsSpecial)
    else None
  }

  /** ValidatePassword: the length check, then one pass over the characters setting a flag per class. */
  method ValidatePassword(password: string, config: PasswordConfig) returns (err: Option<string>)
    ensures err == PasswordError(password, config)
  {
    if ByteLen(password) < config.minLength {
      return Some(TooShort);
    }
    var hasUpper, hasLower, hasNumber, hasSpecial := false, false, false, false;
    var k := 0;
    while k < |password|
      invariant 0 <= k <= |password|
      invariant hasUpper <==> Has(password[..k], UpperClass)
      invariant hasLower <==> Has(password[..k], LowerClass)
      invariant hasNumber <==> Has(password[..k], NumberClass)
      invariant hasSpecial <==> Has(password[..k], SpecialClass)
    {
      HasExtend(password, k);
      var c := password[k];
      if 'A' <= c <= 'Z' {
        hasUpper := true;
      } else if 'a' <= c <= 'z' {
        hasLower := true;
      } else if '0' <= c <= '9' {
        hasNumber := true;
      } else if IsPunctOrSymbol(c) {
        hasSpecial := true;
      }
      k := k + 1;
    }
    assert password[..k] == password;
    if config.requireUpper && !hasUpper {
      return Some(NeedsUpper);
    }
    if config.requireLower && !hasLower {
      return Some(NeedsLower);
    }
    if config.requireNumber && !hasNumber {
      return Some(NeedsNumber);
    }
    if config.requireSpecial && !hasSpecial {
      return Some(NeedsSpecial);
    }
    return None;
  }

  /** A class is present in one more character exactly when it was present before or the new character has it. */
  lemma HasExtend(s: string, k: nat)
    requires k < |s|
    ensures forall c :: Has(s[..k + 1], c) <==> Has(s[..k], c) || Classify(s[k]) == c
  {
    forall c ensures Has(s[..k + 1], c) <==> Has(s[..k], c) || Classify(s[k]) == c {
      if Has(s[..k + 1], c) {
        var i :| 0 <= i < k + 1 && Classify(s[..k + 1][i]) == c;
        if i < k {
          assert s[..k][i] == s[..k + 1][i];
        }
      }
      if Has(s[..k], c) {
        var i :| 0 <= i < k && Classify(s[..k][i]) == c;
        assert s[..k + 1][i] == s[..k][i];
      }
      if Classify(s[k]) == c {
        assert s[..k + 1][k] == s[k];
      }
    }
  }

  /** An ASCII string is as long in bytes as in characters: then the minimum length counts characters. */
  lemma {:induction false} AsciiByteLen(s: string)
    requires forall i :: 0 <= i < |s| ==> s[i] as int < 0x80
    ensures ByteLen(s) == |s|
  {
    if s != [] {
      AsciiByteLen(s[1..]);
    }
  }

  /** A password of the default policy's shape passes. */
  lemma ScenarioDefaultPolicyPasses()
    ensures PasswordError("Secret1!", DefaultPasswordConfig) == None
  {
    var p := "Secret1!";
    assert ByteLen(p) == 8;
    assert p[0] == 'S' && p[1] == 'e' && p[6] == '1' && p[7] == '!';
    assert Has(p, UpperClass) by { assert Classify(p[0]) == UpperClass; }
    assert Has(p, LowerClass) by { assert Classify(p[1]) == LowerClass; }
    assert Has(p, NumberClass) by { assert Classify(p[6]) == NumberClass; }
    assert Has(p, SpecialClass) by { assert IsPunctOrSymbol('!'); assert Classify(p[7]) == SpecialClass; }
  }

  /** The same length without a digit is refused for the missing number. */
  lemma ScenarioDefaultPolicyNeedsNumber()
    ensures PasswordError("Secret!!", DefaultPasswordConfig) == Some(NeedsNumber)
  {
    var p := "Secret!!";
    assert ByteLen(p) == 8;
    assert Has(p, UpperClass) by { assert Classify(p[0]) == UpperClass; }
    assert Has(p, LowerClass) by { assert Classify(p[1]) == LowerClass; }
    NoDigitIn(p);
  }

  /** "Secret!!" holds no digit. */
  lemma NoDigitIn(p: string)
    requires p == "Secret!!"
    ensures !Has(p, NumberClass)
  {
    forall i | 0 <= i < |p| ensures Classify(p[i]) != NumberClass {
      assert !('0' <= p[i] <= '9');
    }
  }

  /** The fixed table of common passwords. */
  const CommonPasswords: map<string, bool> := map[
    "password" := true, "123456" := true, "123456789" := true, "qwerty" := true, "12345678" := true,
    "111111" := true, "1234567890" := true, "admin" := true, "welcome" := true, "password1" := true]

  /** IsCommonPassword: exact, case-sensitive lookup in the table; a missing key reads false. */
  function IsCommonPassword(password: string): (r: bool)
    ensures r <==> password in {"password", "123456", "123456789", "qwerty", "12345678",
                                "111111", "1234567890", "admin", "welcome", "password1"}
  {
    password in CommonPasswords && CommonPasswords[password]
  }

  /** The lookup is case-sensitive. */
  lemma CommonIsCaseSensitive()
    ensures IsCommonPassword("password") && !IsCommonPassword("Password") && !IsCommonPassword("ADMIN")
  {
  }

  /** Unicode's White_Space characters, which strings.TrimSpace removes. */
  predicate IsSpace(c: char)
  {
    c == ' ' || c == '\t' || c == '\n' || c == '\r' || c as int == 0x0B || c as int == 0x0C
    || c as int == 0x85 || c as int == 0xA0 || c as int == 0x1680 || (0x2000 <= c as int <= 0x200A)
    || c as int == 0x2028 || c as int == 0x2029 || c as int == 0x202F || c as int == 0x205F || c as int == 0x3000
  }

  /** The string without its leading white space. */
  function TrimLeft(s: string): (r: string)
    ensures |r| <= |s| && r == s[|s| - |r|..]
    ensures r == [] || !IsSpace(r[0])
    ensures forall i :: 0 <= i < |s| - |r| ==> IsSpace(s[i])
  {
    if s != [] && IsSpace(s[0]) then TrimLeft(s[1..]) else s
  }

  /** The string without its trailing white space. */
  function TrimRight(s: string): (r: string)
    ensures |r| <= |s| && r == s[..|r|]
    ensures r == [] || !IsSpace(r[|r| - 1])
    ensures forall i :: |r| <= i < |s| ==> IsSpace(s[i])
  {
    if s != [] && IsSpace(s[|s| - 1]) then TrimRight(s[..|s| - 1]) else s
  }

  /** strings.TrimSpace. */
  function TrimSpace(s: string): (r: string)
    ensures r == [] || (!IsSpace(r[0]) && !IsSpace(r[|r| - 1]))
  {
    TrimRight(TrimLeft(s))
  }

  /** A string that neither starts nor ends with white space is its own trim. */
  lemma TrimSpaceFixed(s: string)
    requires s == [] || (!IsSpace(s[0]) && !IsSpace(s[|s| - 1]))
    ensures TrimSpace(s) == s
  {
  }

  /** SanitizeEmail: trimmed, then lower-cased. */
  function SanitizeEmail(email: string): (r: string)
    ensures r == Lower(TrimSpace(email))
    ensures forall i :: 0 <= i < |r| ==> !('A' <= r[i] <= 'Z')
  {
    Lower(TrimSpace(email))
  }

  /** Lower-casing turns no character into white space and no white space into something else. */
  lemma LowerKeepsSpace(c: char)
    ensures IsSpace(LowerChar(c)) <==> IsSpace(c)
  {
  }

  /** Sanitising an email twice gives the same result as once. */
  lemma SanitizeEmailIdempotent(email: string)
    ensures SanitizeEmail(SanitizeEmail(email)) == SanitizeEmail(email)
  {
    var once := SanitizeEmail(email);
    var t := TrimSpace(email);
    if once != [] {
      LowerKeepsSpace(t[0]);
      LowerKeepsSpace(t[|t| - 1]);
    }
    TrimSpaceFixed(once);
    assert Lower(once) == once by {
      forall i | 0 <= i < |once| ensures Lower(once)[i] == once[i] {
      }
    }
  }

  /** The characters SanitizeUsername removes. */
  predicate IsHarmful(c: char)
  {
    c == '<' || c == '>' || c == '&' || c == '\'' || c == '"'
  }

  /** The string with every harmful character removed, the rest in order. */
  function RemoveHarmful(s: string): (r: string)
    ensures |r| <= |s|
    ensures forall i :: 0 <= i < |r| ==> !IsHarmful(r[i])
    ensures (forall i :: 0 <= i < |s| ==> !IsHarmful(s[i])) ==> r == s
  {
    if s == [] then []
    else if IsHarmful(s[|s| - 1]) then RemoveHarmful(s[..|s| - 1])
    else RemoveHarmful(s[..|s| - 1]) + [s[|s| - 1]]
  }

  /** SanitizeUsername: trimmed, then stripped of the harmful characters. */
  function SanitizeUsername(username: string): (r: string)
    ensures forall i :: 0 <= i < |r| ==> !IsHarmful(r[i])
    ensures r == RemoveHarmful(TrimSpace(username))
  {
    RemoveHarmful(TrimSpace(username))
  }

  /** Removal works piecewise on a concatenation. */
  lemma {:induction false} RemoveHarmfulConcat(a: string, b: string)
    ensures RemoveHarmful(a + b) == RemoveHarmful(a) + RemoveHarmful(b)
    decreases |b|
  {
    if b == [] {
      assert a + b == a;
    } else {
      var b' := b[..|b| - 1];
      assert (a + b)[..|a + b| - 1] == a + b';
      RemoveHarmfulConcat(a, b');
    }
  }

  /** A harmful first character shields the white space behind it from the trim. */
  lemma HarmfulHeadShieldsSpace(h: char, t: string)
    requires IsHarmful(h) && t != [] && !IsSpace(t[|t| - 1])
    requires forall i :: 0 <= i < |t| ==> !IsHarmful(t[i])
    ensures SanitizeUsername([h] + t) == t
  {
    TrimSpaceFixed([h] + t);
    RemoveHarmfulConcat([h], t);
    assert RemoveHarmful([h]) == [] by {
      assert [h][..0] == [];
    }
  }

  /** A clean name with leading white space is changed by sanitising. */
  lemma LeadingSpaceTrimmed(t: string)
    requires t != [] && IsSpace(t[0])
    requires forall i :: 0 <= i < |t| ==> !IsHarmful(t[i])
    ensures SanitizeUsername(t) != t
  {
    var left := TrimLeft(t);
    assert |left| < |t|;
    var trimmed := TrimRight(left);
    assert forall i :: 0 <= i < |trimmed| ==> trimmed[i] == t[|t| - |left| + i];
    assert RemoveHarmful(trimmed) == trimmed;
  }

  /**
   * Sanitising a username is not idempotent: for instance "<  bob" gives "  bob",
   * and that gives "bob".
   */
  lemma UsernameNotIdempotent(h: char, t: string)
    requires IsHarmful(h) && |t| >= 2 && IsSpace(t[0]) && !IsSpace(t[|t| - 1])
    requires forall i :: 0 <= i < |t| ==> !IsHarmful(t[i])
    ensures SanitizeUsername(SanitizeUsername([h] + t)) != SanitizeUsername([h] + t)
  {
    HarmfulHeadShieldsSpace(h, t);
    LeadingSpaceTrimmed(t);
  }
}
