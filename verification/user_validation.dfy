/** The checks on sign-up and login bodies (server/src/middlewares/User/validations.ts). */
module UserValidation {
  import opened Js

  const MinPasswordLength := 6
  const MinUsernameLength := 3

  /** A character of the class `[^\s@]`. */
  predicate EmailChar(c: char)
  {
    !IsWhitespace(c) && c != '@'
  }

  /** A non-empty run of `[^\s@]+`. */
  predicate EmailRun(t: string)
  {
    |t| > 0 && forall i :: 0 <= i < |t| ==> EmailChar(t[i])
  }

  /**
   * `/^[^\s@]+@[^\s@]+\.[^\s@]+$/.test(s)`, read left to right: a run, the
   * '@' at index `a`, a run, the '.' at index `k`, a run, and nothing else.
   */
  predicate EmailPattern(s: string)
  {
    exists a, k | 0 <= a < k < |s| ::
      s[a] == '@' && s[k] == '.' && EmailRun(s[..a]) && EmailRun(s[a + 1..k]) && EmailRun(s[k + 1..])
  }

  /** The '@' at index `a` is the only one in `s`. */
  ghost predicate OnlyAt(s: string, a: int)
  {
    0 <= a < |s| && s[a] == '@' && forall j :: 0 <= j < |s| && j != a ==> s[j] != '@'
  }

  /**
   * The pattern in plain words: no whitespace anywhere, exactly one '@' with
   * something before it, and after it a '.' with at least one character on
   * each side.
   */
  ghost predicate EmailShape(s: string)
  {
    && (forall i :: 0 <= i < |s| ==> !IsWhitespace(s[i]))
    && exists a :: 0 < a < |s| && OnlyAt(s, a) && exists k :: a + 1 < k < |s| - 1 && s[k] == '.'
  }

  /** The regular expression accepts exactly the strings of that shape. */
  lemma EmailPatternIff(s: string)
    ensures EmailPattern(s) <==> EmailShape(s)
  {
    if EmailPattern(s) {
      PatternHasShape(s);
    }
    if EmailShape(s) {
      ShapeMatchesPattern(s);
    }
  }

  lemma PatternHasShape(s: string)
    requires EmailPattern(s)
    ensures EmailShape(s)
  {
    var a, k :| 0 <= a < k < |s| && s[a] == '@' && s[k] == '.' && EmailRun(s[..a]) && EmailRun(s[a + 1..k]) && EmailRun(s[k + 1..]);
    forall j | 0 <= j < |s|
      ensures !IsWhitespace(s[j]) && (j != a ==> s[j] != '@')
    {
      if j < a {
        assert s[..a][j] == s[j];
      } else if a < j < k {
        assert s[a + 1..k][j - a - 1] == s[j];
      } else if k < j {
        assert s[k + 1..][j - k - 1] == s[j];
      }
    }
    assert OnlyAt(s, a);
  }

  lemma ShapeMatchesPattern(s: string)
    requires EmailShape(s)
    ensures EmailPattern(s)
  {
    var a :| 0 < a < |s| && OnlyAt(s, a) && exists k :: a + 1 < k < |s| - 1 && s[k] == '.';
    var k :| a + 1 < k < |s| - 1 && s[k] == '.';
    assert EmailRun(s[..a]) by {
      assert forall j :: 0 <= j < a ==> s[..a][j] == s[j];
    }
    assert EmailRun(s[a + 1..k]) by {
      assert forall j :: a + 1 <= j < k ==> s[a + 1..k][j - a - 1] == s[j];
    }
    assert EmailRun(s[k + 1..]) by {
      assert forall j :: k + 1 <= j < |s| ==> s[k + 1..][j - k - 1] == s[j];
    }
  }

  /**
   * `emailRegex.test(email)` on a field value. JavaScript tests the string
   * conversion of a non-string; here only strings can match.
   */
  predicate EmailAccepted(v: Value)
  {
    v.Str? && EmailPattern(v.s)
  }

  /** `validateSignUpData`. */
  function ValidSignUp(body: Obj): (ok: bool)
    ensures ok <==>
      && Truthy(Get(body, "username")) && Truthy(Get(body, "password"))
      && EmailAccepted(Get(body, "email"))
      && !LengthBelow(Get(body, "password"), MinPasswordLength)
      && !LengthBelow(Get(body, "username"), MinUsernameLength)
  {
    var username := Get(body, "username");
    var email := Get(body, "email");
    var password := Get(body, "password");
    if !Truthy(username) || !Truthy(email) || !Truthy(password) then false
    else if !EmailAccepted(email) then false
    else if LengthBelow(password, MinPasswordLength) then false
    else if LengthBelow(username, MinUsernameLength) then false
    else true
  }

  /** `validateLoginData`. */
  function ValidLogin(body: Obj): (ok: bool)
    ensures ok <==>
      && Get(body, "usernameOrEmail").Str? && |Trim(Get(body, "usernameOrEmail").s)| > 0
      && Get(body, "password").Str? && Utf16Length(Get(body, "password").s) >= MinPasswordLength
  {
    var who := Get(body, "usernameOrEmail");
    var password := Get(body, "password");
    if !Truthy(who) || !Truthy(password) then false
    else if !who.Str? || Utf16Length(Trim(who.s)) == 0 then false
    else if !password.Str? || Utf16Length(password.s) < MinPasswordLength then false
    else true
  }

  /** For string fields, sign-up demands a password of at least 6 and a username of at least 3 code units. */
  lemma SignUpStringBounds(body: Obj)
    requires Get(body, "username").Str? && Get(body, "password").Str?
    ensures ValidSignUp(body) ==>
      Utf16Length(Get(body, "password").s) >= MinPasswordLength && Utf16Length(Get(body, "username").s) >= MinUsernameLength
  {
  }

  /** The address of the sign-up example matches. */
  lemma EmailExampleAccepted()
    ensures EmailPattern("alice@x.com")
  {
    var ok := "alice@x.com";
    assert ok[..5] == "alice" && ok[6..7] == "x" && ok[8..] == "com";
    assert ok[5] == '@' && ok[7] == '.';
    assert EmailRun(ok[..5]) && EmailRun(ok[6..7]) && EmailRun(ok[8..]);
  }

  /** An address with a second '@' never matches. */
  lemma TwoAtsRejected(s: string, i: int, j: int)
    requires 0 <= i < j < |s| && s[i] == '@' && s[j] == '@'
    ensures !EmailPattern(s)
  {
    if EmailPattern(s) {
      PatternHasShape(s);
    }
  }

  /** So does an address with whitespace in it. */
  lemma WhitespaceRejected(s: string, i: int)
    requires 0 <= i < |s| && IsWhitespace(s[i])
    ensures !EmailPattern(s)
  {
    if EmailPattern(s) {
      PatternHasShape(s);
    }
  }
}
