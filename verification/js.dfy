/**
 * The fragment of JavaScript value semantics the request logic depends on:
 * the shape of a value, truthiness, `String.prototype.trim`, the `\s` class
 * of regular expressions, and `.length` measured in UTF-16 code units.
 */
module Js {
  import opened Wrappers

  /**
   * A JavaScript value as it reaches the request handlers. Numbers are
   * mathematical reals (NaN and the infinities are not modelled); a Date
   * carries its time value in milliseconds, or None for an Invalid Date.
   */
  datatype Value =
    | Undefined
    | Null
    | Bool(b: bool)
    | Num(n: real)
    | Str(s: string)
    | Date(time: Option<int>)
    | Arr(items: seq<Value>)
    | Object(fields: map<string, Value>)

  /** A plain object such as a parsed JSON request body; an absent key reads as `undefined`. */
  type Obj = map<string, Value>

  function Get(o: Obj, key: string): (v: Value)
    ensures key !in o ==> v == Undefined
    ensures key in o ==> v == o[key]
  {
    if key in o then o[key] else Undefined
  }

  /** JavaScript's ToBoolean: the falsy values are undefined, null, false, 0 and "". */
  predicate Truthy(v: Value)
  {
    match v
    case Undefined => false
    case Null => false
    case Bool(b) => b
    case Num(n) => n != 0.0
    case Str(s) => |s| > 0
    case _ => true
  }

  /** `null` or `undefined`: what `?.` short-circuits on and `!== null && !== undefined` excludes. */
  predicate Nullish(v: Value)
  {
    v == Undefined || v == Null
  }

  /**
   * The characters `trim()` removes and `\s` matches: ECMAScript's WhiteSpace
   * (tab, vertical tab, form feed, space, no-break space, byte order mark and
   * the Unicode space separators) together with its LineTerminators.
   */
  predicate IsWhitespace(c: char)
  {
    || c == '\t' || c == '\n' || c == '\U{B}' || c == '\U{C}' || c == '\r'
    || c == ' ' || c == '\U{A0}' || c == '\U{1680}'
    || ('\U{2000}' <= c <= '\U{200A}')
    || c == '\U{2028}' || c == '\U{2029}' || c == '\U{202F}' || c == '\U{205F}'
    || c == '\U{3000}' || c == '\U{FEFF}'
  }

  ghost predicate AllWhitespace(s: string)
  {
    forall i :: 0 <= i < |s| ==> IsWhitespace(s[i])
  }

  /** Number of whitespace characters at the start of `s`. */
  function LeadingSpace(s: string): (k: nat)
    ensures k <= |s|
    ensures AllWhitespace(s[..k])
    ensures k < |s| ==> !IsWhitespace(s[k])
  {
    if |s| == 0 || !IsWhitespace(s[0]) then 0
    else
      var k := 1 + LeadingSpace(s[1..]);
      assert s[..k] == [s[0]] + s[1..][..k - 1];
      k
  }

  /** Number of whitespace characters that end the prefix `s[..j]`. */
  function TrailingSpaceBefore(s: string, j: nat): (k: nat)
    requires j <= |s|
    ensures k <= j
    ensures forall i :: j - k <= i < j ==> IsWhitespace(s[i])
    ensures k < j ==> !IsWhitespace(s[j - k - 1])
    decreases j
  {
    if j == 0 || !IsWhitespace(s[j - 1]) then 0 else 1 + TrailingSpaceBefore(s, j - 1)
  }

  /** Number of whitespace characters at the end of `s`. */
  function TrailingSpace(s: string): (k: nat)
    ensures k <= |s|
    ensures AllWhitespace(s[|s| - k..])
    ensures k < |s| ==> !IsWhitespace(s[|s| - k - 1])
  {
    TrailingSpaceBefore(s, |s|)
  }

  /**
   * `String.prototype.trim`: `s` with its leading and trailing whitespace
   * removed. The result is the slice `s[i..j]` whose outside is all
   * whitespace and whose first and last characters are not.
   */
  function Trim(s: string): (r: string)
    ensures |r| <= |s|
    ensures exists i, j :: 0 <= i <= j <= |s| && r == s[i..j] && AllWhitespace(s[..i]) && AllWhitespace(s[j..])
    ensures |r| > 0 ==> !IsWhitespace(r[0]) && !IsWhitespace(r[|r| - 1])
  {
    var i := LeadingSpace(s);
    var t := s[i..];
    var j := |t| - TrailingSpace(t);
    assert t[j..] == s[i + j..];
    assert t[..j] == s[i..i + j];
    t[..j]
  }

  /** A string trims to "" exactly when every character of it is whitespace. */
  lemma TrimEmptyIffBlank(s: string)
    ensures |Trim(s)| == 0 <==> AllWhitespace(s)
  {
    var i := LeadingSpace(s);
    if |Trim(s)| == 0 {
      var t := s[i..];
      assert AllWhitespace(t[|t| - TrailingSpace(t)..]);
      assert i == |s|;
      assert s[..i] == s;
    }
  }

  /** Trimming a trimmed string changes nothing. */
  lemma TrimIdempotent(s: string)
    ensures Trim(Trim(s)) == Trim(s)
  {
    var r := Trim(s);
    if |r| > 0 {
      assert LeadingSpace(r) == 0;
      assert TrailingSpace(r) == 0;
      assert r[0..] == r;
      assert r[..|r|] == r;
    }
  }

  /** Code units a character takes in UTF-16: two for characters outside the Basic Multilingual Plane. */
  function CodeUnits(c: char): nat
  {
    if c as int > 0xFFFF then 2 else 1
  }

  /** JavaScript's `string.length`, which counts UTF-16 code units rather than characters. */
  function Utf16Length(s: string): (n: nat)
    ensures |s| <= n <= 2 * |s|
  {
    if |s| == 0 then 0 else CodeUnits(s[0]) + Utf16Length(s[1..])
  }

  /** Lengths add up over concatenation. */
  lemma {:induction false} Utf16LengthConcat(a: string, b: string)
    ensures Utf16Length(a + b) == Utf16Length(a) + Utf16Length(b)
  {
    if |a| == 0 {
      assert a + b == b;
    } else {
      assert (a + b)[1..] == a[1..] + b;
      Utf16LengthConcat(a[1..], b);
    }
  }

  /** For text inside the Basic Multilingual Plane, `.length` is the number of characters. */
  lemma {:induction false} Utf16LengthBmp(s: string)
    requires forall i :: 0 <= i < |s| ==> s[i] as int <= 0xFFFF
    ensures Utf16Length(s) == |s|
  {
    if |s| > 0 {
      assert forall i :: 0 <= i < |s[1..]| ==> s[1..][i] == s[i + 1];
      Utf16LengthBmp(s[1..]);
    }
  }

  /** A character outside the Basic Multilingual Plane is a surrogate pair: `.length` counts it twice. */
  lemma Utf16LengthAstral(c: char)
    requires c as int > 0xFFFF
    ensures Utf16Length([c]) == 2
  {
    assert [c][1..] == [];
  }

  /**
   * The numeric `.length` property of a value, when it has one: strings and
   * arrays do, an object does when its own `length` key holds a number.
   * Otherwise `.length` is `undefined`, and every `<` or `>` comparison
   * against it is false.
   */
  function LengthOf(v: Value): (len: Option<real>)
    ensures v.Str? ==> len == Some(Utf16Length(v.s) as real)
    ensures v.Arr? ==> len == Some(|v.items| as real)
    ensures v.Object? ==> len == (if Get(v.fields, "length").Num? then Some(Get(v.fields, "length").n) else None)
    ensures (v.Undefined? || v.Null? || v.Bool? || v.Num? || v.Date?) ==> len == None
  {
    match v
    case Str(s) => Some(Utf16Length(s) as real)
    case Arr(items) => Some(|items| as real)
    case Object(f) => if Get(f, "length").Num? then Some(Get(f, "length").n) else None
    case _ => None
  }

  /** `v.length < bound`, with JavaScript's answer `false` when the length is undefined. */
  predicate LengthBelow(v: Value, bound: int)
  {
    var len := LengthOf(v);
    len.Some? && len.value < bound as real
  }
}
