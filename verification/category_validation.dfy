/**
 * The checks a category body must pass (server/src/middlewares/Categories/validations.ts).
 * Both validators read the raw request body.
 */
module CategoryValidation {
  import opened Js

  const MinNameLength := 2
  const MaxNameLength := 100
  const MaxDescriptionLength := 500

  /**
   * A usable name: a string whose TRIMMED length is at least 2 and whose RAW
   * length is at most 100. The two bounds measure different strings.
   */
  predicate NameOk(v: Value)
  {
    v.Str? && Utf16Length(Trim(v.s)) >= MinNameLength && Utf16Length(v.s) <= MaxNameLength
  }

  /** An absent or falsy description, or a string of at most 500 code units. */
  predicate DescriptionOk(v: Value)
  {
    !Truthy(v) || (v.Str? && Utf16Length(v.s) <= MaxDescriptionLength)
  }

  /** `validateCreateCategoryData`. */
  function ValidCreate(body: Obj): (ok: bool)
    ensures ok <==> NameOk(Get(body, "name")) && Truthy(Get(body, "userId")) && DescriptionOk(Get(body, "description"))
  {
    var name := Get(body, "name");
    var description := Get(body, "description");
    if !Truthy(name) || !Truthy(Get(body, "userId")) then false
    else if !name.Str? || Utf16Length(Trim(name.s)) < MinNameLength then false
    else if Utf16Length(name.s) > MaxNameLength then false
    else if Truthy(description) && !description.Str? then false
    else if Truthy(description) && Utf16Length(description.s) > MaxDescriptionLength then false
    else true
  }

  /** `validateUpdateCategoryData`: name and description are checked only when present and truthy. */
  function ValidUpdate(body: Obj): (ok: bool)
    ensures ok <==> (Truthy(Get(body, "name")) ==> NameOk(Get(body, "name"))) && DescriptionOk(Get(body, "description"))
  {
    var name := Get(body, "name");
    var description := Get(body, "description");
    if Truthy(name) && (!name.Str? || Utf16Length(Trim(name.s)) < MinNameLength) then false
    else if Truthy(name) && Utf16Length(name.s) > MaxNameLength then false
    else if Truthy(description) && !description.Str? then false
    else if Truthy(description) && Utf16Length(description.s) > MaxDescriptionLength then false
    else true
  }

  /** Every check of the update validator also appears in the create validator. */
  lemma CreateValidImpliesUpdateValid(body: Obj)
    requires ValidCreate(body)
    ensures ValidUpdate(body)
  {
  }

  /** An empty body is a valid update. */
  lemma EmptyUpdateValid()
    ensures ValidUpdate(map[])
  {
  }

  /**
   * The bounds measure different strings: a name padded with spaces can be
   * short enough raw yet too short trimmed, or long enough trimmed yet too
   * long raw.
   */
  lemma {:induction false} NameBoundsMeasureDifferentStrings(pad: string)
    requires |pad| == 99 && AllWhitespace(pad)
    ensures Utf16Length(pad + "a") <= MaxNameLength && !NameOk(Str(pad + "a"))
    ensures Utf16Length(Trim(pad + "ab")) >= MinNameLength && !NameOk(Str(pad + "ab"))
  {
    var a := pad + "a";
    var ab := pad + "ab";
    Utf16LengthConcat(pad, "a");
    Utf16LengthConcat(pad, "ab");
    Utf16LengthBmp(pad);
    TrimPadded(pad, "a");
    TrimPadded(pad, "ab");
  }

  /** Trimming whitespace padding in front of a word with no whitespace leaves the word. */
  lemma {:induction false} TrimPadded(pad: string, word: string)
    requires AllWhitespace(pad)
    requires 0 < |word| && forall i :: 0 <= i < |word| ==> !IsWhitespace(word[i])
    ensures Trim(pad + word) == word
  {
    var s := pad + word;
    assert !IsWhitespace(s[|s| - 1]);
    LeadingPad(pad, word);
    assert s[|pad|..] == word;
  }

  lemma {:induction false} LeadingPad(pad: string, word: string)
    requires AllWhitespace(pad)
    requires 0 < |word| && !IsWhitespace(word[0])
    ensures LeadingSpace(pad + word) == |pad|
  {
    if |pad| > 0 {
      assert (pad + word)[1..] == pad[1..] + word;
      LeadingPad(pad[1..], word);
    } else {
      assert pad + word == word;
    }
  }
}
