/**
 * The sign-up form's reducer (client/src/modules/auth/helpers.ts): the
 * form holds three text fields and the only action sets one of them.
 */
module SignUpForm {

  datatype Field = Username | Email | Password

  datatype FormState = FormState(username: string, email: string, password: string)

  /** `SET_FIELD`, or any other action type, which the reducer ignores. */
  datatype Action = SetField(field: Field, payload: string) | Unknown

  /** The form the sign-up page starts from. */
  const Initial := FormState("", "", "")

  /** The value of one field of the form. */
  function Read(s: FormState, f: Field): string
  {
    match f
    case Username => s.username
    case Email => s.email
    case Password => s.password
  }

  /** `signUpReducer`. */
  function Reduce(s: FormState, a: Action): (r: FormState)
    ensures a.SetField? ==> Read(r, a.field) == a.payload
    ensures a.SetField? ==> forall f :: f != a.field ==> Read(r, f) == Read(s, f)
    ensures a.Unknown? ==> r == s
  {
    match a
    case Unknown => s
    case SetField(Username, v) => s.(username := v)
    case SetField(Email, v) => s.(email := v)
    case SetField(Password, v) => s.(password := v)
  }

  /** Two states that read alike on every field are the same state. */
  lemma ReadExtensional(s: FormState, t: FormState)
    requires forall f :: Read(s, f) == Read(t, f)
    ensures s == t
  {
    assert Read(s, Username) == Read(t, Username);
    assert Read(s, Email) == Read(t, Email);
    assert Read(s, Password) == Read(t, Password);
  }

  /** Setting a field twice to the same value is the same as setting it once. */
  lemma ReduceIdempotent(s: FormState, a: Action)
    ensures Reduce(Reduce(s, a), a) == Reduce(s, a)
  {
  }

  /** Dispatching a sequence of actions in order. */
  function ReduceAll(s: FormState, actions: seq<Action>): FormState
    decreases |actions|
  {
    if |actions| == 0 then s else ReduceAll(Reduce(s, actions[0]), actions[1..])
  }

  /** The payload of the last action that sets field `f`, or `current` when none does. */
  function LastWrite(actions: seq<Action>, f: Field, current: string): string
    decreases |actions|
  {
    if |actions| == 0 then current
    else
      var a := actions[|actions| - 1];
      if a.SetField? && a.field == f then a.payload else LastWrite(actions[..|actions| - 1], f, current)
  }

  /** Appending one action to a dispatched sequence. */
  lemma {:induction false} ReduceAllSnoc(s: FormState, actions: seq<Action>, a: Action)
    ensures ReduceAll(s, actions + [a]) == Reduce(ReduceAll(s, actions), a)
    decreases |actions|
  {
    if |actions| > 0 {
      assert (actions + [a])[1..] == actions[1..] + [a];
      ReduceAllSnoc(Reduce(s, actions[0]), actions[1..], a);
    }
  }

  /**
   * After any sequence of actions, every field holds the payload of the last
   * action that set it, and its earlier value when no action did.
   */
  lemma {:induction false} ReduceAllLastWrite(s: FormState, actions: seq<Action>, f: Field)
    ensures Read(ReduceAll(s, actions), f) == LastWrite(actions, f, Read(s, f))
    decreases |actions|
  {
    if |actions| > 0 {
      var init := actions[..|actions| - 1];
      var a := actions[|actions| - 1];
      assert actions == init + [a];
      ReduceAllSnoc(s, init, a);
      ReduceAllLastWrite(s, init, f);
    }
  }
}
