/**
 * The sign-up handler (server/src/middlewares/User/User.middleware.ts) over a
 * store that maps ids to users. Password hashing is the parameter `hash`;
 * `newId` is the id the store assigns and `fault` says that the store call
 * made for this request throws.
 */
module UserHandlers {
  import opened Wrappers
  import opened Js
  import opened Http
  import opened UserValidation

  /**
   * A stored user. Username, email and type are kept as the body gave them;
   * the password is the hash of the body's password.
   */
  datatype User = User(username: Value, email: Value, password: string, userType: Value)

  type Store = map<string, User>

  /** The role given when the client names none. */
  const DefaultUserType := "user"

  /** `findUserByUsernameOrEmail` finds a match: a user with the same username OR the same email. */
  predicate UserExists(store: Store, username: Value, email: Value)
  {
    exists id | id in store :: store[id].username == username || store[id].email == email
  }

  /** `type || UserType.USER`: the client's type when truthy, "user" otherwise. */
  function UserTypeOr(t: Value): (r: Value)
    ensures Truthy(t) ==> r == t
    ensures !Truthy(t) ==> r == Str(DefaultUserType)
    ensures Truthy(r)
  {
    if Truthy(t) then t else Str(DefaultUserType)
  }

  /**
   * `signUp`. Hashing a password that is not a string throws, which the
   * handler reports as 500.
   */
  function SignUp(store: Store, body: Option<Obj>, hash: string -> string, newId: string, fault: bool)
    : (res: (Store, Response<User>))
    requires newId !in store
    ensures res.1.status in {201, 400, 409, 500}
    ensures res.1.status != 201 ==> res.0 == store && res.1.payload.None?
    ensures body.None? ==> res.1 == Reply(500, InternalError)
    ensures body.Some? ==> (res.1.status == 400 <==> !ValidSignUp(body.value))
    ensures res.1.status == 409 <==>
      && body.Some? && ValidSignUp(body.value) && !fault
      && UserExists(store, Get(body.value, "username"), Get(body.value, "email"))
    ensures res.1.status == 201 <==>
      && body.Some? && ValidSignUp(body.value) && !fault
      && !UserExists(store, Get(body.value, "username"), Get(body.value, "email"))
      && Get(body.value, "password").Str?
    ensures res.1.status == 201 ==>
      && var o := body.value;
         var u := User(Get(o, "username"), Get(o, "email"), hash(Get(o, "password").s), UserTypeOr(Get(o, "type")));
         res.1 == Response(201, "User signed up successfully", Some(u)) && res.0 == store[newId := u]
  {
    if body.None? then (store, Reply(500, InternalError))
    else
      var o := body.value;
      var username := Get(o, "username");
      var email := Get(o, "email");
      var password := Get(o, "password");
      if !ValidSignUp(o) then (store, Reply(400, "Invalid sign-up data"))
      else if fault then (store, Reply(500, InternalError))
      else if UserExists(store, username, email) then (store, Reply(409, "User already exists"))
      else if !password.Str? then (store, Reply(500, InternalError))
      else
        var u := User(username, email, hash(password.s), UserTypeOr(Get(o, "type")));
        (store[newId := u], Response(201, "User signed up successfully", Some(u)))
  }

  /**
   * Once a sign-up succeeds, any later sign-up that repeats its username or
   * its email is refused with 409, whatever the other fields say.
   */
  lemma SignUpBlocksSameUsernameOrEmail(
    store: Store, first: Obj, second: Obj, hash: string -> string, id1: string, id2: string)
    requires id1 !in store && id2 !in store && id1 != id2
    requires SignUp(store, Some(first), hash, id1, false).1.status == 201
    requires ValidSignUp(second)
    requires Get(second, "username") == Get(first, "username") || Get(second, "email") == Get(first, "email")
    ensures var s1 := SignUp(store, Some(first), hash, id1, false).0;
      SignUp(s1, Some(second), hash, id2, false) == (s1, Reply(409, "User already exists"))
  {
    var s1 := SignUp(store, Some(first), hash, id1, false).0;
    assert s1[id1].username == Get(first, "username") && s1[id1].email == Get(first, "email");
    assert UserExists(s1, Get(second, "username"), Get(second, "email"));
  }

  /** A client that asks for the "admin" role gets it: the type is forwarded, not checked. */
  lemma ClientTypeForwarded(store: Store, body: Obj, hash: string -> string, newId: string)
    requires newId !in store
    requires SignUp(store, Some(body), hash, newId, false).1.status == 201
    requires Get(body, "type") == Str("admin")
    ensures SignUp(store, Some(body), hash, newId, false).0[newId].userType == Str("admin")
  {
  }
}
