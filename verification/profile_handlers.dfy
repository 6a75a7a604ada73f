/**
 * The profile request handlers
 * (server/src/middlewares/Profiles/Profile.middleware.ts) over a store that
 * maps ids to profiles. `newId` is the id the store assigns and `fault` says
 * that the store call made for this request throws.
 */
module ProfileHandlers {
  import opened Wrappers
  import opened Js
  import opened Http

  /** A stored profile: the body's name and owner, as given. */
  datatype Profile = Profile(name: Value, userId: Value)

  type Store = map<string, Profile>

  /** `createProfile`: a truthy name and owner are required, and only those two fields are kept. */
  function CreateProfile(store: Store, body: Option<Obj>, newId: string, fault: bool): (res: (Store, Response<Profile>))
    requires newId !in store
    ensures res.1.status in {201, 400, 500}
    ensures res.1.status != 201 ==> res.0 == store && res.1.payload.None?
    ensures body.None? ==> res.1 == Reply(500, InternalError)
    ensures body.Some? ==>
      (res.1.status == 400 <==> !Truthy(Get(body.value, "name")) || !Truthy(Get(body.value, "userId")))
    ensures res.1.status == 201 <==>
      body.Some? && Truthy(Get(body.value, "name")) && Truthy(Get(body.value, "userId")) && !fault
    ensures res.1.status == 201 ==>
      && var p := Profile(Get(body.value, "name"), Get(body.value, "userId"));
         res.1 == Response(201, "Profile created successfully", Some(p)) && res.0 == store[newId := p]
  {
    if body.None? then (store, Reply(500, InternalError))
    else
      var name := Get(body.value, "name");
      var userId := Get(body.value, "userId");
      if !Truthy(name) || !Truthy(userId) then (store, Reply(400, "Invalid profile data"))
      else if fault then (store, Reply(500, InternalError))
      else
        var p := Profile(name, userId);
        (store[newId := p], Response(201, "Profile created successfully", Some(p)))
  }

  /** `getProfilesByUser`: exactly the profiles owned by the given user. */
  function GetProfilesByUser(store: Store, userId: Value, fault: bool): (r: Response<Store>)
    ensures MissingParam(userId) ==> r == Reply(400, "User ID is required")
    ensures !MissingParam(userId) && (fault || !userId.Str?) ==> r == Reply(500, InternalError)
    ensures r.status == 200 <==> !MissingParam(userId) && userId.Str? && !fault
    ensures r.status != 200 ==> r.status in {400, 500} && r.payload.None?
    ensures r.status == 200 ==>
      && r.payload.Some?
      && (forall id :: id in r.payload.value <==> id in store && store[id].userId == userId)
      && (forall id :: id in r.payload.value ==> r.payload.value[id] == store[id])
  {
    if MissingParam(userId) then Reply(400, "User ID is required")
    else if !userId.Str? || fault then Reply(500, InternalError)
    else
      Response(200, "Profiles fetched successfully",
        Some(map id | id in store && store[id].userId == userId :: store[id]))
  }

  /** A profile created for a user is listed among that user's profiles. */
  lemma CreatedProfileListed(store: Store, body: Obj, newId: string)
    requires newId !in store
    requires CreateProfile(store, Some(body), newId, false).1.status == 201
    requires Get(body, "userId").Str?
    ensures var s1 := CreateProfile(store, Some(body), newId, false).0;
      var listed := GetProfilesByUser(s1, Get(body, "userId"), false);
      listed.status == 200 && newId in listed.payload.value
      && listed.payload.value[newId] == Profile(Get(body, "name"), Get(body, "userId"))
  {
  }
}
