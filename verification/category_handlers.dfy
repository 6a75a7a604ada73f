/**
 * The category request handlers
 * (server/src/middlewares/Categories/Category.middleware.ts) over a store
 * that maps ids to categories. The store's case-insensitive name lookup is
 * passed in as `sameName(stored, requested)`; `newId` is the id the store
 * assigns and `fault` says that the store call made for this request throws.
 */
module CategoryHandlers {
  import opened Wrappers
  import opened Js
  import opened Http
  import opened CategoryValidation

  /** A stored category. The owner is kept as the body gave it. */
  datatype Category = Category(name: string, description: Option<string>, userId: Value)

  type Store = map<string, Category>

  /** `findCategoryByUserAndName` finds a match: the same owner and a name the lookup accepts. */
  predicate HasDuplicate(store: Store, userId: Value, name: string, sameName: (string, string) -> bool)
  {
    exists id | id in store :: store[id].userId == userId && sameName(store[id].name, name)
  }

  /**
   * `description?.trim()`: nothing for null or undefined, the trimmed text
   * for a string, and a TypeError (None) for any other value.
   */
  function TrimmedDescription(d: Value): (r: Option<Option<string>>)
    ensures Nullish(d) ==> r == Some(None)
    ensures d.Str? ==> r == Some(Some(Trim(d.s)))
    ensures r.None? <==> !Nullish(d) && !d.Str?
  {
    if Nullish(d) then Some(None)
    else if d.Str? then Some(Some(Trim(d.s)))
    else None
  }

  /** `createCategory`. */
  function CreateCategory(
    store: Store, body: Option<Obj>, sameName: (string, string) -> bool, newId: string, fault: bool)
    : (res: (Store, Response<Category>))
    requires newId !in store
    ensures res.1.status in {201, 400, 409, 500}
    ensures res.1.status != 201 ==> res.0 == store
    ensures body.None? ==> res.1 == Reply(500, InternalError)
    ensures body.Some? ==> (res.1.status == 400 <==> !ValidCreate(body.value))
    ensures res.1.status == 409 <==>
      && body.Some? && ValidCreate(body.value) && !fault
      && HasDuplicate(store, Get(body.value, "userId"), Get(body.value, "name").s, sameName)
    ensures res.1.status == 201 <==>
      && body.Some? && ValidCreate(body.value) && !fault
      && !HasDuplicate(store, Get(body.value, "userId"), Get(body.value, "name").s, sameName)
      && TrimmedDescription(Get(body.value, "description")).Some?
    ensures res.1.status == 201 ==>
      && var c := Category(
           Trim(Get(body.value, "name").s),
           TrimmedDescription(Get(body.value, "description")).value,
           Get(body.value, "userId"));
         res.1.payload == Some(c) && res.0 == store[newId := c]
  {
    if body.None? then (store, Reply(500, InternalError))
    else
      var o := body.value;
      if !ValidCreate(o) then (store, Reply(400, "Invalid category data"))
      else if fault then (store, Reply(500, InternalError))
      else
        var name := Get(o, "name").s;
        var userId := Get(o, "userId");
        if HasDuplicate(store, userId, name, sameName) then (store, Reply(409, "Category already exists"))
        else
          match TrimmedDescription(Get(o, "description"))
          case None => (store, Reply(500, InternalError))
          case Some(description) =>
            var c := Category(Trim(name), description, userId);
            (store[newId := c], Response(201, "Category created successfully", Some(c)))
  }

  /**
   * Creating the same category twice: the second attempt finds the first
   * (when the lookup matches the stored trimmed name) and is refused with 409.
   */
  lemma CreateTwiceConflicts(
    store: Store, body: Obj, sameName: (string, string) -> bool, id1: string, id2: string)
    requires id1 !in store && id2 !in store && id1 != id2
    requires CreateCategory(store, Some(body), sameName, id1, false).1.status == 201
    requires sameName(Trim(Get(body, "name").s), Get(body, "name").s)
    ensures var s1 := CreateCategory(store, Some(body), sameName, id1, false).0;
      CreateCategory(s1, Some(body), sameName, id2, false) == (s1, Reply(409, "Category already exists"))
  {
    var s1 := CreateCategory(store, Some(body), sameName, id1, false).0;
    assert s1[id1].userId == Get(body, "userId") && s1[id1].name == Trim(Get(body, "name").s);
    assert HasDuplicate(s1, Get(body, "userId"), Get(body, "name").s, sameName);
  }

  /** The id check shared by get, update and delete: absent, empty or repeated ids are refused. */
  const IdRequired := "Category ID is required"
  const NotFound := "Category not found"

  /** `getCategory`. A non-string id fails the store's cast. */
  function GetCategory(store: Store, id: Value, fault: bool): (r: Response<Category>)
    ensures MissingParam(id) ==> r == Reply(400, IdRequired)
    ensures !MissingParam(id) && (fault || !id.Str?) ==> r.status == 500
    ensures !MissingParam(id) && id.Str? && !fault ==>
      if id.s in store then r.status == 200 && r.payload == Some(store[id.s]) else r == Reply(404, NotFound)
  {
    if MissingParam(id) then Reply(400, IdRequired)
    else if !id.Str? || fault then Reply(500, InternalError)
    else if id.s !in store then Reply(404, NotFound)
    else Response(200, "Category fetched successfully", Some(store[id.s]))
  }

  /** `getCategoriesByUser`: the categories whose owner is the given user. */
  function GetCategoriesByUser(store: Store, userId: Value, fault: bool): (r: Response<Store>)
    ensures r.status in {200, 400, 500}
    ensures MissingParam(userId) ==> r == Reply(400, "User ID is required")
    ensures !MissingParam(userId) && (fault || !userId.Str?) ==> r == Reply(500, InternalError)
    ensures r.status == 200 <==> !MissingParam(userId) && userId.Str? && !fault
    ensures r.status == 200 ==>
      && r.payload.Some?
      && (forall id :: id in r.payload.value <==> id in store && store[id].userId == userId)
      && (forall id :: id in r.payload.value ==> r.payload.value[id] == store[id])
  {
    if MissingParam(userId) then Reply(400, "User ID is required")
    else if !userId.Str? || fault then Reply(500, InternalError)
    else
      Response(200, "Categories fetched successfully",
        Some(map id | id in store && store[id].userId == userId :: store[id]))
  }

  /** The fields an update may change; None leaves the stored value as it is. */
  datatype Patch = Patch(name: Option<string>, description: Option<string>)

  /** The update patch: the truthy name and description of the body, trimmed. */
  function BuildPatch(body: Obj): (p: Patch)
    requires ValidUpdate(body)
    ensures p.name.Some? <==> Truthy(Get(body, "name"))
    ensures p.name.Some? ==> p.name.value == Trim(Get(body, "name").s)
    ensures p.description.Some? <==> Truthy(Get(body, "description"))
    ensures p.description.Some? ==> p.description.value == Trim(Get(body, "description").s)
  {
    var name := Get(body, "name");
    var description := Get(body, "description");
    Patch(
      if Truthy(name) then Some(Trim(name.s)) else None,
      if Truthy(description) then Some(Trim(description.s)) else None)
  }

  /** A category with a patch applied; the owner never changes. */
  function Merge(c: Category, p: Patch): (r: Category)
    ensures r.userId == c.userId
    ensures r.name == (if p.name.Some? then p.name.value else c.name)
    ensures r.description == (if p.description.Some? then p.description else c.description)
  {
    Category(p.name.GetOr(c.name), if p.description.Some? then p.description else c.description, c.userId)
  }

  /** `updateCategory`. The body is read before the id is checked. */
  function UpdateCategory(store: Store, id: Value, body: Option<Obj>, fault: bool): (res: (Store, Response<Category>))
    ensures res.1.status in {200, 400, 404, 500}
    ensures res.1.status != 200 ==> res.0 == store
    ensures body.None? ==> res.1 == Reply(500, InternalError)
    ensures body.Some? && MissingParam(id) ==> res.1 == Reply(400, IdRequired)
    ensures body.Some? && !MissingParam(id) && !ValidUpdate(body.value) ==> res.1 == Reply(400, "Invalid category data")
    ensures body.Some? && !MissingParam(id) && ValidUpdate(body.value) && (fault || !id.Str?) ==>
      res.1 == Reply(500, InternalError)
    ensures res.1.status == 404 <==>
      body.Some? && !MissingParam(id) && ValidUpdate(body.value) && id.Str? && !fault && id.s !in store
    ensures res.1.status == 200 <==>
      body.Some? && !MissingParam(id) && ValidUpdate(body.value) && id.Str? && !fault && id.s in store
    ensures res.1.status == 200 ==>
      && var c := Merge(store[id.s], BuildPatch(body.value));
         res.1.payload == Some(c) && res.0 == store[id.s := c]
  {
    if body.None? then (store, Reply(500, InternalError))
    else if MissingParam(id) then (store, Reply(400, IdRequired))
    else if !ValidUpdate(body.value) then (store, Reply(400, "Invalid category data"))
    else if !id.Str? || fault then (store, Reply(500, InternalError))
    else if id.s !in store then (store, Reply(404, NotFound))
    else
      var c := Merge(store[id.s], BuildPatch(body.value));
      (store[id.s := c], Response(200, "Category updated successfully", Some(c)))
  }

  /** Repeating a successful update leaves the store as the first one left it. */
  lemma UpdateIdempotent(store: Store, id: string, body: Obj)
    requires UpdateCategory(store, Str(id), Some(body), false).1.status == 200
    ensures var s1 := UpdateCategory(store, Str(id), Some(body), false).0;
      UpdateCategory(s1, Str(id), Some(body), false).0 == s1
  {
    var s1 := UpdateCategory(store, Str(id), Some(body), false).0;
    var p := BuildPatch(body);
    assert Merge(Merge(store[id], p), p) == Merge(store[id], p);
    assert s1[id := Merge(s1[id], p)] == s1;
  }

  /** `deleteCategory`. */
  function DeleteCategory(store: Store, id: Value, fault: bool): (res: (Store, Response<Category>))
    ensures res.1.status in {200, 400, 404, 500}
    ensures res.1.status != 200 ==> res.0 == store
    ensures MissingParam(id) ==> res.1 == Reply(400, IdRequired)
    ensures !MissingParam(id) && (fault || !id.Str?) ==> res.1 == Reply(500, InternalError)
    ensures res.1.status == 404 <==> !MissingParam(id) && id.Str? && !fault && id.s !in store
    ensures res.1.status == 200 <==> !MissingParam(id) && id.Str? && !fault && id.s in store
    ensures res.1.status == 200 ==> res.0.Keys == store.Keys - {id.s} && forall k :: k in res.0 ==> res.0[k] == store[k]
  {
    if MissingParam(id) then (store, Reply(400, IdRequired))
    else if !id.Str? || fault then (store, Reply(500, InternalError))
    else if id.s !in store then (store, Reply(404, NotFound))
    else (store - {id.s}, Reply(200, "Category deleted successfully"))
  }
}
