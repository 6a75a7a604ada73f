/**
 * The transaction request handlers
 * (server/src/middlewares/Transactions/Transaction.middleware.ts): validate,
 * look up, then write, each as a function from the store and the request to
 * the new store and the response.
 *
 * Library behaviour is passed in: `newDate` is the time value `new Date(x)`
 * yields (None for an Invalid Date), `now` the clock the schema's default
 * date reads, `newId` the id the store assigns, and `fault` says that the
 * store call made for this request throws.
 */
module TransactionHandlers {
  import opened Wrappers
  import opened Js
  import opened Http
  import opened TransactionValidation
  import opened TransactionRepository

  /** `date ? new Date(date) : undefined`. */
  function DateField(date: Value, newDate: Value -> Option<int>): (v: Value)
    ensures Truthy(date) ==> v == Date(newDate(date))
    ensures !Truthy(date) ==> v == Undefined
  {
    if Truthy(date) then Date(newDate(date)) else Undefined
  }

  /** The six fields a create forwards; every other body field is dropped. */
  function CreateData(o: Obj, newDate: Value -> Option<int>): TxData
  {
    TxData(Get(o, "amount"), Get(o, "type"), Get(o, "userId"), Get(o, "categoryId"), Get(o, "note"),
           DateField(Get(o, "date"), newDate))
  }

  /**
   * The document the store writes for validated data: a missing date takes
   * the schema default `now`, and an Invalid Date fails the store's cast.
   */
  function ToDocument(d: TxData, id: string, now: int): (t: Option<Transaction>)
    requires ValidCreate(d)
    ensures t.None? <==> d.date == Date(None)
    ensures t.Some? ==>
      && t.value.id == id
      && Num(t.value.amount) == d.amount
      && Str(TypeName(t.value.txType)) == d.txType
      && Str(t.value.userId) == d.userId
      && Str(t.value.categoryId) == d.categoryId
      && (d.note.Str? <==> t.value.note.Some?)
      && (t.value.note.Some? ==> Str(t.value.note.value) == d.note)
      && t.value.date == (if d.date.Date? then d.date.time.value else now)
  {
    var date := if d.date.Date? then d.date.time else Some(now);
    if date.None? then None
    else
      Some(Transaction(
        id, d.amount.n, if d.txType == Str("credit") then Credit else Debit,
        d.userId.s, d.categoryId.s, if d.note.Str? then Some(d.note.s) else None, date.value))
  }

  /** `createTransaction`. */
  function CreateTransaction(
    store: Store, body: Option<Obj>, newDate: Value -> Option<int>, newId: string, now: int, fault: bool)
    : (res: (Store, Response<Transaction>))
    requires !HasId(store, newId)
    ensures res.1.status in {201, 400, 500}
    ensures res.1.status != 201 ==> res.0 == store && res.1.payload.None?
    ensures body.None? ==> res.1 == Reply(500, InternalError)
    ensures body.Some? ==> (res.1.status == 400 <==> !ValidCreate(CreateData(body.value, newDate)))
    ensures res.1.status == 201 <==>
      && body.Some? && ValidCreate(CreateData(body.value, newDate)) && !fault
      && CreateData(body.value, newDate).date != Date(None)
    ensures res.1.status == 201 ==>
      && res.1.payload == ToDocument(CreateData(body.value, newDate), newId, now)
      && res.1.payload.Some? && res.1.payload.value.id == newId
      && res.0 == Create(store, res.1.payload.value)
      && Num(res.1.payload.value.amount) == Get(body.value, "amount")
      && Str(res.1.payload.value.userId) == Get(body.value, "userId")
      && Str(res.1.payload.value.categoryId) == Get(body.value, "categoryId")
  {
    if body.None? then (store, Reply(500, InternalError))
    else
      var d := CreateData(body.value, newDate);
      if !ValidCreate(d) then (store, Reply(400, "Invalid transaction data"))
      else if fault then (store, Reply(500, InternalError))
      else
        match ToDocument(d, newId, now)
        case None => (store, Reply(500, InternalError))
        case Some(t) => (Create(store, t), Response(201, "Transaction created successfully", Some(t)))
  }

  /** Fields other than the six a create reads make no difference to it. */
  lemma CreateReadsOnlyItsFields(
    store: Store, o1: Obj, o2: Obj, newDate: Value -> Option<int>, newId: string, now: int, fault: bool)
    requires !HasId(store, newId)
    requires forall k :: k in {"amount", "type", "userId", "categoryId", "note", "date"} ==> Get(o1, k) == Get(o2, k)
    ensures CreateTransaction(store, Some(o1), newDate, newId, now, fault) ==
            CreateTransaction(store, Some(o2), newDate, newId, now, fault)
  {
    assert CreateData(o1, newDate) == CreateData(o2, newDate) by {
      assert Get(o1, "amount") == Get(o2, "amount") && Get(o1, "type") == Get(o2, "type");
      assert Get(o1, "userId") == Get(o2, "userId") && Get(o1, "categoryId") == Get(o2, "categoryId");
      assert Get(o1, "note") == Get(o2, "note") && Get(o1, "date") == Get(o2, "date");
    }
  }

  /** `getTransaction`. A non-string id fails the store's cast. */
  function GetTransaction(store: Store, id: Value, fault: bool): (r: Response<Transaction>)
    ensures MissingParam(id) ==> r == Reply(400, "Transaction ID is required")
    ensures !MissingParam(id) && (fault || !id.Str?) ==> r.status == 500
    ensures !MissingParam(id) && id.Str? && !fault ==>
      if HasId(store, id.s) then r.status == 200 && r.payload == FindById(store, id.s)
      else r == Reply(404, "Transaction not found")
  {
    if MissingParam(id) then Reply(400, "Transaction ID is required")
    else if !id.Str? || fault then Reply(500, InternalError)
    else
      match FindById(store, id.s)
      case None => Reply(404, "Transaction not found")
      case Some(t) => Response(200, "Transaction fetched successfully", Some(t))
  }

  /** The fields an update reads: the owner and category are not among them. */
  function UpdateData(o: Obj, newDate: Value -> Option<int>): TxData
  {
    TxData(Get(o, "amount"), Get(o, "type"), Undefined, Undefined, Get(o, "note"), DateField(Get(o, "date"), newDate))
  }

  /**
   * The patch an update writes: only the truthy fields, the note trimmed.
   * None when the date is an Invalid Date, which the store's cast refuses.
   */
  function BuildPatch(o: Obj, newDate: Value -> Option<int>): (p: Option<Patch>)
    requires ValidUpdate(UpdateData(o, newDate))
    ensures p.None? <==> Truthy(Get(o, "date")) && newDate(Get(o, "date")).None?
    ensures p.Some? ==>
      && (p.value.amount.Some? <==> Truthy(Get(o, "amount")))
      && (p.value.amount.Some? ==> Num(p.value.amount.value) == Get(o, "amount"))
      && (p.value.txType.Some? <==> Truthy(Get(o, "type")))
      && (p.value.txType.Some? ==> Str(TypeName(p.value.txType.value)) == Get(o, "type"))
      && (p.value.note.Some? <==> Truthy(Get(o, "note")))
      && (p.value.note.Some? ==> p.value.note.value == Trim(Get(o, "note").s))
      && (p.value.date.Some? <==> Truthy(Get(o, "date")))
      && (p.value.date.Some? ==> Some(p.value.date.value) == newDate(Get(o, "date")))
  {
    var amount := Get(o, "amount");
    var txType := Get(o, "type");
    var note := Get(o, "note");
    var date := Get(o, "date");
    if Truthy(date) && newDate(date).None? then None
    else
      Some(Patch(
        if Truthy(amount) then Some(amount.n) else None,
        if Truthy(txType) then Some(if txType == Str("credit") then Credit else Debit) else None,
        if Truthy(note) then Some(Trim(note.s)) else None,
        if Truthy(date) then newDate(date) else None))
  }

  /** `updateTransaction`. The body is read before the id is checked. */
  function UpdateTransaction(store: Store, id: Value, body: Option<Obj>, newDate: Value -> Option<int>, fault: bool)
    : (res: (Store, Response<Transaction>))
    ensures res.1.status in {200, 400, 404, 500}
    ensures res.1.status != 200 ==> res.0 == store
    ensures body.None? ==> res.1 == Reply(500, InternalError)
    ensures res.1 == Reply(400, "Transaction ID is required") <==> body.Some? && MissingParam(id)
    ensures res.1 == Reply(400, "Invalid transaction data") <==>
      body.Some? && !MissingParam(id) && !ValidUpdate(UpdateData(body.value, newDate))
    ensures res.1.status == 200 <==>
      && body.Some? && !MissingParam(id) && ValidUpdate(UpdateData(body.value, newDate))
      && id.Str? && !fault && HasId(store, id.s) && BuildPatch(body.value, newDate).Some?
    ensures res.1.status == 404 <==>
      && body.Some? && !MissingParam(id) && ValidUpdate(UpdateData(body.value, newDate))
      && id.Str? && !fault && !HasId(store, id.s)
    ensures body.Some? && !MissingParam(id) && ValidUpdate(UpdateData(body.value, newDate)) && (fault || !id.Str?) ==>
      res.1 == Reply(500, InternalError)
    ensures
      && body.Some? && !MissingParam(id) && ValidUpdate(UpdateData(body.value, newDate))
      && id.Str? && !fault && HasId(store, id.s) && BuildPatch(body.value, newDate).None?
      ==> res.1 == Reply(500, InternalError)
    ensures res.1.status == 200 ==>
      && body.Some? && id.Str? && HasId(store, id.s)
      && var p := BuildPatch(body.value, newDate);
         p.Some? && res.0 == Update(store, id.s, p.value).0
         && res.1.payload == Some(Merge(FindById(store, id.s).value, p.value))
  {
    if body.None? then (store, Reply(500, InternalError))
    else if MissingParam(id) then (store, Reply(400, "Transaction ID is required"))
    else if !ValidUpdate(UpdateData(body.value, newDate)) then (store, Reply(400, "Invalid transaction data"))
    else if !id.Str? || fault then (store, Reply(500, InternalError))
    else if FindById(store, id.s).None? then (store, Reply(404, "Transaction not found"))
    else
      match BuildPatch(body.value, newDate)
      case None => (store, Reply(500, InternalError))
      case Some(p) =>
        var (s', t) := Update(store, id.s, p);
        (s', Response(200, "Transaction updated successfully", t))
  }

  /**
   * A falsy amount or note in an update body leaves the stored value as it
   * was: amount 0 and an empty note do not reach the patch.
   */
  lemma FalsyFieldsLeaveStoredValues(
    store: Store, id: string, body: Obj, newDate: Value -> Option<int>)
    requires HasId(store, id)
    requires !Truthy(Get(body, "amount")) && !Truthy(Get(body, "note"))
    ensures var res := UpdateTransaction(store, Str(id), Some(body), newDate, false);
      res.1.status == 200 ==>
        && res.1.payload.value.amount == FindById(store, id).value.amount
        && res.1.payload.value.note == FindById(store, id).value.note
  {
  }

  /** `deleteTransaction`. */
  function DeleteTransaction(store: Store, id: Value, fault: bool): (res: (Store, Response<Transaction>))
    ensures res.1.status in {200, 400, 404, 500}
    ensures res.1.status != 200 ==> res.0 == store
    ensures MissingParam(id) ==> res.1 == Reply(400, "Transaction ID is required")
    ensures !MissingParam(id) && (fault || !id.Str?) ==> res.1 == Reply(500, InternalError)
    ensures res.1.status == 404 <==> !MissingParam(id) && id.Str? && !fault && !HasId(store, id.s)
    ensures res.1.status == 200 <==> !MissingParam(id) && id.Str? && !fault && HasId(store, id.s)
    ensures res.1.status == 200 ==> res.0 == Delete(store, id.s).0 && !HasId(res.0, id.s)
  {
    if MissingParam(id) then (store, Reply(400, "Transaction ID is required"))
    else if !id.Str? || fault then (store, Reply(500, InternalError))
    else if FindById(store, id.s).None? then (store, Reply(404, "Transaction not found"))
    else (Delete(store, id.s).0, Reply(200, "Transaction deleted successfully"))
  }

  /** `getTransactionsByUser`. */
  function GetTransactionsByUser(store: Store, userId: Value, fault: bool): (r: Response<seq<Transaction>>)
    ensures MissingParam(userId) ==> r == Reply(400, "User ID is required")
    ensures !MissingParam(userId) && (fault || !userId.Str?) ==> r == Reply(500, InternalError)
    ensures r.status == 200 <==> !MissingParam(userId) && userId.Str? && !fault
    ensures r.status == 200 ==> r.payload == Some(Find(store, ByUser(userId.s)))
    ensures r.status in {200, 400, 500}
  {
    if MissingParam(userId) then Reply(400, "User ID is required")
    else if !userId.Str? || fault then Reply(500, InternalError)
    else Response(200, "Transactions fetched successfully", Some(Find(store, ByUser(userId.s))))
  }

  /** `getTransactionsByUserAndCategory`. */
  function GetTransactionsByUserAndCategory(store: Store, userId: Value, categoryId: Value, fault: bool)
    : (r: Response<seq<Transaction>>)
    ensures MissingParam(userId) || MissingParam(categoryId) ==> r == Reply(400, "User ID and Category ID are required")
    ensures !MissingParam(userId) && !MissingParam(categoryId) && (fault || !userId.Str? || !categoryId.Str?) ==>
      r == Reply(500, InternalError)
    ensures r.status == 200 <==> !MissingParam(userId) && !MissingParam(categoryId) && userId.Str? && categoryId.Str? && !fault
    ensures r.status == 200 ==> r.payload == Some(Find(store, ByUserAndCategory(userId.s, categoryId.s)))
    ensures r.status in {200, 400, 500}
  {
    if MissingParam(userId) || MissingParam(categoryId) then Reply(400, "User ID and Category ID are required")
    else if !userId.Str? || !categoryId.Str? || fault then Reply(500, InternalError)
    else
      Response(200, "Transactions fetched successfully",
        Some(Find(store, ByUserAndCategory(userId.s, categoryId.s))))
  }

  /** `getTransactionsByUserAndType`. */
  function GetTransactionsByUserAndType(store: Store, userId: Value, txType: Value, fault: bool)
    : (r: Response<seq<Transaction>>)
    ensures MissingParam(userId) || MissingParam(txType) ==> r == Reply(400, "User ID and Type are required")
    ensures !MissingParam(userId) && !MissingParam(txType) && (fault || !userId.Str? || !txType.Str?) ==>
      r == Reply(500, InternalError)
    ensures r.status == 200 <==> !MissingParam(userId) && !MissingParam(txType) && userId.Str? && txType.Str? && !fault
    ensures r.status == 200 ==> r.payload == Some(Find(store, ByUserAndType(userId.s, txType.s)))
    ensures r.status in {200, 400, 500}
  {
    if MissingParam(userId) || MissingParam(txType) then Reply(400, "User ID and Type are required")
    else if !userId.Str? || !txType.Str? || fault then Reply(500, InternalError)
    else
      Response(200, "Transactions fetched successfully",
        Some(Find(store, ByUserAndType(userId.s, txType.s))))
  }

  /** `getTransactionsByUserAndDateRange`, reading `userId`, `startDate` and `endDate` from the query. */
  function GetTransactionsByUserAndDateRange(store: Store, query: Obj, newDate: Value -> Option<int>, fault: bool)
    : (r: Response<seq<Transaction>>)
    ensures !Truthy(Get(query, "userId")) || !Truthy(Get(query, "startDate")) || !Truthy(Get(query, "endDate")) ==>
      r == Reply(400, "User ID, startDate and endDate are required")
    ensures Truthy(Get(query, "userId")) && Truthy(Get(query, "startDate")) && Truthy(Get(query, "endDate")) ==>
      (r == Reply(400, "Invalid date format") <==>
        newDate(Get(query, "startDate")).None? || newDate(Get(query, "endDate")).None?)
    ensures
      && Truthy(Get(query, "userId")) && Truthy(Get(query, "startDate")) && Truthy(Get(query, "endDate"))
      && newDate(Get(query, "startDate")).Some? && newDate(Get(query, "endDate")).Some?
      && (fault || !Get(query, "userId").Str?)
      ==> r == Reply(500, InternalError)
    ensures r.status == 200 <==>
      && Truthy(Get(query, "userId")) && Truthy(Get(query, "startDate")) && Truthy(Get(query, "endDate"))
      && newDate(Get(query, "startDate")).Some? && newDate(Get(query, "endDate")).Some?
      && Get(query, "userId").Str? && !fault
    ensures r.status == 200 ==>
      && Get(query, "userId").Str?
      && var from := newDate(Get(query, "startDate"));
         var until := newDate(Get(query, "endDate"));
         from.Some? && until.Some?
         && r.payload == Some(Find(store, ByUserAndDateRange(Get(query, "userId").s, from.value, until.value)))
    ensures r.status in {200, 400, 500}
  {
    var userId := Get(query, "userId");
    var startDate := Get(query, "startDate");
    var endDate := Get(query, "endDate");
    if !Truthy(userId) || !Truthy(startDate) || !Truthy(endDate) then
      Reply(400, "User ID, startDate and endDate are required")
    else
      var from := newDate(startDate);
      var until := newDate(endDate);
      if from.None? || until.None? then Reply(400, "Invalid date format")
      else if !userId.Str? || fault then Reply(500, InternalError)
      else
        Response(200, "Transactions fetched successfully",
          Some(Find(store, ByUserAndDateRange(userId.s, from.value, until.value))))
  }

  /** Fetching a stored id answers 200 with its document. */
  lemma FetchFound(store: Store, id: string)
    requires id != "" && HasId(store, id)
    ensures GetTransaction(store, Str(id), false) == Response(200, "Transaction fetched successfully", FindById(store, id))
  {
  }

  /** Once an id is deleted, fetching it answers 404. */
  lemma FetchAfterDelete(store: Store, id: string)
    requires id != ""
    ensures GetTransaction(DeleteTransaction(store, Str(id), false).0, Str(id), false) == Reply(404, "Transaction not found")
  {
  }

  /**
   * A created transaction can be fetched back by its id, and once deleted it
   * is gone: a later fetch answers 404.
   */
  lemma CreateThenGetThenDelete(
    store: Store, body: Obj, newDate: Value -> Option<int>, newId: string, now: int)
    requires !HasId(store, newId) && newId != ""
    ensures var (s1, created) := CreateTransaction(store, Some(body), newDate, newId, now, false);
      created.status == 201 ==>
      && GetTransaction(s1, Str(newId), false) == Response(200, "Transaction fetched successfully", created.payload)
      && var (s2, _) := DeleteTransaction(s1, Str(newId), false);
         GetTransaction(s2, Str(newId), false) == Reply(404, "Transaction not found")
  {
    var (s1, created) := CreateTransaction(store, Some(body), newDate, newId, now, false);
    if created.status == 201 {
      var t := created.payload.value;
      assert FindById(s1, newId) == Some(t);
      FetchFound(s1, newId);
      FetchAfterDelete(s1, newId);
    }
  }
}
