/**
 * The transaction router (server/src/routes/TransactionRoutes.ts) puts the
 * auth gate and then the audit attributor in front of every transaction
 * handler. This module composes the three for the create (POST) and update
 * (PUT) routes; the read and delete routes carry no body for the attributor
 * to stamp.
 */
module TransactionRoutes {
  import opened Wrappers
  import opened Js
  import opened Http
  import opened AuthGate
  import opened Audit
  import opened TransactionValidation
  import opened TransactionRepository
  import opened TransactionHandlers

  /** A refusal from the gate, as the route's reply. */
  function Refusal(r: Response<Claim>): (reply: Response<Transaction>)
    ensures reply.status == r.status && reply.message == r.message && reply.payload.None?
  {
    Reply(r.status, r.message)
  }

  /**
   * `POST /transaction`. When the body names no owner, the stored
   * transaction belongs to the authenticated user; a truthy owner in the
   * body is kept as sent.
   */
  function PostTransaction(
    store: Store, cookies: Option<Obj>, verify: Value -> Verdict, body: Option<Obj>,
    newDate: Value -> Option<int>, newId: string, now: int, fault: bool)
    : (res: (Store, Response<Transaction>))
    requires !HasId(store, newId)
    ensures Gate(cookies, verify).Halt? ==>
      res.0 == store && res.1.status == 401 && res.1.payload.None?
    ensures Gate(cookies, verify).Next? ==>
      res == CreateTransaction(store, Attribute(Some(Gate(cookies, verify).principal), "POST", body), newDate, newId, now, fault)
    ensures res.1.status == 201 ==>
      && Gate(cookies, verify).Next?
      && var id := Gate(cookies, verify).principal.userId;
         var sent := Get(BodyOrEmpty(body), "userId");
         res.1.payload.value.userId == (if Truthy(sent) then sent.s else id)
  {
    match Gate(cookies, verify)
    case Halt(r) => (store, Refusal(r))
    case Next(c) => CreateTransaction(store, Attribute(Some(c), "POST", body), newDate, newId, now, fault)
  }

  /**
   * An authenticated create whose body leaves out the owner is stored under
   * the principal's id, and the body's `createdBy`/`updatedBy` never reach
   * the store.
   */
  lemma PostStoresPrincipalAsOwner(
    store: Store, cookies: Option<Obj>, verify: Value -> Verdict, body: Option<Obj>,
    newDate: Value -> Option<int>, newId: string, now: int, principal: Claim)
    requires !HasId(store, newId)
    requires Gate(cookies, verify) == Next(principal)
    requires !Truthy(Get(BodyOrEmpty(body), "userId"))
    ensures var res := PostTransaction(store, cookies, verify, body, newDate, newId, now, false);
      res.1.status == 201 ==>
        && FindById(res.0, newId).Some?
        && FindById(res.0, newId).value.userId == principal.userId
  {
  }

  /**
   * `PUT /transaction/:id`. Behind an authenticated gate the attributor
   * always supplies a body, so the update never fails for want of one.
   */
  function PutTransaction(
    store: Store, cookies: Option<Obj>, verify: Value -> Verdict, id: Value, body: Option<Obj>,
    newDate: Value -> Option<int>, fault: bool)
    : (res: (Store, Response<Transaction>))
    ensures Gate(cookies, verify).Halt? ==>
      res.0 == store && res.1.status == 401 && res.1.payload.None?
    ensures Gate(cookies, verify).Next? ==>
      res == UpdateTransaction(store, id, Attribute(Some(Gate(cookies, verify).principal), "PUT", body), newDate, fault)
    ensures Gate(cookies, verify).Next? && Gate(cookies, verify).principal.userId != "" && MissingParam(id) ==>
      res.1 == Reply(400, "Transaction ID is required")
  {
    match Gate(cookies, verify)
    case Halt(r) => (store, Refusal(r))
    case Next(c) => UpdateTransaction(store, id, Attribute(Some(c), "PUT", body), newDate, fault)
  }

  /** The `updatedBy` stamp is not one of the fields an update writes: the patch is the client's. */
  lemma PutPatchIgnoresStamp(user: Claim, body: Obj, newDate: Value -> Option<int>)
    requires user.userId != ""
    ensures UpdateData(Attribute(Some(user), "PUT", Some(body)).value, newDate) == UpdateData(body, newDate)
  {
  }
}
