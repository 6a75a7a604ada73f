/**
 * The audit attributor that runs after the gate
 * (server/src/middlewares/audit.middleware.ts): it stamps the authenticated
 * user's id into the body of a mutating request and always calls `next`
 * exactly once, so the model returns only the rewritten body.
 */
module Audit {
  import opened Wrappers
  import opened Js
  import opened AuthGate

  const CreatedBy := "createdBy"
  const UpdatedBy := "updatedBy"
  const UserId := "userId"

  /** `req.user?.userId`, or "" (falsy) when there is no principal. */
  function PrincipalId(user: Option<Claim>): string
  {
    if user.Some? then user.value.userId else ""
  }

  /** `req.body || {}`: the body a mutating request is stamped into. */
  function BodyOrEmpty(body: Option<Obj>): Obj
  {
    if body.Some? then body.value else map[]
  }

  /** `auditMiddleware` on a request with verb `verb`, principal `user` and body `body`. */
  function Attribute(user: Option<Claim>, verb: string, body: Option<Obj>): (b: Option<Obj>)
    ensures PrincipalId(user) == "" ==> b == body
    ensures PrincipalId(user) != "" && verb == "POST" ==>
      && b.Some?
      && Get(b.value, CreatedBy) == Str(PrincipalId(user))
      && Get(b.value, UpdatedBy) == Str(PrincipalId(user))
      && Get(b.value, UserId) ==
         (if Truthy(Get(BodyOrEmpty(body), UserId)) then Get(BodyOrEmpty(body), UserId) else Str(PrincipalId(user)))
      && forall k :: k != CreatedBy && k != UpdatedBy && k != UserId ==> Get(b.value, k) == Get(BodyOrEmpty(body), k)
    ensures PrincipalId(user) != "" && (verb == "PUT" || verb == "PATCH") ==>
      && b.Some?
      && Get(b.value, UpdatedBy) == Str(PrincipalId(user))
      && forall k :: k != UpdatedBy ==> Get(b.value, k) == Get(BodyOrEmpty(body), k)
    ensures verb !in {"POST", "PUT", "PATCH"} ==> b == body
  {
    var id := PrincipalId(user);
    if id == "" then body
    else if verb == "POST" then
      var o := BodyOrEmpty(body)[CreatedBy := Str(id)][UpdatedBy := Str(id)];
      Some(if Truthy(Get(o, UserId)) then o else o[UserId := Str(id)])
    else if verb == "PUT" || verb == "PATCH" then
      Some(BodyOrEmpty(body)[UpdatedBy := Str(id)])
    else body
  }

  /** Running the attributor a second time changes nothing. */
  lemma AttributeIdempotent(user: Option<Claim>, verb: string, body: Option<Obj>)
    ensures Attribute(user, verb, Attribute(user, verb, body)) == Attribute(user, verb, body)
  {
    var id := PrincipalId(user);
    if id != "" && verb == "POST" {
      var o := Attribute(user, verb, body).value;
      assert Truthy(Get(o, UserId));
      assert o[CreatedBy := Str(id)][UpdatedBy := Str(id)] == o;
    } else if id != "" && (verb == "PUT" || verb == "PATCH") {
      var o := Attribute(user, verb, body).value;
      assert o[UpdatedBy := Str(id)] == o;
    }
  }

  /**
   * Server-derived values win: on a create, two bodies that differ only in
   * the `createdBy` and `updatedBy` the client sent read alike once stamped.
   */
  lemma ClientAuditFieldsIgnored(user: Option<Claim>, body1: Obj, body2: Obj)
    requires PrincipalId(user) != ""
    requires forall k :: k != CreatedBy && k != UpdatedBy ==> Get(body1, k) == Get(body2, k)
    ensures forall k ::
      Get(Attribute(user, "POST", Some(body1)).value, k) == Get(Attribute(user, "POST", Some(body2)).value, k)
  {
    assert Get(body1, UserId) == Get(body2, UserId);
  }
}
