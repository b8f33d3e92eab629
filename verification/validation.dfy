/**
 * The event client's per-verb checks (`validateIdentify` through
 * `validateGroup`). Presence follows PHP `empty()`: a missing key, null,
 * false, 0, "", "0" and [] all count as absent.
 */
module Validation {
  import opened Values
  import opened Errors

  const IdentityField := "userId or anonymousId"

  /** At least one of the two identifiers is present in the PHP `empty()` sense. */
  predicate HasIdentity(data: Array) {
    !Missing(data, "userId") || !Missing(data, "anonymousId")
  }

  /** The rule identify, page and screen share, and track and group apply first. */
  function ValidateIdentity(data: Array): (r: Result<()>)
    ensures r.Ok? <==> HasIdentity(data)
    ensures r.Err? ==> r.error == MissingRequired(IdentityField)
  {
    if Missing(data, "userId") && Missing(data, "anonymousId") then Err(MissingRequired(IdentityField))
    else Ok(())
  }

  /** `validateTrack` and `validateGroup`: the identity rule, then a
      non-empty `field` ("event" for track, "groupId" for group). */
  function ValidateWithField(data: Array, field: string): (r: Result<()>)
    ensures r.Ok? <==> HasIdentity(data) && !Missing(data, field)
    ensures !HasIdentity(data) ==> r == Err(MissingRequired(IdentityField))
    ensures HasIdentity(data) && Missing(data, field) ==> r == Err(MissingRequired(field))
  {
    var _ :- ValidateIdentity(data);
    if Missing(data, field) then Err(MissingRequired(field)) else Ok(())
  }

  /** The string "0" is no identifier: a user id of "0" without an anonymous id
      fails the identity rule, and so does every verb that applies it. */
  lemma ZeroUserIdIsNoIdentity(data: Array)
    requires data == map["userId" := Str("0")]
    ensures ValidateIdentity(data) == Err(MissingRequired(IdentityField))
    ensures ValidateWithField(data, "event") == Err(MissingRequired(IdentityField))
    ensures ValidateWithField(data, "groupId") == Err(MissingRequired(IdentityField))
  {
    assert Missing(data, "anonymousId");
  }
}
