/** Role-based authorisation: the role-to-permission table, the decision `SecurityHandler.__call__`
    takes once the bearer token has been decoded, and the claims `create_access_token` signs. JWT
    decoding and signing are oracles; the decoder's outcome is an input. */
module Security {
  import opened Wrappers
  import opened Values

  const Admin: string := "admin"
  const Analyst: string := "analyst"
  const User: string := "user"

  const ReadDocuments: string := "read:documents"
  const WriteDocuments: string := "write:documents"
  const DeleteDocuments: string := "delete:documents"
  const QuerySystem: string := "query:system"

  /** `ROLE_PERMISSIONS`. */
  const RolePermissions: map<string, seq<string>> := map[
    Admin := [ReadDocuments, WriteDocuments, DeleteDocuments, QuerySystem],
    Analyst := [ReadDocuments, WriteDocuments, QuerySystem],
    User := [ReadDocuments, QuerySystem]
  ]

  /** `ROLE_PERMISSIONS.get(role, [])`: a role that is not a known name, or not a string at all, has no
      permissions. */
  function PermissionsOf(role: Json): (ps: seq<string>)
    ensures !(role.Str? && role.s in RolePermissions) ==> ps == []
  {
    if role.Str? && role.s in RolePermissions then RolePermissions[role.s] else []
  }

  /** The role's permissions as a set. */
  function PermissionSet(role: Json): set<string> {
    set p | p in PermissionsOf(role)
  }

  /** The permission sets are nested, user within analyst within admin; admin holds all four, and only
      admin may delete. */
  lemma PermissionsNested()
    ensures PermissionSet(Str(Admin)) == {ReadDocuments, WriteDocuments, DeleteDocuments, QuerySystem}
    ensures PermissionSet(Str(Analyst)) == {ReadDocuments, WriteDocuments, QuerySystem}
    ensures PermissionSet(Str(User)) == {ReadDocuments, QuerySystem}
    ensures PermissionSet(Str(User)) <= PermissionSet(Str(Analyst)) <= PermissionSet(Str(Admin))
    ensures forall role :: DeleteDocuments in PermissionSet(role) <==> role == Str(Admin)
  {
    assert PermissionsOf(Str(Admin)) == [ReadDocuments, WriteDocuments, DeleteDocuments, QuerySystem];
    assert PermissionsOf(Str(Analyst)) == [ReadDocuments, WriteDocuments, QuerySystem];
    assert PermissionsOf(Str(User)) == [ReadDocuments, QuerySystem];
    forall role | role != Str(Admin)
      ensures DeleteDocuments !in PermissionSet(role)
    {
      if role.Str? && role.s == Analyst {
        assert PermissionsOf(role) == [ReadDocuments, WriteDocuments, QuerySystem];
      } else if role.Str? && role.s == User {
        assert PermissionsOf(role) == [ReadDocuments, QuerySystem];
      }
    }
  }

  /** What `jwt.decode` produced: an expired signature, any other failure with its message, or the
      claims. */
  datatype Decoded = Expired | Invalid(message: string) | Claims(claims: map<string, Json>)

  datatype HttpError = HttpError(status: int, detail: string)

  /** `request.state.user`. */
  datatype AuthUser = AuthUser(id: Json, email: Json, role: Json, permissions: seq<string>)

  /** `token_data.get("role", Role.USER)`. */
  function RoleOf(claims: map<string, Json>): Json {
    if "role" in claims then claims["role"] else Str(User)
  }

  /** The required permissions the role lacks. */
  function Missing(required: seq<string>, role: Json): set<string> {
    (set p | p in required) - PermissionSet(role)
  }

  /** A role a dictionary can be searched for: a list or an object is unhashable, and looking it up in
      `ROLE_PERMISSIONS` raises. */
  predicate Hashable(role: Json) {
    !role.List? && !role.Object?
  }

  const AuthenticationFailed: string := "Authentication failed"
  const NotEnoughPermissions: string := "Not enough permissions"

  /** `SecurityHandler.__call__` after the bearer credentials were read: 401 when decoding fails, 403
      when the role lacks a required permission, 401 "Authentication failed" when the role cannot be
      looked up or the claims lack `sub` or `email`, and otherwise the user. */
  function Authorize(decoded: Decoded, required: seq<string>): (r: Result<AuthUser, HttpError>)
    ensures decoded.Expired? ==> r == Failure(HttpError(401, "Token has expired"))
    ensures decoded.Invalid? ==> r == Failure(HttpError(401, "Invalid token: " + decoded.message))
    ensures r.Failure? && r.error.status == 403 <==>
      decoded.Claims? && Hashable(RoleOf(decoded.claims)) && Missing(required, RoleOf(decoded.claims)) != {}
    ensures r.Failure? ==> r.error.status in {401, 403}
    ensures r.Failure? && r.error.status == 403 ==> r.error.detail == NotEnoughPermissions
    ensures decoded.Claims? && r.Failure? && r.error.status == 401 ==> r.error.detail == AuthenticationFailed
    ensures r.Success? <==>
      && decoded.Claims? && Hashable(RoleOf(decoded.claims)) && Missing(required, RoleOf(decoded.claims)) == {}
      && "sub" in decoded.claims && "email" in decoded.claims
    ensures r.Success? ==>
      var role := RoleOf(decoded.claims);
      r.value == AuthUser(decoded.claims["sub"], decoded.claims["email"], role, PermissionsOf(role))
  {
    match decoded
    case Expired => Failure(HttpError(401, "Token has expired"))
    case Invalid(message) => Failure(HttpError(401, "Invalid token: " + message))
    case Claims(claims) =>
      var role := RoleOf(claims);
      if !Hashable(role) then Failure(HttpError(401, AuthenticationFailed))
      else if required != [] && Missing(required, role) != {} then Failure(HttpError(403, NotEnoughPermissions))
      else if "sub" !in claims || "email" !in claims then Failure(HttpError(401, AuthenticationFailed))
      else Success(AuthUser(claims["sub"], claims["email"], role, PermissionsOf(role)))
  }

  /** An analyst asking to delete documents is refused with 403, whatever else the token says; an admin
      with `sub` and `email` is let through. */
  lemma AnalystCannotDelete(claims: map<string, Json>)
    ensures Authorize(Claims(claims["role" := Str(Analyst)]), [DeleteDocuments]) ==
      Failure(HttpError(403, NotEnoughPermissions))
    ensures "sub" in claims && "email" in claims ==>
      Authorize(Claims(claims["role" := Str(Admin)]), [DeleteDocuments]).Success?
  {
    var analystClaims := claims["role" := Str(Analyst)];
    assert RoleOf(analystClaims) == Str(Analyst);
    assert DeleteDocuments in Missing([DeleteDocuments], Str(Analyst));
  }

  /** A token without a role is a user's; an empty requirement never yields 403, and passes whenever
      the role can be looked up and the claims name the user. */
  lemma DefaultsOfAuthorize(claims: map<string, Json>, role: Json)
    ensures "role" !in claims ==> PermissionsOf(RoleOf(claims)) == [ReadDocuments, QuerySystem]
    ensures Missing([], role) == {}
    ensures Authorize(Claims(claims), []).Failure? ==> Authorize(Claims(claims), []).error.status == 401
    ensures "sub" in claims && "email" in claims && Hashable(RoleOf(claims)) ==> Authorize(Claims(claims), []).Success?
  {
    assert Missing([], role) == {};
    assert Missing([], RoleOf(claims)) == {};
  }

  const DefaultExpiry: real := 1800.0

  /** `create_access_token`'s claims: a copy of `data` with `exp` set to `now` plus the delta in
      seconds, 30 minutes when the delta is missing or zero (a zero `timedelta` is falsy). */
  function AccessTokenClaims(data: map<string, Json>, now: real, delta: Option<real>): (claims: map<string, Json>)
    ensures claims.Keys == data.Keys + {"exp"}
    ensures forall k :: k in data && k != "exp" ==> claims[k] == data[k]
    ensures delta.None? || delta == Some(0.0) ==> claims["exp"] == Num(now + 1800.0)
    ensures delta.Some? && delta.value != 0.0 ==> claims["exp"] == Num(now + delta.value)
  {
    var lifetime := if delta.Some? && delta.value != 0.0 then delta.value else DefaultExpiry;
    data["exp" := Num(now + lifetime)]
  }
}
