/**
 * The access gate in front of the protected routes: `authenticate` turns
 * the bearer token into the stored, active user it names, and
 * `authorizeRoles` lets through only callers whose role is listed.
 * Token verification is a parameter: it yields the id in a valid token,
 * or nothing when the token is malformed, expired or wrongly signed.
 */
module Access {
  import opened Wrappers
  import opened Schema
  import opened Text

  /** The user `authenticate` attaches to the request, with its id. */
  datatype Caller = Caller(id: Id, user: User)

  /** `authorization.split(' ')[1]`. */
  function BearerToken(header: string): string {
    var parts := Split(header, ' ');
    if |parts| >= 2 then parts[1] else ""
  }

  /** After the "Bearer " prefix, the token is the text up to the next space. */
  lemma BearerTokenAfterPrefix(header: string)
    requires StartsWith(header, "Bearer ")
    ensures |Split(header, ' ')| >= 2
    ensures BearerToken(header) == TakeUntil(header[7..], ' ')
  {
    assert header == "Bearer" + [' '] + header[7..];
    SplitAfter("Bearer", ' ', header[7..]);
    SplitHead(header[7..], ' ');
  }

  /** `authenticate`: an empty header stands for a missing one. */
  function Authenticate(users: map<Id, User>, header: string, verify: string -> Option<Id>): (r: Result<Caller>)
    ensures r.Err? ==> r.status == Unauthorized
    ensures r.Ok? ==>
      StartsWith(header, "Bearer ")
      && verify(TakeUntil(header[7..], ' ')) == Some(r.value.id)
      && r.value.id in users && r.value.user == users[r.value.id] && r.value.user.isActive
    ensures forall id ::
      (StartsWith(header, "Bearer ") && verify(TakeUntil(header[7..], ' ')) == Some(id)
       && id in users && users[id].isActive) ==> r == Ok(Caller(id, users[id]))
  {
    if !StartsWith(header, "Bearer ") then Err(Unauthorized)
    else
      BearerTokenAfterPrefix(header);
      match verify(BearerToken(header))
      case None => Err(Unauthorized)
      case Some(id) =>
        if id in users && users[id].isActive then Ok(Caller(id, users[id])) else Err(Unauthorized)
  }

  /** A request without a well-formed bearer header is refused whatever the store holds. */
  lemma RefusedBeforeLookup(users1: map<Id, User>, users2: map<Id, User>, header: string, verify: string -> Option<Id>)
    requires !StartsWith(header, "Bearer ")
    ensures Authenticate(users1, header, verify) == Authenticate(users2, header, verify) == Err(Unauthorized)
  {
  }

  /** The caller's role is one of `roles`. */
  predicate HasRole(me: Caller, roles: seq<string>) {
    me.user.role in roles
  }

  /** `authorizeRoles(...roles)`. */
  function AuthorizeRoles(user: Option<Caller>, roles: seq<string>): (r: Result<Caller>)
    ensures r.Ok? <==> user.Some? && HasRole(user.value, roles)
    ensures r.Ok? ==> r.value == user.value
    ensures r.Err? ==> r.status == Forbidden
  {
    match user
    case None => Err(Forbidden)
    case Some(me) => if me.user.role in roles then Ok(me) else Err(Forbidden)
  }

  /** Listing more roles never locks out a caller who was let through. */
  lemma AuthorizeRolesMonotone(user: Option<Caller>, roles: seq<string>, more: seq<string>)
    requires forall role :: role in roles ==> role in more
    requires AuthorizeRoles(user, roles).Ok?
    ensures AuthorizeRoles(user, more) == AuthorizeRoles(user, roles)
  {
  }

  /** A gate listing no roles refuses everyone. */
  lemma NoRolesRefusesAll(user: Option<Caller>)
    ensures AuthorizeRoles(user, []) == Err(Forbidden)
  {
  }

  /**
   * A gate that lists only "builder", a role the User schema does not
   * declare, refuses every caller whose role is one of the declared ones.
   */
  lemma BuilderGateRefusesDeclaredRoles(me: Caller)
    requires me.user.role in UserRoles
    ensures AuthorizeRoles(Some(me), ["builder"]) == Err(Forbidden)
  {
  }

  // ---- The role lists the routers use

  const Admins: seq<string> := ["admin", "superAdmin"]
  const BuilderSide: seq<string> := ["directBuilder", "admin", "superAdmin"]
}
