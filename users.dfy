/**
 * User administration (routes/User.router.js): reading users without
 * their password, updates by the user themself or an administrator, role
 * changes from a fixed list, and the list of units a user likes.
 */
module Users {
  import opened Wrappers
  import opened Schema
  import opened Store
  import opened Access

  const Staff: seq<string> := ["admin", "superAdmin", "directBuilder"]

  /** The roles PATCH /:id/role accepts: every declared role but `broker`. */
  const AssignableRoles: seq<string> := ["user", "directBuilder", "admin", "superAdmin"]

  /** `select('-password')`. */
  function Redact(u: User): (v: User)
    ensures v.password.None? && SameIdentity(u, v)
    ensures v.(password := u.password) == u
  {
    u.(password := None)
  }

  /** GET /: every user, without passwords, for staff. */
  function ListUsers(users: map<Id, User>, me: Caller): (r: Result<map<Id, User>>)
    ensures r.Err? <==> !HasRole(me, Staff)
    ensures r.Err? ==> r.status == Forbidden
    ensures r.Ok? ==> r.value.Keys == users.Keys
    ensures r.Ok? ==> forall k :: k in r.value ==> r.value[k].password.None? && r.value[k] == Redact(users[k])
  {
    if !HasRole(me, Staff) then Err(Forbidden)
    else Ok(map k | k in users :: Redact(users[k]))
  }

  /** GET /:id: any signed-in caller reads any user, without the password. */
  function GetUser(users: map<Id, User>, id: Id): (r: Result<User>)
    ensures r.Ok? <==> id in users
    ensures r.Err? ==> r.status == NotFound
    ensures r.Ok? ==> r.value.password.None? && r.value == Redact(users[id])
  {
    if id in users then Ok(Redact(users[id])) else Err(NotFound)
  }

  /** The caller is the user named in the path, or an administrator. */
  predicate SelfOrAdmin(me: Caller, id: Id) {
    me.id == id || HasRole(me, Admins)
  }

  /**
   * PUT /:id as written: the body is applied without validation, so
   * anything the caller sends is stored, the role included. Only the unique
   * indexes, which the database enforces, can refuse it (a 500).
   */
  function Patched(users: map<Id, User>, me: Caller, id: Id, patch: User -> User): (r: Result<User>)
    ensures r.Err? && !SelfOrAdmin(me, id) ==> r.status == Forbidden
    ensures r.Err? && SelfOrAdmin(me, id) && id !in users ==> r.status == NotFound
    ensures r.Ok? <==> SelfOrAdmin(me, id) && id in users && UsersUnique(users[id := patch(users[id])])
    ensures r.Ok? ==> r.value == patch(users[id])
  {
    if !SelfOrAdmin(me, id) then Err(Forbidden)
    else if id !in users then Err(NotFound)
    else if !UsersUnique(users[id := patch(users[id])]) then Err(ServerError)
    else Ok(patch(users[id]))
  }

  /** A body that sets the role. */
  function SetsRole(role: string): User -> User {
    (u: User) => u.(role := role)
  }

  /**
   * As written, any signed-in user may make themself a superAdmin through
   * PUT /:id, whatever their role, although role changes otherwise go
   * through an administrators-only route with a fixed list.
   */
  lemma SelfPromotion(users: map<Id, User>, me: Caller)
    requires UsersUnique(users) && me.id in users && me.user.role == "user"
    ensures Patched(users, me, me.id, SetsRole("superAdmin")) == Ok(users[me.id].(role := "superAdmin"))
  {
    RewriteKeepsUsersUnique(users, me.id, users[me.id].(role := "superAdmin"));
  }

  /** PUT /:id as intended: only an administrator changes a role. */
  function GuardedPatch(users: map<Id, User>, me: Caller, id: Id, patch: User -> User): (r: Result<User>)
    ensures r.Err? && !SelfOrAdmin(me, id) ==> r.status == Forbidden
    ensures r.Ok? <==>
      SelfOrAdmin(me, id) && id in users && UsersUnique(users[id := patch(users[id])])
      && (HasRole(me, Admins) || patch(users[id]).role == users[id].role)
    ensures r.Ok? ==> r.value == patch(users[id])
    ensures r.Ok? && !HasRole(me, Admins) ==> r.value.role == users[id].role
  {
    if !SelfOrAdmin(me, id) then Err(Forbidden)
    else if id !in users then Err(NotFound)
    else if !HasRole(me, Admins) && patch(users[id]).role != users[id].role then Err(Forbidden)
    else if !UsersUnique(users[id := patch(users[id])]) then Err(ServerError)
    else Ok(patch(users[id]))
  }

  /** With the guard, a caller who is not an administrator cannot promote anyone, themself included. */
  lemma NoSelfPromotion(users: map<Id, User>, me: Caller, id: Id, role: string)
    requires !HasRole(me, Admins) && id in users && users[id].role != role
    ensures GuardedPatch(users, me, id, SetsRole(role)).Err?
  {
  }

  /** Whenever the guarded update accepts a body, the update as written accepts it too and stores the same user. */
  lemma GuardedPatchAgrees(users: map<Id, User>, me: Caller, id: Id, patch: User -> User)
    ensures GuardedPatch(users, me, id, patch).Ok? ==> Patched(users, me, id, patch) == GuardedPatch(users, me, id, patch)
    ensures HasRole(me, Admins) ==> Patched(users, me, id, patch) == GuardedPatch(users, me, id, patch)
  {
  }

  /**
   * PUT /:id as written: whatever `Patched` accepts is stored, the role
   * included; `GuardedPatch` is the update as intended.
   */
  method UpdateUser(db: Db, me: Caller, id: Id, patch: User -> User) returns (r: Result<Id>)
    requires db.Valid()
    modifies db
    ensures db.Valid()
    ensures var p := Patched(old(db.data.users), me, id, patch);
      if p.Ok? then r == Ok(id) && db.data == old(db.data).(users := old(db.data.users)[id := p.value])
      else r == Err(p.status) && db.data == old(db.data)
  {
    var p := Patched(db.data.users, me, id, patch);
    if p.Err? {
      return Err(p.status);
    }
    db.data := db.data.(users := db.data.users[id := p.value]);
    r := Ok(id);
  }

  /** PUT /admin/:id: administrators apply any body; only the unique indexes can refuse it. */
  method AdminUpdateUser(db: Db, me: Caller, id: Id, patch: User -> User) returns (r: Result<Id>)
    requires db.Valid()
    modifies db
    ensures db.Valid()
    ensures !HasRole(me, Admins) ==> r == Err(Forbidden) && db.data == old(db.data)
    ensures HasRole(me, Admins) ==>
      var p := Patched(old(db.data.users), me, id, patch);
      if p.Ok? then r == Ok(id) && db.data == old(db.data).(users := old(db.data.users)[id := p.value])
      else r == Err(p.status) && db.data == old(db.data)
  {
    if !HasRole(me, Admins) {
      return Err(Forbidden);
    }
    var p := Patched(db.data.users, me, id, patch);
    if p.Err? {
      return Err(p.status);
    }
    db.data := db.data.(users := db.data.users[id := p.value]);
    r := Ok(id);
  }

  /** DELETE /:id: administrators only; an unknown user is a 404. */
  method DeleteUser(db: Db, me: Caller, id: Id) returns (r: Result<()>)
    requires db.Valid()
    modifies db
    ensures db.Valid()
    ensures !HasRole(me, Admins) ==> r == Err(Forbidden) && db.data == old(db.data)
    ensures HasRole(me, Admins) ==>
      if id in old(db.data.users) then r == Ok(()) && db.data == old(db.data).(users := old(db.data.users) - {id})
      else r == Err(NotFound) && db.data == old(db.data)
  {
    if !HasRole(me, Admins) {
      return Err(Forbidden);
    }
    if id !in db.data.users {
      return Err(NotFound);
    }
    db.data := db.data.(users := db.data.users - {id});
    r := Ok(());
  }

  /**
   * PATCH /:id/role: administrators only; a missing role or one outside
   * the assignable list is a 400 before the lookup.
   */
  method SetRole(db: Db, me: Caller, id: Id, role: Option<string>) returns (r: Result<Id>)
    requires db.Valid()
    modifies db
    ensures db.Valid()
    ensures !HasRole(me, Admins) ==> r == Err(Forbidden) && db.data == old(db.data)
    ensures HasRole(me, Admins) && (role.None? || role.value !in AssignableRoles) ==>
      r == Err(BadRequest) && db.data == old(db.data)
    ensures HasRole(me, Admins) && role.Some? && role.value in AssignableRoles ==>
      if id in old(db.data.users) then
        r == Ok(id) && db.data == old(db.data).(users := old(db.data.users)[id := old(db.data.users)[id].(role := role.value)])
      else r == Err(NotFound) && db.data == old(db.data)
    ensures r.Ok? ==> db.data.users[id].role in UserRoles && db.data.users[id].role != "broker"
  {
    if !HasRole(me, Admins) {
      return Err(Forbidden);
    }
    if role.None? || role.value == "" {
      return Err(BadRequest);
    }
    if role.value !in AssignableRoles {
      return Err(BadRequest);
    }
    if id !in db.data.users {
      return Err(NotFound);
    }
    var v := db.data.users[id].(role := role.value);
    RewriteKeepsUsersUnique(db.data.users, id, v);
    db.data := db.data.(users := db.data.users[id := v]);
    r := Ok(id);
  }

  // ---- Liked units

  /** No id occurs twice. */
  predicate NoDuplicates(s: seq<Id>) {
    forall i, j :: 0 <= i < j < |s| ==> s[i] != s[j]
  }

  /** `populate('likedUnits')`: the liked ids that still name a unit, in order. */
  function Present(liked: seq<Id>, units: map<Id, Unit>): (r: seq<Id>)
    ensures forall x :: x in r <==> x in liked && x in units
    ensures |r| <= |liked|
  {
    if liked == [] then []
    else (if liked[0] in units then [liked[0]] else []) + Present(liked[1..], units)
  }

  /** `populate` keeps a single id exactly when its unit exists. */
  lemma PresentOne(x: Id, units: map<Id, Unit>)
    ensures Present([x], units) == if x in units then [x] else []
  {
    assert [x][1..] == [];
  }

  /** `populate` works piecewise, so the ids that stay keep their order. */
  lemma {:induction false} PresentDistributes(a: seq<Id>, b: seq<Id>, units: map<Id, Unit>)
    ensures Present(a + b, units) == Present(a, units) + Present(b, units)
  {
    if a == [] {
      assert a + b == b;
    } else {
      assert (a + b)[0] == a[0];
      assert (a + b)[1..] == a[1..] + b;
      PresentDistributes(a[1..], b, units);
    }
  }

  /** When every liked unit still exists, `populate` returns the list as it is. */
  lemma {:induction false} PresentKeepsLiveList(liked: seq<Id>, units: map<Id, Unit>)
    requires forall i :: 0 <= i < |liked| ==> liked[i] in units
    ensures Present(liked, units) == liked
  {
    if liked != [] {
      PresentKeepsLiveList(liked[1..], units);
      assert liked == [liked[0]] + liked[1..];
    }
  }

  /** GET /:id/liked-units: 404 for an unknown user. */
  function LikedUnits(users: map<Id, User>, units: map<Id, Unit>, id: Id): (r: Result<seq<Id>>)
    ensures r.Ok? <==> id in users
    ensures r.Err? ==> r.status == NotFound
    ensures r.Ok? ==> forall x :: x in r.value <==> x in users[id].likedUnits && x in units
  {
    if id in users then Ok(Present(users[id].likedUnits, units)) else Err(NotFound)
  }

  /** The like list after liking `x`: appended only when absent. */
  function Liked(s: seq<Id>, x: Id): (r: seq<Id>)
    ensures forall y :: y in r <==> y in s || y == x
    ensures |s| <= |r| <= |s| + 1 && r[..|s|] == s
    ensures NoDuplicates(s) ==> NoDuplicates(r)
  {
    if x in s then s else s + [x]
  }

  /** Liking twice is liking once. */
  lemma LikeIdempotent(s: seq<Id>, x: Id)
    ensures Liked(Liked(s, x), x) == Liked(s, x)
  {
  }

  /** The like list after unliking `x`: every occurrence removed, the rest in order. */
  function Unliked(s: seq<Id>, x: Id): (r: seq<Id>)
    ensures forall y :: y in r <==> y in s && y != x
    ensures |r| <= |s|
  {
    if s == [] then []
    else (if s[0] == x then [] else [s[0]]) + Unliked(s[1..], x)
  }

  /** Unliking works piecewise, so the entries that stay keep their order. */
  lemma {:induction false} UnlikeDistributes(a: seq<Id>, b: seq<Id>, x: Id)
    ensures Unliked(a + b, x) == Unliked(a, x) + Unliked(b, x)
  {
    if a == [] {
      assert a + b == b;
    } else {
      assert (a + b)[0] == a[0];
      assert (a + b)[1..] == a[1..] + b;
      UnlikeDistributes(a[1..], b, x);
    }
  }

  /** Unliking a unit that is not in the list changes nothing. */
  lemma {:induction false} UnlikeAbsent(s: seq<Id>, x: Id)
    requires x !in s
    ensures Unliked(s, x) == s
  {
    if s != [] {
      UnlikeAbsent(s[1..], x);
      assert s == [s[0]] + s[1..];
    }
  }

  /** Unliking a unit just liked restores a list that did not hold it. */
  lemma UnlikeUndoesLike(s: seq<Id>, x: Id)
    requires x !in s
    ensures Unliked(Liked(s, x), x) == s
  {
    UnlikeDistributes(s, [x], x);
    UnlikeAbsent(s, x);
    assert Unliked([x], x) == [] + Unliked([], x);
  }

  /** Unliking keeps a list free of duplicates. */
  lemma {:induction false} UnlikeKeepsNoDuplicates(s: seq<Id>, x: Id)
    requires NoDuplicates(s)
    ensures NoDuplicates(Unliked(s, x))
  {
    if s != [] {
      UnlikeKeepsNoDuplicates(s[1..], x);
      var t := Unliked(s[1..], x);
      assert s[0] !in s[1..];
      assert s[0] !in t;
    }
  }

  /**
   * POST /:id/like-unit/:unitId: the user themself or an administrator; 404
   * for an unknown user. An already liked unit is not saved again.
   */
  method Like(db: Db, me: Caller, id: Id, unit: Id) returns (r: Result<seq<Id>>)
    requires db.Valid()
    modifies db
    ensures db.Valid()
    ensures !SelfOrAdmin(me, id) ==> r == Err(Forbidden) && db.data == old(db.data)
    ensures SelfOrAdmin(me, id) && id !in old(db.data.users) ==> r == Err(NotFound) && db.data == old(db.data)
    ensures SelfOrAdmin(me, id) && id in old(db.data.users) ==>
      var u := old(db.data.users)[id];
      if unit in u.likedUnits then r == Ok(u.likedUnits) && db.data == old(db.data)
      else if !UserValid(u) then r == Err(ServerError) && db.data == old(db.data)
      else (r == Ok(Liked(u.likedUnits, unit))
        && db.data == old(db.data).(users := old(db.data.users)[id := u.(likedUnits := Liked(u.likedUnits, unit))]))
  {
    if !SelfOrAdmin(me, id) {
      return Err(Forbidden);
    }
    if id !in db.data.users {
      return Err(NotFound);
    }
    var u := db.data.users[id];
    if unit in u.likedUnits {
      return Ok(u.likedUnits);
    }
    var v := u.(likedUnits := Liked(u.likedUnits, unit));
    if !UserValid(v) {
      return Err(ServerError);
    }
    RewriteKeepsUsersUnique(db.data.users, id, v);
    db.data := db.data.(users := db.data.users[id := v]);
    r := Ok(v.likedUnits);
  }

  /** DELETE /:id/unlike-unit/:unitId: the same gate; the user is always saved. */
  method Unlike(db: Db, me: Caller, id: Id, unit: Id) returns (r: Result<seq<Id>>)
    requires db.Valid()
    modifies db
    ensures db.Valid()
    ensures !SelfOrAdmin(me, id) ==> r == Err(Forbidden) && db.data == old(db.data)
    ensures SelfOrAdmin(me, id) && id !in old(db.data.users) ==> r == Err(NotFound) && db.data == old(db.data)
    ensures SelfOrAdmin(me, id) && id in old(db.data.users) ==>
      var u := old(db.data.users)[id];
      if !UserValid(u) then r == Err(ServerError) && db.data == old(db.data)
      else (r == Ok(Unliked(u.likedUnits, unit))
        && db.data == old(db.data).(users := old(db.data.users)[id := u.(likedUnits := Unliked(u.likedUnits, unit))]))
  {
    if !SelfOrAdmin(me, id) {
      return Err(Forbidden);
    }
    if id !in db.data.users {
      return Err(NotFound);
    }
    var u := db.data.users[id];
    var v := u.(likedUnits := Unliked(u.likedUnits, unit));
    if !UserValid(v) {
      return Err(ServerError);
    }
    RewriteKeepsUsersUnique(db.data.users, id, v);
    db.data := db.data.(users := db.data.users[id := v]);
    r := Ok(v.likedUnits);
  }
}
