/** Identity resolution (src/bl.py): turning a verified identity token into
    the current user, creating the user record on first sign-in. */
module Identity {
  import opened Wrappers
  import opened Users

  /** The claims of a verified token: string-valued entries such as
      "user_id", "name" and "picture". An invalid token gives no claims. */
  type Claims = map<string, string>

  /** The store of users, keyed by Firebase id. */
  type UserTable = map<string, User>

  /** Every entry is filed under its own user's Firebase id. */
  ghost predicate TableValid(users: UserTable) {
    forall fid :: fid in users ==> users[fid].firebaseId == fid
  }

  /** `name.split(" ", 1)` unpacked into two parts: None when there is no
      space (the unpacking raises ValueError). */
  function SplitAtFirstSpace(name: string): (r: Option<(string, string)>)
    ensures r.None? <==> ' ' !in name
    ensures r.Some? ==> name == r.value.0 + " " + r.value.1 && ' ' !in r.value.0
  {
    if |name| == 0 then None
    else if name[0] == ' ' then Some(("", name[1..]))
    else
      match SplitAtFirstSpace(name[1..])
      case None => None
      case Some((first, rest)) =>
        assert name == [name[0]] + name[1..];
        Some(([name[0]] + first, rest))
  }

  /** The split is the only one with a space-free first part: the first name
      is the text before the first space, the last name all that follows. */
  lemma {:induction false} SplitAtFirstSpaceIsUnique(first: string, rest: string)
    requires ' ' !in first
    ensures SplitAtFirstSpace(first + " " + rest) == Some((first, rest))
  {
    var name := first + " " + rest;
    if |first| == 0 {
      assert name[0] == ' ' && name[1..] == rest;
    } else {
      assert name[0] == first[0] && name[1..] == first[1..] + " " + rest;
      SplitAtFirstSpaceIsUnique(first[1..], rest);
      assert [first[0]] + first[1..] == first;
    }
  }

  /** The user built for a first sign-in, or None when the "name" claim is
      missing (KeyError) or has no space (ValueError). */
  function NewUser(claims: Claims, freshUserId: string): (u: Option<User>)
    requires "user_id" in claims
    ensures u.Some? <==> "name" in claims && ' ' in claims["name"]
    ensures u.Some? ==>
              && u.value.userId == freshUserId
              && u.value.firebaseId == claims["user_id"]
              && claims["name"] == u.value.firstName + " " + u.value.lastName
              && ' ' !in u.value.firstName
              && u.value.imageUrl == (if "picture" in claims then Some(claims["picture"]) else None)
  {
    if "name" !in claims then None
    else
      match SplitAtFirstSpace(claims["name"])
      case None => None
      case Some((first, rest)) =>
        Some(User(freshUserId, claims["user_id"], first, rest,
                  if "picture" in claims then Some(claims["picture"]) else None))
  }

  /** The outcome of resolving one set of claims: the current user and the
      store afterwards. */
  datatype Resolution = Resolution(user: Option<User>, users: UserTable)

  /** What `validate_token` does once it has the claims: no "user_id" leaves
      no user; a known Firebase id adopts the stored user; an unknown one
      creates, stores and adopts a new user, or leaves no user when the name
      cannot be split. */
  function Resolve(users: UserTable, claims: Claims, freshUserId: string): (r: Resolution)
    ensures "user_id" !in claims ==> r == Resolution(None, users)
    ensures "user_id" in claims && claims["user_id"] in users ==>
              r == Resolution(Some(users[claims["user_id"]]), users)
    ensures "user_id" in claims && claims["user_id"] !in users && NewUser(claims, freshUserId).None? ==>
              r == Resolution(None, users)
    ensures "user_id" in claims && claims["user_id"] !in users && NewUser(claims, freshUserId).Some? ==>
              var u := NewUser(claims, freshUserId).value;
              r == Resolution(Some(u), users[claims["user_id"] := u])
    // at most one user is added, and only when the lookup found none
    ensures r.users == users ||
            ("user_id" in claims && claims["user_id"] !in users && r.user.Some? &&
             r.users == users[claims["user_id"] := r.user.value])
    // a resolved user carries the claim's Firebase id and is in the store
    ensures TableValid(users) && r.user.Some? ==>
              "user_id" in claims && r.user.value.firebaseId == claims["user_id"] &&
              claims["user_id"] in r.users && r.users[claims["user_id"]] == r.user.value
    ensures TableValid(users) ==> TableValid(r.users)
  {
    if "user_id" !in claims then Resolution(None, users)
    else
      var firebaseId := claims["user_id"];
      if firebaseId in users then Resolution(Some(users[firebaseId]), users)
      else
        match NewUser(claims, freshUserId)
        case None => Resolution(None, users)
        case Some(u) => Resolution(Some(u), users[firebaseId := u])
  }

  /** Signing in twice with the same claims: the second resolution finds the
      user the first one stored, creates nobody and changes nothing. */
  lemma ResolveTwiceIsStable(users: UserTable, claims: Claims, freshUserId: string, otherFreshUserId: string)
    requires TableValid(users)
    ensures var first := Resolve(users, claims, freshUserId);
            first.user.Some? ==> Resolve(first.users, claims, otherFreshUserId) == first
  {
  }

  /** The user store (the data-access object's user table). */
  class UserStore {
    var users: UserTable

    ghost predicate Valid()
      reads this
    {
      TableValid(users)
    }

    constructor (users: UserTable)
      requires TableValid(users)
      ensures Valid() && this.users == users
    {
      this.users := users;
    }

    /** `get_user_by_firebase_id`: the stored user with that Firebase id, if any. */
    method GetUserByFirebaseId(firebaseId: string) returns (u: Option<User>)
      requires Valid()
      ensures u.Some? <==> firebaseId in users
      ensures u.Some? ==> u.value == users[firebaseId] && u.value.firebaseId == firebaseId
    {
      u := if firebaseId in users then Some(users[firebaseId]) else None;
    }

    /** `create_user`: files the user under its Firebase id. */
    method CreateUser(u: User)
      requires Valid()
      modifies this
      ensures Valid()
      ensures users == old(users)[u.firebaseId := u]
    {
      users := users[u.firebaseId := u];
    }
  }

  /** The request-scoped manager: the token verifier, the store, and the
      user of the current request. */
  class Manager {
    const verifyToken: string -> Claims
    const dao: UserStore
    var user: Option<User>

    constructor (verifyToken: string -> Claims, dao: UserStore)
      ensures this.verifyToken == verifyToken && this.dao == dao && user == None
    {
      this.verifyToken := verifyToken;
      this.dao := dao;
      user := None;
    }

    /** `validate_token`. No token returns at once. Otherwise the current user
        and the store become what `Resolve` gives for the token's claims;
        `freshUserId` is the id `uuid4` would draw for a new user. */
    method ValidateToken(token: Option<string>, freshUserId: string)
      requires freshUserId != ""
      requires dao.Valid()
      modifies this, dao
      ensures dao.Valid()
      ensures token.None? ==> user == old(user) && dao.users == old(dao.users)
      ensures token.Some? ==>
                var r := Resolve(old(dao.users), verifyToken(token.value), freshUserId);
                user == r.user && dao.users == r.users
    {
      if token.None? {
        return;
      }
      var claims := verifyToken(token.value);
      if "user_id" !in claims {
        user := None;
        return;
      }
      user := dao.GetUserByFirebaseId(claims["user_id"]);
      if user.None? {
        if "name" !in claims {
          user := None;
          return;
        }
        var names := SplitAtFirstSpace(claims["name"]);
        if names.None? {
          user := None;
          return;
        }
        var picture := if "picture" in claims then Some(claims["picture"]) else None;
        user := Some(User(freshUserId, claims["user_id"], names.value.0, names.value.1, picture));
        dao.CreateUser(user.value);
      }
    }
  }
}
