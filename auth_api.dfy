/**
 * `AuthApi` of example/auth-api.ts: the demo back end. Its two IndexedDB
 * stores are sequences in key order, with auto-increment keys starting at 1;
 * index lookups return the first record that matches. Delays are left out
 * and every call reads the clock once, as `now`.
 */
module AuthApis {
  import opened Common
  import opened Errors
  import opened Users

  const SALT := "1234567890"
  const DEFAULT_REFRESH_MS := 300000
  const DEFAULT_ACCESS_MS := 60000
  /** The inherited `userId`, which nothing ever assigns. */
  const UNSET_USER_ID := -1
  const TOKEN_EXPIRED := "Token is expired"

  datatype AuthItem = AuthItem(id: int, createdAt: int, userId: int, refreshMs: int, accessMs: int)

  /** `Omit<User, 'password'>` */
  datatype PublicUser = PublicUser(id: int, createdAt: int, login: string)

  function Reverse(s: string): (r: string)
    ensures |r| == |s| && forall i :: 0 <= i < |s| ==> r[i] == s[|s| - 1 - i]
  {
    if s == [] then [] else Reverse(s[1..]) + [s[0]]
  }

  /** `password.split('').reverse().join('') + salt` */
  function CreatePasswordHash(password: string): string {
    Reverse(password) + SALT
  }

  lemma ReverseTwice(s: string)
    ensures Reverse(Reverse(s)) == s
  {
    assert forall i :: 0 <= i < |s| ==> Reverse(Reverse(s))[i] == s[i];
  }

  /** The hash is the reversed password followed by the salt: ten characters longer, and injective. */
  lemma HashShape(p: string, q: string)
    ensures |CreatePasswordHash(p)| == |p| + 10
    ensures CreatePasswordHash(p)[|p|..] == SALT
    ensures CreatePasswordHash(p)[..|p|] == Reverse(p)
    ensures CreatePasswordHash(p) == CreatePasswordHash(q) ==> p == q
  {
    var hp, hq := CreatePasswordHash(p), CreatePasswordHash(q);
    assert hp[..|p|] == Reverse(p);
    if hp == hq {
      assert |p| == |q|;
      assert hq[..|q|] == Reverse(q);
      ReverseTwice(p);
      ReverseTwice(q);
    }
  }

  /** The expiry test of `checkAuth`. */
  predicate IsExpired(item: AuthItem, now: int) {
    item.createdAt + item.accessMs < now
  }

  /** A token is still valid at the very millisecond it reaches its age limit, and expired one after. */
  lemma ExpiryBoundary(item: AuthItem)
    ensures !IsExpired(item, item.createdAt + item.accessMs)
    ensures IsExpired(item, item.createdAt + item.accessMs + 1)
    ensures forall now :: IsExpired(item, now) <==> now - item.createdAt > item.accessMs
  {
  }

  /** The `usersLogin` index: the first user with this login. */
  function FindUser(users: seq<User>, login: string): (r: Option<nat>)
    ensures r.Some? ==> r.value < |users| && users[r.value].login == login
    ensures r.Some? ==> forall j :: 0 <= j < r.value ==> users[j].login != login
    ensures r.None? <==> forall j :: 0 <= j < |users| ==> users[j].login != login
  {
    if users == [] then None
    else if users[0].login == login then Some(0)
    else match FindUser(users[1..], login)
      case None => None
      case Some(i) => Some(i + 1)
  }

  /** The `authUserId` index: the first auth record of this user. */
  function FindAuth(auth: seq<AuthItem>, userId: int): (r: Option<nat>)
    ensures r.Some? ==> r.value < |auth| && auth[r.value].userId == userId
    ensures r.Some? ==> forall j :: 0 <= j < r.value ==> auth[j].userId != userId
    ensures r.None? <==> forall j :: 0 <= j < |auth| ==> auth[j].userId != userId
  {
    if auth == [] then None
    else if auth[0].userId == userId then Some(0)
    else match FindAuth(auth[1..], userId)
      case None => None
      case Some(i) => Some(i + 1)
  }

  /** `delete({ key: 'authUserId', value })`: every record of that user goes. */
  function DeleteAuth(auth: seq<AuthItem>, userId: int): (r: seq<AuthItem>)
    ensures forall a :: a in r <==> a in auth && a.userId != userId
  {
    if auth == [] then []
    else if auth[0].userId == userId then DeleteAuth(auth[1..], userId)
    else [auth[0]] + DeleteAuth(auth[1..], userId)
  }

  function Rejection(message: string): Thrown {
    Raised(NewResponseError(401, message))
  }

  class AuthApi {
    var users: seq<User>
    var auth: seq<AuthItem>
    var nextUserId: int
    var nextAuthId: int
    const userId: int

    /** Store keys are handed out from 1 upwards, so every user id, and every user id an auth record names, is positive. */
    ghost predicate Valid()
      reads this
    {
      && 1 <= nextUserId && 1 <= nextAuthId
      && (forall u :: u in users ==> 1 <= u.id < nextUserId)
      && (forall a :: a in auth ==> a.userId >= 1)
    }

    constructor (users: seq<User>, auth: seq<AuthItem>, nextUserId: int, nextAuthId: int)
      requires 1 <= nextUserId && 1 <= nextAuthId
      requires forall u :: u in users ==> 1 <= u.id < nextUserId
      requires forall a :: a in auth ==> a.userId >= 1
      ensures Valid() && userId == UNSET_USER_ID
      ensures this.users == users && this.auth == auth && this.nextUserId == nextUserId && this.nextAuthId == nextAuthId
    {
      this.users, this.auth := users, auth;
      this.nextUserId, this.nextAuthId := nextUserId, nextAuthId;
      userId := UNSET_USER_ID;
    }

    /** `refreshToken`: the first record of `userId` is renewed at `now`, or 401 without one. */
    method RefreshToken(now: int) returns (r: Result<(), Thrown>)
      requires Valid()
      modifies this
      ensures Valid() && users == old(users) && nextUserId == old(nextUserId) && nextAuthId == old(nextAuthId)
      ensures FindAuth(old(auth), userId).None? ==> r == Err(Rejection(TOKEN_EXPIRED)) && auth == old(auth)
      ensures FindAuth(old(auth), userId).Some? ==>
                var i := FindAuth(old(auth), userId).value;
                r == Ok(()) && auth == old(auth)[i := old(auth)[i].(createdAt := now)]
    {
      match FindAuth(auth, userId)
      case None =>
        r := Err(Rejection(TOKEN_EXPIRED));
      case Some(i) =>
        auth := auth[i := auth[i].(createdAt := now)];
        r := Ok(());
    }

    /** `checkAuth`: 401 without a record or with an expired one; otherwise the record is renewed. */
    method CheckAuth(now: int) returns (r: Result<bool, Thrown>)
      requires Valid()
      modifies this
      ensures Valid() && users == old(users) && nextUserId == old(nextUserId) && nextAuthId == old(nextAuthId)
      ensures r.Err? <==> FindAuth(old(auth), userId).None? || IsExpired(old(auth)[FindAuth(old(auth), userId).value], now)
      ensures r.Err? ==> r.error == Rejection(TOKEN_EXPIRED) && auth == old(auth)
      ensures r.Ok? ==>
                var i := FindAuth(old(auth), userId).value;
                r.value && auth == old(auth)[i := old(auth)[i].(createdAt := now)]
    {
      match FindAuth(auth, userId)
      case None =>
        r := Err(Rejection(TOKEN_EXPIRED));
      case Some(i) =>
        if IsExpired(auth[i], now) {
          r := Err(Rejection(TOKEN_EXPIRED));
        } else {
          var refreshed := RefreshToken(now);
          r := Ok(true);
        }
    }

    /** `signIn`: 401 for an unknown login or a wrong password; otherwise a new auth record. */
    method SignIn(login: string, password: string, now: int) returns (r: Result<PublicUser, Thrown>)
      requires Valid()
      modifies this
      ensures Valid() && users == old(users) && nextUserId == old(nextUserId)
      ensures r.Err? ==> nextAuthId == old(nextAuthId)
      ensures FindUser(users, login).None? ==> r == Err(Rejection("User not found")) && auth == old(auth)
      ensures FindUser(users, login).Some? ==>
                var u := users[FindUser(users, login).value];
                if u.password != CreatePasswordHash(password) then
                  r == Err(Rejection("Invalid password")) && auth == old(auth)
                else
                  && r == Ok(PublicUser(u.id, u.createdAt, u.login))
                  && auth == old(auth) + [AuthItem(old(nextAuthId), now, u.id, DEFAULT_REFRESH_MS, DEFAULT_ACCESS_MS)]
                  && nextAuthId == old(nextAuthId) + 1
    {
      match FindUser(users, login)
      case None =>
        r := Err(Rejection("User not found"));
      case Some(i) =>
        var u := users[i];
        if u.password != CreatePasswordHash(password) {
          r := Err(Rejection("Invalid password"));
        } else {
          auth := auth + [AuthItem(nextAuthId, now, u.id, DEFAULT_REFRESH_MS, DEFAULT_ACCESS_MS)];
          nextAuthId := nextAuthId + 1;
          r := Ok(PublicUser(u.id, u.createdAt, u.login));
        }
    }

    /**
     * `signUp`: a taken login is refused with a plain Error; otherwise the user
     * is stored with the hashed password and signed in. The validator runs
     * but its verdict is never read, so an empty login or a short password
     * does not stop the sign-up.
     */
    method SignUp(login: string, password: string, now: int) returns (r: Result<PublicUser, Thrown>)
      requires Valid()
      modifies this
      ensures Valid()
      ensures r.Err? <==> FindUser(old(users), login).Some?
      ensures r.Err? ==> r.error == PlainError("User already exists") && users == old(users) && auth == old(auth)
      ensures r.Err? ==> nextUserId == old(nextUserId) && nextAuthId == old(nextAuthId)
      ensures r.Ok? ==> nextUserId == old(nextUserId) + 1 && nextAuthId == old(nextAuthId) + 1
      ensures r.Ok? ==>
                && r.value == PublicUser(old(nextUserId), now, login)
                && users == old(users) + [User(old(nextUserId), now, login, CreatePasswordHash(password))]
                && auth == old(auth) + [AuthItem(old(nextAuthId), now, old(nextUserId), DEFAULT_REFRESH_MS, DEFAULT_ACCESS_MS)]
    {
      var user := New(Some(PartialUser(Absent, Absent, Given(login), Given(CreatePasswordHash(password)))), now);
      var validator := new Validator(user);
      var ignored := validator.Validate();
      if FindUser(users, login).Some? {
        return Err(PlainError("User already exists"));
      }
      // `userApi.create`: the record is stored without its id, which the store assigns.
      var json := user.ToJson();
      var id := nextUserId;
      users := users + [json.(id := id)];
      nextUserId := nextUserId + 1;
      var newUser := PartialUser(Given(id), Given(json.createdAt), Given(json.login), Given(""));
      user := user.CloneWith(Some(newUser), now);
      auth := auth + [AuthItem(nextAuthId, now, user.id, DEFAULT_REFRESH_MS, DEFAULT_ACCESS_MS)];
      nextAuthId := nextAuthId + 1;
      var result := user.ToJson();
      r := Ok(PublicUser(result.id, result.createdAt, result.login));
    }

    /** `signOut`: every auth record of `userId` is deleted. */
    method SignOut() returns (r: bool)
      requires Valid()
      modifies this
      ensures Valid() && r && users == old(users) && nextUserId == old(nextUserId) && nextAuthId == old(nextAuthId)
      ensures forall a :: a in auth <==> a in old(auth) && a.userId != userId
    {
      auth := DeleteAuth(auth, userId);
      r := true;
    }
  }

  /**
   * Because `userId` stays -1 while every stored record names a positive user
   * id, `checkAuth` rejects with 401 whatever has been signed in, and
   * `signOut` deletes nothing.
   */
  lemma {:induction false} UnsetUserIdFindsNothing(auth: seq<AuthItem>)
    requires forall a :: a in auth ==> a.userId >= 1
    ensures FindAuth(auth, UNSET_USER_ID).None?
    ensures DeleteAuth(auth, UNSET_USER_ID) == auth
  {
    if auth != [] {
      UnsetUserIdFindsNothing(auth[1..]);
    }
  }

  method CheckAuthAlwaysRejects(api: AuthApi, now: int) returns (r: Result<bool, Thrown>)
    requires api.Valid() && api.userId == UNSET_USER_ID
    modifies api
    ensures r == Err(Rejection(TOKEN_EXPIRED))
  {
    UnsetUserIdFindsNothing(api.auth);
    r := api.CheckAuth(now);
  }
}
