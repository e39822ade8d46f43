/**
 * `UserModel` and its `Validator` (example/models/user-model.ts). A model is
 * built once and its fields are never reassigned, so it is a value; the
 * validator is an object whose error record `validate` and `reset` change
 * in place. Timestamps are integers, and `new Date()` is a `now` argument.
 */
module Users {
  import opened Common
  import opened ErrorManager

  const MIN_PASSWORD_LENGTH := 4
  const LOGIN_MESSAGE := "Login is required."
  const PASSWORD_MESSAGE := "Password is required and must be at least 4 characters long."

  /** The `User` record. */
  datatype User = User(id: int, createdAt: int, login: string, password: string)

  /** One property of a `Partial<User>`: missing, present but `undefined`, or given. */
  datatype Field<T> = Absent | Undefined | Given(value: T)

  datatype PartialUser = PartialUser(id: Field<int>, createdAt: Field<int>, login: Field<string>, password: Field<string>)

  const NO_FIELDS := PartialUser(Absent, Absent, Absent, Absent)

  /** `field ?? default`: only a given value survives, `''` and `0` included. */
  function Or<T>(f: Field<T>, default: T): T {
    if f.Given? then f.value else default
  }

  /** `{ ...base, ...over }`: a property of `over` that is present, even as `undefined`, wins. */
  function Spread(base: PartialUser, over: PartialUser): PartialUser {
    PartialUser(if over.id.Absent? then base.id else over.id,
                if over.createdAt.Absent? then base.createdAt else over.createdAt,
                if over.login.Absent? then base.login else over.login,
                if over.password.Absent? then base.password else over.password)
  }

  /** A whole `User` seen as a partial one. */
  function Whole(u: User): PartialUser {
    PartialUser(Given(u.id), Given(u.createdAt), Given(u.login), Given(u.password))
  }

  datatype UserModel = UserModel(id: int, createdAt: int, login: string, password: string) {
    /** `toJson` */
    function ToJson(): (u: User)
      ensures u.id == id && u.createdAt == createdAt && u.login == login && u.password == password
    {
      User(id, createdAt, login, password)
    }

    /** `cloneWith(user)`: a new model from this one's fields overlaid with `user`'s. */
    function CloneWith(user: Option<PartialUser>, now: int): UserModel {
      New(Some(Spread(Whole(ToJson()), user.GetOr(NO_FIELDS))), now)
    }
  }

  /** `new UserModel(user)`: each field is the given one, or the initialiser's default. */
  function New(user: Option<PartialUser>, now: int): UserModel {
    var p := user.GetOr(NO_FIELDS);
    UserModel(Or(p.id, -1), Or(p.createdAt, now), Or(p.login, ""), Or(p.password, ""))
  }

  /** `UserModel.fromJson(user)` */
  function FromJson(user: PartialUser, now: int): UserModel {
    New(Some(user), now)
  }

  /** The constructor keeps every given field, even a falsy one, and uses the defaults for the rest. */
  lemma ConstructorKeepsGiven(p: PartialUser, now: int)
    ensures var m := New(Some(p), now);
            && m.id == (if p.id.Given? then p.id.value else -1)
            && m.createdAt == (if p.createdAt.Given? then p.createdAt.value else now)
            && m.login == (if p.login.Given? then p.login.value else "")
            && m.password == (if p.password.Given? then p.password.value else "")
  {
  }

  /** Without an argument every field takes its default. */
  lemma ConstructorDefaults(now: int)
    ensures New(None, now) == UserModel(-1, now, "", "")
  {
  }

  /**
   * `cloneWith(u)`: a field given in `u` is taken, a field missing from `u`
   * is kept, and a field present in `u` as `undefined` falls back to its
   * default rather than to the current value.
   */
  lemma CloneWithFields(m: UserModel, u: PartialUser, now: int)
    ensures var c := m.CloneWith(Some(u), now);
            && c.id == (match u.id case Given(v) => v case Absent => m.id case Undefined => -1)
            && c.createdAt == (match u.createdAt case Given(v) => v case Absent => m.createdAt case Undefined => now)
            && c.login == (match u.login case Given(v) => v case Absent => m.login case Undefined => "")
            && c.password == (match u.password case Given(v) => v case Absent => m.password case Undefined => "")
  {
  }

  /** Cloning with nothing gives an equal model. */
  lemma CloneWithNothing(m: UserModel, now: int)
    ensures m.CloneWith(None, now) == m && m.CloneWith(Some(NO_FIELDS), now) == m
  {
  }

  /** `fromJson(m.toJson())` has the fields of `m`, whatever the clock says. */
  lemma JsonRoundTrip(m: UserModel, now: int)
    ensures FromJson(Whole(m.ToJson()), now) == m
  {
  }

  /** The login and password rules of `validate`. */
  predicate LoginInvalid(login: string) {
    login == ""
  }

  predicate PasswordInvalid(password: string) {
    password == "" || |password| < MIN_PASSWORD_LENGTH
  }

  /** The error record after one `validate` of `user`, starting from `d`. */
  function Validated(d: seq<Entry>, user: UserModel): seq<Entry> {
    var d1 := if LoginInvalid(user.login) then Assign(d, "login", LOGIN_MESSAGE) else d;
    if PasswordInvalid(user.password) then Assign(d1, "password", PASSWORD_MESSAGE) else d1
  }

  class Validator {
    const user: UserModel
    const errors: ErrorManagerModel

    constructor (user: UserModel)
      ensures this.user == user && fresh(errors) && errors.data == []
    {
      this.user := user;
      errors := new ErrorManagerModel();
    }

    method Validate() returns (e: ErrorManagerModel)
      modifies errors
      ensures e == errors
      ensures errors.data == Validated(old(errors.data), user)
    {
      if LoginInvalid(user.login) {
        errors.data := Assign(errors.data, "login", LOGIN_MESSAGE);
      }
      if PasswordInvalid(user.password) {
        errors.data := Assign(errors.data, "password", PASSWORD_MESSAGE);
      }
      e := errors;
    }

    method Reset()
      modifies errors
      ensures errors.data == [] && errors.ToString() == ""
    {
      errors.Clear();
    }
  }

  /** A login error is present after `validate` exactly when the login is empty or one was already there. */
  lemma LoginErrorIff(d: seq<Entry>, user: UserModel)
    ensures Lookup(Validated(d, user), "login").Some? <==> LoginInvalid(user.login) || Lookup(d, "login").Some?
    ensures LoginInvalid(user.login) ==> Lookup(Validated(d, user), "login") == Some(LOGIN_MESSAGE)
  {
    var d1 := if LoginInvalid(user.login) then Assign(d, "login", LOGIN_MESSAGE) else d;
    AssignLookup(d, "login", LOGIN_MESSAGE);
    AssignLookup(d1, "password", PASSWORD_MESSAGE);
  }

  /** A password error is present exactly when the password is empty or too short, or one was already there. */
  lemma PasswordErrorIff(d: seq<Entry>, user: UserModel)
    ensures Lookup(Validated(d, user), "password").Some? <==> PasswordInvalid(user.password) || Lookup(d, "password").Some?
    ensures PasswordInvalid(user.password) ==> Lookup(Validated(d, user), "password") == Some(PASSWORD_MESSAGE)
    ensures PasswordInvalid(user.password) <==> user.password == "" || |user.password| < 4
  {
    var d1 := if LoginInvalid(user.login) then Assign(d, "login", LOGIN_MESSAGE) else d;
    AssignLookup(d, "login", LOGIN_MESSAGE);
    AssignLookup(d1, "password", PASSWORD_MESSAGE);
  }

  /** `validate` never removes or rewrites an earlier message of another field, and keeps keys distinct. */
  lemma ValidateKeepsEarlier(d: seq<Entry>, user: UserModel, k: string)
    requires k != "login" && k != "password"
    ensures Lookup(Validated(d, user), k) == Lookup(d, k)
    ensures UniqueKeys(d) ==> UniqueKeys(Validated(d, user))
  {
    var d1 := if LoginInvalid(user.login) then Assign(d, "login", LOGIN_MESSAGE) else d;
    AssignLookup(d, "login", LOGIN_MESSAGE);
    AssignLookup(d1, "password", PASSWORD_MESSAGE);
    if UniqueKeys(d) {
      AssignUnique(d, "login", LOGIN_MESSAGE);
      AssignUnique(d1, "password", PASSWORD_MESSAGE);
    }
  }

  /** A valid user leaves the record exactly as it was: errors only accumulate until `reset`. */
  lemma ValidUserChangesNothing(d: seq<Entry>, user: UserModel)
    requires !LoginInvalid(user.login) && !PasswordInvalid(user.password)
    ensures Validated(d, user) == d
  {
  }

  /**
   * On a record holding neither field, `validate` appends the login message
   * when the login fails, then the password message when the password fails.
   */
  lemma ValidatedAppendsMessages(d: seq<Entry>, user: UserModel)
    requires "login" !in Keys(d) && "password" !in Keys(d)
    ensures Join(Validated(d, user)) ==
              Join(d) + (if LoginInvalid(user.login) then LOGIN_MESSAGE else "")
                      + (if PasswordInvalid(user.password) then PASSWORD_MESSAGE else "")
  {
    var d1 := if LoginInvalid(user.login) then Assign(d, "login", LOGIN_MESSAGE) else d;
    if LoginInvalid(user.login) {
      JoinAssignNew(d, "login", LOGIN_MESSAGE);
      assert d1 == d + [Entry("login", LOGIN_MESSAGE)];
      assert Keys(d1) == Keys(d) + ["login"];
    }
    assert "password" !in Keys(d1);
    if PasswordInvalid(user.password) {
      JoinAssignNew(d1, "password", PASSWORD_MESSAGE);
    }
  }

  /** For an empty user on a fresh validator, the login message comes first, then the password message. */
  lemma EmptyUserMessages(now: int)
    ensures Join(Validated([], New(None, now))) == LOGIN_MESSAGE + PASSWORD_MESSAGE
  {
    ValidatedAppendsMessages([], New(None, now));
  }
}
