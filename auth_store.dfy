/** The authentication store (`useAuthStore`): the signed-in user, a loading
    flag and an error message. Login and registration each set the loading
    state, wait, and then settle; the wait splits every such action into a
    start and a finish here. */
module AuthStore {
  import opened Wrappers
  import opened GeoTypes
  import opened Strings
  import V = Validators

  const DemoEmail := "demo@gis.pro"
  const DemoPassword := "demo123"
  const LoginFailedMessage := "بيانات الدخول غير صحيحة"

  const DemoUser := User(
    "demo-user", DemoEmail, "demo", Some("مستخدم"), Some("تجريبي"),
    RoleAdmin, Some("GIS Maps Pro"), None, true)

  /** `email.split('@')[0]`: everything before the first '@', or the whole
      string when it has none. */
  function BeforeFirstAt(s: string): (r: string)
    ensures |r| <= |s| && r == s[..|r|]
    ensures '@' !in r
    ensures |r| < |s| ==> s[|r|] == '@'
  {
    if s == [] || s[0] == '@' then [] else [s[0]] + BeforeFirstAt(s[1..])
  }

  /** The user a login produces, or None when it is rejected: the demo
      credentials give the demo user; any other non-empty email with a
      password of at least 4 characters gives the demo user with that email
      and the email's local part as username. */
  function LoginUser(email: string, password: string): (r: Option<User>)
    ensures email == DemoEmail && password == DemoPassword ==> r == Some(DemoUser)
    ensures !(email == DemoEmail && password == DemoPassword) ==>
      (r.Some? <==> email != "" && |password| >= 4)
    ensures r.Some? ==> r.value.email == email && r.value.role == RoleAdmin && r.value.id == DemoUser.id
    ensures !(email == DemoEmail && password == DemoPassword) && r.Some? ==>
      r.value == DemoUser.(email := email, username := BeforeFirstAt(email))
  {
    if email == DemoEmail && password == DemoPassword then Some(DemoUser)
    else if email != "" && |password| >= 4 then Some(DemoUser.(email := email, username := BeforeFirstAt(email)))
    else None
  }

  /** Signing in with the demo address gives the demo user whatever the
      accepted password: its local part is the demo username. */
  lemma DemoAddressGivesDemoUser(password: string)
    ensures LoginUser(DemoEmail, password).Some? ==> LoginUser(DemoEmail, password) == Some(DemoUser)
  {
    assert DemoEmail == "demo" + "@" + "gis.pro";
    BeforeFirstAtOf("demo", "gis.pro");
  }

  /** The local part of an address is read back whole. */
  lemma {:induction false} BeforeFirstAtOf(local: string, domain: string)
    requires '@' !in local
    ensures BeforeFirstAt(local + "@" + domain) == local
  {
    if local != [] {
      assert (local + "@" + domain)[1..] == local[1..] + "@" + domain;
      BeforeFirstAtOf(local[1..], domain);
    }
  }

  /** Any other accepted address `local@domain` signs in with `local` as
      username and every other field of the demo user. */
  lemma LoginUsernameIsLocalPart(local: string, domain: string, password: string)
    requires '@' !in local && |password| >= 4
    requires local + "@" + domain != DemoEmail
    ensures LoginUser(local + "@" + domain, password) ==
      Some(DemoUser.(email := local + "@" + domain, username := local))
  {
    BeforeFirstAtOf(local, domain);
  }

  /** The registration form's fields. */
  datatype Registration = Registration(
    email: string,
    username: string,
    password: string,
    firstName: Option<string>,
    lastName: Option<string>,
    organization: Option<string>)

  /** The user a registration produces, with the id `user-<now>`: an
      active ordinary user with exactly the given details. */
  function RegisteredUser(data: Registration, now: nat): (u: User)
    ensures u.role == RoleUser && u.isActive
    ensures u.email == data.email && u.username == data.username
    ensures u.firstName == data.firstName && u.lastName == data.lastName && u.organization == data.organization
    ensures u.id == "user-" + DecimalString(now) && u.avatar.None?
  {
    User("user-" + DecimalString(now), data.email, data.username, data.firstName, data.lastName,
         RoleUser, data.organization, None, true)
  }

  class AuthStore {
    var user: Option<User>
    var isLoading: bool
    var error: Option<string>
    var isAuthenticated: bool

    /** Signed in exactly when a user is present. */
    predicate Valid()
      reads this
    {
      isAuthenticated <==> user.Some?
    }

    constructor ()
      ensures Valid()
      ensures user.None? && !isLoading && error.None? && !isAuthenticated
    {
      user := None;
      isLoading := false;
      error := None;
      isAuthenticated := false;
    }

    /** The first step of `login` and `register`. */
    method BeginRequest()
      modifies this`isLoading, this`error
      ensures isLoading && error.None?
    {
      isLoading := true;
      error := None;
    }

    /** The rest of `login`, after the delay. On success the user is signed
        in; on failure the message is set, the user and the signed-in flag
        are left as they were, and the error is passed on (ok is false).
        Loading stops either way. */
    method FinishLogin(email: string, password: string) returns (ok: bool)
      requires Valid()
      modifies this`user, this`isLoading, this`error, this`isAuthenticated
      ensures Valid() && !isLoading
      ensures ok <==> LoginUser(email, password).Some?
      ensures ok ==> user == LoginUser(email, password) && isAuthenticated && error == old(error)
      ensures !ok ==> error == Some(LoginFailedMessage) && user == old(user) && isAuthenticated == old(isAuthenticated)
    {
      var u := LoginUser(email, password);
      if u.Some? {
        user := u;
        isLoading := false;
        isAuthenticated := true;
        ok := true;
      } else {
        error := Some(LoginFailedMessage);
        isLoading := false;
        ok := false;
      }
    }

    /** `login` as a whole. */
    method Login(email: string, password: string) returns (ok: bool)
      requires Valid()
      modifies this`user, this`isLoading, this`error, this`isAuthenticated
      ensures Valid() && !isLoading
      ensures ok <==> LoginUser(email, password).Some?
      ensures ok ==> user == LoginUser(email, password) && isAuthenticated && error.None?
      ensures !ok ==> error == Some(LoginFailedMessage) && user == old(user) && isAuthenticated == old(isAuthenticated)
    {
      BeginRequest();
      ok := FinishLogin(email, password);
    }

    /** The rest of `register`, after the delay; it cannot fail. */
    method FinishRegister(data: Registration, now: nat)
      modifies this`user, this`isLoading, this`isAuthenticated
      ensures Valid() && !isLoading && isAuthenticated
      ensures user == Some(RegisteredUser(data, now))
    {
      user := Some(RegisteredUser(data, now));
      isLoading := false;
      isAuthenticated := true;
    }

    /** `register` as a whole. */
    method Register(data: Registration, now: nat)
      modifies this`user, this`isLoading, this`error, this`isAuthenticated
      ensures Valid() && !isLoading && isAuthenticated && error.None?
      ensures user == Some(RegisteredUser(data, now))
    {
      BeginRequest();
      FinishRegister(data, now);
    }

    /** Signs out and clears the error; the loading flag is left alone. */
    method Logout()
      modifies this`user, this`isAuthenticated, this`error
      ensures Valid()
      ensures user.None? && !isAuthenticated && error.None?
    {
      user := None;
      isAuthenticated := false;
      error := None;
    }

    method ClearError()
      modifies this`error
      ensures error.None?
    {
      error := None;
    }
  }

  /** A login the login schema accepts is one the store accepts, as long as
      an email address is never empty; the store alone also takes any
      non-empty string as the address. */
  lemma SchemaLoginAcceptedByStore(email: string, password: string, env: V.Env)
    requires email != "" || !env.isEmail(email)
    ensures V.Accepts(V.LoginSchema, V.Login(email, password), env) ==> LoginUser(email, password).Some?
    ensures LoginUser(email, password).Some? && !(email == DemoEmail && password == DemoPassword) ==> |password| >= 4
  {
    V.LoginAcceptsIff(email, password, env);
  }
}
