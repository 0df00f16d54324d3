/** The login form: its schema, the fixed list of demo accounts, the
    three-way decision taken when the simulated request completes, and the
    form state (`isSubmitting`, `loginError`, navigation) that a submission
    drives. */
module LoginForm {
  import opened Common

  datatype Credential = Credential(username: string, password: string)

  /** The demo accounts hard-coded in the component, in list order. */
  const MockUsers: seq<Credential> := [
    Credential("demo", "demo123"),
    Credential("admin", "admin123"),
    Credential("GABRIEL_SANTOS", "Gabi25")
  ]

  datatype LoginValues = LoginValues(username: string, password: string)

  datatype LoginField = Username | Password

  /** The checks of the schema, each with its field and message. */
  datatype LoginCheck = UsernameRequired | PasswordRequired
  {
    function Field(): (f: LoginField)
    {
      match this
      case UsernameRequired => Username
      case PasswordRequired => Password
    }

    function Message(): (m: string)
    {
      match this
      case UsernameRequired => "Nome de usuário é obrigatório"
      case PasswordRequired => "Senha é obrigatória"
    }
  }

  const UserNotFoundMessage := "Usuário não encontrado. Verifique o nome de usuário ou registre-se."
  const IncorrectPasswordMessage := "Senha incorreta. Por favor, tente novamente."
  const DashboardRoute := "/dashboard"

  /** The schema: both fields must hold at least one character. */
  function LoginIssues(v: LoginValues): (issues: seq<LoginCheck>)
    ensures issues == [] <==> v.username != "" && v.password != ""
    ensures UsernameRequired in issues <==> v.username == ""
    ensures PasswordRequired in issues <==> v.password == ""
  {
    (if |v.username| < 1 then [UsernameRequired] else [])
    + (if |v.password| < 1 then [PasswordRequired] else [])
  }

  /** `i` is the position of the first record whose username equals `name`. */
  predicate IsFirstMatch(users: seq<Credential>, name: string, i: int)
  {
    0 <= i < |users| && users[i].username == name
    && forall j | 0 <= j < i :: users[j].username != name
  }

  /** The linear `find` over the account list: the position of the first
      record whose username is exactly `name`, or None. */
  function FindUser(users: seq<Credential>, name: string): (r: Option<nat>)
    ensures r.None? <==> forall i | 0 <= i < |users| :: users[i].username != name
    ensures r.Some? ==> IsFirstMatch(users, name, r.value)
  {
    if users == [] then None
    else if users[0].username == name then Some(0)
    else match FindUser(users[1..], name)
      case None => None
      case Some(k) => Some(k + 1)
  }

  datatype LoginOutcome = UserNotFound | IncorrectPassword | LoggedIn

  /** The decision taken on a submitted username and password. */
  function Decide(users: seq<Credential>, v: LoginValues): (o: LoginOutcome)
    ensures o == UserNotFound <==> forall i | 0 <= i < |users| :: users[i].username != v.username
    ensures o == IncorrectPassword <==>
      exists i :: IsFirstMatch(users, v.username, i) && users[i].password != v.password
    ensures o == LoggedIn <==>
      exists i :: IsFirstMatch(users, v.username, i) && users[i].password == v.password
  {
    match FindUser(users, v.username)
    case None => UserNotFound
    case Some(i) => if users[i].password != v.password then IncorrectPassword else LoggedIn
  }

  predicate DistinctUsernames(users: seq<Credential>)
  {
    forall i, j | 0 <= i < j < |users| :: users[i].username != users[j].username
  }

  /** With distinct usernames the first match is the only one, so a login
      succeeds exactly for a listed username/password pair. */
  lemma LoggedInIffListed(users: seq<Credential>, v: LoginValues)
    requires DistinctUsernames(users)
    ensures Decide(users, v) == LoggedIn <==> Credential(v.username, v.password) in users
  {
  }

  /** A login with a listed username but another password is refused as
      "incorrect password", never as "not found". */
  lemma ListedNameWrongPassword(users: seq<Credential>, v: LoginValues, i: nat)
    requires DistinctUsernames(users)
    requires i < |users| && users[i].username == v.username && users[i].password != v.password
    ensures Decide(users, v) == IncorrectPassword
  {
  }

  /** Exactly the three demo pairs log in; lookup compares case-sensitively. */
  lemma MockLogin(v: LoginValues)
    ensures Decide(MockUsers, v) == LoggedIn <==>
      v in {LoginValues("demo", "demo123"), LoginValues("admin", "admin123"),
            LoginValues("GABRIEL_SANTOS", "Gabi25")}
    ensures v.username in {"DEMO", "Demo", "gabriel_santos"} ==> Decide(MockUsers, v) == UserNotFound
  {
  }

  /** The form component's state. `scheduled` holds the submitted values
      while the simulated request (a one-shot timer) is pending. */
  class LoginFormState {
    var isSubmitting: bool
    var loginError: Option<string>
    var navigatedTo: Option<string>
    var scheduled: Option<LoginValues>

    ghost predicate Valid()
      reads this
    {
      (isSubmitting <==> scheduled.Some?)
      && (scheduled.Some? ==> loginError == None && navigatedTo == None)
      && (navigatedTo.Some? ==> navigatedTo == Some(DashboardRoute) && loginError == None)
    }

    constructor ()
      ensures Valid()
      ensures !isSubmitting && loginError == None && navigatedTo == None && scheduled == None
    {
      isSubmitting := false;
      loginError := None;
      navigatedTo := None;
      scheduled := None;
    }

    /** A submit event: the schema runs first; only accepted values start
        the request, which clears the previous error. The submit button is
        disabled while a request is pending, and the form is gone once the
        dashboard has been opened. */
    method Submit(v: LoginValues) returns (issues: seq<LoginCheck>)
      requires Valid() && !isSubmitting && navigatedTo == None
      modifies this
      ensures Valid()
      ensures issues == LoginIssues(v)
      ensures issues != [] ==>
        !isSubmitting && loginError == old(loginError) && scheduled == None && navigatedTo == None
      ensures issues == [] ==>
        isSubmitting && loginError == None && scheduled == Some(v) && navigatedTo == None
    {
      issues := LoginIssues(v);
      if issues == [] {
        isSubmitting := true;
        loginError := None;
        scheduled := Some(v);
      }
    }

    /** The timer fires: the pending request is decided against the demo
        accounts and exactly one outcome is shown. */
    method Resolve() returns (outcome: LoginOutcome)
      requires Valid() && scheduled.Some?
      modifies this
      ensures Valid() && !isSubmitting && scheduled == None
      ensures outcome == Decide(MockUsers, old(scheduled).value)
      ensures outcome == UserNotFound ==> loginError == Some(UserNotFoundMessage) && navigatedTo == None
      ensures outcome == IncorrectPassword ==>
        loginError == Some(IncorrectPasswordMessage) && navigatedTo == None
      ensures outcome == LoggedIn ==> loginError == None && navigatedTo == Some(DashboardRoute)
      ensures loginError.Some? != navigatedTo.Some?
    {
      var v := scheduled.value;
      isSubmitting := false;
      scheduled := None;
      var found := FindUser(MockUsers, v.username);
      if found.None? {
        loginError := Some(UserNotFoundMessage);
        return UserNotFound;
      }
      if MockUsers[found.value].password != v.password {
        loginError := Some(IncorrectPasswordMessage);
        return IncorrectPassword;
      }
      navigatedTo := Some(DashboardRoute);
      outcome := LoggedIn;
    }
  }
}
