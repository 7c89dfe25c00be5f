/** The OAuth landing page (AuthSuccess.jsx).  The provider redirects here
    with a `token` or an `error` query parameter; the page stores the token,
    exchanges it for a session once, and moves on to the dashboard or back
    to the login page. */
module AuthSuccess {
  import opened Effects

  const FailedMessage := "Authentication failed. Please try again."
  const ErrorRedirectDelayMs: nat := 3000
  const TokenKey := "token"
  const AuthorizationHeader := "Authorization"

  /** A query parameter as JavaScript's `if (param)` sees it:
      `searchParams.get` gives `null` when it is absent and `""` for
      `?token=`, and both are falsy. */
  predicate Truthy(param: Option<string>) {
    param.Some? && param.value != ""
  }

  /** The branch one run of the main effect takes. */
  datatype Step =
    | DelayedLoginRedirect     // error present: back to /login after 3 s
    | LoginRedirect            // no token: back to /login at once
    | DashboardRedirect        // token stored, session already there
    | AttemptLogin(token: string)  // token stored, first exchange
    | Idle                     // token stored, exchange already made or session loading

  /** The main effect's choice, from the error state, the token parameter,
      the session flags and whether the exchange was already attempted. */
  function Decide(error: Option<string>, token: Option<string>, isAuthenticated: bool,
                  loading: bool, loginAttempted: bool): (s: Step)
    ensures s == DelayedLoginRedirect <==> Truthy(error)
    ensures s == LoginRedirect <==> !Truthy(error) && !Truthy(token)
    ensures s == DashboardRedirect <==> !Truthy(error) && Truthy(token) && isAuthenticated
    ensures s.AttemptLogin? <==>
      !Truthy(error) && Truthy(token) && !isAuthenticated && !loginAttempted && !loading
    ensures s.AttemptLogin? ==> s.token == token.value
  {
    if Truthy(error) then DelayedLoginRedirect
    else if !Truthy(token) then LoginRedirect
    else if isAuthenticated then DashboardRedirect
    else if !loginAttempted && !loading then AttemptLogin(token.value)
    else Idle
  }

  /** The steps that get past the two early returns, and so store the
      token first. */
  predicate StoresToken(s: Step) {
    s == DashboardRedirect || s.AttemptLogin? || s == Idle
  }

  /** The token is stored exactly when there is no error and there is a
      token: before any dashboard redirect or login attempt. */
  lemma StoresTokenIff(error: Option<string>, token: Option<string>, isAuthenticated: bool,
                       loading: bool, loginAttempted: bool)
    ensures StoresToken(Decide(error, token, isAuthenticated, loading, loginAttempted)) <==>
      !Truthy(error) && Truthy(token)
  {
  }

  /** The effects of one run of the main effect. */
  function StepEffects(s: Step): (r: seq<Effect>)
    ensures |r| <= 1
    ensures s == Idle <==> r == []
  {
    match s
    case DelayedLoginRedirect => [NavigateAfter(ErrorRedirectDelayMs, "/login", true)]
    case LoginRedirect => [Navigate("/login", true)]
    case DashboardRedirect => [Navigate("/dashboard", true)]
    case AttemptLogin(t) => [LoginRequest(t)]
    case Idle => []
  }

  /** The effects of one run of the second effect, as written: go to the
      dashboard once the session is in and no longer loading. */
  function RedirectStep(isAuthenticated: bool, loading: bool): (r: seq<Effect>)
    ensures r == [] || r == [Navigate("/dashboard", true)]
    ensures r != [] <==> isAuthenticated && !loading
  {
    if isAuthenticated && !loading then [Navigate("/dashboard", true)] else []
  }

  /** The second effect as the error contract needs it: it also stays
      quiet while an error is shown, so the error path ends on /login. */
  function GuardedRedirectStep(error: Option<string>, isAuthenticated: bool, loading: bool): (r: seq<Effect>)
    ensures Truthy(error) ==> r == []
    ensures !Truthy(error) ==> r == RedirectStep(isAuthenticated, loading)
  {
    if !Truthy(error) && isAuthenticated && !loading then [Navigate("/dashboard", true)] else []
  }

  /** The number of `login` calls among `effects`. */
  function CountLogins(effects: seq<Effect>): nat {
    if effects == [] then 0
    else CountLogins(effects[..|effects| - 1]) + if effects[|effects| - 1].LoginRequest? then 1 else 0
  }

  lemma {:induction false} CountLoginsAppend(a: seq<Effect>, b: seq<Effect>)
    ensures CountLogins(a + b) == CountLogins(a) + CountLogins(b)
    decreases |b|
  {
    if b == [] {
      assert a + b == a;
    } else {
      assert (a + b)[..|a + b| - 1] == a + b[..|b| - 1];
      CountLoginsAppend(a, b[..|b| - 1]);
    }
  }

  /** What the page shows: the failure panel with the message while an
      error is set, otherwise the "Signing you in" spinner. */
  datatype Screen = FailurePanel(message: string) | SigningIn

  function ScreenOf(error: Option<string>): (s: Screen)
    ensures s.FailurePanel? <==> Truthy(error)
    ensures s.FailurePanel? ==> s.message == error.value
  {
    if Truthy(error) then FailurePanel(error.value) else SigningIn
  }

  /** The page's state: the `token` parameter, the `error` and
      `loginAttempted` state, the parts of localStorage and of axios'
      common headers it writes, and its effects. */
  class AuthSuccessPage {
    const token: Option<string>
    var error: Option<string>
    var loginAttempted: bool
    var storage: map<string, string>
    var headers: map<string, string>
    var effects: seq<Effect>

    /** The token this page received is in storage and in the
        Authorization header. */
    predicate TokenStored()
      reads this
    {
      token.Some? &&
      TokenKey in storage && storage[TokenKey] == token.value &&
      AuthorizationHeader in headers && headers[AuthorizationHeader] == "Bearer " + token.value
    }

    /** `login` has been called once if `loginAttempted` is set and never
        otherwise, and only after the token was stored. */
    ghost predicate Valid()
      reads this
    {
      CountLogins(effects) == (if loginAttempted then 1 else 0) &&
      (loginAttempted ==> Truthy(token) && TokenStored())
    }

    /** Mounting with the query parameters and the storage and headers the
        browser already holds. */
    constructor (token: Option<string>, error: Option<string>,
                 storage: map<string, string>, headers: map<string, string>)
      ensures Valid()
      ensures this.token == token && this.error == error && !loginAttempted
      ensures this.storage == storage && this.headers == headers && effects == []
    {
      this.token := token;
      this.error := error;
      loginAttempted := false;
      this.storage := storage;
      this.headers := headers;
      effects := [];
    }

    function CurrentScreen(): Screen
      reads this
    {
      ScreenOf(error)
    }

    /** One run of the first effect, with the session's current flags. */
    method RunAuthEffect(isAuthenticated: bool, loading: bool)
      requires Valid()
      modifies this
      ensures Valid() && CountLogins(effects) <= 1
      ensures var s := Decide(old(error), token, isAuthenticated, loading, old(loginAttempted));
        effects == old(effects) + StepEffects(s) &&
        loginAttempted == (old(loginAttempted) || s.AttemptLogin?) &&
        (StoresToken(s) ==>
          storage == old(storage)[TokenKey := token.value] &&
          headers == old(headers)[AuthorizationHeader := "Bearer " + token.value]) &&
        (!StoresToken(s) ==> storage == old(storage) && headers == old(headers))
      ensures error == old(error)
    {
      if Truthy(error) {
        Emit(NavigateAfter(ErrorRedirectDelayMs, "/login", true));
        return;
      }
      if !Truthy(token) {
        Emit(Navigate("/login", true));
        return;
      }
      storage := storage[TokenKey := token.value];
      headers := headers[AuthorizationHeader := "Bearer " + token.value];
      if isAuthenticated {
        Emit(Navigate("/dashboard", true));
        return;
      }
      if !loginAttempted && !loading {
        loginAttempted := true;
        Emit(LoginRequest(token.value));
      }
    }

    /** One run of the second effect: once the session is authenticated
        and no longer loading, go to the dashboard, whether or not an
        error is shown. */
    method RunRedirectEffect(isAuthenticated: bool, loading: bool)
      requires Valid()
      modifies this`effects
      ensures Valid()
      ensures effects == old(effects) + RedirectStep(isAuthenticated, loading)
    {
      if isAuthenticated && !loading {
        Emit(Navigate("/dashboard", true));
      }
    }

    /** The second effect with the error guard it lacks: no dashboard
        redirect while an error is shown. */
    method RunGuardedRedirectEffect(isAuthenticated: bool, loading: bool)
      requires Valid()
      modifies this`effects
      ensures Valid()
      ensures effects == old(effects) + GuardedRedirectStep(error, isAuthenticated, loading)
    {
      if !Truthy(error) && isAuthenticated && !loading {
        Emit(Navigate("/dashboard", true));
      }
    }

    /** Records one effect. */
    method Emit(e: Effect)
      modifies this`effects
      ensures effects == old(effects) + [e]
      ensures CountLogins(effects) == old(CountLogins(effects)) + if e.LoginRequest? then 1 else 0
    {
      CountLoginsAppend(effects, [e]);
      assert [e][..0] == [];
      effects := effects + [e];
    }

    /** The rejection handler of the `login` call. */
    method LoginRejected()
      requires Valid() && loginAttempted
      modifies this`error
      ensures Valid()
      ensures error == Some(FailedMessage)
    {
      error := Some(FailedMessage);
    }
  }

  /** With an `error` parameter, as written: mounting runs both effects.
      The first only schedules the return to the login page; it neither
      stores anything nor calls `login`.  But a session that is already in
      and not loading makes the second effect go to the dashboard at once,
      and leaving the page cancels the scheduled return. */
  method ErrorParameterScenario(error: string, token: Option<string>, isAuthenticated: bool,
                                loading: bool, storage: map<string, string>)
    returns (trace: seq<Effect>, stored: map<string, string>, screen: Screen)
    requires error != ""
    ensures !(isAuthenticated && !loading) ==> trace == [NavigateAfter(3000, "/login", true)]
    ensures isAuthenticated && !loading ==>
      trace == [NavigateAfter(3000, "/login", true)] + [Navigate("/dashboard", true)]
    ensures stored == storage
    ensures screen == FailurePanel(error)
  {
    var page := new AuthSuccessPage(token, Some(error), storage, map[]);
    page.RunAuthEffect(isAuthenticated, loading);
    page.RunRedirectEffect(isAuthenticated, loading);
    trace, stored, screen := page.effects, page.storage, page.CurrentScreen();
  }

  /** With an `error` parameter and the guarded second effect: whatever
      the session, the only effect is the return to the login page after
      3 seconds, nothing is stored and no `login` is made. */
  method GuardedErrorParameterScenario(error: string, token: Option<string>, isAuthenticated: bool,
                                       loading: bool, storage: map<string, string>)
    returns (trace: seq<Effect>, stored: map<string, string>, screen: Screen)
    requires error != ""
    ensures trace == [NavigateAfter(3000, "/login", true)]
    ensures stored == storage
    ensures screen == FailurePanel(error)
  {
    var page := new AuthSuccessPage(token, Some(error), storage, map[]);
    page.RunAuthEffect(isAuthenticated, loading);
    page.RunGuardedRedirectEffect(isAuthenticated, loading);
    trace, stored, screen := page.effects, page.storage, page.CurrentScreen();
  }

  /** A page mounted with a token and no session, after its first effect
      run: the token is stored and `login` has been called once. */
  method MountWithToken(token: string, storage: map<string, string>) returns (page: AuthSuccessPage)
    requires token != ""
    ensures fresh(page) && page.Valid()
    ensures page.token == Some(token) && page.error == None && page.loginAttempted
    ensures page.effects == [LoginRequest(token)]
    ensures TokenKey in page.storage && page.storage[TokenKey] == token
  {
    page := new AuthSuccessPage(Some(token), None, storage, map[]);
    page.RunAuthEffect(false, false);
  }

  /** A token and no session: the token is stored, `login` is called once
      and not again while the session loads, and the page ends on the
      dashboard. */
  method LoginSucceedsScenario(token: string, storage: map<string, string>)
    returns (trace: seq<Effect>, stored: map<string, string>)
    requires token != ""
    ensures trace == [LoginRequest(token), Navigate("/dashboard", true), Navigate("/dashboard", true)]
    ensures CountLogins(trace) == 1
    ensures TokenKey in stored && stored[TokenKey] == token
  {
    var page := MountWithToken(token, storage);
    page.RunAuthEffect(false, true);
    page.RunAuthEffect(true, false);
    page.RunRedirectEffect(true, false);
    trace, stored := page.effects, page.storage;
  }

  /** A token whose exchange fails: one `login` call, then the failure
      panel and the delayed return to the login page. */
  method LoginFailsScenario(token: string, storage: map<string, string>)
    returns (trace: seq<Effect>, screen: Screen)
    requires token != ""
    ensures trace == [LoginRequest(token), NavigateAfter(3000, "/login", true)]
    ensures screen == FailurePanel(FailedMessage)
  {
    var page := MountWithToken(token, storage);
    page.LoginRejected();
    page.RunAuthEffect(false, false);
    trace, screen := page.effects, page.CurrentScreen();
  }

  /** A token while already signed in: straight to the dashboard, no
      `login` call. */
  method AlreadySignedInScenario(token: string, storage: map<string, string>)
    returns (trace: seq<Effect>)
    requires token != ""
    ensures trace == [Navigate("/dashboard", true), Navigate("/dashboard", true)]
  {
    var page := new AuthSuccessPage(Some(token), None, storage, map[]);
    page.RunAuthEffect(true, false);
    page.RunRedirectEffect(true, false);
    trace := page.effects;
  }
}
