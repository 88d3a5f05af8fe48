/**
 * Client code in the shape of RestAuthenticationModuleTest and of a registry
 * user, proved from the contracts above alone. The test's backend lives at
 * `http://localhost:8080/todo-server`; its fake HTTP layer answers every
 * request with 401 unless a rule for the login URL returns a token.
 */
module Scenarios {
  import opened Wrappers
  import opened Collaborators
  import opened LoginPayload
  import opened Session
  import opened RestAuthentication
  import opened DefaultAuthentication

  const TestBaseURL: string := "http://localhost:8080/todo-server"

  /** The module the test's shared builder produces. */
  method BuildTestModule(isUrl: UrlSyntax) returns (r: Result<RestAuthenticationModule, Error>)
    ensures r.Success? <==> isUrl(TestBaseURL + DefaultLoginEndpoint)
                            && isUrl(TestBaseURL + DefaultLogoutEndpoint)
                            && isUrl(TestBaseURL + DefaultEnrollEndpoint)
    ensures r.Success? ==> fresh(r.value) && r.value.State() == Initial
    ensures r.Success? ==> r.value.loginURL == "http://localhost:8080/todo-server/auth/login"
  {
    var b := new Builder();
    b := b.BaseURL(TestBaseURL);
    r := b.Build(isUrl);
  }

  /** The test's shared builder assumes its backend URLs are well formed. */
  ghost predicate TestUrlsValid(isUrl: UrlSyntax)
  {
    && isUrl(TestBaseURL + DefaultLoginEndpoint)
    && isUrl(TestBaseURL + DefaultLogoutEndpoint)
    && isUrl(TestBaseURL + DefaultEnrollEndpoint)
  }

  /** `loginFails`: the default 401 reaches the failure callback and the module stays unauthenticated. */
  method LoginFails(isUrl: UrlSyntax, username: string, password: string)
    returns (outcome: PostOutcome, authenticated: bool)
    requires TestUrlsValid(isUrl)
    ensures outcome == Failure(HttpFailure(401))
    ensures !authenticated
  {
    var built := BuildTestModule(isUrl);
    var authModule := built.value;
    outcome := authModule.Login(username, password, (url, body) => Failure(HttpFailure(401)));
    authenticated := authModule.IsAuthenticated();
  }

  /** `loginSucceeds`: a response carrying the token authenticates the module with that token. */
  method LoginSucceeds(isUrl: UrlSyntax, username: string, password: string, token: string)
    returns (outcome: PostOutcome, authenticated: bool, authToken: Option<string>)
    requires TestUrlsValid(isUrl)
    ensures outcome == Success(HeaderAndBody(map[TokenHeader := token], ""))
    ensures authenticated && authToken == Some(token)
  {
    var built := BuildTestModule(isUrl);
    var authModule := built.value;
    var response := HeaderAndBody(map[TokenHeader := token], "");
    outcome := authModule.Login(username, password,
      (url, body) => if url == authModule.loginURL then Success(response) else Failure(HttpFailure(401)));
    authenticated, authToken := authModule.IsAuthenticated(), authModule.GetAuthToken();
  }

  /** `enrollSucceeds`/`enrollFails`/`logouSucceeds`: the code throws instead and the session is untouched. */
  method EnrollAndLogoutThrow(isUrl: UrlSyntax, userData: map<string, string>)
    returns (enrollThrew: Error, logoutThrew: Error, state: SessionState)
    requires TestUrlsValid(isUrl)
    ensures enrollThrew == UnsupportedOperation(NotSupportedYet)
    ensures logoutThrew == UnsupportedOperation(NotSupportedYet)
    ensures state == Initial
  {
    var built := BuildTestModule(isUrl);
    var authModule := built.value;
    enrollThrew := authModule.Enroll(userData);
    logoutThrew := authModule.Logout();
    state := authModule.State();
  }

  /** Add, get, remove, and a second remove of the same name, on a fresh registry. */
  method RegistryRoundTrip(name: string, other: string, m: RestAuthenticationModule, n: RestAuthenticationModule)
    returns (got: Option<RestAuthenticationModule>, removed: Option<RestAuthenticationModule>,
             again: Option<RestAuthenticationModule>, kept: Option<RestAuthenticationModule>)
    requires name != other
    ensures got == Some(m) && removed == Some(m) && again == None && kept == Some(n)
  {
    var registry := new DefaultAuthenticator();
    var _ := registry.Add(name, n);
    var _ := registry.Add(other, n);
    var returned := registry.Add(name, m);
    assert returned == m;
    got := registry.Get(name);
    removed := registry.Remove(name);
    again := registry.Remove(name);
    kept := registry.Get(other);
  }

  /** `auth` with REST then `add(name)`: a successful build is what `get(name)` returns afterwards. */
  method AuthThenAdd(registry: DefaultAuthenticator, name: string, baseURL: string, isUrl: UrlSyntax)
    returns (added: Result<RestAuthenticationModule, Error>, got: Option<RestAuthenticationModule>)
    modifies registry
    ensures added.Success? ==> got == Some(added.value) && added.value.State() == Initial
    ensures added.Success? ==> added.value.loginURL == baseURL + DefaultLoginEndpoint
    ensures added.Failure? ==> registry.modules == old(registry.modules)
  {
    var ab := registry.Auth(REST, baseURL);
    added := ab.value.Add(name, isUrl);
    got := registry.Get(name);
  }

  /**
   * Logins run one after another against a series of backends: each posts
   * the same body to the module's login URL, and the session afterwards is
   * the replay of their outcomes, so the last successful post's token wins.
   */
  method LoginMany(authModule: RestAuthenticationModule, posts: seq<Post>, username: string, password: string)
    returns (outcomes: seq<PostOutcome>)
    modifies authModule
    ensures |outcomes| == |posts|
    ensures forall i :: 0 <= i < |posts| ==> outcomes[i] == posts[i](authModule.loginURL, BuildLoginData(username, password))
    ensures authModule.State() == Replay(old(authModule.State()), outcomes)
    ensures authModule.State() == match LastSuccess(outcomes)
                                  case None => old(authModule.State())
                                  case Some(response) => SessionState(TokenOf(response), true)
  {
    outcomes := [];
    var k := 0;
    while k < |posts|
      invariant 0 <= k <= |posts| && |outcomes| == k
      invariant forall i :: 0 <= i < k ==> outcomes[i] == posts[i](authModule.loginURL, BuildLoginData(username, password))
      invariant authModule.State() == Replay(old(authModule.State()), outcomes)
    {
      var outcome := authModule.Login(username, password, posts[k]);
      assert (outcomes + [outcome])[..k] == outcomes;
      outcomes := outcomes + [outcome];
      k := k + 1;
    }
    ReplayLastSuccess(old(authModule.State()), outcomes);
  }
}
