/**
 * `RestAuthenticationModule`: one session against one backend, reached
 * through a base URL and three endpoint paths, and its `Builder`.
 */
module RestAuthentication {
  import opened Wrappers
  import opened Collaborators
  import opened LoginPayload
  import opened Session

  const DefaultBaseURL: string := "http://localhost:80"
  const DefaultLoginEndpoint: string := "/auth/login"
  const DefaultLogoutEndpoint: string := "/auth/logout"
  const DefaultEnrollEndpoint: string := "/auth/enroll"

  /** The exception message of the two unimplemented operations. */
  const NotSupportedYet: string := "Not supported yet."

  /**
   * The first of the three resolved URLs, in the order the constructor builds
   * them (login, logout, enroll), that `new URL` rejects.
   */
  function FirstInvalid(isUrl: UrlSyntax, base: string, login: string, logout: string, enroll: string)
    : (bad: Option<string>)
    ensures bad.None? <==> isUrl(base + login) && isUrl(base + logout) && isUrl(base + enroll)
    ensures bad.Some? ==> !isUrl(bad.value) && bad.value in [base + login, base + logout, base + enroll]
    ensures !isUrl(base + login) ==> bad == Some(base + login)
    ensures isUrl(base + login) && !isUrl(base + logout) ==> bad == Some(base + logout)
  {
    if !isUrl(base + login) then Some(base + login)
    else if !isUrl(base + logout) then Some(base + logout)
    else if !isUrl(base + enroll) then Some(base + enroll)
    else None
  }

  class RestAuthenticationModule {
    const baseURL: string
    const loginEndpoint: string
    const loginURL: string
    const logoutEndpoint: string
    const logoutURL: string
    const enrollEndpoint: string
    const enrollURL: string

    var authToken: Option<string>
    var isAuthenticated: bool

    /** Every resolved URL is the base URL followed by its endpoint path. */
    ghost predicate Resolved()
    {
      && loginURL == baseURL + loginEndpoint
      && logoutURL == baseURL + logoutEndpoint
      && enrollURL == baseURL + enrollEndpoint
    }

    /** The session fields as one value. */
    function State(): (s: SessionState)
      reads this
      ensures s.authToken == authToken && s.isAuthenticated == isAuthenticated
    {
      SessionState(authToken, isAuthenticated)
    }

    /**
     * The private constructor once all three `new URL` calls have
     * succeeded; `Create` below models the calls that throw.
     */
    constructor (isUrl: UrlSyntax, base: string, login: string, logout: string, enroll: string)
      requires isUrl(base + login) && isUrl(base + logout) && isUrl(base + enroll)
      ensures baseURL == base && loginEndpoint == login
      ensures logoutEndpoint == logout && enrollEndpoint == enroll
      ensures Resolved()
      ensures State() == Initial
    {
      baseURL := base;
      loginEndpoint := login;
      logoutEndpoint := logout;
      enrollEndpoint := enroll;
      loginURL := base + login;
      logoutURL := base + logout;
      enrollURL := base + enroll;
      authToken := Some("");
      isAuthenticated := false;
    }

    /**
     * The constructor as the source has it: it resolves the three URLs and
     * throws the MalformedURLException of the first one that is not a URL.
     */
    static method Create(isUrl: UrlSyntax, base: string, login: string, logout: string, enroll: string)
      returns (r: Result<RestAuthenticationModule, Error>)
      ensures r.Failure? <==> FirstInvalid(isUrl, base, login, logout, enroll).Some?
      ensures r.Failure? ==> r.error == MalformedUrl(FirstInvalid(isUrl, base, login, logout, enroll).value)
      ensures r.Success? ==> fresh(r.value) && r.value.Resolved() && r.value.State() == Initial
      ensures r.Success? ==> r.value.baseURL == base && r.value.loginEndpoint == login
      ensures r.Success? ==> r.value.logoutEndpoint == logout && r.value.enrollEndpoint == enroll
    {
      var bad := FirstInvalid(isUrl, base, login, logout, enroll);
      if bad.Some? {
        r := Failure(MalformedUrl(bad.value));
      } else {
        var m := new RestAuthenticationModule(isUrl, base, login, logout, enroll);
        r := Success(m);
      }
    }

    /** `getbaseURL`: the base that every resolved URL starts with. */
    function GetBaseURL(): (url: string)
      ensures url == baseURL
      ensures Resolved() ==> url <= loginURL && url <= logoutURL && url <= enrollURL
    {
      baseURL
    }

    /** `getLoginEndpoint`: the configured path that follows the base in the login URL. */
    function GetLoginEndpoint(): (endpoint: string)
      ensures endpoint == loginEndpoint
      ensures Resolved() ==> loginURL == GetBaseURL() + endpoint
    {
      loginEndpoint
    }

    /** `getLogoutEndpoint`: the configured path that follows the base in the logout URL. */
    function GetLogoutEndpoint(): (endpoint: string)
      ensures endpoint == logoutEndpoint
      ensures Resolved() ==> logoutURL == GetBaseURL() + endpoint
    {
      logoutEndpoint
    }

    /** `getEnrollEndpoint`: the configured path that follows the base in the enroll URL. */
    function GetEnrollEndpoint(): (endpoint: string)
      ensures endpoint == enrollEndpoint
      ensures Resolved() ==> enrollURL == GetBaseURL() + endpoint
    {
      enrollEndpoint
    }

    /** `getAuthToken`: the session's token, read without side effects. */
    function GetAuthToken(): (token: Option<string>)
      reads this
      ensures token == State().authToken
    {
      authToken
    }

    /** `isAuthenticated`: the session's flag, read without side effects. */
    function IsAuthenticated(): (authenticated: bool)
      reads this
      ensures authenticated == State().isAuthenticated
    {
      isAuthenticated
    }

    /**
     * `enroll` is not implemented: it throws at once, never calls back, and
     * changes nothing.
     */
    method Enroll(userData: map<string, string>) returns (thrown: Error)
      ensures thrown == UnsupportedOperation(NotSupportedYet)
    {
      thrown := UnsupportedOperation(NotSupportedYet);
    }

    /** `logout` is not implemented either, with the same exception. */
    method Logout() returns (thrown: Error)
      ensures thrown == UnsupportedOperation(NotSupportedYet)
    {
      thrown := UnsupportedOperation(NotSupportedYet);
    }

    /**
     * `login`, run to completion: posts the login body to the login URL and
     * reports what the post returned (the response to `onSuccess`, the
     * exception to `onFailure`). On success the response's token and the
     * flag are stored first; on failure the session is left as it was.
     */
    method Login(username: string, password: string, post: Post) returns (outcome: PostOutcome)
      modifies this
      ensures outcome == post(loginURL, BuildLoginData(username, password))
      ensures State() == LoginStep(old(State()), outcome)
      ensures outcome.Success? ==> authToken == TokenOf(outcome.value) && isAuthenticated
      ensures outcome.Failure? ==> authToken == old(authToken) && isAuthenticated == old(isAuthenticated)
    {
      var loginData := BuildLoginData(username, password);
      outcome := post(loginURL, loginData);
      match outcome {
        case Success(result) =>
          authToken := TokenOf(result);
          isAuthenticated := true;
        case Failure(_) =>
      }
    }
  }

  /** `RestAuthenticationModule.Builder`: defaults and chained setters. */
  class Builder {
    var baseURL: string
    var loginEndpoint: string
    var logoutEndpoint: string
    var enrollEndpoint: string

    constructor ()
      ensures baseURL == DefaultBaseURL
      ensures loginEndpoint == DefaultLoginEndpoint
      ensures logoutEndpoint == DefaultLogoutEndpoint
      ensures enrollEndpoint == DefaultEnrollEndpoint
    {
      baseURL := DefaultBaseURL;
      loginEndpoint := DefaultLoginEndpoint;
      logoutEndpoint := DefaultLogoutEndpoint;
      enrollEndpoint := DefaultEnrollEndpoint;
    }

    method BaseURL(url: string) returns (self: Builder)
      modifies this
      ensures self == this && baseURL == url
      ensures loginEndpoint == old(loginEndpoint)
      ensures logoutEndpoint == old(logoutEndpoint)
      ensures enrollEndpoint == old(enrollEndpoint)
    {
      baseURL := url;
      self := this;
    }

    method LoginEndpoint(endpoint: string) returns (self: Builder)
      modifies this
      ensures self == this && loginEndpoint == endpoint
      ensures baseURL == old(baseURL)
      ensures logoutEndpoint == old(logoutEndpoint)
      ensures enrollEndpoint == old(enrollEndpoint)
    {
      loginEndpoint := endpoint;
      self := this;
    }

    method LogoutEndpoint(endpoint: string) returns (self: Builder)
      modifies this
      ensures self == this && logoutEndpoint == endpoint
      ensures baseURL == old(baseURL)
      ensures loginEndpoint == old(loginEndpoint)
      ensures enrollEndpoint == old(enrollEndpoint)
    {
      logoutEndpoint := endpoint;
      self := this;
    }

    method EnrollEndpoint(endpoint: string) returns (self: Builder)
      modifies this
      ensures self == this && enrollEndpoint == endpoint
      ensures baseURL == old(baseURL)
      ensures loginEndpoint == old(loginEndpoint)
      ensures logoutEndpoint == old(logoutEndpoint)
    {
      enrollEndpoint := endpoint;
      self := this;
    }

    /**
     * `build`: a new module over the configured base URL and endpoints, or,
     * when a resolved URL is malformed, an IllegalArgumentException wrapping
     * that MalformedURLException. The builder itself is not changed.
     */
    method Build(isUrl: UrlSyntax) returns (r: Result<RestAuthenticationModule, Error>)
      ensures r.Success? <==> isUrl(baseURL + loginEndpoint) && isUrl(baseURL + logoutEndpoint)
                              && isUrl(baseURL + enrollEndpoint)
      ensures r.Failure? ==> r.error == IllegalArgumentCausedBy(MalformedUrl(
                 FirstInvalid(isUrl, baseURL, loginEndpoint, logoutEndpoint, enrollEndpoint).value))
      ensures r.Success? ==> fresh(r.value) && r.value.State() == Initial
      ensures r.Success? ==> r.value.baseURL == baseURL && r.value.loginEndpoint == loginEndpoint
                             && r.value.logoutEndpoint == logoutEndpoint
                             && r.value.enrollEndpoint == enrollEndpoint
      ensures r.Success? ==> r.value.loginURL == baseURL + loginEndpoint
                             && r.value.logoutURL == baseURL + logoutEndpoint
                             && r.value.enrollURL == baseURL + enrollEndpoint
    {
      var created := RestAuthenticationModule.Create(isUrl, baseURL, loginEndpoint, logoutEndpoint, enrollEndpoint);
      match created {
        case Success(m) => r := Success(m);
        case Failure(e) => r := Failure(IllegalArgumentCausedBy(e));
      }
    }
  }
}
