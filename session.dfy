/**
 * The session state of a REST authentication module (its `authToken` and
 * `isAuthenticated` fields) and the one transition the source implements:
 * the completion of a login post.
 */
module Session {
  import opened Wrappers
  import opened Collaborators

  /** The response field whose value becomes the session token. */
  const TokenHeader: string := "Auth-Token"

  /** `authToken` is `None` where the source would hold `null`. */
  datatype SessionState = SessionState(authToken: Option<string>, isAuthenticated: bool)

  /** A newly constructed module: empty token, not authenticated. */
  const Initial: SessionState := SessionState(Some(""), false)

  /** `result.get("Auth-Token")`: the header's value, or null when it is absent. */
  function TokenOf(response: HeaderAndBody): (token: Option<string>)
    ensures token.Some? <==> TokenHeader in response.headers
    ensures token.Some? ==> token.value == response.headers[TokenHeader]
  {
    if TokenHeader in response.headers then Some(response.headers[TokenHeader]) else None
  }

  /**
   * The state after a login post completes: a successful post stores the
   * response's token and sets the flag; a failed one leaves both fields as
   * they were.
   */
  function LoginStep(s: SessionState, outcome: PostOutcome): (s': SessionState)
    ensures s'.isAuthenticated <==> outcome.Success? || s.isAuthenticated
    ensures outcome.Failure? ==> s' == s
    ensures outcome.Success? ==> s'.authToken == TokenOf(outcome.value)
  {
    match outcome
    case Success(response) => SessionState(TokenOf(response), true)
    case Failure(_) => s
  }

  /** The state after a series of login posts completes, in order. */
  function Replay(s: SessionState, outcomes: seq<PostOutcome>): (s': SessionState)
    ensures s'.isAuthenticated <==> s.isAuthenticated || exists i :: 0 <= i < |outcomes| && outcomes[i].Success?
    decreases |outcomes|
  {
    if outcomes == [] then s
    else
      var earlier := outcomes[..|outcomes| - 1];
      var before := Replay(s, earlier);
      assert outcomes == earlier + [outcomes[|outcomes| - 1]];
      LoginStep(before, outcomes[|outcomes| - 1])
  }

  /** The response of the last successful post, if any post succeeded. */
  function LastSuccess(outcomes: seq<PostOutcome>): (r: Option<HeaderAndBody>)
    ensures r.None? <==> forall i :: 0 <= i < |outcomes| ==> outcomes[i].Failure?
    ensures r.Some? ==> exists i :: 0 <= i < |outcomes| && outcomes[i] == Success(r.value)
                          && forall j :: i < j < |outcomes| ==> outcomes[j].Failure?
    decreases |outcomes|
  {
    if outcomes == [] then None
    else
      var last := |outcomes| - 1;
      var earlier := outcomes[..last];
      if outcomes[last].Success? then Some(outcomes[last].value)
      else
        var r := LastSuccess(earlier);
        assert outcomes == earlier + [outcomes[last]];
        r
  }

  /**
   * Last writer wins: after any series of logins the session is the starting
   * one if every post failed, and otherwise holds the token of the last
   * successful post with the flag set.
   */
  lemma {:induction false} ReplayLastSuccess(s: SessionState, outcomes: seq<PostOutcome>)
    ensures Replay(s, outcomes) == match LastSuccess(outcomes)
                                   case None => s
                                   case Some(response) => SessionState(TokenOf(response), true)
    decreases |outcomes|
  {
    if outcomes != [] {
      ReplayLastSuccess(s, outcomes[..|outcomes| - 1]);
    }
  }

  /** Failed logins never change the session, whatever it was. */
  lemma {:induction false} FailedLoginsKeepSession(s: SessionState, outcomes: seq<PostOutcome>)
    requires forall i :: 0 <= i < |outcomes| ==> outcomes[i].Failure?
    ensures Replay(s, outcomes) == s
  {
    ReplayLastSuccess(s, outcomes);
  }

  /**
   * With logout unimplemented nothing clears the flag: a module that is
   * authenticated stays authenticated through any further logins.
   */
  lemma {:induction false} AuthenticationIsSticky(s: SessionState, outcomes: seq<PostOutcome>)
    requires s.isAuthenticated
    ensures Replay(s, outcomes).isAuthenticated
  {
    ReplayLastSuccess(s, outcomes);
  }

  /**
   * A module that has only ever seen logins is unauthenticated exactly when
   * every post failed, and then it is still in its initial state.
   */
  lemma {:induction false} UnauthenticatedIffNoSuccess(outcomes: seq<PostOutcome>)
    ensures !Replay(Initial, outcomes).isAuthenticated
        <==> forall i :: 0 <= i < |outcomes| ==> outcomes[i].Failure?
    ensures !Replay(Initial, outcomes).isAuthenticated ==> Replay(Initial, outcomes) == Initial
  {
    ReplayLastSuccess(Initial, outcomes);
  }

  /**
   * The flag does not imply a token: a successful post whose response lacks
   * the token header leaves the module authenticated with a null token.
   */
  lemma AuthenticatedWithoutToken(body: string)
    ensures LoginStep(Initial, Success(HeaderAndBody(map[], body))).isAuthenticated
    ensures LoginStep(Initial, Success(HeaderAndBody(map[], body))).authToken == None
  {
  }
}
