/**
 * The decision every data service function makes about one call: no token,
 * network failure, token expiry, the endpoint's own fixed errors, any other
 * failure, success. The attendance and candidate-in-exam services differ only
 * in how expiry is recognised, which statuses have fixed messages, and
 * whether an unreadable error body is tolerated.
 */
module ServiceLadder {
  import opened Wrappers
  import opened Http
  import opened AuthService

  const WorkSessionExpiredMessage: string := "Phiên làm việc đã hết hạn. Vui lòng đăng nhập lại."

  /**
   * How one endpoint classifies a failed response: `expired` recognises token
   * expiry, `notFound` and `badRequest` are the fixed messages for 404 and 400
   * if the endpoint has them, `tolerantBody` is `.json().catch(() => ({}))`.
   */
  datatype Ladder<!D> = Ladder(expired: Response<D> -> bool, notFound: Option<string>, badRequest: Option<string>, tolerantBody: bool)

  /** The message thrown for a failed (non-2xx) response that is not a token expiry. */
  function FailureFor<D>(ladder: Ladder<D>, response: Response<D>): (m: string)
    ensures response.status == 404 && ladder.notFound.Some? ==> m == ladder.notFound.value
    ensures response.status == 400 && ladder.badRequest.Some? ==> m == ladder.badRequest.value
    ensures !(response.status == 404 && ladder.notFound.Some?) && !(response.status == 400 && ladder.badRequest.Some?) ==>
      m == FailureMessage(response, ladder.tolerantBody)
  {
    if response.status == 404 && ladder.notFound.Some? then ladder.notFound.value
    else if response.status == 400 && ladder.badRequest.Some? then ladder.badRequest.value
    else FailureMessage(response, ladder.tolerantBody)
  }

  /**
   * One service call against the store `items`: the token is read from the
   * store, the request goes to `API_URL + path`, and `onOk` is what the
   * function does with the body of a 2xx response.
   */
  function Issue<D, T>(items: map<string, string>, verb: Method, path: string, ladder: Ladder<D>, outcome: Fetch<D>, onOk: Body<D> -> Result<T>): (c: Call<T>)
    ensures !IsAuthenticated(items) ==> c == Call([], Err(MissingTokenMessage), true)
    ensures IsAuthenticated(items) ==> c.requests == [Request(verb, ApiUrl + path, GetAuthToken(items))]
    ensures IsAuthenticated(items) && outcome.NetworkFailure? ==> c.result == Err(outcome.message) && !c.redirectToLogin
    ensures IsAuthenticated(items) && outcome.Received? && !IsOk(outcome.response.status) && ladder.expired(outcome.response) ==>
      c.result == Err(WorkSessionExpiredMessage) && c.redirectToLogin
    ensures IsAuthenticated(items) && outcome.Received? && !IsOk(outcome.response.status) && !ladder.expired(outcome.response) ==>
      c.result == Err(FailureFor(ladder, outcome.response)) && !c.redirectToLogin
    ensures IsAuthenticated(items) && outcome.Received? && IsOk(outcome.response.status) ==>
      c.result == onOk(outcome.response.body) && !c.redirectToLogin
  {
    var token := GetAuthToken(items);
    if !Truthy(token) then
      Call([], Err(MissingTokenMessage), true)
    else
      var request := Request(verb, ApiUrl + path, token);
      match outcome
      case NetworkFailure(message) => Call([request], Err(message), false)
      case Received(response) =>
        if !IsOk(response.status) then
          if ladder.expired(response) then Call([request], Err(WorkSessionExpiredMessage), true)
          else Call([request], Err(FailureFor(ladder, response)), false)
        else
          Call([request], onOk(response.body), false)
  }

  /** A call sends the browser to the login page exactly when there is no token or the token has expired. */
  lemma IssueRedirectsIff<D, T>(items: map<string, string>, verb: Method, path: string, ladder: Ladder<D>, outcome: Fetch<D>, onOk: Body<D> -> Result<T>)
    ensures Issue(items, verb, path, ladder, outcome, onOk).redirectToLogin <==>
      !IsAuthenticated(items) || (outcome.Received? && !IsOk(outcome.response.status) && ladder.expired(outcome.response))
    ensures Issue(items, verb, path, ladder, outcome, onOk).redirectToLogin ==> Issue(items, verb, path, ladder, outcome, onOk).result.Err?
  {
  }

  /** A call succeeds exactly when there is a token, the response is 2xx and its body is accepted. */
  lemma IssueSucceedsIff<D, T>(items: map<string, string>, verb: Method, path: string, ladder: Ladder<D>, outcome: Fetch<D>, onOk: Body<D> -> Result<T>)
    ensures Issue(items, verb, path, ladder, outcome, onOk).result.Ok? <==>
      IsAuthenticated(items) && outcome.Received? && IsOk(outcome.response.status) && onOk(outcome.response.body).Ok?
  {
  }

  /** At most one request is made, and one is made exactly when a token is present. */
  lemma IssueRequestCount<D, T>(items: map<string, string>, verb: Method, path: string, ladder: Ladder<D>, outcome: Fetch<D>, onOk: Body<D> -> Result<T>)
    ensures |Issue(items, verb, path, ladder, outcome, onOk).requests| == if IsAuthenticated(items) then 1 else 0
  {
  }
}
