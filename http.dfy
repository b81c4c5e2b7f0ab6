/**
 * What a `fetch` call sends and what comes back, as values: the request the
 * frontend sends, and the outcome it then sees (a network failure, or a
 * response with a status and a body that `response.json()` may fail to parse).
 */
module Http {
  import opened Wrappers
  import Text

  datatype Method = Get | Post | Put | Patch | Delete

  /** A request: its verb, its URL and the bearer token of its `Authorization` header, if any. */
  datatype Request = Request(verb: Method, url: string, bearer: Option<string>)

  /**
   * What `response.json()` yields: a SyntaxError with its message, or the
   * parsed value together with its `message` property ("" when it has none).
   */
  datatype Body<D> = Unparseable(syntaxError: string) | Json(message: string, data: D)

  datatype Response<D> = Response(status: nat, statusText: string, body: Body<D>)

  /** The outcome of `await fetch(...)`: a rejected promise (with the TypeError's message) or a response. */
  datatype Fetch<D> = NetworkFailure(message: string) | Received(response: Response<D>)

  /** What a service call did: the requests it issued in order, what it returned or threw, and whether it sent the browser to `/login`. */
  datatype Call<T> = Call(requests: seq<Request>, result: Result<T>, redirectToLogin: bool)

  /** `response.ok`: the status is in the range 200 to 299 (the Fetch Standard's "ok status"). */
  predicate IsOk(status: nat) {
    200 <= status <= 299
  }

  /** The outcome is a response with status 401. */
  predicate IsUnauthorized<D>(outcome: Fetch<D>) {
    outcome.Received? && outcome.response.status == 401
  }

  /** `import.meta.env.VITE_API_URL || 'http://localhost:8080/api'`, with the build variable unset. */
  const ApiUrl: string := "http://localhost:8080/api"

  /** The template `Lỗi ${response.status}: ${response.statusText}`. */
  function StatusMessage(status: nat, statusText: string): string {
    "Lỗi " + Text.NatToString(status) + ": " + statusText
  }

  /**
   * The message thrown for a failed response: the body's `message`, else the
   * status line. When the body does not parse, `await response.json()` throws
   * its SyntaxError instead, unless the caller wrote `.catch(() => ({}))`
   * (`tolerant`), which turns the body into `{}`.
   */
  function FailureMessage<D>(response: Response<D>, tolerant: bool): (m: string)
    ensures response.body.Json? && response.body.message != "" ==> m == response.body.message
    ensures response.body.Json? && response.body.message == "" ==> m == StatusMessage(response.status, response.statusText)
    ensures response.body.Unparseable? ==> m == if tolerant then StatusMessage(response.status, response.statusText) else response.body.syntaxError
  {
    match response.body
    case Unparseable(e) => if tolerant then StatusMessage(response.status, response.statusText) else e
    case Json(message, _) => OrElse(message, StatusMessage(response.status, response.statusText))
  }

  /** The status-line message is never empty, so a failed response always carries a message. */
  lemma StatusMessageNonEmpty(status: nat, statusText: string)
    ensures StatusMessage(status, statusText) != ""
    ensures Text.StartsWith(StatusMessage(status, statusText), "Lỗi ")
  {
  }

  /** Status lines of different codes differ. */
  lemma {:induction false} StatusMessageDistinguishesCodes(s1: nat, s2: nat, text: string)
    requires StatusMessage(s1, text) == StatusMessage(s2, text)
    ensures s1 == s2
  {
    var p := "Lỗi ";
    var d1 := Text.NatToString(s1);
    var d2 := Text.NatToString(s2);
    var m := StatusMessage(s1, text);
    assert m == p + d1 + ": " + text;
    assert m == p + d2 + ": " + text;
    // Both renderings are digits only and are followed by ':', so they have the same length.
    if |d1| != |d2| {
      assert false;
    }
    assert d1 == m[|p|..|p| + |d1|] == d2;
    Text.NatToStringRoundTrip(s1);
    Text.NatToStringRoundTrip(s2);
  }

  /** `await response.json()` on a success: the data, or the SyntaxError's message. */
  function ReadData<D>(body: Body<D>): (r: Result<D>)
    ensures r.Ok? <==> body.Json?
    ensures body.Json? ==> r.value == body.data
    ensures body.Unparseable? ==> r.message == body.syntaxError
  {
    match body
    case Unparseable(e) => Err(e)
    case Json(_, data) => Ok(data)
  }
}
