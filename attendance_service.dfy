/**
 * The attendance service: five fetching functions that share one ladder, and
 * `checkCandidateAttendance`, which catches everything and answers a boolean.
 * Token expiry is recognised by `handleTokenExpiration`, which the service
 * imports but which no file of the model defines; it is a parameter here.
 */
module AttendanceService {
  import opened Wrappers
  import opened Http
  import opened AuthService
  import opened ServiceLadder

  /** Expiry as `handleTokenExpiration` decides it; no fixed messages; an unreadable error body throws its SyntaxError. */
  function AttendanceLadder<D>(tokenExpired: Response<D> -> bool): Ladder<D> {
    Ladder(tokenExpired, None, None, false)
  }

  /** The success branch of every fetching function: `return await response.json()`. */
  function ReadBody<D>(): Body<D> -> Result<D> {
    (b: Body<D>) => ReadData(b)
  }

  /** The outcome shared by the five fetching functions, for a call to `API_URL + path`. */
  function Fetching<D>(items: map<string, string>, verb: Method, path: string, tokenExpired: Response<D> -> bool, outcome: Fetch<D>): (c: Call<D>)
    ensures !IsAuthenticated(items) ==> c == Call([], Err(MissingTokenMessage), true)
    ensures IsAuthenticated(items) ==> c.requests == [Request(verb, ApiUrl + path, GetAuthToken(items))]
    ensures IsAuthenticated(items) && outcome.Received? && !IsOk(outcome.response.status) && !tokenExpired(outcome.response) ==>
      c.result == Err(FailureMessage(outcome.response, false)) && !c.redirectToLogin
    ensures IsAuthenticated(items) && outcome.Received? && !IsOk(outcome.response.status) && tokenExpired(outcome.response) ==>
      c.result == Err(WorkSessionExpiredMessage) && c.redirectToLogin
    ensures c.result.Ok? <==> IsAuthenticated(items) && outcome.Received? && IsOk(outcome.response.status) && outcome.response.body.Json?
    ensures c.result.Ok? ==> c.result.value == outcome.response.body.data
    ensures IsAuthenticated(items) && outcome.NetworkFailure? ==> c.result == Err(outcome.message) && !c.redirectToLogin
    ensures IsAuthenticated(items) && outcome.Received? && IsOk(outcome.response.status) ==>
      !c.redirectToLogin && (outcome.response.body.Unparseable? ==> c.result == Err(outcome.response.body.syntaxError))
  {
    var c := Issue(items, verb, path, AttendanceLadder(tokenExpired), outcome, ReadBody());
    IssueSucceedsIff(items, verb, path, AttendanceLadder(tokenExpired), outcome, ReadBody());
    c
  }

  /** `getAttendanceInExam`: GET /attendance/exam/{examId}. */
  function GetAttendanceInExam<D>(items: map<string, string>, examId: string, tokenExpired: Response<D> -> bool, outcome: Fetch<D>): (c: Call<D>)
    ensures IsAuthenticated(items) ==> c.requests == [Request(Get, ApiUrl + ("/attendance/exam/" + examId), GetAuthToken(items))]
    ensures !IsAuthenticated(items) ==> c == Call([], Err(MissingTokenMessage), true)
  {
    Fetching(items, Get, "/attendance/exam/" + examId, tokenExpired, outcome)
  }

  /** `createAttendance`: POST /attendance. */
  function CreateAttendance<D>(items: map<string, string>, tokenExpired: Response<D> -> bool, outcome: Fetch<D>): (c: Call<D>)
    ensures IsAuthenticated(items) ==> c.requests == [Request(Post, ApiUrl + "/attendance", GetAuthToken(items))]
    ensures !IsAuthenticated(items) ==> c == Call([], Err(MissingTokenMessage), true)
  {
    Fetching(items, Post, "/attendance", tokenExpired, outcome)
  }

  /** `getAllAttendances`: GET /attendance. */
  function GetAllAttendances<D>(items: map<string, string>, tokenExpired: Response<D> -> bool, outcome: Fetch<D>): (c: Call<D>)
    ensures IsAuthenticated(items) ==> c.requests == [Request(Get, ApiUrl + "/attendance", GetAuthToken(items))]
    ensures !IsAuthenticated(items) ==> c == Call([], Err(MissingTokenMessage), true)
  {
    Fetching(items, Get, "/attendance", tokenExpired, outcome)
  }

  /** `verifyAttendance`: PATCH /attendance/{attendanceId}/verify. */
  function VerifyAttendance<D>(items: map<string, string>, attendanceId: string, tokenExpired: Response<D> -> bool, outcome: Fetch<D>): (c: Call<D>)
    ensures IsAuthenticated(items) ==> c.requests == [Request(Patch, ApiUrl + ("/attendance/" + attendanceId + "/verify"), GetAuthToken(items))]
    ensures !IsAuthenticated(items) ==> c == Call([], Err(MissingTokenMessage), true)
  {
    Fetching(items, Patch, "/attendance/" + attendanceId + "/verify", tokenExpired, outcome)
  }

  /** `getExamAttendance`: GET /attendance/exam/{examId}. */
  function GetExamAttendance<D>(items: map<string, string>, examId: string, tokenExpired: Response<D> -> bool, outcome: Fetch<D>): (c: Call<D>)
    ensures IsAuthenticated(items) ==> c.requests == [Request(Get, ApiUrl + ("/attendance/exam/" + examId), GetAuthToken(items))]
    ensures !IsAuthenticated(items) ==> c == Call([], Err(MissingTokenMessage), true)
  {
    Fetching(items, Get, "/attendance/exam/" + examId, tokenExpired, outcome)
  }

  /** `getExamAttendance` and `getAttendanceInExam` are the same call. */
  lemma ExamAttendanceIsAttendanceInExam<D>(items: map<string, string>, examId: string, tokenExpired: Response<D> -> bool, outcome: Fetch<D>)
    ensures GetExamAttendance(items, examId, tokenExpired, outcome) == GetAttendanceInExam(items, examId, tokenExpired, outcome)
  {
  }

  /** The attempt inside `checkCandidateAttendance`'s `try`: the requests made and what it returned or threw. */
  function CheckAttempt<D>(items: map<string, string>, candidateId: string, examId: string, tokenExpired: Response<D> -> bool, outcome: Fetch<D>): (seq<Request>, Result<bool>) {
    var token := GetAuthToken(items);
    if !Truthy(token) then ([], Err(MissingTokenMessage))
    else
      var request := Request(Get, ApiUrl + "/attendance/candidate/" + candidateId + "/exam/" + examId, token);
      match outcome
      case NetworkFailure(message) => ([request], Err(message))
      case Received(response) =>
        if response.status == 404 then ([request], Ok(false))
        else if !IsOk(response.status) then
          if tokenExpired(response) then ([request], Err(WorkSessionExpiredMessage)) else ([request], Ok(false))
        else ([request], Ok(true))
  }

  /**
   * `checkCandidateAttendance`: whatever the attempt threw is caught and
   * answered with false, so the call never fails and never redirects; it
   * answers true exactly when a token is present and the response is 2xx.
   */
  function CheckCandidateAttendance<D>(items: map<string, string>, candidateId: string, examId: string, tokenExpired: Response<D> -> bool, outcome: Fetch<D>): (c: Call<bool>)
    ensures c.result.Ok? && !c.redirectToLogin
    ensures c.result.value <==> IsAuthenticated(items) && outcome.Received? && IsOk(outcome.response.status)
    ensures c.requests == if IsAuthenticated(items) then [Request(Get, ApiUrl + "/attendance/candidate/" + candidateId + "/exam/" + examId, GetAuthToken(items))] else []
  {
    var attempt := CheckAttempt(items, candidateId, examId, tokenExpired, outcome);
    Call(attempt.0, Ok(attempt.1.Ok? && attempt.1.value), false)
  }

  /** Every non-2xx answer gives false: not found (404), expired (401, its error swallowed) and any other failure. */
  lemma CheckCandidateAttendanceFailures<D>(items: map<string, string>, candidateId: string, examId: string, tokenExpired: Response<D> -> bool, outcome: Fetch<D>)
    requires outcome.Received? && !IsOk(outcome.response.status)
    ensures CheckCandidateAttendance(items, candidateId, examId, tokenExpired, outcome) ==
      Call(CheckCandidateAttendance(items, candidateId, examId, tokenExpired, outcome).requests, Ok(false), false)
  {
  }
}
