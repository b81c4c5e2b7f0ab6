/**
 * The candidate-in-exam service: seven functions over the
 * `/candidates-in-exam` endpoints. Each checks 401 first, then its own fixed
 * 404 or 400 message, then falls back to the body's message or the status
 * line. Unlike `apiRequest`, an expired session is not cleared from the store.
 */
module CieService {
  import opened Wrappers
  import opened Http
  import opened AuthService
  import opened ServiceLadder

  const RecordNotFoundMessage: string := "Không tìm thấy bản ghi thí sinh - kỳ thi."
  const CandidateOrExamNotFoundMessage: string := "Không tìm thấy thí sinh hoặc kỳ thi."
  const InvalidOrDuplicateMessage: string := "Dữ liệu không hợp lệ hoặc thí sinh đã được thêm vào kỳ thi này."

  /** Expiry is status 401. */
  function CieLadder<D>(notFound: Option<string>, badRequest: Option<string>, tolerantBody: bool): Ladder<D> {
    Ladder((r: Response<D>) => r.status == 401, notFound, badRequest, tolerantBody)
  }

  /** The success branch of the reading functions: `return await response.json()`. */
  function ReadBody<D>(): Body<D> -> Result<D> {
    (b: Body<D>) => ReadData(b)
  }

  /** The success branch of the deleting functions: the body is not read. */
  function Done<D>(): Body<D> -> Result<()> {
    (b: Body<D>) => Ok(())
  }

  /** Every function of the service answers 401 with the session-expired error and a redirect; its store is left as it was. */
  lemma ExpiryAnsweredFirst<D, T>(items: map<string, string>, verb: Method, path: string, notFound: Option<string>, badRequest: Option<string>, tolerant: bool, outcome: Fetch<D>, onOk: Body<D> -> Result<T>)
    requires IsAuthenticated(items) && IsUnauthorized(outcome)
    ensures Issue(items, verb, path, CieLadder(notFound, badRequest, tolerant), outcome, onOk).result == Err(WorkSessionExpiredMessage)
    ensures Issue(items, verb, path, CieLadder(notFound, badRequest, tolerant), outcome, onOk).redirectToLogin
  {
  }

  /** `getAllCandidateInExams`: GET /candidates-in-exam. */
  function GetAllCandidateInExams<D>(items: map<string, string>, outcome: Fetch<D>): (c: Call<D>)
    ensures !IsAuthenticated(items) ==> c == Call([], Err(MissingTokenMessage), true)
    ensures IsAuthenticated(items) ==> c.requests == [Request(Get, ApiUrl + "/candidates-in-exam", GetAuthToken(items))]
    ensures IsAuthenticated(items) && outcome.Received? && !IsOk(outcome.response.status) && outcome.response.status != 401 ==>
      c.result == Err(FailureMessage(outcome.response, false))
  {
    Issue(items, Get, "/candidates-in-exam", CieLadder(None, None, false), outcome, ReadBody())
  }

  /** `getCandidateInExamById`: GET /candidates-in-exam/{id}; 404 is a fixed not-found error. */
  function GetCandidateInExamById<D>(items: map<string, string>, id: string, outcome: Fetch<D>): (c: Call<D>)
    ensures !IsAuthenticated(items) ==> c == Call([], Err(MissingTokenMessage), true)
    ensures IsAuthenticated(items) ==> c.requests == [Request(Get, ApiUrl + ("/candidates-in-exam/" + id), GetAuthToken(items))]
    ensures IsAuthenticated(items) && outcome.Received? && outcome.response.status == 404 ==>
      c.result == Err(RecordNotFoundMessage) && !c.redirectToLogin
    ensures IsAuthenticated(items) && outcome.Received? && !IsOk(outcome.response.status) && outcome.response.status != 401 && outcome.response.status != 404 ==>
      c.result == Err(FailureMessage(outcome.response, false))
  {
    Issue(items, Get, "/candidates-in-exam/" + id, CieLadder(Some(RecordNotFoundMessage), None, false), outcome, ReadBody())
  }

  /** `getCandidatesByExamId`: GET /candidates-in-exam/exam/{examId}. */
  function GetCandidatesByExamId<D>(items: map<string, string>, examId: string, outcome: Fetch<D>): (c: Call<D>)
    ensures !IsAuthenticated(items) ==> c == Call([], Err(MissingTokenMessage), true)
    ensures IsAuthenticated(items) ==> c.requests == [Request(Get, ApiUrl + ("/candidates-in-exam/exam/" + examId), GetAuthToken(items))]
    ensures IsAuthenticated(items) && outcome.Received? && !IsOk(outcome.response.status) && outcome.response.status != 401 ==>
      c.result == Err(FailureMessage(outcome.response, false))
  {
    Issue(items, Get, "/candidates-in-exam/exam/" + examId, CieLadder(None, None, false), outcome, ReadBody())
  }

  /** `getExamsByCandidate`: GET /candidates-in-exam/candidate/{candidateId}. */
  function GetExamsByCandidate<D>(items: map<string, string>, candidateId: string, outcome: Fetch<D>): (c: Call<D>)
    ensures !IsAuthenticated(items) ==> c == Call([], Err(MissingTokenMessage), true)
    ensures IsAuthenticated(items) ==> c.requests == [Request(Get, ApiUrl + ("/candidates-in-exam/candidate/" + candidateId), GetAuthToken(items))]
    ensures IsAuthenticated(items) && outcome.Received? && !IsOk(outcome.response.status) && outcome.response.status != 401 ==>
      c.result == Err(FailureMessage(outcome.response, false))
  {
    Issue(items, Get, "/candidates-in-exam/candidate/" + candidateId, CieLadder(None, None, false), outcome, ReadBody())
  }

  /** `createCandidateInExam`: POST /candidates-in-exam; 400 is the fixed invalid-or-duplicate error. */
  function CreateCandidateInExam<D>(items: map<string, string>, candidateId: string, examId: string, outcome: Fetch<D>): (c: Call<D>)
    ensures !IsAuthenticated(items) ==> c == Call([], Err(MissingTokenMessage), true)
    ensures IsAuthenticated(items) ==> c.requests == [Request(Post, ApiUrl + "/candidates-in-exam", GetAuthToken(items))]
    ensures IsAuthenticated(items) && outcome.Received? && outcome.response.status == 400 ==>
      c.result == Err(InvalidOrDuplicateMessage) && !c.redirectToLogin
    ensures IsAuthenticated(items) && outcome.Received? && !IsOk(outcome.response.status) && outcome.response.status != 401 && outcome.response.status != 400 ==>
      c.result == Err(FailureMessage(outcome.response, false))
    ensures c.result.Ok? <==> IsAuthenticated(items) && outcome.Received? && IsOk(outcome.response.status) && outcome.response.body.Json?
  {
    IssueSucceedsIff(items, Post, "/candidates-in-exam", CieLadder(None, Some(InvalidOrDuplicateMessage), false), outcome, ReadBody());
    Issue(items, Post, "/candidates-in-exam", CieLadder(None, Some(InvalidOrDuplicateMessage), false), outcome, ReadBody())
  }

  /** `deleteCandidateInExam`: DELETE /candidates-in-exam/{id}; 404 is the fixed not-found error; an unreadable error body is tolerated. */
  function DeleteCandidateInExam<D>(items: map<string, string>, id: string, outcome: Fetch<D>): (c: Call<()>)
    ensures !IsAuthenticated(items) ==> c == Call([], Err(MissingTokenMessage), true)
    ensures IsAuthenticated(items) ==> c.requests == [Request(Delete, ApiUrl + ("/candidates-in-exam/" + id), GetAuthToken(items))]
    ensures IsAuthenticated(items) && outcome.Received? && outcome.response.status == 404 ==>
      c.result == Err(RecordNotFoundMessage) && !c.redirectToLogin
    ensures IsAuthenticated(items) && outcome.Received? && !IsOk(outcome.response.status) && outcome.response.status != 401 && outcome.response.status != 404 ==>
      c.result == Err(FailureMessage(outcome.response, true))
    ensures c.result.Ok? <==> IsAuthenticated(items) && outcome.Received? && IsOk(outcome.response.status)
  {
    IssueSucceedsIff(items, Delete, "/candidates-in-exam/" + id, CieLadder(Some(RecordNotFoundMessage), None, true), outcome, Done());
    Issue(items, Delete, "/candidates-in-exam/" + id, CieLadder(Some(RecordNotFoundMessage), None, true), outcome, Done())
  }

  /** `removeCandidateFromExam`: DELETE /candidates-in-exam/candidate/{candidateId}/exam/{examId}; its own 404 message; tolerant body. */
  function RemoveCandidateFromExam<D>(items: map<string, string>, candidateId: string, examId: string, outcome: Fetch<D>): (c: Call<()>)
    ensures !IsAuthenticated(items) ==> c == Call([], Err(MissingTokenMessage), true)
    ensures IsAuthenticated(items) ==>
      c.requests == [Request(Delete, ApiUrl + ("/candidates-in-exam/candidate/" + candidateId + "/exam/" + examId), GetAuthToken(items))]
    ensures IsAuthenticated(items) && outcome.Received? && outcome.response.status == 404 ==>
      c.result == Err(CandidateOrExamNotFoundMessage) && !c.redirectToLogin
    ensures IsAuthenticated(items) && outcome.Received? && !IsOk(outcome.response.status) && outcome.response.status != 401 && outcome.response.status != 404 ==>
      c.result == Err(FailureMessage(outcome.response, true))
    ensures c.result.Ok? <==> IsAuthenticated(items) && outcome.Received? && IsOk(outcome.response.status)
  {
    var path := "/candidates-in-exam/candidate/" + candidateId + "/exam/" + examId;
    IssueSucceedsIff(items, Delete, path, CieLadder(Some(CandidateOrExamNotFoundMessage), None, true), outcome, Done());
    Issue(items, Delete, path, CieLadder(Some(CandidateOrExamNotFoundMessage), None, true), outcome, Done())
  }
}
