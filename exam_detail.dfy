/**
 * The exam detail page: the candidates registered for one exam, whether each
 * has checked in, a search over them, and removal of a candidate.
 */
module ExamDetail {
  import opened Wrappers
  import opened Text
  import opened Seqs
  import opened Http
  import AttendanceService
  import CieService

  /** A record of the candidate-in-exam service. */
  datatype CandidateInExam = CandidateInExam(
    id: string, candidateId: string, candidateName: string, candidateEmail: string,
    candidateCitizenId: string, examId: string, examName: string)

  /** A candidate as the page lists it: the record, whether they attended (unknown until checked), and whether a check is running. */
  datatype CandidateRow = CandidateRow(candidate: CandidateInExam, hasAttended: Option<bool>, attendanceLoading: bool)

  /** The rows `loadCandidates` starts from: every record, attendance unknown, no check running. */
  function InitialRows(cs: seq<CandidateInExam>): (rows: seq<CandidateRow>)
    ensures |rows| == |cs|
    ensures forall i | 0 <= i < |rows| :: rows[i].hasAttended.None? && !rows[i].attendanceLoading
  {
    seq(|cs|, i requires 0 <= i < |cs| => CandidateRow(cs[i], None, false))
  }

  /** The records behind a list of rows. */
  function Records(rows: seq<CandidateRow>): (cs: seq<CandidateInExam>)
    ensures |cs| == |rows|
  {
    seq(|rows|, i requires 0 <= i < |rows| => rows[i].candidate)
  }

  /** The initial mapping keeps every record, in order. */
  lemma InitialRowsKeepRecords(cs: seq<CandidateInExam>)
    ensures Records(InitialRows(cs)) == cs
  {
  }

  /** Whether `candidateId` attended `examId`, as `checkCandidateAttendance` answers with the given outcome. */
  function Attended<D>(items: map<string, string>, candidateId: string, examId: string, tokenExpired: Response<D> -> bool, checks: string -> Fetch<D>): bool {
    AttendanceService.CheckCandidateAttendance(items, candidateId, examId, tokenExpired, checks(candidateId)).result.value
  }

  /** A row after its check: the answer recorded, nothing running. */
  function CheckedRow<D>(row: CandidateRow, items: map<string, string>, examId: string, tokenExpired: Response<D> -> bool, checks: string -> Fetch<D>): CandidateRow {
    row.(hasAttended := Some(Attended(items, row.candidate.candidateId, examId, tokenExpired, checks)), attendanceLoading := false)
  }

  /** The search test: name or e-mail contain the term, ignoring case. */
  predicate MatchesSearch(row: CandidateRow, term: string) {
    Contains(ToLower(row.candidate.candidateName), ToLower(term)) ||
    Contains(ToLower(row.candidate.candidateEmail), ToLower(term))
  }

  /** `filteredCandidates`. */
  function FilteredCandidates(rows: seq<CandidateRow>, term: string): seq<CandidateRow> {
    Filter(rows, r => MatchesSearch(r, term))
  }

  /** The result keeps the order, a row is kept iff it matches, and an empty term keeps every row. */
  lemma {:induction false} FilteredCandidatesProperties(rows: seq<CandidateRow>, term: string, r: CandidateRow)
    ensures IsSubsequence(FilteredCandidates(rows, term), rows)
    ensures r in FilteredCandidates(rows, term) <==> r in rows && MatchesSearch(r, term)
    ensures FilteredCandidates(rows, "") == rows
  {
    FilterIsSubsequence(rows, r => MatchesSearch(r, term));
    FilterMembers(rows, r => MatchesSearch(r, term), r);
    forall i | 0 <= i < |rows|
      ensures MatchesSearch(rows[i], "")
    {
      ContainsEmpty(ToLower(rows[i].candidate.candidateName));
    }
    FilterKeepsAll(rows, r => MatchesSearch(r, ""));
  }

  /**
   * The list `loadCandidates` leaves, starting from `before`: unchanged without
   * an exam or when the listing fails; otherwise the listed records, in order,
   * each with the answer of its attendance check and no check running.
   */
  predicate Reloaded<D>(before: seq<CandidateRow>, after: seq<CandidateRow>, examId: Option<string>, items: map<string, string>,
                        listing: Fetch<seq<CandidateInExam>>, tokenExpired: Response<D> -> bool, checks: string -> Fetch<D>)
  {
    if !Truthy(examId) then after == before
    else
      var listed := CieService.GetCandidatesByExamId(items, examId.value, listing).result;
      if listed.Err? then after == before
      else
        Records(after) == listed.value &&
        forall i | 0 <= i < |after| ::
          after[i].hasAttended == Some(Attended(items, listed.value[i].candidateId, examId.value, tokenExpired, checks)) && !after[i].attendanceLoading
  }

  const DeleteFailedMessage: string := "Có lỗi xảy ra khi xóa thí sinh"

  class Page {
    /** The `examId` route parameter. */
    const examId: Option<string>
    var candidates: seq<CandidateRow>
    var searchTerm: string
    var deleteLoading: Option<string>
    var isDeleteModalOpen: bool
    var candidateToDelete: Option<string>
    var candidateNameToDelete: string

    constructor (examId: Option<string>)
      ensures this.examId == examId
      ensures candidates == [] && searchTerm == "" && deleteLoading.None?
      ensures !isDeleteModalOpen && candidateToDelete.None? && candidateNameToDelete == ""
    {
      this.examId := examId;
      candidates := [];
      searchTerm := "";
      deleteLoading := None;
      isDeleteModalOpen := false;
      candidateToDelete := None;
      candidateNameToDelete := "";
    }

    /**
     * `checkAttendanceForCandidates`: the rows are copied into an array and
     * visited in index order; each is marked loading, checked, and given its
     * answer in place, and the page's list is replaced by the array after each
     * step. The page's `catch` branch is not modelled, because
     * `checkCandidateAttendance` cannot throw (see
     * `AttendanceService.CheckCandidateAttendance`).
     */
    method CheckAttendanceForCandidates<D>(items: map<string, string>, candidateList: seq<CandidateRow>, tokenExpired: Response<D> -> bool, checks: string -> Fetch<D>)
      returns (visited: seq<string>)
      modifies this
      ensures searchTerm == old(searchTerm) && deleteLoading == old(deleteLoading) && isDeleteModalOpen == old(isDeleteModalOpen)
      ensures candidateToDelete == old(candidateToDelete) && candidateNameToDelete == old(candidateNameToDelete)
      ensures !Truthy(examId) ==> visited == [] && candidates == old(candidates)
      ensures Truthy(examId) ==> visited == seq(|candidateList|, i requires 0 <= i < |candidateList| => candidateList[i].candidate.candidateId)
      ensures Truthy(examId) && candidateList == [] ==> candidates == old(candidates)
      ensures Truthy(examId) && candidateList != [] ==>
        |candidates| == |candidateList| &&
        forall i | 0 <= i < |candidates| :: candidates[i] == CheckedRow(candidateList[i], items, examId.value, tokenExpired, checks)
    {
      visited := [];
      if !Truthy(examId) {
        return;
      }
      var exam := examId.value;
      var updated := new CandidateRow[|candidateList|](i requires 0 <= i < |candidateList| => candidateList[i]);
      for i := 0 to updated.Length
        invariant forall j | 0 <= j < i :: updated[j] == CheckedRow(candidateList[j], items, exam, tokenExpired, checks)
        invariant forall j | i <= j < updated.Length :: updated[j] == candidateList[j]
        invariant visited == seq(i, k requires 0 <= k < i => candidateList[k].candidate.candidateId)
        invariant i > 0 ==> candidates == updated[..]
        invariant i == 0 ==> candidates == old(candidates)
        invariant searchTerm == old(searchTerm) && deleteLoading == old(deleteLoading) && isDeleteModalOpen == old(isDeleteModalOpen)
        invariant candidateToDelete == old(candidateToDelete) && candidateNameToDelete == old(candidateNameToDelete)
      {
        var candidate := updated[i];
        updated[i] := candidate.(attendanceLoading := true);
        candidates := updated[..];
        var answer := AttendanceService.CheckCandidateAttendance(items, candidate.candidate.candidateId, exam, tokenExpired, checks(candidate.candidate.candidateId));
        updated[i] := candidate.(hasAttended := Some(answer.result.value), attendanceLoading := false);
        candidates := updated[..];
        visited := visited + [candidate.candidate.candidateId];
      }
    }

    /**
     * `loadCandidates`: without an exam nothing happens; a failed listing is
     * swallowed; otherwise the list is replaced by the records, each with the
     * answer of its attendance check.
     */
    method LoadCandidates<D>(items: map<string, string>, listing: Fetch<seq<CandidateInExam>>, tokenExpired: Response<D> -> bool, checks: string -> Fetch<D>)
      modifies this
      ensures searchTerm == old(searchTerm) && deleteLoading == old(deleteLoading) && isDeleteModalOpen == old(isDeleteModalOpen)
      ensures candidateToDelete == old(candidateToDelete) && candidateNameToDelete == old(candidateNameToDelete)
      ensures !Truthy(examId) ==> candidates == old(candidates)
      ensures Truthy(examId) && CieService.GetCandidatesByExamId(items, examId.value, listing).result.Err? ==> candidates == old(candidates)
      ensures Truthy(examId) && CieService.GetCandidatesByExamId(items, examId.value, listing).result.Ok? ==>
        var cs := CieService.GetCandidatesByExamId(items, examId.value, listing).result.value;
        Records(candidates) == cs &&
        forall i | 0 <= i < |candidates| :: candidates[i].hasAttended == Some(Attended(items, cs[i].candidateId, examId.value, tokenExpired, checks)) && !candidates[i].attendanceLoading
      ensures Reloaded(old(candidates), candidates, examId, items, listing, tokenExpired, checks)
    {
      if !Truthy(examId) {
        return;
      }
      var call := CieService.GetCandidatesByExamId(items, examId.value, listing);
      if call.result.Err? {
        return;
      }
      var rows := InitialRows(call.result.value);
      candidates := rows;
      var _ := CheckAttendanceForCandidates(items, rows, tokenExpired, checks);
    }

    /** `handleDeleteCandidate`: remember whom to delete and open the confirmation. */
    method HandleDeleteCandidate(candidateId: string, candidateName: string)
      modifies this
      ensures candidateToDelete == Some(candidateId) && candidateNameToDelete == candidateName && isDeleteModalOpen
      ensures candidates == old(candidates) && searchTerm == old(searchTerm) && deleteLoading == old(deleteLoading)
    {
      candidateToDelete := Some(candidateId);
      candidateNameToDelete := candidateName;
      isDeleteModalOpen := true;
    }

    /**
     * `confirmDeleteCandidate`: with no candidate chosen or no exam nothing
     * happens. Otherwise the candidate is removed and the list reloaded; a
     * failure raises an alert with the error's message. Either way the dialog
     * ends closed, with no candidate chosen and nothing loading.
     */
    method ConfirmDeleteCandidate<D>(items: map<string, string>, removal: Fetch<()>, listing: Fetch<seq<CandidateInExam>>, tokenExpired: Response<D> -> bool, checks: string -> Fetch<D>)
      returns (alert: Option<string>)
      modifies this
      ensures old(!Truthy(candidateToDelete)) || !Truthy(examId) ==>
        alert.None? && candidates == old(candidates) && deleteLoading == old(deleteLoading) &&
        isDeleteModalOpen == old(isDeleteModalOpen) && candidateToDelete == old(candidateToDelete)
      ensures old(Truthy(candidateToDelete)) && Truthy(examId) ==>
        deleteLoading.None? && !isDeleteModalOpen && candidateToDelete.None?
      ensures old(Truthy(candidateToDelete)) && Truthy(examId) ==>
        var removed := CieService.RemoveCandidateFromExam(items, old(candidateToDelete).value, examId.value, removal);
        (removed.result.Ok? ==> alert.None? && Reloaded(old(candidates), candidates, examId, items, listing, tokenExpired, checks)) &&
        (removed.result.Err? ==> alert == Some(OrElse(removed.result.message, DeleteFailedMessage)) && candidates == old(candidates))
      ensures searchTerm == old(searchTerm) && candidateNameToDelete == old(candidateNameToDelete)
    {
      alert := None;
      if !Truthy(candidateToDelete) || !Truthy(examId) {
        return;
      }
      deleteLoading := candidateToDelete;
      var removed := CieService.RemoveCandidateFromExam(items, candidateToDelete.value, examId.value, removal);
      if removed.result.Ok? {
        LoadCandidates(items, listing, tokenExpired, checks);
      } else {
        alert := Some(OrElse(removed.result.message, DeleteFailedMessage));
      }
      deleteLoading := None;
      isDeleteModalOpen := false;
      candidateToDelete := None;
    }
  }
}
