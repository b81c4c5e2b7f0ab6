/**
 * The attendance page: the list of check-in records, the three filters over
 * it (search text, status, exam), deletion, and the status badges.
 */
module AttendancePage {
  import opened Wrappers
  import opened Text
  import opened Seqs
  import opened Http
  import AuthService
  import Storage

  datatype Attendance = Attendance(
    id: string, examId: string, examName: string, userId: string, userName: string,
    userEmail: string, citizenId: string, checkInTime: string, status: string, notes: Option<string>)

  /** The search test: name or email contain the term ignoring case, or the citizen id contains it exactly. */
  predicate MatchesSearch(a: Attendance, term: string) {
    Contains(ToLower(a.userName), ToLower(term)) ||
    Contains(ToLower(a.userEmail), ToLower(term)) ||
    Contains(a.citizenId, term)
  }

  /** Each criterion holds when it is inactive (empty) or when the record meets it. */
  predicate SearchHolds(a: Attendance, searchTerm: string) {
    searchTerm == "" || MatchesSearch(a, searchTerm)
  }

  predicate StatusHolds(a: Attendance, statusFilter: string) {
    statusFilter == "" || a.status == statusFilter
  }

  predicate ExamHolds(a: Attendance, examFilter: string) {
    examFilter == "" || a.examId == examFilter
  }

  /** A record is shown exactly when every active criterion holds. */
  predicate Shown(a: Attendance, searchTerm: string, statusFilter: string, examFilter: string) {
    SearchHolds(a, searchTerm) && StatusHolds(a, statusFilter) && ExamHolds(a, examFilter)
  }

  /** The records the page shows, as one filter. */
  function Visible(attendances: seq<Attendance>, searchTerm: string, statusFilter: string, examFilter: string): seq<Attendance> {
    Filter(attendances, a => Shown(a, searchTerm, statusFilter, examFilter))
  }

  /** The shown records keep their order, and a record is shown iff it is listed and every active criterion holds. */
  lemma {:induction false} VisibleSoundAndComplete(attendances: seq<Attendance>, searchTerm: string, statusFilter: string, examFilter: string, a: Attendance)
    ensures IsSubsequence(Visible(attendances, searchTerm, statusFilter, examFilter), attendances)
    ensures a in Visible(attendances, searchTerm, statusFilter, examFilter) <==>
      a in attendances && SearchHolds(a, searchTerm) && StatusHolds(a, statusFilter) && ExamHolds(a, examFilter)
  {
    FilterIsSubsequence(attendances, a => Shown(a, searchTerm, statusFilter, examFilter));
    FilterMembers(attendances, a => Shown(a, searchTerm, statusFilter, examFilter), a);
  }

  /** With no criterion active every record is shown. */
  lemma {:induction false} VisibleWithoutCriteria(attendances: seq<Attendance>)
    ensures Visible(attendances, "", "", "") == attendances
  {
    FilterKeepsAll(attendances, a => Shown(a, "", "", ""));
  }

  /** The text labels of the three known statuses. */
  function StatusText(status: string): (r: string)
    ensures status == "PRESENT" ==> r == "Có mặt"
    ensures status == "ABSENT" ==> r == "Vắng mặt"
    ensures status == "LATE" ==> r == "Đi muộn"
    ensures status != "PRESENT" && status != "ABSENT" && status != "LATE" ==> r == status
  {
    match status
    case "PRESENT" => "Có mặt"
    case "ABSENT" => "Vắng mặt"
    case "LATE" => "Đi muộn"
    case _ => status
  }

  const NeutralBadge: string := "bg-gray-100 text-gray-800"

  /** The badge colours: green, red and yellow for the known statuses, grey otherwise. */
  function StatusBadgeClass(status: string): (r: string)
    ensures status == "PRESENT" ==> r == "bg-green-100 text-green-800"
    ensures status == "ABSENT" ==> r == "bg-red-100 text-red-800"
    ensures status == "LATE" ==> r == "bg-yellow-100 text-yellow-800"
    ensures status != "PRESENT" && status != "ABSENT" && status != "LATE" ==> r == NeutralBadge
  {
    match status
    case "PRESENT" => "bg-green-100 text-green-800"
    case "ABSENT" => "bg-red-100 text-red-800"
    case "LATE" => "bg-yellow-100 text-yellow-800"
    case _ => NeutralBadge
  }

  /** A status is shown with its own code exactly when it is shown with the grey badge; distinct known statuses look different. */
  lemma UnlabelledIffNeutral(status: string, other: string)
    ensures StatusText(status) == status <==> StatusBadgeClass(status) == NeutralBadge
    ensures StatusBadgeClass(status) != NeutralBadge && StatusBadgeClass(other) != NeutralBadge && status != other ==>
      StatusText(status) != StatusText(other) && StatusBadgeClass(status) != StatusBadgeClass(other)
  {
  }

  /** The list after deleting `id`: the records with any other id, in their order. */
  function WithoutId(attendances: seq<Attendance>, id: string): seq<Attendance> {
    Filter(attendances, (a: Attendance) => a.id != id)
  }

  /** Deleting removes exactly the records with that id and keeps the rest in order. */
  lemma {:induction false} WithoutIdRemovesExactly(attendances: seq<Attendance>, id: string, a: Attendance)
    ensures a in WithoutId(attendances, id) <==> a in attendances && a.id != id
    ensures IsSubsequence(WithoutId(attendances, id), attendances)
    ensures (forall i | 0 <= i < |attendances| :: attendances[i].id != id) ==> WithoutId(attendances, id) == attendances
  {
    FilterMembers(attendances, (a: Attendance) => a.id != id, a);
    FilterIsSubsequence(attendances, (a: Attendance) => a.id != id);
    if forall i | 0 <= i < |attendances| :: attendances[i].id != id {
      FilterKeepsAll(attendances, (a: Attendance) => a.id != id);
    }
  }

  const DeleteFailedMessage: string := "Không thể xóa điểm danh. Vui lòng thử lại sau."

  class Page {
    var attendances: seq<Attendance>
    var filteredAttendances: seq<Attendance>
    var searchTerm: string
    var statusFilter: string
    var examFilter: string

    constructor ()
      ensures attendances == [] && filteredAttendances == []
      ensures searchTerm == "" && statusFilter == "" && examFilter == ""
    {
      attendances := [];
      filteredAttendances := [];
      searchTerm := "";
      statusFilter := "";
      examFilter := "";
    }

    /** The shown list is what the criteria select from the records. */
    predicate Consistent()
      reads this
    {
      filteredAttendances == Visible(attendances, searchTerm, statusFilter, examFilter)
    }

    /**
     * `filterAttendances`: the local list is narrowed by each active criterion
     * in turn; the result is the single filter by all of them.
     */
    method FilterAttendances()
      modifies this
      ensures Consistent()
      ensures attendances == old(attendances) && searchTerm == old(searchTerm)
      ensures statusFilter == old(statusFilter) && examFilter == old(examFilter)
    {
      var all, term, status, exam := attendances, searchTerm, statusFilter, examFilter;
      var matches := (a: Attendance) => MatchesSearch(a, term);
      var hasStatus := (a: Attendance) => a.status == status;
      var inExam := (a: Attendance) => a.examId == exam;
      ghost var any := (a: Attendance) => true;
      ghost var bySearch := (a: Attendance) => SearchHolds(a, term);
      ghost var bySearchAndStatus := (a: Attendance) => SearchHolds(a, term) && StatusHolds(a, status);
      FilterKeepsAll(all, any);
      var filtered := all;
      Narrow(all, filtered, any, term != "", matches, bySearch);
      if term != "" {
        filtered := Filter(filtered, matches);
      }
      Narrow(all, filtered, bySearch, status != "", hasStatus, bySearchAndStatus);
      if status != "" {
        filtered := Filter(filtered, hasStatus);
      }
      Narrow(all, filtered, bySearchAndStatus, exam != "", inExam, a => Shown(a, term, status, exam));
      if exam != "" {
        filtered := Filter(filtered, inExam);
      }
      filteredAttendances := filtered;
    }

    /**
     * `handleDeleteAttendance`: after the user confirms, `DELETE
     * /api/attendances/{id}` goes through `apiRequest`; when it resolves, the
     * records with that id are dropped and the shown list is recomputed;
     * when it throws, an alert is shown and the list stays.
     */
    method DeleteAttendance<D>(storage: Storage.LocalStorage, id: string, confirmed: bool, outcome: Fetch<D>) returns (alert: Option<string>, call: Option<Call<D>>)
      modifies this, storage
      ensures searchTerm == old(searchTerm) && statusFilter == old(statusFilter) && examFilter == old(examFilter)
      ensures !confirmed ==> (call.None? && alert.None? && attendances == old(attendances) &&
        filteredAttendances == old(filteredAttendances) && storage.items == old(storage.items))
      ensures confirmed ==> call == Some(AuthService.ApiCall(old(storage.items), "/api/attendances/" + id, Delete, outcome))
      ensures confirmed ==> storage.items == AuthService.ApiStore(old(storage.items), outcome)
      ensures confirmed && call.Some? && call.value.result.Ok? ==>
        alert.None? && attendances == WithoutId(old(attendances), id) && Consistent()
      ensures confirmed && call.Some? && call.value.result.Err? ==>
        alert == Some(DeleteFailedMessage) && attendances == old(attendances) && filteredAttendances == old(filteredAttendances)
    {
      if !confirmed {
        return None, None;
      }
      var c := AuthService.ApiRequest(storage, "/api/attendances/" + id, Delete, outcome);
      call := Some(c);
      if c.result.Err? {
        return Some(DeleteFailedMessage), call;
      }
      attendances := WithoutId(attendances, id);
      FilterAttendances();
      alert := None;
    }
  }
}
