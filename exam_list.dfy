/**
 * The exam list page: exams decorated with fixed placeholder details, a
 * search over title and details, a status filter, and the status badges.
 */
module ExamList {
  import opened Text
  import opened Seqs

  datatype Exam = Exam(id: string, title: string, description: string, startDate: string, endDate: string, location: string, status: string)

  /** An exam as the page lists it: the exam and four display details. */
  datatype ExamData = ExamData(exam: Exam, subject: string, semester: string, shift: string, room: string)

  const PlaceholderSubject: string := "Lập trình Web"
  const PlaceholderSemester: string := "Học kỳ 2 2024-2025"
  const PlaceholderShift: string := "Ca sáng (7:00 - 9:00)"
  const PlaceholderRoom: string := "P.405-A2"

  /** The mapping after loading: every exam kept, in order, with the same four placeholders. */
  function WithPlaceholders(exams: seq<Exam>): (r: seq<ExamData>)
    ensures |r| == |exams|
    ensures forall i | 0 <= i < |r| ::
      r[i].subject == PlaceholderSubject && r[i].semester == PlaceholderSemester &&
      r[i].shift == PlaceholderShift && r[i].room == PlaceholderRoom
  {
    seq(|exams|, i requires 0 <= i < |exams| => ExamData(exams[i], PlaceholderSubject, PlaceholderSemester, PlaceholderShift, PlaceholderRoom))
  }

  /** The exams behind the listed rows. */
  function Exams(rows: seq<ExamData>): (r: seq<Exam>)
    ensures |r| == |rows|
  {
    seq(|rows|, i requires 0 <= i < |rows| => rows[i].exam)
  }

  /** The mapping keeps every exam field of every exam. */
  lemma WithPlaceholdersKeepsExams(exams: seq<Exam>)
    ensures Exams(WithPlaceholders(exams)) == exams
  {
  }

  /** The search test: title, subject, semester or room contain the term, ignoring case. */
  predicate MatchesSearch(e: ExamData, term: string) {
    Contains(ToLower(e.exam.title), ToLower(term)) || Contains(ToLower(e.subject), ToLower(term)) ||
    Contains(ToLower(e.semester), ToLower(term)) || Contains(ToLower(e.room), ToLower(term))
  }

  /** The status test: an empty filter matches every exam; otherwise the status must equal it. */
  predicate MatchesStatus(e: ExamData, statusFilter: string) {
    statusFilter == "" || e.exam.status == statusFilter
  }

  /** `filteredExams`. */
  function FilteredExams(exams: seq<ExamData>, term: string, statusFilter: string): seq<ExamData> {
    Filter(exams, e => MatchesSearch(e, term) && MatchesStatus(e, statusFilter))
  }

  /** The result keeps the order, and an exam is kept iff it is listed and matches the search and the status. */
  lemma {:induction false} FilteredExamsSoundAndComplete(exams: seq<ExamData>, term: string, statusFilter: string, e: ExamData)
    ensures IsSubsequence(FilteredExams(exams, term, statusFilter), exams)
    ensures e in FilteredExams(exams, term, statusFilter) <==> e in exams && MatchesSearch(e, term) && MatchesStatus(e, statusFilter)
  {
    FilterIsSubsequence(exams, e => MatchesSearch(e, term) && MatchesStatus(e, statusFilter));
    FilterMembers(exams, e => MatchesSearch(e, term) && MatchesStatus(e, statusFilter), e);
  }

  /** With no status filter, only the search applies. */
  lemma {:induction false} FilteredExamsWithoutStatus(exams: seq<ExamData>, term: string)
    ensures FilteredExams(exams, term, "") == Filter(exams, e => MatchesSearch(e, term))
  {
    FilterCongruent(exams, e => MatchesSearch(e, term) && MatchesStatus(e, ""), e => MatchesSearch(e, term));
  }

  /**
   * Because every listed exam carries the same placeholders, a term found in
   * the placeholder subject (such as "web") keeps every exam of the chosen
   * status: such a search does not narrow the list at all.
   */
  lemma {:induction false} PlaceholderSearchKeepsAll(exams: seq<Exam>, term: string)
    requires Contains(ToLower(PlaceholderSubject), ToLower(term))
    ensures FilteredExams(WithPlaceholders(exams), term, "") == WithPlaceholders(exams)
  {
    var rows := WithPlaceholders(exams);
    FilterKeepsAll(rows, e => MatchesSearch(e, term) && MatchesStatus(e, ""));
  }

  /** An empty search and no status filter keep every exam. */
  lemma {:induction false} FilteredExamsWithoutCriteria(exams: seq<ExamData>)
    ensures FilteredExams(exams, "", "") == exams
  {
    forall i | 0 <= i < |exams|
      ensures MatchesSearch(exams[i], "")
    {
      ContainsEmpty(ToLower(exams[i].exam.title));
    }
    FilterKeepsAll(exams, e => MatchesSearch(e, "") && MatchesStatus(e, ""));
  }

  /** The labels of the three known statuses; any other status is shown as it is. */
  function StatusLabel(status: string): (r: string)
    ensures status == "UPCOMING" ==> r == "Sắp diễn ra"
    ensures status == "ONGOING" ==> r == "Đang diễn ra"
    ensures status == "COMPLETED" ==> r == "Đã kết thúc"
    ensures status != "UPCOMING" && status != "ONGOING" && status != "COMPLETED" ==> r == status
  {
    match status
    case "UPCOMING" => "Sắp diễn ra"
    case "ONGOING" => "Đang diễn ra"
    case "COMPLETED" => "Đã kết thúc"
    case _ => status
  }

  const GreyBadge: string := "bg-gray-100 text-gray-800"

  /** The badge colours: blue for upcoming, green for ongoing, grey for completed and for anything else. */
  function StatusClass(status: string): (r: string)
    ensures status == "UPCOMING" ==> r == "bg-blue-100 text-blue-800"
    ensures status == "ONGOING" ==> r == "bg-green-100 text-green-800"
    ensures status != "UPCOMING" && status != "ONGOING" ==> r == GreyBadge
  {
    match status
    case "UPCOMING" => "bg-blue-100 text-blue-800"
    case "ONGOING" => "bg-green-100 text-green-800"
    case "COMPLETED" => GreyBadge
    case _ => GreyBadge
  }

  /** Completed and unknown exams look alike in the badge and differ only in the label. */
  lemma CompletedLooksLikeUnknown(status: string)
    requires status != "UPCOMING" && status != "ONGOING"
    ensures StatusClass(status) == StatusClass("COMPLETED")
    ensures StatusLabel(status) == StatusLabel("COMPLETED") <==> status == "COMPLETED" || status == "Đã kết thúc"
  {
  }
}
