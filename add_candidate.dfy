/**
 * The modal that adds a candidate to an exam: look the candidate up by
 * citizen id, then register them for the exam through `createCandidateInExam`.
 */
module AddCandidate {
  import opened Wrappers
  import opened Text
  import opened Http
  import AuthService
  import CieService

  /** The two properties of the looked-up user the modal uses. */
  datatype FoundUser = FoundUser(userId: string, name: string)

  const BlankIdMessage: string := "Vui lòng nhập CMND/CCCD của thí sinh"
  const NotFoundMessage: string := "Không tìm thấy thí sinh với CMND/CCCD đã nhập"
  const SearchFailedMessage: string := "Lỗi khi tìm kiếm thí sinh"
  const DuplicatePhrase: string := "đã được thêm vào kỳ thi"
  const DuplicateMessage: string := "Thí sinh này đã được thêm vào kỳ thi"
  const AddFailedMessage: string := "Lỗi khi thêm thí sinh vào kỳ thi"

  /** The success line naming the added candidate. */
  function AddedMessage(name: string): (r: string)
    ensures StartsWith(r, "Đã thêm thí sinh ")
    ensures Contains(r, name)
  {
    var r := "Đã thêm thí sinh " + name + " vào kỳ thi thành công";
    assert r[..|"Đã thêm thí sinh "|] == "Đã thêm thí sinh ";
    assert r[|"Đã thêm thí sinh "|..|"Đã thêm thí sinh "| + |name|] == name;
    assert OccursAt(r, name, |"Đã thêm thí sinh "|);
    r
  }

  /** The message shown when adding fails: a duplicate is named as such, any other error shows its own message. */
  function AddErrorMessage(message: string): (r: string)
    ensures r != ""
    ensures Contains(message, DuplicatePhrase) ==> r == DuplicateMessage
    ensures !Contains(message, DuplicatePhrase) ==> r == OrElse(message, AddFailedMessage)
  {
    if Contains(message, DuplicatePhrase) then DuplicateMessage else OrElse(message, AddFailedMessage)
  }

  /** The service's invalid-or-duplicate rejection (a 400 answer) is recognised as a duplicate. */
  lemma InvalidOrDuplicateIsDuplicate()
    ensures AddErrorMessage(CieService.InvalidOrDuplicateMessage) == DuplicateMessage
  {
    var head := "Dữ liệu không hợp lệ hoặc thí sinh ";
    var m := CieService.InvalidOrDuplicateMessage;
    assert m == head + DuplicatePhrase + " này.";
    assert m[|head|..|head| + |DuplicatePhrase|] == DuplicatePhrase;
    assert OccursAt(m, DuplicatePhrase, |head|);
  }

  class Modal {
    const examId: string
    var citizenId: string
    var loading: bool
    var error: Option<string>
    var success: Option<string>
    var userFound: Option<FoundUser>

    constructor (examId: string)
      ensures this.examId == examId
      ensures citizenId == "" && !loading && error.None? && success.None? && userFound.None?
    {
      this.examId := examId;
      citizenId := "";
      loading := false;
      error := None;
      success := None;
      userFound := None;
    }

    /** The citizen-id input's change handler. */
    method SetCitizenId(value: string)
      modifies this
      ensures citizenId == value
      ensures loading == old(loading) && error == old(error) && success == old(success) && userFound == old(userFound)
    {
      citizenId := value;
    }

    /**
     * `handleSearch`: a blank id (after trimming) is refused without a lookup;
     * otherwise the untrimmed id is looked up, the outcome of that lookup
     * decides the error or the found user, and loading ends.
     */
    method HandleSearch(lookup: Result<Option<FoundUser>>) returns (query: Option<string>)
      modifies this
      ensures citizenId == old(citizenId)
      ensures Trim(old(citizenId)) == "" ==>
        query.None? && error == Some(BlankIdMessage) &&
        success == old(success) && userFound == old(userFound) && loading == old(loading)
      ensures Trim(old(citizenId)) != "" ==> query == Some(old(citizenId)) && success.None? && !loading
      ensures Trim(old(citizenId)) != "" && lookup == Ok(None) ==> error == Some(NotFoundMessage) && userFound.None?
      ensures Trim(old(citizenId)) != "" && lookup.Ok? && lookup.value.Some? ==> userFound == lookup.value && error.None?
      ensures Trim(old(citizenId)) != "" && lookup.Err? ==>
        error == Some(OrElse(lookup.message, SearchFailedMessage)) && userFound.None?
    {
      if Trim(citizenId) == "" {
        error := Some(BlankIdMessage);
        return None;
      }
      loading := true;
      error := None;
      success := None;
      userFound := None;
      query := Some(citizenId);
      match lookup {
        case Ok(found) =>
          if found.None? {
            error := Some(NotFoundMessage);
          } else {
            userFound := found;
          }
        case Err(message) =>
          error := Some(OrElse(message, SearchFailedMessage));
      }
      loading := false;
    }

    /**
     * `handleAddCandidate`: without a found user nothing happens; otherwise
     * the user is registered for the exam. Success shows the named success
     * line, resets the form and schedules the parent's `onSuccess`
     * notification (`notifyParent`); failure shows the chosen error.
     */
    method HandleAddCandidate<D>(items: map<string, string>, outcome: Fetch<D>) returns (call: Option<Call<D>>, notifyParent: bool)
      modifies this
      ensures old(userFound).None? ==>
        call.None? && !notifyParent && citizenId == old(citizenId) && loading == old(loading) && error == old(error) &&
        success == old(success) && userFound == old(userFound)
      ensures old(userFound).Some? ==>
        call == Some(CieService.CreateCandidateInExam(items, old(userFound).value.userId, examId, outcome)) && !loading
      ensures notifyParent <==> call.Some? && call.value.result.Ok?
      ensures old(userFound).Some? && call.value.result.Ok? ==>
        success == Some(AddedMessage(old(userFound).value.name)) && error.None? && citizenId == "" && userFound.None?
      ensures old(userFound).Some? && call.value.result.Err? ==>
        error == Some(AddErrorMessage(call.value.result.message)) &&
        success == old(success) && citizenId == old(citizenId) && userFound == old(userFound)
      ensures old(userFound).Some? && AuthService.IsAuthenticated(items) && outcome.Received? && outcome.response.status == 400 ==>
        error == Some(DuplicateMessage)
    {
      if userFound.None? {
        return None, false;
      }
      var user := userFound.value;
      loading := true;
      error := None;
      var c := CieService.CreateCandidateInExam(items, user.userId, examId, outcome);
      call := Some(c);
      if c.result.Ok? {
        success := Some(AddedMessage(user.name));
        citizenId := "";
        userFound := None;
        notifyParent := true;
      } else {
        InvalidOrDuplicateIsDuplicate();
        error := Some(AddErrorMessage(c.result.message));
        notifyParent := false;
      }
      loading := false;
    }
  }
}
