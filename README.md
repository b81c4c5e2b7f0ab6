# Attendance admin frontend — a verified model of its session and page logic

This project models the rules of the attendance administration frontend. That
frontend is a React application. It signs an administrator in, keeps the session
in the browser's `localStorage`, and calls a REST back end for exams,
candidates-in-exam and attendance records. The model covers six parts:

- **Session store** (`AuthService`, over `Storage.LocalStorage`):
  - `login` writes the `user_info` record and the `access_token` and `refresh_token` entries; `logout` removes them;
  - `getAuthToken` prefers the token inside `user_info` and falls back to `access_token`;
  - `isAuthenticated` means that token is non-empty;
  - `apiRequest` joins URLs and sends one request; on 401 it signs out.
- **Auth context** (`AuthContext.AuthProvider`): the `isAuthenticated` and `user` state, re-read from the store on a storage event, on logout and during token validation.
- **Service calls** (`AttendanceService`, `CieService`, sharing `ServiceLadder` and `Http`). Each endpoint decides from three things whether it yields data or an error message, and whether it redirects to the login page:
  - whether a token is present;
  - the network outcome;
  - the HTTP status (`response.ok` is the Fetch Standard's "ok status", 200 to 299).
- **Page filters and status labels** (`AttendancePage`, `UserList`, `ExamDetail`, `ExamList`): order-preserving filters that are sound and complete for their criteria, and the status label and badge mappings.
- **Page state**:
  - the attendance list's filter and delete;
  - the exam detail page's per-candidate attendance loop over an array;
  - the delete confirmation.
- **Form state machines**:
  - `ExamForm.ExamFormModal`: normalising the initial data, select-by-id, and submit validation;
  - `Profile.ProfilePage`: the initial profile, editing, saving through `apiRequest`, and rewriting the stored name;
  - `AddCandidate.Modal`: search and add.

Inputs that come from outside become parameters:

- `localStorage` is a `map<string, string>` held by a `LocalStorage` object.
- Each `fetch` is a `Fetch<D>` value: a network failure, or a response with a status, a status text and a JSON body or a parse error.
- Each `window.location.href = '/login'` becomes a `redirectToLogin` flag, or a `navigateTo` result.
- `window.confirm` becomes a boolean.
- The result of a user lookup is an input.
- Today's date is an input.
- `handleTokenExpiration` is a predicate parameter. It is imported by the attendance service, but `authService.ts` does not define it.

`API_URL` is taken as its default, `http://localhost:8080/api` (the build-time variable unset).

`JSON.parse` and `JSON.stringify` are modelled for flat objects of string values. These are the records kept under `user_info`. Keys that are not array indices keep their insertion order, and a parsed duplicate key keeps its first position and its last value. `Json.SerializeRoundTrip` proves that parsing a serialized record gives it back.

## Model

| member | source | states |
|---|---|---|
| Storage.GetItem | src/services/authService.ts:102 | `getItem` gives the stored value when the key is present and null when it is absent |
| Storage.LocalStorage.SetItem | src/services/authService.ts:51-62 | after `setItem` the key maps to the value and every other entry is unchanged |
| Storage.LocalStorage.RemoveItem | src/services/authService.ts:82-84 | after `removeItem` the key is gone and every other entry is unchanged |
| Json.Get | src/services/authService.ts:91 | reading a property gives nothing exactly when no member has that key |
| Json.SetGet | src/pages/Profile.tsx:98-101 | after a property is set, it reads as the new value and every other property reads as before |
| Json.SetKeepsDistinct | src/pages/Profile.tsx:138-141 | setting a property keeps every key unique |
| Json.RemoveGet | src/pages/Profile.tsx:138-141 | leaving out a property (a spread of `undefined`) makes it absent and leaves every other property as it was |
| Json.RemoveHasKey | src/pages/Profile.tsx:138-141 | after removal a key is present iff it was present before and is not the removed one |
| Json.RemoveKeepsDistinct | src/pages/Profile.tsx:138-141 | removing a property keeps every key unique |
| Json.PickGet | src/pages/Profile.tsx:113-120 | an object literal built from chosen properties reads like the source on those keys and has no other property |
| Json.ParseDistinct | src/services/authService.ts:104 | a parsed object has no repeated key |
| Json.ParseEmptyObject | src/pages/Profile.tsx:137 | `JSON.parse('{}')` is the empty object |
| Json.SerializeRoundTrip | src/services/authService.ts:51-57 | `JSON.parse(JSON.stringify(o))` gives back o for every object with unique keys |
| Text.ToLowerIdempotent | src/pages/Attendance.tsx:74-75 | lower-casing twice is the same as lower-casing once |
| Text.ToLowerHasNoCapitals | src/pages/Attendance.tsx:74-75 | a lower-cased string has no ASCII capital letter anywhere |
| Text.TrimEmptyIffBlank | src/components/AddCandidateModal.tsx:19 | `trim()` gives the empty string iff every character is whitespace |
| Text.NatToStringRoundTrip | src/services/authService.ts:159 | the decimal digits written into the status line read back as the status code |
| Http.FailureMessage | src/services/authService.ts:157-159 | the error shown for a failed response is the body's non-empty `message`, else `Lỗi <status>: <statusText>`; with an unreadable body, the tolerant variant uses the status line and the strict one the parse error |
| Http.StatusMessageNonEmpty | src/services/authService.ts:159 | the status line is never empty and starts with `Lỗi ` |
| Http.StatusMessageDistinguishesCodes | src/services/authService.ts:159 | two status lines with the same status text are equal only when the status codes are equal |
| Http.ReadData | src/services/authService.ts:162-163 | reading a body succeeds iff it is JSON; the data are its content, and an unreadable body fails with its parse error |
| AuthService.UserInfoRecordShape | src/services/authService.ts:51-57 | the stored record has the five keys id, name, email, role and token, none repeated; its token and name are the login's |
| AuthService.GetUserFromStorage | src/services/authService.ts:100-111 | an absent or empty `user_info` gives null, a present one gives its parse (null when malformed), and the function never fails; a result has unique keys |
| AuthService.GetAuthToken | src/services/authService.ts:87-94 | the token is `user_info.token` when a record with a non-empty token is stored, otherwise the `access_token` entry or null |
| AuthService.IsAuthenticatedIff | src/services/authService.ts:113-115 | signed in iff the record's token is non-empty, or else there is a non-empty `access_token` |
| AuthService.EmptyTokenIsUnauthenticated | src/services/authService.ts:113-115 | with no record token and an empty or missing `access_token`, the user is not signed in |
| AuthService.SessionWrittenReadsBack | src/services/authService.ts:51-63 | after login the stored user is the five-key record, the token is the login's, signed-in iff that token is non-empty, `refresh_token` is written only when the response has one, and no other key changes |
| AuthService.ClearSessionProperties | src/services/authService.ts:81-84 | logout removes exactly the three session keys and keeps every other key; it is idempotent; afterwards there is no user, no token and no session |
| AuthService.LoginAfterLogout | src/services/authService.ts:51-63 | signing in after signing out yields the new token, and no refresh token when the response has none |
| AuthService.ApiUrlFor | src/services/authService.ts:129 | the URL is `API_URL + url` when url starts with `/`, else `API_URL + '/' + url`; it always starts with `API_URL/` |
| AuthService.ApiUrlForLeadingSlash | src/services/authService.ts:129 | `/x` and `x` give the same URL unless x itself starts with `/` |
| AuthService.Login | src/services/authService.ts:31-70 | one POST to `/auth/login` is sent; an answer that is not a readable 2xx leaves storage unchanged and fails with the fixed wrong-credentials message, whatever the server said; a success writes exactly the session record |
| AuthService.Logout | src/services/authService.ts:72-85 | one POST to `/auth/logout` is sent, and the store becomes the store without the session keys |
| AuthService.ApiCall | src/services/authService.ts:118-168 | no token: the missing-token failure with no request. Otherwise the first request carries the joined URL and the token. A 401 adds the logout request, redirects and fails as expired. A network failure fails with its message. Another non-2xx answer fails with the body message or the status line. A 2xx answer returns the parsed body. The call succeeds iff there is a token, a 2xx answer and a readable body |
| AuthService.ApiStore | src/services/authService.ts:148-152 | a 401 answer to a signed-in request clears the session (the store becomes `ClearSession`), leaving the user signed out; without a token, or for any other answer, the store is as it was; no entry outside the session ever changes |
| AuthService.ApiRequest | src/services/authService.ts:118-168 | no token: fails with the missing-token message before any request. Otherwise the first request carries the joined URL and the token. A 401 clears the session, sends the logout request, redirects and fails as expired. Another non-2xx answer fails with the body message or the status line and leaves storage unchanged. A 2xx answer returns the body. The call made is exactly `ApiCall` and the store afterwards exactly `ApiStore` |
| AuthContext.AuthProvider.constructor | src/context/AuthContext.tsx:30-31 | the initial `isAuthenticated` and `user` are what the store says |
| AuthContext.AuthProvider.HandleStorageChange | src/context/AuthContext.tsx:40-44 | both fields are re-read from the store, and `user` is null whenever signed out |
| AuthContext.AuthProvider.Logout | src/context/AuthContext.tsx:51-55 | the session keys are cleared, the state is signed out with no user, and the page goes to `/login` |
| AuthContext.AuthProvider.CheckTokenExpiration | src/context/AuthContext.tsx:56-91 | no token: signed out, nothing sent, false. A 401 from `/auth/validate-token`: logout and false. Any other answer or a network failure: true with nothing changed. The result is true iff a token was present and the answer was not a 401 |
| ServiceLadder.FailureFor | src/services/cieService.ts:86-91 | a non-expired failure is the endpoint's fixed 404 or 400 message where it has one, else the body message or the status line |
| ServiceLadder.Issue | src/services/cieService.ts:64-100 | the shared shape of a service call (modelled as one function over a ladder of the endpoint's own messages): no token gives the missing-token error and a redirect with no request; otherwise exactly one request to `API_URL + path` with the token; a network failure is its own error; an expired answer redirects with the session-expired error; other failures follow `FailureFor`; a 2xx answer is read by the endpoint |
| ServiceLadder.IssueRedirectsIff | src/services/cieService.ts:27-30 | a call redirects iff there was no token, or the answer was a non-2xx that the endpoint counts as expired; a redirect always comes with an error |
| ServiceLadder.IssueSucceedsIff | src/services/cieService.ts:94-95 | a call succeeds iff a token was present, a response arrived with a 2xx status, and the endpoint could read it |
| ServiceLadder.IssueRequestCount | src/services/cieService.ts:26-38 | a call sends one request when a token is present and none otherwise |
| AttendanceService.Fetching | src/services/attendanceService.ts:25-58 | the shared shape of the attendance endpoints: missing-token guard and redirect, one request, `handleTokenExpiration` decides expiry, other failures give the strict body message or status line, a network failure gives its own message, a 2xx with an unreadable body gives the parse error, none of these redirect, and success iff a readable 2xx arrived |
| AttendanceService.GetAttendanceInExam | src/services/attendanceService.ts:25-58 | GET `/attendance/exam/{examId}` with the token, or the missing-token error with no request |
| AttendanceService.CreateAttendance | src/services/attendanceService.ts:63-98 | POST `/attendance` with the token, or the missing-token error with no request |
| AttendanceService.GetAllAttendances | src/services/attendanceService.ts:103-135 | GET `/attendance` with the token, or the missing-token error with no request |
| AttendanceService.VerifyAttendance | src/services/attendanceService.ts:140-175 | PATCH `/attendance/{id}/verify` with the token, or the missing-token error with no request |
| AttendanceService.GetExamAttendance | src/services/attendanceService.ts:180-213 | GET `/attendance/exam/{examId}` with the token, or the missing-token error with no request |
| AttendanceService.ExamAttendanceIsAttendanceInExam | src/services/attendanceService.ts:180-213 | `getExamAttendance` behaves exactly like `getAttendanceInExam` on every input |
| AttendanceService.CheckCandidateAttendance | src/services/attendanceService.ts:221-254 | never fails and never redirects; true iff a token is present, the request completes and the status is 2xx; exactly one request is sent when a token is present |
| AttendanceService.CheckCandidateAttendanceFailures | src/services/attendanceService.ts:237-253 | every non-2xx answer gives false, a 404 and a 401 (its expired error is swallowed) included |
| CieService.ExpiryAnsweredFirst | src/services/cieService.ts:80-88 | a 401 gives the session-expired error and a redirect before any 404 or 400 rule applies |
| CieService.GetAllCandidateInExams | src/services/cieService.ts:24-57 | GET `/candidates-in-exam`; missing token, 401 and other failures as described; no fixed 404 message |
| CieService.GetCandidateInExamById | src/services/cieService.ts:64-100 | GET `/candidates-in-exam/{id}`; a 404 gives the fixed record-not-found error |
| CieService.GetCandidatesByExamId | src/services/cieService.ts:107-140 | GET `/candidates-in-exam/exam/{examId}`; other failures give the body message or the status line |
| CieService.GetExamsByCandidate | src/services/cieService.ts:147-180 | GET `/candidates-in-exam/candidate/{candidateId}`; other failures give the body message or the status line |
| CieService.CreateCandidateInExam | src/services/cieService.ts:188-232 | POST `/candidates-in-exam`; a 400 gives the fixed invalid-or-duplicate error without a redirect; success iff a readable 2xx arrived |
| CieService.DeleteCandidateInExam | src/services/cieService.ts:238-273 | DELETE `/candidates-in-exam/{id}`; a 404 gives the fixed record-not-found error; an unreadable error body falls back to the status line; a 2xx succeeds without reading a body |
| CieService.RemoveCandidateFromExam | src/services/cieService.ts:280-315 | DELETE `/candidates-in-exam/candidate/{c}/exam/{e}`; a 404 gives the fixed candidate-or-exam-not-found error; an unreadable error body falls back to the status line |
| AttendancePage.VisibleSoundAndComplete | src/pages/Attendance.tsx:67-91 | the shown records keep their order, and a record is shown iff it is listed and the search, status and exam criteria that are active all hold |
| AttendancePage.VisibleWithoutCriteria | src/pages/Attendance.tsx:68-88 | with all three criteria empty, every record is shown |
| AttendancePage.StatusText | src/pages/Attendance.tsx:142-153 | PRESENT, ABSENT and LATE get their labels; any other status is shown as itself |
| AttendancePage.StatusBadgeClass | src/pages/Attendance.tsx:129-140 | green, red and yellow badges for the three known statuses, grey for any other |
| AttendancePage.UnlabelledIffNeutral | src/pages/Attendance.tsx:129-153 | a status is shown as its own code iff it gets the grey badge; two different known statuses differ in both label and badge |
| AttendancePage.WithoutIdRemovesExactly | src/pages/Attendance.tsx:110 | deleting removes exactly the records with that id, keeps the rest in order, and keeps the list when no record has that id |
| AttendancePage.Page.constructor | src/pages/Attendance.tsx:21-28 | every list starts empty and every criterion inactive |
| AttendancePage.Page.FilterAttendances | src/pages/Attendance.tsx:67-91 | the three successive filters leave `filteredAttendances` equal to the single combined filter of `attendances`, and change nothing else |
| AttendancePage.Page.DeleteAttendance | src/pages/Attendance.tsx:103-116 | not confirmed: nothing happens. Confirmed: the call is exactly `apiRequest`'s DELETE of `/api/attendances/{id}` for this store and answer (`ApiCall`), and the store afterwards is `ApiStore`, so a 401 signs out. Success drops exactly that id from the list; failure shows the fixed alert and keeps the list |
| UserList.FilteredUsersSoundAndComplete | src/pages/UserList.tsx:32-40 | the result keeps its order; a user is kept iff the name or e-mail contains the query ignoring case, and the role equals the filter when one is set |
| UserList.FilteredUsersWithoutCriteria | src/pages/UserList.tsx:33-37 | an empty query and an empty role keep every user |
| UserList.FilteredUsersIgnoresQueryCase | src/pages/UserList.tsx:34-35 | lower-casing the query does not change the result |
| ExamDetail.InitialRows | src/pages/ExamDetail.tsx:42-46 | every record gets a row, with attendance unknown and no check running |
| ExamDetail.InitialRowsKeepRecords | src/pages/ExamDetail.tsx:42-46 | the rows keep every record's fields, in order |
| ExamDetail.FilteredCandidatesProperties | src/pages/ExamDetail.tsx:117-123 | the rows keep their order; a row is kept iff the name or e-mail contains the term ignoring case; an empty term keeps every row |
| ExamDetail.Page.constructor | src/pages/ExamDetail.tsx:18-32 | no candidates, no search, no delete running, confirmation closed |
| ExamDetail.Page.CheckAttendanceForCandidates | src/pages/ExamDetail.tsx:58-83 | without an exam id nothing changes. Otherwise the loop checks each candidate once, in index order. The list keeps its length and records, every row ends with no check running, and row i records the service's answer for candidate i and the exam |
| ExamDetail.Page.LoadCandidates | src/pages/ExamDetail.tsx:35-55 | with an exam id and a successful listing, the candidates are the listing's rows with their checked attendance; a failed listing keeps the list; the helper predicate `ExamDetail.Reloaded` states both together |
| ExamDetail.Page.HandleDeleteCandidate | src/pages/ExamDetail.tsx:153-157 | remembers the target and its name and opens the confirmation |
| ExamDetail.Page.ConfirmDeleteCandidate | src/pages/ExamDetail.tsx:160-177 | without a target or exam id nothing changes. Otherwise the target is removed from the exam. A success reloads the list exactly as `loadCandidates` does (`Reloaded`). A failure shows the error's message, or the fixed fallback, and keeps the list. It always ends with no delete running, the confirmation closed and no target |
| ExamList.WithPlaceholders | src/pages/ExamList.tsx:27-33 | each exam keeps its fields and gets the four fixed subject, semester, shift and room strings |
| ExamList.WithPlaceholdersKeepsExams | src/pages/ExamList.tsx:27-33 | the mapping keeps every exam, in order |
| ExamList.FilteredExamsSoundAndComplete | src/pages/ExamList.tsx:47-56 | the result keeps its order; an exam is kept iff its title, subject, semester or room contains the term ignoring case, and its status equals the filter when one is set |
| ExamList.FilteredExamsWithoutStatus | src/pages/ExamList.tsx:53 | with no status filter only the search applies |
| ExamList.PlaceholderSearchKeepsAll | src/pages/ExamList.tsx:27-33 | a term found in the placeholder subject keeps every mapped exam |
| ExamList.FilteredExamsWithoutCriteria | src/pages/ExamList.tsx:47-56 | no term and no status keep every exam |
| ExamList.StatusLabel | src/pages/ExamList.tsx:71-82 | UPCOMING, ONGOING and COMPLETED get their labels; any other status is shown as itself |
| ExamList.StatusClass | src/pages/ExamList.tsx:58-69 | blue for UPCOMING, green for ONGOING, grey for everything else |
| ExamList.CompletedLooksLikeUnknown | src/pages/ExamList.tsx:58-82 | COMPLETED and every unknown status share the grey class; only the label tells them apart |
| ExamForm.OrEmpty | src/components/ExamFormModal.tsx:55-58 | a missing field becomes the empty string |
| ExamForm.Normalize | src/components/ExamFormModal.tsx:49-98 | no initial data gives the empty form for today. Otherwise the other fields are kept, and schedule and room are always complete records: a missing part is all empty, a missing field is empty |
| ExamForm.NormalizeRoundTrip | src/components/ExamFormModal.tsx:52-74 | normalising a complete form gives it back |
| ExamForm.NormalizeFillsGaps | src/components/ExamFormModal.tsx:59-64 | initial data without a schedule gets the all-empty schedule |
| ExamForm.ExamFormModal.constructor | src/components/ExamFormModal.tsx:27-46 | the form starts empty for today, with no schedules or rooms |
| ExamForm.ExamFormModal.Open | src/components/ExamFormModal.tsx:49-98 | the form becomes the normalised initial data, a new record getting the date read by this run of the effect |
| ExamForm.ExamFormModal.HandleInputChange | src/components/ExamFormModal.tsx:157-167 | a name without `.` sets that top-level field and keeps every other field; a name with `.` changes nothing |
| ExamForm.ExamFormModal.HandleScheduleChange | src/components/ExamFormModal.tsx:168-202 | an empty id clears the schedule; a known id copies that entry's four fields; an unknown id leaves the form unchanged; the other fields never change |
| ExamForm.ExamFormModal.HandleRoomChange | src/components/ExamFormModal.tsx:203-235 | an empty id clears the room; a known id copies that entry's three fields; an unknown id leaves the form unchanged |
| ExamForm.ExamFormModal.HandleSubmit | src/components/ExamFormModal.tsx:236-249 | the form is submitted as is iff both scheduleId and roomId are non-empty; a missing schedule is reported before a missing room |
| ExamForm.EmptyFormIsRejected | src/components/ExamFormModal.tsx:240-248 | a dialog showing the empty form is not submitted: submitting it gives the missing-schedule alert |
| Seqs.FindIndex | src/components/ExamFormModal.tsx:187 | `find` gives the first element that matches, or nothing when none does |
| Profile.InitialProfileFields | src/pages/Profile.tsx:36-46 | the initial profile has the stored id, name, email and role, and no other property; in particular no token |
| Profile.UpdateDtoFields | src/pages/Profile.tsx:113-120 | the update carries exactly name, birth, citizenId, phoneNumber and address from the edited record, and never email, role, id or password |
| Profile.SaveErrorMessage | src/pages/Profile.tsx:147-154 | the error's own message is shown iff it contains one of the two known phrases; otherwise the fixed generic message is shown |
| Profile.MergeNameFields | src/pages/Profile.tsx:138-141 | the merged record has the new name and every other stored property unchanged |
| Profile.MergeNameDistinct | src/pages/Profile.tsx:138-141 | the merge keeps the record's keys unique |
| Profile.StoredUserOrEmptyCases | src/pages/Profile.tsx:137 | parsing the stored record, or `'{}'` when none is stored, fails only on a non-empty malformed record; otherwise it gives an object with unique keys whose token is the stored user's |
| Profile.SameSessionToken | src/services/authService.ts:87-94 | the session token depends only on the stored record's token and on the `access_token` entry |
| Profile.WrittenUserReadsBack | src/pages/Profile.tsx:138-141 | a record written under `user_info` is read back as the stored user |
| Profile.RenamedStore | src/pages/Profile.tsx:136-142 | after the name is merged into the stored record, the session token is unchanged, the stored user is the merged record, and it reads as the new name and the old values elsewhere |
| Profile.RenameKeepsSession | src/pages/Profile.tsx:136-142 | rewriting the name fails only when a non-empty stored record is malformed. Otherwise the stored user reads back with the new name and the other properties unchanged, the session token stays the same, and no other key changes |
| Profile.ProfilePage.constructor | src/pages/Profile.tsx:21-25 | no user, nothing edited, not editing, loading, no error |
| Profile.ProfilePage.Mount | src/pages/Profile.tsx:28-50 | signed out: go to `/login`. Signed in with a stored record: shown and edited profile are its four properties |
| Profile.ProfilePage.HandleEdit | src/pages/Profile.tsx:86-88 | editing starts and nothing else changes |
| Profile.ProfilePage.HandleCancel | src/pages/Profile.tsx:90-93 | editing stops and the edited record is the shown one again |
| Profile.ProfilePage.HandleChange | src/pages/Profile.tsx:95-102 | exactly the named property of the edited record takes the value; no edited record, no change |
| Profile.ProfilePage.HandleSave | src/pages/Profile.tsx:104-158 | without an edited record or a user id nothing happens. Otherwise the call is exactly `apiRequest`'s PUT `/user/{id}` for this store and answer (`ApiCall`), the update body is sent and loading ends. On failure the chosen error is shown and the store is `ApiStore`, so a 401 signs out. On success the server's parsed answer becomes the shown and edited record and editing stops; `user_info` is rewritten only when the name changed, keeping every other stored property and the token |
| AddCandidate.AddedMessage | src/components/AddCandidateModal.tsx:53 | the success line starts with the fixed prefix and names the candidate |
| AddCandidate.AddErrorMessage | src/components/AddCandidateModal.tsx:64-68 | an error containing the already-added phrase becomes the fixed duplicate message; any other error shows its own message, or the fixed fallback when it is empty |
| AddCandidate.InvalidOrDuplicateIsDuplicate | src/services/cieService.ts:217-219 | the service's 400 message contains the already-added phrase, so the modal reports it as a duplicate |
| AddCandidate.Modal.constructor | src/components/AddCandidateModal.tsx:12-16 | empty id, not loading, no error, no success, no user found |
| AddCandidate.Modal.SetCitizenId | src/components/AddCandidateModal.tsx:109 | the input's value becomes the citizen id and nothing else changes |
| AddCandidate.Modal.HandleSearch | src/components/AddCandidateModal.tsx:18-43 | a blank id (after trimming) sets the fixed error and looks nothing up. Otherwise the untrimmed id is looked up and success is cleared. Not found gives the not-found error and no user; a found user is kept with no error; a failed lookup shows its own message or the fallback. Loading ends |
| AddCandidate.Modal.HandleAddCandidate | src/components/AddCandidateModal.tsx:45-72 | without a found user nothing happens. Otherwise the user is registered for the exam. Success sets the success line clears the id and the user, and notifies the parent (`notifyParent`, exactly on success); failure shows the chosen error; a 400 answer always reads as a duplicate. Loading ends |

## Left out

- Rendering: JSX, CSS layout, modals' markup, `Header`, `Footer`, `Home`, `Login`, `DeleteConfirmationModal` and routing in `App`. They hold no logic beyond what is modelled. `PrivateRoute` is `isAuthenticated`, which is `AuthService.IsAuthenticated`.
- Real I/O: `fetch` is an input outcome, and a redirect is a flag.
  - Headers are not modelled, and neither are request bodies other than the profile update.
  - `credentials: 'include'` and cookies are not modelled.
  - `console` output and `setTimeout` delays are dropped; the delayed `onSuccess` call of the add-candidate modal is the `notifyParent` result.
- React: each `setState` is an immediate assignment, with no batching and no effect ordering.
  - The effect that re-runs `filterAttendances` is represented by calling `FilterAttendances`.
  - A page's data-loading effect is not modelled, except where listed above.
- `setupTokenValidation`, `clearTokenValidation` and `handleTokenExpiration` are not part of this model. No shown file defines them. `handleTokenExpiration` is a predicate parameter.
- `getRefreshToken` reads a cookie through the `js-cookie` library, which is foreign code.
- `examService.ts`, `roomService.ts`, `scheduleService.ts` and `userService.ts` are thin fetch wrappers of the same shape as the candidate-in-exam service. `searchUserByCitizenId` is not part of this model. Its result is an input to `AddCandidate.Modal.HandleSearch`.
- `Profile.ProfilePage.Mount`: the server reload (`fetchUserProfile`) is not modelled; only the stored-record preview is.
- `ExamForm.ExamFormModal`: the effect that fetches rooms and schedules and matches them to the form (lines 99-155) is not modelled. `schedules` and `rooms` are fields that start empty.
- Dates: each read of `new Date().toISOString()` is a `today` parameter (the dialog's creation and each run of its opening effect); date formatting is not modelled.
- `Text.ToLower`: only ASCII letters are lowered. JavaScript lowers all of Unicode. The filter properties hold for the modelled lowering.
- `Json.Parse`:
  - it accepts only objects whose values are strings, and non-object JSON (`null`, arrays, numbers) counts as malformed. For the stored user record, a truthy non-object (such as `42`, `"x"`, `[]` or `true`) yields no token in both, but `getUserFromStorage` returns it and the auth context and profile page treat it as the user, whereas the model reads it as no user; only the falsy JSON values (`null`, `false`, `0`, `""`) give no user in both;
  - keys that look like array indices (such as `"2"`) are kept in insertion order, whereas JavaScript lists them first in ascending numeric order, so `JSON.stringify` would write them first; values read through `Json.Get` are the same either way, and the app's own records (`id`, `name`, `email`, `role`, `token`) have no such key;
  - `\uD800`-`\uDFFF` escapes are refused, so a surrogate pair such as `\ud83d\ude00`, which `JSON.parse` joins into one character, makes the text malformed. `JSON.stringify` writes such characters directly and never produces these escapes, so this affects only text written into `user_info` by something other than the app;
  - `Profile.RenameStoredUser` treats a stored `null` as malformed, whereas the page would spread it into an empty object;
  - JSON whitespace between tokens is skipped, as `JSON.parse` does.
- `AuthService.GetUserFromStorage`: a stored record containing a surrogate-pair escape is read as malformed (no user), where `JSON.parse` would accept it, and so is a truthy non-object record, which the source returns as the user (and which `AuthContext.AuthProvider` and `Profile.ProfilePage.Mount` then show); see `Json.Parse` above.
- `Profile.ProfilePage.HandleSave`: when the stored record cannot be parsed, the thrown parse error is shown as the generic message. Its text contains neither known phrase.
- `ExamForm.ExamFormModal.HandleInputChange` requires the field name not to be `schedule` or `room`. No text input carries those names; they have their own select handlers.
- `ExamDetail.Page.CheckAttendanceForCandidates`:
  - the rows are values in an array, so the rendering that reads the same objects while the loop runs (aliasing) is not modelled;
  - the `catch` branch is not modelled, because `checkCandidateAttendance` never throws;
  - the check answers are given per candidate id (`checks`), so two rows with the same candidate id get the same answer, where the page makes two separate requests.
- `Http.Body`: a parsed body is its `message` string and its data. An error body that parses to `null` (where reading `errorData.message` throws a TypeError whose text is shown) and a non-string `message` are not represented.
- `AuthService.Login`: the request body and the cookie set by the server are not modelled.
- Two behaviours belong to the code as written and are modelled as they stand:
  - the attendance page deletes through `/api/attendances/{id}`, which the URL join places after `API_URL` (`.../api/api/attendances/...`);
  - `apiRequest` reads a JSON body even from a 2xx DELETE, so a reply without a body counts as a failure there.
