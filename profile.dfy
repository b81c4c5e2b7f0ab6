/**
 * The profile page: the signed-in user's record, editing it, saving it
 * through `apiRequest`, and keeping the stored `user_info` name in step.
 */
module Profile {
  import opened Wrappers
  import opened Text
  import opened Http
  import Json
  import opened AuthService
  import Storage

  /** The properties the page takes from the stored record before the server answers. */
  const InitialKeys: seq<string> := ["id", "name", "email", "role"]

  /** The properties of the update sent to the server (`UpdateUserDTO`). */
  const DtoKeys: seq<string> := ["name", "birth", "citizenId", "phoneNumber", "address"]

  const SaveFailedMessage: string := "Không thể cập nhật hồ sơ. Vui lòng thử lại sau."
  const EmailTakenPhrase: string := "Email đã được sử dụng"
  const NotAllowedPhrase: string := "không có quyền"

  /** The profile shown from the stored record: its id, name, e-mail and role, nothing else. */
  function InitialProfile(stored: Json.Object): Json.Object {
    Json.Pick(stored, InitialKeys)
  }

  /** The initial profile reads like the stored record on the four keys and has no other property, the token included. */
  lemma InitialProfileFields(stored: Json.Object, k: string)
    ensures Json.Get(InitialProfile(stored), k) == if k in InitialKeys then Json.Get(stored, k) else None
    ensures Json.Get(InitialProfile(stored), "token") == None
  {
    Json.PickGet(stored, InitialKeys, k);
    Json.PickGet(stored, InitialKeys, "token");
  }

  /** The update sent on save. */
  function UpdateDto(edited: Json.Object): Json.Object {
    Json.Pick(edited, DtoKeys)
  }

  /** The update carries the edited values of its five properties and never the e-mail, role, id or password. */
  lemma UpdateDtoFields(edited: Json.Object, k: string)
    ensures Json.Get(UpdateDto(edited), k) == if k in DtoKeys then Json.Get(edited, k) else None
    ensures k in {"email", "role", "id", "password"} ==> !Json.HasKey(UpdateDto(edited), k)
  {
    Json.PickGet(edited, DtoKeys, k);
  }

  /** The message shown when a save fails: the error's own message only when it names one of the two known causes. */
  function SaveErrorMessage(message: string): (r: string)
    ensures r == message || r == SaveFailedMessage
    ensures r != SaveFailedMessage ==> Contains(r, EmailTakenPhrase) || Contains(r, NotAllowedPhrase)
    ensures Contains(message, EmailTakenPhrase) || Contains(message, NotAllowedPhrase) ==> r == message
  {
    if message != "" && (Contains(message, EmailTakenPhrase) || Contains(message, NotAllowedPhrase)) then message
    else SaveFailedMessage
  }

  /** `{...current, name}`: the stored record with only its name replaced (an absent name is not written). */
  function MergeName(current: Json.Object, name: Option<string>): Json.Object {
    match name
    case Some(v) => Json.Set(current, "name", v)
    case None => Json.Remove(current, "name")
  }

  /** The merge reads as the new name and as the old record everywhere else. */
  lemma MergeNameFields(current: Json.Object, name: Option<string>, k: string)
    ensures Json.Get(MergeName(current, name), k) == if k == "name" then name else Json.Get(current, k)
  {
    match name
    case Some(v) => Json.SetGet(current, "name", v, k);
    case None => Json.RemoveGet(current, "name", k);
  }

  /** The merge keeps the keys distinct. */
  lemma MergeNameDistinct(current: Json.Object, name: Option<string>)
    requires Json.DistinctKeys(current)
    ensures Json.DistinctKeys(MergeName(current, name))
  {
    match name
    case Some(v) => Json.SetKeepsDistinct(current, "name", v);
    case None => Json.RemoveKeepsDistinct(current, "name");
  }

  /** `JSON.parse(localStorage.getItem('user_info') || '{}')`; None where it throws. */
  function StoredUserOrEmpty(items: map<string, string>): Option<Json.Object> {
    Json.Parse(if UserInfoKey in items && items[UserInfoKey] != "" then items[UserInfoKey] else "{}")
  }

  /** The store after the name of `user_info` is rewritten, or None where reading it throws. */
  function RenameStoredUser(items: map<string, string>, name: Option<string>): Option<map<string, string>> {
    match StoredUserOrEmpty(items)
    case None => None
    case Some(current) => Some(items[UserInfoKey := Json.Serialize(MergeName(current, name))])
  }

  /** The record the merge starts from: the stored user, or the empty object when nothing is stored. */
  lemma StoredUserOrEmptyCases(items: map<string, string>)
    ensures StoredUserOrEmpty(items).None? <==>
      UserInfoKey in items && items[UserInfoKey] != "" && Json.Parse(items[UserInfoKey]).None?
    ensures StoredUserOrEmpty(items).Some? ==> Json.DistinctKeys(StoredUserOrEmpty(items).value)
    ensures StoredUserOrEmpty(items).Some? ==> Json.Get(StoredUserOrEmpty(items).value, "token") == RecordToken(items)
  {
    if UserInfoKey in items && items[UserInfoKey] != "" {
      assert StoredUserOrEmpty(items) == GetUserFromStorage(items);
    } else {
      Json.ParseEmptyObject();
      assert GetUserFromStorage(items).None?;
    }
  }

  /** The `token` property of the stored user, if a record is stored. */
  function RecordToken(items: map<string, string>): Option<string> {
    if GetUserFromStorage(items).Some? then Json.Get(GetUserFromStorage(items).value, "token") else None
  }

  /** Two stores whose user records carry the same token and whose `access_token` agree yield the same session token. */
  lemma SameSessionToken(a: map<string, string>, b: map<string, string>)
    requires RecordToken(a) == RecordToken(b)
    requires Storage.GetItem(a, AccessTokenKey) == Storage.GetItem(b, AccessTokenKey)
    ensures GetAuthToken(a) == GetAuthToken(b)
  {
    assert StoredUserToken(a) == StoredUserToken(b);
  }

  /** A record with distinct keys written under `user_info` is read back as the stored user. */
  lemma WrittenUserReadsBack(items: map<string, string>, o: Json.Object)
    requires Json.DistinctKeys(o)
    ensures GetUserFromStorage(items[UserInfoKey := Json.Serialize(o)]) == Some(o)
  {
    Json.SerializeRoundTrip(o);
    assert Json.Serialize(o)[0] == '{';
  }

  /**
   * Rewriting the stored name fails only on a malformed record; otherwise the
   * stored user reads with the new name and every other property unchanged,
   * the session token is the same, and no other entry changes.
   */
  lemma RenameKeepsSession(items: map<string, string>, name: Option<string>, k: string)
    ensures RenameStoredUser(items, name).None? <==>
      UserInfoKey in items && items[UserInfoKey] != "" && Json.Parse(items[UserInfoKey]).None?
    ensures RenameStoredUser(items, name).Some? ==>
      var after := RenameStoredUser(items, name).value;
      GetAuthToken(after) == GetAuthToken(items) &&
      GetUserFromStorage(after).Some? &&
      Json.Get(GetUserFromStorage(after).value, k) == (if k == "name" then name else Json.Get(StoredUserOrEmpty(items).value, k)) &&
      (k != UserInfoKey ==> Storage.GetItem(after, k) == Storage.GetItem(items, k))
  {
    StoredUserOrEmptyCases(items);
    match StoredUserOrEmpty(items)
    case None =>
    case Some(current) =>
      var after := items[UserInfoKey := Json.Serialize(MergeName(current, name))];
      assert RenameStoredUser(items, name) == Some(after);
      RenamedStore(items, current, name, k);
  }

  /** The store after merging `name` into the record `current` read from it. */
  lemma RenamedStore(items: map<string, string>, current: Json.Object, name: Option<string>, k: string)
    requires StoredUserOrEmpty(items) == Some(current)
    ensures var after := items[UserInfoKey := Json.Serialize(MergeName(current, name))];
      GetAuthToken(after) == GetAuthToken(items) &&
      GetUserFromStorage(after) == Some(MergeName(current, name)) &&
      Json.Get(MergeName(current, name), k) == (if k == "name" then name else Json.Get(current, k))
  {
    StoredUserOrEmptyCases(items);
    var merged := MergeName(current, name);
    MergeNameDistinct(current, name);
    var after := items[UserInfoKey := Json.Serialize(merged)];
    WrittenUserReadsBack(items, merged);
    MergeNameFields(current, name, k);
    MergeNameFields(current, name, "token");
    SameSessionToken(after, items);
  }

  class ProfilePage {
    var user: Option<Json.Object>
    var editedUser: Option<Json.Object>
    var isEditing: bool
    var loading: bool
    var error: string
    const storage: Storage.LocalStorage

    constructor (storage: Storage.LocalStorage)
      ensures this.storage == storage
      ensures user.None? && editedUser.None? && !isEditing && loading && error == ""
    {
      this.storage := storage;
      user := None;
      editedUser := None;
      isEditing := false;
      loading := true;
      error := "";
    }

    /** The mount effect: without a session, go to the login page; otherwise show the stored record's four properties. */
    method Mount() returns (navigateTo: Option<string>)
      modifies this
      ensures !IsAuthenticated(storage.items) ==> navigateTo == Some(LoginPath) && user == old(user) && editedUser == old(editedUser)
      ensures IsAuthenticated(storage.items) ==> navigateTo.None?
      ensures IsAuthenticated(storage.items) && GetUserFromStorage(storage.items).Some? ==>
        user == Some(InitialProfile(GetUserFromStorage(storage.items).value)) && editedUser == user
      ensures IsAuthenticated(storage.items) && GetUserFromStorage(storage.items).None? ==> user == old(user) && editedUser == old(editedUser)
      ensures isEditing == old(isEditing) && loading == old(loading) && error == old(error)
    {
      if !IsAuthenticated(storage.items) {
        return Some(LoginPath);
      }
      var stored := GetUserFromStorage(storage.items);
      if stored.Some? {
        var initial := InitialProfile(stored.value);
        user := Some(initial);
        editedUser := Some(initial);
      }
      navigateTo := None;
    }

    /** `handleEdit`. */
    method HandleEdit()
      modifies this
      ensures isEditing && user == old(user) && editedUser == old(editedUser) && error == old(error) && loading == old(loading)
    {
      isEditing := true;
    }

    /** `handleCancel`: editing stops and the edits are dropped. */
    method HandleCancel()
      modifies this
      ensures !isEditing && editedUser == user && user == old(user) && error == old(error) && loading == old(loading)
    {
      isEditing := false;
      editedUser := user;
    }

    /** `handleChange`: the named property of the edited record takes the input's value; nothing happens without a record. */
    method HandleChange(name: string, value: string)
      modifies this
      ensures old(editedUser).None? ==> editedUser.None?
      ensures old(editedUser).Some? ==> editedUser == Some(Json.Set(old(editedUser).value, name, value))
      ensures old(editedUser).Some? ==> forall k :: Json.Get(editedUser.value, k) == if k == name then Some(value) else Json.Get(old(editedUser).value, k)
      ensures user == old(user) && isEditing == old(isEditing) && error == old(error) && loading == old(loading)
    {
      if editedUser.None? {
        return;
      }
      var before := editedUser.value;
      forall k ensures Json.Get(Json.Set(before, name, value), k) == if k == name then Some(value) else Json.Get(before, k) {
        Json.SetGet(before, name, value, k);
      }
      editedUser := Some(Json.Set(before, name, value));
    }

    /** `handleSave` needs an edited record and a user with a non-empty id. */
    predicate CanSave()
      reads this
    {
      editedUser.Some? && user.Some? && Truthy(Json.Get(user.value, "id"))
    }

    /**
     * `handleSave`: `PUT /user/{id}` with the update through `apiRequest`.
     * On success the answer becomes the shown and edited record and editing
     * stops; if the name changed, the stored `user_info` gets the new name.
     * A failure, or a malformed stored record, shows the chosen message.
     */
    method HandleSave(outcome: Fetch<Json.Object>) returns (dto: Option<Json.Object>, call: Option<Call<Json.Object>>)
      modifies this, storage
      ensures !old(CanSave()) ==>
        dto.None? && call.None? && user == old(user) && editedUser == old(editedUser) && isEditing == old(isEditing) &&
        error == old(error) && loading == old(loading) && storage.items == old(storage.items)
      ensures old(CanSave()) ==> dto == Some(UpdateDto(old(editedUser).value)) && call.Some? && !loading
      ensures old(CanSave()) && IsAuthenticated(old(storage.items)) ==>
        |call.value.requests| >= 1 &&
        call.value.requests[0] == Request(Put, ApiUrlFor("/user/" + Json.Get(old(user).value, "id").value), GetAuthToken(old(storage.items)))
      ensures old(CanSave()) ==>
        call == Some(AuthService.ApiCall(old(storage.items), "/user/" + Json.Get(old(user).value, "id").value, Put, outcome))
      ensures old(CanSave()) && call.value.result.Err? ==> storage.items == AuthService.ApiStore(old(storage.items), outcome)
      ensures old(CanSave()) && call.value.result.Err? ==>
        error == SaveErrorMessage(call.value.result.message) &&
        user == old(user) && editedUser == old(editedUser) && isEditing == old(isEditing)
      ensures old(CanSave()) && call.value.result.Ok? ==>
        IsAuthenticated(old(storage.items)) && outcome.Received? && IsOk(outcome.response.status) &&
        user == Some(call.value.result.value) && editedUser == user && !isEditing
      ensures old(CanSave()) && call.value.result.Ok? && Json.Get(call.value.result.value, "name") == Json.Get(old(user).value, "name") ==>
        storage.items == old(storage.items) && error == ""
      ensures old(CanSave()) && call.value.result.Ok? && Json.Get(call.value.result.value, "name") != Json.Get(old(user).value, "name") ==>
        var renamed := RenameStoredUser(old(storage.items), Json.Get(call.value.result.value, "name"));
        (renamed.Some? ==> storage.items == renamed.value && error == "") &&
        (renamed.None? ==> storage.items == old(storage.items) && error == SaveFailedMessage)
    {
      if !CanSave() {
        return None, None;
      }
      var previous := user.value;
      loading := true;
      error := "";
      var body := UpdateDto(editedUser.value);
      dto := Some(body);
      var c := AuthService.ApiRequest(storage, "/user/" + Json.Get(previous, "id").value, Put, outcome);
      call := Some(c);
      if c.result.Err? {
        error := SaveErrorMessage(c.result.message);
        loading := false;
        return;
      }
      var updated := c.result.value;
      user := Some(updated);
      editedUser := Some(updated);
      isEditing := false;
      var newName := Json.Get(updated, "name");
      if newName != Json.Get(previous, "name") {
        match StoredUserOrEmpty(storage.items)
        case None =>
          // `JSON.parse` threw; its SyntaxError names neither known cause.
          error := SaveFailedMessage;
        case Some(current) =>
          storage.SetItem(UserInfoKey, Json.Serialize(MergeName(current, newName)));
      }
      loading := false;
    }
  }
}
