/**
 * The exam form dialog: its data (top-level text fields plus a chosen
 * schedule and room), how it is filled from the record being edited, the
 * handlers for the text inputs and the two selects, and the check on submit.
 */
module ExamForm {
  import opened Wrappers
  import opened Text
  import opened Seqs
  import Json

  datatype Schedule = Schedule(scheduleId: string, startTime: string, endTime: string, name: string)
  datatype Room = Room(roomId: string, name: string, building: string)

  const NoSchedule: Schedule := Schedule("", "", "", "")
  const NoRoom: Room := Room("", "", "")

  /** The form: the top-level properties, in the order they were first set, and the chosen schedule and room. */
  datatype FormData = FormData(fields: Json.Object, schedule: Schedule, room: Room)

  /** A schedule or room given with the record being edited; any property may be missing. */
  datatype PartialSchedule = PartialSchedule(scheduleId: Option<string>, startTime: Option<string>, endTime: Option<string>, name: Option<string>)
  datatype PartialRoom = PartialRoom(roomId: Option<string>, name: Option<string>, building: Option<string>)

  /** `initialData`: the top-level properties of the record, and its schedule and room if present. */
  datatype InitialData = InitialData(fields: Json.Object, schedule: Option<PartialSchedule>, room: Option<PartialRoom>)

  /** `x || ''` for an optional text property. */
  function OrEmpty(x: Option<string>): (r: string)
    ensures x.Some? ==> r == x.value
    ensures x.None? ==> r == ""
  {
    OrElse(x.GetOr(""), "")
  }

  /** The form for a new record; `today` is the date part of the current time. */
  function EmptyForm(today: string): FormData {
    FormData([("name", ""), ("date", today), ("subject", ""), ("semester", "")], NoSchedule, NoRoom)
  }

  /**
   * The form data when the dialog opens: the empty form without a record;
   * otherwise the record's own properties, with schedule and room completed
   * property by property (a missing one becomes "").
   */
  function Normalize(initial: Option<InitialData>, today: string): (f: FormData)
    ensures initial.None? ==> f == EmptyForm(today)
    ensures initial.Some? ==> f.fields == initial.value.fields
    ensures initial.Some? && initial.value.schedule.None? ==> f.schedule == NoSchedule
    ensures initial.Some? && initial.value.room.None? ==> f.room == NoRoom
    ensures initial.Some? && initial.value.schedule.Some? ==>
      var s := initial.value.schedule.value;
      f.schedule == Schedule(s.scheduleId.GetOr(""), s.startTime.GetOr(""), s.endTime.GetOr(""), s.name.GetOr(""))
    ensures initial.Some? && initial.value.room.Some? ==>
      var r := initial.value.room.value;
      f.room == Room(r.roomId.GetOr(""), r.name.GetOr(""), r.building.GetOr(""))
  {
    match initial
    case None => EmptyForm(today)
    case Some(data) =>
      var schedule := match data.schedule
        case None => NoSchedule
        case Some(s) => Schedule(OrEmpty(s.scheduleId), OrEmpty(s.startTime), OrEmpty(s.endTime), OrEmpty(s.name));
      var room := match data.room
        case None => NoRoom
        case Some(r) => Room(OrEmpty(r.roomId), OrEmpty(r.name), OrEmpty(r.building));
      FormData(data.fields, schedule, room)
  }

  /** The record a form describes, with every property present. */
  function AsInitialData(f: FormData): InitialData {
    InitialData(f.fields,
      Some(PartialSchedule(Some(f.schedule.scheduleId), Some(f.schedule.startTime), Some(f.schedule.endTime), Some(f.schedule.name))),
      Some(PartialRoom(Some(f.room.roomId), Some(f.room.name), Some(f.room.building))))
  }

  /** Opening the dialog on the record of a form gives that form back, whatever the date. */
  lemma NormalizeRoundTrip(f: FormData, today: string)
    ensures Normalize(Some(AsInitialData(f)), today) == f
  {
  }

  /** Normalising removes every gap: a record with no schedule and one whose schedule has only empty properties open alike. */
  lemma NormalizeFillsGaps(fields: Json.Object, room: Option<PartialRoom>, today: string)
    ensures Normalize(Some(InitialData(fields, None, room)), today) ==
      Normalize(Some(InitialData(fields, Some(PartialSchedule(None, Some(""), None, Some(""))), room)), today)
  {
  }

  const NoScheduleMessage: string := "Vui lòng chọn ca thi"
  const NoRoomMessage: string := "Vui lòng chọn phòng thi"

  /** What `handleSubmit` does: an alert, or `onSubmit(formData)`. */
  datatype Submission = Alert(message: string) | Submitted(data: FormData)

  class ExamFormModal {
    var formData: FormData
    var schedules: seq<Schedule>
    var rooms: seq<Room>
    /** The dialog starts with the empty form for `today`, the date part of the clock at creation. */
    constructor (today: string)
      ensures formData == EmptyForm(today)
      ensures schedules == [] && rooms == []
    {
      formData := EmptyForm(today);
      schedules := [];
      rooms := [];
    }

    /**
     * The effect run when the dialog opens or its record changes; `today` is
     * the date part of the clock read by that run.
     */
    method Open(initial: Option<InitialData>, today: string)
      modifies this
      ensures formData == Normalize(initial, today)
      ensures schedules == old(schedules) && rooms == old(rooms)
    {
      formData := Normalize(initial, today);
    }

    /**
     * `handleInputChange`: an input whose name has no '.' sets that property;
     * a dotted name is ignored. The inputs of the dialog are named `name`,
     * `subject`, `semester` and `date`, never `schedule` or `room`.
     */
    method HandleInputChange(name: string, value: string)
      requires name != "schedule" && name != "room"
      modifies this
      ensures !Contains(name, ".") ==> formData == old(formData).(fields := Json.Set(old(formData).fields, name, value))
      ensures !Contains(name, ".") ==> Json.Get(formData.fields, name) == Some(value)
      ensures Contains(name, ".") ==> formData == old(formData)
      ensures forall k | k != name :: Json.Get(formData.fields, k) == Json.Get(old(formData).fields, k)
      ensures formData.schedule == old(formData.schedule) && formData.room == old(formData.room)
      ensures schedules == old(schedules) && rooms == old(rooms)
    {
      if !Contains(name, ".") {
        forall k ensures Json.Get(Json.Set(formData.fields, name, value), k) == if k == name then Some(value) else Json.Get(formData.fields, k) {
          Json.SetGet(formData.fields, name, value, k);
        }
        formData := formData.(fields := Json.Set(formData.fields, name, value));
      }
    }

    /**
     * `handleScheduleChange`: an empty choice clears the schedule; otherwise
     * the first schedule with that id is copied in, and an unknown id
     * changes nothing.
     */
    method HandleScheduleChange(selectedId: string)
      modifies this
      ensures formData.fields == old(formData.fields) && formData.room == old(formData.room)
      ensures selectedId == "" ==> formData.schedule == NoSchedule
      ensures selectedId != "" && (forall i | 0 <= i < |schedules| :: schedules[i].scheduleId != selectedId) ==> formData == old(formData)
      ensures selectedId != "" && (exists i | 0 <= i < |schedules| :: schedules[i].scheduleId == selectedId) ==>
        formData.schedule.scheduleId == selectedId &&
        exists i | 0 <= i < |schedules| :: formData.schedule == schedules[i] && forall j | 0 <= j < i :: schedules[j].scheduleId != selectedId
      ensures schedules == old(schedules) && rooms == old(rooms)
    {
      if selectedId == "" {
        formData := formData.(schedule := NoSchedule);
        return;
      }
      var found := FindIndex(schedules, (s: Schedule) => s.scheduleId == selectedId);
      if found.Some? {
        var s := schedules[found.value];
        formData := formData.(schedule := Schedule(s.scheduleId, s.startTime, s.endTime, s.name));
        assert schedules[found.value].scheduleId == selectedId;
      }
    }

    /** `handleRoomChange`: the same three cases for rooms. */
    method HandleRoomChange(selectedId: string)
      modifies this
      ensures formData.fields == old(formData.fields) && formData.schedule == old(formData.schedule)
      ensures selectedId == "" ==> formData.room == NoRoom
      ensures selectedId != "" && (forall i | 0 <= i < |rooms| :: rooms[i].roomId != selectedId) ==> formData == old(formData)
      ensures selectedId != "" && (exists i | 0 <= i < |rooms| :: rooms[i].roomId == selectedId) ==>
        formData.room.roomId == selectedId &&
        exists i | 0 <= i < |rooms| :: formData.room == rooms[i] && forall j | 0 <= j < i :: rooms[j].roomId != selectedId
      ensures schedules == old(schedules) && rooms == old(rooms)
    {
      if selectedId == "" {
        formData := formData.(room := NoRoom);
        return;
      }
      var found := FindIndex(rooms, (r: Room) => r.roomId == selectedId);
      if found.Some? {
        var r := rooms[found.value];
        formData := formData.(room := Room(r.roomId, r.name, r.building));
        assert rooms[found.value].roomId == selectedId;
      }
    }

    /** `handleSubmit`: the form is submitted iff a schedule and a room are chosen; a missing schedule is reported first. */
    function HandleSubmit(): (r: Submission)
      reads this
      ensures r.Submitted? <==> formData.schedule.scheduleId != "" && formData.room.roomId != ""
      ensures r.Submitted? ==> r.data == formData
      ensures r == Alert(NoScheduleMessage) <==> formData.schedule.scheduleId == ""
      ensures r == Alert(NoRoomMessage) <==> formData.schedule.scheduleId != "" && formData.room.roomId == ""
    {
      if formData.schedule.scheduleId == "" then Alert(NoScheduleMessage)
      else if formData.room.roomId == "" then Alert(NoRoomMessage)
      else Submitted(formData)
    }
  }

  /** A dialog showing the form for a new record cannot be submitted: it alerts that no schedule is chosen. */
  lemma EmptyFormIsRejected(m: ExamFormModal, today: string)
    requires m.formData == EmptyForm(today)
    ensures m.HandleSubmit() == Alert(NoScheduleMessage)
    ensures !m.HandleSubmit().Submitted?
  {
    assert EmptyForm(today).schedule.scheduleId == "";
  }
}
