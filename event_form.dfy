/**
 * The event editor: the form's record of event fields, its defaults, the
 * field-wise fallback applied to a loaded record, single-field edits, the
 * choice between creating and updating, and the loading and error flags.
 */
module EventForm {
  import opened Js

  /** The form's data, one string per field. */
  datatype EventData = EventData(
    title: string,
    description: string,
    date: string,
    time: string,
    timeZone: string,
    location: string,
    locationDetails: string,
    eventType: string,
    tags: string)

  /** The names of the form's fields. */
  datatype Field = Title | Description | Date | Time | TimeZone | Location | LocationDetails | EventType | Tags

  /** Every field of the form. */
  const AllFields: set<Field> := {Title, Description, Date, Time, TimeZone, Location, LocationDetails, EventType, Tags}

  /** AllFields lists every field. */
  lemma AllFieldsComplete()
    ensures forall f: Field :: f in AllFields
  {
    forall f: Field ensures f in AllFields {
      match f {
        case Title =>
        case Description =>
        case Date =>
        case Time =>
        case TimeZone =>
        case Location =>
        case LocationDetails =>
        case EventType =>
        case Tags =>
      }
    }
  }

  /** `formData[field]` */
  function Get(d: EventData, f: Field): string {
    match f
    case Title => d.title
    case Description => d.description
    case Date => d.date
    case Time => d.time
    case TimeZone => d.timeZone
    case Location => d.location
    case LocationDetails => d.locationDetails
    case EventType => d.eventType
    case Tags => d.tags
  }

  /** Two form records that agree on every field are equal. */
  lemma {:induction false} Extensionality(a: EventData, b: EventData)
    requires forall f :: Get(a, f) == Get(b, f)
    ensures a == b
  {
    assert Get(a, Title) == Get(b, Title) && Get(a, Description) == Get(b, Description);
    assert Get(a, Date) == Get(b, Date) && Get(a, Time) == Get(b, Time);
    assert Get(a, TimeZone) == Get(b, TimeZone) && Get(a, Location) == Get(b, Location);
    assert Get(a, LocationDetails) == Get(b, LocationDetails) && Get(a, EventType) == Get(b, EventType);
    assert Get(a, Tags) == Get(b, Tags);
  }

  /** The value a field starts with, and falls back to when a loaded record leaves it empty. */
  function Default(f: Field): (v: string)
    ensures f == TimeZone ==> v == "CST"
    ensures f == EventType ==> v == "meetup"
    ensures f != TimeZone && f != EventType ==> v == ""
  {
    match f
    case TimeZone => "CST"
    case EventType => "meetup"
    case _ => ""
  }

  /** The initial form: time zone "CST", type "meetup", every other field empty. */
  function InitialData(): (d: EventData)
    ensures forall f :: Get(d, f) == Default(f)
  {
    EventData("", "", "", "", "CST", "", "", "meetup", "")
  }

  /** handleChange's update `{ ...prev, [field]: value }`: one field replaced, the others kept. */
  function WithField(d: EventData, f: Field, v: string): (d': EventData)
    ensures Get(d', f) == v
    ensures forall g :: g != f ==> Get(d', g) == Get(d, g)
  {
    match f
    case Title => d.(title := v)
    case Description => d.(description := v)
    case Date => d.(date := v)
    case Time => d.(time := v)
    case TimeZone => d.(timeZone := v)
    case Location => d.(location := v)
    case LocationDetails => d.(locationDetails := v)
    case EventType => d.(eventType := v)
    case Tags => d.(tags := v)
  }

  /** The fields of a record returned by the backend; a missing key is an undefined field. */
  type EventRecord = map<Field, string>

  /** `record[field] || default` */
  function FieldOrDefault(rec: EventRecord, f: Field): (v: string)
    ensures f in rec && rec[f] != "" ==> v == rec[f]
    ensures !(f in rec && rec[f] != "") ==> v == Default(f)
  {
    if f in rec && rec[f] != "" then rec[f] else Default(f)
  }

  /** The form data built from a loaded record, field by field. */
  function FromRecord(rec: EventRecord): (d: EventData)
    ensures forall f :: Get(d, f) == FieldOrDefault(rec, f)
  {
    EventData(
      FieldOrDefault(rec, Title),
      FieldOrDefault(rec, Description),
      FieldOrDefault(rec, Date),
      FieldOrDefault(rec, Time),
      FieldOrDefault(rec, TimeZone),
      FieldOrDefault(rec, Location),
      FieldOrDefault(rec, LocationDetails),
      FieldOrDefault(rec, EventType),
      FieldOrDefault(rec, Tags))
  }

  /** The payload a submit sends: every form field with its value. */
  function ToRecord(d: EventData): (rec: EventRecord)
    ensures rec.Keys == AllFields
    ensures forall f :: f in rec && rec[f] == Get(d, f)
  {
    AllFieldsComplete();
    map f | f in AllFields :: Get(d, f)
  }

  /** Loading a record with no usable field gives the initial form. */
  lemma LoadEmptyRecord()
    ensures FromRecord(map[]) == InitialData()
  {
    Extensionality(FromRecord(map[]), InitialData());
  }

  /**
   * Loading back what the form would save gives the same data, provided the
   * time zone and the type are not empty (an empty one comes back as its
   * default).
   */
  lemma LoadSavedData(d: EventData)
    ensures FromRecord(ToRecord(d)) == d <==> d.timeZone != "" && d.eventType != ""
  {
    var d' := FromRecord(ToRecord(d));
    if d.timeZone != "" && d.eventType != "" {
      Extensionality(d', d);
    } else if d.timeZone == "" {
      assert Get(d', TimeZone) == "CST" != Get(d, TimeZone);
    } else {
      assert Get(d', EventType) == "meetup" != Get(d, EventType);
    }
  }

  /** Saving loaded data and loading it again changes nothing. */
  lemma ReloadIsStable(rec: EventRecord)
    ensures FromRecord(ToRecord(FromRecord(rec))) == FromRecord(rec)
  {
    var d := FromRecord(rec);
    assert Get(d, TimeZone) != "" && Get(d, EventType) != "";
    LoadSavedData(d);
  }

  const SavingLabel: string := "Saving..."
  const UpdateLabel: string := "Update Event"
  const CreateLabel: string := "Create Event"

  /** The submit button's label. */
  function SubmitLabel(isLoading: bool, eventId: Option<string>): (s: string)
    ensures isLoading ==> s == SavingLabel
    ensures !isLoading && Truthy(eventId) ==> s == UpdateLabel
    ensures !isLoading && !Truthy(eventId) ==> s == CreateLabel
  {
    if isLoading then SavingLabel else if Truthy(eventId) then UpdateLabel else CreateLabel
  }

  const LoadFailedMessage: string := "Failed to load event"
  const SaveFailedMessage: string := "Failed to save event"

  /** A call the form makes into the backend's events collection. */
  datatype Request = GetOne(id: string) | Create(data: EventData) | Update(id: string, data: EventData)

  /** The request a submit makes: an update of the given event, else a creation. */
  function SaveRequest(eventId: Option<string>, d: EventData): (r: Request)
    ensures Truthy(eventId) ==> r == Update(eventId.value, d)
    ensures !Truthy(eventId) ==> r == Create(d)
  {
    if Truthy(eventId) then Update(eventId.value, d) else Create(d)
  }

  /** When not saving, the button names the request a submit makes. */
  lemma LabelNamesRequest(eventId: Option<string>, d: EventData)
    ensures SubmitLabel(false, eventId) == UpdateLabel <==> SaveRequest(eventId, d).Update?
    ensures SubmitLabel(false, eventId) == CreateLabel <==> SaveRequest(eventId, d).Create?
  {
  }

  /** The component's state for one mounted form. */
  class Form {
    const eventId: Option<string>
    var formData: EventData
    var error: string
    var isLoading: bool
    var isLoadingEvent: bool
    var requests: seq<Request>

    /** The initial state: default data, no error, and the event-loading flag set exactly when an event id is given. */
    constructor (eventId: Option<string>)
      ensures this.eventId == eventId
      ensures formData == InitialData() && error == "" && !isLoading
      ensures isLoadingEvent == Truthy(eventId)
      ensures requests == []
    {
      this.eventId := eventId;
      formData := InitialData();
      error, isLoading := "", false;
      isLoadingEvent := Truthy(eventId);
      requests := [];
    }

    /**
     * loadEvent: fetches the event; on success the form takes the record's
     * fields with their fallbacks, on failure the error is set and the data
     * kept. Either way the event-loading flag ends false.
     */
    method LoadEvent(outcome: Outcome<EventRecord>)
      requires Truthy(eventId)
      modifies this`formData, this`error, this`isLoadingEvent, this`requests
      ensures requests == old(requests) + [GetOne(eventId.value)]
      ensures !isLoadingEvent
      ensures outcome.Returned? ==> formData == FromRecord(outcome.value) && error == old(error)
      ensures outcome.Threw? ==> formData == old(formData) && error == CaughtMessage(outcome.thrown, LoadFailedMessage)
    {
      requests := requests + [GetOne(eventId.value)];
      match outcome {
        case Returned(rec) =>
          formData := FromRecord(rec);
        case Threw(err) =>
          error := CaughtMessage(err, LoadFailedMessage);
      }
      isLoadingEvent := false;
    }

    /** The mount effect: the event is loaded only when an event id is given. */
    method Mount(outcome: Outcome<EventRecord>)
      modifies this`formData, this`error, this`isLoadingEvent, this`requests
      ensures Truthy(eventId) ==> requests == old(requests) + [GetOne(eventId.value)] && !isLoadingEvent
      ensures Truthy(eventId) && outcome.Returned? ==> formData == FromRecord(outcome.value) && error == old(error)
      ensures Truthy(eventId) && outcome.Threw? ==>
                formData == old(formData) && error == CaughtMessage(outcome.thrown, LoadFailedMessage)
      ensures !Truthy(eventId) ==> formData == old(formData) && error == old(error)
                                   && isLoadingEvent == old(isLoadingEvent) && requests == old(requests)
    {
      if Truthy(eventId) {
        LoadEvent(outcome);
      }
    }

    /**
     * handleSubmit: clears the error, sets the loading flag, makes exactly one
     * request (an update when an event id is given, else a creation), sets the
     * error if it fails, and clears the loading flag at the end.
     */
    method HandleSubmit(outcome: Outcome<()>)
      modifies this`error, this`isLoading, this`requests
      ensures requests == old(requests) + [SaveRequest(eventId, formData)]
      ensures !isLoading
      ensures outcome.Returned? ==> error == ""
      ensures outcome.Threw? ==> error == CaughtMessage(outcome.thrown, SaveFailedMessage)
    {
      error := "";
      isLoading := true;
      if Truthy(eventId) {
        requests := requests + [Update(eventId.value, formData)];
      } else {
        requests := requests + [Create(formData)];
      }
      if outcome.Threw? {
        error := CaughtMessage(outcome.thrown, SaveFailedMessage);
      }
      isLoading := false;
    }

    /** handleChange: sets one field and leaves the others as they were. */
    method HandleChange(f: Field, v: string)
      modifies this`formData
      ensures formData == WithField(old(formData), f, v)
      ensures Get(formData, f) == v
      ensures forall g :: g != f ==> Get(formData, g) == Get(old(formData), g)
    {
      formData := WithField(formData, f, v);
    }
  }
}
