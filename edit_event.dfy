/** The "edit event" form: the event is loaded into an editable copy, checked
    more leniently than at creation, and saved, optionally with a new cover. */
module EditEvent {

  import opened Wrappers
  import opened JsText
  import opened GroupPostService
  import opened CreateEvent

  /** A loaded event: its id and the fields the form edits. */
  datatype EventDraft = EventDraft(id: string, form: EventForm)

  const TitleDateMessage: string := "Title and date are required."

  /** The error `onSubmit` shows, or None when the event may be saved: only the
      title and the date are required, then the same place check as creation. */
  function EditValidationError(f: EventForm): (r: Option<string>)
    ensures r.None? <==> f.title != "" && f.date != "" && PlaceError(f.eventType, f.meetingLink, f.location).None?
    ensures f.title == "" || f.date == "" ==> r == Some(TitleDateMessage)
    ensures f.title != "" && f.date != "" ==> r == PlaceError(f.eventType, f.meetingLink, f.location)
  {
    if f.title == "" || f.date == "" then Some(TitleDateMessage)
    else PlaceError(f.eventType, f.meetingLink, f.location)
  }

  /** Every event the create form accepts, the edit form accepts too; the
      converse fails, for instance for an event without a description. */
  lemma EditAcceptsWhatCreateAccepts(f: EventForm)
    ensures CreateValidationError(f).None? ==> EditValidationError(f).None?
    ensures var g := f.(title := "t", date := "d", description := "", eventType := "Hybrid");
      EditValidationError(g).None? && CreateValidationError(g) == Some(RequiredMessage)
  {
  }

  /** The data `saveEvent(url)` sends: the uploaded cover when a URL came back,
      the event's own cover otherwise. */
  function UpdateData(draft: EventDraft, coverUrl: string): (r: EventDraft)
    ensures r.id == draft.id && r.form.(coverImageUrl := draft.form.coverImageUrl) == draft.form
    ensures coverUrl != "" ==> r.form.coverImageUrl == coverUrl
    ensures coverUrl == "" ==> r == draft
  {
    draft.(form := draft.form.(coverImageUrl := Or(coverUrl, draft.form.coverImageUrl)))
  }

  /** A request the form sent. */
  datatype EditRequest =
    | LoadRequest(eventId: string)
    | UploadCover(file: FileInfo)
    | UpdateRequest(eventId: string, data: EventDraft)

  class EditEventComponent {
    /** Absent until the event has loaded. */
    var event: Option<EventDraft>
    var loading: bool
    var error: string
    var success: bool
    var coverImageFile: Option<FileInfo>
    var requests: seq<EditRequest>
    var navigations: seq<seq<string>>

    /** The form for the route's `id`; `ngOnInit` requests that event. */
    constructor(routeId: string)
      ensures event.None? && loading && error == "" && !success && coverImageFile.None?
      ensures requests == [LoadRequest(routeId)] && navigations == []
    {
      event := None;
      loading := true;
      error := "";
      success := false;
      coverImageFile := None;
      requests := [LoadRequest(routeId)];
      navigations := [];
    }

    method OnEventLoaded(loaded: EventDraft)
      modifies this`event, this`loading
      ensures event == Some(loaded) && !loading
    {
      event := Some(loaded);
      loading := false;
    }

    method OnEventLoadError(serverMessage: string)
      modifies this`error, this`loading
      ensures error == Or(serverMessage, "Event not found.") && !loading
    {
      error := Or(serverMessage, "Event not found.");
      loading := false;
    }

    method OnFileChange(file: Option<FileInfo>)
      modifies this`coverImageFile
      ensures file.Some? ==> coverImageFile == file
      ensures file.None? ==> coverImageFile == old(coverImageFile)
    {
      if file.Some? {
        coverImageFile := file;
      }
    }

    /** `onSubmit` on the loaded event: a refused form shows why; an accepted one
        uploads the cover first when one was picked, else saves at once. */
    method OnSubmit()
      requires event.Some?
      modifies this`error, this`success, this`loading, this`requests
      ensures !success
      ensures EditValidationError(event.value.form).Some? ==>
        error == EditValidationError(event.value.form).value && loading == old(loading) && requests == old(requests)
      ensures EditValidationError(event.value.form).None? ==> error == "" && loading
      ensures EditValidationError(event.value.form).None? && coverImageFile.Some? ==>
        requests == old(requests) + [UploadCover(coverImageFile.value)]
      ensures EditValidationError(event.value.form).None? && coverImageFile.None? ==>
        requests == old(requests) + [UpdateRequest(event.value.id, UpdateData(event.value, ""))]
    {
      error := "";
      success := false;
      var refusal := EditValidationError(event.value.form);
      if refusal.Some? {
        error := refusal.value;
        return;
      }
      loading := true;
      if coverImageFile.Some? {
        requests := requests + [UploadCover(coverImageFile.value)];
      } else {
        requests := requests + [UpdateRequest(event.value.id, UpdateData(event.value, ""))];
      }
    }

    /** The cover was uploaded; `url` is "" when the answer carries none. */
    method OnCoverUploaded(url: string)
      requires event.Some?
      modifies this`requests
      ensures requests == old(requests) + [UpdateRequest(event.value.id, UpdateData(event.value, url))]
    {
      requests := requests + [UpdateRequest(event.value.id, UpdateData(event.value, url))];
    }

    method OnCoverUploadError()
      modifies this`loading, this`error
      ensures !loading && error == UploadFailedMessage
    {
      loading := false;
      error := UploadFailedMessage;
    }

    method OnSaved()
      modifies this`loading, this`success
      ensures !loading && success
    {
      loading := false;
      success := true;
    }

    /** The redirect 1.2 seconds after a successful save. */
    method OnRedirectTimer()
      modifies this`navigations
      ensures navigations == old(navigations) + [["/my-events"]]
    {
      navigations := navigations + [["/my-events"]];
    }

    method OnSaveError(serverMessage: string)
      modifies this`loading, this`error
      ensures !loading && error == Or(serverMessage, "Failed to update event.")
    {
      loading := false;
      error := Or(serverMessage, "Failed to update event.");
    }
  }
}
