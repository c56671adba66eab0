/** The "create event" form: required fields, a meeting link for online events
    and a location for offline ones, an optional cover image uploaded first, and
    the date and time combined before the event is sent. */
module CreateEvent {

  import opened Wrappers
  import opened JsText
  import opened GroupPostService

  /** The form's fields, all text as the inputs bind them. */
  datatype EventForm = EventForm(
    title: string,
    description: string,
    date: string,
    time: string,
    eventType: string,
    meetingLink: string,
    location: string,
    category: string,
    maxAttendees: string,
    visibility: string,
    coverImageUrl: string,
    duration: string)

  /** The form as it opens, and as it is reset after a successful create. */
  const EmptyEventForm: EventForm := EventForm("", "", "", "", "Online", "", "", "", "", "Public", "", "")

  const RequiredMessage: string := "Please fill all required fields."
  const MeetingLinkMessage: string := "Meeting link is required for online events."
  const LocationMessage: string := "Location is required for offline events."
  const UploadFailedMessage: string := "Image upload failed."

  /** The check both event forms make after their own required fields: an online
      event needs a meeting link, an offline one a location; any other type needs
      neither. */
  function PlaceError(eventType: string, meetingLink: string, location: string): (r: Option<string>)
    ensures r.None? <==> (eventType == "Online" ==> meetingLink != "") && (eventType == "Offline" ==> location != "")
    ensures eventType == "Online" && meetingLink == "" ==> r == Some(MeetingLinkMessage)
    ensures eventType == "Offline" && location == "" ==> r == Some(LocationMessage)
  {
    if eventType == "Online" && meetingLink == "" then Some(MeetingLinkMessage)
    else if eventType == "Offline" && location == "" then Some(LocationMessage)
    else None
  }

  /** Every field the create form requires is filled. */
  predicate RequiredFilled(f: EventForm) {
    f.title != "" && f.description != "" && f.date != "" && f.time != "" && f.eventType != ""
    && f.category != "" && f.visibility != "" && f.duration != ""
  }

  /** The error `onSubmit` shows, or None when the event may be sent: missing
      required fields are reported before the place. */
  function CreateValidationError(f: EventForm): (r: Option<string>)
    ensures r.None? <==> RequiredFilled(f) && PlaceError(f.eventType, f.meetingLink, f.location).None?
    ensures !RequiredFilled(f) ==> r == Some(RequiredMessage)
    ensures RequiredFilled(f) ==> r == PlaceError(f.eventType, f.meetingLink, f.location)
  {
    if !RequiredFilled(f) then Some(RequiredMessage)
    else PlaceError(f.eventType, f.meetingLink, f.location)
  }

  /** The untouched form is refused, whatever else is filled in later: it lacks
      the required fields. */
  lemma EmptyFormRefused()
    ensures CreateValidationError(EmptyEventForm) == Some(RequiredMessage)
    ensures CreateValidationError(EmptyEventForm.(title := "t", description := "d", date := "2025-01-01",
                                                  time := "10:00", category := "c", duration := "1h"))
            == Some(MeetingLinkMessage)
  {
  }

  /** The data `createEventWithImage(url)` sends: the uploaded cover when a URL
      came back, and the date replaced by the instant `combine` builds from the
      date and the time (the browser's time zone decides it) when both are set. */
  function SubmittedData(f: EventForm, coverUrl: string, combine: (string, string) -> string): (r: EventForm)
    ensures r.(date := f.date, coverImageUrl := f.coverImageUrl) == f
    ensures r.coverImageUrl == Or(coverUrl, f.coverImageUrl)
    ensures f.date != "" && f.time != "" ==> r.date == combine(f.date, f.time)
    ensures f.date == "" || f.time == "" ==> r.date == f.date
  {
    var withCover := if coverUrl != "" then f.(coverImageUrl := coverUrl) else f;
    if withCover.date != "" && withCover.time != "" then withCover.(date := combine(withCover.date, withCover.time))
    else withCover
  }

  /** A request the form sent. */
  datatype Request =
    | CoverUploadRequest(file: FileInfo)
    | CreateRequest(data: EventForm)

  class CreateEventComponent {
    /** How the browser turns a date and a time into an instant. */
    const combine: (string, string) -> string
    var form: EventForm
    var loading: bool
    var error: string
    var success: bool
    var coverImageFile: Option<FileInfo>
    var imagePreview: Option<string>
    var requests: seq<Request>
    var navigations: seq<seq<string>>

    constructor(combine: (string, string) -> string)
      ensures this.combine == combine && form == EmptyEventForm
      ensures !loading && error == "" && !success && coverImageFile.None? && imagePreview.None?
      ensures requests == [] && navigations == []
    {
      this.combine := combine;
      form := EmptyEventForm;
      loading := false;
      error := "";
      success := false;
      coverImageFile := None;
      imagePreview := None;
      requests := [];
      navigations := [];
    }

    /** `onFileChange` for the first picked file, if any; its preview arrives later. */
    method OnFileChange(file: Option<FileInfo>)
      modifies this`coverImageFile
      ensures file.Some? ==> coverImageFile == file
      ensures file.None? ==> coverImageFile == old(coverImageFile)
    {
      if file.Some? {
        coverImageFile := file;
      }
    }

    method OnPreviewReady(dataUrl: string)
      modifies this`imagePreview
      ensures imagePreview == Some(dataUrl)
    {
      imagePreview := Some(dataUrl);
    }

    /** `onSubmit`: a refused form shows why; an accepted one uploads the cover
        first when one was picked, else sends the event at once. */
    method OnSubmit()
      modifies this`error, this`success, this`loading, this`requests
      ensures !success
      ensures CreateValidationError(form).Some? ==>
        error == CreateValidationError(form).value && loading == old(loading) && requests == old(requests)
      ensures CreateValidationError(form).None? ==> error == "" && loading
      ensures CreateValidationError(form).None? && coverImageFile.Some? ==>
        requests == old(requests) + [CoverUploadRequest(coverImageFile.value)]
      ensures CreateValidationError(form).None? && coverImageFile.None? ==>
        requests == old(requests) + [CreateRequest(SubmittedData(form, "", combine))]
    {
      error := "";
      success := false;
      var refusal := CreateValidationError(form);
      if refusal.Some? {
        error := refusal.value;
        return;
      }
      loading := true;
      if coverImageFile.Some? {
        requests := requests + [CoverUploadRequest(coverImageFile.value)];
      } else {
        requests := requests + [CreateRequest(SubmittedData(form, "", combine))];
      }
    }

    /** The cover was uploaded; `url` is "" when the answer carries none. */
    method OnCoverUploaded(url: string)
      modifies this`requests
      ensures requests == old(requests) + [CreateRequest(SubmittedData(form, url, combine))]
    {
      requests := requests + [CreateRequest(SubmittedData(form, url, combine))];
    }

    method OnCoverUploadError()
      modifies this`loading, this`error
      ensures !loading && error == UploadFailedMessage
    {
      loading := false;
      error := UploadFailedMessage;
    }

    /** A created event resets the form and forgets the picked cover. */
    method OnCreated()
      modifies this`loading, this`success, this`error, this`form, this`coverImageFile, this`imagePreview
      ensures !loading && success && error == ""
      ensures form == EmptyEventForm && coverImageFile.None? && imagePreview.None?
    {
      loading := false;
      success := true;
      error := "";
      form := EmptyEventForm;
      coverImageFile := None;
      imagePreview := None;
    }

    method OnCreateError(serverMessage: string)
      modifies this`loading, this`error
      ensures !loading && error == Or(serverMessage, "Failed to create event.")
    {
      loading := false;
      error := Or(serverMessage, "Failed to create event.");
    }

    method GoBack()
      modifies this`navigations
      ensures navigations == old(navigations) + [["/events"]]
    {
      navigations := navigations + [["/events"]];
    }
  }
}
