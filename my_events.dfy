/** The "my events" page: the events a member created, or the events where the
    member answered "Going" or "Interested", with cancelling and reporting. */
module MyEvents {

  import opened Wrappers
  import opened JsText
  import opened Utils
  import opened Events

  datatype Tab = Created | Going | Interested

  /** The answer a tab lists; any tab other than "going" asks for "Interested". */
  function TabStatus(tab: Tab): (r: string)
    ensures tab.Going? <==> r == "Going"
    ensures !tab.Going? <==> r == "Interested"
  {
    if tab.Going? then "Going" else "Interested"
  }

  /** The event has an attendee list holding an answer of `status` by `userId`. */
  predicate Attends(e: Event, userId: string, status: string) {
    e.attendees.Some? && exists a :: a in e.attendees.value && a.userId == userId && a.status == status
  }

  /** `events.filter(...)` with that test: exactly the events the user attends
      with that answer, each as often as it occurs in the list. */
  function AttendedBy(events: seq<Event>, userId: string, status: string): (r: seq<Event>)
    ensures |r| <= |events|
    ensures forall e :: e in r <==> e in events && Attends(e, userId, status)
    ensures forall e :: multiset(r)[e] == if Attends(e, userId, status) then multiset(events)[e] else 0
  {
    FilterMultiplicity(events, (e: Event) => Attends(e, userId, status));
    Filter(events, (e: Event) => Attends(e, userId, status))
  }

  /** The filter keeps the list's order: it distributes over concatenation and
      keeps a single event exactly when the user attends it with that answer. */
  lemma AttendedByInOrder(a: seq<Event>, b: seq<Event>, x: Event, userId: string, status: string)
    ensures AttendedBy(a + b, userId, status) == AttendedBy(a, userId, status) + AttendedBy(b, userId, status)
    ensures AttendedBy([x], userId, status) == if Attends(x, userId, status) then [x] else []
  {
    FilterAppend(a, b, (e: Event) => Attends(e, userId, status));
    FilterSingle(x, (e: Event) => Attends(e, userId, status));
  }

  /** Filtering an already filtered list changes nothing. */
  lemma AttendedByIdempotent(events: seq<Event>, userId: string, status: string)
    ensures AttendedBy(AttendedBy(events, userId, status), userId, status) == AttendedBy(events, userId, status)
  {
    FilterIdempotent(events, (e: Event) => Attends(e, userId, status));
  }

  /** The filter keeps exactly the list when every event passes it. */
  lemma AttendedByAll(events: seq<Event>, userId: string, status: string)
    ensures AttendedBy(events, userId, status) == events
        <==> forall k :: 0 <= k < |events| ==> Attends(events[k], userId, status)
  {
    FilterKeepsAll(events, (e: Event) => Attends(e, userId, status));
  }

  const CoverFallback: string := "/assets/parentimg.png"

  /** `getCoverImageUrl`: the resolved cover, the parent-picture asset when there is none. */
  function CoverImageUrl(e: Event): (r: string)
    ensures r != ""
    ensures e.coverImageUrl == "" ==> r == CoverFallback
    ensures e.coverImageUrl != "" ==> EndsWith(r, e.coverImageUrl)
  {
    ResolveImageUrl(e.coverImageUrl, CoverFallback)
  }

  /** `getHostAvatarUrl`: the resolved avatar, the default user picture when there is none. */
  function HostAvatarUrl(avatar: string): (r: string)
    ensures r != ""
    ensures avatar == "" ==> r == DefaultAvatar
    ensures avatar != "" ==> EndsWith(r, avatar)
  {
    ResolveImageUrl(avatar, DefaultAvatar)
  }

  /** A request the page sent. */
  datatype Request =
    | UserEventsRequest(userId: string)
    | AllEventsRequest
    | CancelRequest(eventId: string)
    | ReportRequest(eventId: string, reason: string)

  class MyEventsComponent {
    /** Set by the page's tab buttons. */
    var tab: Tab
    var events: seq<Event>
    var loading: bool
    var error: string
    var userId: string
    var alerts: seq<string>
    /** Addresses the page assigned to `window.location`, oldest first. */
    var locations: seq<string>
    /** How many times the page went back in the browser history. */
    var historyBacks: nat
    var requests: seq<Request>

    constructor()
      ensures tab == Created && events == [] && !loading && error == "" && userId == ""
      ensures alerts == [] && locations == [] && historyBacks == 0 && requests == []
    {
      tab := Created;
      events := [];
      loading := false;
      error := "";
      userId := "";
      alerts := [];
      locations := [];
      historyBacks := 0;
      requests := [];
    }

    /** `ngOnInit`: the signed-in member's id ("" when signed out), then `fetchEvents`. */
    method Init(currentUserId: string)
      modifies this`userId, this`loading, this`error, this`events, this`requests
      ensures userId == currentUserId && error == ""
      ensures currentUserId == "" ==> events == [] && !loading && requests == old(requests)
      ensures currentUserId != "" && tab.Created? ==>
        loading && events == old(events) && requests == old(requests) + [UserEventsRequest(currentUserId)]
      ensures currentUserId != "" && !tab.Created? ==>
        loading && events == old(events) && requests == old(requests) + [AllEventsRequest]
    {
      userId := currentUserId;
      FetchEvents();
    }

    /** `fetchEvents`: nothing is requested without a member; the created tab asks
        for the member's events, the other tabs for all events. */
    method FetchEvents()
      modifies this`loading, this`error, this`events, this`requests
      ensures error == ""
      ensures userId == "" ==> events == [] && !loading && requests == old(requests)
      ensures userId != "" && tab.Created? ==>
        loading && events == old(events) && requests == old(requests) + [UserEventsRequest(userId)]
      ensures userId != "" && !tab.Created? ==>
        loading && events == old(events) && requests == old(requests) + [AllEventsRequest]
    {
      loading := true;
      error := "";
      if userId == "" {
        events := [];
        loading := false;
        return;
      }
      if tab.Created? {
        requests := requests + [UserEventsRequest(userId)];
      } else {
        requests := requests + [AllEventsRequest];
      }
    }

    method OnUserEventsLoaded(loaded: seq<Event>)
      modifies this`events, this`loading
      ensures events == loaded && !loading
    {
      events := loaded;
      loading := false;
    }

    /** All events arrived: only those the member answered with the status of the
        tab shown when they arrive are kept. */
    method OnAllEventsLoaded(loaded: seq<Event>)
      modifies this`events, this`loading
      ensures events == AttendedBy(loaded, userId, TabStatus(tab)) && !loading
    {
      events := AttendedBy(loaded, userId, TabStatus(tab));
      loading := false;
    }

    method OnEventsError(serverMessage: string)
      modifies this`error, this`loading
      ensures error == Or(serverMessage, "Failed to load events.") && !loading
    {
      error := Or(serverMessage, "Failed to load events.");
      loading := false;
    }

    /** `editEvent`: the browser is sent to the event's edit page. */
    method EditEvent(e: Event)
      modifies this`locations
      ensures locations == old(locations) + ["/edit-event/" + e.id]
    {
      locations := locations + ["/edit-event/" + e.id];
    }

    /** `cancelEvent`, once the member has answered the confirmation. */
    method CancelEvent(e: Event, confirmed: bool)
      modifies this`requests
      ensures !confirmed ==> requests == old(requests)
      ensures confirmed ==> requests == old(requests) + [CancelRequest(e.id)]
    {
      if !confirmed {
        return;
      }
      requests := requests + [CancelRequest(e.id)];
    }

    /** The cancel succeeded for the event shown at index `k`: that event is
        marked cancelled; nothing else changes, and nothing at all when the
        event is no longer shown. */
    method OnEventCancelled(k: int)
      modifies this`events
      ensures |events| == |old(events)|
      ensures 0 <= k < |events| ==> events == old(events)[k := old(events)[k].(isCancelled := true)]
      ensures !(0 <= k < |events|) ==> events == old(events)
    {
      if 0 <= k < |events| {
        events := events[k := events[k].(isCancelled := true)];
      }
    }

    method OnCancelError(serverMessage: string)
      modifies this`error
      ensures error == Or(serverMessage, "Failed to cancel event.")
    {
      error := Or(serverMessage, "Failed to cancel event.");
    }

    /** `reportEvent`, once the member has answered the prompt (None when it was
        dismissed); an empty reason reports nothing. */
    method ReportEvent(e: Event, reason: Option<string>)
      modifies this`requests
      ensures reason.None? || reason.value == "" ==> requests == old(requests)
      ensures reason.Some? && reason.value != "" ==> requests == old(requests) + [ReportRequest(e.id, reason.value)]
    {
      if reason.None? || reason.value == "" {
        return;
      }
      requests := requests + [ReportRequest(e.id, reason.value)];
    }

    method OnReported()
      modifies this`alerts
      ensures alerts == old(alerts) + ["Event reported. Thank you!"]
    {
      alerts := alerts + ["Event reported. Thank you!"];
    }

    method OnReportError(serverMessage: string)
      modifies this`alerts
      ensures alerts == old(alerts) + [Or(serverMessage, "Failed to report event.")]
    {
      alerts := alerts + [Or(serverMessage, "Failed to report event.")];
    }

    /** `goBack`: back in the browser history when there is one, else to the profile. */
    method GoBack(historyLength: int)
      modifies this`historyBacks, this`locations
      ensures historyLength > 1 ==> historyBacks == old(historyBacks) + 1 && locations == old(locations)
      ensures historyLength <= 1 ==> historyBacks == old(historyBacks) && locations == old(locations) + ["/profile"]
    {
      if historyLength > 1 {
        historyBacks := historyBacks + 1;
      } else {
        locations := locations + ["/profile"];
      }
    }
  }
}
