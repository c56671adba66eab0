/** The public events feed: events filtered by category and type on the server,
    then ordered on the page by date, popularity or recency. */
module EventsFeed {

  import opened Wrappers
  import opened JsText
  import opened MediaUrls
  import opened Utils
  import opened StableSort
  import opened Events

  /** `attendees?.length || 0`: every answer counts, whatever its status. */
  function AttendeeCount(e: Event): (r: nat)
    ensures e.attendees.None? ==> r == 0
    ensures e.attendees.Some? ==> r == |e.attendees.value| && RsvpCount(e) <= r
  {
    if e.attendees.Some? then
      GoingCountBounded(e.attendees.value);
      |e.attendees.value|
    else 0
  }

  /** The sort keys: the comparators `a - b` on the date, `b - a` on the answer
      count and on the creation instant. */
  function DateKey(e: Event): int { e.date }
  function PopularityKey(e: Event): int { -(AttendeeCount(e) as int) }
  function RecencyKey(e: Event): int { -e.createdAt }

  /** The key `sortEvents` orders by; None for a name it does not know. */
  function SortKey(sortBy: string): Option<Event -> int> {
    if sortBy == "date" then Some(DateKey)
    else if sortBy == "popularity" then Some(PopularityKey)
    else if sortBy == "recent" then Some(RecencyKey)
    else None
  }

  /** The events after `sortEvents(sortBy)`: a stable sort by the chosen key; an
      unknown name leaves them as they are. */
  function SortedEvents(events: seq<Event>, sortBy: string): (r: seq<Event>)
    ensures multiset(r) == multiset(events)
    ensures SortKey(sortBy).None? ==> r == events
  {
    match SortKey(sortBy)
    case None => events
    case Some(key) => SortByKey(events, key)
  }

  /** Ordered by date ascending, by answer count descending, or by creation
      instant descending. */
  lemma SortedEventsOrdered(events: seq<Event>, sortBy: string)
    ensures var r := SortedEvents(events, sortBy);
      && (sortBy == "date" ==> forall i, j :: 0 <= i < j < |r| ==> r[i].date <= r[j].date)
      && (sortBy == "popularity" ==> forall i, j :: 0 <= i < j < |r| ==> AttendeeCount(r[i]) >= AttendeeCount(r[j]))
      && (sortBy == "recent" ==> forall i, j :: 0 <= i < j < |r| ==> r[i].createdAt >= r[j].createdAt)
  {
    var r := SortedEvents(events, sortBy);
    if sortBy == "date" {
      SortByKeySorted(events, DateKey);
      assert forall i, j :: 0 <= i < j < |r| ==> DateKey(r[i]) <= DateKey(r[j]);
    } else if sortBy == "popularity" {
      SortByKeySorted(events, PopularityKey);
      assert forall i, j :: 0 <= i < j < |r| ==> PopularityKey(r[i]) <= PopularityKey(r[j]);
    } else if sortBy == "recent" {
      SortByKeySorted(events, RecencyKey);
      assert forall i, j :: 0 <= i < j < |r| ==> RecencyKey(r[i]) <= RecencyKey(r[j]);
    }
  }

  /** Events with equal keys keep the order the server sent them in. */
  lemma SortedEventsStable(events: seq<Event>, sortBy: string, k: int)
    requires SortKey(sortBy).Some?
    ensures WithKey(SortedEvents(events, sortBy), SortKey(sortBy).value, k) == WithKey(events, SortKey(sortBy).value, k)
  {
    SortByKeyStable(events, SortKey(sortBy).value, k);
  }

  /** Sorting again by the same name changes nothing. */
  lemma SortedEventsIdempotent(events: seq<Event>, sortBy: string)
    ensures SortedEvents(SortedEvents(events, sortBy), sortBy) == SortedEvents(events, sortBy)
  {
    if SortKey(sortBy).Some? {
      SortByKeySorted(events, SortKey(sortBy).value);
      SortByKeyOfSorted(SortByKey(events, SortKey(sortBy).value), SortKey(sortBy).value);
    }
  }

  /** `getCoverImageUrl` as the page writes it out. */
  function FeedCoverImageUrl(cover: string): (r: string)
    ensures r == "" <==> cover == ""
    ensures EndsWith(r, cover)
  {
    if cover == "" then ""
    else if StartsWith(cover, "http") then cover
    else if StartsWith(cover, "/uploads") then "http://localhost:3000" + cover
    else if StartsWith(cover, "uploads") then "http://localhost:3000/" + cover
    else cover
  }

  /** `getHostAvatarUrl` as the page writes it out. */
  function FeedHostAvatarUrl(avatar: string): (r: string)
    ensures r != ""
    ensures avatar == "" ==> r == DefaultAvatar
    ensures avatar != "" ==> EndsWith(r, avatar)
  {
    if avatar == "" then "/assets/user-img.png"
    else if StartsWith(avatar, "http") then avatar
    else if StartsWith(avatar, "/uploads") then "http://localhost:3000" + avatar
    else if StartsWith(avatar, "uploads") then "http://localhost:3000/" + avatar
    else avatar
  }

  /** Both copies agree with the shared resolver: the cover with no fallback, the
      avatar with the default user picture. */
  lemma FeedUrlsAgreeWithResolver(url: string)
    ensures FeedCoverImageUrl(url) == ResolveImageUrl(url, "")
    ensures FeedHostAvatarUrl(url) == ResolveImageUrl(url, DefaultAvatar)
  {
    assert ApiOrigin == "http://localhost:3000";
  }

  /** The query `fetchEvents` sends: a parameter only for a filter that is set. */
  datatype EventQuery = EventQuery(category: Option<string>, eventType: Option<string>)

  function QueryOf(category: string, eventType: string): (q: EventQuery)
    ensures q.category.Some? <==> category != ""
    ensures q.eventType.Some? <==> eventType != ""
    ensures q.category.Some? ==> q.category.value == category
    ensures q.eventType.Some? ==> q.eventType.value == eventType
  {
    EventQuery(if category != "" then Some(category) else None,
               if eventType != "" then Some(eventType) else None)
  }

  class EventsFeedComponent {
    var events: seq<Event>
    var loading: bool
    var filterCategory: string
    var filterEventType: string
    var sortBy: string
    var queries: seq<EventQuery>
    /** Addresses the page assigned to `window.location`, oldest first. */
    var locations: seq<string>

    constructor()
      ensures events == [] && !loading && filterCategory == "" && filterEventType == ""
      ensures sortBy == "date" && queries == [] && locations == []
    {
      events := [];
      loading := false;
      filterCategory := "";
      filterEventType := "";
      sortBy := "date";
      queries := [];
      locations := [];
    }

    method FetchEvents()
      modifies this`loading, this`queries
      ensures loading && queries == old(queries) + [QueryOf(filterCategory, filterEventType)]
    {
      loading := true;
      queries := queries + [QueryOf(filterCategory, filterEventType)];
    }

    /** The events arrived: they are shown sorted by the current order. */
    method OnEventsLoaded(loaded: seq<Event>)
      modifies this`events, this`loading
      ensures events == SortedEvents(loaded, sortBy) && !loading
    {
      events := loaded;
      SortEvents(None);
      loading := false;
    }

    method OnEventsError()
      modifies this`events, this`loading
      ensures events == [] && !loading
    {
      loading := false;
      events := [];
    }

    /** `sortEvents(sortBy = this.sortBy)`: sorts the shown events in place. */
    method SortEvents(order: Option<string>)
      modifies this`events
      ensures events == SortedEvents(old(events), order.GetOr(sortBy))
    {
      events := SortedEvents(events, order.GetOr(sortBy));
    }

    method GoBack()
      modifies this`locations
      ensures locations == old(locations) + ["/home"]
    {
      locations := locations + ["/home"];
    }
  }
}
