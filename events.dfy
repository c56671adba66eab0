/** The event record the event pages share, and the attendance helpers each of
    them repeats: the number of "Going" answers and whether the event is full. */
module Events {

  import opened Wrappers

  /** One answer to an invitation: `status` is "Going", "Interested" or "Not Going". */
  datatype Attendee = Attendee(userId: string, status: string)

  /** An event as the pages read it. `date` and `createdAt` are the instants the
      date strings denote; `maxAttendees` is 0 when absent; `attendees` is None
      when absent (an empty list is present); `hostAvatar` is "" when the event
      has no host or the host no avatar. */
  datatype Event = Event(
    id: string,
    title: string,
    date: int,
    createdAt: int,
    maxAttendees: int,
    attendees: Option<seq<Attendee>>,
    hostAvatar: string,
    coverImageUrl: string,
    isCancelled: bool)

  /** The answers whose status is "Going". */
  function GoingCount(attendees: seq<Attendee>): nat {
    if attendees == [] then 0
    else (if attendees[0].status == "Going" then 1 else 0) + GoingCount(attendees[1..])
  }

  lemma {:induction false} GoingCountBounded(attendees: seq<Attendee>)
    ensures GoingCount(attendees) <= |attendees|
    ensures GoingCount(attendees) == |attendees| <==> forall k :: 0 <= k < |attendees| ==> attendees[k].status == "Going"
  {
    if attendees != [] {
      GoingCountBounded(attendees[1..]);
      assert forall k :: 1 <= k < |attendees| ==> attendees[k] == attendees[1..][k - 1];
    }
  }

  lemma {:induction false} GoingCountAppend(a: seq<Attendee>, b: seq<Attendee>)
    ensures GoingCount(a + b) == GoingCount(a) + GoingCount(b)
  {
    if a != [] {
      GoingCountAppend(a[1..], b);
      assert (a + b)[1..] == a[1..] + b;
    } else {
      assert a + b == b;
    }
  }

  /** `getRSVPCount`: the "Going" answers, 0 when there is no attendee list. */
  function RsvpCount(e: Event): (r: nat)
    ensures e.attendees.None? ==> r == 0
    ensures e.attendees.Some? ==> r == GoingCount(e.attendees.value)
  {
    if e.attendees.Some? then GoingCount(e.attendees.value) else 0
  }

  /** `isEventFull`: never without a limit or an attendee list; otherwise the
      "Going" answers have reached the limit. */
  function IsEventFull(e: Event): (b: bool)
    ensures b <==> e.maxAttendees != 0 && e.attendees.Some? && RsvpCount(e) >= e.maxAttendees
  {
    if e.maxAttendees == 0 || e.attendees.None? then false
    else GoingCount(e.attendees.value) >= e.maxAttendees
  }

  /** An event whose limit exceeds the number of answers cannot be full. */
  lemma RoomLeftMeansNotFull(e: Event)
    requires e.attendees.Some? && e.maxAttendees > |e.attendees.value|
    ensures !IsEventFull(e)
  {
    GoingCountBounded(e.attendees.value);
  }

  /** One more "Going" answer keeps a full event full, and one more answer of
      another status changes neither the count nor fullness. */
  lemma AnotherAnswer(e: Event, a: Attendee)
    requires e.attendees.Some?
    ensures var e' := e.(attendees := Some(e.attendees.value + [a]));
      && RsvpCount(e') == RsvpCount(e) + (if a.status == "Going" then 1 else 0)
      && (IsEventFull(e) ==> IsEventFull(e'))
      && (a.status != "Going" ==> IsEventFull(e') == IsEventFull(e))
  {
    GoingCountAppend(e.attendees.value, [a]);
    assert GoingCount([a]) == (if a.status == "Going" then 1 else 0) by {
      assert [a][1..] == [];
    }
  }
}
