/** The event page: attendance, answering the invitation, comments, and feedback
    rated with one of five faces. */
module EventDetails {

  import opened Wrappers
  import opened JsText
  import opened MediaUrls
  import opened Events

  // ---- Feedback faces ----

  datatype Emoji = Emoji(value: int, icon: string)

  /** The faces as the component's source text spells them: its bytes are UTF-8
      that was decoded once more as Windows-1252, and the two bytes that code page
      does not define were dropped, so the third and fifth faces became the same
      three characters. */
  const WrittenEmojis: seq<Emoji> := [
    Emoji(1, "\U{00F0}\U{0178}\U{02DC}\U{00A1}"),
    Emoji(2, "\U{00F0}\U{0178}\U{02DC}\U{2022}"),
    Emoji(3, "\U{00F0}\U{0178}\U{02DC}"),
    Emoji(4, "\U{00F0}\U{0178}\U{2122}\U{201A}"),
    Emoji(5, "\U{00F0}\U{0178}\U{02DC}")
  ]

  /** The faces those bytes stand for: pouting, confused, neutral, slightly
      smiling, heart-eyes. */
  const IntendedEmojis: seq<Emoji> := [
    Emoji(1, "\U{1F621}"),
    Emoji(2, "\U{1F615}"),
    Emoji(3, "\U{1F610}"),
    Emoji(4, "\U{1F642}"),
    Emoji(5, "\U{1F60D}")
  ]

  /** `getEmojiIcon` over a list of faces: the icon of the first face with that
      value, "" when there is none. */
  function EmojiIconIn(emojis: seq<Emoji>, rating: int): (r: string)
    ensures (forall k :: 0 <= k < |emojis| ==> emojis[k].value != rating) ==> r == ""
    ensures forall k :: (0 <= k < |emojis| && emojis[k].value == rating
                         && (forall j :: 0 <= j < k ==> emojis[j].value != rating)) ==> r == emojis[k].icon
  {
    if emojis == [] then ""
    else if emojis[0].value == rating then emojis[0].icon
    else
      var r := EmojiIconIn(emojis[1..], rating);
      assert forall k :: 1 <= k < |emojis| ==> emojis[k] == emojis[1..][k - 1];
      r
  }

  /** As written, a rating of 3 and a rating of 5 show the same icon. */
  lemma WrittenEmojisConfuseThreeAndFive()
    ensures EmojiIconIn(WrittenEmojis, 3) == EmojiIconIn(WrittenEmojis, 5)
    ensures EmojiIconIn(WrittenEmojis, 3) != ""
  {
    assert EmojiIconIn(WrittenEmojis, 3) == WrittenEmojis[2].icon;
    assert EmojiIconIn(WrittenEmojis, 5) == WrittenEmojis[4].icon;
  }

  /** `getEmojiIcon` with the intended faces: a distinct, non-empty icon for each
      rating from 1 to 5 and "" for anything else. */
  function EmojiIcon(rating: int): (r: string)
    ensures 1 <= rating <= 5 ==> r == IntendedEmojis[rating - 1].icon && r != ""
    ensures !(1 <= rating <= 5) ==> r == ""
  {
    EmojiIconIn(IntendedEmojis, rating)
  }

  lemma EmojiIconsDistinct(a: int, b: int)
    requires 1 <= a <= 5 && 1 <= b <= 5 && a != b
    ensures EmojiIcon(a) != EmojiIcon(b)
  {
  }

  // ---- Host avatar ----

  /** `getHostAvatar`: "" without a host avatar, else its media URL. */
  function HostAvatar(event: Option<Event>): (r: string)
    ensures event.None? || event.value.hostAvatar == "" ==> r == ""
    ensures event.Some? && event.value.hostAvatar != "" ==>
      r == RelativeMediaUrl(event.value.hostAvatar) && r != "" && EndsWith(r, event.value.hostAvatar)
  {
    if event.None? || event.value.hostAvatar == "" then "" else RelativeMediaUrl(event.value.hostAvatar)
  }

  // ---- The page ----

  datatype EventComment = EventComment(id: string, userId: string, text: string)
  datatype FeedbackEntry = FeedbackEntry(rating: int, comment: string)

  /** A request the page sent. */
  datatype Request =
    | CommentsRequest(eventId: string)
    | FeedbackListRequest(eventId: string)
    | RsvpRequest(eventId: string, status: string)
    | AddCommentRequest(eventId: string, text: string)
    | AddFeedbackRequest(eventId: string, rating: int, comment: string)

  class EventDetailsComponent {
    var event: Option<Event>
    var loading: bool
    var error: string
    var rsvpStatus: Option<string>
    var rsvpLoading: bool
    var rsvpError: string
    var rsvpSuccess: bool
    var comments: seq<EventComment>
    var newComment: string
    var commentLoading: bool
    var commentError: string
    var feedbackRating: int
    var feedbackComment: string
    var feedbackLoading: bool
    var feedbackError: string
    var feedbackSuccess: bool
    var feedbackList: seq<FeedbackEntry>
    var requests: seq<Request>

    constructor()
      ensures event.None? && loading && error == ""
      ensures rsvpStatus.None? && !rsvpLoading && rsvpError == "" && !rsvpSuccess
      ensures comments == [] && newComment == "" && !commentLoading && commentError == ""
      ensures feedbackRating == 0 && feedbackComment == "" && !feedbackLoading && feedbackError == ""
      ensures !feedbackSuccess && feedbackList == [] && requests == []
    {
      event := None;
      loading := true;
      error := "";
      rsvpStatus := None;
      rsvpLoading := false;
      rsvpError := "";
      rsvpSuccess := false;
      comments := [];
      newComment := "";
      commentLoading := false;
      commentError := "";
      feedbackRating := 0;
      feedbackComment := "";
      feedbackLoading := false;
      feedbackError := "";
      feedbackSuccess := false;
      feedbackList := [];
      requests := [];
    }

    /** The event arrived: its comments and feedback are requested. */
    method OnEventLoaded(e: Event)
      modifies this`event, this`loading, this`requests
      ensures event == Some(e) && !loading
      ensures requests == old(requests) + [CommentsRequest(e.id), FeedbackListRequest(e.id)]
    {
      event := Some(e);
      loading := false;
      requests := requests + [CommentsRequest(e.id), FeedbackListRequest(e.id)];
    }

    method OnEventLoadError(serverMessage: string)
      modifies this`error, this`loading
      ensures error == Or(serverMessage, "Event not found.") && !loading
    {
      error := Or(serverMessage, "Event not found.");
      loading := false;
    }

    /** `rsvp(status)`: nothing before the event is known. */
    method Rsvp(status: string)
      modifies this`rsvpLoading, this`rsvpError, this`rsvpSuccess, this`requests
      ensures event.None? ==>
        rsvpLoading == old(rsvpLoading) && rsvpError == old(rsvpError)
        && rsvpSuccess == old(rsvpSuccess) && requests == old(requests)
      ensures event.Some? ==>
        rsvpLoading && rsvpError == "" && !rsvpSuccess
        && requests == old(requests) + [RsvpRequest(event.value.id, status)]
    {
      if event.None? {
        return;
      }
      rsvpLoading := true;
      rsvpError := "";
      rsvpSuccess := false;
      requests := requests + [RsvpRequest(event.value.id, status)];
    }

    method OnRsvpDone(status: string)
      modifies this`rsvpStatus, this`rsvpSuccess, this`rsvpLoading
      ensures rsvpStatus == Some(status) && rsvpSuccess && !rsvpLoading
    {
      rsvpStatus := Some(status);
      rsvpSuccess := true;
      rsvpLoading := false;
    }

    method OnRsvpError(serverMessage: string)
      modifies this`rsvpError, this`rsvpLoading
      ensures rsvpError == Or(serverMessage, "Failed to RSVP.") && !rsvpLoading
    {
      rsvpError := Or(serverMessage, "Failed to RSVP.");
      rsvpLoading := false;
    }

    method OnCommentsLoaded(loaded: seq<EventComment>)
      modifies this`comments
      ensures comments == loaded
    {
      comments := loaded;
    }

    method OnCommentsError()
      modifies this`comments
      ensures comments == []
    {
      comments := [];
    }

    /** `addComment`: nothing before the event is known or for blank text; the
        text is sent untrimmed. */
    method AddComment()
      modifies this`commentLoading, this`commentError, this`requests
      ensures event.None? || IsBlank(newComment) ==>
        commentLoading == old(commentLoading) && commentError == old(commentError) && requests == old(requests)
      ensures event.Some? && !IsBlank(newComment) ==>
        commentLoading && commentError == ""
        && requests == old(requests) + [AddCommentRequest(event.value.id, newComment)]
    {
      if event.None? || Trim(newComment) == "" {
        return;
      }
      commentLoading := true;
      commentError := "";
      requests := requests + [AddCommentRequest(event.value.id, newComment)];
    }

    /** A posted comment goes last and the input is cleared. */
    method OnCommentAdded(c: EventComment)
      modifies this`comments, this`newComment, this`commentLoading
      ensures comments == old(comments) + [c] && newComment == "" && !commentLoading
    {
      comments := comments + [c];
      newComment := "";
      commentLoading := false;
    }

    method OnCommentError(serverMessage: string)
      modifies this`commentError, this`commentLoading
      ensures commentError == Or(serverMessage, "Failed to post comment.") && !commentLoading
    {
      commentError := Or(serverMessage, "Failed to post comment.");
      commentLoading := false;
    }

    /** `submitFeedback`: nothing before the event is known or without a rating. */
    method SubmitFeedback()
      modifies this`feedbackLoading, this`feedbackError, this`feedbackSuccess, this`requests
      ensures event.None? || feedbackRating == 0 ==>
        feedbackLoading == old(feedbackLoading) && feedbackError == old(feedbackError)
        && feedbackSuccess == old(feedbackSuccess) && requests == old(requests)
      ensures event.Some? && feedbackRating != 0 ==>
        feedbackLoading && feedbackError == "" && !feedbackSuccess
        && requests == old(requests) + [AddFeedbackRequest(event.value.id, feedbackRating, feedbackComment)]
    {
      if event.None? || feedbackRating == 0 {
        return;
      }
      feedbackLoading := true;
      feedbackError := "";
      feedbackSuccess := false;
      requests := requests + [AddFeedbackRequest(event.value.id, feedbackRating, feedbackComment)];
    }

    /** Accepted feedback reloads the list and clears the rating and comment. */
    method OnFeedbackSubmitted()
      modifies this`feedbackSuccess, this`feedbackLoading, this`requests, this`feedbackRating, this`feedbackComment
      ensures feedbackSuccess && !feedbackLoading && feedbackRating == 0 && feedbackComment == ""
      ensures event.Some? ==> requests == old(requests) + [FeedbackListRequest(event.value.id)]
      ensures event.None? ==> requests == old(requests)
    {
      feedbackSuccess := true;
      feedbackLoading := false;
      if event.Some? {
        requests := requests + [FeedbackListRequest(event.value.id)];
      }
      feedbackRating := 0;
      feedbackComment := "";
    }

    method OnFeedbackError(serverMessage: string)
      modifies this`feedbackError, this`feedbackLoading
      ensures feedbackError == Or(serverMessage, "Failed to submit feedback.") && !feedbackLoading
    {
      feedbackError := Or(serverMessage, "Failed to submit feedback.");
      feedbackLoading := false;
    }

    method OnFeedbackListLoaded(loaded: seq<FeedbackEntry>)
      modifies this`feedbackList
      ensures feedbackList == loaded
    {
      feedbackList := loaded;
    }

    method OnFeedbackListError()
      modifies this`feedbackList
      ensures feedbackList == []
    {
      feedbackList := [];
    }

    function GetHostAvatar(): (r: string)
      reads this`event
      ensures r == HostAvatar(event)
    {
      HostAvatar(event)
    }
  }
}
