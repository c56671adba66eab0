/** The "report content" dialog: a reason, optional details and an anonymity
    choice, handed to the page that opened it, followed by a thank-you notice. */
module ReportContent {

  import opened JsText

  /** What is reported: "post", "comment" or "user". */
  datatype ContentType = Post | Comment | User

  /** The reasons the dialog offers, by value. */
  const ReportReasons: seq<string> := ["spam", "harassment", "inappropriate", "misinformation",
                                       "privacy", "safety", "off-topic", "copyright", "other"]

  /** The longest details text the dialog takes. */
  const MaxDetailsLength: nat := 500

  /** The form the submit button accepts: a reason chosen and the details within
      their limit. */
  predicate FormValid(reason: string, details: string) {
    reason != "" && Utf16Length(details) <= MaxDetailsLength
  }

  /** `maxlength` counts UTF-16 code units: details written only in characters
      outside the Basic Multilingual Plane (emoji) fit up to 250 characters,
      details without such characters up to 500. */
  lemma DetailsLimitInCharacters(reason: string, details: string)
    requires reason != ""
    ensures (forall k :: 0 <= k < |details| ==> Astral(details[k])) ==> (FormValid(reason, details) <==> |details| <= 250)
    ensures (forall k :: 0 <= k < |details| ==> !Astral(details[k])) ==> (FormValid(reason, details) <==> |details| <= 500)
  {
    Utf16LengthCases(details);
  }

  /** What the dialog hands to its page. */
  datatype ReportPayload = ReportPayload(
    contentType: ContentType,
    contentId: string,
    reason: string,
    details: string,
    anonymous: bool)

  class ReportContentComponent {
    var isOpen: bool
    var contentType: ContentType
    var contentId: string
    var reason: string
    var details: string
    var anonymous: bool
    var submitting: bool
    var showSuccess: bool
    /** The reports handed to the page, oldest first. */
    var reported: seq<ReportPayload>
    /** How many times the dialog told its page it closed. */
    var closedCount: nat

    /** The dialog with the inputs its page binds. */
    constructor(isOpen: bool, contentType: ContentType, contentId: string)
      ensures this.isOpen == isOpen && this.contentType == contentType && this.contentId == contentId
      ensures reason == "" && details == "" && !anonymous && !submitting && !showSuccess
      ensures reported == [] && closedCount == 0
    {
      this.isOpen := isOpen;
      this.contentType := contentType;
      this.contentId := contentId;
      reason := "";
      details := "";
      anonymous := false;
      submitting := false;
      showSuccess := false;
      reported := [];
      closedCount := 0;
    }

    method ResetForm()
      modifies this`reason, this`details, this`anonymous, this`submitting
      ensures reason == "" && details == "" && !anonymous && !submitting
    {
      reason := "";
      details := "";
      anonymous := false;
      submitting := false;
    }

    /** `close`: the dialog hides, forgets the form and tells its page. */
    method Close()
      modifies this`isOpen, this`reason, this`details, this`anonymous, this`submitting, this`closedCount
      ensures !isOpen && reason == "" && details == "" && !anonymous && !submitting
      ensures closedCount == old(closedCount) + 1
    {
      isOpen := false;
      ResetForm();
      closedCount := closedCount + 1;
    }

    /** `closeSuccess`: the thank-you notice goes, then the dialog closes. */
    method CloseSuccess()
      modifies this`showSuccess, this`isOpen, this`reason, this`details, this`anonymous, this`submitting, this`closedCount
      ensures !showSuccess && !isOpen && reason == "" && details == "" && !anonymous && !submitting
      ensures closedCount == old(closedCount) + 1
    {
      showSuccess := false;
      Close();
    }

    /** `submitReport`: ignored while a report is being handed over; otherwise the
        form as filled in goes to the page, the dialog gives way to the thank-you
        notice, and the form is cleared. */
    method SubmitReport()
      modifies this`submitting, this`reported, this`isOpen, this`showSuccess, this`reason, this`details, this`anonymous
      ensures old(submitting) ==>
        submitting && reported == old(reported) && isOpen == old(isOpen) && showSuccess == old(showSuccess)
        && reason == old(reason) && details == old(details) && anonymous == old(anonymous)
      ensures !old(submitting) ==>
        reported == old(reported) + [ReportPayload(contentType, contentId, old(reason), old(details), old(anonymous))]
        && !isOpen && showSuccess && reason == "" && details == "" && !anonymous && !submitting
    {
      if submitting {
        return;
      }
      submitting := true;
      reported := reported + [ReportPayload(contentType, contentId, reason, details, anonymous)];
      isOpen := false;
      showSuccess := true;
      ResetForm();
    }

    /** The submit button: disabled unless the form is valid and no report is
        being handed over, otherwise `submitReport`. */
    method PressSubmit()
      modifies this`submitting, this`reported, this`isOpen, this`showSuccess, this`reason, this`details, this`anonymous
      ensures !FormValid(old(reason), old(details)) || old(submitting) ==>
        submitting == old(submitting) && reported == old(reported) && isOpen == old(isOpen)
        && showSuccess == old(showSuccess) && reason == old(reason) && details == old(details) && anonymous == old(anonymous)
      ensures FormValid(old(reason), old(details)) && !old(submitting) ==>
        reported == old(reported) + [ReportPayload(contentType, contentId, old(reason), old(details), old(anonymous))]
        && !isOpen && showSuccess && reason == "" && details == "" && !anonymous && !submitting
    {
      if FormValid(reason, details) && !submitting {
        SubmitReport();
      }
    }
  }
}
