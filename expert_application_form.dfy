/** The form a member fills in to apply as an expert of a community: it edits a
    list of social links, validates on submit, and either updates the member's
    pending application or submits a new one. */
module ExpertApplicationForm {

  import opened Wrappers
  import opened JsText
  import opened ExpertApplicationsService

  /** The member's earlier application for this community, as the server returns it. */
  datatype ExistingApplication = ExistingApplication(id: string, status: string, data: ExpertApplicationData)

  /** A request the form sent. */
  datatype Request =
    | CommunityRequest(communityId: string)
    | ExistingApplicationRequest(communityId: string)
    | UpdateRequest(applicationId: string, data: ExpertApplicationData)
    | SubmitRequest(communityId: string, data: ExpertApplicationData)

  const EmptyApplication: ExpertApplicationData := ExpertApplicationData("", "", "", "", "", [], 0, "")

  /** The link `addSocialLink` appends. */
  const NewLink: SocialMediaLink := SocialMediaLink("linkedin", "")

  /** The data the form shows once the earlier application is known: a pending
      application is copied into the form, any other leaves the form as it was. */
  function Prefilled(form: ExpertApplicationData, app: ExistingApplication): (r: ExpertApplicationData)
    ensures app.status == "pending" ==> r == app.data
    ensures app.status != "pending" ==> r == form
  {
    if app.status == "pending" then app.data else form
  }

  /** The single message a failed request leaves: the server's `error` text when
      it has one, else the default for an update or a submission. */
  function FailureMessage(serverError: string, wasUpdate: bool): (r: string)
    ensures r != ""
    ensures serverError != "" ==> r == serverError
    ensures serverError == "" && wasUpdate ==> r == "Failed to update application"
    ensures serverError == "" && !wasUpdate ==> r == "Failed to submit application"
  {
    Or(serverError, if wasUpdate then "Failed to update application" else "Failed to submit application")
  }

  class ExpertApplicationFormComponent {
    var applicationData: ExpertApplicationData
    var existingApplication: Option<ExistingApplication>
    var communityId: string
    var submitting: bool
    var showSuccessModal: bool
    var errorMessages: seq<string>
    /** The URL check the validator uses. */
    const isValidUrl: string -> bool
    /** Requests sent to the server, oldest first. */
    var requests: seq<Request>
    var navigations: seq<seq<string>>

    /** The form for the route's `communityId` ("" when the route has none). */
    constructor(communityId: string, isValidUrl: string -> bool)
      ensures applicationData == EmptyApplication && existingApplication.None?
      ensures this.communityId == communityId && this.isValidUrl == isValidUrl
      ensures !submitting && !showSuccessModal && errorMessages == [] && requests == []
      ensures navigations == []
    {
      navigations := [];
      applicationData := EmptyApplication;
      existingApplication := None;
      this.communityId := communityId;
      submitting := false;
      showSuccessModal := false;
      errorMessages := [];
      this.isValidUrl := isValidUrl;
      requests := [];
    }

    /** `ngOnInit`: a signed-out visitor is sent to the login page; otherwise, for a
        route with a community, the community and the member's earlier application
        are requested. */
    method Init(signedIn: bool)
      modifies this`navigations, this`requests
      ensures !signedIn ==> navigations == old(navigations) + [["/login"]] && requests == old(requests)
      ensures signedIn && communityId != "" ==>
        navigations == old(navigations)
        && requests == old(requests) + [CommunityRequest(communityId), ExistingApplicationRequest(communityId)]
      ensures signedIn && communityId == "" ==> navigations == old(navigations) && requests == old(requests)
    {
      if !signedIn {
        navigations := navigations + [["/login"]];
        return;
      }
      if communityId != "" {
        requests := requests + [CommunityRequest(communityId), ExistingApplicationRequest(communityId)];
      }
    }

    /** The community could not be loaded: back to the community list. */
    method OnCommunityLoadError()
      modifies this`navigations
      ensures navigations == old(navigations) + [["/communities"]]
    {
      navigations := navigations + [["/communities"]];
    }

    /** The answer to `checkExistingApplication`. */
    method OnExistingApplication(app: ExistingApplication)
      modifies this`existingApplication, this`applicationData
      ensures existingApplication == Some(app)
      ensures applicationData == Prefilled(old(applicationData), app)
    {
      existingApplication := Some(app);
      if app.status == "pending" {
        applicationData := app.data;
      }
    }

    method AddSocialLink()
      modifies this`applicationData
      ensures applicationData == old(applicationData).(socialMediaLinks := old(applicationData).socialMediaLinks + [NewLink])
    {
      applicationData := applicationData.(socialMediaLinks := applicationData.socialMediaLinks + [NewLink]);
    }

    /** `removeSocialLink(index)`: the link at `index` goes and the others keep their order. */
    method RemoveSocialLink(index: int)
      modifies this`applicationData
      ensures applicationData == old(applicationData).(socialMediaLinks := RemoveAt(old(applicationData).socialMediaLinks, index))
      ensures 0 <= index < |old(applicationData).socialMediaLinks| ==>
        applicationData.socialMediaLinks
          == old(applicationData).socialMediaLinks[..index] + old(applicationData).socialMediaLinks[index + 1..]
    {
      applicationData := applicationData.(socialMediaLinks := RemoveAt(applicationData.socialMediaLinks, index));
    }

    /** `onSubmit`: the validator's messages are stored; with any message nothing is
        sent, otherwise a pending application is updated and anything else submitted. */
    method OnSubmit()
      modifies this`errorMessages, this`submitting, this`requests
      ensures errorMessages == ApplicationErrors(applicationData, isValidUrl)
      ensures errorMessages != [] ==> submitting == old(submitting) && requests == old(requests)
      ensures errorMessages == [] ==> submitting
      ensures errorMessages == [] && existingApplication.Some? && existingApplication.value.status == "pending" ==>
        requests == old(requests) + [UpdateRequest(existingApplication.value.id, applicationData)]
      ensures errorMessages == [] && !(existingApplication.Some? && existingApplication.value.status == "pending") ==>
        requests == old(requests) + [SubmitRequest(communityId, applicationData)]
    {
      errorMessages := ValidateApplicationData(applicationData, isValidUrl);
      if |errorMessages| > 0 {
        return;
      }
      submitting := true;
      if existingApplication.Some? && existingApplication.value.status == "pending" {
        requests := requests + [UpdateRequest(existingApplication.value.id, applicationData)];
      } else {
        requests := requests + [SubmitRequest(communityId, applicationData)];
      }
    }

    method OnSubmitSuccess()
      modifies this`showSuccessModal, this`submitting
      ensures showSuccessModal && !submitting
    {
      showSuccessModal := true;
      submitting := false;
    }

    /** A failed update (`wasUpdate`) or submission leaves exactly one message. */
    method OnSubmitError(serverError: string, wasUpdate: bool)
      modifies this`errorMessages, this`submitting
      ensures errorMessages == [FailureMessage(serverError, wasUpdate)] && !submitting
    {
      errorMessages := [FailureMessage(serverError, wasUpdate)];
      submitting := false;
    }

    method GoBack()
      modifies this`navigations
      ensures navigations == old(navigations) + [["/communities", communityId]]
    {
      navigations := navigations + [["/communities", communityId]];
    }

    /** The success modal's button: close it and open the community. */
    method GoToCommunity()
      modifies this`showSuccessModal, this`navigations
      ensures !showSuccessModal && navigations == old(navigations) + [["/communities", communityId]]
    {
      showSuccessModal := false;
      navigations := navigations + [["/communities", communityId]];
    }
  }
}
