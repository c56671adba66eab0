/** The "create community" form, open to platform admins only. */
module CreateCommunity {

  import opened Wrappers
  import opened JsText
  import opened GroupPostService
  import opened ImageCheck

  /** A community's editable fields. */
  datatype CommunityData = CommunityData(
    title: string,
    shortDescription: string,
    longDescription: string,
    category: string,
    tagline: string,
    image: string,
    icon: string)

  const EmptyCommunity: CommunityData := CommunityData("", "", "", "", "", "", "")

  const CreateFailedMessage: string := "Failed to create community. Please try again."

  /** Only a signed-in user (`userRole` is None when signed out) whose role is
      exactly "admin" may use the community forms. */
  predicate IsAdmin(userRole: Option<string>) {
    userRole == Some("admin")
  }

  /** The admin gate: whom the form turns away, and where to. */
  function GateRoute(userRole: Option<string>): (r: Option<seq<string>>)
    ensures r.None? <==> userRole.Some? && userRole.value == "admin"
    ensures r.Some? ==> r.value == ["/communities"]
  {
    if IsAdmin(userRole) then None else Some(["/communities"])
  }

  class CreateCommunityComponent {
    var communityData: CommunityData
    var categories: seq<string>
    var creating: bool
    var uploadingImage: bool
    var errorMessage: string
    var alerts: seq<string>
    var navigations: seq<seq<string>>
    /** Files sent for upload and communities sent for creation, oldest first. */
    var uploads: seq<FileInfo>
    var creations: seq<CommunityData>

    constructor()
      ensures communityData == EmptyCommunity && categories == []
      ensures !creating && !uploadingImage && errorMessage == ""
      ensures alerts == [] && navigations == [] && uploads == [] && creations == []
    {
      communityData := EmptyCommunity;
      categories := [];
      creating := false;
      uploadingImage := false;
      errorMessage := "";
      alerts := [];
      navigations := [];
      uploads := [];
      creations := [];
    }

    /** `ngOnInit`: anyone but an admin is sent back to the community list and the
        categories (the service's fixed list, given here) are not loaded. */
    method Init(userRole: Option<string>, serviceCategories: seq<string>)
      modifies this`navigations, this`categories
      ensures GateRoute(userRole).Some? ==>
        navigations == old(navigations) + [GateRoute(userRole).value] && categories == old(categories)
      ensures GateRoute(userRole).None? ==>
        navigations == old(navigations) && categories == serviceCategories
    {
      if !IsAdmin(userRole) {
        navigations := navigations + [["/communities"]];
        return;
      }
      categories := serviceCategories;
    }

    /** `onImageSelected` for the first picked file, if any. */
    method OnImageSelected(file: Option<FileInfo>)
      modifies this`alerts, this`uploadingImage, this`uploads
      ensures file.None? ==>
        alerts == old(alerts) && uploadingImage == old(uploadingImage) && uploads == old(uploads)
      ensures file.Some? && ImageRejection(file.value).Some? ==>
        alerts == old(alerts) + [ImageRejection(file.value).value]
        && uploadingImage == old(uploadingImage) && uploads == old(uploads)
      ensures file.Some? && ImageRejection(file.value).None? ==>
        alerts == old(alerts) && uploadingImage && uploads == old(uploads) + [file.value]
    {
      if file.None? {
        return;
      }
      var rejection := ImageRejection(file.value);
      if rejection.Some? {
        alerts := alerts + [rejection.value];
        return;
      }
      uploadingImage := true;
      uploads := uploads + [file.value];
    }

    method OnImageUploaded(response: UploadResponse)
      modifies this`communityData, this`alerts, this`uploadingImage
      ensures communityData == old(communityData).(image := ImageAfterUpload(old(communityData).image, response))
      ensures alerts == old(alerts) + UploadAlerts(response) && !uploadingImage
    {
      communityData := communityData.(image := ImageAfterUpload(communityData.image, response));
      alerts := alerts + UploadAlerts(response);
      uploadingImage := false;
    }

    method OnImageUploadError()
      modifies this`alerts, this`uploadingImage
      ensures alerts == old(alerts) + [UploadErrorMessage] && !uploadingImage
    {
      alerts := alerts + [UploadErrorMessage];
      uploadingImage := false;
    }

    method RemoveImage()
      modifies this`communityData
      ensures communityData == old(communityData).(image := "")
    {
      communityData := communityData.(image := "");
    }

    /** `onSubmit`: ignored while a create is in flight. */
    method OnSubmit()
      modifies this`creating, this`errorMessage, this`creations
      ensures old(creating) ==> creating && errorMessage == old(errorMessage) && creations == old(creations)
      ensures !old(creating) ==> creating && errorMessage == "" && creations == old(creations) + [communityData]
    {
      if creating {
        return;
      }
      creating := true;
      errorMessage := "";
      creations := creations + [communityData];
    }

    /** A created community opens its own page. */
    method OnCreated(communityId: string)
      modifies this`creating, this`navigations
      ensures !creating && navigations == old(navigations) + [["/communities", communityId]]
    {
      creating := false;
      navigations := navigations + [["/communities", communityId]];
    }

    method OnCreateError(serverError: string)
      modifies this`creating, this`errorMessage
      ensures !creating && errorMessage == SaveFailureMessage(serverError, CreateFailedMessage)
    {
      errorMessage := SaveFailureMessage(serverError, CreateFailedMessage);
      creating := false;
    }

    method GoBack()
      modifies this`navigations
      ensures navigations == old(navigations) + [["/communities"]]
    {
      navigations := navigations + [["/communities"]];
    }
  }
}
