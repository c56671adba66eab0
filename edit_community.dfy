/** The "edit community" form, open to platform admins only: the community named
    by the route is loaded, edited and saved back. */
module EditCommunity {

  import opened Wrappers
  import opened JsText
  import opened GroupPostService
  import opened ImageCheck
  import opened CreateCommunity

  const LoadFailedMessage: string := "Failed to load community data."
  const UpdateFailedMessage: string := "Failed to update community. Please try again."

  /** A save request: the community id and the data sent. */
  datatype Update = Update(communityId: string, data: CommunityData)

  class EditCommunityComponent {
    var communityData: CommunityData
    var categories: seq<string>
    var updating: bool
    var uploadingImage: bool
    var errorMessage: string
    var communityId: string
    var showSuccessModal: bool
    var alerts: seq<string>
    var navigations: seq<seq<string>>
    /** Communities requested, files sent for upload and saves sent, oldest first. */
    var loads: seq<string>
    var uploads: seq<FileInfo>
    var updates: seq<Update>

    constructor()
      ensures communityData == EmptyCommunity && categories == []
      ensures !updating && !uploadingImage && errorMessage == "" && communityId == "" && !showSuccessModal
      ensures alerts == [] && navigations == [] && loads == [] && uploads == [] && updates == []
    {
      communityData := EmptyCommunity;
      categories := [];
      updating := false;
      uploadingImage := false;
      errorMessage := "";
      communityId := "";
      showSuccessModal := false;
      alerts := [];
      navigations := [];
      loads := [];
      uploads := [];
      updates := [];
    }

    /** `ngOnInit`: anyone but an admin is sent back to the community list and
        nothing is loaded; otherwise a non-empty route `id` is kept and that
        community requested. */
    method Init(userRole: Option<string>, serviceCategories: seq<string>, routeId: string)
      modifies this`navigations, this`categories, this`communityId, this`loads
      ensures GateRoute(userRole).Some? ==>
        navigations == old(navigations) + [GateRoute(userRole).value]
        && categories == old(categories) && communityId == old(communityId) && loads == old(loads)
      ensures GateRoute(userRole).None? ==> navigations == old(navigations) && categories == serviceCategories
      ensures GateRoute(userRole).None? && routeId != "" ==> communityId == routeId && loads == old(loads) + [routeId]
      ensures GateRoute(userRole).None? && routeId == "" ==> communityId == old(communityId) && loads == old(loads)
    {
      if !IsAdmin(userRole) {
        navigations := navigations + [["/communities"]];
        return;
      }
      categories := serviceCategories;
      if routeId != "" {
        communityId := routeId;
        loads := loads + [routeId];
      }
    }

    method OnCommunityLoaded(community: CommunityData)
      modifies this`communityData
      ensures communityData == community
    {
      communityData := community;
    }

    method OnCommunityLoadError()
      modifies this`errorMessage
      ensures errorMessage == LoadFailedMessage
    {
      errorMessage := LoadFailedMessage;
    }

    /** `onImageSelected` for the first picked file, if any. */
    method OnImageSelected(file: Option<FileInfo>)
      modifies this`alerts, this`uploadingImage, this`uploads
      ensures file.None? ==>
        alerts == old(alerts) && uploadingImage == old(uploadingImage) && uploads == old(uploads)
      ensures file.Some? && ImageRejection(file.value).Some? ==>
        alerts == old(alerts) + [ImageRejection(file.value).value]
        && uploadingImage == old(uploadingImage) && uploads == old(uploads)
      ensures file.Some? && ImageRejection(file.value).None? ==>
        alerts == old(alerts) && uploadingImage && uploads == old(uploads) + [file.value]
    {
      if file.None? {
        return;
      }
      var rejection := ImageRejection(file.value);
      if rejection.Some? {
        alerts := alerts + [rejection.value];
        return;
      }
      uploadingImage := true;
      uploads := uploads + [file.value];
    }

    method OnImageUploaded(response: UploadResponse)
      modifies this`communityData, this`alerts, this`uploadingImage
      ensures communityData == old(communityData).(image := ImageAfterUpload(old(communityData).image, response))
      ensures alerts == old(alerts) + UploadAlerts(response) && !uploadingImage
    {
      communityData := communityData.(image := ImageAfterUpload(communityData.image, response));
      alerts := alerts + UploadAlerts(response);
      uploadingImage := false;
    }

    method OnImageUploadError()
      modifies this`alerts, this`uploadingImage
      ensures alerts == old(alerts) + [UploadErrorMessage] && !uploadingImage
    {
      alerts := alerts + [UploadErrorMessage];
      uploadingImage := false;
    }

    method RemoveImage()
      modifies this`communityData
      ensures communityData == old(communityData).(image := "")
    {
      communityData := communityData.(image := "");
    }

    /** `onSubmit`: ignored while a save is in flight. */
    method OnSubmit()
      modifies this`updating, this`errorMessage, this`updates
      ensures old(updating) ==> updating && errorMessage == old(errorMessage) && updates == old(updates)
      ensures !old(updating) ==>
        updating && errorMessage == "" && updates == old(updates) + [Update(communityId, communityData)]
    {
      if updating {
        return;
      }
      updating := true;
      errorMessage := "";
      updates := updates + [Update(communityId, communityData)];
    }

    method OnUpdated()
      modifies this`updating, this`showSuccessModal
      ensures !updating && showSuccessModal
    {
      updating := false;
      showSuccessModal := true;
    }

    method OnUpdateError(serverError: string)
      modifies this`updating, this`errorMessage
      ensures !updating && errorMessage == SaveFailureMessage(serverError, UpdateFailedMessage)
    {
      errorMessage := SaveFailureMessage(serverError, UpdateFailedMessage);
      updating := false;
    }

    method GoToDetails()
      modifies this`showSuccessModal, this`navigations
      ensures !showSuccessModal && navigations == old(navigations) + [["/communities", communityId]]
    {
      showSuccessModal := false;
      navigations := navigations + [["/communities", communityId]];
    }

    method GoBack()
      modifies this`navigations
      ensures navigations == old(navigations) + [["/communities", communityId]]
    {
      navigations := navigations + [["/communities", communityId]];
    }
  }
}
