/** The "create group" form: the group is placed in a community (possibly chosen
    before the form opened), inherits that community's category, and may carry a
    cover image. */
module CreateGroup {

  import opened Wrappers
  import opened JsText
  import opened GroupPostService
  import opened ImageCheck

  /** A community the group can be placed in (only what the form reads). */
  datatype Community = Community(id: string, title: string, category: string)

  /** A group's editable fields; `rules` is absent until a rule is added. */
  datatype Rule = Rule(title: string, description: string)
  datatype GroupData = GroupData(
    title: string,
    intro: string,
    category: string,
    groupType: string,
    communityId: string,
    image: string,
    rules: Option<seq<Rule>>)

  const EmptyGroup: GroupData := GroupData("", "", "", "Public", "", "", None)

  const CreateFailedMessage: string := "Failed to create group. Please try again."

  /** A request the form sent. */
  datatype Request =
    | CommunitiesRequest(limit: nat)
    | UploadRequest(file: FileInfo)
    | CreateRequest(data: GroupData)

  /** `communities.find(c => c.id === id) || null`: the first community with that id. */
  function FindCommunity(communities: seq<Community>, id: string): (r: Option<Community>)
    ensures r.None? <==> forall k :: 0 <= k < |communities| ==> communities[k].id != id
    ensures r.Some? ==> r.value in communities && r.value.id == id
    ensures r.Some? ==> exists k :: 0 <= k < |communities| && communities[k] == r.value
                                    && forall j :: 0 <= j < k ==> communities[j].id != id
  {
    if communities == [] then None
    else if communities[0].id == id then
      Some(communities[0])
    else
      var r := FindCommunity(communities[1..], id);
      assert forall k :: 1 <= k < |communities| ==> communities[k] == communities[1..][k - 1];
      if r.Some? then
        var k :| 0 <= k < |communities[1..]| && communities[1..][k] == r.value
                 && forall j :: 0 <= j < k ==> communities[1..][j].id != id;
        assert communities[k + 1] == r.value && forall j :: 0 <= j < k + 1 ==> communities[j].id != id;
        r
      else r
  }

  /** The group data once a community is selected: its category when it was found. */
  function WithCommunityCategory(data: GroupData, selected: Option<Community>): (r: GroupData)
    ensures selected.Some? ==> r == data.(category := selected.value.category)
    ensures selected.None? ==> r == data
  {
    if selected.Some? then data.(category := selected.value.category) else data
  }

  /** The route `goBack` opens: the preselected community, else the community list. */
  function BackRoute(preselectedCommunityId: Option<string>): (r: seq<string>)
    ensures |r| >= 1 && r[0] == "/communities"
    ensures preselectedCommunityId.Some? <==> |r| == 2
    ensures preselectedCommunityId.Some? ==> r[1] == preselectedCommunityId.value
  {
    if preselectedCommunityId.Some? then ["/communities", preselectedCommunityId.value] else ["/communities"]
  }

  class CreateGroupComponent {
    var groupData: GroupData
    var communities: seq<Community>
    var selectedCommunity: Option<Community>
    var preselectedCommunityId: Option<string>
    var creating: bool
    var uploadingImage: bool
    var errorMessage: string
    var loadingCommunities: bool
    var showSuccessModal: bool
    var createdGroupId: Option<string>
    var alerts: seq<string>
    var navigations: seq<seq<string>>
    var requests: seq<Request>

    constructor()
      ensures groupData == EmptyGroup && communities == [] && selectedCommunity.None?
      ensures preselectedCommunityId.None? && !creating && !uploadingImage && errorMessage == ""
      ensures !loadingCommunities && !showSuccessModal && createdGroupId.None?
      ensures alerts == [] && navigations == [] && requests == []
    {
      groupData := EmptyGroup;
      communities := [];
      selectedCommunity := None;
      preselectedCommunityId := None;
      creating := false;
      uploadingImage := false;
      errorMessage := "";
      loadingCommunities := false;
      showSuccessModal := false;
      createdGroupId := None;
      alerts := [];
      navigations := [];
      requests := [];
    }

    /** `ngOnInit`: a signed-out visitor is sent to the login page; otherwise a
        `communityId` query parameter ("" when absent) preselects the community,
        and the communities are requested. */
    method Init(signedIn: bool, queryCommunityId: string)
      modifies this`navigations, this`preselectedCommunityId, this`groupData, this`loadingCommunities, this`requests
      ensures !signedIn ==>
        navigations == old(navigations) + [["/login"]] && requests == old(requests)
        && preselectedCommunityId == old(preselectedCommunityId) && groupData == old(groupData)
      ensures signedIn ==>
        navigations == old(navigations) && loadingCommunities
        && requests == old(requests) + [CommunitiesRequest(100)]
      ensures signedIn && queryCommunityId != "" ==>
        preselectedCommunityId == Some(queryCommunityId) && groupData == old(groupData).(communityId := queryCommunityId)
      ensures signedIn && queryCommunityId == "" ==>
        preselectedCommunityId == old(preselectedCommunityId) && groupData == old(groupData)
    {
      if !signedIn {
        navigations := navigations + [["/login"]];
        return;
      }
      if queryCommunityId != "" {
        preselectedCommunityId := Some(queryCommunityId);
        groupData := groupData.(communityId := queryCommunityId);
      }
      loadingCommunities := true;
      requests := requests + [CommunitiesRequest(100)];
    }

    /** The communities arrived: a preselected community is looked up and, when
        found, gives the group its category. */
    method OnCommunitiesLoaded(loaded: seq<Community>)
      modifies this`communities, this`selectedCommunity, this`groupData, this`loadingCommunities
      ensures communities == loaded && !loadingCommunities
      ensures preselectedCommunityId.Some? ==>
        && selectedCommunity == FindCommunity(loaded, preselectedCommunityId.value)
        && groupData == WithCommunityCategory(old(groupData), selectedCommunity)
      ensures preselectedCommunityId.None? ==>
        selectedCommunity == old(selectedCommunity) && groupData == old(groupData)
    {
      communities := loaded;
      if preselectedCommunityId.Some? {
        selectedCommunity := FindCommunity(loaded, preselectedCommunityId.value);
        if selectedCommunity.Some? {
          groupData := groupData.(category := selectedCommunity.value.category);
        }
      }
      loadingCommunities := false;
    }

    method OnCommunitiesError()
      modifies this`loadingCommunities
      ensures !loadingCommunities
    {
      loadingCommunities := false;
    }

    /** `onCommunityChange`: the chosen community is looked up and, when found,
        gives the group its category. */
    method OnCommunityChange()
      modifies this`selectedCommunity, this`groupData
      ensures selectedCommunity == FindCommunity(communities, old(groupData).communityId)
      ensures groupData == WithCommunityCategory(old(groupData), selectedCommunity)
    {
      selectedCommunity := FindCommunity(communities, groupData.communityId);
      if selectedCommunity.Some? {
        groupData := groupData.(category := selectedCommunity.value.category);
      }
    }

    /** `onImageSelected` for the first picked file, if any. */
    method OnImageSelected(file: Option<FileInfo>)
      modifies this`alerts, this`uploadingImage, this`requests
      ensures file.None? ==>
        alerts == old(alerts) && uploadingImage == old(uploadingImage) && requests == old(requests)
      ensures file.Some? && ImageRejection(file.value).Some? ==>
        alerts == old(alerts) + [ImageRejection(file.value).value]
        && uploadingImage == old(uploadingImage) && requests == old(requests)
      ensures file.Some? && ImageRejection(file.value).None? ==>
        alerts == old(alerts) && uploadingImage && requests == old(requests) + [UploadRequest(file.value)]
    {
      if file.None? {
        return;
      }
      var rejection := ImageRejection(file.value);
      if rejection.Some? {
        alerts := alerts + [rejection.value];
        return;
      }
      uploadingImage := true;
      requests := requests + [UploadRequest(file.value)];
    }

    method OnImageUploaded(response: UploadResponse)
      modifies this`groupData, this`alerts, this`uploadingImage
      ensures groupData == old(groupData).(image := ImageAfterUpload(old(groupData).image, response))
      ensures alerts == old(alerts) + UploadAlerts(response) && !uploadingImage
    {
      groupData := groupData.(image := ImageAfterUpload(groupData.image, response));
      alerts := alerts + UploadAlerts(response);
      uploadingImage := false;
    }

    method OnImageUploadError()
      modifies this`alerts, this`uploadingImage
      ensures alerts == old(alerts) + [UploadErrorMessage] && !uploadingImage
    {
      alerts := alerts + [UploadErrorMessage];
      uploadingImage := false;
    }

    method RemoveImage()
      modifies this`groupData
      ensures groupData == old(groupData).(image := "")
    {
      groupData := groupData.(image := "");
    }

    /** `onSubmit`: ignored while a create is in flight. */
    method OnSubmit()
      modifies this`creating, this`errorMessage, this`requests
      ensures old(creating) ==> creating && errorMessage == old(errorMessage) && requests == old(requests)
      ensures !old(creating) ==> creating && errorMessage == "" && requests == old(requests) + [CreateRequest(groupData)]
    {
      if creating {
        return;
      }
      creating := true;
      errorMessage := "";
      requests := requests + [CreateRequest(groupData)];
    }

    method OnCreated(groupId: string)
      modifies this`creating, this`createdGroupId, this`showSuccessModal
      ensures !creating && createdGroupId == Some(groupId) && showSuccessModal
    {
      creating := false;
      createdGroupId := Some(groupId);
      showSuccessModal := true;
    }

    method OnCreateError(serverError: string)
      modifies this`creating, this`errorMessage
      ensures !creating && errorMessage == SaveFailureMessage(serverError, CreateFailedMessage)
    {
      errorMessage := SaveFailureMessage(serverError, CreateFailedMessage);
      creating := false;
    }

    method GoToCommunityDetails()
      modifies this`showSuccessModal, this`navigations
      ensures !showSuccessModal && navigations == old(navigations) + [["/communities", groupData.communityId]]
    {
      showSuccessModal := false;
      navigations := navigations + [["/communities", groupData.communityId]];
    }

    method GoBack()
      modifies this`navigations
      ensures navigations == old(navigations) + [BackRoute(preselectedCommunityId)]
    {
      if preselectedCommunityId.Some? {
        navigations := navigations + [["/communities", preselectedCommunityId.value]];
      } else {
        navigations := navigations + [["/communities"]];
      }
    }
  }
}
