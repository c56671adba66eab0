/** The "edit group" form: the group is loaded into an editable copy whose rules
    list can grow and shrink, and the copy is saved back. */
module EditGroup {

  import opened Wrappers
  import opened JsText
  import opened GroupPostService
  import opened ImageCheck
  import opened CreateGroup

  /** The group's `communityId` as the server sends it: a populated community
      object (`id` and `_id`, "" when absent) or the bare id. */
  datatype CommunityRef = CommunityObject(id: string, underscoreId: string) | CommunityId(value: string)

  /** A rule as the server sends it, with its own id. */
  datatype RawRule = RawRule(id: string, title: string, description: string)

  /** The group as `getGroupById` answers (only what the form reads). */
  datatype LoadedGroup = LoadedGroup(
    title: string,
    intro: string,
    image: string,
    category: string,
    groupType: string,
    communityId: CommunityRef,
    rules: Option<seq<RawRule>>)

  const LoadFailedMessage: string := "Failed to load group details."
  const UpdateFailedMessage: string := "Failed to update group."

  /** The community id the form keeps: a populated object's `id`, else its `_id`;
      a bare id as it is. */
  function CommunityIdOf(ref: CommunityRef): (r: string)
    ensures ref.CommunityId? ==> r == ref.value
    ensures ref.CommunityObject? && ref.id != "" ==> r == ref.id
    ensures ref.CommunityObject? && ref.id == "" ==> r == ref.underscoreId
  {
    match ref
    case CommunityObject(id, underscoreId) => Or(id, underscoreId)
    case CommunityId(value) => value
  }

  /** The rules with only their title and description. */
  function RulesOf(raw: seq<RawRule>): (r: seq<Rule>)
    ensures |r| == |raw|
    ensures forall k :: 0 <= k < |raw| ==> r[k] == Rule(raw[k].title, raw[k].description)
  {
    if raw == [] then [] else [Rule(raw[0].title, raw[0].description)] + RulesOf(raw[1..])
  }

  /** The editable copy the form builds from a loaded group: it always has a rules
      list, empty when the group had none. */
  function EditableData(g: LoadedGroup): (r: GroupData)
    ensures r.title == g.title && r.intro == g.intro && r.image == g.image
    ensures r.category == g.category && r.groupType == g.groupType
    ensures r.communityId == CommunityIdOf(g.communityId)
    ensures r.rules.Some?
    ensures g.rules.None? ==> r.rules.value == []
    ensures g.rules.Some? ==> r.rules.value == RulesOf(g.rules.value)
  {
    GroupData(g.title, g.intro, g.category, g.groupType, CommunityIdOf(g.communityId), g.image,
              Some(if g.rules.Some? then RulesOf(g.rules.value) else []))
  }

  /** The rules after `addRule`: a missing list is started, and a blank rule goes last. */
  function WithBlankRule(rules: Option<seq<Rule>>): (r: seq<Rule>)
    ensures |r| == |rules.GetOr([])| + 1
    ensures r[..|r| - 1] == rules.GetOr([]) && r[|r| - 1] == Rule("", "")
  {
    rules.GetOr([]) + [Rule("", "")]
  }

  /** The rules after `removeRule(index)`: nothing to do when there is no list. */
  function WithoutRule(rules: Option<seq<Rule>>, index: int): (r: Option<seq<Rule>>)
    ensures rules.None? ==> r.None?
    ensures rules.Some? ==> r == Some(RemoveAt(rules.value, index))
  {
    if rules.Some? then Some(RemoveAt(rules.value, index)) else None
  }

  /** Removing the rule just added gives back the rules the group had. */
  lemma RemoveAddedRule(rules: seq<Rule>)
    ensures WithoutRule(Some(WithBlankRule(Some(rules))), |rules|) == Some(rules)
  {
    var added := WithBlankRule(Some(rules));
    assert added == rules + [Rule("", "")];
    RemoveAtInRange(added, |rules|);
    assert added[..|rules|] + added[|rules| + 1..] == rules;
  }

  class EditGroupComponent {
    const groupId: string
    /** Absent until the group has loaded; the form is shown only once it is present. */
    var groupData: Option<GroupData>
    var saving: bool
    var errorMessage: string
    var uploadingImage: bool
    var alerts: seq<string>
    var navigations: seq<seq<string>>
    /** Files sent for upload and group data sent for saving, oldest first. */
    var uploads: seq<FileInfo>
    var updates: seq<GroupData>

    /** The component for the route's `id`; `ngOnInit` requests that group. */
    constructor(groupId: string)
      ensures this.groupId == groupId && groupData.None?
      ensures !saving && errorMessage == "" && !uploadingImage
      ensures alerts == [] && navigations == [] && uploads == [] && updates == []
    {
      this.groupId := groupId;
      groupData := None;
      saving := false;
      errorMessage := "";
      uploadingImage := false;
      alerts := [];
      navigations := [];
      uploads := [];
      updates := [];
    }

    method OnGroupLoaded(g: LoadedGroup)
      modifies this`groupData
      ensures groupData == Some(EditableData(g))
    {
      groupData := Some(EditableData(g));
    }

    method OnGroupLoadError()
      modifies this`errorMessage
      ensures errorMessage == LoadFailedMessage
    {
      errorMessage := LoadFailedMessage;
    }

    method AddRule()
      requires groupData.Some?
      modifies this`groupData
      ensures groupData == Some(old(groupData).value.(rules := Some(WithBlankRule(old(groupData).value.rules))))
    {
      groupData := Some(groupData.value.(rules := Some(WithBlankRule(groupData.value.rules))));
    }

    method RemoveRule(index: int)
      requires groupData.Some?
      modifies this`groupData
      ensures groupData == Some(old(groupData).value.(rules := WithoutRule(old(groupData).value.rules, index)))
    {
      groupData := Some(groupData.value.(rules := WithoutRule(groupData.value.rules, index)));
    }

    /** `onImageSelected` for the first picked file, if any. */
    method OnImageSelected(file: Option<FileInfo>)
      modifies this`alerts, this`uploadingImage, this`uploads
      ensures file.None? ==>
        alerts == old(alerts) && uploadingImage == old(uploadingImage) && uploads == old(uploads)
      ensures file.Some? && ImageRejection(file.value).Some? ==>
        alerts == old(alerts) + [ImageRejection(file.value).value]
        && uploadingImage == old(uploadingImage) && uploads == old(uploads)
      ensures file.Some? && ImageRejection(file.value).None? ==>
        alerts == old(alerts) && uploadingImage && uploads == old(uploads) + [file.value]
    {
      if file.None? {
        return;
      }
      var rejection := ImageRejection(file.value);
      if rejection.Some? {
        alerts := alerts + [rejection.value];
        return;
      }
      uploadingImage := true;
      uploads := uploads + [file.value];
    }

    method OnImageUploaded(response: UploadResponse)
      requires groupData.Some?
      modifies this`groupData, this`alerts, this`uploadingImage
      ensures groupData == Some(old(groupData).value.(image := ImageAfterUpload(old(groupData).value.image, response)))
      ensures alerts == old(alerts) + UploadAlerts(response) && !uploadingImage
    {
      groupData := Some(groupData.value.(image := ImageAfterUpload(groupData.value.image, response)));
      alerts := alerts + UploadAlerts(response);
      uploadingImage := false;
    }

    method OnImageUploadError()
      modifies this`alerts, this`uploadingImage
      ensures alerts == old(alerts) + [UploadErrorMessage] && !uploadingImage
    {
      alerts := alerts + [UploadErrorMessage];
      uploadingImage := false;
    }

    method RemoveImage()
      requires groupData.Some?
      modifies this`groupData
      ensures groupData == Some(old(groupData).value.(image := ""))
    {
      groupData := Some(groupData.value.(image := ""));
    }

    /** `onSubmit`: ignored while a save is in flight. */
    method OnSubmit()
      requires groupData.Some?
      modifies this`saving, this`errorMessage, this`updates
      ensures old(saving) ==> saving && errorMessage == old(errorMessage) && updates == old(updates)
      ensures !old(saving) ==> saving && errorMessage == "" && updates == old(updates) + [groupData.value]
    {
      if saving {
        return;
      }
      saving := true;
      errorMessage := "";
      updates := updates + [groupData.value];
    }

    /** A saved group opens its own page. */
    method OnSaved()
      modifies this`saving, this`navigations
      ensures !saving && navigations == old(navigations) + [["/groups", groupId]]
    {
      saving := false;
      navigations := navigations + [["/groups", groupId]];
    }

    method OnSaveError(serverError: string)
      modifies this`saving, this`errorMessage
      ensures !saving && errorMessage == SaveFailureMessage(serverError, UpdateFailedMessage)
    {
      errorMessage := SaveFailureMessage(serverError, UpdateFailedMessage);
      saving := false;
    }
  }
}
