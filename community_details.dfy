/** The community page: its approved experts, its groups (filtered by type), and
    the small lookups the page uses to show members and groups. */
module CommunityDetails {

  import opened Wrappers
  import opened JsText
  import GroupDetail

  /** An entry of the community's `experts` list. */
  datatype Expert = Expert(userId: string, status: string)

  /** `approvedExperts`: the experts whose status is "approved", or [] when the
      community or its list is missing. */
  function ApprovedExperts(experts: Option<seq<Expert>>): (r: seq<Expert>)
    ensures |r| <= |experts.GetOr([])|
    ensures forall e :: e in r <==> experts.Some? && e in experts.value && e.status == "approved"
    ensures forall e :: multiset(r)[e] == if e.status == "approved" then multiset(experts.GetOr([]))[e] else 0
  {
    match experts
    case None => []
    case Some(es) =>
      FilterMultiplicity(es, (e: Expert) => e.status == "approved");
      Filter(es, (e: Expert) => e.status == "approved")
  }

  /** The approved experts keep the list's order: the approved experts of two
      lists in a row are those of the first followed by those of the second, and
      a single expert is kept exactly when approved. */
  lemma ApprovedExpertsInOrder(a: seq<Expert>, b: seq<Expert>, e: Expert)
    ensures ApprovedExperts(Some(a + b)) == ApprovedExperts(Some(a)) + ApprovedExperts(Some(b))
    ensures ApprovedExperts(Some([e])) == if e.status == "approved" then [e] else []
  {
    FilterAppend(a, b, (e: Expert) => e.status == "approved");
    FilterSingle(e, (e: Expert) => e.status == "approved");
  }

  /** A member entry as the page receives it: either a bare name, or an object
      whose `userId` may be populated. Missing text fields are "". */
  datatype Member =
    | MemberText(text: string)
    | MemberObject(userIdName: string, userIdAvatar: string, name: string, username: string,
                   avatar: string, profilePicture: string)

  const UnknownUser: string := "Unknown User"
  const DefaultMemberAvatar: string := "/assets/user-avatar.png"

  /** `getUserName`: a bare name as it is; otherwise the first non-empty of the
      populated user's name, the name and the username. */
  function GetUserName(m: Member): (r: string)
    ensures m.MemberText? ==> r == m.text
    ensures m.MemberObject? ==> r != "" && r in [m.userIdName, m.name, m.username, UnknownUser]
    ensures m.MemberObject? && m.userIdName != "" ==> r == m.userIdName
    ensures m.MemberObject? && m.userIdName == "" && m.name != "" ==> r == m.name
    ensures m.MemberObject? && m.userIdName == "" && m.name == "" && m.username != "" ==> r == m.username
    ensures m.MemberObject? && m.userIdName == "" && m.name == "" && m.username == "" ==> r == UnknownUser
  {
    match m
    case MemberText(text) => text
    case MemberObject(userIdName, _, name, username, _, _) => Or(userIdName, Or(name, Or(username, UnknownUser)))
  }

  /** `getUserAvatar`: the populated user's avatar, then the avatar, then the
      profile picture, then the default image. A bare name has no avatar. */
  function GetUserAvatar(m: Member): (r: string)
    ensures r != ""
    ensures m.MemberText? ==> r == DefaultMemberAvatar
    ensures m.MemberObject? ==> r in [m.userIdAvatar, m.avatar, m.profilePicture, DefaultMemberAvatar]
    ensures m.MemberObject? && m.userIdAvatar != "" ==> r == m.userIdAvatar
    ensures m.MemberObject? && m.userIdAvatar == "" && m.avatar != "" ==> r == m.avatar
    ensures m.MemberObject? && m.userIdAvatar == "" && m.avatar == "" && m.profilePicture != "" ==> r == m.profilePicture
  {
    match m
    case MemberText(_) => DefaultMemberAvatar
    case MemberObject(_, userIdAvatar, _, _, avatar, profilePicture) =>
      Or(Or(userIdAvatar, Or(avatar, profilePicture)), DefaultMemberAvatar)
  }

  /** `getGroupInitial`: the upper-cased first character of the title, else of the
      name, else of "Group" — always exactly one character. */
  function GetGroupInitial(title: string, name: string): (r: string)
    ensures |r| == 1
    ensures title != "" ==> r == [UpperChar(title[0])]
    ensures title == "" && name != "" ==> r == [UpperChar(name[0])]
    ensures title == "" && name == "" ==> r == "G"
  {
    Upper(CharAt0(Or(title, Or(name, "Group"))))
  }

  const GrayClass: string := "bg-gray-100 text-gray-800"

  /** `getGroupTypeClass` of this page, which ignores letter case. */
  function GroupTypeClass(groupType: string): (r: string)
    ensures r == GrayClass <==> Lower(groupType) !in {"public", "private", "secret"}
  {
    match Lower(groupType)
    case "public" => "bg-green-100 text-green-800"
    case "private" => "bg-yellow-100 text-yellow-800"
    case "secret" => "bg-red-100 text-red-800"
    case _ => GrayClass
  }

  /** `getMembershipStatusClass`, which ignores letter case. */
  function MembershipStatusClass(status: string): (r: string)
    ensures r == GrayClass <==> Lower(status) !in {"active", "pending", "banned"}
  {
    match Lower(status)
    case "active" => "bg-green-100 text-green-800"
    case "pending" => "bg-yellow-100 text-yellow-800"
    case "banned" => "bg-red-100 text-red-800"
    case _ => GrayClass
  }

  /** Letter case never changes the group type class. */
  lemma GroupTypeClassIgnoresCase(s: string)
    ensures GroupTypeClass(s) == GroupTypeClass(Lower(s))
  {
    LowerIdempotent(s);
  }

  /** Letter case never changes the membership status class. */
  lemma MembershipStatusClassIgnoresCase(s: string)
    ensures MembershipStatusClass(s) == MembershipStatusClass(Lower(s))
  {
    LowerIdempotent(s);
  }

  lemma LowerPublic()
    ensures Lower("Public") == "public"
  {
    assert forall i :: 0 <= i < 6 ==> Lower("Public")[i] == LowerChar("Public"[i]);
  }

  lemma LowerPrivate()
    ensures Lower("Private") == "private"
  {
    assert forall i :: 0 <= i < 7 ==> Lower("Private")[i] == LowerChar("Private"[i]);
  }

  lemma LowerSecret()
    ensures Lower("Secret") == "secret"
  {
    assert forall i :: 0 <= i < 6 ==> Lower("Secret")[i] == LowerChar("Secret"[i]);
  }

  /** On the capitalised type names the group page uses, this page's class is the
      group page's. */
  lemma GroupTypeClassAgreesWithGroupPage(groupType: string)
    requires groupType in {"Public", "Private", "Secret"}
    ensures GroupTypeClass(groupType) == GroupDetail.GroupTypeClass(groupType)
  {
    if groupType == "Public" {
      LowerPublic();
    } else if groupType == "Private" {
      LowerPrivate();
    } else {
      LowerSecret();
    }
  }

  /** A group of the community (only what the page reads). */
  datatype GroupSummary = GroupSummary(id: string, title: string, name: string, groupType: string)

  /** The groups response: either an array, or an object with `groups` and/or `data`. */
  datatype GroupsResponse =
    | GroupArray(items: seq<GroupSummary>)
    | GroupObject(groups: Option<seq<GroupSummary>>, data: Option<seq<GroupSummary>>)

  /** `Array.isArray(response) ? response : (response.groups || response.data || [])`:
      a present array counts even when it is empty. */
  function GroupsOf(response: GroupsResponse): (r: seq<GroupSummary>)
    ensures response.GroupArray? ==> r == response.items
    ensures response.GroupObject? && response.groups.Some? ==> r == response.groups.value
    ensures response.GroupObject? && response.groups.None? ==> r == response.data.GetOr([])
  {
    match response
    case GroupArray(items) => items
    case GroupObject(groups, data) => if groups.Some? then groups.value else data.GetOr([])
  }

  /** The parameters of a groups request: `type` only when a type other than "All" is chosen. */
  datatype GroupsQuery = GroupsQuery(communityId: string, limit: nat, groupType: Option<string>)

  function GroupsQueryFor(communityId: string, selectedGroupType: string): (q: GroupsQuery)
    ensures q.communityId == communityId && q.limit == 20
    ensures q.groupType.Some? <==> selectedGroupType != "All"
    ensures q.groupType.Some? ==> q.groupType.value == selectedGroupType
  {
    GroupsQuery(communityId, 20, if selectedGroupType != "All" then Some(selectedGroupType) else None)
  }

  class CommunityDetailsComponent {
    var communityId: Option<string>
    var groups: seq<GroupSummary>
    var groupsLoading: bool
    var isLoggedIn: bool
    var isAdmin: bool
    var isExpert: bool
    var selectedGroupType: string
    /** Group requests sent, oldest first. */
    var requests: seq<GroupsQuery>

    constructor()
      ensures communityId.None? && groups == [] && !groupsLoading && !isLoggedIn && !isAdmin && !isExpert
      ensures selectedGroupType == "All" && requests == []
    {
      communityId := None;
      groups := [];
      groupsLoading := false;
      isLoggedIn := false;
      isAdmin := false;
      isExpert := false;
      selectedGroupType := "All";
      requests := [];
    }

    /** `checkUserStatus` for the signed-in user's role (None when signed out);
        the expert flag is never set. */
    method CheckUserStatus(userRole: Option<string>)
      modifies this`isLoggedIn, this`isAdmin, this`isExpert
      ensures isLoggedIn <==> userRole.Some?
      ensures isAdmin <==> userRole == Some("admin")
      ensures !isExpert
    {
      isLoggedIn := userRole.Some?;
      isAdmin := userRole == Some("admin");
      isExpert := false;
    }

    /** `loadCommunity` answered: the page now knows the community, by its `id`. */
    method OnCommunityLoaded(id: string)
      modifies this`communityId
      ensures communityId == Some(id)
    {
      communityId := Some(id);
    }

    method LoadGroups(id: string)
      modifies this`groupsLoading, this`requests
      ensures groupsLoading && requests == old(requests) + [GroupsQueryFor(id, selectedGroupType)]
    {
      groupsLoading := true;
      requests := requests + [GroupsQueryFor(id, selectedGroupType)];
    }

    method OnGroupsResponse(response: GroupsResponse)
      modifies this`groups, this`groupsLoading
      ensures groups == GroupsOf(response) && !groupsLoading
    {
      groups := GroupsOf(response);
      groupsLoading := false;
    }

    /** A failed groups request empties the list. */
    method OnGroupsError()
      modifies this`groups, this`groupsLoading
      ensures groups == [] && !groupsLoading
    {
      groups := [];
      groupsLoading := false;
    }

    /** `filterByType`: reloads the groups only once the community is loaded. */
    method FilterByType(groupType: string)
      modifies this`selectedGroupType, this`groupsLoading, this`requests
      ensures selectedGroupType == groupType
      ensures communityId.Some? ==>
        groupsLoading && requests == old(requests) + [GroupsQueryFor(communityId.value, groupType)]
      ensures communityId.None? ==> groupsLoading == old(groupsLoading) && requests == old(requests)
    {
      selectedGroupType := groupType;
      if communityId.Some? {
        LoadGroups(communityId.value);
      }
    }
  }
}
