/** The role badges shown next to a user's name: the backend-role list sorted by
    priority with its labels, and the older per-scope role getters computed from
    the component's inputs. */
module RoleTag {

  import opened Wrappers
  import opened JsText
  import StableSort

  /** A role as the client keeps it; optional fields are `None` when absent. */
  datatype UserRole = UserRole(
    role: string,
    communityId: Option<string>,
    groupId: Option<string>,
    expertiseAreas: Option<seq<string>>,
    verificationStatus: Option<string>)

  /** A role as the backend reports it for display (`type` is named `kind` here). */
  datatype BackendRole = BackendRole(
    kind: string,
    icon: string,
    priority: int,
    source: string,
    verificationStatus: Option<string>)

  /** The component's `@Input` fields. */
  datatype RoleTagInputs = RoleTagInputs(
    userRoles: seq<UserRole>,
    backendRoles: Option<seq<BackendRole>>,
    currentCommunityId: Option<string>,
    currentGroupId: Option<string>,
    showGroupAdmin: bool,
    showCommunityRoles: bool,
    showPlatformRoles: bool)

  /** The inputs before any binding: empty role lists, no scope, every kind shown. */
  function DefaultInputs(): (i: RoleTagInputs)
    ensures i.userRoles == [] && i.backendRoles == Some([])
    ensures i.currentCommunityId.None? && i.currentGroupId.None?
    ensures i.showGroupAdmin && i.showCommunityRoles && i.showPlatformRoles
  {
    RoleTagInputs([], Some([]), None, None, true, true, true)
  }

  /** JavaScript truthiness of an optional string. */
  predicate Truthy(o: Option<string>) {
    o.Some? && o.value != ""
  }

  /** `role.communityId ? role.communityId.toString() : undefined` */
  function NormalisedId(o: Option<string>): (r: Option<string>)
    ensures r.None? <==> !Truthy(o)
    ensures r.Some? ==> r == o
  {
    if Truthy(o) then o else None
  }

  function Priority(r: BackendRole): int {
    r.priority
  }

  /** `sortedBackendRoles`: a sorted copy of the backend roles, `[]` when absent. */
  function SortedBackendRoles(inputs: RoleTagInputs): (r: seq<BackendRole>)
    ensures inputs.backendRoles.None? ==> r == []
    ensures inputs.backendRoles.Some? ==>
      multiset(r) == multiset(inputs.backendRoles.value) && StableSort.SortedBy(r, Priority)
  {
    match inputs.backendRoles
    case None => []
    case Some(roles) =>
      StableSort.SortByKeySorted(roles, Priority);
      StableSort.SortByKey(roles, Priority)
  }

  /** Roles of equal priority keep the order in which they were given. */
  lemma SortedBackendRolesStable(inputs: RoleTagInputs, p: int)
    requires inputs.backendRoles.Some?
    ensures StableSort.WithKey(SortedBackendRoles(inputs), Priority, p)
         == StableSort.WithKey(inputs.backendRoles.value, Priority, p)
  {
    StableSort.SortByKeyStable(inputs.backendRoles.value, Priority, p);
  }

  /** `getBackendRoleText` */
  function BackendRoleText(role: BackendRole): (r: string)
    ensures role.kind == "admin" ==> r == "Admin"
    ensures role.kind == "groupAdmin" ==> r == "Group Admin"
    ensures role.kind == "moderator" ==> r == "Moderator"
    ensures role.kind == "expert" ==>
      r == (if role.verificationStatus == Some("verified") then "Expert" else "Expert (Pending)")
    ensures r == "" <==> role.kind !in ["admin", "groupAdmin", "moderator", "expert"]
  {
    match role.kind
    case "admin" => "Admin"
    case "groupAdmin" => "Group Admin"
    case "moderator" => "Moderator"
    case "expert" => if role.verificationStatus == Some("verified") then "Expert" else "Expert (Pending)"
    case _ => ""
  }

  /** The scope word of a badge title: `Group` for anything but platform and community. */
  function SourceLabel(source: string): (r: string)
    ensures r in ["Platform", "Community", "Group"]
    ensures r == "Group" <==> source != "platform" && source != "community"
  {
    if source == "platform" then "Platform"
    else if source == "community" then "Community"
    else "Group"
  }

  /** `getBackendRoleTitle`: scope word, a space, then the role text. */
  function BackendRoleTitle(role: BackendRole): (r: string)
    ensures StartsWith(r, SourceLabel(role.source) + " ")
    ensures EndsWith(r, BackendRoleText(role))
    ensures |r| == |SourceLabel(role.source)| + 1 + |BackendRoleText(role)|
  {
    SourceLabel(role.source) + " " + BackendRoleText(role)
  }

  /** A title names its scope and its role unambiguously: equal titles mean equal
      scope words and equal role texts. */
  lemma BackendRoleTitleDecodes(a: BackendRole, b: BackendRole)
    requires BackendRoleTitle(a) == BackendRoleTitle(b)
    ensures SourceLabel(a.source) == SourceLabel(b.source)
    ensures BackendRoleText(a) == BackendRoleText(b)
  {
    var la, lb := SourceLabel(a.source), SourceLabel(b.source);
    var t := BackendRoleTitle(a);
    var pa, pb := la + " ", lb + " ";
    assert t[..|pa|] == pa && t[..|pb|] == pb;
    var i := if |la| < |lb| then |la| else |lb|;
    assert pa[i] == t[i] == pb[i];
    assert forall j :: 0 <= j < |la| ==> la[j] != ' ';
    assert forall j :: 0 <= j < |lb| ==> lb[j] != ' ';
    assert |la| == |lb|;
    assert la == t[..|la|] == lb;
    assert BackendRoleText(a) == t[|la| + 1..] == BackendRoleText(b);
  }

  /** Some role satisfies `p` (`roles.some(p)`), written out per getter below. */
  predicate IsUnscopedAdmin(r: UserRole) {
    r.role == "admin" && !Truthy(r.communityId) && !Truthy(r.groupId)
  }

  /** `isPlatformAdmin` getter: off when platform roles are hidden. */
  function IsPlatformAdmin(inputs: RoleTagInputs): (b: bool)
    ensures b <==> inputs.showPlatformRoles
                   && exists k :: 0 <= k < |inputs.userRoles| && IsUnscopedAdmin(inputs.userRoles[k])
  {
    inputs.showPlatformRoles && Any(inputs.userRoles, IsUnscopedAdmin)
  }

  predicate IsExpertHere(r: UserRole, communityId: Option<string>) {
    r.role == "expert" && NormalisedId(r.communityId) == communityId
  }

  /** `isCommunityExpert` getter: an expert role of the current community, verified or not. */
  function IsCommunityExpert(inputs: RoleTagInputs): (b: bool)
    ensures b <==> inputs.showCommunityRoles && Truthy(inputs.currentCommunityId)
                   && exists k :: 0 <= k < |inputs.userRoles| && IsExpertHere(inputs.userRoles[k], inputs.currentCommunityId)
  {
    inputs.showCommunityRoles && Truthy(inputs.currentCommunityId)
    && Any(inputs.userRoles, (r: UserRole) => IsExpertHere(r, inputs.currentCommunityId))
  }

  /** `isCommunityModerator` getter */
  function IsCommunityModerator(inputs: RoleTagInputs): (b: bool)
    ensures b <==> inputs.showCommunityRoles && Truthy(inputs.currentCommunityId)
                   && exists k :: 0 <= k < |inputs.userRoles|
                        && inputs.userRoles[k].role == "moderator"
                        && NormalisedId(inputs.userRoles[k].communityId) == inputs.currentCommunityId
  {
    inputs.showCommunityRoles && Truthy(inputs.currentCommunityId)
    && Any(inputs.userRoles, (r: UserRole) => r.role == "moderator" && NormalisedId(r.communityId) == inputs.currentCommunityId)
  }

  /** `isGroupAdmin` getter: a group-admin or admin role of the current group. */
  function IsGroupAdmin(inputs: RoleTagInputs): (b: bool)
    ensures b <==> inputs.showGroupAdmin && Truthy(inputs.currentGroupId)
                   && exists k :: 0 <= k < |inputs.userRoles|
                        && (inputs.userRoles[k].role == "groupAdmin" || inputs.userRoles[k].role == "admin")
                        && NormalisedId(inputs.userRoles[k].groupId) == inputs.currentGroupId
  {
    inputs.showGroupAdmin && Truthy(inputs.currentGroupId)
    && Any(inputs.userRoles, (r: UserRole) => (r.role == "groupAdmin" || r.role == "admin") && NormalisedId(r.groupId) == inputs.currentGroupId)
  }

  /** The community getters are off when community roles are hidden or no community is set. */
  lemma CommunityGettersNeedScope(inputs: RoleTagInputs)
    requires !inputs.showCommunityRoles || !Truthy(inputs.currentCommunityId)
    ensures !IsCommunityExpert(inputs) && !IsCommunityModerator(inputs)
  {
  }

  /** The position of the first expert role of `communityId`
      (`userRoles.find(...)`), if any. */
  function FindExpertRole(roles: seq<UserRole>, communityId: Option<string>): (r: Option<nat>)
    ensures r.None? <==> forall k :: 0 <= k < |roles| ==> !IsExpertHere(roles[k], communityId)
    ensures r.Some? ==> (r.value < |roles| && IsExpertHere(roles[r.value], communityId)
      && forall k :: 0 <= k < r.value ==> !IsExpertHere(roles[k], communityId))
  {
    if roles == [] then None
    else if IsExpertHere(roles[0], communityId) then Some(0)
    else match FindExpertRole(roles[1..], communityId)
      case None => None
      case Some(k) => Some(k + 1)
  }

  /** The `expertiseAreas` getter: the areas of that first expert role, else `[]`. */
  function ExpertiseAreas(inputs: RoleTagInputs): (r: seq<string>)
    ensures FindExpertRole(inputs.userRoles, inputs.currentCommunityId).None? ==> r == []
    ensures FindExpertRole(inputs.userRoles, inputs.currentCommunityId).Some? ==>
      r == inputs.userRoles[FindExpertRole(inputs.userRoles, inputs.currentCommunityId).value].expertiseAreas.GetOr([])
  {
    match FindExpertRole(inputs.userRoles, inputs.currentCommunityId)
    case None => []
    case Some(k) => inputs.userRoles[k].expertiseAreas.GetOr([])
  }

  /** Role `k` is the first expert role of the current community. */
  predicate FirstExpertAt(inputs: RoleTagInputs, k: int) {
    0 <= k < |inputs.userRoles| && IsExpertHere(inputs.userRoles[k], inputs.currentCommunityId)
    && forall j :: 0 <= j < k ==> !IsExpertHere(inputs.userRoles[j], inputs.currentCommunityId)
  }

  /** `expertRole?.verificationStatus`: the status of the first expert role of
      the current community, absent when there is none. */
  function ExpertStatus(inputs: RoleTagInputs): (r: Option<string>)
    ensures (forall k :: 0 <= k < |inputs.userRoles| ==> !IsExpertHere(inputs.userRoles[k], inputs.currentCommunityId))
            ==> r.None?
    ensures forall k :: FirstExpertAt(inputs, k) ==> r == inputs.userRoles[k].verificationStatus
  {
    match FindExpertRole(inputs.userRoles, inputs.currentCommunityId)
    case None => None
    case Some(k) => inputs.userRoles[k].verificationStatus
  }

  /** `isVerified` getter: the first expert role of the current community is verified. */
  function IsVerified(inputs: RoleTagInputs): (b: bool)
    ensures b <==> exists k :: FirstExpertAt(inputs, k) && inputs.userRoles[k].verificationStatus == Some("verified")
  {
    ExpertStatus(inputs) == Some("verified")
  }

  /** `isPending` getter: the first expert role of the current community is pending. */
  function IsPending(inputs: RoleTagInputs): (b: bool)
    ensures b <==> exists k :: FirstExpertAt(inputs, k) && inputs.userRoles[k].verificationStatus == Some("pending")
  {
    ExpertStatus(inputs) == Some("pending")
  }

  /** Both getters read the same role, so at most one of them holds; with no
      expert role in scope neither does. */
  lemma VerifiedAndPendingExclusive(inputs: RoleTagInputs)
    ensures !(IsVerified(inputs) && IsPending(inputs))
    ensures (forall k :: 0 <= k < |inputs.userRoles| ==> !IsExpertHere(inputs.userRoles[k], inputs.currentCommunityId))
            ==> !IsVerified(inputs) && !IsPending(inputs)
  {
  }

  /** `getExpertiseAreasText` */
  function ExpertiseAreasText(inputs: RoleTagInputs): (r: string)
    ensures ExpertiseAreas(inputs) == [] ==> r == "Expert"
    ensures |ExpertiseAreas(inputs)| == 1 ==> r == "Expert in " + ExpertiseAreas(inputs)[0]
    ensures |ExpertiseAreas(inputs)| > 1 ==> r == "Expert in " + Join(ExpertiseAreas(inputs), ", ")
  {
    var areas := ExpertiseAreas(inputs);
    if |areas| == 0 then "Expert"
    else if |areas| == 1 then "Expert in " + areas[0]
    else "Expert in " + Join(areas, ", ")
  }

  /** The one-area case is the join of one element, so the text is uniformly
      "Expert in " followed by the joined areas whenever there are any. */
  lemma ExpertiseAreasTextIsJoin(inputs: RoleTagInputs)
    requires ExpertiseAreas(inputs) != []
    ensures ExpertiseAreasText(inputs) == "Expert in " + Join(ExpertiseAreas(inputs), ", ")
  {
  }

  /** `SimpleRoleTagComponent.getRoleText` over its three inputs. */
  function SimpleRoleText(role: string, isVerified: bool, expertiseCount: int): (r: string)
    ensures r == "" <==> role !in ["admin", "expert", "moderator", "groupAdmin"]
    ensures role == "expert" && expertiseCount <= 0 ==> r == (if isVerified then "Expert" else "Expert (Pending)")
    ensures role == "expert" && expertiseCount > 0 ==>
      r == (if isVerified then "Expert" else "Expert (Pending)") + " (" + NatToString(expertiseCount) + ")"
    ensures role == "admin" ==> r == "Admin"
    ensures role == "moderator" ==> r == "Moderator"
    ensures role == "groupAdmin" ==> r == "Group Admin"
  {
    match role
    case "admin" => "Admin"
    case "expert" =>
      var base := if isVerified then "Expert" else "Expert (Pending)";
      if expertiseCount > 0 then base + " (" + NatToString(expertiseCount) + ")" else base
    case "moderator" => "Moderator"
    case "groupAdmin" => "Group Admin"
    case _ => ""
  }
}
