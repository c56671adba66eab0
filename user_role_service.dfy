/** The role checks of the user-role service: converting the API's role record,
    scope-filtered role predicates, the highest role for display and its label. */
module UserRoleService {

  import opened Wrappers
  import opened JsText
  import opened RoleTag

  /** The fields of the API role record that the conversion reads. */
  datatype UserRoleResponse = UserRoleResponse(
    role: string,
    communityId: Option<string>,
    groupId: Option<string>,
    expertiseAreas: Option<seq<string>>,
    verificationStatus: Option<string>)

  /** `convertToUserRole`: renames `group-admin` and copies the rest. */
  function ConvertToUserRole(api: UserRoleResponse): (r: UserRole)
    ensures api.role == "group-admin" ==> r.role == "groupAdmin"
    ensures api.role != "group-admin" ==> r.role == api.role
    ensures r.communityId == api.communityId && r.groupId == api.groupId
    ensures r.expertiseAreas == api.expertiseAreas && r.verificationStatus == api.verificationStatus
  {
    UserRole(if api.role == "group-admin" then "groupAdmin" else api.role,
             api.communityId, api.groupId, api.expertiseAreas, api.verificationStatus)
  }

  /** A converted role never carries the API's hyphenated name, and no other role name changes. */
  lemma ConvertedRoleNames(api: UserRoleResponse)
    ensures ConvertToUserRole(api).role != "group-admin"
    ensures ConvertToUserRole(api).role == api.role <==> api.role != "group-admin"
  {
  }

  /** The test `hasRole` applies to each role: the name matches, and each filter
      that is supplied (truthy) matches exactly. */
  predicate MatchesRole(r: UserRole, targetRole: string, communityId: Option<string>, groupId: Option<string>) {
    r.role == targetRole
    && (Truthy(communityId) ==> r.communityId == communityId)
    && (Truthy(groupId) ==> r.groupId == groupId)
  }

  function HasRole(roles: seq<UserRole>, targetRole: string, communityId: Option<string>, groupId: Option<string>): (b: bool)
    ensures b <==> exists k :: 0 <= k < |roles| && MatchesRole(roles[k], targetRole, communityId, groupId)
  {
    Any(roles, (r: UserRole) => MatchesRole(r, targetRole, communityId, groupId))
  }

  /** `isPlatformAdmin`: an admin role bound to neither a community nor a group. */
  function IsPlatformAdmin(roles: seq<UserRole>): (b: bool)
    ensures b <==> exists k :: 0 <= k < |roles| && roles[k].role == "admin"
                              && !Truthy(roles[k].communityId) && !Truthy(roles[k].groupId)
  {
    Any(roles, IsUnscopedAdmin)
  }

  predicate IsVerifiedExpertOf(r: UserRole, communityId: string) {
    r.role == "expert" && r.communityId == Some(communityId) && r.verificationStatus == Some("verified")
  }

  /** `isCommunityExpert`: only a verified expert role of that community counts. */
  function IsCommunityExpert(roles: seq<UserRole>, communityId: string): (b: bool)
    ensures b <==> exists k :: 0 <= k < |roles| && IsVerifiedExpertOf(roles[k], communityId)
  {
    Any(roles, (r: UserRole) => IsVerifiedExpertOf(r, communityId))
  }

  /** `isCommunityModerator` */
  function IsCommunityModerator(roles: seq<UserRole>, communityId: string): (b: bool)
    ensures b <==> exists k :: 0 <= k < |roles| && roles[k].role == "moderator" && roles[k].communityId == Some(communityId)
  {
    Any(roles, (r: UserRole) => r.role == "moderator" && r.communityId == Some(communityId))
  }

  /** `isGroupAdmin`: an `admin` role (not `groupAdmin`) of that group. */
  function IsGroupAdmin(roles: seq<UserRole>, groupId: string): (b: bool)
    ensures b <==> exists k :: 0 <= k < |roles| && roles[k].role == "admin" && roles[k].groupId == Some(groupId)
  {
    Any(roles, (r: UserRole) => r.role == "admin" && r.groupId == Some(groupId))
  }

  /** The scoped predicates are `hasRole` with one filter supplied. */
  lemma ScopedChecksAreHasRole(roles: seq<UserRole>, id: string)
    requires id != ""
    ensures IsCommunityModerator(roles, id) == HasRole(roles, "moderator", Some(id), None)
    ensures IsGroupAdmin(roles, id) == HasRole(roles, "admin", None, Some(id))
  {
    if IsCommunityModerator(roles, id) {
      var k :| 0 <= k < |roles| && roles[k].role == "moderator" && roles[k].communityId == Some(id);
      assert MatchesRole(roles[k], "moderator", Some(id), None);
    }
    if IsGroupAdmin(roles, id) {
      var k :| 0 <= k < |roles| && roles[k].role == "admin" && roles[k].groupId == Some(id);
      assert MatchesRole(roles[k], "admin", None, Some(id));
    }
  }

  /** The service's expert check implies the role badge's, which does not look at
      verification: a verified expert shows the badge, a pending one shows it too. */
  lemma ServiceExpertImpliesBadge(roles: seq<UserRole>, id: string, inputs: RoleTagInputs)
    requires id != "" && inputs.userRoles == roles && inputs.currentCommunityId == Some(id)
    requires inputs.showCommunityRoles
    requires IsCommunityExpert(roles, id)
    ensures RoleTag.IsCommunityExpert(inputs)
  {
    var k :| 0 <= k < |roles| && IsVerifiedExpertOf(roles[k], id);
    assert IsExpertHere(roles[k], Some(id));
  }

  lemma PendingExpertShowsBadgeOnly(id: string)
    requires id != ""
    ensures var pending := UserRole("expert", Some(id), None, None, Some("pending"));
      && !IsCommunityExpert([pending], id)
      && RoleTag.IsCommunityExpert(RoleTagInputs([pending], None, Some(id), None, true, true, true))
  {
    var pending := UserRole("expert", Some(id), None, None, Some("pending"));
    assert IsExpertHere([pending][0], Some(id));
  }

  // ---- Highest role ----

  /** The filter of `getHighestRole`: a role is dropped only when both it and the
      filter name a community (or group) and the two differ. */
  predicate IsRelevant(r: UserRole, communityId: Option<string>, groupId: Option<string>) {
    !(Truthy(communityId) && Truthy(r.communityId) && r.communityId != communityId)
    && !(Truthy(groupId) && Truthy(r.groupId) && r.groupId != groupId)
  }

  /** The `filter`: the relevant roles, each as often as it occurs in `roles`. */
  function RelevantRoles(roles: seq<UserRole>, communityId: Option<string>, groupId: Option<string>): (r: seq<UserRole>)
    ensures forall x :: x in r <==> x in roles && IsRelevant(x, communityId, groupId)
    ensures forall x :: multiset(r)[x] == if IsRelevant(x, communityId, groupId) then multiset(roles)[x] else 0
  {
    FilterMultiplicity(roles, (x: UserRole) => IsRelevant(x, communityId, groupId));
    Filter(roles, (x: UserRole) => IsRelevant(x, communityId, groupId))
  }

  /** The filter keeps the input order: it distributes over concatenation and
      keeps a single role exactly when it is relevant. */
  lemma RelevantRolesInOrder(a: seq<UserRole>, b: seq<UserRole>, x: UserRole,
                             communityId: Option<string>, groupId: Option<string>)
    ensures RelevantRoles(a + b, communityId, groupId)
            == RelevantRoles(a, communityId, groupId) + RelevantRoles(b, communityId, groupId)
    ensures RelevantRoles([x], communityId, groupId) == if IsRelevant(x, communityId, groupId) then [x] else []
  {
    FilterAppend(a, b, (x: UserRole) => IsRelevant(x, communityId, groupId));
    FilterSingle(x, (x: UserRole) => IsRelevant(x, communityId, groupId));
  }

  /** A role without a community and a group survives every filter. */
  lemma UnscopedRolesAlwaysRelevant(roles: seq<UserRole>, r: UserRole, communityId: Option<string>, groupId: Option<string>)
    requires r in roles && !Truthy(r.communityId) && !Truthy(r.groupId)
    ensures r in RelevantRoles(roles, communityId, groupId)
  {
  }

  /** `priorities[role] || 0` */
  function RolePriority(role: string): (p: nat)
    ensures p <= 5
    ensures p == 0 <==> role !in ["admin", "moderator", "groupAdmin", "expert", "user"]
  {
    match role
    case "admin" => 5
    case "moderator" => 4
    case "groupAdmin" => 3
    case "expert" => 2
    case "user" => 1
    case _ => 0
  }

  /** One step of the `reduce`: the first role seeds it, and a later role replaces
      the current one only with a strictly higher priority. */
  function HigherOf(highest: Option<UserRole>, current: UserRole): UserRole {
    match highest
    case None => current
    case Some(h) => if RolePriority(current.role) > RolePriority(h.role) then current else h
  }

  /** `roles.reduce(step, null)`, folding from the left. */
  function ReduceHighest(roles: seq<UserRole>): Option<UserRole> {
    if roles == [] then None
    else Some(HigherOf(ReduceHighest(roles[..|roles| - 1]), roles[|roles| - 1]))
  }

  function Rank(r: UserRole): nat {
    RolePriority(r.role)
  }

  /** The position the fold ends on: the first position of maximal priority. */
  function HighestIndex(roles: seq<UserRole>): (k: nat)
    requires roles != []
    ensures k < |roles|
  {
    if |roles| == 1 then 0
    else
      var b := HighestIndex(roles[..|roles| - 1]);
      if Rank(roles[|roles| - 1]) > Rank(roles[b]) then |roles| - 1 else b
  }

  lemma {:induction false} ReduceHighestIsAtHighestIndex(roles: seq<UserRole>)
    ensures ReduceHighest(roles).None? <==> roles == []
    ensures roles != [] ==> ReduceHighest(roles) == Some(roles[HighestIndex(roles)])
  {
    if |roles| > 1 {
      var init := roles[..|roles| - 1];
      ReduceHighestIsAtHighestIndex(init);
      assert init[HighestIndex(init)] == roles[HighestIndex(init)];
    }
  }

  lemma {:induction false} HighestIndexIsFirstMaximum(roles: seq<UserRole>)
    requires roles != []
    ensures forall j :: 0 <= j < |roles| ==> Rank(roles[j]) <= Rank(roles[HighestIndex(roles)])
    ensures forall j :: 0 <= j < HighestIndex(roles) ==> Rank(roles[j]) < Rank(roles[HighestIndex(roles)])
  {
    if |roles| > 1 {
      var init := roles[..|roles| - 1];
      HighestIndexIsFirstMaximum(init);
      assert forall j :: 0 <= j < |init| ==> init[j] == roles[j];
    }
  }

  /** `getHighestRole(roles, communityId, groupId)` */
  function GetHighestRole(roles: seq<UserRole>, communityId: Option<string>, groupId: Option<string>): Option<UserRole> {
    ReduceHighest(RelevantRoles(roles, communityId, groupId))
  }

  /** `null` exactly when no role survives the filter; otherwise a surviving role
      that no surviving role exceeds in priority, the earliest such on ties. */
  lemma GetHighestRoleSpec(roles: seq<UserRole>, communityId: Option<string>, groupId: Option<string>)
    ensures var rel := RelevantRoles(roles, communityId, groupId);
      && (GetHighestRole(roles, communityId, groupId).None? <==> rel == [])
      && (GetHighestRole(roles, communityId, groupId).Some? ==>
          var h := GetHighestRole(roles, communityId, groupId).value;
          && h in roles && IsRelevant(h, communityId, groupId)
          && (forall x :: x in roles && IsRelevant(x, communityId, groupId) ==> Rank(x) <= Rank(h))
          && (exists k :: 0 <= k < |rel| && rel[k] == h && forall j :: 0 <= j < k ==> Rank(rel[j]) < Rank(h))
          && exists i :: 0 <= i < |roles| && roles[i] == h
                         && forall j :: 0 <= j < i && IsRelevant(roles[j], communityId, groupId) ==> Rank(roles[j]) < Rank(h))
  {
    var rel := RelevantRoles(roles, communityId, groupId);
    ReduceHighestIsAtHighestIndex(rel);
    if rel != [] {
      HighestIndexIsFirstMaximum(rel);
      var k := HighestIndex(rel);
      var h := rel[k];
      assert h in rel;
      forall x | x in roles && IsRelevant(x, communityId, groupId)
        ensures Rank(x) <= Rank(h)
      {
        assert x in rel;
        var j :| 0 <= j < |rel| && rel[j] == x;
      }
      FirstOfRankInInput(roles, communityId, groupId, k);
    }
  }

  /** The role at position `k` of the filtered list sits at an input position
      before which every relevant role ranks strictly lower, when every role
      before `k` in the filtered list does. */
  lemma FirstOfRankInInput(roles: seq<UserRole>, communityId: Option<string>, groupId: Option<string>, k: nat)
    requires k < |RelevantRoles(roles, communityId, groupId)|
    requires var rel := RelevantRoles(roles, communityId, groupId);
      forall j :: 0 <= j < k ==> Rank(rel[j]) < Rank(rel[k])
    ensures var h := RelevantRoles(roles, communityId, groupId)[k];
      exists i :: 0 <= i < |roles| && roles[i] == h
                  && forall j :: 0 <= j < i && IsRelevant(roles[j], communityId, groupId) ==> Rank(roles[j]) < Rank(h)
  {
    var keep := (x: UserRole) => IsRelevant(x, communityId, groupId);
    var rel := RelevantRoles(roles, communityId, groupId);
    assert rel == Filter(roles, keep);
    FilterEarlier(roles, keep, k);
    var i :| 0 <= i < |roles| && roles[i] == rel[k]
             && forall j :: 0 <= j < i && keep(roles[j]) ==> exists j' :: 0 <= j' < k && rel[j'] == roles[j];
    forall j | 0 <= j < i && IsRelevant(roles[j], communityId, groupId)
      ensures Rank(roles[j]) < Rank(rel[k])
    {
      assert keep(roles[j]);
      var j' :| 0 <= j' < k && rel[j'] == roles[j];
    }
  }


  // ---- Display text ----

  /** `getRoleDisplayText` */
  function RoleDisplayText(role: UserRole): (r: string)
    ensures role.role == "admin" && !Truthy(role.communityId) && !Truthy(role.groupId) ==> r == "Platform Admin"
    ensures role.role == "admin" && Truthy(role.groupId) ==> r == "Group Admin"
    ensures role.role == "admin" && Truthy(role.communityId) && !Truthy(role.groupId) ==> r == "Community Admin"
    ensures role.role == "expert" ==>
      r == "Expert" + (if role.verificationStatus == Some("verified") then "" else " (Pending)")
                    + (if role.expertiseAreas.Some? && |role.expertiseAreas.value| > 0
                       then " (" + NatToString(|role.expertiseAreas.value|) + ")" else "")
    ensures role.role == "moderator" ==> r == "Moderator"
    ensures r == "" <==> role.role !in ["admin", "expert", "moderator"]
  {
    match role.role
    case "admin" =>
      if !Truthy(role.communityId) && !Truthy(role.groupId) then "Platform Admin"
      else if Truthy(role.groupId) then "Group Admin"
      else "Community Admin"
    case "expert" =>
      var status := if role.verificationStatus == Some("verified") then "" else " (Pending)";
      var areas := if role.expertiseAreas.Some? && |role.expertiseAreas.value| > 0
                   then " (" + NatToString(|role.expertiseAreas.value|) + ")" else "";
      "Expert" + status + areas
    case "moderator" => "Moderator"
    case _ => ""
  }
}
