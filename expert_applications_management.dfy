/** The admin screen that reviews the expert applications of one community: a
    paged list with per-status counts, and approve/reject dialogs (approval
    assigns expertise areas, rejection needs a reason). */
module ExpertApplicationsManagement {

  import opened Wrappers
  import opened JsText

  const ApplicationsPerPage: nat := 10

  /** An application row, with the page's own "show details" flag. */
  datatype Application = Application(id: string, status: string, showDetails: bool)

  /** A request the screen sent. */
  datatype Request =
    | CommunityRequest(communityId: string)
    | ListRequest(communityId: string, status: string, page: int, limit: nat)
    | ApproveRequest(applicationId: string, expertiseAreas: seq<string>)
    | RejectRequest(applicationId: string, reason: string)

  /** The number of applications with the given status. */
  function CountStatus(apps: seq<Application>, status: string): (n: nat)
    ensures n <= |apps|
  {
    if apps == [] then 0
    else CountStatus(apps[..|apps| - 1], status) + (if apps[|apps| - 1].status == status then 1 else 0)
  }

  /** The three status counts never add up to more than the applications listed. */
  lemma {:induction false} StatusCountsBounded(apps: seq<Application>)
    ensures CountStatus(apps, "pending") + CountStatus(apps, "approved") + CountStatus(apps, "rejected") <= |apps|
  {
    if apps != [] {
      StatusCountsBounded(apps[..|apps| - 1]);
    }
  }

  /** A status is counted exactly when some application has it. */
  lemma {:induction false} CountStatusPositive(apps: seq<Application>, status: string)
    ensures CountStatus(apps, status) > 0 <==> exists k :: 0 <= k < |apps| && apps[k].status == status
  {
    if apps != [] {
      var init := apps[..|apps| - 1];
      CountStatusPositive(init, status);
      assert forall k :: 0 <= k < |init| ==> init[k] == apps[k];
    }
  }

  /** `toggleExpertiseArea`: a checked area is appended; an unchecked one loses
      its first occurrence, if it has one. */
  function ToggledAreas(areas: seq<string>, area: string, checked: bool): (r: seq<string>)
    ensures checked ==> r == areas + [area]
    ensures !checked && area !in areas ==> r == areas
    ensures !checked && area in areas ==>
      var i := IndexOf(areas, area).value;
      r == areas[..i] + areas[i + 1..] && |r| == |areas| - 1
    ensures !checked ==> multiset(r) == multiset(areas) - multiset{area}
  {
    if checked then areas + [area]
    else match IndexOf(areas, area)
      case None => areas
      case Some(i) =>
        assert areas == areas[..i] + [areas[i]] + areas[i + 1..];
        RemoveAt(areas, i)
  }

  /** Checking and then unchecking an area that was not selected gives back the
      same areas in the same order. */
  lemma CheckThenUncheckNew(areas: seq<string>, area: string)
    requires area !in areas
    ensures ToggledAreas(ToggledAreas(areas, area, true), area, false) == areas
  {
    var added := areas + [area];
    assert added[..|areas|] == areas;
    IndexOfIsFirst(added, area, |areas|);
    assert ToggledAreas(added, area, false) == added[..|areas|] + added[|areas| + 1..];
  }

  /** Checking and then unchecking an area that was already selected moves its
      first copy to the end; the areas themselves are the same. */
  lemma CheckThenUncheckPresent(areas: seq<string>, area: string)
    requires area in areas
    ensures
      var i := IndexOf(areas, area).value;
      ToggledAreas(ToggledAreas(areas, area, true), area, false) == areas[..i] + areas[i + 1..] + [area]
  {
    MoveFirstToEnd(areas, area, IndexOf(areas, area).value);
  }

  /** Appending a copy of the first occurrence and then removing the first
      occurrence moves it to the end. */
  lemma MoveFirstToEnd(areas: seq<string>, area: string, i: nat)
    requires i < |areas| && areas[i] == area && area !in areas[..i]
    ensures IndexOf(areas + [area], area) == Some(i)
    ensures (areas + [area])[..i] + (areas + [area])[i + 1..] == areas[..i] + areas[i + 1..] + [area]
  {
    var added := areas + [area];
    assert added[..i] == areas[..i];
    IndexOfIsFirst(added, area, i);
    assert added[i + 1..] == areas[i + 1..] + [area];
  }

  /** Checking and then unchecking never changes which areas are selected, or how often. */
  lemma CheckThenUncheckSameAreas(areas: seq<string>, area: string)
    ensures multiset(ToggledAreas(ToggledAreas(areas, area, true), area, false)) == multiset(areas)
  {
    var added := areas + [area];
    assert multiset(added) - multiset{area} == multiset(areas);
  }

  class ExpertApplicationsManagementComponent {
    var applications: seq<Application>
    var communityId: string
    var loading: bool
    var statusFilter: string
    var currentPage: int
    var totalPages: int
    var pendingCount: nat
    var approvedCount: nat
    var rejectedCount: nat
    var showApproveModal: bool
    var showRejectModal: bool
    var selectedApplication: Option<Application>
    var approving: bool
    var rejecting: bool
    var rejectionReason: string
    var selectedExpertiseAreas: seq<string>
    /** Alert texts shown, oldest first. */
    var alerts: seq<string>
    /** Routes navigated to, oldest first. */
    var navigations: seq<string>
    /** Requests sent to the server, oldest first. */
    var requests: seq<Request>

    /** The counters describe the applications on screen. */
    predicate StatsShown()
      reads this
    {
      && pendingCount == CountStatus(applications, "pending")
      && approvedCount == CountStatus(applications, "approved")
      && rejectedCount == CountStatus(applications, "rejected")
    }

    constructor()
      ensures StatsShown()
      ensures applications == [] && communityId == "" && !loading && statusFilter == ""
      ensures currentPage == 1 && totalPages == 1
      ensures !showApproveModal && !showRejectModal && selectedApplication.None?
      ensures !approving && !rejecting && rejectionReason == "" && selectedExpertiseAreas == []
      ensures alerts == [] && navigations == [] && requests == []
    {
      applications := [];
      communityId := "";
      loading := false;
      statusFilter := "";
      currentPage := 1;
      totalPages := 1;
      pendingCount := 0;
      approvedCount := 0;
      rejectedCount := 0;
      showApproveModal := false;
      showRejectModal := false;
      selectedApplication := None;
      approving := false;
      rejecting := false;
      rejectionReason := "";
      selectedExpertiseAreas := [];
      alerts := [];
      navigations := [];
      requests := [];
    }

    /** `ngOnInit` for the signed-in user's role (None when signed out) and the
        route's community id ("" when absent): anyone but an admin is sent to the
        home page and nothing is loaded. */
    method Init(userRole: Option<string>, routeCommunityId: string)
      modifies this`navigations, this`communityId, this`loading, this`requests
      ensures userRole != Some("admin") ==>
        navigations == old(navigations) + ["/"] && requests == old(requests)
        && communityId == old(communityId) && loading == old(loading)
      ensures userRole == Some("admin") && routeCommunityId != "" ==>
        && navigations == old(navigations) && communityId == routeCommunityId && loading
        && requests == old(requests) + [CommunityRequest(routeCommunityId),
             ListRequest(routeCommunityId, statusFilter, currentPage, ApplicationsPerPage)]
      ensures userRole == Some("admin") && routeCommunityId == "" ==>
        navigations == old(navigations) && requests == old(requests)
        && communityId == old(communityId) && loading == old(loading)
    {
      if userRole != Some("admin") {
        navigations := navigations + ["/"];
        return;
      }
      if routeCommunityId != "" {
        communityId := routeCommunityId;
        requests := requests + [CommunityRequest(communityId)];
        LoadApplications();
      }
    }

    /** The community could not be loaded: back to the community list. */
    method OnCommunityLoadError()
      modifies this`navigations
      ensures navigations == old(navigations) + ["/communities"]
    {
      navigations := navigations + ["/communities"];
    }

    method LoadApplications()
      modifies this`loading, this`requests
      ensures loading
      ensures requests == old(requests) + [ListRequest(communityId, statusFilter, currentPage, ApplicationsPerPage)]
    {
      loading := true;
      requests := requests + [ListRequest(communityId, statusFilter, currentPage, ApplicationsPerPage)];
    }

    /** A page of applications; a missing or zero `totalPages` is given as 0 and
        stands for a single page. */
    method OnApplicationsResponse(apps: seq<Application>, responseTotalPages: int)
      modifies this`applications, this`totalPages, this`pendingCount, this`approvedCount,
               this`rejectedCount, this`loading
      ensures applications == apps && StatsShown() && !loading
      ensures totalPages == if responseTotalPages != 0 then responseTotalPages else 1
    {
      applications := apps;
      totalPages := if responseTotalPages != 0 then responseTotalPages else 1;
      UpdateStats();
      loading := false;
    }

    method OnApplicationsError()
      modifies this`loading
      ensures !loading
    {
      loading := false;
    }

    /** `updateStats` */
    method UpdateStats()
      modifies this`pendingCount, this`approvedCount, this`rejectedCount
      ensures StatsShown()
      ensures pendingCount + approvedCount + rejectedCount <= |applications|
    {
      pendingCount := CountStatus(applications, "pending");
      approvedCount := CountStatus(applications, "approved");
      rejectedCount := CountStatus(applications, "rejected");
      StatusCountsBounded(applications);
    }

    /** `changePage`: only a page between 1 and `totalPages` is loaded. */
    method ChangePage(page: int)
      modifies this`currentPage, this`loading, this`requests
      ensures 1 <= page <= totalPages ==>
        currentPage == page && loading
        && requests == old(requests) + [ListRequest(communityId, statusFilter, page, ApplicationsPerPage)]
      ensures !(1 <= page <= totalPages) ==>
        currentPage == old(currentPage) && loading == old(loading) && requests == old(requests)
    {
      if page >= 1 && page <= totalPages {
        currentPage := page;
        LoadApplications();
      }
    }

    /** `toggleApplicationDetails` on the application at position `k`. */
    method ToggleApplicationDetails(k: nat)
      requires k < |applications|
      modifies this`applications
      ensures applications == old(applications)[k := old(applications)[k].(showDetails := !old(applications)[k].showDetails)]
      ensures StatsShown() == old(StatsShown())
    {
      ghost var before := applications;
      applications := applications[k := applications[k].(showDetails := !applications[k].showDetails)];
      SameStatusesSameCounts(before, applications);
    }

    method OpenApproveModal(app: Application)
      modifies this`selectedApplication, this`selectedExpertiseAreas, this`showApproveModal
      ensures selectedApplication == Some(app) && selectedExpertiseAreas == [] && showApproveModal
    {
      selectedApplication := Some(app);
      selectedExpertiseAreas := [];
      showApproveModal := true;
    }

    method CloseApproveModal()
      modifies this`selectedApplication, this`selectedExpertiseAreas, this`showApproveModal
      ensures selectedApplication.None? && selectedExpertiseAreas == [] && !showApproveModal
    {
      showApproveModal := false;
      selectedApplication := None;
      selectedExpertiseAreas := [];
    }

    method ToggleExpertiseArea(area: string, checked: bool)
      modifies this`selectedExpertiseAreas
      ensures selectedExpertiseAreas == ToggledAreas(old(selectedExpertiseAreas), area, checked)
    {
      if checked {
        selectedExpertiseAreas := selectedExpertiseAreas + [area];
      } else {
        var index := IndexOf(selectedExpertiseAreas, area);
        if index.Some? {
          selectedExpertiseAreas := RemoveAt(selectedExpertiseAreas, index.value);
        }
      }
    }

    /** `approveApplication` up to sending the request: nothing without a selection. */
    method ApproveApplication()
      modifies this`approving, this`requests
      ensures selectedApplication.None? ==> approving == old(approving) && requests == old(requests)
      ensures selectedApplication.Some? ==>
        approving
        && requests == old(requests) + [ApproveRequest(selectedApplication.value.id, selectedExpertiseAreas)]
    {
      if selectedApplication.None? {
        return;
      }
      approving := true;
      requests := requests + [ApproveRequest(selectedApplication.value.id, selectedExpertiseAreas)];
    }

    /** A successful approval closes the dialog and reloads the list. */
    method OnApproved()
      modifies this`selectedApplication, this`selectedExpertiseAreas, this`showApproveModal,
               this`loading, this`requests, this`approving, this`alerts
      ensures selectedApplication.None? && selectedExpertiseAreas == [] && !showApproveModal && !approving
      ensures loading
      ensures requests == old(requests) + [ListRequest(communityId, statusFilter, currentPage, ApplicationsPerPage)]
      ensures alerts == old(alerts) + ["Application approved successfully!"]
    {
      CloseApproveModal();
      LoadApplications();
      approving := false;
      alerts := alerts + ["Application approved successfully!"];
    }

    /** A failed approval keeps the dialog open. */
    method OnApproveError()
      modifies this`approving, this`alerts
      ensures !approving && alerts == old(alerts) + ["Failed to approve application"]
    {
      alerts := alerts + ["Failed to approve application"];
      approving := false;
    }

    method OpenRejectModal(app: Application)
      modifies this`selectedApplication, this`rejectionReason, this`showRejectModal
      ensures selectedApplication == Some(app) && rejectionReason == "" && showRejectModal
    {
      selectedApplication := Some(app);
      rejectionReason := "";
      showRejectModal := true;
    }

    method CloseRejectModal()
      modifies this`selectedApplication, this`rejectionReason, this`showRejectModal
      ensures selectedApplication.None? && rejectionReason == "" && !showRejectModal
    {
      showRejectModal := false;
      selectedApplication := None;
      rejectionReason := "";
    }

    /** `rejectApplication` up to sending the request: nothing without a selection
        or with a blank reason; the reason is sent as typed. */
    method RejectApplication()
      modifies this`rejecting, this`requests
      ensures selectedApplication.None? || IsBlank(rejectionReason) ==>
        rejecting == old(rejecting) && requests == old(requests)
      ensures selectedApplication.Some? && !IsBlank(rejectionReason) ==>
        rejecting
        && requests == old(requests) + [RejectRequest(selectedApplication.value.id, rejectionReason)]
    {
      if selectedApplication.None? || IsBlank(rejectionReason) {
        return;
      }
      rejecting := true;
      requests := requests + [RejectRequest(selectedApplication.value.id, rejectionReason)];
    }

    method OnRejected()
      modifies this`selectedApplication, this`rejectionReason, this`showRejectModal,
               this`loading, this`requests, this`rejecting, this`alerts
      ensures selectedApplication.None? && rejectionReason == "" && !showRejectModal && !rejecting
      ensures loading
      ensures requests == old(requests) + [ListRequest(communityId, statusFilter, currentPage, ApplicationsPerPage)]
      ensures alerts == old(alerts) + ["Application rejected"]
    {
      CloseRejectModal();
      LoadApplications();
      rejecting := false;
      alerts := alerts + ["Application rejected"];
    }

    method OnRejectError()
      modifies this`rejecting, this`alerts
      ensures !rejecting && alerts == old(alerts) + ["Failed to reject application"]
    {
      alerts := alerts + ["Failed to reject application"];
      rejecting := false;
    }
  }

  /** Changing anything but the statuses leaves every count as it was. */
  lemma {:induction false} SameStatusesSameCounts(a: seq<Application>, b: seq<Application>)
    requires |a| == |b| && forall k :: 0 <= k < |a| ==> a[k].status == b[k].status
    ensures forall s :: CountStatus(a, s) == CountStatus(b, s)
  {
    if a != [] {
      SameStatusesSameCounts(a[..|a| - 1], b[..|b| - 1]);
    }
  }
}
