/** The community directory: a search box and a category filter over a list
    fetched twelve at a time, with "load more" appending the next page. */
module CommunityList {

  import opened Wrappers

  const PageSize: nat := 12

  /** A community card, with the page's own "read more" flag. */
  datatype Community = Community(id: string, name: string, description: string, image: string,
                                 showFullDescription: bool)

  /** The query parameters of one request: category and search are sent only
      when they are non-empty. */
  datatype Query = Query(page: int, limit: nat, category: Option<string>, search: Option<string>)

  function QueryFor(page: int, selectedCategory: string, searchTerm: string): (q: Query)
    ensures q.page == page && q.limit == PageSize
    ensures q.category.Some? <==> selectedCategory != ""
    ensures q.search.Some? <==> searchTerm != ""
    ensures q.category.Some? ==> q.category.value == selectedCategory
    ensures q.search.Some? ==> q.search.value == searchTerm
  {
    Query(page, PageSize,
          if selectedCategory != "" then Some(selectedCategory) else None,
          if searchTerm != "" then Some(searchTerm) else None)
  }

  /** Every community of a response starts with its description collapsed. */
  function Collapsed(data: seq<Community>): (r: seq<Community>)
    ensures |r| == |data|
    ensures forall k :: 0 <= k < |data| ==> r[k] == data[k].(showFullDescription := false)
  {
    if data == [] then [] else [data[0].(showFullDescription := false)] + Collapsed(data[1..])
  }

  /** No community in a freshly loaded page is expanded. */
  lemma CollapsedHasNothingExpanded(data: seq<Community>)
    ensures forall c :: c in Collapsed(data) ==> !c.showFullDescription
  {
  }

  class CommunityListComponent {
    var communities: seq<Community>
    var loading: bool
    var searchTerm: string
    var selectedCategory: string
    var currentPage: int
    var hasMore: bool
    /** Queries sent to the server, oldest first. */
    var requests: seq<Query>

    constructor()
      ensures communities == [] && !loading && searchTerm == "" && selectedCategory == ""
      ensures currentPage == 1 && hasMore && requests == []
    {
      communities := [];
      loading := false;
      searchTerm := "";
      selectedCategory := "";
      currentPage := 1;
      hasMore := true;
      requests := [];
    }

    /** `loadCommunities(reset)` up to sending the request: a reset starts over at
        page 1 with an empty list. */
    method LoadCommunities(reset: bool)
      modifies this`currentPage, this`communities, this`hasMore, this`loading, this`requests
      ensures reset ==> currentPage == 1 && communities == [] && hasMore
      ensures !reset ==> currentPage == old(currentPage) && communities == old(communities) && hasMore == old(hasMore)
      ensures loading
      ensures requests == old(requests) + [QueryFor(currentPage, selectedCategory, searchTerm)]
    {
      if reset {
        currentPage := 1;
        communities := [];
        hasMore := true;
      }
      loading := true;
      requests := requests + [QueryFor(currentPage, selectedCategory, searchTerm)];
    }

    /** The response to `loadCommunities(reset)`: a reset replaces the list, and
        another page is appended; a full page means there may be more. */
    method OnCommunitiesResponse(reset: bool, data: seq<Community>)
      modifies this`communities, this`hasMore, this`loading
      ensures reset ==> communities == Collapsed(data)
      ensures !reset ==> communities == old(communities) + Collapsed(data)
      ensures hasMore <==> |data| == PageSize
      ensures !loading
    {
      if reset {
        communities := Collapsed(data);
      } else {
        communities := communities + Collapsed(data);
      }
      hasMore := |data| == PageSize;
      loading := false;
    }

    method OnCommunitiesError()
      modifies this`loading
      ensures !loading
    {
      loading := false;
    }

    /** `onSearch` and `onCategoryChange`: the current filters, from the first page. */
    method OnSearch()
      modifies this`currentPage, this`communities, this`hasMore, this`loading, this`requests
      ensures currentPage == 1 && communities == [] && hasMore && loading
      ensures requests == old(requests) + [QueryFor(1, selectedCategory, searchTerm)]
    {
      LoadCommunities(true);
    }

    /** `loadMore`: the next page, appended (there is no check that a load is not
        already running). */
    method LoadMore()
      modifies this`currentPage, this`communities, this`hasMore, this`loading, this`requests
      ensures currentPage == old(currentPage) + 1
      ensures communities == old(communities) && hasMore == old(hasMore) && loading
      ensures requests == old(requests) + [QueryFor(old(currentPage) + 1, selectedCategory, searchTerm)]
    {
      currentPage := currentPage + 1;
      LoadCommunities(false);
    }

    /** `toggleDescription` on the community at position `k`; the others are untouched. */
    method ToggleDescription(k: nat)
      requires k < |communities|
      modifies this`communities
      ensures |communities| == |old(communities)|
      ensures communities[k] == old(communities)[k].(showFullDescription := !old(communities)[k].showFullDescription)
      ensures forall j :: 0 <= j < |communities| && j != k ==> communities[j] == old(communities)[j]
    {
      communities := communities[k := communities[k].(showFullDescription := !communities[k].showFullDescription)];
    }
  }
}
