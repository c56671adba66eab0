/** The home feed: posts fetched a page at a time and appended as the reader
    scrolls, each post normalised into the shape the feed renders. */
module Feed {

  import opened Wrappers
  import opened JsText
  import opened Models
  import opened MediaUrls

  /** The `authorId` of a post as the server sends it: a populated user object,
      or a bare id (a string; a missing or null id is ""). Missing text fields
      of the object are "". */
  datatype RawAuthor =
    | AuthorObject(objectId: string, id: string, name: string, email: string, role: string,
                   avatar: string, bio: string, location: string)
    | AuthorRef(ref: string)

  /** A post as the API returns it: the fields the feed reads or copies. */
  datatype RawPost = RawPost(
    objectId: string,
    id: string,
    authorId: RawAuthor,
    content: string,
    createdAt: string,
    category: string,
    mediaType: string,
    mediaUrl: string,
    likes: seq<string>,
    postType: string)

  /** A post as the feed renders it. */
  datatype FeedPost = FeedPost(
    id: string,
    author: User,
    content: string,
    createdAt: string,
    imageUrl: Option<string>,
    videoUrl: Option<string>,
    category: string,
    mediaType: string,
    mediaUrl: string,
    likes: seq<string>,
    postType: string)

  const UnknownUser: string := "Unknown User"

  /** The author the feed shows: a populated object is copied with a missing name
      replaced, and a bare id becomes an otherwise empty "Unknown User". */
  function NormaliseAuthor(a: RawAuthor): (u: User)
    ensures u.name != ""
    ensures a.AuthorRef? ==> u == User(a.ref, UnknownUser, "", "", "", "", "")
    ensures a.AuthorObject? ==>
      && u.id == (if a.objectId != "" then a.objectId else a.id)
      && (a.name != "" ==> u.name == a.name) && (a.name == "" ==> u.name == UnknownUser)
      && u.email == a.email && u.role == a.role && u.avatar == a.avatar
      && u.bio == a.bio && u.location == a.location
  {
    match a
    case AuthorObject(objectId, id, name, email, role, avatar, bio, location) =>
      User(Or(objectId, id), Or(name, UnknownUser), email, role, avatar, bio, location)
    case AuthorRef(ref) =>
      User(ref, UnknownUser, "", "", "", "", "")
  }

  /** One post of a page: a photo gets an image URL and a video a video URL, both
      made absolute; everything else is copied. */
  function NormalisePost(p: RawPost): (r: FeedPost)
    ensures r.imageUrl.Some? <==> p.mediaType == "photo"
    ensures r.videoUrl.Some? <==> p.mediaType == "video"
    ensures !(r.imageUrl.Some? && r.videoUrl.Some?)
    ensures r.imageUrl.Some? ==> r.imageUrl.value == AbsoluteMediaUrl(p.mediaUrl)
    ensures r.videoUrl.Some? ==> r.videoUrl.value == AbsoluteMediaUrl(p.mediaUrl)
    ensures r.id == (if p.objectId != "" then p.objectId else p.id)
    ensures r.author == NormaliseAuthor(p.authorId) && r.author.name != ""
    ensures r.content == p.content && r.createdAt == p.createdAt && r.category == p.category
    ensures r.mediaType == p.mediaType && r.mediaUrl == p.mediaUrl && r.likes == p.likes
    ensures r.postType == p.postType
  {
    FeedPost(
      Or(p.objectId, p.id),
      NormaliseAuthor(p.authorId),
      p.content,
      p.createdAt,
      if p.mediaType == "photo" then Some(AbsoluteMediaUrl(p.mediaUrl)) else None,
      if p.mediaType == "video" then Some(AbsoluteMediaUrl(p.mediaUrl)) else None,
      p.category,
      p.mediaType,
      p.mediaUrl,
      p.likes,
      p.postType)
  }

  /** `res.posts.map(...)`: one rendered post per raw post, in order. */
  function NormalisePosts(raw: seq<RawPost>): (r: seq<FeedPost>)
    ensures |r| == |raw|
    ensures forall k :: 0 <= k < |raw| ==> r[k] == NormalisePost(raw[k])
  {
    if raw == [] then [] else [NormalisePost(raw[0])] + NormalisePosts(raw[1..])
  }

  /** Loading two pages one after the other shows the same posts as loading
      their concatenation at once. */
  lemma NormalisePostsAppend(a: seq<RawPost>, b: seq<RawPost>)
    ensures NormalisePosts(a + b) == NormalisePosts(a) + NormalisePosts(b)
  {
    var ab, na, nb := NormalisePosts(a + b), NormalisePosts(a), NormalisePosts(b);
    forall k | 0 <= k < |ab| ensures ab[k] == (na + nb)[k] {
      if k >= |a| {
        assert (a + b)[k] == b[k - |a|];
      }
    }
  }

  /** `getDisplayName`: the author's name, or "Unknown User". */
  function GetDisplayName(author: User): (r: string)
    ensures r != ""
    ensures author.name != "" ==> r == author.name
  {
    Or(author.name, UnknownUser)
  }

  /** A rendered post always shows its author's own name. */
  lemma DisplayNameOfNormalisedPost(p: RawPost)
    ensures GetDisplayName(NormalisePost(p).author) == NormalisePost(p).author.name
  {
  }

  class FeedComponent {
    var posts: seq<FeedPost>
    var loading: bool
    var page: nat
    const limit: nat
    var hasNextPage: bool
    /** The page numbers requested from the server, oldest first. */
    var requests: seq<nat>

    /** Pages are numbered from 1, and every page the feed has moved past
        contributed at least one post. */
    predicate Valid()
      reads this
    {
      page >= 1 && |posts| >= page - 1
    }

    constructor()
      ensures Valid()
      ensures posts == [] && !loading && page == 1 && limit == 5 && hasNextPage && requests == []
    {
      posts := [];
      loading := false;
      page := 1;
      limit := 5;
      hasNextPage := true;
      requests := [];
    }

    /** `loadPosts` up to sending the request (also what `ngOnInit` and `onScroll` do). */
    method LoadPosts()
      requires Valid()
      modifies this
      ensures Valid()
      ensures old(loading) || !old(hasNextPage) ==> loading == old(loading) && requests == old(requests)
      ensures !old(loading) && old(hasNextPage) ==> loading && requests == old(requests) + [old(page)]
      ensures posts == old(posts) && page == old(page) && hasNextPage == old(hasNextPage)
    {
      if loading || !hasNextPage {
        return;
      }
      loading := true;
      requests := requests + [page];
    }

    /** The response to a page request: its posts and `pagination.hasNextPage`. */
    method OnPageResponse(raw: seq<RawPost>, nextPage: Option<bool>)
      requires Valid()
      modifies this
      ensures Valid()
      ensures raw != [] ==> posts == old(posts) + NormalisePosts(raw) && page == old(page) + 1
                            && hasNextPage == nextPage.GetOr(false)
      ensures raw == [] ==> posts == old(posts) && page == old(page) && !hasNextPage
      ensures !loading && requests == old(requests)
    {
      if |raw| > 0 {
        posts := posts + NormalisePosts(raw);
        hasNextPage := nextPage.GetOr(false);
        page := page + 1;
      } else {
        hasNextPage := false;
      }
      loading := false;
    }

    /** A failed page request only ends the loading state. */
    method OnPageError()
      requires Valid()
      modifies this
      ensures Valid()
      ensures !loading
      ensures posts == old(posts) && page == old(page) && hasNextPage == old(hasNextPage)
      ensures requests == old(requests)
    {
      loading := false;
    }

    /** `refreshFeed`: back to an empty first page, then a load (which does not
        start while an earlier request is still loading). */
    method RefreshFeed()
      requires Valid()
      modifies this
      ensures Valid()
      ensures posts == [] && page == 1 && hasNextPage && loading
      ensures old(loading) ==> requests == old(requests)
      ensures !old(loading) ==> requests == old(requests) + [1]
    {
      posts := [];
      page := 1;
      hasNextPage := true;
      LoadPosts();
    }
  }
}
