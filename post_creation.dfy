/** The post composer: text, a category, and at most one photo or video, checked
    before it is attached and uploaded before the post is created. */
module PostCreation {

  import opened Wrappers
  import opened JsText
  import opened Models
  import opened MediaUrls
  import opened GroupPostService

  /** The kind of media the composer was asked to attach. */
  datatype MediaKind = Photo | Video

  function KindName(kind: MediaKind): string {
    match kind
    case Photo => "photo"
    case Video => "video"
  }

  const PhotoTypes: seq<string> := ["image/jpeg", "image/jpg", "image/png", "image/webp"]
  const MaxPhotoSize: int := 2 * 1024 * 1024
  const MaxVideoSize: int := 20 * 1024 * 1024

  const PhotoTypeMessage: string := "Please upload a valid image file (JPG, PNG, WEBP)."
  const PhotoSizeMessage: string := "Please upload an image under 2MB."
  const VideoTypeMessage: string := "Please upload a valid MP4 video file."
  const VideoSizeMessage: string := "Please upload a video under 20MB."

  /** The error `onFileSelect` shows for a picked file, or None when the file is
      attached. The type is checked before the size. */
  function MediaRejection(kind: MediaKind, f: FileInfo): (r: Option<string>)
    ensures kind == Photo ==> (r.None? <==> f.mimeType in PhotoTypes && f.size <= MaxPhotoSize)
    ensures kind == Video ==> (r.None? <==> f.mimeType == "video/mp4" && f.size <= MaxVideoSize)
    ensures kind == Photo && f.mimeType !in PhotoTypes ==> r == Some(PhotoTypeMessage)
    ensures kind == Photo && f.mimeType in PhotoTypes && f.size > MaxPhotoSize ==> r == Some(PhotoSizeMessage)
    ensures kind == Video && f.mimeType != "video/mp4" ==> r == Some(VideoTypeMessage)
    ensures kind == Video && f.mimeType == "video/mp4" && f.size > MaxVideoSize ==> r == Some(VideoSizeMessage)
  {
    match kind
    case Photo =>
      if f.mimeType !in PhotoTypes then Some(PhotoTypeMessage)
      else if f.size > MaxPhotoSize then Some(PhotoSizeMessage)
      else None
    case Video =>
      if f.mimeType != "video/mp4" then Some(VideoTypeMessage)
      else if f.size > MaxVideoSize then Some(VideoSizeMessage)
      else None
  }

  /** Every media file the composer attaches also passes the general upload
      whitelist of the group posts. */
  lemma AttachedMediaPassesUploadWhitelist(kind: MediaKind, f: FileInfo)
    requires MediaRejection(kind, f).None?
    ensures ValidateFile(f).valid
  {
    assert f.mimeType in AllowedTypes by {
      if kind == Photo {
        var k :| 0 <= k < |PhotoTypes| && PhotoTypes[k] == f.mimeType;
        assert AllowedTypes[k] == PhotoTypes[k];
      } else {
        assert AllowedTypes[5] == "video/mp4";
      }
    }
  }

  /** `isPostValid`: some non-blank text or an attached file, and a category. */
  predicate PostIsValid(content: string, hasFile: bool, category: string) {
    (!IsBlank(content) || hasFile) && category != ""
  }

  /** Without a category no post is valid; with one, a file alone suffices and
      text alone suffices exactly when it is not blank. */
  lemma PostValidityCases(content: string, hasFile: bool, category: string)
    ensures category == "" ==> !PostIsValid(content, hasFile, category)
    ensures category != "" && hasFile ==> PostIsValid(content, hasFile, category)
    ensures category != "" && !hasFile ==>
      (PostIsValid(content, hasFile, category) <==> exists i :: 0 <= i < |content| && !IsWhiteSpace(content[i]))
  {
    BlankIffAllWhiteSpace(content);
  }

  /** `getUserAvatarUrl`: only an uploaded or absolute avatar yields a URL. */
  function UserAvatarUrl(user: Option<User>): (r: Option<string>)
    ensures user.None? ==> r.None?
    ensures user.Some? ==> r == AvatarUploadUrl(user.value.avatar)
    ensures r.Some? ==> r.value == AbsoluteMediaUrl(user.value.avatar)
  {
    if user.Some? && user.value.avatar != "" then
      var url := AvatarUploadUrl(user.value.avatar);
      assert url.Some? ==> url.value == AbsoluteMediaUrl(user.value.avatar) by {
        if url.Some? {
          AvatarUploadUrlAgreesWithAbsolute(user.value.avatar);
        }
      }
      url
    else None
  }

  // ---- Avatar initials ----

  /** What `s[0]` contributes to a string concatenation: the first character, or
      the text "undefined" when `s` is empty. */
  function HeadOrUndefined(s: string): (r: string)
    ensures s != "" ==> r == [s[0]]
    ensures s == "" ==> r == "undefined"
  {
    if s == "" then "undefined" else [s[0]]
  }

  /** `getAvatarInitials` as written: the trimmed name is split on single spaces,
      and with two or more pieces the heads of the first two pieces are joined,
      even when the second piece is empty. */
  function AvatarInitialsAsWritten(name: string): (r: string)
    ensures name == "" ==> r == ""
    ensures |r| <= 18
    ensures |r| > 2 ==> |Split(Trim(name), ' ')| > 1 && Split(Trim(name), ' ')[1] == ""
  {
    if name == "" then ""
    else
      var parts := Split(Trim(name), ' ');
      if |parts| == 1 then Upper(Take(parts[0], 2))
      else
        FirstPieceOfTrimmed(name);
        Upper(HeadOrUndefined(parts[0]) + HeadOrUndefined(parts[1]))
  }

  /** The pieces of "A  B": the two spaces leave an empty piece between the words. */
  lemma SplitDoubleSpaced()
    ensures Trim("A  B") == "A  B"
    ensures Split("A  B", ' ') == ["A", "", "B"]
  {
    var name := "A  B";
    assert TrimStart(name) == name;
    assert TrimEnd(name) == name;
    assert Split("", ' ') == [""];
    assert Split("B", ' ') == ["B"] by {
      assert "B"[1..] == "" && "B"[0] == 'B';
      assert Split("B", ' ') == [['B'] + [""][0]] + [""][1..];
      assert ['B'] + [""][0] == "B" && [""][1..] == [];
    }
    assert Split(" B", ' ') == ["", "B"] by {
      assert " B"[1..] == "B";
    }
    assert Split("  B", ' ') == ["", "", "B"] by {
      assert "  B"[1..] == " B";
    }
    assert name[1..] == "  B" && name[0] == 'A';
    var rest := ["", "", "B"];
    assert Split(name, ' ') == [['A'] + rest[0]] + rest[1..];
    assert ['A'] + rest[0] == "A" && rest[1..] == ["", "B"];
  }

  /** A name with two spaces between its words yields a ten-letter "initials"
      text instead of two initials. */
  lemma DoubleSpaceInitialsAsWritten()
    ensures AvatarInitialsAsWritten("A  B") == Upper("Aundefined")
    ensures |AvatarInitialsAsWritten("A  B")| == 10
  {
    var name := "A  B";
    SplitDoubleSpaced();
    var parts := Split(Trim(name), ' ');
    assert parts == ["A", "", "B"];
    assert HeadOrUndefined(parts[0]) + HeadOrUndefined(parts[1]) == "Aundefined";
  }

  /** The intended initials of the same name are its two word initials. */
  lemma DoubleSpaceInitials()
    ensures AvatarInitials("A  B") == "AB"
  {
    SplitDoubleSpaced();
    var parts := ["A", "", "B"];
    assert NonEmptyPieces(parts) == ["A", "B"] by {
      assert parts[1..] == ["", "B"];
      assert parts[1..][1..] == ["B"];
      assert NonEmptyPieces(["B"]) == ["B"] by {
        assert ["B"][1..] == [];
      }
    }
    assert Upper("AB") == "AB";
  }

  /** The pieces that are not empty, in order. */
  function NonEmptyPieces(parts: seq<string>): (r: seq<string>)
    ensures |r| <= |parts|
    ensures forall k :: 0 <= k < |r| ==> r[k] != ""
  {
    if parts == [] then []
    else (if parts[0] != "" then [parts[0]] else []) + NonEmptyPieces(parts[1..])
  }

  lemma {:induction false} NonEmptyPiecesKeepsNonEmpty(parts: seq<string>)
    requires forall k :: 0 <= k < |parts| ==> parts[k] != ""
    ensures NonEmptyPieces(parts) == parts
  {
    if parts != [] {
      NonEmptyPiecesKeepsNonEmpty(parts[1..]);
    }
  }

  /** The initials the composer evidently means: the words are the non-empty
      pieces, so at most two letters come out whatever the spacing. */
  function AvatarInitials(name: string): (r: string)
    ensures |r| <= 2
  {
    if name == "" then ""
    else
      var words := NonEmptyPieces(Split(Trim(name), ' '));
      if |words| == 0 then ""
      else if |words| == 1 then Upper(Take(words[0], 2))
      else Upper([words[0][0], words[1][0]])
  }

  /** The first piece of a split trimmed name is never empty when the name has
      more than one piece. */
  lemma FirstPieceOfTrimmed(name: string)
    requires |Split(Trim(name), ' ')| > 1
    ensures Split(Trim(name), ' ')[0] != ""
  {
    var t := Trim(name);
    TrimStartSpec(name);
    TrimEndSpec(TrimStart(name));
    assert t != [];
    assert !IsWhiteSpace(t[0]) by {
      assert t[0] == TrimStart(name)[0];
    }
    assert t[0] != ' ';
  }

  /** When no two spaces are adjacent (no piece is empty), the code as written
      and the intended initials agree. */
  lemma InitialsAgreeWithoutDoubleSpaces(name: string)
    requires forall k :: 0 <= k < |Split(Trim(name), ' ')| ==> Split(Trim(name), ' ')[k] != ""
    ensures AvatarInitialsAsWritten(name) == AvatarInitials(name)
  {
    var parts := Split(Trim(name), ' ');
    NonEmptyPiecesKeepsNonEmpty(parts);
    if name != "" && |parts| > 1 {
      assert HeadOrUndefined(parts[0]) + HeadOrUndefined(parts[1]) == [parts[0][0], parts[1][0]];
    }
  }

  // ---- The composer ----

  /** The post the composer sends. */
  datatype PostData = PostData(
    authorId: string,
    content: string,
    category: string,
    mediaType: string,
    mediaUrl: string,
    mediaSize: int,
    postType: string)

  const FailureMessage: string := "Failed to create post. Please try again."
  const SuccessMessage: string := "Your post has been shared successfully!"
  const ArticleMessage: string := "Article creation feature coming soon!"

  class PostCreationComponent {
    var user: Option<User>
    var postContent: string
    var selectedCategory: string
    var selectedFile: Option<FileInfo>
    var mediaPreviewUrl: string
    var mediaType: string
    var isSubmitting: bool
    /** Snack-bar errors and notices shown, oldest first. */
    var errors: seq<string>
    var notices: seq<string>
    var navigations: seq<seq<string>>
    /** Files sent for upload and posts sent for creation, oldest first. */
    var uploads: seq<FileInfo>
    var posts: seq<PostData>

    constructor()
      ensures user.None? && postContent == "" && selectedCategory == "" && selectedFile.None?
      ensures mediaPreviewUrl == "" && mediaType == "" && !isSubmitting
      ensures errors == [] && notices == [] && navigations == [] && uploads == [] && posts == []
    {
      user := None;
      postContent := "";
      selectedCategory := "";
      selectedFile := None;
      mediaPreviewUrl := "";
      mediaType := "";
      isSubmitting := false;
      errors := [];
      notices := [];
      navigations := [];
      uploads := [];
      posts := [];
    }

    /** `loadUserData`: the signed-in user, or (in a browser) the login page. */
    method LoadUserData(currentUser: Option<User>, browser: bool)
      modifies this`user, this`navigations
      ensures currentUser.Some? ==> user == currentUser && navigations == old(navigations)
      ensures currentUser.None? && browser ==> user == old(user) && navigations == old(navigations) + [["/login"]]
      ensures currentUser.None? && !browser ==> user == old(user) && navigations == old(navigations)
    {
      if currentUser.Some? {
        user := currentUser;
      } else if browser {
        navigations := navigations + [["/login"]];
      }
    }

    /** `onFileSelect` for the first picked file, if any: a refused file shows its
        error and keeps the earlier selection. */
    method OnFileSelect(file: Option<FileInfo>, kind: MediaKind)
      modifies this`selectedFile, this`mediaType, this`errors
      ensures file.None? ==>
        selectedFile == old(selectedFile) && mediaType == old(mediaType) && errors == old(errors)
      ensures file.Some? && MediaRejection(kind, file.value).Some? ==>
        selectedFile == old(selectedFile) && mediaType == old(mediaType)
        && errors == old(errors) + [MediaRejection(kind, file.value).value]
      ensures file.Some? && MediaRejection(kind, file.value).None? ==>
        selectedFile == file && mediaType == KindName(kind) && errors == old(errors)
    {
      if file.None? {
        return;
      }
      var rejection := MediaRejection(kind, file.value);
      if rejection.Some? {
        errors := errors + [rejection.value];
        return;
      }
      selectedFile := file;
      mediaType := KindName(kind);
    }

    /** The preview reader finished with a data URL. */
    method OnPreviewReady(dataUrl: string)
      modifies this`mediaPreviewUrl
      ensures mediaPreviewUrl == dataUrl
    {
      mediaPreviewUrl := dataUrl;
    }

    method RemoveMedia()
      modifies this`selectedFile, this`mediaPreviewUrl, this`mediaType
      ensures selectedFile.None? && mediaPreviewUrl == "" && mediaType == ""
    {
      selectedFile := None;
      mediaPreviewUrl := "";
      mediaType := "";
    }

    method OnArticleClick()
      modifies this`errors
      ensures errors == old(errors) + [ArticleMessage]
    {
      errors := errors + [ArticleMessage];
    }

    function IsPostValid(): (b: bool)
      reads this`postContent, this`selectedFile, this`selectedCategory
      ensures b <==> PostIsValid(postContent, selectedFile.Some?, selectedCategory)
    {
      (Trim(postContent) != "" || selectedFile.Some?) && selectedCategory != ""
    }

    /** The post sent once any media is in place. */
    function Payload(mediaUrl: string, mediaSize: int, postType: string): (p: PostData)
      reads this`user, this`postContent, this`selectedCategory, this`mediaType
      requires user.Some?
      ensures p.authorId == user.value.id && p.content == Trim(postContent)
      ensures p.category == selectedCategory && p.mediaType == mediaType
      ensures p.mediaUrl == mediaUrl && p.mediaSize == mediaSize && p.postType == postType
    {
      PostData(user.value.id, Trim(postContent), selectedCategory, mediaType, mediaUrl, mediaSize, postType)
    }

    /** `onSubmit` up to its first request: nothing happens for an invalid post or
        without a user; a selected file is uploaded first, and a text post is sent
        at once as a "thought". */
    method OnSubmit()
      modifies this`isSubmitting, this`uploads, this`posts
      ensures !IsPostValid() || user.None? ==>
        isSubmitting == old(isSubmitting) && uploads == old(uploads) && posts == old(posts)
      ensures IsPostValid() && user.Some? ==> isSubmitting
      ensures IsPostValid() && user.Some? && selectedFile.Some? ==>
        uploads == old(uploads) + [selectedFile.value] && posts == old(posts)
      ensures IsPostValid() && user.Some? && selectedFile.None? ==>
        uploads == old(uploads) && posts == old(posts) + [Payload("", 0, "thought")]
    {
      if !IsPostValid() || user.None? {
        return;
      }
      isSubmitting := true;
      if selectedFile.Some? {
        uploads := uploads + [selectedFile.value];
      } else {
        posts := posts + [Payload("", 0, "thought")];
      }
    }

    /** The upload answered with `url` ("" when it has none): without a URL (or
        with the file removed meanwhile) the submission fails; otherwise the post
        is sent with the media's URL, size and kind. */
    method OnUploadResult(url: string)
      requires user.Some?
      modifies this`isSubmitting, this`errors, this`posts
      ensures url == "" || selectedFile.None? ==>
        !isSubmitting && errors == old(errors) + [FailureMessage] && posts == old(posts)
      ensures url != "" && selectedFile.Some? ==>
        isSubmitting == old(isSubmitting) && errors == old(errors)
        && posts == old(posts) + [Payload(url, selectedFile.value.size, mediaType)]
    {
      if url == "" || selectedFile.None? {
        errors := errors + [FailureMessage];
        isSubmitting := false;
        return;
      }
      posts := posts + [Payload(url, selectedFile.value.size, mediaType)];
    }

    method OnPostCreated()
      modifies this`notices, this`navigations, this`isSubmitting
      ensures notices == old(notices) + [SuccessMessage] && navigations == old(navigations) + [["/"]]
      ensures !isSubmitting
    {
      notices := notices + [SuccessMessage];
      navigations := navigations + [["/"]];
      isSubmitting := false;
    }

    /** A failed upload or create request. */
    method OnSubmitError()
      modifies this`errors, this`isSubmitting
      ensures errors == old(errors) + [FailureMessage] && !isSubmitting
    {
      errors := errors + [FailureMessage];
      isSubmitting := false;
    }

    method OnCancel()
      modifies this`navigations
      ensures navigations == old(navigations) + [["/"]]
    {
      navigations := navigations + [["/"]];
    }
  }
}
