/** The shared image-URL resolvers and avatar helpers every page uses to show
    people, communities, groups, events and post media. */
module Utils {

  import opened JsText
  import opened Wrappers
  import MediaUrls

  const DefaultAvatar: string := "/assets/user-img.png"
  const DefaultCommunityImage: string := "/assets/community-default.png"
  const DefaultGroupImage: string := "/assets/group-default.png"
  const DefaultEventImage: string := "/assets/event-default.png"
  const MediaPlaceholder: string := "/assets/media-placeholder.png"

  /** `resolveImageUrl(url, fallback)`: an empty URL gives the fallback, a full URL
      is kept, an upload path is placed on the API origin, anything else (an asset
      path) is kept as it is. */
  function ResolveImageUrl(url: string, fallback: string): (r: string)
    ensures url == "" ==> r == fallback
    ensures url != "" ==> r != "" && EndsWith(r, url)
    ensures url != "" && (StartsWith(url, "/uploads") || StartsWith(url, "uploads")) && !StartsWith(url, "http")
            ==> StartsWith(r, MediaUrls.ApiOrigin)
    ensures url != "" && !StartsWith(url, "/uploads") && !StartsWith(url, "uploads") ==> r == url
  {
    if url == "" then fallback
    else if StartsWith(url, "http") then url
    else if StartsWith(url, "/uploads") then MediaUrls.ApiOrigin + url
    else if StartsWith(url, "uploads") then MediaUrls.ApiOrigin + "/" + url
    else url
  }

  /** A path the resolver leaves alone: not an upload path and not empty. */
  predicate IsSettledPath(p: string) {
    p != "" && (StartsWith(p, "http") || (!StartsWith(p, "/uploads") && !StartsWith(p, "uploads")))
  }

  /** Resolving a resolved URL changes nothing, provided the fallback is itself
      settled (every fallback the client uses is an `/assets/...` path). */
  lemma ResolveImageUrlIdempotent(url: string, fallback: string)
    requires IsSettledPath(fallback)
    ensures ResolveImageUrl(ResolveImageUrl(url, fallback), fallback) == ResolveImageUrl(url, fallback)
  {
    var r := ResolveImageUrl(url, fallback);
    if url != "" && !StartsWith(url, "http") && (StartsWith(url, "/uploads") || StartsWith(url, "uploads")) {
      StartsWithTransitive(r, MediaUrls.ApiOrigin, "http");
    }
  }

  /** An `/assets/...` path is never rewritten by the resolver. */
  lemma AssetPathIsSettled(p: string)
    requires StartsWith(p, "/assets")
    ensures IsSettledPath(p)
  {
    assert p[0] == '/' && p[1] == 'a';
    assert !StartsWith(p, "/uploads") by {
      assert |"/uploads"| > 1 && "/uploads"[1] == 'u';
    }
    StartsWithExcludes(p, "/assets", "uploads");
  }

  lemma DefaultsAreSettled()
    ensures IsSettledPath(DefaultAvatar) && IsSettledPath(DefaultCommunityImage)
    ensures IsSettledPath(DefaultGroupImage) && IsSettledPath(DefaultEventImage)
    ensures IsSettledPath(MediaPlaceholder)
  {
    AssetPathIsSettled(DefaultAvatar);
    AssetPathIsSettled(DefaultCommunityImage);
    AssetPathIsSettled(DefaultGroupImage);
    AssetPathIsSettled(DefaultEventImage);
    AssetPathIsSettled(MediaPlaceholder);
  }

  /** On upload paths and full URLs the resolver and the feed's media builder agree;
      they differ on bare file names, which only the media builder moves under `/uploads/`. */
  lemma ResolveAgreesWithAbsoluteMediaUrl(url: string, fallback: string)
    requires StartsWith(url, "http") || StartsWith(url, "/uploads") || StartsWith(url, "uploads")
    ensures ResolveImageUrl(url, fallback) == MediaUrls.AbsoluteMediaUrl(url)
  {
  }

  /** The two image fields of a user record; "" stands for a missing field. */
  datatype UserImages = UserImages(avatar: string, profilePicture: string)

  /** `getAvatarUrl(user)`: the avatar if set, else the profile picture, resolved
      against the default avatar. */
  function GetAvatarUrl(user: Option<UserImages>): (r: string)
    ensures user.None? ==> r == DefaultAvatar
    ensures user.Some? && user.value.avatar != "" ==> r == ResolveImageUrl(user.value.avatar, DefaultAvatar)
    ensures user.Some? && user.value.avatar == "" ==> r == ResolveImageUrl(user.value.profilePicture, DefaultAvatar)
    ensures r != ""
  {
    match user
    case None => DefaultAvatar
    case Some(u) => ResolveImageUrl(if u.avatar != "" then u.avatar else u.profilePicture, DefaultAvatar)
  }

  /** `getCommunityImageUrl`, `getGroupImageUrl`, `getEventImageUrl`: the record's
      `image` field (None for a missing record, "" for a missing field) resolved
      against the kind's default picture. */
  function GetOwnedImageUrl(image: Option<string>, default: string): (r: string)
    ensures image.None? || image.value == "" ==> r == default
    ensures image.Some? && image.value != "" ==> r == ResolveImageUrl(image.value, default)
  {
    match image
    case None => default
    case Some(i) => ResolveImageUrl(i, default)
  }

  function GetCommunityImageUrl(image: Option<string>): (r: string)
    ensures r == GetOwnedImageUrl(image, DefaultCommunityImage) && r != ""
  {
    GetOwnedImageUrl(image, DefaultCommunityImage)
  }

  function GetGroupImageUrl(image: Option<string>): (r: string)
    ensures r == GetOwnedImageUrl(image, DefaultGroupImage) && r != ""
  {
    GetOwnedImageUrl(image, DefaultGroupImage)
  }

  function GetEventImageUrl(image: Option<string>): (r: string)
    ensures r == GetOwnedImageUrl(image, DefaultEventImage) && r != ""
  {
    GetOwnedImageUrl(image, DefaultEventImage)
  }

  /** `getPostMediaUrl`: post media resolved against the media placeholder. */
  function GetPostMediaUrl(mediaUrl: string): (r: string)
    ensures mediaUrl == "" ==> r == MediaPlaceholder
    ensures mediaUrl != "" ==> EndsWith(r, mediaUrl)
  {
    ResolveImageUrl(mediaUrl, MediaPlaceholder)
  }

  // ---- Initials ----

  /** The first character of every piece, concatenated: `parts.map(w => w.charAt(0)).join('')`. */
  function FirstChars(parts: seq<string>): string {
    if parts == [] then "" else CharAt0(parts[0]) + FirstChars(parts[1..])
  }

  /** The characters that begin a word: a non-space character at the start of the
      text (when `atStart`) or right after a space. An independent, left-to-right
      reading of "the initial letter of every word". */
  function WordHeads(s: string, atStart: bool): string {
    if s == [] then ""
    else (if s[0] != ' ' && atStart then [s[0]] else []) + WordHeads(s[1..], s[0] == ' ')
  }

  function WordStarts(s: string): string {
    WordHeads(s, true)
  }

  /** Splitting on single spaces and taking each piece's first character yields
      exactly the word-starting characters (empty pieces contribute nothing). */
  lemma {:induction false} FirstCharsOfSplit(s: string)
    ensures FirstChars(Split(s, ' ')) == WordHeads(s, true)
    ensures FirstChars(Split(s, ' ')[1..]) == WordHeads(s, false)
  {
    if s != [] {
      var rest := Split(s[1..], ' ');
      FirstCharsOfSplit(s[1..]);
      if s[0] == ' ' {
        assert Split(s, ' ') == [""] + rest;
        assert ([""] + rest)[1..] == rest;
      } else {
        var parts := [[s[0]] + rest[0]] + rest[1..];
        assert Split(s, ' ') == parts;
        assert parts[1..] == rest[1..];
        assert FirstChars(parts) == [s[0]] + FirstChars(rest[1..]);
      }
    }
  }

  /** `getInitials(name)`: "?" for an empty name, otherwise the first two
      word-starting characters, upper-cased. */
  function GetInitials(name: string): (r: string)
    ensures name == "" ==> r == "?"
    ensures |r| <= 2
  {
    if name == "" then "?" else Take(Upper(FirstChars(Split(name, ' '))), 2)
  }

  lemma GetInitialsAreWordStarts(name: string)
    requires name != ""
    ensures GetInitials(name) == Upper(Take(WordStarts(name), 2))
  {
    FirstCharsOfSplit(name);
    var w := WordStarts(name);
    assert Take(Upper(w), 2) == Upper(Take(w, 2));
  }

  // ---- Avatar colour ----

  const NeutralColor: string := "#6B7280"

  const Palette: seq<string> := [
    "#EF4444", "#F97316", "#F59E0B", "#EAB308",
    "#84CC16", "#22C55E", "#10B981", "#14B8A6",
    "#06B6D4", "#0EA5E9", "#3B82F6", "#6366F1",
    "#8B5CF6", "#A855F7", "#D946EF", "#EC4899"
  ]

  const TwoTo31: int := 0x8000_0000
  const TwoTo32: int := 0x1_0000_0000

  /** ECMAScript ToInt32 on an integral number: wrap into [-2^31, 2^31). */
  function ToInt32(x: int): (r: int)
    ensures -TwoTo31 <= r < TwoTo31
    ensures (x - r) % TwoTo32 == 0
  {
    var m := x % TwoTo32;
    if m >= TwoTo31 then m - TwoTo32 else m
  }

  /** `h << 5` on a JavaScript number holding an integer. */
  function ShiftLeft5(h: int): int {
    ToInt32(ToInt32(h) * 32)
  }

  /** `charCodeAt` of one character. */
  function CharCode(c: char): int {
    c as int
  }

  /** The value of `hash` after the loop has consumed `s` (`hash = code + ((hash << 5) - hash)`),
      computed exactly; the loop's variable is a double, which holds it exactly as
      long as `HashExactInDouble` applies. */
  function AvatarHash(s: string): int {
    if s == [] then 0
    else
      var h := AvatarHash(s[..|s| - 1]);
      CharCode(s[|s| - 1]) + (ShiftLeft5(h) - h)
  }

  /** Each step adds at most 2^31 + 2^21 to the magnitude of the hash. */
  lemma {:induction false} AvatarHashBound(s: string)
    ensures -|s| * (TwoTo31 + 0x20_0000) <= AvatarHash(s) <= |s| * (TwoTo31 + 0x20_0000)
  {
    if s != [] {
      AvatarHashBound(s[..|s| - 1]);
      assert CharCode(s[|s| - 1]) < 0x20_0000;
    }
  }

  /** For every name shorter than 2^21 characters the hash stays within the
      integers a double holds exactly, so the exact integer model is the loop's value. */
  lemma HashExactInDouble(s: string)
    requires |s| < 0x20_0000
    ensures -0x20_0000_0000_0000 <= AvatarHash(s) <= 0x20_0000_0000_0000
  {
    AvatarHashBound(s);
    assert |s| * (TwoTo31 + 0x20_0000) <= 0x20_0000 * (TwoTo31 + 0x20_0000);
  }

  function Abs(x: int): nat {
    if x < 0 then -x else x
  }

  /** The colour `getAvatarColor(name)` returns. */
  function AvatarColor(name: string): (r: string)
    ensures r == NeutralColor <==> name == ""
    ensures name != "" ==> r in Palette
  {
    if name == "" then NeutralColor else Palette[Abs(AvatarHash(name)) % |Palette|]
  }

  /** `getAvatarColor(name)`: the hashing loop over the name's characters, then a
      palette lookup by the hash's magnitude modulo the palette size. */
  method GetAvatarColor(name: string) returns (color: string)
    ensures color == AvatarColor(name)
  {
    if name == "" {
      return NeutralColor;
    }
    var hash := 0;
    var i := 0;
    while i < |name|
      invariant 0 <= i <= |name|
      invariant hash == AvatarHash(name[..i])
    {
      assert name[..i + 1][..i] == name[..i];
      hash := CharCode(name[i]) + (ShiftLeft5(hash) - hash);
      i := i + 1;
    }
    assert name[..i] == name;
    color := Palette[Abs(hash) % |Palette|];
  }
}
