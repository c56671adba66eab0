/** The URL builders the components use to turn a stored media or image path into
    something an `<img>` or `<video>` tag can load. The same few lines are repeated
    in many components; each variant is defined once here. */
module MediaUrls {

  import opened JsText
  import opened Wrappers

  /** The API server every absolute upload URL points at. */
  const ApiOrigin: string := "http://localhost:3000"

  /** The `getFullImageUrl` of the group, community and group-form components:
      empty stays empty, `http...` is kept, `localhost:3000...` gains a scheme, an
      `/uploads` path gains the origin, and anything else is placed under
      `/uploads/` on the origin unless it already begins with `uploads`. */
  function FullImageUrl(path: string): (r: string)
    ensures r == "" <==> path == ""
    ensures path != "" ==> StartsWith(r, "http")
    ensures EndsWith(r, path)
  {
    if path == "" then ""
    else if StartsWith(path, "http") then path
    else if StartsWith(path, "localhost:3000") then "http://" + path
    else if StartsWith(path, "/uploads") then ApiOrigin + path
    else ApiOrigin + "/" + (if StartsWith(path, "uploads") then path else "uploads/" + path)
  }

  /** The `getFullMediaUrl` of the feed and post-detail components: like
      `FullImageUrl` but without the `localhost:3000` case. */
  function AbsoluteMediaUrl(path: string): (r: string)
    ensures r == "" <==> path == ""
    ensures path != "" ==> StartsWith(r, "http")
    ensures EndsWith(r, path)
  {
    if path == "" then ""
    else if StartsWith(path, "http") then path
    else if StartsWith(path, "/uploads") then ApiOrigin + path
    else ApiOrigin + "/" + (if StartsWith(path, "uploads") then path else "uploads/" + path)
  }

  /** The `getFullMediaUrl` of the post service and the event page: the same path
      normalisation, but relative to the page's own origin. */
  function RelativeMediaUrl(path: string): (r: string)
    ensures r == "" <==> path == ""
    ensures path != "" ==> StartsWith(r, "http") || StartsWith(r, "/uploads")
    ensures EndsWith(r, path)
  {
    if path == "" then ""
    else if StartsWith(path, "http") then path
    else if StartsWith(path, "/uploads") then path
    else "/" + (if StartsWith(path, "uploads") then path else "uploads/" + path)
  }

  /** The avatar-only builder of the post composer and the registration preview:
      only `/uploads/avatar...`, `uploads/avatar...` and `http...` yield a URL. */
  function AvatarUploadUrl(avatar: string): (r: Option<string>)
    ensures r.Some? <==>
      StartsWith(avatar, "/uploads/avatar") || StartsWith(avatar, "uploads/avatar") || StartsWith(avatar, "http")
    ensures r.Some? ==> StartsWith(r.value, "http") && EndsWith(r.value, avatar)
  {
    if StartsWith(avatar, "/uploads/avatar") then Some(ApiOrigin + avatar)
    else if StartsWith(avatar, "uploads/avatar") then Some(ApiOrigin + "/" + avatar)
    else if StartsWith(avatar, "http") then Some(avatar)
    else None
  }

  /** Building a URL from a URL changes nothing. */
  lemma FullImageUrlIdempotent(path: string)
    ensures FullImageUrl(FullImageUrl(path)) == FullImageUrl(path)
  {
  }

  lemma AbsoluteMediaUrlIdempotent(path: string)
    ensures AbsoluteMediaUrl(AbsoluteMediaUrl(path)) == AbsoluteMediaUrl(path)
  {
  }

  lemma RelativeMediaUrlIdempotent(path: string)
    ensures RelativeMediaUrl(RelativeMediaUrl(path)) == RelativeMediaUrl(path)
  {
  }

  /** The absolute builder is the relative one placed on the API origin, for every
      path that is not already a full URL. */
  lemma AbsoluteIsOriginPlusRelative(path: string)
    requires path != "" && !StartsWith(path, "http")
    ensures AbsoluteMediaUrl(path) == ApiOrigin + RelativeMediaUrl(path)
  {
  }

  /** The two absolute builders differ only on paths that begin with `localhost:3000`. */
  lemma FullImageUrlAgreesWithAbsolute(path: string)
    ensures !StartsWith(path, "localhost:3000") <==> FullImageUrl(path) == AbsoluteMediaUrl(path)
  {
    if StartsWith(path, "localhost:3000") {
      StartsWithExcludes(path, "localhost:3000", "http");
      StartsWithExcludes(path, "localhost:3000", "/uploads");
      StartsWithExcludes(path, "localhost:3000", "uploads");
      assert |FullImageUrl(path)| != |AbsoluteMediaUrl(path)|;
    }
  }

  /** The avatar builder agrees with the general absolute builder on every avatar
      path it accepts. */
  lemma AvatarUploadUrlAgreesWithAbsolute(avatar: string)
    requires AvatarUploadUrl(avatar).Some?
    ensures AvatarUploadUrl(avatar).value == AbsoluteMediaUrl(avatar)
  {
    if StartsWith(avatar, "/uploads/avatar") {
      StartsWithExcludes(avatar, "/uploads/avatar", "http");
      StartsWithTransitive(avatar, "/uploads/avatar", "/uploads");
    } else if StartsWith(avatar, "uploads/avatar") {
      StartsWithExcludes(avatar, "uploads/avatar", "http");
      StartsWithExcludes(avatar, "uploads/avatar", "/uploads");
      StartsWithTransitive(avatar, "uploads/avatar", "uploads");
    }
  }
}
