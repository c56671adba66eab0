/** The pure helpers of the expert-application service: the status and platform
    lookups used by the admin screens and the client-side validator of an
    application form. */
module ExpertApplicationsService {

  import opened JsText

  datatype SocialMediaLink = SocialMediaLink(platform: string, url: string)

  /** The form data sent with an application; "" stands for a missing text field
      and an empty sequence for missing links. */
  datatype ExpertApplicationData = ExpertApplicationData(
    name: string,
    location: string,
    occupation: string,
    degree: string,
    phone: string,
    socialMediaLinks: seq<SocialMediaLink>,
    experienceYears: int,
    bio: string)

  const DefaultStatusColor: string := "bg-gray-100 text-gray-800"

  predicate IsKnownStatus(status: string) {
    status == "pending" || status == "approved" || status == "rejected"
  }

  /** `getStatusColor`: a badge class per application status, gray for anything else. */
  function StatusColor(status: string): (r: string)
    ensures r == DefaultStatusColor <==> !IsKnownStatus(status)
    ensures status == "pending" ==> r == "bg-yellow-100 text-yellow-800"
    ensures status == "approved" ==> r == "bg-green-100 text-green-800"
    ensures status == "rejected" ==> r == "bg-red-100 text-red-800"
  {
    match status
    case "pending" => "bg-yellow-100 text-yellow-800"
    case "approved" => "bg-green-100 text-green-800"
    case "rejected" => "bg-red-100 text-red-800"
    case _ => DefaultStatusColor
  }

  const UnknownStatusIcon: string := "\U{2753}"

  /** `getStatusIcon`: hourglass, check mark or cross, and a question mark otherwise. */
  function StatusIcon(status: string): (r: string)
    ensures r == UnknownStatusIcon <==> !IsKnownStatus(status)
    ensures status == "pending" ==> r == "\U{23F3}"
    ensures status == "approved" ==> r == "\U{2705}"
    ensures status == "rejected" ==> r == "\U{274C}"
  {
    match status
    case "pending" => "\U{23F3}"
    case "approved" => "\U{2705}"
    case "rejected" => "\U{274C}"
    case _ => UnknownStatusIcon
  }

  /** The three known statuses get three different colours and three different icons. */
  lemma StatusLookupsInjective(s: string, t: string)
    requires IsKnownStatus(s) && IsKnownStatus(t) && s != t
    ensures StatusColor(s) != StatusColor(t) && StatusIcon(s) != StatusIcon(t)
  {
  }

  const LinkIcon: string := "\U{1F517}"

  predicate IsKnownPlatform(platform: string) {
    platform in ["linkedin", "twitter", "facebook", "instagram", "website"]
  }

  /** `getSocialMediaIcon`: one emoji per known platform, a link symbol otherwise. */
  function SocialMediaIcon(platform: string): (r: string)
    ensures r == LinkIcon <==> !IsKnownPlatform(platform)
    ensures platform == "linkedin" ==> r == "\U{1F4BC}"
    ensures platform == "twitter" ==> r == "\U{1F426}"
    ensures platform == "facebook" ==> r == "\U{1F4D8}"
    ensures platform == "instagram" ==> r == "\U{1F4F7}"
    ensures platform == "website" ==> r == "\U{1F310}"
  {
    match platform
    case "linkedin" => "\U{1F4BC}"
    case "twitter" => "\U{1F426}"
    case "facebook" => "\U{1F4D8}"
    case "instagram" => "\U{1F4F7}"
    case "website" => "\U{1F310}"
    case _ => LinkIcon
  }

  // ---- Phone pattern ----

  /** The characters `replace(/[\s\-\(\)]/g, '')` deletes. */
  predicate IsPhoneSeparator(c: char) {
    IsWhiteSpace(c) || c == '-' || c == '(' || c == ')'
  }

  function StripPhoneSeparators(s: string): (r: string)
    ensures |r| <= |s|
    ensures forall i :: 0 <= i < |r| ==> !IsPhoneSeparator(r[i])
  {
    if s == [] then ""
    else (if IsPhoneSeparator(s[0]) then "" else [s[0]]) + StripPhoneSeparators(s[1..])
  }

  predicate IsAsciiDigit(c: char) {
    '0' <= c <= '9'
  }

  /** `/^[\+]?[1-9][\d]{0,15}$/`: an optional plus sign, a non-zero digit, then at
      most fifteen further digits, and nothing else. */
  predicate MatchesPhonePattern(t: string) {
    var u := if t != [] && t[0] == '+' then t[1..] else t;
    1 <= |u| <= 16 && '1' <= u[0] <= '9' && forall i :: 1 <= i < |u| ==> IsAsciiDigit(u[i])
  }

  predicate IsValidPhone(phone: string) {
    MatchesPhonePattern(StripPhoneSeparators(phone))
  }

  /** Only separators: nothing is left to match, so the pattern fails. */
  lemma {:induction false} SeparatorsOnlyStripToEmpty(s: string)
    requires forall i :: 0 <= i < |s| ==> IsPhoneSeparator(s[i])
    ensures StripPhoneSeparators(s) == ""
  {
    if s != [] {
      SeparatorsOnlyStripToEmpty(s[1..]);
    }
  }

  /** Separators are ignored wherever they stand. */
  lemma {:induction false} StripPhoneSeparatorsAppend(a: string, b: string)
    ensures StripPhoneSeparators(a + b) == StripPhoneSeparators(a) + StripPhoneSeparators(b)
  {
    if a == [] {
      assert a + b == b;
    } else {
      assert (a + b)[0] == a[0];
      assert (a + b)[1..] == a[1..] + b;
      StripPhoneSeparatorsAppend(a[1..], b);
    }
  }

  /** A phone number accepts at most seventeen significant characters. */
  lemma ValidPhoneLength(phone: string)
    requires IsValidPhone(phone)
    ensures 1 <= |StripPhoneSeparators(phone)| <= 17
  {
  }

  // ---- The validator ----

  const NameRequired: string := "Name is required"
  const LocationRequired: string := "Location is required"
  const OccupationRequired: string := "Occupation is required"
  const DegreeRequired: string := "Degree is required"
  const PhoneRequired: string := "Phone is required"
  const BioRequired: string := "Bio is required"
  const ExperienceRange: string := "Experience years must be between 0 and 50"
  const InvalidPhone: string := "Please enter a valid phone number"

  /** `!field?.trim()` adds `message`. */
  function RequiredError(field: string, message: string): seq<string> {
    if IsBlank(field) then [message] else []
  }

  function RequiredErrors(d: ExpertApplicationData): seq<string> {
    RequiredError(d.name, NameRequired)
    + RequiredError(d.location, LocationRequired)
    + RequiredError(d.occupation, OccupationRequired)
    + RequiredError(d.degree, DegreeRequired)
    + RequiredError(d.phone, PhoneRequired)
    + RequiredError(d.bio, BioRequired)
  }

  function ExperienceErrors(years: int): seq<string> {
    if years < 0 || years > 50 then [ExperienceRange] else []
  }

  const LinkPrefix: string := "Social media link "

  function UrlRequiredMessage(k: nat): string {
    LinkPrefix + NatToString(k) + " URL is required"
  }

  function InvalidUrlMessage(k: nat): string {
    LinkPrefix + NatToString(k) + " must be a valid URL"
  }

  /** Both link messages name the link first. */
  lemma LinkMessagesStartWithPrefix(k: nat)
    ensures StartsWith(UrlRequiredMessage(k), LinkPrefix)
    ensures StartsWith(InvalidUrlMessage(k), LinkPrefix)
  {
    assert StartsWith(LinkPrefix, LinkPrefix);
    StartsWithConcat(LinkPrefix, NatToString(k) + " URL is required", LinkPrefix);
    StartsWithConcat(LinkPrefix, NatToString(k) + " must be a valid URL", LinkPrefix);
    assert UrlRequiredMessage(k) == LinkPrefix + (NatToString(k) + " URL is required");
    assert InvalidUrlMessage(k) == LinkPrefix + (NatToString(k) + " must be a valid URL");
  }

  /** The message for the link at 1-based position `k`, if it has one. */
  function LinkError(link: SocialMediaLink, k: nat, isValidUrl: string -> bool): seq<string> {
    if IsBlank(link.url) then [UrlRequiredMessage(k)]
    else if !isValidUrl(link.url) then [InvalidUrlMessage(k)]
    else []
  }

  predicate LinkOk(link: SocialMediaLink, isValidUrl: string -> bool) {
    !IsBlank(link.url) && isValidUrl(link.url)
  }

  /** The messages of the links, in order, each numbered by its position. */
  function LinkErrors(links: seq<SocialMediaLink>, isValidUrl: string -> bool): seq<string> {
    if links == [] then []
    else LinkErrors(links[..|links| - 1], isValidUrl) + LinkError(links[|links| - 1], |links|, isValidUrl)
  }

  function PhoneErrors(phone: string): seq<string> {
    if phone != "" && !IsValidPhone(phone) then [InvalidPhone] else []
  }

  /** Everything `validateApplicationData` reports, in its order: required fields,
      experience range, links, phone format. */
  function ApplicationErrors(d: ExpertApplicationData, isValidUrl: string -> bool): seq<string> {
    RequiredErrors(d) + ExperienceErrors(d.experienceYears)
    + LinkErrors(d.socialMediaLinks, isValidUrl) + PhoneErrors(d.phone)
  }

  /** `validateApplicationData(data)`, with the URL parser behind `isValidUrl` as a
      parameter. */
  method ValidateApplicationData(data: ExpertApplicationData, isValidUrl: string -> bool)
    returns (errors: seq<string>)
    ensures errors == ApplicationErrors(data, isValidUrl)
  {
    errors := PushRequiredErrors(data);
    if data.experienceYears < 0 || data.experienceYears > 50 {
      errors := errors + [ExperienceRange];
    }
    ghost var checked := RequiredErrors(data) + ExperienceErrors(data.experienceYears);
    assert errors == checked;
    if |data.socialMediaLinks| > 0 {
      errors := PushLinkErrors(errors, data.socialMediaLinks, isValidUrl);
    } else {
      assert LinkErrors(data.socialMediaLinks, isValidUrl) == [];
    }
    checked := checked + LinkErrors(data.socialMediaLinks, isValidUrl);
    assert errors == checked;
    if data.phone != "" && !IsValidPhone(data.phone) {
      errors := errors + [InvalidPhone];
    }
    assert ApplicationErrors(data, isValidUrl) == checked + PhoneErrors(data.phone);
  }

  /** The six required-field checks, in the order `validateApplicationData` makes them. */
  method PushRequiredErrors(data: ExpertApplicationData) returns (errors: seq<string>)
    ensures errors == RequiredErrors(data)
  {
    errors := PushIfBlank([], data.name, NameRequired);
    errors := PushIfBlank(errors, data.location, LocationRequired);
    errors := PushIfBlank(errors, data.occupation, OccupationRequired);
    errors := PushIfBlank(errors, data.degree, DegreeRequired);
    errors := PushIfBlank(errors, data.phone, PhoneRequired);
    errors := PushIfBlank(errors, data.bio, BioRequired);
  }

  /** One `if (!field?.trim()) errors.push(message)` step. */
  method PushIfBlank(errors: seq<string>, field: string, message: string) returns (result: seq<string>)
    ensures result == errors + RequiredError(field, message)
  {
    result := errors;
    if IsBlank(field) {
      result := result + [message];
    }
  }

  /** The `forEach` over the links, pushing each link's message in turn. */
  method PushLinkErrors(errors: seq<string>, links: seq<SocialMediaLink>, isValidUrl: string -> bool)
    returns (result: seq<string>)
    ensures result == errors + LinkErrors(links, isValidUrl)
  {
    result := errors;
    var i := 0;
    while i < |links|
      invariant 0 <= i <= |links|
      invariant result == errors + LinkErrors(links[..i], isValidUrl)
    {
      assert links[..i + 1][..i] == links[..i];
      var link := links[i];
      if IsBlank(link.url) {
        result := result + [UrlRequiredMessage(i + 1)];
      } else if !isValidUrl(link.url) {
        result := result + [InvalidUrlMessage(i + 1)];
      }
      i := i + 1;
    }
    assert links[..i] == links;
  }

  lemma {:induction false} LinkErrorsEmptyIff(links: seq<SocialMediaLink>, isValidUrl: string -> bool)
    ensures LinkErrors(links, isValidUrl) == [] <==> forall k :: 0 <= k < |links| ==> LinkOk(links[k], isValidUrl)
    ensures |LinkErrors(links, isValidUrl)| <= |links|
  {
    if links != [] {
      var init := links[..|links| - 1];
      var last := links[|links| - 1];
      LinkErrorsEmptyIff(init, isValidUrl);
      assert LinkErrors(links, isValidUrl) == LinkErrors(init, isValidUrl) + LinkError(last, |links|, isValidUrl);
      assert LinkError(last, |links|, isValidUrl) == [] <==> LinkOk(last, isValidUrl);
      if LinkErrors(links, isValidUrl) == [] {
        forall k | 0 <= k < |links|
          ensures LinkOk(links[k], isValidUrl)
        {
          if k < |init| {
            assert init[k] == links[k];
          }
        }
      }
      if forall k :: 0 <= k < |links| ==> LinkOk(links[k], isValidUrl) {
        forall k | 0 <= k < |init|
          ensures LinkOk(init[k], isValidUrl)
        {
          assert init[k] == links[k];
        }
      }
    }
  }

  /** The validator reports nothing exactly when every check passes. */
  lemma ApplicationErrorsEmptyIff(d: ExpertApplicationData, isValidUrl: string -> bool)
    ensures ApplicationErrors(d, isValidUrl) == [] <==>
      && !IsBlank(d.name) && !IsBlank(d.location) && !IsBlank(d.occupation)
      && !IsBlank(d.degree) && !IsBlank(d.phone) && !IsBlank(d.bio)
      && 0 <= d.experienceYears <= 50
      && (forall k :: 0 <= k < |d.socialMediaLinks| ==> LinkOk(d.socialMediaLinks[k], isValidUrl))
      && IsValidPhone(d.phone)
  {
    LinkErrorsEmptyIff(d.socialMediaLinks, isValidUrl);
    if !IsBlank(d.phone) {
      assert d.phone != "";
    }
  }

  /** A phone of white space only is both missing and malformed. */
  lemma WhiteSpacePhoneGetsBothMessages(d: ExpertApplicationData, isValidUrl: string -> bool)
    requires d.phone != "" && forall i :: 0 <= i < |d.phone| ==> IsWhiteSpace(d.phone[i])
    ensures PhoneRequired in ApplicationErrors(d, isValidUrl)
    ensures InvalidPhone in ApplicationErrors(d, isValidUrl)
  {
    BlankIffAllWhiteSpace(d.phone);
    SeparatorsOnlyStripToEmpty(d.phone);
    assert PhoneErrors(d.phone) == [InvalidPhone];
    var r := RequiredErrors(d);
    var middle := ExperienceErrors(d.experienceYears) + LinkErrors(d.socialMediaLinks, isValidUrl);
    assert ApplicationErrors(d, isValidUrl) == r + middle + [InvalidPhone];
    assert PhoneRequired in r;
  }

  /** Every link message begins with "Social media link ", so it is never the phone-format message. */
  lemma {:induction false} LinkErrorsAreLinkMessages(links: seq<SocialMediaLink>, isValidUrl: string -> bool)
    ensures forall m :: m in LinkErrors(links, isValidUrl) ==> StartsWith(m, LinkPrefix)
  {
    if links != [] {
      var init := links[..|links| - 1];
      LinkErrorsAreLinkMessages(init, isValidUrl);
      LinkMessagesStartWithPrefix(|links|);
      assert LinkErrors(links, isValidUrl) == LinkErrors(init, isValidUrl) + LinkError(links[|links| - 1], |links|, isValidUrl);
    }
  }

  /** An empty phone is reported as missing only, never as malformed. */
  lemma EmptyPhoneOnlyRequired(d: ExpertApplicationData, isValidUrl: string -> bool)
    requires d.phone == ""
    ensures PhoneRequired in ApplicationErrors(d, isValidUrl)
    ensures InvalidPhone !in ApplicationErrors(d, isValidUrl)
  {
    var r := RequiredErrors(d);
    assert PhoneRequired in r;
    InvalidPhoneIsNoFieldMessage(d);
    LinkErrorsAreLinkMessages(d.socialMediaLinks, isValidUrl);
    StartsWithExcludes(InvalidPhone, "P", LinkPrefix);
    var links := LinkErrors(d.socialMediaLinks, isValidUrl);
    assert InvalidPhone !in links;
    assert ApplicationErrors(d, isValidUrl) == r + ExperienceErrors(d.experienceYears) + links;
  }

  /** The phone-format message is none of the required-field messages and not
      the experience message. */
  lemma InvalidPhoneIsNoFieldMessage(d: ExpertApplicationData)
    ensures InvalidPhone !in RequiredErrors(d)
    ensures InvalidPhone !in ExperienceErrors(d.experienceYears)
  {
    assert InvalidPhone[0] == 'P' && InvalidPhone[1] == 'l';
    assert NameRequired[0] == 'N' && LocationRequired[0] == 'L' && OccupationRequired[0] == 'O';
    assert DegreeRequired[0] == 'D' && BioRequired[0] == 'B' && ExperienceRange[0] == 'E';
    assert PhoneRequired[1] == 'h';
  }
}
