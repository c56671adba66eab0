/** The sign-up form: account fields with their validators, a list of children
    each with a list of interests, an avatar upload, and the submit guard. */
module Register {

  import opened Wrappers
  import opened JsText
  import opened Models
  import opened MediaUrls

  /** The form's top-level values; `role` starts as "parent". */
  datatype AccountFields = AccountFields(
    name: string,
    email: string,
    password: string,
    avatar: string,
    bio: string,
    role: string,
    location: string)

  const EmptyAccount: AccountFields := AccountFields("", "", "", "", "", "parent", "")

  /** The names of the top-level controls, in the form's order. */
  const FieldNames: set<string> := {"name", "email", "password", "avatar", "bio", "role", "location"}

  /** A child's sub-form: its value and whether its controls were marked touched. */
  datatype ChildForm = ChildForm(value: Child, touched: bool)

  const NewChild: ChildForm := ChildForm(Child("", Some(0), []), false)

  /** The errors a control carries, as the form validators report them. */
  datatype FieldErrors = FieldErrors(required: bool, email: bool, minlength: bool)

  predicate HasErrors(e: FieldErrors) {
    e.required || e.email || e.minlength
  }

  /** `required` fails on an empty value; `minLength(n)` fails on a non-empty value
      shorter than n UTF-16 code units; `email` fails on a non-empty value the email pattern
      (`isEmail`) refuses. */
  function ErrorsOf(field: string, a: AccountFields, isEmail: string -> bool): (e: FieldErrors)
    ensures field == "name" ==> e == FieldErrors(a.name == "", false, a.name != "" && Utf16Length(a.name) < 2)
    ensures field == "email" ==> e == FieldErrors(a.email == "", a.email != "" && !isEmail(a.email), false)
    ensures field == "password" ==> e == FieldErrors(a.password == "", false, a.password != "" && Utf16Length(a.password) < 6)
    ensures field !in {"name", "email", "password"} ==> !HasErrors(e)
  {
    if field == "name" then FieldErrors(a.name == "", false, a.name != "" && Utf16Length(a.name) < 2)
    else if field == "email" then FieldErrors(a.email == "", a.email != "" && !isEmail(a.email), false)
    else if field == "password" then FieldErrors(a.password == "", false, a.password != "" && Utf16Length(a.password) < 6)
    else FieldErrors(false, false, false)
  }

  /** A child is valid with a name and an age of at least 0: `required` fails on
      a cleared age, `min(0)` on a negative one. */
  predicate ChildValid(c: Child) {
    c.name != "" && c.age.Some? && c.age.value >= 0
  }

  /** `registerForm.valid`: no account control and no child control has an error. */
  predicate FormValid(a: AccountFields, children: seq<ChildForm>, isEmail: string -> bool) {
    && !HasErrors(ErrorsOf("name", a, isEmail))
    && !HasErrors(ErrorsOf("email", a, isEmail))
    && !HasErrors(ErrorsOf("password", a, isEmail))
    && forall k :: 0 <= k < |children| ==> ChildValid(children[k].value)
  }

  /** The form is valid exactly when the name has at least 2 code units, the
      email is accepted, the password has at least 6 code units, and every child
      has a name and an age that is given and not negative. */
  lemma FormValidMeans(a: AccountFields, children: seq<ChildForm>, isEmail: string -> bool)
    ensures FormValid(a, children, isEmail) <==>
      && Utf16Length(a.name) >= 2 && a.email != "" && isEmail(a.email) && Utf16Length(a.password) >= 6
      && forall k :: 0 <= k < |children| ==> children[k].value.name != ""
                                              && children[k].value.age.Some? && children[k].value.age.value >= 0
  {
  }

  /** A one-character name outside the Basic Multilingual Plane (one emoji) is
      two code units long, so `minLength(2)` accepts it; one other character is
      refused as too short. */
  lemma OneCharacterNames(a: AccountFields, isEmail: string -> bool)
    requires |a.name| == 1
    ensures !HasErrors(ErrorsOf("name", a, isEmail)) <==> Astral(a.name[0])
  {
    assert a.name[..0] == [];
  }

  /** `getFieldError`: nothing unless the control has an error and was touched;
      then the required message before the email message before the length one. */
  function FieldError(field: string, e: FieldErrors, touched: bool): (r: string)
    ensures !touched || !HasErrors(e) ==> r == ""
    ensures touched && e.required ==> r == field + " is required"
    ensures touched && !e.required && e.email ==> r == "Please enter a valid email"
    ensures touched && !e.required && !e.email && e.minlength ==> r == field + " is too short"
  {
    if HasErrors(e) && touched then
      if e.required then field + " is required"
      else if e.email then "Please enter a valid email"
      else if e.minlength then field + " is too short"
      else ""
    else ""
  }

  /** `getChildFieldError` for a child's `name` or `age` control. */
  function ChildFieldError(field: string, c: ChildForm): (r: string)
    ensures !c.touched ==> r == ""
    ensures c.touched && field == "name" ==> (r == "" <==> c.value.name != "")
    ensures c.touched && field == "name" && c.value.name == "" ==> r == "name is required"
    ensures c.touched && field == "age" ==> (r == "" <==> c.value.age.Some? && c.value.age.value >= 0)
    ensures c.touched && field == "age" && c.value.age.None? ==> r == "age is required"
    ensures c.touched && field == "age" && c.value.age.Some? && c.value.age.value < 0 ==> r == "Age must be 0 or greater"
    ensures field != "name" && field != "age" ==> r == ""
  {
    if !c.touched then ""
    else if field == "name" && c.value.name == "" then field + " is required"
    else if field == "age" && c.value.age.None? then field + " is required"
    else if field == "age" && c.value.age.value < 0 then "Age must be 0 or greater"
    else ""
  }

  /** The interests after `addInterest`: a non-blank entry is stored trimmed unless
      that trimmed text is already there. */
  function AddedInterest(interests: seq<string>, interest: string): (r: seq<string>)
    ensures IsBlank(interest) || Trim(interest) in interests ==> r == interests
    ensures !IsBlank(interest) && Trim(interest) !in interests ==> r == interests + [Trim(interest)]
  {
    if Trim(interest) != "" && Trim(interest) !in interests then interests + [Trim(interest)] else interests
  }

  predicate NoDuplicates(s: seq<string>) {
    forall i, j :: 0 <= i < j < |s| ==> s[i] != s[j]
  }

  /** Adding an interest never creates a duplicate, and adding the same text
      again changes nothing. */
  lemma AddedInterestKeepsInterestsDistinct(interests: seq<string>, interest: string)
    requires NoDuplicates(interests)
    ensures NoDuplicates(AddedInterest(interests, interest))
    ensures AddedInterest(AddedInterest(interests, interest), interest) == AddedInterest(interests, interest)
  {
    var r := AddedInterest(interests, interest);
    if r != interests {
      forall i, j | 0 <= i < j < |r|
        ensures r[i] != r[j]
      {
        if j == |interests| {
          assert r[i] == interests[i];
        }
      }
    }
  }

  /** Each stored interest either was there before or is the new entry, trimmed,
      not blank, and unchanged by trimming again. */
  lemma AddedInterestIsTrimmed(interests: seq<string>, interest: string)
    ensures forall x :: x in AddedInterest(interests, interest) ==>
      x in interests || (x == Trim(interest) && x != "" && Trim(x) == x)
  {
    TrimIsTrimmed(interest);
  }

  /** Trimming a trimmed text changes nothing. */
  lemma TrimIsTrimmed(s: string)
    ensures Trim(Trim(s)) == Trim(s)
  {
    var t := Trim(s);
    TrimStartSpec(s);
    TrimEndSpec(TrimStart(s));
    if t != [] {
      assert t[0] == TrimStart(s)[0];
      assert TrimStart(t) == t;
      assert TrimEnd(t) == t;
    }
  }

  /** Removing the interest that was just added gives back the earlier list. */
  lemma RemoveAddedInterest(interests: seq<string>, interest: string)
    requires !IsBlank(interest) && Trim(interest) !in interests
    ensures RemoveAt(AddedInterest(interests, interest), |interests|) == interests
  {
    var added := AddedInterest(interests, interest);
    RemoveAtInRange(added, |interests|);
    assert added[..|interests|] + added[|interests| + 1..] == interests;
  }

  const RegisterFailedMessage: string := "Registration failed. Please try again."
  const AvatarFailedMessage: string := "Failed to upload avatar. Please try again."

  /** What a submitted registration carries. */
  datatype Registration = Registration(account: AccountFields, children: seq<Child>)

  function ChildValues(children: seq<ChildForm>): (r: seq<Child>)
    ensures |r| == |children| && forall k :: 0 <= k < |children| ==> r[k] == children[k].value
  {
    if children == [] then [] else [children[0].value] + ChildValues(children[1..])
  }

  function AllTouched(children: seq<ChildForm>): (r: seq<ChildForm>)
    ensures |r| == |children| && forall k :: 0 <= k < |children| ==> r[k] == children[k].(touched := true)
  {
    if children == [] then [] else [children[0].(touched := true)] + AllTouched(children[1..])
  }

  class RegisterComponent {
    var account: AccountFields
    var children: seq<ChildForm>
    /** The top-level controls marked touched. */
    var touched: set<string>
    var isLoading: bool
    var showSuccessModal: bool
    var errorMessage: string
    var avatarPreview: string
    /** The email pattern the email validator applies. */
    const isEmail: string -> bool
    var navigations: seq<seq<string>>
    /** Registrations sent and avatar files uploaded, oldest first. */
    var registrations: seq<Registration>
    var avatarUploads: nat

    constructor(isEmail: string -> bool)
      ensures account == EmptyAccount && children == [] && touched == {}
      ensures !isLoading && !showSuccessModal && errorMessage == "" && avatarPreview == ""
      ensures this.isEmail == isEmail && navigations == [] && registrations == [] && avatarUploads == 0
    {
      account := EmptyAccount;
      children := [];
      touched := {};
      isLoading := false;
      showSuccessModal := false;
      errorMessage := "";
      avatarPreview := "";
      this.isEmail := isEmail;
      navigations := [];
      registrations := [];
      avatarUploads := 0;
    }

    method AddChild()
      modifies this`children
      ensures children == old(children) + [NewChild]
    {
      children := children + [NewChild];
    }

    /** `removeChild(index)`: the child at the (splice-adjusted) index goes and the
        others keep their order. */
    method RemoveChild(index: int)
      modifies this`children
      ensures children == RemoveAt(old(children), index)
    {
      children := RemoveAt(children, index);
    }

    /** `addInterest` on an existing child. */
    method AddInterest(childIndex: nat, interest: string)
      requires childIndex < |children|
      modifies this`children
      ensures |children| == |old(children)|
      ensures children[childIndex].value
        == old(children)[childIndex].value.(interests := AddedInterest(old(children)[childIndex].value.interests, interest))
      ensures children[childIndex].touched == old(children)[childIndex].touched
      ensures forall k :: 0 <= k < |children| && k != childIndex ==> children[k] == old(children)[k]
    {
      var c := children[childIndex];
      children := children[childIndex := c.(value := c.value.(interests := AddedInterest(c.value.interests, interest)))];
    }

    /** `removeInterest` on an existing child. */
    method RemoveInterest(childIndex: nat, interestIndex: int)
      requires childIndex < |children|
      modifies this`children
      ensures |children| == |old(children)|
      ensures children[childIndex].value
        == old(children)[childIndex].value.(interests := RemoveAt(old(children)[childIndex].value.interests, interestIndex))
      ensures children[childIndex].touched == old(children)[childIndex].touched
      ensures forall k :: 0 <= k < |children| && k != childIndex ==> children[k] == old(children)[k]
    {
      var c := children[childIndex];
      children := children[childIndex := c.(value := c.value.(interests := RemoveAt(c.value.interests, interestIndex)))];
    }

    /** `onSubmit`: a valid form with no request in flight is sent; otherwise every
        control, the children's included, is marked touched and nothing is sent. */
    method OnSubmit()
      modifies this`isLoading, this`errorMessage, this`registrations, this`touched, this`children
      ensures FormValid(account, old(children), isEmail) && !old(isLoading) ==>
        && isLoading && errorMessage == "" && children == old(children) && touched == old(touched)
        && registrations == old(registrations) + [Registration(account, ChildValues(children))]
      ensures !(FormValid(account, old(children), isEmail) && !old(isLoading)) ==>
        && isLoading == old(isLoading) && errorMessage == old(errorMessage)
        && registrations == old(registrations)
        && touched == old(touched) + FieldNames && children == AllTouched(old(children))
    {
      if FormValid(account, children, isEmail) && !isLoading {
        isLoading := true;
        errorMessage := "";
        registrations := registrations + [Registration(account, ChildValues(children))];
      } else {
        touched := touched + FieldNames;
        children := AllTouched(children);
      }
    }

    method OnRegistered()
      modifies this`isLoading, this`showSuccessModal
      ensures !isLoading && showSuccessModal
    {
      isLoading := false;
      showSuccessModal := true;
    }

    /** The redirect three seconds after a successful registration. */
    method OnRedirectTimer()
      modifies this`showSuccessModal, this`navigations
      ensures !showSuccessModal && navigations == old(navigations) + [["/login"]]
    {
      showSuccessModal := false;
      navigations := navigations + [["/login"]];
    }

    /** A failed registration shows the server's `message` ("" when absent) or the default. */
    method OnRegisterError(serverMessage: string)
      modifies this`isLoading, this`errorMessage
      ensures !isLoading
      ensures serverMessage != "" ==> errorMessage == serverMessage
      ensures serverMessage == "" ==> errorMessage == RegisterFailedMessage
    {
      isLoading := false;
      errorMessage := Or(serverMessage, RegisterFailedMessage);
    }

    /** `onAvatarFileSelected`: a picked file is uploaded at once. */
    method OnAvatarFileSelected(picked: bool)
      modifies this`avatarUploads
      ensures avatarUploads == old(avatarUploads) + (if picked then 1 else 0)
    {
      if picked {
        avatarUploads := avatarUploads + 1;
      }
    }

    /** The uploaded avatar's URL becomes both the form value and the preview. */
    method OnAvatarUploaded(url: string)
      modifies this`account, this`avatarPreview
      ensures account == old(account).(avatar := url) && avatarPreview == url
    {
      account := account.(avatar := url);
      avatarPreview := url;
    }

    method OnAvatarUploadError()
      modifies this`errorMessage
      ensures errorMessage == AvatarFailedMessage
    {
      errorMessage := AvatarFailedMessage;
    }

    method GoBack()
      modifies this`navigations
      ensures navigations == old(navigations) + [["/profile"]]
    {
      navigations := navigations + [["/profile"]];
    }

    /** `getFieldError` for a top-level control. */
    function GetFieldError(field: string): (r: string)
      reads this`account, this`touched
      ensures field !in touched ==> r == ""
      ensures r == FieldError(field, ErrorsOf(field, account, isEmail), field in touched)
    {
      FieldError(field, ErrorsOf(field, account, isEmail), field in touched)
    }

    /** `getAvatarPreviewUrl`: the preview through the avatar builder, "" when it
        yields nothing. */
    function GetAvatarPreviewUrl(): (r: string)
      reads this`avatarPreview
      ensures AvatarUploadUrl(avatarPreview).None? ==> r == ""
      ensures AvatarUploadUrl(avatarPreview).Some? ==> r == AbsoluteMediaUrl(avatarPreview) && r != ""
    {
      var url := AvatarUploadUrl(avatarPreview);
      if url.Some? then
        AvatarUploadUrlAgreesWithAbsolute(avatarPreview);
        url.value
      else ""
    }
  }

  /** After a refused submit, every invalid account control shows its message. */
  lemma RefusedSubmitShowsErrors(a: AccountFields, field: string, isEmail: string -> bool)
    requires field in {"name", "email", "password"} && HasErrors(ErrorsOf(field, a, isEmail))
    ensures FieldError(field, ErrorsOf(field, a, isEmail), true) != ""
  {
  }
}
