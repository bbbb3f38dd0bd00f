/** The employer's own account page: a form over the user record, an update
    that sends everything but the e-mail address, and cancel. */
module EmployerProfile {
  import opened Common

  datatype CompanyProfile = CompanyProfile(companyName: Option<string>, companyWebsite: Option<string>, bio: Option<string>)

  /** The user record `GET /auth/profile` and `PUT /auth/profile` return. */
  datatype User = User(name: Option<string>, email: Option<string>, profile: Option<CompanyProfile>)

  datatype ProfileForm = ProfileForm(name: string, email: string, companyName: string, companyWebsite: string, bio: string)

  const EmptyForm := ProfileForm("", "", "", "", "")

  /** The five inputs of the form, by name. */
  const FieldNames: set<string> := {"name", "email", "companyName", "companyWebsite", "bio"}

  function Field(f: ProfileForm, name: string): string
    requires name in FieldNames
  {
    if name == "name" then f.name
    else if name == "email" then f.email
    else if name == "companyName" then f.companyName
    else if name == "companyWebsite" then f.companyWebsite
    else f.bio
  }

  /** `user.profile?.companyName`, `user.profile?.companyWebsite`, `user.profile?.bio`. */
  function CompanyName(u: User): Option<string>
  {
    if u.profile.Some? then u.profile.value.companyName else None
  }

  function CompanyWebsite(u: User): Option<string>
  {
    if u.profile.Some? then u.profile.value.companyWebsite else None
  }

  function Bio(u: User): Option<string>
  {
    if u.profile.Some? then u.profile.value.bio else None
  }

  /** The form shown for a user record: top-level name and e-mail, the
      company fields from the nested profile, every missing value as `''`. */
  function FormFromUser(u: User): (f: ProfileForm)
    ensures Truthy(u.name) ==> f.name == u.name.value
    ensures Truthy(u.email) ==> f.email == u.email.value
    ensures u.profile.None? ==> f.companyName == "" && f.companyWebsite == "" && f.bio == ""
    ensures u.profile.Some? ==> f.companyName == Or(u.profile.value.companyName, "")
    ensures forall n :: n in FieldNames ==> Field(f, n) == Or(FieldSource(u, n), "")
    ensures forall n :: n in FieldNames && Field(f, n) != "" ==> Truthy(FieldSource(u, n)) && Field(f, n) == FieldSource(u, n).value
  {
    ProfileForm(
      Or(u.name, ""),
      Or(u.email, ""),
      Or(CompanyName(u), ""),
      Or(CompanyWebsite(u), ""),
      Or(Bio(u), ""))
  }

  /** Where in the user record each input's value comes from. */
  function FieldSource(u: User, name: string): Option<string>
    requires name in FieldNames
  {
    if name == "name" then u.name
    else if name == "email" then u.email
    else if name == "companyName" then CompanyName(u)
    else if name == "companyWebsite" then CompanyWebsite(u)
    else Bio(u)
  }

  /** `handleChange`: the named input takes the value and nothing else moves;
      a name that is not an input changes nothing the page reads. */
  function ApplyChange(f: ProfileForm, name: string, value: string): (g: ProfileForm)
    ensures name in FieldNames ==> Field(g, name) == value
    ensures forall n :: n in FieldNames && n != name ==> Field(g, n) == Field(f, n)
    ensures name !in FieldNames ==> g == f
  {
    if name == "name" then f.(name := value)
    else if name == "email" then f.(email := value)
    else if name == "companyName" then f.(companyName := value)
    else if name == "companyWebsite" then f.(companyWebsite := value)
    else if name == "bio" then f.(bio := value)
    else f
  }

  datatype CompanyUpdate = CompanyUpdate(companyName: string, companyWebsite: string, bio: string)

  /** The body of `PUT /auth/profile`: there is no place for the e-mail. */
  datatype ProfileUpdate = ProfileUpdate(name: string, profile: CompanyUpdate)

  /** What the body carries for each input: every input's value except the
      e-mail's, which has no place in it. */
  function SentValue(p: ProfileUpdate, name: string): Option<string>
    requires name in FieldNames
  {
    if name == "name" then Some(p.name)
    else if name == "companyName" then Some(p.profile.companyName)
    else if name == "companyWebsite" then Some(p.profile.companyWebsite)
    else if name == "bio" then Some(p.profile.bio)
    else None
  }

  function UpdatePayload(f: ProfileForm): (p: ProfileUpdate)
    ensures forall n :: n in FieldNames ==> SentValue(p, n) == if n == "email" then None else Some(Field(f, n))
  {
    ProfileUpdate(f.name, CompanyUpdate(f.companyName, f.companyWebsite, f.bio))
  }

  /** The e-mail never reaches the server, and every other input does: two
      forms give the same payload exactly when they differ at most in the e-mail. */
  lemma PayloadIgnoresEmail(f: ProfileForm, g: ProfileForm)
    ensures UpdatePayload(f) == UpdatePayload(g) <==> f.(email := g.email) == g
  {
  }

  /** A user record whose fields are what the server stored from `p`, with
      the e-mail it already had. */
  function Stored(p: ProfileUpdate, email: Option<string>): User
  {
    User(Some(p.name), email,
         Some(CompanyProfile(Some(p.profile.companyName), Some(p.profile.companyWebsite), Some(p.profile.bio))))
  }

  /** When the server stores the payload as sent, the rebuilt form shows the
      edits the user made; only the e-mail comes from the server. */
  lemma UpdateEchoKeepsEdits(f: ProfileForm, email: Option<string>)
    ensures FormFromUser(Stored(UpdatePayload(f), email)) == f.(email := Or(email, ""))
  {
    assert Or(Some(f.name), "") == f.name;
    assert Or(Some(f.companyName), "") == f.companyName;
    assert Or(Some(f.companyWebsite), "") == f.companyWebsite;
    assert Or(Some(f.bio), "") == f.bio;
  }

  class ProfilePage {
    var profile: Option<User>
    var isEditing: bool
    var loading: bool
    var updateLoading: bool
    var error: Option<string>
    var success: Option<string>
    var formData: ProfileForm

    constructor ()
      ensures profile.None? && !isEditing && loading && !updateLoading
      ensures error.None? && success.None? && formData == EmptyForm
    {
      profile := None;
      isEditing := false;
      loading := true;
      updateLoading := false;
      error := None;
      success := None;
      formData := EmptyForm;
    }

    method BeginFetch()
      modifies this`loading, this`error
      ensures loading && error.None?
    {
      loading := true;
      error := None;
    }

    /** The outcome of `GET /auth/profile`. */
    method FinishFetch(response: Response<User>)
      modifies this`profile, this`formData, this`error, this`loading
      ensures !loading
      ensures response.Ok? ==>
        profile == Some(response.data) && formData == FormFromUser(response.data) && error == old(error)
      ensures response.Fail? ==>
        && profile == old(profile) && formData == old(formData)
        && error == Some(MessageThenMsg(response.err, "Failed to load profile"))
    {
      match response {
        case Ok(u) =>
          profile := Some(u);
          formData := FormFromUser(u);
        case Fail(e) =>
          error := Some(MessageThenMsg(e, "Failed to load profile"));
      }
      loading := false;
    }

    method StartEditing()
      modifies this`isEditing
      ensures isEditing
    {
      isEditing := true;
    }

    method HandleChange(name: string, value: string)
      modifies this`formData, this`error, this`success
      ensures formData == ApplyChange(old(formData), name, value)
      ensures error.None? && success.None?
    {
      formData := ApplyChange(formData, name, value);
      error := None;
      success := None;
    }

    /** Submitting: the request body is built from the form. */
    method BeginUpdate() returns (body: ProfileUpdate)
      modifies this`updateLoading, this`error, this`success
      ensures updateLoading && error.None? && success.None?
      ensures body == UpdatePayload(formData)
    {
      updateLoading := true;
      error := None;
      success := None;
      body := UpdatePayload(formData);
    }

    /** The outcome of `PUT /auth/profile`. */
    method FinishUpdate(response: Response<User>)
      modifies this`profile, this`formData, this`isEditing, this`error, this`success, this`updateLoading
      ensures !updateLoading
      ensures response.Ok? ==>
        && profile == Some(response.data) && formData == FormFromUser(response.data)
        && !isEditing && success == Some("Profile updated successfully!") && error == old(error)
      ensures response.Fail? ==>
        && profile == old(profile) && formData == old(formData) && isEditing == old(isEditing)
        && success == old(success) && error == Some(MessageThenMsg(response.err, "Failed to update profile"))
    {
      match response {
        case Ok(u) =>
          profile := Some(u);
          success := Some("Profile updated successfully!");
          isEditing := false;
          formData := FormFromUser(u);
        case Fail(e) =>
          error := Some(MessageThenMsg(e, "Failed to update profile"));
      }
      updateLoading := false;
    }

    /** Cancel: leave edit mode, clear the messages and show the stored profile again. */
    method Cancel()
      modifies this`isEditing, this`error, this`success, this`formData
      ensures !isEditing && error.None? && success.None?
      ensures profile.Some? ==> formData == FormFromUser(profile.value)
      ensures profile.None? ==> formData == old(formData)
    {
      isEditing := false;
      error := None;
      success := None;
      if profile.Some? {
        formData := FormFromUser(profile.value);
      }
    }
  }
}
