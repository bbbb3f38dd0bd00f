/** Employer registration: a form with a nested company profile, and the
    message shown after `POST /auth/register`. */
module Signup {
  import opened Common

  datatype SignupProfile = SignupProfile(bio: string, companyName: string, companyWebsite: string)

  datatype SignupForm = SignupForm(name: string, email: string, password: string, role: string, profile: SignupProfile)

  /** Every account made here is an employer; everything else starts empty. */
  const InitialForm := SignupForm("", "", "", "employer", SignupProfile("", "", ""))

  /** The form's values by input name; the company inputs are `profile.*`. */
  const Paths: set<string> :=
    {"name", "email", "password", "role", "profile.bio", "profile.companyName", "profile.companyWebsite"}

  function Field(f: SignupForm, path: string): string
    requires path in Paths
  {
    if path == "name" then f.name
    else if path == "email" then f.email
    else if path == "password" then f.password
    else if path == "role" then f.role
    else if path == "profile.bio" then f.profile.bio
    else if path == "profile.companyName" then f.profile.companyName
    else f.profile.companyWebsite
  }

  function SetProfileField(p: SignupProfile, key: string, value: string): SignupProfile
  {
    if key == "bio" then p.(bio := value)
    else if key == "companyName" then p.(companyName := value)
    else if key == "companyWebsite" then p.(companyWebsite := value)
    else p
  }

  function SetTopLevel(f: SignupForm, key: string, value: string): SignupForm
  {
    if key == "name" then f.(name := value)
    else if key == "email" then f.(email := value)
    else if key == "password" then f.(password := value)
    else if key == "role" then f.(role := value)
    else f
  }

  /** `handleChange`: a name starting with `profile.` writes the profile key
      between the first and second dot; any other name writes that top-level
      field. A key the form has no field for changes nothing the page reads. */
  function ApplyChange(f: SignupForm, name: string, value: string): (g: SignupForm)
    ensures StartsWith(name, "profile.") ==> g.name == f.name && g.email == f.email && g.password == f.password && g.role == f.role
    ensures !StartsWith(name, "profile.") ==> g.profile == f.profile
  {
    if StartsWith(name, "profile.") then
      assert name[7] == '.';
      f.(profile := SetProfileField(f.profile, Split(name, '.')[1], value))
    else SetTopLevel(f, name, value)
  }

  /** `profile.<key>` (and anything after a further dot) addresses `key`. */
  lemma ProfileNameParses(f: SignupForm, key: string, rest: Option<string>, value: string)
    requires '.' !in key
    ensures var name := if rest.Some? then "profile." + key + "." + rest.value else "profile." + key;
            ApplyChange(f, name, value) == f.(profile := SetProfileField(f.profile, key, value))
  {
    var name := if rest.Some? then "profile." + key + "." + rest.value else "profile." + key;
    assert name[..8] == "profile.";
    if rest.Some? {
      assert name == "profile" + ['.'] + (key + ['.'] + rest.value);
      SplitAt("profile", key + ['.'] + rest.value, '.');
      SplitAt(key, rest.value, '.');
    } else {
      assert name == "profile" + ['.'] + key;
      SplitAt("profile", key, '.');
      SplitNoSep(key, '.');
    }
  }

  /** The nested fields, written only through their own input. */
  lemma ProfileFieldFrame(f: SignupForm, path: string, value: string)
    requires path in {"profile.bio", "profile.companyName", "profile.companyWebsite"}
    ensures var g := f.(profile := SetProfileField(f.profile, path[8..], value));
            path in Paths && Field(g, path) == value &&
            forall n :: n in Paths && n != path ==> Field(g, n) == Field(f, n)
  {
    if path == "profile.bio" {
      assert path[8..] == "bio";
    } else if path == "profile.companyName" {
      assert path[8..] == "companyName";
    } else {
      assert path[8..] == "companyWebsite";
    }
  }

  /** A change to a company input writes exactly that nested field. */
  lemma ProfileChangeWritesOneField(f: SignupForm, path: string, value: string)
    requires path in {"profile.bio", "profile.companyName", "profile.companyWebsite"}
    ensures var g := ApplyChange(f, path, value);
            path in Paths && Field(g, path) == value &&
            forall n :: n in Paths && n != path ==> Field(g, n) == Field(f, n)
  {
    ProfileFieldFrame(f, path, value);
    var key := path[8..];
    assert path == "profile." + key;
    assert '.' !in key by {
      if path == "profile.bio" {
        assert key == "bio";
      } else if path == "profile.companyName" {
        assert key == "companyName";
      } else {
        assert key == "companyWebsite";
      }
    }
    ProfileNameParses(f, key, None, value);
  }

  /** A change to a top-level input writes exactly that field. */
  lemma TopLevelChangeWritesOneField(f: SignupForm, name: string, value: string)
    requires name in {"name", "email", "password", "role"}
    ensures var g := ApplyChange(f, name, value);
            Field(g, name) == value &&
            forall n :: n in Paths && n != name ==> Field(g, n) == Field(f, n)
  {
    if name == "password" {
      assert name[..8][1] != "profile."[1];
    }
  }

  const SuccessMessage := "Registration successful! Redirecting to login..."
  const ErrorMessage := "An error occurred. Please try again."
  const FailureFallback := "Registration failed"

  /** Where the success path navigates, 2000 ms after the message. */
  const AfterSignupPath := "/superlogin"

  /** How `fetch` ended: a response with its `ok` flag and the `message` of
      its JSON body, or an exception (network failure or a body that is not JSON). */
  datatype SubmitOutcome = Responded(ok: bool, serverMessage: Option<string>) | Threw

  /** The message `handleSubmit` leaves. */
  function OutcomeMessage(o: SubmitOutcome): (m: string)
    ensures m != ""
    ensures o.Responded? && o.ok ==> m == SuccessMessage
    ensures o.Responded? && !o.ok ==> m == Or(o.serverMessage, FailureFallback)
    ensures o.Responded? && !o.ok && Truthy(o.serverMessage) ==> m == o.serverMessage.value
    ensures o.Threw? ==> m == ErrorMessage
  {
    match o
    case Responded(ok, serverMessage) => if ok then SuccessMessage else Or(serverMessage, FailureFallback)
    case Threw => ErrorMessage
  }

  /** The message box is green exactly when the text contains "successful". */
  predicate SuccessStyled(message: string)
    ensures SuccessStyled(message) ==> |message| >= 10
    ensures SuccessStyled(message) ==> forall c :: c in "successful" ==> c in message
  {
    Contains(message, "successful")
  }

  /** The page's own messages are styled as intended: green for success,
      red for both failure texts. */
  lemma OwnMessagesStyled()
    ensures SuccessStyled(SuccessMessage)
    ensures !SuccessStyled(FailureFallback) && !SuccessStyled(ErrorMessage)
  {
    SuccessMessageStyled();
    FailureMessagesNotStyled();
  }

  lemma SuccessMessageStyled()
    ensures SuccessStyled(SuccessMessage)
  {
    assert SuccessMessage == "Registration " + "successful" + "! Redirecting to login...";
    ContainsInfix("Registration ", "successful", "! Redirecting to login...");
  }

  lemma FailureMessagesNotStyled()
    ensures !SuccessStyled(FailureFallback) && !SuccessStyled(ErrorMessage)
  {
    NotStyledWithout(FailureFallback, 'u');
    NotStyledWithout(ErrorMessage, 'f');
  }

  lemma NotStyledWithout(message: string, c: char)
    requires c in "successful" && c !in message
    ensures !SuccessStyled(message)
  {
    MissingCharNotContained(message, "successful", c);
  }

  /** The styling reads the text, not the outcome: a failed registration
      whose server message happens to contain "successful" is shown green,
      and the fallback failure text is always red. */
  lemma StylingFollowsText(serverMessage: string)
    requires serverMessage != "" && Contains(serverMessage, "successful")
    ensures SuccessStyled(OutcomeMessage(Responded(false, Some(serverMessage))))
    ensures !SuccessStyled(OutcomeMessage(Responded(false, None)))
  {
    OwnMessagesStyled();
  }

  class SignupPage {
    var formData: SignupForm
    var message: string
    var loading: bool

    constructor ()
      ensures formData == InitialForm && message == "" && !loading
    {
      formData := InitialForm;
      message := "";
      loading := false;
    }

    method HandleChange(name: string, value: string)
      modifies this`formData
      ensures formData == ApplyChange(old(formData), name, value)
    {
      formData := ApplyChange(formData, name, value);
    }

    /** Submitting: the message is cleared and the form is the request body. */
    method BeginSubmit() returns (body: SignupForm)
      modifies this`message, this`loading
      ensures message == "" && loading && !MessageShown()
      ensures body == formData
    {
      message := "";
      loading := true;
      body := formData;
    }

    /** The outcome of the request. Only success schedules a navigation. */
    method FinishSubmit(outcome: SubmitOutcome) returns (navigateTo: Option<string>)
      modifies this`message, this`loading
      ensures !loading && message == OutcomeMessage(outcome) && MessageShown()
      ensures navigateTo.Some? <==> outcome.Responded? && outcome.ok
      ensures navigateTo.Some? ==> navigateTo.value == AfterSignupPath
    {
      match outcome {
        case Responded(ok, serverMessage) =>
          if ok {
            message := SuccessMessage;
            navigateTo := Some(AfterSignupPath);
          } else {
            message := Or(serverMessage, FailureFallback);
            navigateTo := None;
          }
        case Threw =>
          message := ErrorMessage;
          navigateTo := None;
      }
      loading := false;
    }

    /** The message box is rendered only for a non-empty message. */
    predicate MessageShown()
      reads this
    {
      message != ""
    }
  }
}
