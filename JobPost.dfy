/** The "Post Job" form: six text inputs posted as they are. */
module JobPost {
  import opened Common

  datatype PostForm = PostForm(
    title: string, description: string, company: string,
    requirements: string, location: string, salary: string)

  const EmptyPost := PostForm("", "", "", "", "", "")

  /** The six inputs, by name. */
  const FieldNames: set<string> := {"title", "description", "company", "requirements", "location", "salary"}

  function Field(f: PostForm, name: string): string
    requires name in FieldNames
  {
    if name == "title" then f.title
    else if name == "description" then f.description
    else if name == "company" then f.company
    else if name == "requirements" then f.requirements
    else if name == "location" then f.location
    else f.salary
  }

  /** `handleChange`: the named input takes the value and nothing else moves. */
  function ApplyChange(f: PostForm, name: string, value: string): (g: PostForm)
    ensures name in FieldNames ==> Field(g, name) == value
    ensures forall n :: n in FieldNames && n != name ==> Field(g, n) == Field(f, n)
    ensures name !in FieldNames ==> g == f
  {
    if name == "title" then f.(title := value)
    else if name == "description" then f.(description := value)
    else if name == "company" then f.(company := value)
    else if name == "requirements" then f.(requirements := value)
    else if name == "location" then f.(location := value)
    else if name == "salary" then f.(salary := value)
    else f
  }

  /** Typing into every input in turn fills the form with exactly those values. */
  lemma FillingEveryInput(f: PostForm, g: PostForm)
    ensures ApplyChange(ApplyChange(ApplyChange(ApplyChange(ApplyChange(ApplyChange(f,
              "title", g.title), "description", g.description), "company", g.company),
              "requirements", g.requirements), "location", g.location), "salary", g.salary) == g
  {
  }

  class JobPostPage {
    /** Whether the parent passed an `onSuccess` callback. */
    const hasOnSuccess: bool
    var formData: PostForm
    var error: Option<string>
    var success: Option<string>
    var loading: bool

    constructor (hasOnSuccess: bool)
      ensures this.hasOnSuccess == hasOnSuccess
      ensures formData == EmptyPost && error.None? && success.None? && !loading
    {
      this.hasOnSuccess := hasOnSuccess;
      formData := EmptyPost;
      error := None;
      success := None;
      loading := false;
    }

    method HandleChange(name: string, value: string)
      modifies this`formData, this`error, this`success
      ensures formData == ApplyChange(old(formData), name, value)
      ensures error.None? && success.None?
    {
      formData := ApplyChange(formData, name, value);
      error := None;
      success := None;
    }

    /** Submitting: the form is the request body, unchanged. */
    method BeginSubmit() returns (body: PostForm)
      modifies this`loading, this`error, this`success
      ensures loading && error.None? && success.None?
      ensures body == formData
    {
      loading := true;
      error := None;
      success := None;
      body := formData;
    }

    /** The outcome of `POST /jobs`. On success the form is emptied and, when
        there is an `onSuccess`, it is scheduled 1500 ms later. */
    method FinishSubmit(response: Response<()>) returns (scheduleOnSuccess: bool)
      modifies this`formData, this`error, this`success, this`loading
      ensures !loading
      ensures scheduleOnSuccess <==> response.Ok? && hasOnSuccess
      ensures response.Ok? ==>
        formData == EmptyPost && success == Some("Job posted successfully!") && error == old(error)
      ensures response.Fail? ==>
        && formData == old(formData) && success == old(success)
        && error == Some(MessageOnly(response.err, "Failed to post job"))
    {
      if response.Ok? {
        success := Some("Job posted successfully!");
        formData := EmptyPost;
        scheduleOnSuccess := hasOnSuccess;
      } else {
        error := Some(MessageOnly(response.err, "Failed to post job"));
        scheduleOnSuccess := false;
      }
      loading := false;
    }
  }

  /** A submit whose post fails keeps every character typed, and the message
      is never empty. */
  method FailedPostKeepsForm(page: JobPostPage, err: ApiError)
    modifies page
    ensures page.formData == old(page.formData) && !page.loading
    ensures page.error.Some? && page.error.value != "" && page.success.None?
  {
    var _ := page.BeginSubmit();
    var scheduled := page.FinishSubmit(Fail(err));
  }
}
