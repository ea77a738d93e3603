/** The simple "create chatbot" form: a name, a description and an optional
    training file. Its submit checks the two text fields for emptiness
    without trimming, hands them to the `onCreateChatbot` callback, and then
    clears the form. The file is kept but plays no part in the submit. */
module CreateChatbotForm {
  import opened Wrappers
  import opened Browser
  import opened Text

  datatype Form = Form(name: string, description: string, file: Option<File>)

  /** The arguments of one `onCreateChatbot(name, description)` call. */
  datatype Creation = Creation(name: string, description: string)

  /** The form after a submit, and the callback call it made, if any. */
  datatype Submitted = Submitted(next: Form, call: Option<Creation>)

  const InitialForm := Form("", "", None)

  function SetName(f: Form, v: string): (r: Form)
    ensures r.name == v && r.description == f.description && r.file == f.file
  {
    f.(name := v)
  }

  function SetDescription(f: Form, v: string): (r: Form)
    ensures r.description == v && r.name == f.name && r.file == f.file
  {
    f.(description := v)
  }

  /** `handleSubmit`: refused, with no callback and no change, exactly when
      the name or the description is the empty string (whitespace alone
      passes). Otherwise the callback is called once with both fields as
      typed, and the form is cleared. */
  function Submit(f: Form): (r: Submitted)
    ensures r.call.None? <==> f.name == "" || f.description == ""
    ensures r.call.None? ==> r.next == f
    ensures r.call.Some? ==> r.call.value == Creation(f.name, f.description) && r.next == InitialForm
  {
    if f.name == "" || f.description == "" then Submitted(f, None)
    else Submitted(InitialForm, Some(Creation(f.name, f.description)))
  }

  /** `handleFileChange`: stores the first selected file, of any type; no
      selection changes nothing. */
  function FileChange(f: Form, files: seq<File>): (r: Form)
    ensures r.name == f.name && r.description == f.description
    ensures files != [] ==> r.file == Some(files[0])
    ensures files == [] ==> r == f
  {
    match FirstFile(files)
    case Some(file) => f.(file := Some(file))
    case None => f
  }

  /** The stored file never influences whether the submit calls back, nor
      with what. */
  lemma FileNeverAffectsSubmit(f: Form, file: Option<File>)
    ensures Submit(f.(file := file)).call == Submit(f).call
  {
  }

  /** Pressing submit twice creates at most one chatbot: an accepted submit
      clears the form, so the next one is refused. */
  lemma SecondSubmitIsRefused(f: Form)
    ensures Submit(Submit(f).next).call.Some? ==> Submit(f).call.None?
  {
  }

  /** There is no trimming: a non-empty name and description made of
      whitespace alone are accepted and passed on exactly as typed. */
  lemma BlankFieldsPass(f: Form)
    requires f.name != "" && f.description != ""
    requires Blank(f.name) && Blank(f.description)
    ensures Submit(f).call == Some(Creation(f.name, f.description))
  {
  }
}
