/** The login form: two text fields, one emptiness check on submit, and the
    call to `login` with exactly what was entered. */
module LoginForm {
  import opened Text
  import opened AuthResults

  datatype Form = Form(email: string, password: string)

  datatype FieldName = Email | Password

  /** `handleChange`: the named field takes the input's value. */
  function Changed(f: Form, name: FieldName, value: string): (r: Form)
    ensures name == Email ==> r.email == value && r.password == f.password
    ensures name == Password ==> r.password == value && r.email == f.email
  {
    match name
    case Email => f.(email := value)
    case Password => f.(password := value)
  }

  /** The form may be sent only with both fields non-empty. */
  function Validate(f: Form): (r: Option<string>)
    ensures r.None? <==> f.email != "" && f.password != ""
    ensures r.Some? ==> r.value == FillInAllFields
  {
    if f.email == "" || f.password == "" then Some(FillInAllFields) else None
  }

  class Page {
    var form: Form
    var error: string
    var navigatedTo: Option<string>

    constructor ()
      ensures form == Form("", "") && error == "" && navigatedTo == None
    {
      form := Form("", "");
      error := "";
      navigatedTo := None;
    }

    method HandleChange(name: FieldName, value: string)
      modifies this`form
      ensures form == Changed(old(form), name, value)
    {
      form := Changed(form, name, value);
    }

    /** `handleSubmit`: clear the error; an empty field sets the message and
        stops before `login`; otherwise `login` receives the entered email and
        password, and its result navigates to the dashboard or becomes the
        error. `call` is what `login` received. */
    method HandleSubmit(login: (string, string) -> AuthResult) returns (call: Option<Credentials>)
      modifies this`error, this`navigatedTo
      ensures Validate(form).Some? ==>
        call == None && error == FillInAllFields && navigatedTo == old(navigatedTo)
      ensures Validate(form).None? ==>
        var result := login(form.email, form.password);
        && call == Some(Login(form.email, form.password))
        && (result.success ==> error == "" && navigatedTo == Some(DashboardPath))
        && (!result.success ==> error == result.message && navigatedTo == old(navigatedTo))
    {
      error := "";
      if form.email == "" || form.password == "" {
        error := FillInAllFields;
        return None;
      }
      call := Some(Login(form.email, form.password));
      var result := login(form.email, form.password);
      if result.success {
        navigatedTo := Some(DashboardPath);
      } else {
        error := result.message;
      }
    }
  }
}
