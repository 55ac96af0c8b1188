/** The registration form: four text fields, an ordered chain of checks run
    on submit, and the call to `register` when every check passes. */
module RegisterForm {
  import opened Text
  import opened AuthResults

  datatype Form = Form(fullName: string, email: string, password: string, confirmPassword: string)

  /** The `name` attribute of each input. */
  datatype FieldName = FullName | Email | Password | ConfirmPassword

  const PasswordsDiffer: string := "Passwords do not match"
  const PasswordTooShort: string := "Password must be at least 6 characters"
  const MinPasswordLength: nat := 6

  /** `handleChange`: the named field takes the input's value. */
  function Changed(f: Form, name: FieldName, value: string): (r: Form)
    ensures name == FullName ==> r == f.(fullName := value)
    ensures name == Email ==> r == f.(email := value)
    ensures name == Password ==> r == f.(password := value)
    ensures name == ConfirmPassword ==> r == f.(confirmPassword := value)
  {
    match name
    case FullName => f.(fullName := value)
    case Email => f.(email := value)
    case Password => f.(password := value)
    case ConfirmPassword => f.(confirmPassword := value)
  }

  /** The message of the first check that fails, in the order the form runs
      them, or `None` when the form may be sent. */
  function Validate(f: Form): (r: Option<string>)
    ensures r.None? <==>
      f.fullName != "" && f.email != "" && f.password != "" && f.confirmPassword != ""
      && f.password == f.confirmPassword && |f.password| >= MinPasswordLength
    ensures (f.fullName == "" || f.email == "" || f.password == "" || f.confirmPassword == "")
      ==> r == Some(FillInAllFields)
  {
    if f.fullName == "" || f.email == "" || f.password == "" || f.confirmPassword == "" then
      Some(FillInAllFields)
    else if f.password != f.confirmPassword then Some(PasswordsDiffer)
    else if |f.password| < MinPasswordLength then Some(PasswordTooShort)
    else None
  }

  /** The mismatch check comes before the length check: a short password
      that differs from its confirmation reports the mismatch. */
  lemma MismatchReportedBeforeLength(f: Form)
    requires f.fullName != "" && f.email != "" && f.password != "" && f.confirmPassword != ""
    ensures f.password != f.confirmPassword ==> Validate(f) == Some(PasswordsDiffer)
    ensures f.password == f.confirmPassword && |f.password| < MinPasswordLength ==>
      Validate(f) == Some(PasswordTooShort)
  {
  }

  /** A form filled in field by field from the empty one passes exactly
      when the filled values do. */
  lemma FillingInEveryField(n: string, e: string, p: string, c: string)
    ensures var f := Changed(Changed(Changed(Changed(Form("", "", "", ""), FullName, n), Email, e), Password, p), ConfirmPassword, c);
      f == Form(n, e, p, c) && (Validate(f).None? <==> n != "" && e != "" && p != "" && p == c && |p| >= MinPasswordLength)
  {
  }

  class Page {
    var form: Form
    var error: string
    /** The route the page navigated to, if any. */
    var navigatedTo: Option<string>

    constructor ()
      ensures form == Form("", "", "", "") && error == "" && navigatedTo == None
    {
      form := Form("", "", "", "");
      error := "";
      navigatedTo := None;
    }

    method HandleChange(name: FieldName, value: string)
      modifies this`form
      ensures form == Changed(old(form), name, value)
    {
      form := Changed(form, name, value);
    }

    /** `handleSubmit`: clear the error; a failed check sets its message and
        stops before `register`; otherwise `register` is called with the
        name, email and password, and its result either navigates to the
        dashboard or becomes the error. `call` is what `register` received. */
    method HandleSubmit(register: (string, string, string) -> AuthResult) returns (call: Option<Credentials>)
      modifies this`error, this`navigatedTo
      ensures Validate(form).Some? ==>
        call == None && error == Validate(form).value && navigatedTo == old(navigatedTo)
      ensures Validate(form).None? ==>
        var result := register(form.fullName, form.email, form.password);
        && call == Some(Register(form.fullName, form.email, form.password))
        && (result.success ==> error == "" && navigatedTo == Some(DashboardPath))
        && (!result.success ==> error == result.message && navigatedTo == old(navigatedTo))
    {
      error := "";
      var problem := Validate(form);
      if problem.Some? {
        error := problem.value;
        return None;
      }
      call := Some(Register(form.fullName, form.email, form.password));
      var result := register(form.fullName, form.email, form.password);
      if result.success {
        navigatedTo := Some(DashboardPath);
      } else {
        error := result.message;
      }
    }
  }
}
