/** What the authentication context's `login` and `register` hand back to
    the two forms, and what the forms share. */
module AuthResults {

  /** The `{success, message}` object the context resolves to. */
  datatype AuthResult = AuthResult(success: bool, message: string)

  /** The three strings `login` or `register` is called with. */
  datatype Credentials = Login(email: string, password: string) | Register(fullName: string, email: string, password: string)

  const DashboardPath: string := "/dashboard"
  const FillInAllFields: string := "Please fill in all fields"
}
