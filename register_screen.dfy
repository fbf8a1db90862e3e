/** The registration form of the mobile client: its ordered checks and the
    messages it shows for the server's answer. */
module RegisterScreen {
  import opened Common
  import Users

  const MsgAllFields: string := "All fields are required!"
  const MsgMismatch: string := "Passwords do not match!"
  const MsgTooShort: string := "Password must be at least 6 characters long."
  const MsgCreated: string := "Your account has been created successfully!"
  const MsgOffline: string := "Could not connect to the server. Please check your internet connection and try again."

  /** The checks of `handleRegister`, in order: every field filled, the
      confirmation equal to the password, then the length. `None` when the
      form passes. */
  function RegisterFormError(name: string, email: string, password: string, confirm: string): (e: Option<string>)
    ensures e.None? <==> name != "" && email != "" && password != "" && confirm != ""
                         && password == confirm && |password| >= Users.MinPasswordLength
    ensures (name == "" || email == "" || password == "" || confirm == "") ==> e == Some(MsgAllFields)
    ensures e == Some(MsgMismatch) <==>
      name != "" && email != "" && password != "" && confirm != "" && password != confirm
    ensures e == Some(MsgTooShort) <==>
      name != "" && email != "" && password != "" && password == confirm && |password| < Users.MinPasswordLength
  {
    if name == "" || email == "" || password == "" || confirm == "" then Some(MsgAllFields)
    else if password != confirm then Some(MsgMismatch)
    else if |password| < 6 then Some(MsgTooShort)
    else None
  }

  /** The screen and the change-password route share the minimum length, so an
      account created here holds a password the route would also accept as new. */
  lemma RegisteredPasswordLongEnough(name: string, email: string, password: string, confirm: string)
    requires RegisterFormError(name, email, password, confirm).None?
    ensures password != "" && !(|password| < Users.MinPasswordLength)
  {
  }

  /** The body `handleRegister` sends. */
  datatype Request = Request(name: string, email: string, password: string)

  /** The state of the registration screen. */
  class RegisterForm {
    var email: string
    var password: string
    var confirmPassword: string
    var name: string
    var error: string
    var loading: bool
    var successMessage: string

    constructor ()
      ensures email == password == confirmPassword == name == error == successMessage == ""
      ensures !loading
    {
      email, password, confirmPassword, name := "", "", "", "";
      error, loading, successMessage := "", false, "";
    }

    /** `handleRegister` up to the request: a failed check shows its error,
        clears the success message and sends nothing; a passing form clears
        both messages, sets `loading` and sends the three fields. */
    method Submit() returns (sent: Option<Request>)
      modifies this
      ensures email == old(email) && password == old(password)
      ensures confirmPassword == old(confirmPassword) && name == old(name)
      ensures successMessage == ""
      ensures RegisterFormError(old(name), old(email), old(password), old(confirmPassword)).Some? ==>
        && sent.None? && loading == old(loading)
        && Some(error) == RegisterFormError(old(name), old(email), old(password), old(confirmPassword))
      ensures RegisterFormError(old(name), old(email), old(password), old(confirmPassword)).None? ==>
        sent == Some(Request(old(name), old(email), old(password))) && loading && error == ""
    {
      var e := RegisterFormError(name, email, password, confirmPassword);
      if e.Some? {
        error := e.value;
        successMessage := "";
        return None;
      }
      loading := true;
      error := "";
      successMessage := "";
      sent := Some(Request(name, email, password));
    }

    /** The rest of `handleRegister` once its request has been answered with
        `answer`, whose message is the reply's `error` field. */
    method Finish(answer: Delivery)
      modifies this
      ensures !loading
      ensures email == old(email) && password == old(password)
      ensures confirmPassword == old(confirmPassword) && name == old(name)
      ensures (answer.Delivered? && answer.ok) ==> successMessage == MsgCreated && error == old(error)
      ensures (answer.Delivered? && !answer.ok) ==>
        error == (if answer.message != "" then answer.message else "Registration failed. Please try again.")
        && successMessage == old(successMessage)
      ensures !answer.Delivered? ==> error == MsgOffline && successMessage == old(successMessage)
    {
      match answer {
        case Delivered(ok, message) =>
          if ok {
            successMessage := MsgCreated;
          } else {
            error := if message != "" then message else "Registration failed. Please try again.";
          }
        case Garbled =>
          error := MsgOffline;
        case Unreachable(_) =>
          error := MsgOffline;
      }
      loading := false;
    }
  }
}
