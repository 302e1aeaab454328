/**
 * The sign-up page (src/pages/RegisterPage.js): the client-side checks on
 * the two password fields and the submit handler that signs up through
 * the session provider.
 */
module RegisterPage {
  import opened Text
  import opened ClientTypes
  import AuthContext
  import AuthRoutes

  const MismatchMsg := "Passwords do not match."
  const TooShortMsg := "Password must be at least 6 characters."
  const SignupFailedMsg := "Failed to create an account."
  const MinLength := 6

  /** The checks `handleSubmit` makes before signing up, with the page's messages. */
  function RegisterFormError(password: string, confirmPassword: string): Option<string> {
    PasswordFormError(password, confirmPassword, MinLength, MismatchMsg, TooShortMsg)
  }

  /**
   * A form the page submits passes the server's own input checks once
   * name and email are filled in: the page's length rule is the server's.
   */
  lemma AcceptedFormPassesServerChecks(name: string, email: string, password: string, confirmPassword: string)
    requires RegisterFormError(password, confirmPassword).None?
    requires name != "" && email != ""
    ensures AuthRoutes.RegisterInputError(Some(name), Some(email), Some(password)).None?
  {
  }

  /** A password the page rejects as too short, the server rejects too. */
  lemma ShortPasswordRejectedByBoth(name: string, email: string, password: string)
    requires |password| < MinLength
    ensures RegisterFormError(password, password) == Some(TooShortMsg)
    ensures AuthRoutes.RegisterInputError(Some(name), Some(email), Some(password)).Some?
  {
  }

  class RegisterForm {
    var error: string
    var formLoading: bool

    constructor ()
      ensures error == "" && !formLoading
    {
      error := "";
      formLoading := false;
    }

    /**
     * `handleSubmit`: a failed check sets its message and never calls
     * `signup`; otherwise `signup` runs and a rejection's message, the
     * server's first, becomes the error. Once `signup` has run,
     * `formLoading` is false.
     */
    method HandleSubmit(auth: AuthContext.AuthProvider, name: string, email: string, password: string,
                        confirmPassword: string, reply: Api<AuthReply>)
      requires AuthContext.Mirrors(auth.storage, auth.token)
      modifies this, auth
      ensures AuthContext.Mirrors(auth.storage, auth.token)
      ensures RegisterFormError(password, confirmPassword).Some? ==>
        && formLoading == old(formLoading)
        && error == RegisterFormError(password, confirmPassword).value
        && auth.requests == old(auth.requests) && auth.storage == old(auth.storage)
        && auth.token == old(auth.token) && auth.currentUser == old(auth.currentUser)
      ensures RegisterFormError(password, confirmPassword).None? ==>
        !formLoading && auth.requests == old(auth.requests) + [RegisterUser(name, email, password)]
      ensures RegisterFormError(password, confirmPassword).None? && reply.Ok? ==>
        error == "" && auth.currentUser == Some(reply.data.user) && auth.token == Some(reply.data.token)
      ensures RegisterFormError(password, confirmPassword).None? && reply.Fail? ==>
        error == Describe(reply.err, SignupFailedMsg) && auth.currentUser == old(auth.currentUser) && auth.token == old(auth.token)
    {
      error := "";
      var check := RegisterFormError(password, confirmPassword);
      if check.Some? {
        error := check.value;
        return;
      }
      formLoading := true;
      var outcome := auth.Signup(name, email, password, reply);
      match outcome {
        case Returned(_) =>
        case Threw(err) =>
          error := Describe(err, SignupFailedMsg);
      }
      formLoading := false;
    }
  }
}
