/** The sign-in form. */
module Login {
  import opened Wrappers
  import opened Users
  import opened Outcomes
  import App

  datatype Field = EmailField | PasswordField

  /** `formData`, the request body of `POST /auth/login`. */
  datatype Credentials = Credentials(email: string, password: string)

  /** The credentials with one field replaced. */
  function WithField(c: Credentials, f: Field, v: string): (r: Credentials)
    ensures f == EmailField ==> r.email == v && r.password == c.password
    ensures f == PasswordField ==> r.password == v && r.email == c.email
  {
    match f
    case EmailField => c.(email := v)
    case PasswordField => c.(password := v)
  }

  class LoginForm {
    var formData: Credentials

    constructor ()
      ensures formData == Credentials("", "")
    {
      formData := Credentials("", "");
    }

    /** `handleChange`: only the named field changes. */
    method HandleChange(f: Field, v: string)
      modifies this
      ensures formData == WithField(old(formData), f, v)
    {
      formData := WithField(formData, f, v);
    }

    /**
     * `handleSubmit`: sends the form; `reply` is what `authAPI.login` gives.
     * On success the session gets exactly `res.user` and `res.token` before the
     * router goes to "/"; on failure `login` is never called and the server's
     * message, or "Login failed", is shown.
     */
    method HandleSubmit(reply: Reply<AuthReply>) returns (request: Credentials, effects: seq<Effect>)
      ensures request == formData
      ensures reply.Ok? ==> effects == [CallLogin(reply.body.user, reply.body.token),
                                        Toast(Success, "Logged in successfully"), Navigate("/", None)]
      ensures reply.Failed? ==> effects == [Toast(Error, ServerMessageOr(reply.error, "Login failed"))]
      ensures reply.Failed? ==> forall e :: e in effects ==> !e.CallLogin? && !e.Navigate?
    {
      request := formData;
      match reply
      case Ok(res) =>
        effects := [CallLogin(res.user, res.token), Toast(Success, "Logged in successfully"), Navigate("/", None)];
      case Failed(err) =>
        effects := [Toast(Error, ServerMessageOr(err, "Login failed"))];
    }
  }

  /** After signing in, the landing page is public, so it is shown whoever the session now holds. */
  lemma SignedInLandsOnHome(u: Option<User>)
    ensures App.Render("/", App.Session(u, false)) == App.Show(App.HomePage)
  {
  }
}
