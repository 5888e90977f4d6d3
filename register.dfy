/** The sign-up form. */
module Register {
  import opened Wrappers
  import opened Outcomes
  import App

  datatype Field = UsernameField | EmailField | PasswordField

  /** `formData`, the request body of `POST /auth/register`. */
  datatype NewAccount = NewAccount(username: string, email: string, password: string)

  /** The new account with one field replaced. */
  function WithField(a: NewAccount, f: Field, v: string): (r: NewAccount)
    ensures f == UsernameField ==> r == NewAccount(v, a.email, a.password)
    ensures f == EmailField ==> r == NewAccount(a.username, v, a.password)
    ensures f == PasswordField ==> r == NewAccount(a.username, a.email, v)
  {
    match f
    case UsernameField => a.(username := v)
    case EmailField => a.(email := v)
    case PasswordField => a.(password := v)
  }

  class RegisterForm {
    var formData: NewAccount

    constructor ()
      ensures formData == NewAccount("", "", "")
    {
      formData := NewAccount("", "", "");
    }

    /** `handleChange`: only the named field changes. */
    method HandleChange(f: Field, v: string)
      modifies this
      ensures formData == WithField(old(formData), f, v)
    {
      formData := WithField(formData, f, v);
    }

    /**
     * `handleSubmit`: sends the form; `reply` is what `authAPI.register` gives.
     * On success the session gets `res.user` and `res.token` before the router
     * goes to "/setup"; on failure `login` is never called and the server's
     * message, or "Registration failed", is shown.
     */
    method HandleSubmit(reply: Reply<AuthReply>) returns (request: NewAccount, effects: seq<Effect>)
      ensures request == formData
      ensures reply.Ok? ==> effects == [CallLogin(reply.body.user, reply.body.token),
                                        Toast(Success, "Account created!"), Navigate("/setup", None)]
      ensures reply.Failed? ==> effects == [Toast(Error, ServerMessageOr(reply.error, "Registration failed"))]
      ensures reply.Failed? ==> forall e :: e in effects ==> !e.CallLogin? && !e.Navigate?
    {
      request := formData;
      match reply
      case Ok(res) =>
        effects := [CallLogin(res.user, res.token), Toast(Success, "Account created!"), Navigate("/setup", None)];
      case Failed(err) =>
        effects := [Toast(Error, ServerMessageOr(err, "Registration failed"))];
    }
  }

  /**
   * Once the session holds the user the server returned, the page registration
   * goes to is shown; if the reply carried no user, the private guard sends the
   * browser on to "/login".
   */
  lemma {:induction false} RegisteredUserReachesSetup(res: AuthReply)
    ensures res.user.Some? ==> App.Render("/setup", App.Session(res.user, false)) == App.Show(App.ProfileSetupPage)
    ensures res.user.None? ==> App.Render("/setup", App.Session(res.user, false)) == App.Go("/login")
  {
  }
}
