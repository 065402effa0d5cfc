/**
 * The login page: a non-empty check on the two fields, a submit flow that
 * sets `loading` and, when its 1200 ms timer fires, clears it, shows a
 * toast and navigates to the dashboard, and a password-visibility toggle.
 * No credential is checked against anything.
 */
module Login {
  import opened Effects

  const MissingCredentialsToast: Toast := Toast("Error", "Please fill all fields.", Destructive)
  const LoginToast: Toast := Toast("Login Successful", "Welcome back to DigiVerify.", Plain)

  /** Delay of the simulated sign-in. */
  const SignInDelayMs: nat := 1200

  /** The check of `handleSubmit`: any pair of non-empty strings is accepted. */
  function Validate(email: string, password: string): (v: Verdict)
    ensures v == Accept <==> email != "" && password != ""
    ensures v != Accept ==> v == Reject(MissingCredentialsToast)
  {
    if email == "" || password == "" then Reject(MissingCredentialsToast) else Accept
  }

  /** The `type` attribute of the password input. */
  function PasswordInputType(showPassword: bool): (t: string)
    ensures t == "text" <==> showPassword
    ensures t == "password" <==> !showPassword
  {
    if showPassword then "text" else "password"
  }

  class LoginPage {
    var email: string
    var password: string
    var showPassword: bool
    var loading: bool
    var pendingTimers: nat
    var log: seq<Effect>

    constructor ()
      ensures email == "" && password == "" && !showPassword && !loading
      ensures pendingTimers == 0 && log == []
      ensures PasswordInputType(showPassword) == "password"
    {
      email := "";
      password := "";
      showPassword := false;
      loading := false;
      pendingTimers := 0;
      log := [];
    }

    /** The email input's change handler. */
    method SetEmail(value: string)
      modifies this
      ensures email == value && password == old(password) && showPassword == old(showPassword)
      ensures loading == old(loading) && pendingTimers == old(pendingTimers) && log == old(log)
    {
      email := value;
    }

    /** The password input's change handler. */
    method SetPassword(value: string)
      modifies this
      ensures password == value && email == old(email) && showPassword == old(showPassword)
      ensures loading == old(loading) && pendingTimers == old(pendingTimers) && log == old(log)
    {
      password := value;
    }

    /** The eye button: show the password as plain text, or hide it again. */
    method TogglePassword()
      modifies this
      ensures showPassword == !old(showPassword)
      ensures PasswordInputType(showPassword) != PasswordInputType(old(showPassword))
      ensures email == old(email) && password == old(password)
      ensures loading == old(loading) && pendingTimers == old(pendingTimers) && log == old(log)
    {
      showPassword := !showPassword;
    }

    /**
     * `handleSubmit`: with a field empty, show the error toast and change
     * nothing else; otherwise set `loading` and start the timer.
     */
    method HandleSubmit()
      modifies this
      ensures email == old(email) && password == old(password) && showPassword == old(showPassword)
      ensures Validate(email, password).Reject? ==>
                log == old(log) + [ShowToast(MissingCredentialsToast)]
                && loading == old(loading) && pendingTimers == old(pendingTimers)
      ensures Validate(email, password) == Accept ==>
                loading && log == old(log) && pendingTimers == old(pendingTimers) + 1
    {
      if email == "" || password == "" {
        log := log + [ShowToast(MissingCredentialsToast)];
        return;
      }
      loading := true;
      pendingTimers := pendingTimers + 1;
    }

    /** The sign-in timer fires: clear `loading`, show the toast, then navigate. */
    method TimerFired()
      requires pendingTimers > 0
      modifies this
      ensures !loading && pendingTimers == old(pendingTimers) - 1
      ensures log == old(log) + [ShowToast(LoginToast), Navigate(DashboardPath)]
      ensures email == old(email) && password == old(password) && showPassword == old(showPassword)
    {
      pendingTimers := pendingTimers - 1;
      loading := false;
      log := log + [ShowToast(LoginToast)];
      log := log + [Navigate(DashboardPath)];
    }
  }

  /** Pressing the eye button twice leaves the page as it was. */
  method ToggleTwice(page: LoginPage)
    modifies page
    ensures page.showPassword == old(page.showPassword)
    ensures page.email == old(page.email) && page.password == old(page.password)
    ensures page.loading == old(page.loading) && page.log == old(page.log)
    ensures page.pendingTimers == old(page.pendingTimers)
  {
    page.TogglePassword();
    page.TogglePassword();
  }

  /**
   * A complete sign-in with both fields filled: submitting sets `loading`,
   * and the timer then clears it and leaves exactly the success toast and
   * the navigation to the dashboard, in that order.
   */
  method SubmitAndWait(page: LoginPage)
    requires page.email != "" && page.password != ""
    modifies page
    ensures !page.loading && page.pendingTimers == old(page.pendingTimers)
    ensures page.log == old(page.log) + [ShowToast(LoginToast), Navigate(DashboardPath)]
  {
    page.HandleSubmit();
    page.TimerFired();
  }
}
