/**
 * How the pages meet through the session slot: the two forms are the only
 * writers, and neither stores a role, so what they write opens the generic
 * dashboard and no role dashboard.
 */
module SessionScope {
  import opened Wrappers
  import opened Session
  import Login
  import Register
  import GenericDashboard
  import StudentPage
  import CoachPage
  import AdminPage

  /** A record without a role is refused by every role guard, with that page's own notice. */
  lemma RolelessRefusedEverywhere(u: User)
    requires u.role == None
    ensures StudentPage.Guard(Stored(u)) == Redirect(Navigation(LoginRoute, Some(Error(StudentPage.StudentDenied))))
    ensures CoachPage.Guard(Stored(u)) == Redirect(Navigation(LoginRoute, Some(Error(CoachPage.CoachDenied))))
    ensures AdminPage.Guard(Stored(u)) == Redirect(Navigation(LoginRoute, Some(Error(AdminPage.AdminDenied))))
  {
  }

  /**
   * The session the login form writes opens `/dashboard` for that very
   * record, greeted as "Chess Player", and is refused by the student, coach
   * and admin dashboards.
   */
  lemma LoginSessionScope(email: string)
    ensures GenericDashboard.Guard(Stored(Login.SessionAfterLogin(email))) == Render(Login.SessionAfterLogin(email))
    ensures GenericDashboard.WelcomeName(Login.SessionAfterLogin(email)) == GenericDashboard.DefaultName
    ensures StudentPage.Guard(Stored(Login.SessionAfterLogin(email))).Redirect?
    ensures CoachPage.Guard(Stored(Login.SessionAfterLogin(email))).Redirect?
    ensures AdminPage.Guard(Stored(Login.SessionAfterLogin(email))).Redirect?
  {
    RolelessRefusedEverywhere(Login.SessionAfterLogin(email));
  }

  /**
   * The session the register form writes opens `/dashboard`, greeted by the
   * registered name when it is non-empty, and is refused by every role page.
   */
  lemma RegisterSessionScope(d: Register.RegisterData)
    ensures GenericDashboard.Guard(Stored(Register.SessionAfterRegister(d))) == Render(Register.SessionAfterRegister(d))
    ensures d.name != "" ==> GenericDashboard.WelcomeName(Register.SessionAfterRegister(d)) == d.name
    ensures StudentPage.Guard(Stored(Register.SessionAfterRegister(d))).Redirect?
    ensures CoachPage.Guard(Stored(Register.SessionAfterRegister(d))).Redirect?
    ensures AdminPage.Guard(Stored(Register.SessionAfterRegister(d))).Redirect?
  {
    RolelessRefusedEverywhere(Register.SessionAfterRegister(d));
  }

  /** After any logout the slot is absent, and every guard then sends to `/login` asking to log in. */
  lemma AfterLogoutEveryGuardAsksToLogin()
    ensures GenericDashboard.Guard(Absent) == Redirect(Navigation(LoginRoute, Some(Error(PleaseLogin))))
    ensures StudentPage.Guard(Absent) == Redirect(Navigation(LoginRoute, Some(Error(PleaseLogin))))
    ensures CoachPage.Guard(Absent) == Redirect(Navigation(LoginRoute, Some(Error(PleaseLogin))))
    ensures AdminPage.Guard(Absent) == Redirect(Navigation(LoginRoute, Some(Error(PleaseLogin))))
  {
  }

  /**
   * A full visit: submit the login form, then mount the generic dashboard and
   * the coach dashboard on the same storage. With both fields filled and a
   * writable store the first shows its body and the second leaves for
   * `/login` with the coach notice.
   */
  method LoginThenVisit(form: Login.LoginForm, store: SessionStore)
    returns (generic: GenericDashboard.Dashboard, coachOutcome: GuardOutcome)
    modifies form, store
    ensures old(form.formData).email != "" && old(form.formData).password != "" && store.writable ==>
      generic.ShowsBody() &&
      coachOutcome == Redirect(Navigation(LoginRoute, Some(Error(CoachPage.CoachDenied))))
  {
    var toast, route, loading := form.HandleSubmit(store);
    generic := new GenericDashboard.Dashboard();
    var nav := generic.Mount(store);
    coachOutcome := CoachPage.Guard(store.slot);
    if old(form.formData).email != "" && old(form.formData).password != "" {
      RolelessRefusedEverywhere(Login.SessionAfterLogin(old(form.formData).email));
    }
  }
}
