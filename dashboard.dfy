/** The generic `/dashboard` page that both auth forms navigate to. */
module GenericDashboard {
  import opened Wrappers
  import opened Session

  /**
   * The mount check has no role test: every readable, logged-in record gets
   * the page whatever its role. A missing slot gives the "please login"
   * notice; a record that is not logged in and an unreadable slot send to
   * `/login` silently.
   */
  function Guard(slot: Slot): (o: GuardOutcome)
    ensures o.Render? <==> slot.Stored? && slot.user.isLoggedIn
    ensures o.Render? ==> o.user == slot.user
    ensures o.Redirect? ==> o.nav.route == LoginRoute
    ensures slot.Absent? ==> o.nav.notice == Some(Error(PleaseLogin))
    ensures !slot.Absent? && o.Redirect? ==> o.nav.notice == None
  {
    match slot
    case Absent => Redirect(Navigation(LoginRoute, Some(Error(PleaseLogin))))
    case Corrupt => Redirect(Navigation(LoginRoute, None))
    case Stored(u) => if !u.isLoggedIn then Redirect(Navigation(LoginRoute, None)) else Render(u)
  }

  const DefaultName := "Chess Player"

  /** `user.name || 'Chess Player'`: the name when it is present and non-empty. */
  function WelcomeName(u: User): (r: string)
    ensures u.name.Some? && u.name.value != "" ==> r == u.name.value
    ensures u.name.None? || u.name.value == "" ==> r == DefaultName
    ensures r != ""
  {
    if u.name.Some? && u.name.value != "" then u.name.value else DefaultName
  }

  /** The `Dashboard` component's state. */
  class Dashboard {
    var user: Option<User>

    constructor ()
      ensures user == None
    {
      user := None;
    }

    /** Until a user has been accepted only the spinner is shown. */
    predicate ShowsBody()
      reads this
    {
      user.Some?
    }

    /** The mount effect: accept any logged-in record, or navigate away leaving `user` alone. */
    method Mount(store: SessionStore) returns (nav: Option<Navigation>)
      modifies this
      ensures Guard(store.slot).Render? ==> user == Some(Guard(store.slot).user) && nav == None
      ensures Guard(store.slot).Redirect? ==> user == old(user) && nav == Some(Guard(store.slot).nav)
      ensures old(user) == None ==> (ShowsBody() <==> Guard(store.slot).Render?)
    {
      var o := Guard(store.slot);
      if o.Render? {
        user := Some(o.user);
        nav := None;
      } else {
        nav := Some(o.nav);
      }
    }

    method HandleLogout(store: SessionStore) returns (nav: Navigation)
      modifies store
      ensures store.slot == Absent
      ensures nav == Navigation(HomeRoute, Some(Success(LoggedOut)))
    {
      nav := Logout(store);
    }
  }
}
