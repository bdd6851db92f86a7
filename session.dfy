/**
 * The session slot: the one `localStorage` key `'user'` that the login and
 * register forms write, that every protected page reads when it mounts and
 * that every logout deletes.
 */
module Session {
  import opened Wrappers

  /** The JSON record kept under the key. Fields a writer leaves out are `None`. */
  datatype User = User(name: Option<string>, email: string, role: Option<string>, isLoggedIn: bool)

  /**
   * What `localStorage.getItem('user')` followed by `JSON.parse` yields:
   * no value (or the empty string), text that does not parse (or parses to
   * `null`, which throws on the first field access), or a record.
   */
  datatype Slot = Absent | Corrupt | Stored(user: User)

  /** A `toast.success(...)` or `toast.error(...)` notice. */
  datatype Toast = Success(message: string) | Error(message: string)

  /** A call of `navigate(route)`, with the toast shown just before it, if any. */
  datatype Navigation = Navigation(route: string, notice: Option<Toast>)

  /** The decision a page guard takes on mount: show the page for `user`, or leave. */
  datatype GuardOutcome = Render(user: User) | Redirect(nav: Navigation)

  const LoginRoute := "/login"
  const HomeRoute := "/"
  const DashboardRoute := "/dashboard"
  const PleaseLogin := "Please login to access the dashboard"
  const LoggedOut := "Logged out successfully"

  /**
   * The mount check of the student, coach and admin dashboards: a missing
   * slot sends to `/login` with `PleaseLogin`; a record that is not logged
   * in or whose role differs sends to `/login` with the page's `denied`
   * notice; an unreadable slot sends to `/login` without a notice.
   */
  function RoleGuard(slot: Slot, role: string, denied: string): (o: GuardOutcome)
    ensures o.Render? <==> slot.Stored? && slot.user.isLoggedIn && slot.user.role == Some(role)
    ensures o.Render? ==> o.user == slot.user
    ensures slot.Absent? ==> o == Redirect(Navigation(LoginRoute, Some(Error(PleaseLogin))))
    ensures slot.Corrupt? ==> o == Redirect(Navigation(LoginRoute, None))
    ensures slot.Stored? && !o.Render? ==> o == Redirect(Navigation(LoginRoute, Some(Error(denied))))
  {
    match slot
    case Absent => Redirect(Navigation(LoginRoute, Some(Error(PleaseLogin))))
    case Corrupt => Redirect(Navigation(LoginRoute, None))
    case Stored(u) =>
      if !u.isLoggedIn || u.role != Some(role) then Redirect(Navigation(LoginRoute, Some(Error(denied))))
      else Render(u)
  }

  /**
   * Browser storage, reduced to the one key the application uses.
   * `writable` is false for a store whose `setItem` throws (storage disabled
   * or its quota exhausted).
   */
  class SessionStore {
    var slot: Slot
    const writable: bool

    constructor (initial: Slot, writable0: bool)
      ensures slot == initial && writable == writable0
    {
      slot := initial;
      writable := writable0;
    }

    /**
     * `localStorage.setItem('user', JSON.stringify(u))`: on a writable store
     * the slot holds exactly `u`; otherwise the call throws (`ok` is false)
     * and the slot keeps what it held.
     */
    method Write(u: User) returns (ok: bool)
      modifies this
      ensures ok == writable
      ensures ok ==> slot == Stored(u)
      ensures !ok ==> slot == old(slot)
    {
      ok := writable;
      if ok {
        slot := Stored(u);
      }
    }

    /** `localStorage.removeItem('user')`; removing a missing key is harmless. */
    method Remove()
      modifies this
      ensures slot == Absent
    {
      slot := Absent;
    }
  }

  /**
   * The `handleLogout` every dashboard has: delete the key, say so, go home.
   * The new state does not depend on the old one, so a second logout changes
   * nothing further.
   */
  method Logout(store: SessionStore) returns (nav: Navigation)
    modifies store
    ensures store.slot == Absent
    ensures nav == Navigation(HomeRoute, Some(Success(LoggedOut)))
  {
    store.Remove();
    nav := Navigation(HomeRoute, Some(Success(LoggedOut)));
  }
}
