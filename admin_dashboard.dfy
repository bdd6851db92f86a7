/** The admin dashboard: mount guard, logout and the search over its three tables. */
module AdminPage {
  import opened Wrappers
  import opened Session
  import opened Collections
  import opened Text

  const AdminDenied := "Access denied. Please login as an administrator."

  /** The mount check: only a logged-in record whose role is `"admin"` gets the page. */
  function Guard(slot: Slot): (o: GuardOutcome)
    ensures o.Render? <==> slot.Stored? && slot.user.isLoggedIn && slot.user.role == Some("admin")
    ensures o.Render? ==> o.user == slot.user
    ensures o.Redirect? ==> o.nav.route == LoginRoute
    ensures slot.Absent? ==> o.nav.notice == Some(Error(PleaseLogin))
    ensures slot.Corrupt? ==> o.nav.notice == None
    ensures slot.Stored? && o.Redirect? ==> o.nav.notice == Some(Error(AdminDenied))
  {
    RoleGuard(slot, "admin", AdminDenied)
  }

  /** A row of the students or the coaches table (only coaches have a specialization). */
  datatype Account = Account(id: int, name: string, email: string, role: string, status: string,
                             joinDate: string, specialization: Option<string>)

  /** A row of the classes table. */
  datatype ClassRow = ClassRow(id: int, name: string, coach: string, students: int,
                               schedule: string, status: string)

  /** `field.toLowerCase().includes(term.toLowerCase())`. */
  predicate Mentions(field: string, term: string)
  {
    Includes(Lower(field), Lower(term))
  }

  predicate AccountMatches(a: Account, term: string)
  {
    Mentions(a.name, term) || Mentions(a.email, term)
  }

  predicate ClassMatches(c: ClassRow, term: string)
  {
    Mentions(c.name, term) || Mentions(c.coach, term)
  }

  /** `filteredStudents` and `filteredCoaches`. */
  function FilterAccounts(rows: seq<Account>, term: string): seq<Account>
  {
    Filter(rows, (a: Account) => AccountMatches(a, term))
  }

  /** `filteredClasses`. */
  function FilterClasses(rows: seq<ClassRow>, term: string): seq<ClassRow>
  {
    Filter(rows, (c: ClassRow) => ClassMatches(c, term))
  }

  /** A student or coach is listed iff the lower-cased term occurs in its lower-cased name or email. */
  lemma AccountKept(rows: seq<Account>, term: string, a: Account)
    ensures a in FilterAccounts(rows, term)
        <==> a in rows && (Includes(Lower(a.name), Lower(term)) || Includes(Lower(a.email), Lower(term)))
  {
    FilterMembership(rows, (a: Account) => AccountMatches(a, term), a);
  }

  /**
   * A class is listed iff the lower-cased term occurs in its lower-cased name
   * or coach; its schedule and status play no part.
   */
  lemma ClassKept(rows: seq<ClassRow>, term: string, c: ClassRow)
    ensures c in FilterClasses(rows, term)
        <==> c in rows && (Includes(Lower(c.name), Lower(term)) || Includes(Lower(c.coach), Lower(term)))
    ensures forall schedule: string, status: string ::
      ClassMatches(c.(schedule := schedule, status := status), term) == ClassMatches(c, term)
  {
    FilterMembership(rows, (c: ClassRow) => ClassMatches(c, term), c);
  }

  /** All three tables show an order-preserving subsequence of their rows. */
  lemma FiltersAreSubsequences(accounts: seq<Account>, classes: seq<ClassRow>, term: string)
    ensures IsSubsequence(FilterAccounts(accounts, term), accounts)
    ensures IsSubsequence(FilterClasses(classes, term), classes)
    ensures |FilterAccounts(accounts, term)| <= |accounts| && |FilterClasses(classes, term)| <= |classes|
  {
    FilterIsSubsequence(accounts, (a: Account) => AccountMatches(a, term));
    FilterIsSubsequence(classes, (c: ClassRow) => ClassMatches(c, term));
    SubsequenceLength(FilterAccounts(accounts, term), accounts);
    SubsequenceLength(FilterClasses(classes, term), classes);
  }

  /** With an empty search box every row is listed. */
  lemma EmptyTermKeepsAll(accounts: seq<Account>, classes: seq<ClassRow>)
    ensures FilterAccounts(accounts, "") == accounts
    ensures FilterClasses(classes, "") == classes
  {
    forall i | 0 <= i < |accounts| ensures AccountMatches(accounts[i], "") {
      IncludesEmpty(Lower(accounts[i].name));
    }
    forall i | 0 <= i < |classes| ensures ClassMatches(classes[i], "") {
      IncludesEmpty(Lower(classes[i].name));
    }
    FilterKeepsAll(accounts, (a: Account) => AccountMatches(a, ""));
    FilterKeepsAll(classes, (c: ClassRow) => ClassMatches(c, ""));
  }

  /** A term containing another matches only where the other does. */
  lemma MentionsNarrows(field: string, older: string, newer: string)
    requires Includes(Lower(newer), Lower(older))
    ensures Mentions(field, newer) ==> Mentions(field, older)
  {
    if Mentions(field, newer) {
      IncludesTransitive(Lower(field), Lower(newer), Lower(older));
    }
  }

  /**
   * Typing more never adds rows: if the old term (lower-cased) occurs in the
   * new one, each new table is a subsequence of the old one.
   */
  lemma NarrowingSearch(accounts: seq<Account>, classes: seq<ClassRow>, older: string, newer: string)
    requires Includes(Lower(newer), Lower(older))
    ensures IsSubsequence(FilterAccounts(accounts, newer), FilterAccounts(accounts, older))
    ensures IsSubsequence(FilterClasses(classes, newer), FilterClasses(classes, older))
    ensures forall a :: a in FilterAccounts(accounts, newer) ==> a in FilterAccounts(accounts, older)
    ensures forall c :: c in FilterClasses(classes, newer) ==> c in FilterClasses(classes, older)
  {
    forall i | 0 <= i < |accounts| && AccountMatches(accounts[i], newer)
      ensures AccountMatches(accounts[i], older)
    {
      MentionsNarrows(accounts[i].name, older, newer);
      MentionsNarrows(accounts[i].email, older, newer);
    }
    forall i | 0 <= i < |classes| && ClassMatches(classes[i], newer)
      ensures ClassMatches(classes[i], older)
    {
      MentionsNarrows(classes[i].name, older, newer);
      MentionsNarrows(classes[i].coach, older, newer);
    }
    FilterStronger(accounts, (a: Account) => AccountMatches(a, older), (a: Account) => AccountMatches(a, newer));
    FilterStronger(classes, (c: ClassRow) => ClassMatches(c, older), (c: ClassRow) => ClassMatches(c, newer));
    forall a | a in FilterAccounts(accounts, newer) ensures a in FilterAccounts(accounts, older) {
      SubsequenceMembers(FilterAccounts(accounts, newer), FilterAccounts(accounts, older), a);
    }
    forall c | c in FilterClasses(classes, newer) ensures c in FilterClasses(classes, older) {
      SubsequenceMembers(FilterClasses(classes, newer), FilterClasses(classes, older), c);
    }
  }

  /** The `AdminDashboard` component: fixed tables, the signed-in user and the search box. */
  class AdminDashboard {
    const students: seq<Account>
    const coaches: seq<Account>
    const classes: seq<ClassRow>
    var user: Option<User>
    var searchTerm: string

    constructor (students0: seq<Account>, coaches0: seq<Account>, classes0: seq<ClassRow>)
      ensures students == students0 && coaches == coaches0 && classes == classes0
      ensures user == None && searchTerm == ""
    {
      students, coaches, classes := students0, coaches0, classes0;
      user := None;
      searchTerm := "";
    }

    /** Until a user has been accepted only the spinner is shown. */
    predicate ShowsBody()
      reads this
    {
      user.Some?
    }

    function FilteredStudents(): seq<Account>
      reads this
    {
      FilterAccounts(students, searchTerm)
    }

    function FilteredCoaches(): seq<Account>
      reads this
    {
      FilterAccounts(coaches, searchTerm)
    }

    function FilteredClasses(): seq<ClassRow>
      reads this
    {
      FilterClasses(classes, searchTerm)
    }

    /**
     * The three summary cards. They read only the constant tables, never
     * `searchTerm`, so no search can change them.
     */
    function Totals(): (nat, nat, nat)
    {
      (|students|, |coaches|, |classes|)
    }

    /** The mount effect: accept the stored administrator, or navigate away leaving `user` alone. */
    method Mount(store: SessionStore) returns (nav: Option<Navigation>)
      modifies this`user
      ensures Guard(store.slot).Render? ==> user == Some(Guard(store.slot).user) && nav == None
      ensures Guard(store.slot).Redirect? ==> user == old(user) && nav == Some(Guard(store.slot).nav)
      ensures old(user) == None ==> (ShowsBody() <==> Guard(store.slot).Render?)
    {
      var o := Guard(store.slot);
      if o.Render? {
        user := Some(o.user);
        nav := None;
      } else {
        nav := Some(o.nav);
      }
    }

    method HandleLogout(store: SessionStore) returns (nav: Navigation)
      modifies store
      ensures store.slot == Absent
      ensures nav == Navigation(HomeRoute, Some(Success(LoggedOut)))
    {
      nav := Logout(store);
    }

    /** The search box's `onChange`. */
    method SetSearchTerm(term: string)
      modifies this`searchTerm
      ensures searchTerm == term
      ensures Includes(Lower(term), Lower(old(searchTerm))) ==>
        (forall a :: a in FilteredStudents() ==> a in old(FilteredStudents())) &&
        (forall a :: a in FilteredCoaches() ==> a in old(FilteredCoaches())) &&
        (forall c :: c in FilteredClasses() ==> c in old(FilteredClasses()))
    {
      if Includes(Lower(term), Lower(searchTerm)) {
        NarrowingSearch(students, classes, searchTerm, term);
        NarrowingSearch(coaches, classes, searchTerm, term);
      }
      searchTerm := term;
    }

    /**
     * The summary cards count the unfiltered tables: whatever the search
     * term, every filtered table fits within its card's count, and the empty
     * term shows exactly that many rows.
     */
    lemma TotalsBoundResults(term: string)
      ensures |FilterAccounts(students, term)| <= Totals().0
      ensures |FilterAccounts(coaches, term)| <= Totals().1
      ensures |FilterClasses(classes, term)| <= Totals().2
      ensures Totals() == (|FilterAccounts(students, "")|, |FilterAccounts(coaches, "")|, |FilterClasses(classes, "")|)
    {
      FiltersAreSubsequences(students, classes, term);
      FiltersAreSubsequences(coaches, classes, term);
      EmptyTermKeepsAll(students, classes);
      EmptyTermKeepsAll(coaches, classes);
    }
  }
}
