/** The student dashboard: its mount guard, logout and the two summary cards it derives. */
module StudentPage {
  import opened Wrappers
  import opened Session
  import opened Collections

  const StudentDenied := "Access denied. Please login as a student."

  /** The mount check: only a logged-in record whose role is `"student"` gets the page. */
  function Guard(slot: Slot): (o: GuardOutcome)
    ensures o.Render? <==> slot.Stored? && slot.user.isLoggedIn && slot.user.role == Some("student")
    ensures o.Render? ==> o.user == slot.user
    ensures o.Redirect? ==> o.nav.route == LoginRoute
    ensures slot.Absent? ==> o.nav.notice == Some(Error(PleaseLogin))
    ensures slot.Corrupt? ==> o.nav.notice == None
    ensures slot.Stored? && o.Redirect? ==> o.nav.notice == Some(Error(StudentDenied))
  {
    RoleGuard(slot, "student", StudentDenied)
  }

  datatype UpcomingClass = UpcomingClass(id: int, coach: string, date: string, time: string,
                                         kind: string, topic: string)

  datatype StudentAssignment = StudentAssignment(id: int, title: string, deadline: string, completed: bool)

  /** The "Next Class" card: the first upcoming class, or "No upcoming classes". */
  datatype NextClassCard = NextClass(session: UpcomingClass) | NoUpcomingClasses

  function NextClassOf(upcoming: seq<UpcomingClass>): (card: NextClassCard)
    ensures card.NextClass? <==> |upcoming| > 0
    ensures card.NextClass? ==> card.session == upcoming[0]
  {
    if |upcoming| > 0 then NextClass(upcoming[0]) else NoUpcomingClasses
  }

  /** The "Pending Assignments" card shows the length of the list. */
  function PendingAssignmentsCount(assignments: seq<StudentAssignment>): nat
  {
    |assignments|
  }

  predicate IsIncomplete(a: StudentAssignment)
  {
    !a.completed
  }

  /**
   * The card counts completed assignments too: its number is the count of
   * incomplete ones plus the count of completed ones, so it equals the
   * number of incomplete ones only when none is completed.
   */
  lemma {:induction false} PendingCountIgnoresCompletion(assignments: seq<StudentAssignment>)
    ensures PendingAssignmentsCount(assignments)
         == |Filter(assignments, IsIncomplete)| + |Filter(assignments, (a: StudentAssignment) => a.completed)|
    ensures PendingAssignmentsCount(assignments) == |Filter(assignments, IsIncomplete)|
        <==> forall i :: 0 <= i < |assignments| ==> !assignments[i].completed
  {
    if assignments != [] {
      PendingCountIgnoresCompletion(assignments[1..]);
      var done := Filter(assignments, (a: StudentAssignment) => a.completed);
      if forall i :: 0 <= i < |assignments| ==> !assignments[i].completed {
        assert forall i :: 1 <= i < |assignments| ==> assignments[1..][i - 1] == assignments[i];
      } else {
        var k :| 0 <= k < |assignments| && assignments[k].completed;
        FilterMembership(assignments, (a: StudentAssignment) => a.completed, assignments[k]);
        assert |done| > 0;
      }
    }
  }

  /** The `StudentDashboard` component's state. */
  class StudentDashboard {
    var user: Option<User>

    constructor ()
      ensures user == None
    {
      user := None;
    }

    /** Until a user has been accepted only the spinner is shown. */
    predicate ShowsBody()
      reads this
    {
      user.Some?
    }

    /** The mount effect: accept the stored student, or navigate away leaving `user` alone. */
    method Mount(store: SessionStore) returns (nav: Option<Navigation>)
      modifies this
      ensures Guard(store.slot).Render? ==> user == Some(Guard(store.slot).user) && nav == None
      ensures Guard(store.slot).Redirect? ==> user == old(user) && nav == Some(Guard(store.slot).nav)
      ensures old(user) == None ==> (ShowsBody() <==> Guard(store.slot).Render?)
    {
      var o := Guard(store.slot);
      if o.Render? {
        user := Some(o.user);
        nav := None;
      } else {
        nav := Some(o.nav);
      }
    }

    method HandleLogout(store: SessionStore) returns (nav: Navigation)
      modifies store
      ensures store.slot == Absent
      ensures nav == Navigation(HomeRoute, Some(Success(LoggedOut)))
    {
      nav := Logout(store);
    }
  }
}
