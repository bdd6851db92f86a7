/**
 * The coach dashboard: its mount guard, and the handlers that update the
 * in-memory assignments, demo requests, conversations and message threads.
 */
module CoachPage {
  import opened Wrappers
  import opened Session
  import opened Collections
  import opened Text

  const CoachDenied := "Access denied. Please login as a coach."

  /** The mount check: only a logged-in record whose role is `"coach"` gets the page. */
  function Guard(slot: Slot): (o: GuardOutcome)
    ensures o.Render? <==> slot.Stored? && slot.user.isLoggedIn && slot.user.role == Some("coach")
    ensures o.Render? ==> o.user == slot.user
    ensures o.Redirect? ==> o.nav.route == LoginRoute
    ensures slot.Absent? ==> o.nav.notice == Some(Error(PleaseLogin))
    ensures slot.Corrupt? ==> o.nav.notice == None
    ensures slot.Stored? && o.Redirect? ==> o.nav.notice == Some(Error(CoachDenied))
  {
    RoleGuard(slot, "coach", CoachDenied)
  }

  // ---------------------------------------------------------------- records

  /** An assignment; some mock rows carry no `title`, so it is optional. */
  datatype Assignment = Assignment(id: int, title: Option<string>, student: string, deadline: string,
                                   submitted: bool, graded: bool)

  datatype Demo = Demo(id: int, name: string, email: string, time: string, status: string)

  datatype Conversation = Conversation(id: int, name: string, role: string, unread: int,
                                       lastMessage: string, time: string)

  datatype Message = Message(id: int, sender: string, text: string, time: string, isMine: bool)

  /** The "Create Assignment" dialog's form. */
  datatype AssignmentDraft = AssignmentDraft(title: string, description: string, deadline: string, batch: string) {

    function Get(f: AssignmentField): string
    {
      match f
      case Title => title
      case Description => description
      case Deadline => deadline
      case Batch => batch
    }

    /** `{...newAssignmentData, [field]: value}`: the named field becomes `v`, nothing else changes. */
    function With(f: AssignmentField, v: string): (r: AssignmentDraft)
      ensures r.Get(f) == v
      ensures forall g :: g != f ==> r.Get(g) == Get(g)
    {
      match f
      case Title => this.(title := v)
      case Description => this.(description := v)
      case Deadline => this.(deadline := v)
      case Batch => this.(batch := v)
    }
  }

  /** The inputs of the "Create Assignment" dialog. */
  datatype AssignmentField = Title | Description | Deadline | Batch

  /** The "New Message" dialog's form. */
  datatype MessageDraft = MessageDraft(recipient: string, subject: string, message: string) {

    function Get(f: MessageField): string
    {
      match f
      case Recipient => recipient
      case Subject => subject
      case Body => message
    }

    /** `{...newMessageData, [field]: value}`: the named field becomes `v`, nothing else changes. */
    function With(f: MessageField, v: string): (r: MessageDraft)
      ensures r.Get(f) == v
      ensures forall g :: g != f ==> r.Get(g) == Get(g)
    {
      match f
      case Recipient => this.(recipient := v)
      case Subject => this.(subject := v)
      case Body => this.(message := v)
    }
  }

  /** The inputs of the "New Message" dialog; `Body` is its `message` field. */
  datatype MessageField = Recipient | Subject | Body

  const EmptyAssignmentDraft := AssignmentDraft("", "", "", "")
  const EmptyMessageDraft := MessageDraft("", "", "")

  // ------------------------------------------------------------ assignments

  predicate IsPendingReview(a: Assignment)
  {
    a.submitted && !a.graded
  }

  predicate IsAwaitingSubmission(a: Assignment)
  {
    !a.submitted
  }

  /** The "Pending Review" list and the "Pending Tasks" card count it. */
  function PendingReview(assignments: seq<Assignment>): seq<Assignment>
  {
    Filter(assignments, IsPendingReview)
  }

  /** The "Awaiting Submission" list. */
  function AwaitingSubmission(assignments: seq<Assignment>): seq<Assignment>
  {
    Filter(assignments, IsAwaitingSubmission)
  }

  predicate AssignmentIdsUnique(assignments: seq<Assignment>)
  {
    forall i, j :: 0 <= i < j < |assignments| ==> assignments[i].id != assignments[j].id
  }

  predicate HasPendingWithId(assignments: seq<Assignment>, id: int)
  {
    exists i :: 0 <= i < |assignments| && assignments[i].id == id && IsPendingReview(assignments[i])
  }

  /** The list after grading: `prev.map(a => a.id === id ? {...a, graded: true} : a)`. */
  function Graded(assignments: seq<Assignment>, id: int): seq<Assignment>
  {
    Map(assignments, (a: Assignment) => if a.id == id then a.(graded := true) else a)
  }

  /**
   * Grading keeps the length; at every position every field but `graded`
   * is unchanged, and `graded` becomes true exactly where the id matches.
   */
  lemma GradedAt(assignments: seq<Assignment>, id: int, i: int)
    requires 0 <= i < |assignments|
    ensures |Graded(assignments, id)| == |assignments|
    ensures Graded(assignments, id)[i].(graded := assignments[i].graded) == assignments[i]
    ensures Graded(assignments, id)[i].graded == (assignments[i].graded || assignments[i].id == id)
  {
    MapAt(assignments, (a: Assignment) => if a.id == id then a.(graded := true) else a, i);
  }

  /** Grading changes no id, so unique ids stay unique. */
  lemma GradedKeepsIdsUnique(assignments: seq<Assignment>, id: int)
    requires AssignmentIdsUnique(assignments)
    ensures AssignmentIdsUnique(Graded(assignments, id))
  {
    var g := Graded(assignments, id);
    MapLength(assignments, (a: Assignment) => if a.id == id then a.(graded := true) else a);
    forall i, j | 0 <= i < j < |g| ensures g[i].id != g[j].id {
      GradedAt(assignments, id, i);
      GradedAt(assignments, id, j);
    }
  }

  /** Grading an id that no assignment has changes nothing. */
  lemma {:induction false} GradedNoMatch(assignments: seq<Assignment>, id: int)
    requires forall i :: 0 <= i < |assignments| ==> assignments[i].id != id
    ensures Graded(assignments, id) == assignments
  {
    if assignments != [] {
      GradedNoMatch(assignments[1..], id);
      assert assignments == [assignments[0]] + assignments[1..];
    }
  }

  /**
   * With unique ids, grading lowers the pending-review count by one when the
   * graded assignment was pending, and leaves it alone otherwise.
   */
  lemma {:induction false} GradingPendingCount(assignments: seq<Assignment>, id: int)
    requires AssignmentIdsUnique(assignments)
    ensures |PendingReview(Graded(assignments, id))|
         == |PendingReview(assignments)| - (if HasPendingWithId(assignments, id) then 1 else 0)
  {
    if assignments != [] {
      var h, rest := assignments[0], assignments[1..];
      assert AssignmentIdsUnique(rest) by {
        forall i, j | 0 <= i < j < |rest| ensures rest[i].id != rest[j].id {
          assert rest[i] == assignments[i + 1] && rest[j] == assignments[j + 1];
        }
      }
      if h.id == id {
        forall i | 0 <= i < |rest| ensures rest[i].id != id {
          assert rest[i] == assignments[i + 1];
        }
        GradedNoMatch(rest, id);
        assert forall i :: 1 <= i < |assignments| ==> assignments[i].id != id;
      } else {
        GradingPendingCount(rest, id);
        assert HasPendingWithId(assignments, id) <==> HasPendingWithId(rest, id) by {
          if HasPendingWithId(assignments, id) {
            var i :| 0 <= i < |assignments| && assignments[i].id == id && IsPendingReview(assignments[i]);
            assert rest[i - 1] == assignments[i];
          }
          if HasPendingWithId(rest, id) {
            var i :| 0 <= i < |rest| && rest[i].id == id && IsPendingReview(rest[i]);
            assert assignments[i + 1] == rest[i];
          }
        }
      }
    }
  }

  /**
   * The assignment view splits the list three ways: "Pending Review" holds
   * exactly the submitted, ungraded ones, "Awaiting Submission" exactly the
   * unsubmitted ones, and a graded submission appears in neither.
   */
  lemma AssignmentPartitions(assignments: seq<Assignment>, a: Assignment)
    requires a in assignments
    ensures a in PendingReview(assignments) <==> a.submitted && !a.graded
    ensures a in AwaitingSubmission(assignments) <==> !a.submitted
    ensures !(a in PendingReview(assignments) && a in AwaitingSubmission(assignments))
  {
    FilterMembership(assignments, IsPendingReview, a);
    FilterMembership(assignments, IsAwaitingSubmission, a);
  }

  // ------------------------------------------------------------------ demos

  /** The status a demo action sets: `'accept'` confirms, anything else reschedules. */
  function DemoStatusFor(action: string): (status: string)
    ensures status == "Confirmed" <==> action == "accept"
    ensures status == "Rescheduled" <==> action != "accept"
  {
    if action == "accept" then "Confirmed" else "Rescheduled"
  }

  function WithDemoStatus(demos: seq<Demo>, id: int, action: string): seq<Demo>
  {
    Map(demos, (d: Demo) => if d.id == id then d.(status := DemoStatusFor(action)) else d)
  }

  /**
   * A demo action keeps the length and every field but `status`; the status
   * of the demos with the selected id becomes "Confirmed" for `'accept'` and
   * "Rescheduled" otherwise, and every other demo is unchanged.
   */
  lemma DemoActionAt(demos: seq<Demo>, id: int, action: string, i: int)
    requires 0 <= i < |demos|
    ensures |WithDemoStatus(demos, id, action)| == |demos|
    ensures WithDemoStatus(demos, id, action)[i].(status := demos[i].status) == demos[i]
    ensures demos[i].id == id && action == "accept" ==> WithDemoStatus(demos, id, action)[i].status == "Confirmed"
    ensures demos[i].id == id && action != "accept" ==> WithDemoStatus(demos, id, action)[i].status == "Rescheduled"
    ensures demos[i].id != id ==> WithDemoStatus(demos, id, action)[i] == demos[i]
  {
    MapAt(demos, (d: Demo) => if d.id == id then d.(status := DemoStatusFor(action)) else d, i);
  }

  // ---------------------------------------------------------- conversations

  predicate ConversationIdsUnique(cs: seq<Conversation>)
  {
    forall i, j :: 0 <= i < j < |cs| ==> cs[i].id != cs[j].id
  }

  predicate ConversationIdsPositive(cs: seq<Conversation>)
  {
    forall i :: 0 <= i < |cs| ==> cs[i].id >= 1
  }

  /** Both lists carry the same ids in the same order. */
  predicate SameIds(a: seq<Conversation>, b: seq<Conversation>)
  {
    |a| == |b| && forall i :: 0 <= i < |a| ==> a[i].id == b[i].id
  }

  /** `Math.max(...cs.map(c => c.id))` on a non-empty list. */
  function MaxId(cs: seq<Conversation>): (r: int)
    requires |cs| > 0
    ensures forall i :: 0 <= i < |cs| ==> cs[i].id <= r
    ensures exists i :: 0 <= i < |cs| && cs[i].id == r
  {
    if |cs| == 1 then cs[0].id
    else
      var m := MaxId(cs[1..]);
      assert forall i :: 1 <= i < |cs| ==> cs[i] == cs[1..][i - 1];
      if cs[0].id > m then cs[0].id else m
  }

  /** `"Group"` exactly when the recipient's name contains `"Batch"`. */
  function ConversationRole(recipient: string): (role: string)
    ensures role == "Group" <==> Includes(recipient, "Batch")
    ensures role == "Student" <==> !Includes(recipient, "Batch")
  {
    if Includes(recipient, "Batch") then "Group" else "Student"
  }

  /**
   * The conversation that "New Message" prepends: named after the recipient,
   * a group exactly when the name contains "Batch", nothing unread, and the
   * opening message as its summary.
   */
  function Opened(id: int, recipient: string, text: string): (c: Conversation)
    ensures c.id == id && c.name == recipient
    ensures c.role == "Group" <==> Includes(recipient, "Batch")
    ensures c.unread == 0 && c.lastMessage == "You: " + text && c.time == "Just now"
  {
    Conversation(id, recipient, ConversationRole(recipient), 0, "You: " + text, "Just now")
  }

  /**
   * Prepending a conversation whose id is positive and larger than every
   * existing id keeps the ids unique and positive.
   */
  lemma OpenedKeepsIds(cs: seq<Conversation>, id: int, recipient: string, text: string)
    requires ConversationIdsUnique(cs) && ConversationIdsPositive(cs)
    requires id >= 1 && forall i :: 0 <= i < |cs| ==> cs[i].id < id
    ensures ConversationIdsUnique([Opened(id, recipient, text)] + cs)
    ensures ConversationIdsPositive([Opened(id, recipient, text)] + cs)
  {
    var cs' := [Opened(id, recipient, text)] + cs;
    forall i, j | 0 <= i < j < |cs'| ensures cs'[i].id != cs'[j].id {
      assert cs'[j] == cs[j - 1];
      if i > 0 {
        assert cs'[i] == cs[i - 1];
      }
    }
  }

  /** The conversation list after sending `text` in conversation `id`. */
  function AfterSend(cs: seq<Conversation>, id: int, text: string): seq<Conversation>
  {
    Map(cs, (c: Conversation) =>
      if c.id == id then c.(lastMessage := "You: " + text, time := "Just now", unread := 0) else c)
  }

  /**
   * Sending keeps every conversation's id, name and role; the active one
   * shows "You: text", "Just now" and no unread messages, the others are
   * unchanged.
   */
  lemma AfterSendAt(cs: seq<Conversation>, id: int, text: string, i: int)
    requires 0 <= i < |cs|
    ensures |AfterSend(cs, id, text)| == |cs|
    ensures var c := AfterSend(cs, id, text)[i];
      c.id == cs[i].id && c.name == cs[i].name && c.role == cs[i].role &&
      (cs[i].id == id ==> c.lastMessage == "You: " + text && c.time == "Just now" && c.unread == 0) &&
      (cs[i].id != id ==> c == cs[i])
  {
    MapAt(cs, (c: Conversation) =>
      if c.id == id then c.(lastMessage := "You: " + text, time := "Just now", unread := 0) else c, i);
  }

  /** The conversation list after clicking conversation `id`. */
  function MarkedRead(cs: seq<Conversation>, id: int): seq<Conversation>
  {
    Map(cs, (c: Conversation) => if c.id == id then c.(unread := 0) else c)
  }

  /** Clicking a conversation zeroes its unread count and changes nothing else. */
  lemma MarkedReadAt(cs: seq<Conversation>, id: int, i: int)
    requires 0 <= i < |cs|
    ensures |MarkedRead(cs, id)| == |cs|
    ensures cs[i].id == id ==> MarkedRead(cs, id)[i] == cs[i].(unread := 0)
    ensures cs[i].id != id ==> MarkedRead(cs, id)[i] == cs[i]
  {
    MapAt(cs, (c: Conversation) => if c.id == id then c.(unread := 0) else c, i);
  }

  lemma AfterSendSameIds(cs: seq<Conversation>, id: int, text: string)
    ensures SameIds(AfterSend(cs, id, text), cs)
  {
    MapLength(cs, (c: Conversation) =>
      if c.id == id then c.(lastMessage := "You: " + text, time := "Just now", unread := 0) else c);
    forall i | 0 <= i < |cs| ensures AfterSend(cs, id, text)[i].id == cs[i].id {
      AfterSendAt(cs, id, text, i);
    }
  }

  lemma MarkedReadSameIds(cs: seq<Conversation>, id: int)
    ensures SameIds(MarkedRead(cs, id), cs)
  {
    MapLength(cs, (c: Conversation) => if c.id == id then c.(unread := 0) else c);
    forall i | 0 <= i < |cs| ensures MarkedRead(cs, id)[i].id == cs[i].id {
      MarkedReadAt(cs, id, i);
    }
  }

  /** `cs.find(c => c.name === name)`: the first conversation with that name. */
  function FindByName(cs: seq<Conversation>, name: string): (r: Option<Conversation>)
    ensures r.None? <==> forall i :: 0 <= i < |cs| ==> cs[i].name != name
    ensures r.Some? ==> exists i :: 0 <= i < |cs| && cs[i] == r.value && cs[i].name == name &&
                                   forall j :: 0 <= j < i ==> cs[j].name != name
  {
    if cs == [] then None
    else if cs[0].name == name then Some(cs[0])
    else
      var r := FindByName(cs[1..], name);
      assert forall i :: 1 <= i < |cs| ==> cs[i] == cs[1..][i - 1];
      r
  }

  // ---------------------------------------------------------------- threads

  /** `messages[id] || []`. */
  function ThreadOf(messages: map<int, seq<Message>>, id: int): seq<Message>
  {
    if id in messages then messages[id] else []
  }

  /** A thread's message ids are 1, 2, ..., n in order; they then strictly increase, so no two are equal. */
  predicate WellNumbered(t: seq<Message>)
    ensures WellNumbered(t) ==> forall i, j :: 0 <= i < j < |t| ==> t[i].id < t[j].id
  {
    forall i :: 0 <= i < |t| ==> t[i].id == i + 1
  }

  /** A message numbered one past a well-numbered thread keeps it well numbered. */
  lemma AppendKeepsNumbering(t: seq<Message>, m: Message)
    requires WellNumbered(t) && m.id == |t| + 1
    ensures WellNumbered(t + [m])
  {
  }

  /** `!activeConversation`: no conversation, or the falsy id 0. */
  predicate NoActive(active: Option<int>)
  {
    active.None? || active == Some(0)
  }

  // ------------------------------------------------------------- component

  /** The `CoachDashboard` component's state and handlers. */
  class CoachDashboard {
    var user: Option<User>
    var activeSection: string
    var assignments: seq<Assignment>
    var selectedAssignment: Option<Assignment>
    var showAssignmentDetailDialog: bool
    var feedbackText: string
    var newAssignmentData: AssignmentDraft
    var showAddAssignmentDialog: bool
    var showStudentDetailDialog: bool
    var demos: seq<Demo>
    var selectedDemo: Option<Demo>
    var showDemoDetailDialog: bool
    var conversations: seq<Conversation>
    var activeConversation: Option<int>
    var messageText: string
    var messages: map<int, seq<Message>>
    var newMessageData: MessageDraft
    var showMessageDialog: bool

    /**
     * What every handler preserves: there is always a conversation (so
     * `Math.max` has an argument), conversation ids are unique and positive,
     * every thread is numbered 1..n, and assignment ids are unique.
     */
    ghost predicate Valid()
      reads this
    {
      |conversations| > 0 &&
      ConversationIdsUnique(conversations) &&
      ConversationIdsPositive(conversations) &&
      (forall id :: id in messages ==> WellNumbered(messages[id])) &&
      AssignmentIdsUnique(assignments)
    }

    /** The initial state, seeded from the mock collections given here. */
    constructor (assignments0: seq<Assignment>, demos0: seq<Demo>, conversations0: seq<Conversation>,
                 messages0: map<int, seq<Message>>)
      requires |conversations0| > 0
      requires ConversationIdsUnique(conversations0) && ConversationIdsPositive(conversations0)
      requires forall id :: id in messages0 ==> WellNumbered(messages0[id])
      requires AssignmentIdsUnique(assignments0)
      ensures Valid()
      ensures user == None && activeSection == "classes"
      ensures assignments == assignments0 && selectedAssignment == None && feedbackText == ""
      ensures !showAssignmentDetailDialog && !showAddAssignmentDialog && !showStudentDetailDialog
      ensures newAssignmentData == EmptyAssignmentDraft
      ensures demos == demos0 && selectedDemo == None && !showDemoDetailDialog
      ensures conversations == conversations0 && activeConversation == None && messageText == ""
      ensures messages == messages0 && newMessageData == EmptyMessageDraft && !showMessageDialog
    {
      user := None;
      activeSection := "classes";
      assignments := assignments0;
      selectedAssignment := None;
      showAssignmentDetailDialog := false;
      feedbackText := "";
      newAssignmentData := EmptyAssignmentDraft;
      showAddAssignmentDialog := false;
      showStudentDetailDialog := false;
      demos := demos0;
      selectedDemo := None;
      showDemoDetailDialog := false;
      conversations := conversations0;
      activeConversation := None;
      messageText := "";
      messages := messages0;
      newMessageData := EmptyMessageDraft;
      showMessageDialog := false;
    }

    /** Until a user has been accepted only the spinner is shown. */
    predicate ShowsBody()
      reads this
    {
      user.Some?
    }

    /** The "Pending Tasks" card. */
    function PendingTasks(): nat
      reads this
    {
      |PendingReview(assignments)|
    }

    /** The mount effect: accept the stored coach, or navigate away leaving `user` alone. */
    method Mount(store: SessionStore) returns (nav: Option<Navigation>)
      modifies this`user
      ensures Guard(store.slot).Render? ==> user == Some(Guard(store.slot).user) && nav == None
      ensures Guard(store.slot).Redirect? ==> user == old(user) && nav == Some(Guard(store.slot).nav)
      ensures old(user) == None ==> (ShowsBody() <==> Guard(store.slot).Render?)
    {
      var o := Guard(store.slot);
      if o.Render? {
        user := Some(o.user);
        nav := None;
      } else {
        nav := Some(o.nav);
      }
    }

    method HandleLogout(store: SessionStore) returns (nav: Navigation)
      modifies store
      ensures store.slot == Absent
      ensures nav == Navigation(HomeRoute, Some(Success(LoggedOut)))
    {
      nav := Logout(store);
    }

    /** The "Create Assignment" button: an empty form in an open dialog. */
    method OpenAddAssignment()
      modifies this`newAssignmentData, this`showAddAssignmentDialog
      ensures newAssignmentData == EmptyAssignmentDraft && showAddAssignmentDialog
    {
      newAssignmentData := EmptyAssignmentDraft;
      showAddAssignmentDialog := true;
    }

    /** One of the dialog's inputs changes its own field of the form. */
    method EditAssignmentDraft(f: AssignmentField, v: string)
      modifies this`newAssignmentData
      ensures newAssignmentData == old(newAssignmentData).With(f, v)
    {
      newAssignmentData := newAssignmentData.With(f, v);
    }

    /**
     * `handleAddAssignment`: with a field missing it only complains; otherwise
     * it announces the assignment, closes the dialog and clears the form. The
     * assignment list is never extended.
     */
    method HandleAddAssignment() returns (toast: Toast)
      modifies this`newAssignmentData, this`showAddAssignmentDialog
      ensures assignments == old(assignments)
      ensures var d := old(newAssignmentData);
        if d.title == "" || d.description == "" || d.deadline == "" || d.batch == "" then
          toast == Error("Please fill in all fields") &&
          newAssignmentData == d && showAddAssignmentDialog == old(showAddAssignmentDialog)
        else
          toast == Success("Assignment \"" + d.title + "\" added for " + d.batch) &&
          newAssignmentData == EmptyAssignmentDraft && !showAddAssignmentDialog
    {
      var d := newAssignmentData;
      if d.title == "" || d.description == "" || d.deadline == "" || d.batch == "" {
        toast := Error("Please fill in all fields");
        return;
      }
      toast := Success("Assignment \"" + d.title + "\" added for " + d.batch);
      showAddAssignmentDialog := false;
      newAssignmentData := EmptyAssignmentDraft;
    }

    /** `handleViewAssignment`: select, clear the feedback, open the dialog. */
    method ViewAssignment(a: Assignment)
      requires a in assignments
      modifies this`selectedAssignment, this`feedbackText, this`showAssignmentDetailDialog
      ensures selectedAssignment == Some(a) && feedbackText == "" && showAssignmentDetailDialog
    {
      selectedAssignment := Some(a);
      feedbackText := "";
      showAssignmentDetailDialog := true;
    }

    method SetFeedbackText(text: string)
      modifies this`feedbackText
      ensures feedbackText == text
    {
      feedbackText := text;
    }

    /**
     * `handleGradeAssignment`, reachable only from the dialog of a selected
     * assignment. Without feedback nothing changes; otherwise exactly the
     * assignments with the selected id become graded, the dialog closes and
     * the pending-review count drops by one if that assignment was pending.
     */
    method HandleGradeAssignment() returns (toast: Toast)
      requires Valid() && selectedAssignment.Some?
      modifies this`assignments, this`showAssignmentDetailDialog
      ensures Valid()
      ensures old(feedbackText) == "" ==>
        toast == Error("Please provide feedback") &&
        assignments == old(assignments) && showAssignmentDetailDialog == old(showAssignmentDetailDialog)
      ensures old(feedbackText) != "" ==>
        toast == Success("Feedback submitted successfully") && !showAssignmentDetailDialog &&
        assignments == Graded(old(assignments), selectedAssignment.value.id) &&
        PendingTasks() == old(PendingTasks())
          - (if HasPendingWithId(old(assignments), selectedAssignment.value.id) then 1 else 0)
    {
      if feedbackText == "" {
        toast := Error("Please provide feedback");
        return;
      }
      var id := selectedAssignment.value.id;
      GradingPendingCount(assignments, id);
      GradedKeepsIdsUnique(assignments, id);
      assignments := Graded(assignments, id);
      toast := Success("Feedback submitted successfully");
      showAssignmentDetailDialog := false;
    }

    /** `handleViewDemo`. */
    method ViewDemo(d: Demo)
      requires d in demos
      modifies this`selectedDemo, this`showDemoDetailDialog
      ensures selectedDemo == Some(d) && showDemoDetailDialog
    {
      selectedDemo := Some(d);
      showDemoDetailDialog := true;
    }

    /**
     * `handleDemoAction`, reachable only from the dialog of a selected demo:
     * only the selected demo's status changes, and the dialog closes.
     */
    method HandleDemoAction(action: string) returns (toast: Toast)
      requires selectedDemo.Some?
      modifies this`demos, this`showDemoDetailDialog
      ensures demos == WithDemoStatus(old(demos), selectedDemo.value.id, action)
      ensures toast == Success(if action == "accept" then "Demo accepted successfully"
                               else "Demo rescheduled successfully")
      ensures !showDemoDetailDialog
    {
      demos := WithDemoStatus(demos, selectedDemo.value.id, action);
      toast := Success(if action == "accept" then "Demo accepted successfully" else "Demo rescheduled successfully");
      showDemoDetailDialog := false;
    }

    method SetMessageText(text: string)
      modifies this`messageText
      ensures messageText == text
    {
      messageText := text;
    }

    /**
     * `handleSendMessage`. A blank text or no active conversation makes it a
     * no-op. Otherwise the active thread grows by one message of its own,
     * numbered one past the old length, the active conversation shows it as
     * its last message, and the input is cleared.
     */
    method HandleSendMessage(now: string) returns (toast: Option<Toast>)
      requires Valid()
      modifies this`messages, this`conversations, this`messageText
      ensures Valid()
      ensures IsBlank(old(messageText)) || NoActive(activeConversation) ==>
        toast == None && messages == old(messages) && conversations == old(conversations) &&
        messageText == old(messageText)
      ensures !(IsBlank(old(messageText)) || NoActive(activeConversation)) ==>
        var id := activeConversation.value;
        var t := ThreadOf(old(messages), id);
        messages == old(messages)[id := t + [Message(|t| + 1, "You", old(messageText), now, true)]] &&
        conversations == AfterSend(old(conversations), id, old(messageText)) &&
        messageText == "" && toast == Some(Success("Message sent"))
    {
      if IsBlank(messageText) || NoActive(activeConversation) {
        toast := None;
        return;
      }
      var id := activeConversation.value;
      var t := ThreadOf(messages, id);
      var m := Message(|t| + 1, "You", messageText, now, true);
      AppendKeepsNumbering(t, m);
      AfterSendSameIds(conversations, id, messageText);
      messages := messages[id := t + [m]];
      conversations := AfterSend(conversations, id, messageText);
      messageText := "";
      toast := Some(Success("Message sent"));
    }

    /** `handleStartNewConversation`: an empty form in an open dialog. */
    method StartNewConversation()
      modifies this`newMessageData, this`showMessageDialog
      ensures newMessageData == EmptyMessageDraft && showMessageDialog
    {
      newMessageData := EmptyMessageDraft;
      showMessageDialog := true;
    }

    /** One of the dialog's inputs changes its own field of the form. */
    method EditMessageDraft(f: MessageField, v: string)
      modifies this`newMessageData
      ensures newMessageData == old(newMessageData).With(f, v)
    {
      newMessageData := newMessageData.With(f, v);
    }

    /**
     * `handleCreateConversation`. Recipient and message are required. The new
     * conversation gets the id one past the largest, goes to the front of
     * the list, holds one message numbered 1 and becomes the active one.
     * The form is not cleared.
     */
    method HandleCreateConversation(now: string) returns (toast: Toast)
      requires Valid()
      modifies this`conversations, this`messages, this`activeConversation, this`showMessageDialog
      ensures Valid()
      ensures var d := newMessageData;
        d.recipient == "" || d.message == "" ==>
          toast == Error("Please fill in all required fields") &&
          conversations == old(conversations) && messages == old(messages) &&
          activeConversation == old(activeConversation) && showMessageDialog == old(showMessageDialog)
      ensures var d := newMessageData;
        d.recipient != "" && d.message != "" ==>
          var id := MaxId(old(conversations)) + 1;
          (forall i :: 0 <= i < |old(conversations)| ==> old(conversations)[i].id < id) &&
          conversations == [Opened(id, d.recipient, d.message)] + old(conversations) &&
          messages == old(messages)[id := [Message(1, "You", d.message, now, true)]] &&
          activeConversation == Some(id) && !showMessageDialog &&
          toast == Success("Conversation started")
    {
      var d := newMessageData;
      if d.recipient == "" || d.message == "" {
        toast := Error("Please fill in all required fields");
        return;
      }
      var id := MaxId(conversations) + 1;
      OpenedKeepsIds(conversations, id, d.recipient, d.message);
      conversations := [Opened(id, d.recipient, d.message)] + conversations;
      messages := messages[id := [Message(1, "You", d.message, now, true)]];
      activeConversation := Some(id);
      showMessageDialog := false;
      toast := Success("Conversation started");
    }

    /** Clicking a conversation in the list: it becomes active and is marked read. */
    method SelectConversation(id: int)
      requires Valid()
      modifies this`activeConversation, this`conversations
      ensures Valid()
      ensures activeConversation == Some(id)
      ensures conversations == MarkedRead(old(conversations), id)
    {
      MarkedReadSameIds(conversations, id);
      activeConversation := Some(id);
      conversations := MarkedRead(conversations, id);
    }

    /**
     * "Message Student" in a student's dialog: open the first conversation
     * named after the student if there is one, otherwise a new-message form
     * addressed to the student; either way show the messages section.
     */
    method MessageStudent(studentName: string)
      modifies this`showStudentDetailDialog, this`activeConversation, this`activeSection,
               this`newMessageData, this`showMessageDialog
      ensures !showStudentDetailDialog && activeSection == "messages"
      ensures FindByName(conversations, studentName).Some? ==>
        activeConversation == Some(FindByName(conversations, studentName).value.id) &&
        newMessageData == old(newMessageData) && showMessageDialog == old(showMessageDialog)
      ensures FindByName(conversations, studentName).None? ==>
        activeConversation == old(activeConversation) &&
        newMessageData == MessageDraft(studentName, "", "") && showMessageDialog
    {
      showStudentDetailDialog := false;
      var existing := FindByName(conversations, studentName);
      if existing.Some? {
        activeConversation := Some(existing.value.id);
        activeSection := "messages";
      } else {
        newMessageData := MessageDraft(studentName, "", "");
        showMessageDialog := true;
        activeSection := "messages";
      }
    }
  }
}
