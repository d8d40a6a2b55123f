/**
 * Local-notification scheduling: which request a reminder or an event
 * produces, if any, and the pending requests it replaces or removes.
 */
module NotificationManager {
  import opened Records
  import opened Calendar

  // ---------------------------------------------------------------- categories and actions

  datatype Category = HighPriorityReminder | MediumPriorityReminder | LowPriorityReminder | EventReminder

  function CategoryIdentifier(c: Category): string
  {
    match c
    case HighPriorityReminder => "HIGH_PRIORITY_REMINDER"
    case MediumPriorityReminder => "MEDIUM_PRIORITY_REMINDER"
    case LowPriorityReminder => "LOW_PRIORITY_REMINDER"
    case EventReminder => "EVENT_REMINDER"
  }

  /** The four category identifiers are pairwise different. */
  lemma CategoryIdentifierInjective(c: Category, d: Category)
    ensures CategoryIdentifier(c) == CategoryIdentifier(d) <==> c == d
  {
  }

  datatype Action = Complete | Snooze

  /** What the platform is told about an action: identifier, button title, whether it opens the app. */
  datatype ActionConfig = ActionConfig(identifier: string, title: string, opensApp: bool)

  function Registration(a: Action): ActionConfig
  {
    match a
    case Complete => ActionConfig("COMPLETE_ACTION", "Mark Complete", true)
    case Snooze => ActionConfig("SNOOZE_ACTION", "Snooze 15 min", false)
  }

  /** The actions registered with each category. */
  function CategoryActions(c: Category): seq<Action>
  {
    match c
    case HighPriorityReminder => [Complete, Snooze]
    case MediumPriorityReminder => [Complete, Snooze]
    case LowPriorityReminder => [Complete]
    case EventReminder => []
  }

  /** The registrations of a list of actions, in order. */
  function Registrations(actions: seq<Action>): (r: seq<ActionConfig>)
    ensures |r| == |actions|
    ensures forall i :: 0 <= i < |r| ==> r[i] == Registration(actions[i])
  {
    seq(|actions|, i requires 0 <= i < |actions| => Registration(actions[i]))
  }

  /** The registered configuration: each category identifier with its actions. */
  function CategoryTable(): (t: map<string, seq<ActionConfig>>)
    ensures |t| == 4
    ensures forall c :: CategoryIdentifier(c) in t && t[CategoryIdentifier(c)] == Registrations(CategoryActions(c))
    ensures forall id :: id in t ==> exists c :: CategoryIdentifier(c) == id
  {
    var t := map[
      CategoryIdentifier(HighPriorityReminder) := Registrations(CategoryActions(HighPriorityReminder)),
      CategoryIdentifier(MediumPriorityReminder) := Registrations(CategoryActions(MediumPriorityReminder)),
      CategoryIdentifier(LowPriorityReminder) := Registrations(CategoryActions(LowPriorityReminder)),
      CategoryIdentifier(EventReminder) := Registrations(CategoryActions(EventReminder))];
    assert t.Keys == {CategoryIdentifier(HighPriorityReminder), CategoryIdentifier(MediumPriorityReminder),
                      CategoryIdentifier(LowPriorityReminder), CategoryIdentifier(EventReminder)};
    t
  }

  /** The category a reminder's notification is filed under. */
  function CategoryFor(p: Priority): Category
  {
    match p
    case High => HighPriorityReminder
    case Medium => MediumPriorityReminder
    case Low => LowPriorityReminder
  }

  /** Reading a priority back from a category identifier. */
  function PriorityOfCategory(id: string): Option<Priority>
  {
    if id == CategoryIdentifier(HighPriorityReminder) then Some(High)
    else if id == CategoryIdentifier(MediumPriorityReminder) then Some(Medium)
    else if id == CategoryIdentifier(LowPriorityReminder) then Some(Low)
    else None
  }

  /** The priority table is total and injective: the identifier gives the priority back. */
  lemma CategoryForRoundTrip(p: Priority)
    ensures PriorityOfCategory(CategoryIdentifier(CategoryFor(p))) == Some(p)
    ensures CategoryFor(p) != EventReminder
  {
    CategoryIdentifierInjective(CategoryFor(p), HighPriorityReminder);
    CategoryIdentifierInjective(CategoryFor(p), MediumPriorityReminder);
  }

  /** The event category is not read as any priority. */
  lemma EventCategoryHasNoPriority()
    ensures PriorityOfCategory(CategoryIdentifier(EventReminder)) == None
  {
    CategoryIdentifierInjective(EventReminder, HighPriorityReminder);
    CategoryIdentifierInjective(EventReminder, MediumPriorityReminder);
    CategoryIdentifierInjective(EventReminder, LowPriorityReminder);
  }

  /**
   * Every reminder can be marked complete, which opens the app; only low
   * priority cannot be snoozed, which does not; events offer no action.
   */
  lemma ReminderActions(p: Priority)
    ensures ActionConfig("COMPLETE_ACTION", "Mark Complete", true) in CategoryTable()[CategoryIdentifier(CategoryFor(p))]
    ensures ActionConfig("SNOOZE_ACTION", "Snooze 15 min", false) in CategoryTable()[CategoryIdentifier(CategoryFor(p))] <==> p != Low
    ensures forall a :: a in CategoryTable()[CategoryIdentifier(CategoryFor(p))] ==> a.identifier in {"COMPLETE_ACTION", "SNOOZE_ACTION"}
    ensures CategoryTable()[CategoryIdentifier(EventReminder)] == []
  {
    var actions := CategoryTable()[CategoryIdentifier(CategoryFor(p))];
    assert actions == Registrations(CategoryActions(CategoryFor(p)));
    assert actions[0] == Registration(Complete);
    if p != Low {
      assert actions[1] == Registration(Snooze);
    }
  }

  // ---------------------------------------------------------------- content

  datatype Content = Content(title: string, body: string, categoryIdentifier: string)

  datatype Request = Request(id: Id, content: Content, fireAt: int)

  const REMINDER_TITLE: string := "Reminder"
  const EVENT_TITLE: string := "Upcoming Event"

  /** Optional text, with absence read as the empty text. */
  function TextOf(s: Option<string>): string
  {
    if s.Some? then s.value else ""
  }

  /** A reminder's body: its title, then its notes on a new line when it has any. */
  function ReminderBody(title: string, notes: Option<string>): (b: string)
    ensures |b| >= |title| && b[..|title|] == title
    ensures TextOf(notes) == "" ==> b == title
    ensures TextOf(notes) != "" ==> |b| > |title| && b[|title|] == '\n'
  {
    if notes.Some? && notes.value != "" then title + "\n" + notes.value else title
  }

  /** The notes a reminder body carries after its title. */
  function NotesFromBody(title: string, body: string): string
  {
    if |body| > |title| then body[|title| + 1..] else ""
  }

  lemma ReminderBodyRoundTrip(title: string, notes: Option<string>)
    ensures NotesFromBody(title, ReminderBody(title, notes)) == TextOf(notes)
  {
    if notes.Some? && notes.value != "" {
      var b := title + "\n" + notes.value;
      assert b[|title| + 1..] == notes.value;
    }
  }

  /** Two reminders with one title get one body exactly when their notes read the same. */
  lemma ReminderBodyInjective(title: string, n1: Option<string>, n2: Option<string>)
    ensures ReminderBody(title, n1) == ReminderBody(title, n2) <==> TextOf(n1) == TextOf(n2)
  {
    ReminderBodyRoundTrip(title, n1);
    ReminderBodyRoundTrip(title, n2);
  }

  /** The part of an event body naming the location, present only for a non-empty location. */
  function LocationPart(location: Option<string>): string
  {
    if location.Some? && location.value != "" then " at " + location.value else ""
  }

  /** An event's body: title, location if any, then when it starts. */
  function EventBody(title: string, location: Option<string>, startText: string): (b: string)
    ensures |b| >= |title| + |" starts at " + startText|
    ensures b[..|title|] == title
    ensures b[|b| - |" starts at " + startText|..] == " starts at " + startText
    ensures TextOf(location) == "" ==> b == title + " starts at " + startText
    ensures TextOf(location) != "" ==> |b| >= |title| + 4 && b[|title|..|title| + 4] == " at "
  {
    title + LocationPart(location) + " starts at " + startText
  }

  /** The location an event body names between its title and its start time. */
  function LocationFromBody(title: string, startText: string, body: string): string
  {
    var tail := |" starts at " + startText|;
    if |body| >= |title| + 4 + tail then body[|title| + 4..|body| - tail] else ""
  }

  lemma EventBodyRoundTrip(title: string, location: Option<string>, startText: string)
    ensures LocationFromBody(title, startText, EventBody(title, location, startText)) == TextOf(location)
  {
    if location.Some? && location.value != "" {
      var b := EventBody(title, location, startText);
      assert b == title + " at " + location.value + " starts at " + startText;
      assert b[|title| + 4..|b| - |" starts at " + startText|] == location.value;
    }
  }

  // ---------------------------------------------------------------- requests

  /**
   * scheduleReminderNotification's decision: nothing without a due date in
   * the strict future; otherwise a request keyed by the reminder's id that
   * fires in the minute of its due date.
   */
  function ReminderRequest(r: Reminder, now: int): (q: Option<Request>)
    ensures q.Some? <==> r.dueDate.Some? && r.dueDate.value > now
    ensures q.Some? ==>
      && q.value.id == r.id
      && q.value.content.title == REMINDER_TITLE
      && q.value.content.body == ReminderBody(r.title, r.notes)
      && PriorityOfCategory(q.value.content.categoryIdentifier) == Some(r.priority)
      && q.value.fireAt % MINUTE == 0
      && q.value.fireAt <= r.dueDate.value < q.value.fireAt + MINUTE
  {
    match r.dueDate
    case None => None
    case Some(due) =>
      if due > now then
        CategoryForRoundTrip(r.priority);
        Some(Request(r.id, Content(REMINDER_TITLE, ReminderBody(r.title, r.notes),
                                   CategoryIdentifier(CategoryFor(r.priority))),
                     TruncateToMinute(due)))
      else None
  }

  /**
   * The due date is checked against now, the trigger is the due date's
   * minute: a reminder due later in the current minute gets a trigger minute
   * that has already begun when it is scheduled.
   */
  lemma ReminderFireMinuteMayHaveBegun(r: Reminder, now: int)
    requires r.dueDate.Some? && now < r.dueDate.value < TruncateToMinute(now) + MINUTE
    ensures ReminderRequest(r, now).Some? && ReminderRequest(r, now).value.fireAt <= now
  {
    TruncateToMinuteUnique(r.dueDate.value, TruncateToMinute(now));
  }

  /**
   * scheduleEventNotification's decision (the lead time is 15 minutes unless told otherwise): nothing unless both the start and
   * the start moved `minutesBefore` minutes earlier are in the strict future;
   * otherwise a request keyed by the event's id, filed under the event category.
   */
  function EventRequest(e: CalendarEvent, minutesBefore: int, now: int, formatTime: int -> string): (q: Option<Request>)
    ensures q.Some? <==> e.startDate > now && e.startDate - minutesBefore * MINUTE > now
    ensures q.Some? ==>
      && q.value.id == e.id
      && q.value.content.title == EVENT_TITLE
      && q.value.content.body == EventBody(e.title, e.location, formatTime(e.startDate))
      && q.value.content.categoryIdentifier == CategoryIdentifier(EventReminder)
      && q.value.fireAt % MINUTE == 0
      && q.value.fireAt <= e.startDate - minutesBefore * MINUTE < q.value.fireAt + MINUTE
  {
    if e.startDate > now then
      var notificationDate := e.startDate - minutesBefore * MINUTE;
      if notificationDate > now then
        Some(Request(e.id, Content(EVENT_TITLE, EventBody(e.title, e.location, formatTime(e.startDate)),
                                   CategoryIdentifier(EventReminder)),
                     TruncateToMinute(notificationDate)))
      else None
    else None
  }

  /** With a non-negative lead time the start-date guard is implied by the second one. */
  lemma EventGuardNonNegativeLead(e: CalendarEvent, minutesBefore: int, now: int, formatTime: int -> string)
    requires minutesBefore >= 0
    ensures EventRequest(e, minutesBefore, now, formatTime).Some? <==> e.startDate - minutesBefore * MINUTE > now
    ensures EventRequest(e, minutesBefore, now, formatTime).Some? ==>
      EventRequest(e, minutesBefore, now, formatTime).value.fireAt <= e.startDate
  {
  }

  /** With a non-positive lead time only the start-date guard matters. */
  lemma EventGuardNonPositiveLead(e: CalendarEvent, minutesBefore: int, now: int, formatTime: int -> string)
    requires minutesBefore <= 0
    ensures EventRequest(e, minutesBefore, now, formatTime).Some? <==> e.startDate > now
  {
  }

  /** Every category a request is filed under is a registered one. */
  lemma RequestCategoriesRegistered(r: Reminder, e: CalendarEvent, minutesBefore: int, now: int, formatTime: int -> string)
    ensures ReminderRequest(r, now).Some? ==>
      ReminderRequest(r, now).value.content.categoryIdentifier in CategoryTable()
    ensures EventRequest(e, minutesBefore, now, formatTime).Some? ==>
      EventRequest(e, minutesBefore, now, formatTime).value.content.categoryIdentifier in CategoryTable()
  {
  }

  // ---------------------------------------------------------------- pending requests

  /** Adding a request replaces any pending request with the same identifier. */
  function Scheduled(pending: map<Id, Request>, q: Option<Request>): (m: map<Id, Request>)
    ensures q.None? ==> m == pending
    ensures q.Some? ==> m.Keys == pending.Keys + {q.value.id} && m[q.value.id] == q.value
    ensures forall k :: k in pending && (q.None? || k != q.value.id) ==> k in m && m[k] == pending[k]
  {
    if q.Some? then pending[q.value.id := q.value] else pending
  }

  /** Removing the pending request for `id`, if there is one. */
  function Cancelled(pending: map<Id, Request>, id: Id): (m: map<Id, Request>)
    ensures m.Keys == pending.Keys - {id}
    ensures forall k :: k in m ==> m[k] == pending[k]
    ensures id !in pending ==> m == pending
  {
    pending - {id}
  }

  /** Every pending request is stored under its own identifier. */
  ghost predicate KeyedById(pending: map<Id, Request>)
  {
    forall k :: k in pending ==> pending[k].id == k
  }

  lemma SchedulingKeepsKeys(pending: map<Id, Request>, q: Option<Request>, id: Id)
    requires KeyedById(pending)
    ensures KeyedById(Scheduled(pending, q))
    ensures KeyedById(Cancelled(pending, id))
  {
  }

  /** Scheduling the same record again leaves one request for it: the latest. */
  lemma RescheduleReplaces(pending: map<Id, Request>, first: Request, second: Request)
    requires first.id == second.id
    ensures Scheduled(Scheduled(pending, Some(first)), Some(second)) == Scheduled(pending, Some(second))
  {
  }

  /** Cancelling right after scheduling undoes the scheduling for that record. */
  lemma CancelUndoesSchedule(pending: map<Id, Request>, q: Request)
    requires q.id !in pending
    ensures Cancelled(Scheduled(pending, Some(q)), q.id) == pending
  {
  }

  /** Cancelling twice is cancelling once. */
  lemma CancelIdempotent(pending: map<Id, Request>, id: Id)
    ensures Cancelled(Cancelled(pending, id), id) == Cancelled(pending, id)
  {
  }

  /**
   * The platform's notification center as the app sees it: the pending
   * requests by identifier and the registered categories.
   */
  class NotificationCenter {
    var pending: map<Id, Request>
    var categories: map<string, seq<ActionConfig>>

    ghost predicate Valid()
      reads this
    {
      KeyedById(pending)
    }

    constructor ()
      ensures Valid() && pending == map[] && categories == map[]
    {
      pending, categories := map[], map[];
    }

    method ScheduleReminderNotification(r: Reminder, now: int)
      requires Valid()
      modifies this
      ensures Valid()
      ensures pending == Scheduled(old(pending), ReminderRequest(r, now))
      ensures categories == old(categories)
    {
      if r.dueDate.None? || !(r.dueDate.value > now) {
        return;
      }
      var dueDate := r.dueDate.value;
      var body := r.title;
      if r.notes.Some? && r.notes.value != "" {
        body := body + "\n" + r.notes.value;
      }
      var category: string;
      match r.priority {
        case High => category := CategoryIdentifier(HighPriorityReminder);
        case Medium => category := CategoryIdentifier(MediumPriorityReminder);
        case Low => category := CategoryIdentifier(LowPriorityReminder);
      }
      var trigger := TruncateToMinute(dueDate);
      var request := Request(r.id, Content(REMINDER_TITLE, body, category), trigger);
      pending := pending[r.id := request];
    }

    method CancelReminderNotification(r: Reminder)
      requires Valid()
      modifies this
      ensures Valid()
      ensures pending == Cancelled(old(pending), r.id)
      ensures categories == old(categories)
    {
      pending := pending - {r.id};
    }

    method ScheduleEventNotification(e: CalendarEvent, minutesBefore: int, now: int, formatTime: int -> string)
      requires Valid()
      modifies this
      ensures Valid()
      ensures pending == Scheduled(old(pending), EventRequest(e, minutesBefore, now, formatTime))
      ensures categories == old(categories)
    {
      if !(e.startDate > now) {
        return;
      }
      var notificationDate := e.startDate - minutesBefore * MINUTE;
      if !(notificationDate > now) {
        return;
      }
      var body := e.title;
      if e.location.Some? && e.location.value != "" {
        body := body + " at " + e.location.value;
      }
      body := body + " starts at " + formatTime(e.startDate);
      assert body == EventBody(e.title, e.location, formatTime(e.startDate));
      var trigger := TruncateToMinute(notificationDate);
      var request := Request(e.id, Content(EVENT_TITLE, body, CategoryIdentifier(EventReminder)), trigger);
      pending := pending[e.id := request];
    }

    method CancelEventNotification(e: CalendarEvent)
      requires Valid()
      modifies this
      ensures Valid()
      ensures pending == Cancelled(old(pending), e.id)
      ensures categories == old(categories)
    {
      pending := pending - {e.id};
    }

    method SetupNotificationCategories()
      requires Valid()
      modifies this
      ensures Valid()
      ensures categories == CategoryTable()
      ensures pending == old(pending)
    {
      var completeAction := ActionConfig("COMPLETE_ACTION", "Mark Complete", true);
      var snoozeAction := ActionConfig("SNOOZE_ACTION", "Snooze 15 min", false);
      var high := CategoryIdentifier(HighPriorityReminder);
      var medium := CategoryIdentifier(MediumPriorityReminder);
      var low := CategoryIdentifier(LowPriorityReminder);
      var event := CategoryIdentifier(EventReminder);
      categories := map[high := [completeAction, snoozeAction], medium := [completeAction, snoozeAction],
                        low := [completeAction], event := []];
      assert Registrations([Complete, Snooze]) == [completeAction, snoozeAction];
      assert Registrations([Complete]) == [completeAction];
      assert Registrations([]) == [];
    }
  }
}
