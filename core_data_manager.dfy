/**
 * The data-access layer: fetch views over the stored reminders and calendar
 * events, and saving the managed-object context.
 */
module CoreDataManager {
  import opened Records
  import opened Calendar
  import opened Query

  /**
   * What a fetch sees: the records registered in the context (saved or not),
   * or a read failure of the underlying store.
   */
  datatype Storage<T> = Readable(records: seq<T>) | Unreadable

  /** Where reminders without a due date go in the `dueDate` ascending order. */
  datatype NilPlacement = NilsFirst | NilsLast

  /** An optional fetch predicate; no predicate accepts every record. */
  predicate Accepts<T>(p: Option<T -> bool>, x: T)
  {
    p.None? || p.value(x)
  }

  // ---------------------------------------------------------------- sort orders

  /** `a` sorts strictly before `b` under `dueDate` ascending. */
  predicate DueBefore(a: Option<int>, b: Option<int>, nils: NilPlacement)
  {
    match (a, b)
    case (Some(x), Some(y)) => x < y
    case (None, Some(_)) => nils == NilsFirst
    case (Some(_), None) => nils == NilsLast
    case (None, None) => false
  }

  /** Sort descriptors of a reminder fetch: `dueDate` ascending, then `priority` descending. */
  predicate ReminderInOrder(nils: NilPlacement, a: Reminder, b: Reminder)
  {
    || DueBefore(a.dueDate, b.dueDate, nils)
    || (a.dueDate == b.dueDate && Rank(a.priority) >= Rank(b.priority))
  }

  function ReminderOrder(nils: NilPlacement): (Reminder, Reminder) -> bool
  {
    (a, b) => ReminderInOrder(nils, a, b)
  }

  /** Sort descriptor of an event fetch: `startDate` ascending. */
  predicate EventInOrder(a: CalendarEvent, b: CalendarEvent)
  {
    a.startDate <= b.startDate
  }

  lemma ReminderOrderIsTotalPreorder(nils: NilPlacement)
    ensures TotalPreorder(ReminderOrder(nils))
  {
    var le := ReminderOrder(nils);
    forall a, b ensures le(a, b) || le(b, a) {
      assert ReminderInOrder(nils, a, b) || ReminderInOrder(nils, b, a);
    }
    forall a, b, c | le(a, b) && le(b, c) ensures le(a, c) {
      assert ReminderInOrder(nils, a, b) && ReminderInOrder(nils, b, c);
    }
  }

  lemma EventOrderIsTotalPreorder()
    ensures TotalPreorder(EventInOrder)
  {
  }

  // ---------------------------------------------------------------- reminders

  /**
   * fetchReminders: the stored reminders `p` accepts, each as often as it is
   * stored, sorted; nothing at all when the store cannot be read.
   */
  function FetchReminders(st: Storage<Reminder>, p: Option<Reminder -> bool>, nils: NilPlacement): (r: seq<Reminder>)
    ensures st.Unreadable? ==> r == []
    ensures st.Readable? ==> forall x :: multiset(r)[x] == if Accepts(p, x) then multiset(st.records)[x] else 0
    ensures Sorted(r, ReminderOrder(nils))
  {
    match st
    case Unreadable => []
    case Readable(rs) =>
      ReminderOrderIsTotalPreorder(nils);
      var filtered := Filter(rs, x => Accepts(p, x));
      SortSorted(filtered, ReminderOrder(nils));
      Sort(filtered, ReminderOrder(nils))
  }

  lemma FetchRemindersMembers(st: Storage<Reminder>, p: Option<Reminder -> bool>, nils: NilPlacement, x: Reminder)
    ensures x in FetchReminders(st, p, nils) <==> st.Readable? && x in st.records && Accepts(p, x)
  {
    var r := FetchReminders(st, p, nils);
    assert x in r <==> x in multiset(r);
    if st.Readable? {
      assert x in st.records <==> x in multiset(st.records);
    }
  }

  /**
   * The order of every reminder view spelled out on the fields: dated
   * reminders by due date, equal due dates high priority first, and undated
   * reminders all on the side `nils` names.
   */
  lemma ReminderOrderOnFields(r: seq<Reminder>, nils: NilPlacement, i: int, j: int)
    requires Sorted(r, ReminderOrder(nils))
    requires 0 <= i < j < |r|
    ensures r[i].dueDate.Some? && r[j].dueDate.Some? ==> r[i].dueDate.value <= r[j].dueDate.value
    ensures r[i].dueDate == r[j].dueDate ==> Rank(r[i].priority) >= Rank(r[j].priority)
    ensures nils == NilsLast && r[i].dueDate.None? ==> r[j].dueDate.None?
    ensures nils == NilsFirst && r[j].dueDate.None? ==> r[i].dueDate.None?
  {
    assert ReminderOrder(nils)(r[i], r[j]);
  }

  predicate IsOverdue(now: int, r: Reminder)
  {
    r.dueDate.Some? && r.dueDate.value < now && !r.isCompleted
  }

  /** fetchOverdueReminders: `dueDate < now AND isCompleted == false`. */
  function FetchOverdueReminders(st: Storage<Reminder>, now: int, nils: NilPlacement): (r: seq<Reminder>)
    ensures Sorted(r, ReminderOrder(nils))
    ensures st.Readable? ==> forall x :: multiset(r)[x] == if IsOverdue(now, x) then multiset(st.records)[x] else 0
    ensures forall x :: x in r <==>
      st.Readable? && x in st.records && x.dueDate.Some? && x.dueDate.value < now && !x.isCompleted
  {
    var r := FetchReminders(st, Some(x => IsOverdue(now, x)), nils);
    forall x ensures x in r <==> st.Readable? && x in st.records && IsOverdue(now, x) {
      FetchRemindersMembers(st, Some(x => IsOverdue(now, x)), nils, x);
    }
    r
  }

  /** Completed or undated reminders are never overdue, and due exactly now is not yet overdue. */
  lemma OverdueExclusions(st: Storage<Reminder>, now: int, nils: NilPlacement, x: Reminder)
    ensures x.isCompleted ==> x !in FetchOverdueReminders(st, now, nils)
    ensures x.dueDate.None? ==> x !in FetchOverdueReminders(st, now, nils)
    ensures x.dueDate == Some(now) ==> x !in FetchOverdueReminders(st, now, nils)
  {
  }

  /** Due in the half-open day `[start, start + DAY)` and not completed. */
  predicate IsDueToday(start: int, r: Reminder)
  {
    r.dueDate.Some? && start <= r.dueDate.value < start + DAY && !r.isCompleted
  }

  /** fetchTodayReminders: due in `[startOfDay(now), startOfDay(now) + 1 day)`, not completed. */
  function FetchTodayReminders(st: Storage<Reminder>, now: int, startOfDay: int -> int, nils: NilPlacement): (r: seq<Reminder>)
    ensures Sorted(r, ReminderOrder(nils))
    ensures st.Readable? ==> forall x ::
      multiset(r)[x] == if IsDueToday(startOfDay(now), x) then multiset(st.records)[x] else 0
    ensures forall x :: x in r <==>
      && st.Readable? && x in st.records && !x.isCompleted
      && x.dueDate.Some? && startOfDay(now) <= x.dueDate.value < startOfDay(now) + DAY
  {
    var start := startOfDay(now);
    var r := FetchReminders(st, Some(x => IsDueToday(start, x)), nils);
    forall x ensures x in r <==> st.Readable? && x in st.records && IsDueToday(start, x) {
      FetchRemindersMembers(st, Some(x => IsDueToday(start, x)), nils, x);
    }
    r
  }

  /** The day's boundaries as coded: last second in, next midnight out, completed out. */
  lemma TodayBoundaries(st: Storage<Reminder>, now: int, startOfDay: int -> int, nils: NilPlacement, x: Reminder)
    requires st.Readable? && x in st.records
    ensures var midnight := startOfDay(now) + DAY;
      && (x.dueDate == Some(midnight - 1) && !x.isCompleted ==> x in FetchTodayReminders(st, now, startOfDay, nils))
      && (x.dueDate == Some(midnight) ==> x !in FetchTodayReminders(st, now, startOfDay, nils))
      && (x.dueDate == Some(startOfDay(now) - 1) ==> x !in FetchTodayReminders(st, now, startOfDay, nils))
      && (x.isCompleted ==> x !in FetchTodayReminders(st, now, startOfDay, nils))
  {
  }

  /** With a well-behaved day boundary, an open reminder due right now is due today. */
  lemma DueNowIsToday(st: Storage<Reminder>, now: int, startOfDay: int -> int, nils: NilPlacement, x: Reminder)
    requires IsStartOfDay(startOfDay)
    requires st.Readable? && x in st.records && x.dueDate == Some(now) && !x.isCompleted
    ensures x in FetchTodayReminders(st, now, startOfDay, nils)
  {
    assert startOfDay(now) <= now < startOfDay(now) + DAY;
  }

  // ---------------------------------------------------------------- events

  /** fetchEvents: the stored events `p` accepts, each as often as stored, by start date. */
  function FetchEvents(st: Storage<CalendarEvent>, p: Option<CalendarEvent -> bool>): (r: seq<CalendarEvent>)
    ensures st.Unreadable? ==> r == []
    ensures st.Readable? ==> forall x :: multiset(r)[x] == if Accepts(p, x) then multiset(st.records)[x] else 0
    ensures forall i, j :: 0 <= i < j < |r| ==> r[i].startDate <= r[j].startDate
  {
    match st
    case Unreadable => []
    case Readable(es) =>
      EventOrderIsTotalPreorder();
      var filtered := Filter(es, x => Accepts(p, x));
      SortSorted(filtered, EventInOrder);
      Sort(filtered, EventInOrder)
  }

  lemma FetchEventsMembers(st: Storage<CalendarEvent>, p: Option<CalendarEvent -> bool>, x: CalendarEvent)
    ensures x in FetchEvents(st, p) <==> st.Readable? && x in st.records && Accepts(p, x)
  {
    var r := FetchEvents(st, p);
    assert x in r <==> x in multiset(r);
    if st.Readable? {
      assert x in st.records <==> x in multiset(st.records);
    }
  }

  predicate StartsIn(lo: int, hi: int, e: CalendarEvent)
  {
    lo <= e.startDate < hi
  }

  /** The events starting in the `span` seconds from `lo` on, by start date. */
  function EventsStartingIn(st: Storage<CalendarEvent>, lo: int, span: int): (r: seq<CalendarEvent>)
    ensures forall i, j :: 0 <= i < j < |r| ==> r[i].startDate <= r[j].startDate
    ensures st.Readable? ==> forall x ::
      multiset(r)[x] == if StartsIn(lo, lo + span, x) then multiset(st.records)[x] else 0
    ensures forall x :: x in r <==> st.Readable? && x in st.records && lo <= x.startDate < lo + span
  {
    var r := FetchEvents(st, Some(x => StartsIn(lo, lo + span, x)));
    forall x ensures x in r <==> st.Readable? && x in st.records && StartsIn(lo, lo + span, x) {
      FetchEventsMembers(st, Some(x => StartsIn(lo, lo + span, x)), x);
    }
    r
  }

  /** fetchEventsForDate: events starting in `[startOfDay(date), startOfDay(date) + 1 day)`. */
  function FetchEventsForDate(st: Storage<CalendarEvent>, date: int, startOfDay: int -> int): (r: seq<CalendarEvent>)
    ensures forall i, j :: 0 <= i < j < |r| ==> r[i].startDate <= r[j].startDate
    ensures st.Readable? ==> forall x ::
      multiset(r)[x] == if StartsIn(startOfDay(date), startOfDay(date) + DAY, x) then multiset(st.records)[x] else 0
    ensures forall x :: x in r <==>
      st.Readable? && x in st.records && startOfDay(date) <= x.startDate < startOfDay(date) + DAY
  {
    EventsStartingIn(st, startOfDay(date), DAY)
  }

  /** Any two instants of one day give the same events. */
  lemma EventsForDateSameDay(st: Storage<CalendarEvent>, d1: int, d2: int, startOfDay: int -> int)
    requires startOfDay(d1) == startOfDay(d2)
    ensures FetchEventsForDate(st, d1, startOfDay) == FetchEventsForDate(st, d2, startOfDay)
  {
  }

  /**
   * With a well-behaved day boundary, asking for the start of a day is asking
   * for that day, and an event starting at the instant asked about is found.
   */
  lemma EventsForDateOwnDay(st: Storage<CalendarEvent>, d: int, startOfDay: int -> int, x: CalendarEvent)
    requires IsStartOfDay(startOfDay)
    ensures FetchEventsForDate(st, startOfDay(d), startOfDay) == FetchEventsForDate(st, d, startOfDay)
    ensures st.Readable? && x in st.records && x.startDate == d ==> x in FetchEventsForDate(st, d, startOfDay)
  {
    assert startOfDay(startOfDay(d)) == startOfDay(d);
    EventsForDateSameDay(st, startOfDay(d), d, startOfDay);
    assert startOfDay(d) <= d < startOfDay(d) + DAY;
  }

  /** fetchUpcomingEvents (7 days unless told otherwise): events starting in the closed interval `[now, now + days]`. */
  function FetchUpcomingEvents(st: Storage<CalendarEvent>, now: int, days: int): (r: seq<CalendarEvent>)
    ensures forall i, j :: 0 <= i < j < |r| ==> r[i].startDate <= r[j].startDate
    ensures st.Readable? ==> forall x ::
      multiset(r)[x] == if now <= x.startDate <= now + days * DAY then multiset(st.records)[x] else 0
    ensures forall x :: x in r <==>
      st.Readable? && x in st.records && now <= x.startDate <= now + days * DAY
  {
    EventsStartingIn(st, now, days * DAY + 1)
  }

  /** The closed upper bound as coded: the last instant is in, one second later is out. */
  lemma UpcomingBoundaries(st: Storage<CalendarEvent>, now: int, days: int, x: CalendarEvent)
    requires st.Readable? && x in st.records && days >= 0
    ensures x.startDate == now + days * DAY ==> x in FetchUpcomingEvents(st, now, days)
    ensures x.startDate == now + days * DAY + 1 ==> x !in FetchUpcomingEvents(st, now, days)
    ensures x.startDate == now ==> x in FetchUpcomingEvents(st, now, days)
    ensures x.startDate < now ==> x !in FetchUpcomingEvents(st, now, days)
  {
  }

  /** A negative look-ahead selects nothing. */
  lemma UpcomingNegativeDaysEmpty(st: Storage<CalendarEvent>, now: int, days: int)
    requires days < 0
    ensures FetchUpcomingEvents(st, now, days) == []
  {
  }

  // ---------------------------------------------------------------- saving

  /**
   * The managed-object context: the records as the app currently sees them,
   * the records last written to the persistent store, and whether the two
   * may differ.
   */
  class Store {
    var reminders: seq<Reminder>
    var events: seq<CalendarEvent>
    var savedReminders: seq<Reminder>
    var savedEvents: seq<CalendarEvent>
    var hasChanges: bool

    /** Without pending changes, the context holds exactly what is saved. */
    ghost predicate Valid()
      reads this
    {
      !hasChanges ==> reminders == savedReminders && events == savedEvents
    }

    /** What a reminder fetch on this context reads. */
    function ReminderStorage(): Storage<Reminder>
      reads this
    {
      Readable(reminders)
    }

    /** What an event fetch on this context reads. */
    function EventStorage(): Storage<CalendarEvent>
      reads this
    {
      Readable(events)
    }

    /** A context freshly loaded from the persistent store. */
    constructor (rs: seq<Reminder>, es: seq<CalendarEvent>)
      ensures Valid() && !hasChanges
      ensures reminders == rs && events == es && savedReminders == rs && savedEvents == es
    {
      reminders, events := rs, es;
      savedReminders, savedEvents := rs, es;
      hasChanges := false;
    }

    /** The caller inserts, edits or deletes records through the context. */
    method Stage(rs: seq<Reminder>, es: seq<CalendarEvent>)
      requires Valid()
      modifies this
      ensures Valid() && hasChanges
      ensures reminders == rs && events == es
      ensures ReminderStorage() == Readable(rs) && EventStorage() == Readable(es)
      ensures savedReminders == old(savedReminders) && savedEvents == old(savedEvents)
    {
      reminders, events := rs, es;
      hasChanges := true;
    }

    /** saveContext: writes pending changes; with none pending it changes nothing. */
    method SaveContext()
      requires Valid()
      modifies this
      ensures Valid() && !hasChanges
      ensures reminders == old(reminders) && events == old(events)
      ensures ReminderStorage() == old(ReminderStorage()) && EventStorage() == old(EventStorage())
      ensures savedReminders == reminders && savedEvents == events
      ensures !old(hasChanges) ==> unchanged(this)
    {
      if hasChanges {
        savedReminders, savedEvents := reminders, events;
        hasChanges := false;
      }
    }
  }
}
