# Reminders app: fetch views and notification scheduling

A model of the two pieces of logic in a small iOS reminders-and-calendar app
that do not depend on the platform:

- **The data-access layer** (`CoreDataManager`). Every fetch is a filter
  predicate followed by fixed sort descriptors: reminders by `dueDate`
  ascending, then `priority` descending; events by `startDate` ascending. The
  named views are overdue reminders (`dueDate < now`, not completed), today's
  reminders (the half-open day `[startOfDay(now), startOfDay(now) + 1 day)`,
  not completed), the events of a date (the half-open day of that date) and the
  upcoming events (the closed interval `[now, now + days]`). A fetch that fails
  yields no records. Saving the context does nothing when it has no changes.
- **Notification scheduling** (`NotificationManager`). Whether a reminder or an
  event gets a local notification (strict-future guards), what that
  notification says (title, body, category), when it fires (the due or lead
  time with its seconds dropped), and under which key it is pending (the
  record's id, so scheduling again replaces and cancelling removes only that
  key). The four categories and their actions are static configuration.

Files:

- `records.dfy` (module `Records`): reminders, calendar events, priorities.
- `calendar.dfy` (module `Calendar`): time as whole seconds, the day-boundary
  properties a `startOfDay` function must have, minute truncation.
- `query.dfy` (module `Query`): what a fetch request does with the records it
  reads: `Filter`, then an insertion `Sort` by a total preorder, with proofs
  that the result is a sorted permutation of the accepted records.
- `core_data_manager.dfy` (module `CoreDataManager`): the fetch views as pure
  functions over a `Storage` (the records a fetch sees, or a read failure), and
  the `Store` class modelling the managed-object context and `SaveContext`.
- `notification_manager.dfy` (module `NotificationManager`): the pure request
  builders `ReminderRequest` and `EventRequest`, the pending-map transitions
  `Scheduled` and `Cancelled`, the category table, and the
  `NotificationCenter` class whose methods build each request step by step as
  the source does and are proved equal to those functions.

Clock readings, the calendar's start of day and the date formatter are
parameters: `now: int`, `startOfDay: int -> int` (lemmas that need its
properties require `Calendar.IsStartOfDay`), and `formatTime: int -> string`.
Where the absent-`dueDate` reminders go in the sort is the parameter
`NilPlacement`: the source leaves it to the store, so the model proves the
ordering for both placements. The code does not fix this, and the model follows
the code.

## Model

| member | source | states |
|---|---|---|
| `Records.Rank` | RemindersApp/RemindersApp/Managers/CoreDataManager.swift:51 | the stored priority key: each priority has its own key among three, high the largest and low the smallest, so `priority` descending puts high first and low last |
| `Query.Filter` | RemindersApp/RemindersApp/Managers/CoreDataManager.swift:49 | every record occurs in the result exactly as often as in the input when the predicate accepts it, and not at all otherwise |
| `Query.Insert` | RemindersApp/RemindersApp/Managers/CoreDataManager.swift:50-51 | inserting adds exactly the one element to the multiset of the sequence |
| `Query.Sort` | RemindersApp/RemindersApp/Managers/CoreDataManager.swift:50-51 | sorting is a permutation of its input |
| `Query.InsertSorted` | RemindersApp/RemindersApp/Managers/CoreDataManager.swift:50-51 | under a total preorder, inserting into a sorted sequence keeps it sorted |
| `Query.SortSorted` | RemindersApp/RemindersApp/Managers/CoreDataManager.swift:50-51 | under a total preorder, the sort's output is sorted |
| `CoreDataManager.ReminderOrderIsTotalPreorder` | RemindersApp/RemindersApp/Managers/CoreDataManager.swift:50-51 | `dueDate` ascending then `priority` descending is total and transitive, for either placement of undated reminders |
| `CoreDataManager.EventOrderIsTotalPreorder` | RemindersApp/RemindersApp/Managers/CoreDataManager.swift:80 | `startDate` ascending is total and transitive |
| `CoreDataManager.FetchReminders` | RemindersApp/RemindersApp/Managers/CoreDataManager.swift:47-58 | the result holds each stored reminder that the predicate accepts (no predicate accepts all) exactly as often as it is stored, and nothing else; it is sorted; a failed read gives the empty sequence |
| `CoreDataManager.FetchRemindersMembers` | RemindersApp/RemindersApp/Managers/CoreDataManager.swift:47-58 | a reminder is in the result iff the store is readable, holds it, and the predicate accepts it |
| `CoreDataManager.ReminderOrderOnFields` | RemindersApp/RemindersApp/Managers/CoreDataManager.swift:50-51 | in any sequence sorted as a reminder fetch sorts (every reminder view is), for any two positions: dated reminders are in due-date order, equal due dates put the higher priority first, and undated reminders are all at the end (or all at the start) that the placement names |
| `CoreDataManager.FetchOverdueReminders` | RemindersApp/RemindersApp/Managers/CoreDataManager.swift:61-64 | each stored reminder with a due date strictly before now that is not completed, exactly as often as it is stored, and nothing else; sorted |
| `CoreDataManager.OverdueExclusions` | RemindersApp/RemindersApp/Managers/CoreDataManager.swift:62 | a completed reminder, an undated one, and one due exactly now never appear among the overdue |
| `CoreDataManager.FetchTodayReminders` | RemindersApp/RemindersApp/Managers/CoreDataManager.swift:66-74 | each stored, not completed reminder due in `[startOfDay(now), startOfDay(now) + 1 day)`, exactly as often as it is stored, and nothing else; sorted |
| `CoreDataManager.TodayBoundaries` | RemindersApp/RemindersApp/Managers/CoreDataManager.swift:67-72 | due one second before the next midnight: included; due at the next midnight or one second before today's: excluded; completed: excluded |
| `CoreDataManager.DueNowIsToday` | RemindersApp/RemindersApp/Managers/CoreDataManager.swift:67-72 | for a day boundary with the calendar's properties, an open reminder due now is among today's |
| `CoreDataManager.FetchEvents` | RemindersApp/RemindersApp/Managers/CoreDataManager.swift:77-88 | each stored event the predicate accepts, exactly as often as stored, in non-decreasing start order; a failed read gives the empty sequence |
| `CoreDataManager.FetchEventsMembers` | RemindersApp/RemindersApp/Managers/CoreDataManager.swift:77-88 | an event is in the result iff the store is readable, holds it, and the predicate accepts it |
| `CoreDataManager.EventsStartingIn` | RemindersApp/RemindersApp/Managers/CoreDataManager.swift:95 | each stored event starting in the half-open window, exactly as often as it is stored, and nothing else; by start date |
| `CoreDataManager.FetchEventsForDate` | RemindersApp/RemindersApp/Managers/CoreDataManager.swift:90-98 | each stored event starting in `[startOfDay(date), startOfDay(date) + 1 day)`, exactly as often as it is stored, and nothing else; by start date |
| `CoreDataManager.EventsForDateSameDay` | RemindersApp/RemindersApp/Managers/CoreDataManager.swift:91-93 | any two dates with the same start of day give the same sequence |
| `CoreDataManager.EventsForDateOwnDay` | RemindersApp/RemindersApp/Managers/CoreDataManager.swift:91-96 | for a day boundary with the calendar's properties, asking for the start of the day gives the same sequence, and an event starting at the date asked about is found |
| `CoreDataManager.FetchUpcomingEvents` | RemindersApp/RemindersApp/Managers/CoreDataManager.swift:100-105 | each stored event starting in the closed interval `[now, now + days]`, exactly as often as it is stored, and nothing else; by start date |
| `CoreDataManager.UpcomingBoundaries` | RemindersApp/RemindersApp/Managers/CoreDataManager.swift:101-103 | starting exactly at `now + days`: included; one second later: excluded; starting now: included; before now: excluded |
| `CoreDataManager.UpcomingNegativeDaysEmpty` | RemindersApp/RemindersApp/Managers/CoreDataManager.swift:101-103 | a negative number of days selects nothing |
| `CoreDataManager.Store.Stage` | RemindersApp/RemindersApp/Managers/CoreDataManager.swift:28-30 | a mutation through the context replaces the records that fetches on the context read (`ReminderStorage`, `EventStorage`), leaves the saved records alone and marks the context changed |
| `CoreDataManager.Store.SaveContext` | RemindersApp/RemindersApp/Managers/CoreDataManager.swift:33-44 | afterwards the saved records equal the context's, nothing is pending, and what fetches read is unchanged; with no changes pending, nothing at all changes |
| `Calendar.UtcStartOfDayIsStartOfDay` | RemindersApp/RemindersApp/Managers/CoreDataManager.swift:68 | the day-boundary properties the fetches rely on are consistent: UTC day starts satisfy them |
| `Calendar.TruncateToMinute` | RemindersApp/RemindersApp/Managers/NotificationManager.swift:49-50 | the fire instant is a whole minute, at or before the instant given and less than 60 seconds before it |
| `Calendar.TruncateToMinuteUnique` | RemindersApp/RemindersApp/Managers/NotificationManager.swift:49-50 | the truncation is the only whole minute in the 60 seconds ending at the instant |
| `NotificationManager.CategoryIdentifierInjective` | RemindersApp/RemindersApp/Managers/NotificationManager.swift:115-134 | the four category identifiers are pairwise distinct |
| `NotificationManager.CategoryTable` | RemindersApp/RemindersApp/Managers/NotificationManager.swift:105-136 | four registered categories, each identifier with the registrations (identifier, title, opens-the-app option) of its own actions, and no other identifier |
| `NotificationManager.CategoryForRoundTrip` | RemindersApp/RemindersApp/Managers/NotificationManager.swift:40-47 | the priority-to-category table is total and injective: the identifier reads back as the same priority, and it is never the event category |
| `NotificationManager.EventCategoryHasNoPriority` | RemindersApp/RemindersApp/Managers/NotificationManager.swift:86 | the event category is not any priority's category |
| `NotificationManager.ReminderActions` | RemindersApp/RemindersApp/Managers/NotificationManager.swift:106-134 | every reminder category offers "Mark Complete" (COMPLETE_ACTION, opens the app); "Snooze 15 min" (SNOOZE_ACTION, does not) is offered iff the priority is not low; no other action; the event category offers none |
| `NotificationManager.ReminderBody` | RemindersApp/RemindersApp/Managers/NotificationManager.swift:31-37 | the body starts with the title; it is the title alone when notes are absent or empty, and otherwise has a newline right after the title |
| `NotificationManager.ReminderBodyRoundTrip` | RemindersApp/RemindersApp/Managers/NotificationManager.swift:31-37 | the text after the title and the newline gives back the notes (empty for absent or empty notes) |
| `NotificationManager.ReminderBodyInjective` | RemindersApp/RemindersApp/Managers/NotificationManager.swift:31-37 | with one title, two bodies are equal iff the notes read the same |
| `NotificationManager.EventBody` | RemindersApp/RemindersApp/Managers/NotificationManager.swift:74-84 | the body starts with the title and ends with " starts at " and the formatted start; without a location it is exactly those two, with one " at " follows the title |
| `NotificationManager.EventBodyRoundTrip` | RemindersApp/RemindersApp/Managers/NotificationManager.swift:78-80 | the text between " at " after the title and the start clause gives back the location (empty for absent or empty) |
| `NotificationManager.ReminderRequest` | RemindersApp/RemindersApp/Managers/NotificationManager.swift:27-52 | a request exists iff the due date is present and strictly after now; it is keyed by the reminder's id, titled "Reminder", carries the composed body and the category reading back as the priority, and fires at the due date's whole minute |
| `NotificationManager.ReminderFireMinuteMayHaveBegun` | RemindersApp/RemindersApp/Managers/NotificationManager.swift:27-50 | the guard compares the due date with now but the trigger is its minute, so every reminder due later in the current minute is scheduled with a trigger minute that has already begun |
| `NotificationManager.EventRequest` | RemindersApp/RemindersApp/Managers/NotificationManager.swift:67-91 | a request exists iff the start and the start moved back by the lead time are both strictly after now; it is keyed by the event's id, titled "Upcoming Event", filed under EVENT_REMINDER, and fires at the whole minute of the lead-time instant |
| `NotificationManager.EventGuardNonNegativeLead` | RemindersApp/RemindersApp/Managers/NotificationManager.swift:67-70 | for a non-negative lead time only the second guard decides, and the fire time is not after the start |
| `NotificationManager.EventGuardNonPositiveLead` | RemindersApp/RemindersApp/Managers/NotificationManager.swift:67-70 | for a non-positive lead time only the start guard decides |
| `NotificationManager.RequestCategoriesRegistered` | RemindersApp/RemindersApp/Managers/NotificationManager.swift:40-47 | every category a reminder or event request carries is one of the registered categories |
| `NotificationManager.Scheduled` | RemindersApp/RemindersApp/Managers/NotificationManager.swift:52-54 | no request: nothing changes; a request: its id now maps to it, and every other pending entry is untouched |
| `NotificationManager.Cancelled` | RemindersApp/RemindersApp/Managers/NotificationManager.swift:61-62 | only the given id is removed, every other entry is untouched, and cancelling an absent id changes nothing |
| `NotificationManager.SchedulingKeepsKeys` | RemindersApp/RemindersApp/Managers/NotificationManager.swift:52 | scheduling and cancelling keep every pending request stored under its own id |
| `NotificationManager.RescheduleReplaces` | RemindersApp/RemindersApp/Managers/NotificationManager.swift:91-93 | scheduling the same record twice leaves exactly the second request |
| `NotificationManager.CancelUndoesSchedule` | RemindersApp/RemindersApp/Managers/NotificationManager.swift:100-101 | cancelling a record just scheduled (with nothing pending for it before) restores the pending map |
| `NotificationManager.CancelIdempotent` | RemindersApp/RemindersApp/Managers/NotificationManager.swift:61-62 | cancelling twice is the same as cancelling once |
| `NotificationManager.NotificationCenter.ScheduleReminderNotification` | RemindersApp/RemindersApp/Managers/NotificationManager.swift:26-59 | the pending map becomes `Scheduled(old, ReminderRequest(r, now))`; categories unchanged |
| `NotificationManager.NotificationCenter.CancelReminderNotification` | RemindersApp/RemindersApp/Managers/NotificationManager.swift:61-63 | the pending map becomes `Cancelled(old, r.id)` |
| `NotificationManager.NotificationCenter.ScheduleEventNotification` | RemindersApp/RemindersApp/Managers/NotificationManager.swift:66-98 | the pending map becomes `Scheduled(old, EventRequest(e, minutesBefore, now, formatTime))`; categories unchanged |
| `NotificationManager.NotificationCenter.CancelEventNotification` | RemindersApp/RemindersApp/Managers/NotificationManager.swift:100-102 | the pending map becomes `Cancelled(old, e.id)` |
| `NotificationManager.NotificationCenter.SetupNotificationCategories` | RemindersApp/RemindersApp/Managers/NotificationManager.swift:105-137 | the registered categories become exactly `CategoryTable()`; pending requests unchanged |

## Left out

- The Core Data stack: loading the persistent container, the real persistence
  behind `context.save()`, and both `fatalError` paths. `Store.SaveContext`
  always succeeds. The managed-object context is a class holding the current
  and the saved records.
- How a fetch fails is not modelled; `Storage.Unreadable` stands for any read
  failure. The error logging on that path is left out.
- `requestPermission`, the asynchronous completion handlers of `add`, their
  main-queue dispatch and their logging are left out. Without permission the
  platform silently drops requests; the model always registers them.
- Sound and badge of the notification content, and the platform's delivery
  and firing of notifications, are left out.
- `Calendar.current` is not modelled. The start of day is a parameter with two
  required properties. A day is 86400 s and a minute is 60 s, so daylight-saving
  days of 23 or 25 hours are not modelled. Minute truncation is a floor to a
  multiple of 60 s, which matches local calendar minutes for time zones whose
  offset is a whole number of minutes.
- Time is whole seconds, so sub-second parts of `Date()` are not modelled.
- `fetchUpcomingEvents` reads the clock twice, once for the end of the window
  and once for its start, and `scheduleEventNotification` reads it twice, once
  for each guard. The model uses a single `now` in both.
- `DateFormatter` output is the parameter `formatTime`; its short time style
  is not modelled.
- The stored encoding of `priority` and the `priorityEnum` conversion are not
  part of this model. `Records.Rank` orders low < medium < high, so "priority
  descending" puts high first.
- The sort among reminders with equal `dueDate` and `priority` (and events
  with equal `startDate`) is whatever the store returns. `Query.Sort` is
  stable, but no contract relies on that.
- `Date` overflow in `date(byAdding:)` (the forced unwrap and the `guard let`)
  is not modelled: integers are unbounded.
- The view layer (`EventTableViewCell.swift`) and the build manifest
  (`Package.swift`) are not part of this model.
