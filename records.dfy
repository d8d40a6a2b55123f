/** The two record kinds the app persists, as immutable snapshots. */
module Records {

  datatype Option<+T> = None | Some(value: T)

  /** A record identifier, as its UUID string (the key of every notification request). */
  type Id = string

  datatype Priority = Low | Medium | High

  /** The stored order of priorities: the sort key that `priority` descending uses. */
  function Rank(p: Priority): (n: nat)
    ensures n < 3
    ensures p == High <==> n == 2
    ensures p == Low <==> n == 0
  {
    match p
    case Low => 0
    case Medium => 1
    case High => 2
  }

  datatype Reminder = Reminder(
    id: Id,
    title: string,
    notes: Option<string>,
    dueDate: Option<int>,
    priority: Priority,
    isCompleted: bool)

  datatype CalendarEvent = CalendarEvent(
    id: Id,
    title: string,
    startDate: int,
    endDate: int,
    isAllDay: bool,
    location: Option<string>,
    notes: Option<string>)
}
