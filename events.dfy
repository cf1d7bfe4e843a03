/**
 * The calendar event record shared by the drag-and-drop handler and the event
 * list. Dates are naive calendar dates; times, titles and the other text
 * fields are kept as strings, as the application stores them.
 */
module Events {
  import opened Wrappers
  import opened Dates

  /** `RepeatType`: 'none', 'daily', 'weekly', 'monthly' or 'yearly'. */
  datatype RepeatType = NoRepeat | Daily | Weekly | Monthly | Yearly

  /** `RepeatInfo`: the repeat rule; `endDate` may be absent. */
  datatype RepeatInfo = RepeatInfo(kind: RepeatType, interval: int, endDate: Option<string>)

  datatype Event = Event(
    id: string,
    title: string,
    date: Date,
    startTime: string,
    endTime: string,
    description: string,
    location: string,
    category: string,
    repeat: RepeatInfo,
    notificationTime: int
  )
}
