# Calendar navigation, drag-and-drop moves and event-list labels

This project is a Dafny model of three small pieces of logic in a browser calendar application. They sit next to its user interface.

- **Calendar navigation** (`src/hooks/useCalendarView.ts`). The hook holds a view mode (`week` or `month`) and the date the calendar shows.
  - `setView` switches the mode and moves the date to day 1 of its month. It builds that day with the `Date` constructor, which reads a year from 0 to 99 as 1900 + year; the model does the same (`Dates.FullYear`).
  - `navigate` moves one week in week view. In month view it moves to day 1 of the adjacent month.
  - The model is the class `CalendarNavigation.CalendarView`, with fields `view` and `currentDate`. It computes the new dates with models of JavaScript's `Date.setDate` and `Date.setMonth`. Those setters carry an out-of-range day or month into the neighbouring month or year (`Dates.MakeDay`).
  - The methods are proved against the independent meaning of each step: `Dates.AddDays`, which counts days one at a time, and `CalendarNavigation.AdjacentMonthStart`.
- **Drag-and-drop move rule** (`src/utils/dndHandlers.ts`). `handleCalendarDragEnd` decides whether a finished drag becomes a call to `onEventMove`. It is modelled as the function `DragDrop.HandleCalendarDragEnd`, which returns the one call it makes, or `None`.
- **Event-list labels** (`src/components/eventList/EventList.tsx`). These are the values the list derives from each event:
  - the repeat unit letter (`getRepeatTypeLabel`);
  - the repeat tooltip and the summary line;
  - the notification label, looked up in a table;
  - whether the event is highlighted as notified;
  - the message shown when the list is empty.
  Each repeat string has a reader (`EventList.ParseTooltip`, `EventList.ParseSummary`) that recovers the shown rule from it: the repeat type, the interval, and the end date when one is shown. An absent end date and an empty one give the same text. The round-trip lemmas show that the text states exactly the shown rule.

Modules: `Wrappers` (an `Option`), `Dates` (naive Gregorian dates and the `Date` setters), `CalendarNavigation`, `Events` (the event record), `DragDrop`, `Decimal` (the decimal text of an integer, as `${n}` writes it, and its reader), `EventList`.

I/O and other collaborators:
- The clock read `new Date()` that supplies the hook's initial date is the constructor's parameter `today`.
- The holiday lookup is left out (see below).
- `onEventMove` is not called. The model returns the call's arguments instead.
- `CalendarNavigation.NavigationSession` is not part of the hook. It is a client method that exists only to exercise the class's method contracts.

## Model

| member | source | states |
|---|---|---|
| `CalendarNavigation.CalendarView.constructor` | src/hooks/useCalendarView.ts:5-7 | The initial view is month view, and the date is the given current date. |
| `CalendarNavigation.CalendarView.SetView` | src/hooks/useCalendarView.ts:13-20 | The view becomes the chosen one. Whichever view is chosen, including the current one, the date becomes `alignToMonthStart` of the old date: day 1 of its month, in its own year unless that year is 0 to 99. |
| `CalendarNavigation.AlignIdempotent` | src/hooks/useCalendarView.ts:10-16 | Aligning to the month start is idempotent, so applying `setView` twice equals applying it once. Aligning keeps a date exactly when it is day 1 and its year is not one from 0 to 99. |
| `CalendarNavigation.SetViewRemapsTwoDigitYear` | src/hooks/useCalendarView.ts:10-11 | Aligning March 15th of the year 50 gives March 1st, 1950: the constructor reads the two-digit year as 1950. |
| `CalendarNavigation.CalendarView.SetCurrentDate` | src/hooks/useCalendarView.ts:39 | The `setCurrentDate` setter that the hook returns puts the given date in place and leaves the view alone. |
| `CalendarNavigation.CalendarView.Navigate` | src/hooks/useCalendarView.ts:22-33 | The view is unchanged. The new date is 7 days after or before the old one in week view, and day 1 of the next or previous month in month view. |
| `CalendarNavigation.NavigatedDate` | src/hooks/useCalendarView.ts:24-31 | One navigation step from a real date always lands on a real date. |
| `CalendarNavigation.AdjacentMonthStart` | src/hooks/useCalendarView.ts:27-29 | The target of a month step is day 1 of a real month, exactly one month after or before d's month when months are counted as 12 × year + month. |
| `CalendarNavigation.MonthStepFromFirst` | src/hooks/useCalendarView.ts:27-29 | `setDate(1)` followed by `setMonth(getMonth() ± 1)` gives day 1 of the adjacent month, from any day of the month (the 29th to 31st included). So month navigation never skips a month. |
| `CalendarNavigation.MonthStepWithoutAlignmentSkips` | src/hooks/useCalendarView.ts:28-29 | Without the `setDate(1)` step, January 31st moved forward one month would land on March 3rd. |
| `CalendarNavigation.NavigateRoundTrip` | src/hooks/useCalendarView.ts:24-31 | In week view, next then prev (or prev then next) restores the date. In month view it gives `setDate(1)` of the starting date, day 1 of the same month and year. |
| `CalendarNavigation.WeekStepAcrossYearEnd` | src/hooks/useCalendarView.ts:25-26 | A week step crosses the year end: December 29th, 2025 becomes January 5th, 2026, and back. |
| `CalendarNavigation.WeekStepAcrossFebruary` | src/hooks/useCalendarView.ts:25-26 | A week step follows February's leap-year length: February 26th, 2024 becomes March 4th, and February 26th, 2025 becomes March 5th. |
| `CalendarNavigation.MonthStepAcrossYearEnd` | src/hooks/useCalendarView.ts:27-29 | December `next` gives January 1st of the following year. January `prev` gives December 1st of the previous year. |
| `Dates.MakeDay` | src/hooks/useCalendarView.ts:26-29 | JavaScript's day normalisation always yields a real date. A day number that fits the month is kept as it is. |
| `Dates.MakeDaySucc` | src/hooks/useCalendarView.ts:26 | For any integer x, day number x + 1 of a month normalises to the day after day number x. |
| `Dates.MakeDayPred` | src/hooks/useCalendarView.ts:26 | Day number x - 1 normalises to the day before day number x. |
| `Dates.MakeDayShift` | src/hooks/useCalendarView.ts:26 | Shifting a day number by k moves the normalised date by exactly k days. |
| `Dates.SetDateAddsDays` | src/hooks/useCalendarView.ts:26 | `setDate(getDate() + k)` is the date k days later, across month and year ends. |
| `Dates.AddDaysRoundTrip` | src/hooks/useCalendarView.ts:26 | Moving k days and then -k days returns to the starting date. |
| `Dates.AddDaysCompose` | src/hooks/useCalendarView.ts:26 | Moving a days and then b days is moving a + b days. |
| `Dates.AddDays` | src/hooks/useCalendarView.ts:26 | Moving any number of days from a real date gives a real date. |
| `Dates.NextDay` | src/hooks/useCalendarView.ts:26 | The day after a real date is a real date. |
| `Dates.PrevDay` | src/hooks/useCalendarView.ts:26 | The day before a real date is a real date. |
| `Dates.DayStepsInverse` | src/hooks/useCalendarView.ts:26 | The day after and the day before undo each other. |
| `Dates.MonthStepsInverse` | src/hooks/useCalendarView.ts:29 | The next month and the previous month undo each other, across year ends. |
| `Dates.NextMonth` | src/hooks/useCalendarView.ts:29 | The result is a real month, exactly one month later when months are counted as 12 × year + month. |
| `Dates.PrevMonth` | src/hooks/useCalendarView.ts:29 | The result is a real month, exactly one month earlier when months are counted as 12 × year + month. |
| `Dates.DaysInMonth` | src/hooks/useCalendarView.ts:26 | A month has 28 to 31 days. February has 29 exactly in Gregorian leap years. |
| `Dates.MonthStart` | src/hooks/useCalendarView.ts:10-11 | `alignToMonthStart` gives a real day 1 of d's month. Outside the years 0 to 99, d is reached from it by moving exactly `d.day - 1` days, so it is the first day of d's own month. For a year from 0 to 99 its year is 1900 + year, as the `Date` constructor reads it. |
| `Dates.SetDateInMonth` | src/hooks/useCalendarView.ts:28 | `setDate(1)` keeps the year and month. |
| `Dates.SetMonthOnFirst` | src/hooks/useCalendarView.ts:29 | `setMonth(i)` on day 1 lands on day 1 of month `i mod 12`, in year `year + floor(i / 12)`. |
| `DragDrop.HandleCalendarDragEnd` | src/utils/dndHandlers.ts:7-28 | No move without a source, a target, an event payload or a drop date. Any move carries the dragged event unchanged, the drop date as given, and a day different from the event's. When every guard passes, the move is issued. |
| `DragDrop.NoMoveWithoutEndpoints` | src/utils/dndHandlers.ts:10-12 | A missing `active` or `over` issues no move. |
| `DragDrop.NoMoveWithoutPayload` | src/utils/dndHandlers.ts:14-19 | A missing event payload or drop date issues no move. |
| `DragDrop.NoMoveOnSameDay` | src/utils/dndHandlers.ts:21-25 | A drop on the event's own calendar day issues no move, at any time of day. |
| `DragDrop.MoveOnOtherDay` | src/utils/dndHandlers.ts:27 | A drop on another day issues exactly one move, with the original event (its date not rewritten) and the drop date. |
| `DragDrop.TimeOfDayIgnored` | src/utils/dndHandlers.ts:21-23 | Only the year, month and day of the drop are compared. Its time of day never decides whether a move is issued. |
| `DragDrop.MonthViewDragEnd` | src/components/calendar/MonthView.tsx:31-52 | The handler inlined in the month view issues a move only when there are both a source and a target. |
| `DragDrop.MonthViewAgrees` | src/components/calendar/MonthView.tsx:31-52 | The inlined handler decides every drop exactly as `handleCalendarDragEnd` does. |
| `EventList.RepeatTypeLabel` | src/components/eventList/EventList.tsx:32-45 | The unit is empty exactly for the non-repeating type, and it is at most one letter. |
| `EventList.RepeatTypeLabelInverse` | src/components/eventList/EventList.tsx:32-45 | `daily`/`weekly`/`monthly`/`yearly` get the one letter `일`/`주`/`월`/`년`, which names the type back and is not a digit. |
| `EventList.RepeatTypeLabelInjective` | src/components/eventList/EventList.tsx:32-45 | Two repeat types get the same unit exactly when they are the same type. |
| `EventList.EndDateSuffix` | src/components/eventList/EventList.tsx:94 | The end-date suffix is empty exactly when there is no end date to show. |
| `EventList.SummaryUnitIsLabel` | src/components/eventList/EventList.tsx:117-120 | The summary line's unit letters equal `getRepeatTypeLabel`'s for every repeat type. |
| `EventList.ParseTailRoundTrip` | src/components/eventList/EventList.tsx:94 | The text after the unit reads back as the end date it shows. |
| `EventList.ParseUnitRoundTrip` | src/components/eventList/EventList.tsx:92-94 | The unit letter and what follows it read back as the repeat type and the shown end date. |
| `EventList.UnitStartsWithNonDigit` | src/components/eventList/EventList.tsx:92-93 | The text after the interval never starts with a digit, so the interval's digits end where they should. |
| `EventList.ParseRuleRoundTrip` | src/components/eventList/EventList.tsx:92-94 | Interval, unit, fixed wording and end-date suffix together read back as the shown rule. |
| `EventList.TooltipRoundTrip` | src/components/eventList/EventList.tsx:92-94 | The tooltip `${interval}${unit}마다 반복` (plus ` (종료: ${endDate})` when the end date is present and non-empty) reads back as the shown rule: the interval, the repeat type and the end date when one is shown. |
| `EventList.SummaryIsHeadAndBody` | src/components/eventList/EventList.tsx:116-122 | The summary line is `반복: ` followed by the interval, the `getRepeatTypeLabel` unit, `마다` and the end-date suffix. |
| `EventList.SummaryRoundTrip` | src/components/eventList/EventList.tsx:116-122 | The summary line `반복: ${interval}${unit}마다` (plus the same suffix) states the same rule as the tooltip. |
| `EventList.TextOfShownRule` | src/components/eventList/EventList.tsx:92-122 | Tooltip and summary depend on the end date only through whether and how it is shown. |
| `EventList.TooltipAndSummaryAgree` | src/components/eventList/EventList.tsx:92-122 | Two rules get the same tooltip exactly when they show the same rule, and likewise for the summary line. |
| `EventList.FindLabel` | src/components/eventList/EventList.tsx:128-129 | `find` returns the label of the first entry whose value equals the time. It returns nothing exactly when no entry has that value. |
| `EventList.NotificationLabelTable` | src/components/eventList/EventList.tsx:24-30 | The times 1, 10, 60, 120 and 1440 get `1분 전`, `10분 전`, `1시간 전`, `2시간 전` and `1일 전`. Every other time, such as 0 or 30, gets no label. |
| `EventList.NotificationValuesDistinct` | src/components/eventList/EventList.tsx:24-30 | No two entries of the options table share a value, so `find`'s first match is the only match. |
| `EventList.NotificationLine` | src/components/eventList/EventList.tsx:126-130 | The line is `알림: ` followed by the caption of the table entry whose value is the notification time. When no entry has that value, nothing follows `알림: `. |
| `EventList.RenderEvent` | src/components/eventList/EventList.tsx:89-130 | The entry is keyed by the event id. It is highlighted exactly when the id is in `notifiedEvents`. The repeat icon's tooltip and the summary line are present exactly when the repeat type is not `none`, and each states the event's shown rule. The notification line is `알림: ` followed by the looked-up label, or by nothing when there is none. |
| `EventList.RenderEntries` | src/components/eventList/EventList.tsx:75 | There is one entry per event, in input order. |
| `EventList.RenderList` | src/components/eventList/EventList.tsx:72-75 | The list is exactly the message `검색 결과가 없습니다.` when there are no events. Otherwise it holds one entry per event, in input order. |
| `Decimal.NatToString` | src/components/eventList/EventList.tsx:92 | The decimal text of a natural number is a non-empty run of digits. |
| `Decimal.IntToString` | src/components/eventList/EventList.tsx:92 | The text of an integer starts with `-` exactly when the integer is negative, and the rest is digits. |
| `Decimal.NatToStringValue` | src/components/eventList/EventList.tsx:92 | The digits of n denote n. |
| `Decimal.DigitRunOf` | src/components/eventList/EventList.tsx:92 | The leading run of digits ends where the digits end. |
| `Decimal.ParseNatToString` | src/components/eventList/EventList.tsx:92 | The text of a natural number, followed by a non-digit, reads back as that number. |
| `Decimal.ParseNegative` | src/components/eventList/EventList.tsx:92 | The text of a negative integer, followed by a non-digit, reads back as that integer. |
| `Decimal.ParseIntToString` | src/components/eventList/EventList.tsx:92 | The interval's text reads back as the interval and uses exactly its own characters. |

## Left out

- The holidays effect and `fetchHolidays` (src/hooks/useCalendarView.ts:3, 35-37) are a call into code outside this model. The static holiday table is data, not logic.
- The clock read `new Date()` for the initial date is the constructor's parameter `today`.
- React state-update timing is framework scheduling. This includes `navigate` reading `view` from the render's closure. The model reads the current field.
- Dates are naive (year, month, day). This leaves out:
  - the time of day that JavaScript `Date` values carry through `navigate`;
  - time zones and daylight-saving shifts;
  - the fact that a `YYYY-MM-DD` string parses as UTC midnight while `toDateString` uses local time;
  - the ±100,000,000-day limit of JavaScript dates.
- `DragDrop.HandleCalendarDragEnd`: `event.date` is taken as an already-parsed calendar date. The parsing of the date string, and the "Invalid Date" that a malformed string would produce, are not modelled.
- `DragDrop.HandleCalendarDragEnd`: an absent `data.current` and an absent `event` (or `date`) inside it are modelled as one absent payload. The source treats both the same way.
- A drop's time of day is carried as an integer minute of the day, standing in for the rest of the JavaScript `Date` that `toDateString` ignores.
- `Decimal.IntToString` gives the plain decimal digits of any integer. JavaScript writes a number differently in these cases, and the model does not capture them:
  - fractional, `NaN` or infinite values;
  - integral values of magnitude 10^21 or more, which JavaScript writes in exponent form (`1e+21`);
  - integers beyond 2^53, which a JavaScript number cannot hold exactly.
  The interval comes from a free number field, so such values can reach the tooltip.
- The JSX layout of `EventList` is rendering: icons, colours, the search field and its `setSearchTerm` callback, the edit and delete buttons, and the plain text lines for title, date, time, description, location and category. The model keeps only the derived values listed above.
- These helpers are not part of this model, and their own source files are not among those modelled:
  - the recurrence expander `generateRepeatEvents`, imported by src/hooks/useEventOperations.ts;
  - the date-grid helpers (`getWeeksAtMonth`, `getEventsForDay`, `formatDate`, `formatMonth`), imported by src/components/calendar/MonthView.tsx;
  - the recurring-series operations `useRecurringEventOperations`, tested by src/__tests__/edge-cases/recurringEventEdgeCases.spec.tsx;
  - the overlap check, exercised by cypress/e2e/exception-flow/duplicate.cy.ts.
- `src/hooks/useEventOperations.ts` is not part of this model. It is HTTP and notification plumbing around the recurrence expander.
- The other calendar components, the recurring-event dialog, the stories, the end-to-end and unit tests as executable tests, and the build configuration are not part of this model. They are rendering, UI wiring or tooling. The repeat-unit maps in `DayCell.tsx` and `EventDay.tsx` duplicate `getRepeatTypeLabel`.
