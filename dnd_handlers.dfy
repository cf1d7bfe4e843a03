/**
 * `handleCalendarDragEnd`: the decision whether a finished drag becomes a move
 * of an event to another day. The drag library reports the dragged item
 * (`active`) and the drop target (`over`); either may be missing, and each
 * carries an optional payload. The result is the single call the handler makes
 * to `onEventMove`, or `None` when it makes none.
 */
module DragDrop {
  import opened Wrappers
  import opened Dates
  import opened Events

  /** A point in time as a JavaScript `Date` carries it: a calendar day and a time of day. */
  datatype Moment = Moment(day: Date, minuteOfDay: int)

  /** The dragged item; `event` is `active.data.current?.event`. */
  datatype Draggable = Draggable(event: Option<Event>)

  /** The drop target; `date` is `over.data.current?.date`. */
  datatype Droppable = Droppable(date: Option<Moment>)

  datatype DragEnd = DragEnd(active: Option<Draggable>, over: Option<Droppable>)

  /** One call `onEventMove(event, date)`. */
  datatype Move = Move(event: Event, date: Moment)

  /** `toDateString()` comparison: year, month and day only, never the time of day. */
  predicate SameCalendarDay(d: Date, m: Moment) {
    d == m.day
  }

  /** The move a drop issues, if it issues one. */
  function HandleCalendarDragEnd(drag: DragEnd): (r: Option<Move>)
    ensures drag.active.None? || drag.over.None? ==> r.None?
    ensures drag.active.Some? && drag.active.value.event.None? ==> r.None?
    ensures drag.over.Some? && drag.over.value.date.None? ==> r.None?
    ensures r.Some? ==>
      drag.active.Some? && drag.active.value.event == Some(r.value.event) &&
      drag.over.Some? && drag.over.value.date == Some(r.value.date) &&
      !SameCalendarDay(r.value.event.date, r.value.date)
    ensures drag.active.Some? && drag.active.value.event.Some? &&
            drag.over.Some? && drag.over.value.date.Some? &&
            !SameCalendarDay(drag.active.value.event.value.date, drag.over.value.date.value)
            ==> r == Some(Move(drag.active.value.event.value, drag.over.value.date.value))
  {
    if drag.active.None? || drag.over.None? then None
    else
      var event := drag.active.value.event;
      var dropDate := drag.over.value.date;
      if event.None? || dropDate.None? then None
      else if SameCalendarDay(event.value.date, dropDate.value) then None
      else Some(Move(event.value, dropDate.value))
  }

  /** The handler that `MonthView` declares inline, written as it is written there. */
  function MonthViewDragEnd(drag: DragEnd): (r: Option<Move>)
    ensures r.Some? ==> drag.active.Some? && drag.over.Some?
  {
    match drag
    case DragEnd(Some(active), Some(over)) =>
      (match (active.event, over.date)
       case (Some(event), Some(dropDate)) =>
         if event.date == dropDate.day then None else Some(Move(event, dropDate))
       case _ => None)
    case _ => None
  }

  /** No drag source or no drop target: no move. */
  lemma NoMoveWithoutEndpoints(drag: DragEnd)
    requires drag.active.None? || drag.over.None?
    ensures HandleCalendarDragEnd(drag) == None
  {
  }

  /** No event payload or no drop date: no move. */
  lemma NoMoveWithoutPayload(event: Option<Event>, date: Option<Moment>)
    requires event.None? || date.None?
    ensures HandleCalendarDragEnd(DragEnd(Some(Draggable(event)), Some(Droppable(date)))) == None
  {
  }

  /** A drop on the event's own calendar day is no move, at whatever time of day it lands. */
  lemma NoMoveOnSameDay(e: Event, minuteOfDay: int)
    ensures HandleCalendarDragEnd(DragEnd(Some(Draggable(Some(e))), Some(Droppable(Some(Moment(e.date, minuteOfDay)))))) == None
  {
  }

  /**
   * A drop on another day issues exactly one move, with the event exactly as
   * it was dragged (its date still the old one) and the drop date as given.
   */
  lemma MoveOnOtherDay(e: Event, m: Moment)
    requires e.date != m.day
    ensures HandleCalendarDragEnd(DragEnd(Some(Draggable(Some(e))), Some(Droppable(Some(m))))) == Some(Move(e, m))
  {
  }

  /** Whether a drop moves the event does not depend on the time of day it is dropped at. */
  lemma TimeOfDayIgnored(e: Event, day: Date, t1: int, t2: int)
    ensures HandleCalendarDragEnd(DragEnd(Some(Draggable(Some(e))), Some(Droppable(Some(Moment(day, t1)))))).Some?
        <==> HandleCalendarDragEnd(DragEnd(Some(Draggable(Some(e))), Some(Droppable(Some(Moment(day, t2)))))).Some?
  {
  }

  /** The handler inlined in `MonthView` decides every drop the same way as `handleCalendarDragEnd`. */
  lemma MonthViewAgrees(drag: DragEnd)
    ensures MonthViewDragEnd(drag) == HandleCalendarDragEnd(drag)
  {
  }
}
