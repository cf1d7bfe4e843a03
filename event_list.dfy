/**
 * The values `EventList` derives from each event: the one-letter unit of its
 * repeat type, the repeat tooltip and summary line, the notification label
 * looked up in the options table, the highlighting of notified events, and
 * the rule that an empty list shows a single message.
 *
 * Each derived string is paired with a reader (`ParseTooltip`,
 * `ParseSummary`) that recovers the shown rule from it (the repeat type, the
 * interval and the end date if one is shown), which shows that the text
 * states exactly that much of the rule.
 */
module EventList {
  import opened Wrappers
  import opened Events
  import opened Decimal

  /** `getRepeatTypeLabel`. */
  function RepeatTypeLabel(t: RepeatType): (r: string)
    ensures r == "" <==> t == NoRepeat
    ensures |r| <= 1
  {
    match t
    case Daily => "일"
    case Weekly => "주"
    case Monthly => "월"
    case Yearly => "년"
    case NoRepeat => ""
  }

  /** The repeat type a one-letter unit stands for. */
  function UnitType(c: char): Option<RepeatType> {
    if c == '일' then Some(Daily)
    else if c == '주' then Some(Weekly)
    else if c == '월' then Some(Monthly)
    else if c == '년' then Some(Yearly)
    else None
  }

  /** Every unit letter names its repeat type back, and different repeat types get different letters. */
  lemma RepeatTypeLabelInverse(t: RepeatType)
    ensures t != NoRepeat ==> |RepeatTypeLabel(t)| == 1 && UnitType(RepeatTypeLabel(t)[0]) == Some(t)
    ensures t != NoRepeat ==> !IsDigit(RepeatTypeLabel(t)[0])
  {
  }

  lemma RepeatTypeLabelInjective(t1: RepeatType, t2: RepeatType)
    ensures RepeatTypeLabel(t1) == RepeatTypeLabel(t2) <==> t1 == t2
  {
    RepeatTypeLabelInverse(t1);
    RepeatTypeLabelInverse(t2);
  }

  /** The JSX condition `event.repeat.endDate`: present and not the empty string. */
  predicate HasEndDate(endDate: Option<string>) {
    endDate.Some? && endDate.value != ""
  }

  /** The end date as the text shows it: only a present, non-empty one. */
  function ShownEndDate(endDate: Option<string>): Option<string> {
    if HasEndDate(endDate) then endDate else None
  }

  /** The rule as the list shows it: its type, its interval and its shown end date. */
  function ShownRule(r: RepeatInfo): RepeatInfo {
    RepeatInfo(r.kind, r.interval, ShownEndDate(r.endDate))
  }

  const EndDateOpen: string := " (종료: "

  /** ` (종료: <endDate>)` when there is an end date to show, else nothing. */
  function EndDateSuffix(endDate: Option<string>): (s: string)
    ensures s == [] <==> !HasEndDate(endDate)
  {
    match ShownEndDate(endDate)
    case Some(d) => EndDateOpen + d + ")"
    case None => ""
  }

  const TooltipTail: string := "마다 반복"

  const SummaryHead: string := "반복: "

  const SummaryTail: string := "마다"

  /** The repeat icon's tooltip, `${interval}${unit}마다 반복`, with the end date suffix. */
  function RepeatTooltip(r: RepeatInfo): string {
    IntToString(r.interval) + RepeatTypeLabel(r.kind) + TooltipTail + EndDateSuffix(r.endDate)
  }

  /** The unit letters of the summary line: one `type === … && letter` expression per repeat type. */
  function SummaryUnit(t: RepeatType): string {
    (if t == Daily then "일" else "") +
    (if t == Weekly then "주" else "") +
    (if t == Monthly then "월" else "") +
    (if t == Yearly then "년" else "")
  }

  /** The summary line `반복: ${interval}${units}마다` with the end date suffix. */
  function RepeatSummary(r: RepeatInfo): string {
    SummaryHead + IntToString(r.interval) + SummaryUnit(r.kind) + SummaryTail + EndDateSuffix(r.endDate)
  }

  /** The summary's unit letters are the ones `getRepeatTypeLabel` gives, for every repeat type. */
  lemma SummaryUnitIsLabel(t: RepeatType)
    ensures SummaryUnit(t) == RepeatTypeLabel(t)
  {
  }

  /** Reads `<tail><end date suffix or nothing>` back into the end date it shows. */
  function ParseTail(s: string, tail: string): Option<Option<string>> {
    if |s| < |tail| || s[..|tail|] != tail then None
    else
      var suffix := s[|tail|..];
      if suffix == [] then Some(None)
      else if |suffix| > |EndDateOpen| && suffix[..|EndDateOpen|] == EndDateOpen && suffix[|suffix| - 1] == ')' then
        Some(Some(suffix[|EndDateOpen|..|suffix| - 1]))
      else None
  }

  /** Reads `<unit letter or nothing><tail><end date suffix or nothing>` back into a repeat type and end date. */
  function ParseUnit(s: string, tail: string): Option<(RepeatType, Option<string>)> {
    var (kind, rest) :=
      if s != [] && UnitType(s[0]).Some? then (UnitType(s[0]).value, s[1..]) else (NoRepeat, s);
    match ParseTail(rest, tail)
    case Some(endDate) => Some((kind, endDate))
    case None => None
  }

  /**
   * Reads `<integer><unit letter or nothing><tail><end date suffix or nothing>`
   * back into the rule it describes.
   */
  function ParseRule(s: string, tail: string): Option<RepeatInfo> {
    match ParseLeadingInt(s)
    case None => None
    case Some((interval, k)) =>
      match ParseUnit(s[k..], tail)
      case Some((kind, endDate)) => Some(RepeatInfo(kind, interval, endDate))
      case None => None
  }

  function ParseTooltip(s: string): Option<RepeatInfo> {
    ParseRule(s, TooltipTail)
  }

  function ParseSummary(s: string): Option<RepeatInfo> {
    if |s| >= |SummaryHead| && s[..|SummaryHead|] == SummaryHead then ParseRule(s[|SummaryHead|..], SummaryTail)
    else None
  }

  /** The tail and the end date suffix read back as the shown end date. */
  lemma ParseTailRoundTrip(tail: string, endDate: Option<string>)
    ensures ParseTail(tail + EndDateSuffix(endDate), tail) == Some(ShownEndDate(endDate))
  {
    var suffix := EndDateSuffix(endDate);
    var s := tail + suffix;
    assert s[..|tail|] == tail;
    assert s[|tail|..] == suffix;
    if suffix != [] {
      var d := ShownEndDate(endDate).value;
      assert suffix == EndDateOpen + d + ")";
      assert suffix[..|EndDateOpen|] == EndDateOpen;
      assert suffix[|EndDateOpen|..|suffix| - 1] == d;
    }
  }

  /** The unit letter, a tail that starts with no unit letter and the suffix read back as the repeat type and shown end date. */
  lemma ParseUnitRoundTrip(kind: RepeatType, tail: string, endDate: Option<string>)
    requires tail != [] && UnitType(tail[0]).None?
    ensures ParseUnit(RepeatTypeLabel(kind) + tail + EndDateSuffix(endDate), tail) == Some((kind, ShownEndDate(endDate)))
  {
    var unit := RepeatTypeLabel(kind);
    var rest := tail + EndDateSuffix(endDate);
    RepeatTypeLabelInverse(kind);
    ParseTailRoundTrip(tail, endDate);
    assert unit + tail + EndDateSuffix(endDate) == unit + rest;
    if unit != [] {
      assert (unit + rest)[0] == unit[0];
      assert (unit + rest)[1..] == rest;
    }
  }

  /** What follows the interval never starts with a digit, so the interval's digits end where they should. */
  lemma UnitStartsWithNonDigit(kind: RepeatType, tail: string, suffix: string)
    requires tail != [] && !IsDigit(tail[0])
    ensures !IsDigit((RepeatTypeLabel(kind) + tail + suffix)[0])
  {
    RepeatTypeLabelInverse(kind);
  }

  /** The text of a rule, written with any tail that starts with neither a digit nor a unit letter, reads back as its shown rule. */
  lemma ParseRuleRoundTrip(r: RepeatInfo, tail: string)
    requires tail != [] && !IsDigit(tail[0]) && UnitType(tail[0]).None?
    ensures ParseRule(IntToString(r.interval) + RepeatTypeLabel(r.kind) + tail + EndDateSuffix(r.endDate), tail) == Some(ShownRule(r))
  {
    var num := IntToString(r.interval);
    var afterInt := RepeatTypeLabel(r.kind) + tail + EndDateSuffix(r.endDate);
    var s := num + RepeatTypeLabel(r.kind) + tail + EndDateSuffix(r.endDate);
    assert s == num + afterInt;
    UnitStartsWithNonDigit(r.kind, tail, EndDateSuffix(r.endDate));
    ParseIntToString(r.interval, afterInt);
    assert s[|num|..] == afterInt;
    ParseUnitRoundTrip(r.kind, tail, r.endDate);
  }

  /** The tooltip states the rule exactly: its interval, its repeat type and the end date it shows. */
  lemma TooltipRoundTrip(r: RepeatInfo)
    ensures ParseTooltip(RepeatTooltip(r)) == Some(ShownRule(r))
  {
    ParseRuleRoundTrip(r, TooltipTail);
  }

  /** The summary line states the same rule as the tooltip. */
  lemma SummaryRoundTrip(r: RepeatInfo)
    ensures ParseSummary(RepeatSummary(r)) == Some(ShownRule(r))
  {
    var body := IntToString(r.interval) + RepeatTypeLabel(r.kind) + SummaryTail + EndDateSuffix(r.endDate);
    SummaryIsHeadAndBody(r);
    var s := SummaryHead + body;
    assert s[..|SummaryHead|] == SummaryHead;
    assert s[|SummaryHead|..] == body;
    ParseRuleRoundTrip(r, SummaryTail);
  }

  lemma SummaryIsHeadAndBody(r: RepeatInfo)
    ensures RepeatSummary(r) == SummaryHead + (IntToString(r.interval) + RepeatTypeLabel(r.kind) + SummaryTail + EndDateSuffix(r.endDate))
  {
    SummaryUnitIsLabel(r.kind);
  }

  /** The text depends on the rule only through what it shows. */
  lemma TextOfShownRule(r: RepeatInfo)
    ensures RepeatTooltip(ShownRule(r)) == RepeatTooltip(r)
    ensures RepeatSummary(ShownRule(r)) == RepeatSummary(r)
  {
  }

  /** Two rules get the same tooltip exactly when they get the same summary line: exactly when they show the same rule. */
  lemma TooltipAndSummaryAgree(r1: RepeatInfo, r2: RepeatInfo)
    ensures RepeatTooltip(r1) == RepeatTooltip(r2) <==> ShownRule(r1) == ShownRule(r2)
    ensures RepeatSummary(r1) == RepeatSummary(r2) <==> ShownRule(r1) == ShownRule(r2)
  {
    TooltipRoundTrip(r1);
    TooltipRoundTrip(r2);
    SummaryRoundTrip(r1);
    SummaryRoundTrip(r2);
    TextOfShownRule(r1);
    TextOfShownRule(r2);
  }

  datatype NotificationOption = NotificationOption(value: int, caption: string)

  /** `notificationOptions`: minutes before the start, and their labels. */
  const NotificationOptions: seq<NotificationOption> := [
    NotificationOption(1, "1분 전"),
    NotificationOption(10, "10분 전"),
    NotificationOption(60, "1시간 전"),
    NotificationOption(120, "2시간 전"),
    NotificationOption(1440, "1일 전")
  ]

  /** `options.find((option) => option.value === t)?.label`, the `label` field being `caption` here. */
  function FindLabel(options: seq<NotificationOption>, t: int): (r: Option<string>)
    ensures r.None? <==> forall i :: 0 <= i < |options| ==> options[i].value != t
    ensures r.Some? ==> exists i :: (0 <= i < |options| && options[i].value == t && options[i].caption == r.value &&
      forall j :: 0 <= j < i ==> options[j].value != t)
  {
    if options == [] then None
    else if options[0].value == t then Some(options[0].caption)
    else
      var r := FindLabel(options[1..], t);
      assert forall i :: 1 <= i < |options| ==> options[i] == options[1..][i - 1];
      r
  }

  function NotificationLabel(t: int): Option<string> {
    FindLabel(NotificationOptions, t)
  }

  /** The notification label is the table entry for exactly 1, 10, 60, 120 and 1440 minutes, and there is none for any other time. */
  lemma NotificationLabelTable(t: int)
    ensures NotificationLabel(t) ==
      if t == 1 then Some("1분 전")
      else if t == 10 then Some("10분 전")
      else if t == 60 then Some("1시간 전")
      else if t == 120 then Some("2시간 전")
      else if t == 1440 then Some("1일 전")
      else None
  {
    var o := NotificationOptions;
    assert o[0].value == 1 && o[1].value == 10 && o[2].value == 60 && o[3].value == 120 && o[4].value == 1440;
    var r := NotificationLabel(t);
    if r.Some? {
      var i :| 0 <= i < |o| && o[i].value == t && o[i].caption == r.value;
      assert i == 0 || i == 1 || i == 2 || i == 3 || i == 4;
    }
  }

  /** No two entries of the options table share a value. */
  lemma NotificationValuesDistinct()
    ensures forall i, j :: 0 <= i < j < |NotificationOptions| ==> NotificationOptions[i].value != NotificationOptions[j].value
  {
  }

  /** The line `알림: <label>`: the caption of the table entry for t, or nothing after the colon when no entry has t. */
  function NotificationLine(t: int): (r: string)
    ensures forall i :: 0 <= i < |NotificationOptions| && NotificationOptions[i].value == t ==>
      r == "알림: " + NotificationOptions[i].caption
    ensures (forall i :: 0 <= i < |NotificationOptions| ==> NotificationOptions[i].value != t) ==> r == "알림: "
  {
    NotificationValuesDistinct();
    "알림: " + match NotificationLabel(t) case Some(caption) => caption case None => ""
  }

  /** The derived parts of one list entry. */
  datatype EventCard = EventCard(
    key: string,
    notified: bool,
    repeatTooltip: Option<string>,
    repeatSummary: Option<string>,
    notification: string
  )

  /** One entry: highlighted when notified, with repeat icon and summary only for repeating events. */
  function RenderEvent(e: Event, notifiedEvents: seq<string>): (c: EventCard)
    ensures c.key == e.id
    ensures c.notified <==> e.id in notifiedEvents
    ensures c.repeatTooltip.Some? <==> e.repeat.kind != NoRepeat
    ensures c.repeatSummary.Some? <==> e.repeat.kind != NoRepeat
    ensures c.repeatTooltip.Some? ==> ParseTooltip(c.repeatTooltip.value) == Some(ShownRule(e.repeat))
    ensures c.repeatSummary.Some? ==> ParseSummary(c.repeatSummary.value) == Some(ShownRule(e.repeat))
    ensures NotificationLabel(e.notificationTime).Some? ==> c.notification == "알림: " + NotificationLabel(e.notificationTime).value
    ensures NotificationLabel(e.notificationTime).None? ==> c.notification == "알림: "
  {
    TooltipRoundTrip(e.repeat);
    SummaryRoundTrip(e.repeat);
    var repeating := e.repeat.kind != NoRepeat;
    EventCard(
      e.id,
      e.id in notifiedEvents,
      if repeating then Some(RepeatTooltip(e.repeat)) else None,
      if repeating then Some(RepeatSummary(e.repeat)) else None,
      NotificationLine(e.notificationTime)
    )
  }

  const NoResultsMessage: string := "검색 결과가 없습니다."

  datatype ListContent = NoResults(message: string) | Entries(cards: seq<EventCard>)

  /** `filteredEvents.map(...)`: one entry per event, in the same order. */
  function RenderEntries(events: seq<Event>, notifiedEvents: seq<string>): (cards: seq<EventCard>)
    ensures |cards| == |events|
    ensures forall i :: 0 <= i < |events| ==> cards[i] == RenderEvent(events[i], notifiedEvents)
  {
    if events == [] then []
    else
      var rest := RenderEntries(events[1..], notifiedEvents);
      assert forall i :: 1 <= i < |events| ==> rest[i - 1] == RenderEvent(events[i], notifiedEvents);
      [RenderEvent(events[0], notifiedEvents)] + rest
  }

  /** The list: the no-results message exactly when there are no events, else their entries. */
  function RenderList(events: seq<Event>, notifiedEvents: seq<string>): (r: ListContent)
    ensures r.NoResults? <==> events == []
    ensures r.NoResults? ==> r.message == "검색 결과가 없습니다."
    ensures r.Entries? ==> (|r.cards| == |events| &&
      forall i :: 0 <= i < |events| ==> r.cards[i].key == events[i].id && r.cards[i] == RenderEvent(events[i], notifiedEvents))
  {
    if |events| == 0 then NoResults(NoResultsMessage) else Entries(RenderEntries(events, notifiedEvents))
  }
}
