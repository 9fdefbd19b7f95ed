/**
 * The timeline: the date arithmetic that orders events (days counted through the
 * project's own calendar, then minutes), the chronological view of the events, and the
 * event form with its save and delete flow.
 */
module Timeline {
  import opened Wrappers
  import opened Model
  import opened Seqs
  import opened Sorting
  import opened ProjectStore

  const MINUTES_PER_DAY: int := 1440

  /** `getDaysInYear`: the calendar's day count, or 365 when no project is open. */
  function DaysInYear(live: Option<Live>): (r: int)
    ensures live.None? ==> r == 365
    ensures live.Some? ==>
              var months := live.value.data.calendar.months; r == DaysBeforeMonth(months, |months| + 1)
  {
    if live.None? then 365
    else
      var months := live.value.data.calendar.months;
      assert months[..|months|] == months;
      SumDays(months)
  }

  /** A project on the Gregorian table counts the same year length as no project at all. */
  lemma GregorianDaysInYear(live: Live)
    requires live.data.calendar.months == GREGORIAN_MONTHS
    ensures DaysInYear(Some(live)) == DaysInYear(None) == 365
  {
    GregorianYear();
  }

  /** How many of the first `month - 1` months the calendar actually has. */
  function MonthsCounted(months: seq<Month>, month: int): (n: nat)
    ensures n <= |months|
  {
    if month - 1 < 0 then 0 else if month - 1 > |months| then |months| else month - 1
  }

  /** The days of the months before `month`; months past the end of the calendar add nothing. */
  function DaysBeforeMonth(months: seq<Month>, month: int): int {
    SumDays(months[..MonthsCounted(months, month)])
  }

  /** The day count `getDateValue` reaches before converting to minutes. */
  function DayNumber(months: seq<Month>, date: Time): int {
    (date.year - 1) * SumDays(months) + DaysBeforeMonth(months, date.month) + date.day
  }

  /** The minutes past midnight (`hour || 0`, `minute || 0`). */
  function TimeOfDay(date: Time): int {
    date.hour.GetOr(0) * 60 + date.minute.GetOr(0)
  }

  /** `getDateValue`: 0 without a project, otherwise minutes counted from day 1 of year 1. */
  function DateValue(live: Option<Live>, date: Time): (r: int)
    ensures live.None? ==> r == 0
    ensures live.Some? && 0 <= TimeOfDay(date) < MINUTES_PER_DAY ==>
              && r / MINUTES_PER_DAY == DayNumber(live.value.data.calendar.months, date)
              && r % MINUTES_PER_DAY == TimeOfDay(date)
  {
    if live.None? then 0
    else DayNumber(live.value.data.calendar.months, date) * MINUTES_PER_DAY + TimeOfDay(date)
  }

  /** Adding one month that the calendar has adds its days. */
  lemma DaysBeforeStep(months: seq<Month>, m: int)
    requires 1 <= m <= |months|
    ensures DaysBeforeMonth(months, m + 1) == DaysBeforeMonth(months, m) + months[m - 1].days
  {
    assert months[..m][..m - 1] == months[..m - 1];
  }

  /** With no negative month lengths, later months start later. */
  lemma {:induction false} DaysBeforeMonotone(months: seq<Month>, m1: int, m2: int)
    requires forall i :: 0 <= i < |months| ==> 0 <= months[i].days
    requires 1 <= m1 <= m2 <= |months| + 1
    ensures DaysBeforeMonth(months, m1) <= DaysBeforeMonth(months, m2)
    decreases m2 - m1
  {
    if m1 < m2 {
      DaysBeforeStep(months, m2 - 1);
      DaysBeforeMonotone(months, m1, m2 - 1);
    }
  }

  /** A date the calendar can show: an existing month, a day in it, a time in the day. */
  ghost predicate ValidDate(months: seq<Month>, d: Time) {
    && 1 <= d.month <= |months|
    && 1 <= d.day <= months[d.month - 1].days
    && 0 <= d.hour.GetOr(0) < 24
    && 0 <= d.minute.GetOr(0) < 60
  }

  /** Strictly earlier by (year, month, day). */
  predicate DayBefore(a: Time, b: Time) {
    || a.year < b.year
    || (a.year == b.year && a.month < b.month)
    || (a.year == b.year && a.month == b.month && a.day < b.day)
  }

  /** A valid date's day of the year lies in 1 .. days in the year. */
  lemma DayOfYearBounds(months: seq<Month>, d: Time)
    requires forall i :: 0 <= i < |months| ==> 0 <= months[i].days
    requires ValidDate(months, d)
    ensures 1 <= DaysBeforeMonth(months, d.month) + d.day <= SumDays(months)
  {
    var m := d.month;
    assert DaysBeforeMonth(months, 1) == 0 by {
      assert months[..0] == [];
    }
    DaysBeforeMonotone(months, 1, m);
    DaysBeforeStep(months, m);
    DaysBeforeMonotone(months, m + 1, |months| + 1);
    assert DaysBeforeMonth(months, |months| + 1) == SumDays(months) by {
      assert months[..|months|] == months;
    }
  }

  /** A later year outweighs any day of the year. */
  lemma YearsOutweighDays(ya: int, yb: int, y: int, pa: int, pb: int)
    requires ya < yb && 1 <= pa <= y && 1 <= pb
    ensures (ya - 1) * y + pa < (yb - 1) * y + pb
  {
    var k := yb - ya;
    assert (yb - 1) * y == (ya - 1) * y + k * y;
    AtLeastOnce(k, y);
  }

  lemma {:induction false} AtLeastOnce(k: int, y: int)
    requires k >= 1 && y >= 0
    ensures k * y >= y
    decreases k
  {
    if k > 1 {
      AtLeastOnce(k - 1, y);
      assert k * y == (k - 1) * y + y;
    }
  }

  /** One more whole day outweighs any time of day. */
  lemma MinutesFollowDays(da: int, db: int, ta: int, tb: int)
    requires da < db && 0 <= ta < MINUTES_PER_DAY && 0 <= tb
    ensures da * MINUTES_PER_DAY + ta < db * MINUTES_PER_DAY + tb
  {
    assert db * MINUTES_PER_DAY >= (da + 1) * MINUTES_PER_DAY;
  }

  /**
   * On a calendar without negative month lengths, `getDateValue` orders valid dates as
   * the calendar does: an earlier (year, month, day) gets a strictly smaller value.
   */
  lemma DateValueFollowsCalendar(live: Live, a: Time, b: Time)
    requires forall i :: 0 <= i < |live.data.calendar.months| ==> 0 <= live.data.calendar.months[i].days
    requires ValidDate(live.data.calendar.months, a) && ValidDate(live.data.calendar.months, b)
    requires DayBefore(a, b)
    ensures DateValue(Some(live), a) < DateValue(Some(live), b)
  {
    var months := live.data.calendar.months;
    var y := SumDays(months);
    var pa := DaysBeforeMonth(months, a.month) + a.day;
    var pb := DaysBeforeMonth(months, b.month) + b.day;
    DayOfYearBounds(months, a);
    DayOfYearBounds(months, b);
    if a.year < b.year {
      YearsOutweighDays(a.year, b.year, y, pa, pb);
    } else if a.month < b.month {
      DaysBeforeStep(months, a.month);
      DaysBeforeMonotone(months, a.month + 1, b.month);
    }
    assert DayNumber(months, a) < DayNumber(months, b);
    MinutesFollowDays(DayNumber(months, a), DayNumber(months, b), TimeOfDay(a), TimeOfDay(b));
  }

  /** Same year and month, a later day: strictly later, as long as both times stay within a day. */
  lemma LaterDayIsLater(live: Live, a: Time, b: Time)
    requires a.year == b.year && a.month == b.month && a.day < b.day
    requires 0 <= TimeOfDay(a) < MINUTES_PER_DAY && 0 <= TimeOfDay(b)
    ensures DateValue(Some(live), a) < DateValue(Some(live), b)
  {
    MinutesFollowDays(DayNumber(live.data.calendar.months, a), DayNumber(live.data.calendar.months, b), TimeOfDay(a), TimeOfDay(b));
  }

  /** The hour is not range-checked: hour 24 of day 1 is the same instant as hour 0 of day 2. */
  lemma HourTwentyFourIsNextDay(live: Live)
    ensures DateValue(Some(live), Time(1, 1, 1, Some(24), Some(0))) == DateValue(Some(live), Time(2, 1, 1, Some(0), Some(0)))
  {
  }

  /** The comparator of `sortedEvents`: `getDateValue(a.date) - getDateValue(b.date) <= 0`. */
  function EarlierOrSame(live: Option<Live>): (Event, Event) -> bool {
    (a: Event, b: Event) => DateValue(live, a.date) <= DateValue(live, b.date)
  }

  lemma EarlierOrSameIsTotalPreorder(live: Option<Live>)
    ensures Total(EarlierOrSame(live)) && Transitive(EarlierOrSame(live))
  {
  }

  /** `sortedEvents`: a chronological copy of the events; `events` itself is not reordered. */
  function SortedEvents(live: Option<Live>): (r: seq<Event>)
    ensures live.None? ==> r == []
    ensures live.Some? ==> multiset(r) == multiset(live.value.data.events)
    ensures SortedBy(r, EarlierOrSame(live))
  {
    if live.None? then []
    else
      EarlierOrSameIsTotalPreorder(live);
      SortBySorted(live.value.data.events, EarlierOrSame(live));
      SortBy(live.value.data.events, EarlierOrSame(live))
  }

  /** `currentDate`: the date of the last event in chronological order, or day 1/1/1. */
  function CurrentDate(live: Option<Live>): (r: Time)
    ensures live.None? || |live.value.data.events| == 0 ==> r == Time(1, 1, 1, None, None)
    ensures live.Some? && |live.value.data.events| > 0 ==>
              exists i :: 0 <= i < |live.value.data.events| && live.value.data.events[i].date == r
  {
    var list := SortedEvents(live);
    if |list| == 0 then Time(1, 1, 1, None, None)
    else
      assert list[|list| - 1] in multiset(live.value.data.events);
      list[|list| - 1].date
  }

  /** The current date is the date of some event, and no event is later. */
  lemma CurrentDateIsLatest(live: Live)
    requires |live.data.events| > 0
    ensures exists i :: 0 <= i < |live.data.events| && live.data.events[i].date == CurrentDate(Some(live))
    ensures forall i :: 0 <= i < |live.data.events| ==>
              DateValue(Some(live), live.data.events[i].date) <= DateValue(Some(live), CurrentDate(Some(live)))
  {
    EarlierOrSameIsTotalPreorder(Some(live));
    SortedLastIsGreatest(SortedEvents(Some(live)), live.data.events, EarlierOrSame(Some(live)));
    var last := SortedEvents(Some(live))[|live.data.events| - 1];
    var i :| 0 <= i < |live.data.events| && live.data.events[i] == last;
  }

  lemma NoEventsNoDate(live: Option<Live>)
    requires live.None? || |live.value.data.events| == 0
    ensures CurrentDate(live) == Time(1, 1, 1, None, None)
  {
    if live.Some? {
      assert |multiset(SortedEvents(live))| == 0;
    }
  }

  /** `toggleCharacterInForm`: append an absent id, otherwise splice out its first occurrence. */
  function Toggled(ids: seq<Id>, id: Id): (r: seq<Id>)
    ensures id !in ids ==> r == ids + [id]
    ensures id in ids ==> |r| == |ids| - 1 && multiset(r) == multiset(ids) - multiset{id}
  {
    var k := IndexOf(ids, id);
    if k == -1 then ids + [id]
    else
      assert ids == ids[..k] + [id] + ids[k + 1..];
      ids[..k] + ids[k + 1..]
  }

  /** Splicing out index k shifts every later element one place left. */
  lemma SpliceShifts(ids: seq<Id>, k: nat)
    requires k < |ids|
    ensures |ids[..k] + ids[k + 1..]| == |ids| - 1
    ensures forall i :: 0 <= i < |ids| - 1 ==> (ids[..k] + ids[k + 1..])[i] == if i < k then ids[i] else ids[i + 1]
  {
  }

  /** Splicing the only occurrence of `ids[k]` out of a list without repeats. */
  lemma SpliceOut(ids: seq<Id>, k: nat)
    requires Distinct(ids) && k < |ids|
    ensures ids[k] !in ids[..k] + ids[k + 1..]
    ensures Distinct(ids[..k] + ids[k + 1..])
    ensures forall x :: x != ids[k] ==> (x in ids[..k] + ids[k + 1..] <==> x in ids)
  {
    var r := ids[..k] + ids[k + 1..];
    SpliceShifts(ids, k);
    forall i | 0 <= i < |r| ensures r[i] != ids[k] {
      if i < k { assert ids[i] != ids[k]; } else { assert ids[i + 1] != ids[k]; }
    }
    forall x | x != ids[k] && x in ids ensures x in r {
      var j :| 0 <= j < |ids| && ids[j] == x;
      if j < k { assert r[j] == x; } else { assert r[j - 1] == x; }
    }
    forall i, j | 0 <= i < j < |r| ensures r[i] != r[j] {
      var i' := if i < k then i else i + 1;
      var j' := if j < k then j else j + 1;
      assert i' < j';
    }
  }

  /** Appending an absent id to a list without repeats. */
  lemma AppendFresh(ids: seq<Id>, id: Id)
    requires Distinct(ids) && id !in ids
    ensures Distinct(ids + [id])
  {
    var r := ids + [id];
    forall i, j | 0 <= i < j < |r| ensures r[i] != r[j] {
      if j == |ids| { assert r[i] in ids; }
    }
  }

  /** On a list without repeats, toggling flips membership and creates no repeat. */
  lemma ToggleFlipsMembership(ids: seq<Id>, id: Id)
    requires Distinct(ids)
    ensures id in Toggled(ids, id) <==> id !in ids
    ensures Distinct(Toggled(ids, id))
    ensures forall x :: x != id ==> (x in Toggled(ids, id) <==> x in ids)
  {
    if id in ids {
      var k := IndexOf(ids, id);
      SpliceOut(ids, k);
      assert Toggled(ids, id) == ids[..k] + ids[k + 1..];
    } else {
      AppendFresh(ids, id);
    }
  }

  /** Toggling an id in and straight out again gives the list back. */
  lemma ToggleInThenOut(ids: seq<Id>, id: Id)
    requires id !in ids
    ensures Toggled(ids + [id], id) == ids
  {
    var once := ids + [id];
    assert IndexOf(once, id) == |ids|;
    assert once[..|ids|] == ids;
  }

  /** Toggling the last id of a list without repeats drops it. */
  lemma ToggleLast(ids: seq<Id>, id: Id)
    requires Distinct(ids) && |ids| > 0 && ids[|ids| - 1] == id
    ensures Toggled(ids, id) == ids[..|ids| - 1]
    ensures id !in ids[..|ids| - 1]
  {
    var k := IndexOf(ids, id);
    assert k == |ids| - 1;
    assert ids[k + 1..] == [];
    var front := ids[..|ids| - 1];
    forall i | 0 <= i < |front| ensures front[i] != id {
      assert ids[i] != ids[|ids| - 1];
    }
  }

  /**
   * Toggling the same id twice gives back the same participants. The order comes back too
   * when the id was absent or last; otherwise the id moves to the end.
   */
  lemma ToggleTwice(ids: seq<Id>, id: Id)
    requires Distinct(ids)
    ensures multiset(Toggled(Toggled(ids, id), id)) == multiset(ids)
    ensures id !in ids || ids[|ids| - 1] == id ==> Toggled(Toggled(ids, id), id) == ids
  {
    if id !in ids {
      ToggleInThenOut(ids, id);
    } else {
      ToggleOutThenIn(ids, id);
      if ids[|ids| - 1] == id {
        ToggleLast(ids, id);
        var front := ids[..|ids| - 1];
        ToggleInThenOut(front, id);
        assert front + [id] == ids;
      }
    }
  }

  /** Toggling a present id out and back in appends it: the same participants. */
  lemma ToggleOutThenIn(ids: seq<Id>, id: Id)
    requires Distinct(ids) && id in ids
    ensures Toggled(Toggled(ids, id), id) == Toggled(ids, id) + [id]
    ensures multiset(Toggled(Toggled(ids, id), id)) == multiset(ids)
  {
    ToggleFlipsMembership(ids, id);
    var once := Toggled(ids, id);
    assert multiset(once + [id]) == multiset(once) + multiset{id};
  }

  /** Toggling "a" twice in ["a", "b"] gives ["b", "a"]. */
  lemma ToggleTwiceMovesToEnd()
    ensures Toggled(Toggled(["a", "b"], "a"), "a") == ["b", "a"]
  {
    assert IndexOf(["a", "b"], "a") == 0;
    assert ["a", "b"][1..] == ["b"];
    assert IndexOf(["b"], "a") == -1;
  }

  datatype Screen = ListScreen | FormScreen

  /** The event form (`formData`). */
  datatype EventForm = EventForm(name: string, description: string, date: Time, locationId: Id, characters: seq<Id>)

  /** The date `resetForm` proposes: a copy of the current date, or day 1/1/1 at 12:00. */
  function FormDate(live: Option<Live>): Time {
    if |SortedEvents(live)| > 0 then CurrentDate(live) else Time(1, 1, 1, Some(12), Some(0))
  }

  function BlankForm(live: Option<Live>): EventForm {
    EventForm("", "", FormDate(live), "", [])
  }

  /** A blank form opens at the latest event's date, or at noon of day 1/1/1 on an empty timeline. */
  lemma BlankFormDate(live: Option<Live>)
    ensures live.Some? && |live.value.data.events| > 0 ==> BlankForm(live).date == CurrentDate(live)
    ensures live.None? || |live.value.data.events| == 0 ==> BlankForm(live).date == Time(1, 1, 1, Some(12), Some(0))
    ensures BlankForm(live).characters == [] && BlankForm(live).name == ""
  {
    if live.Some? {
      assert |multiset(SortedEvents(live))| == |live.value.data.events|;
    }
  }

  /** The form `openEdit` fills from an event. */
  function EditForm(e: Event): EventForm {
    EventForm(e.name, e.description, e.date, e.locationId, e.characters)
  }

  function EventWithId(id: Id): Event -> bool {
    (e: Event) => e.id == id
  }

  /** Saving the form `openEdit` filled, under the event's own id, gives the event back without its metadata. */
  lemma EditFormRoundTrip(e: Event)
    ensures NewEvent(EditForm(e), e.id) == e.(metadata := None)
  {
  }

  function PatchOf(form: EventForm): EventPatch {
    EventPatch(Some(form.name), Some(form.description), Some(form.date), Some(form.locationId), Some(form.characters))
  }

  /** The event `saveEvent` adds when no event is selected. */
  function NewEvent(form: EventForm, id: Id): Event {
    Event(id, form.name, form.description, form.locationId, form.date, form.characters, None)
  }

  /** The document after `saveEvent` with a named form and an open project. */
  function Saved(live: Live, absent: AbsentMembers, selected: Option<Id>, form: EventForm, newId: Id): Live {
    if Present(selected) then absent.updateEvent(live, selected.value, PatchOf(form))
    else Live(live.data.(events := SortBy(live.data.events + [NewEvent(form, newId)], DayLe)), true)
  }

  /**
   * Saving an unselected form adds exactly one event, the form's, keeps the other
   * events and leaves the list sorted by (year, month, day).
   */
  lemma SaveAddsEvent(live: Live, absent: AbsentMembers, selected: Option<Id>, form: EventForm, newId: Id)
    requires !Present(selected)
    ensures var after := Saved(live, absent, selected, form, newId).data.events;
            && multiset(after) == multiset(live.data.events) + multiset{NewEvent(form, newId)}
            && SortedBy(after, DayLe)
    ensures Saved(live, absent, selected, form, newId).changesUnsaved
  {
    AddedEventsSorted(live.data.events, NewEvent(form, newId));
  }

  class TimelineController {
    const projects: ProjectStore
    var view: Screen
    var selectedEventId: Option<Id>
    var formData: EventForm

    constructor (projects: ProjectStore)
      ensures this.projects == projects && view == ListScreen && selectedEventId == None
      ensures formData == EventForm("", "", Time(1, 1, 1, Some(0), Some(0)), "", [])
    {
      this.projects := projects;
      view := ListScreen;
      selectedEventId := None;
      formData := EventForm("", "", Time(1, 1, 1, Some(0), Some(0)), "", []);
    }

    function Document(): Option<Live>
      reads projects, projects.current
    {
      if projects.current == null then None else Some(projects.current.Current())
    }

    /** `getDateValue`, accumulating the month lengths in a loop. */
    method GetDateValue(date: Time) returns (value: int)
      ensures value == DateValue(Document(), date)
    {
      if projects.current == null {
        return 0;
      }
      var months := projects.current.data.calendar.months;
      var daysInYear := DaysInYear(Document());
      var totalDays := (date.year - 1) * daysInYear;
      var bound := date.month - 1;
      var i := 0;
      while i < bound
        invariant 0 <= i && (0 <= bound ==> i <= bound) && (bound < 0 ==> i == 0)
        invariant totalDays == (date.year - 1) * daysInYear + SumDays(months[..if i < |months| then i else |months|])
      {
        if i < |months| {
          assert months[..i + 1][..i] == months[..i];
          totalDays := totalDays + months[i].days;
        }
        i := i + 1;
      }
      assert (if i < |months| then i else |months|) == MonthsCounted(months, date.month);
      totalDays := totalDays + date.day;
      value := totalDays * MINUTES_PER_DAY + date.hour.GetOr(0) * 60 + date.minute.GetOr(0);
    }

    method ToggleCharacterInForm(charId: Id)
      modifies this
      ensures formData == old(formData).(characters := Toggled(old(formData.characters), charId))
      ensures view == old(view) && selectedEventId == old(selectedEventId)
    {
      var index := IndexOf(formData.characters, charId);
      if index == -1 {
        formData := formData.(characters := formData.characters + [charId]);
      } else {
        formData := formData.(characters := formData.characters[..index] + formData.characters[index + 1..]);
      }
    }

    method ResetForm()
      modifies this
      ensures selectedEventId == None && formData == BlankForm(Document()) && view == old(view)
    {
      selectedEventId := None;
      var lastDate := if |SortedEvents(Document())| > 0 then CurrentDate(Document()) else Time(1, 1, 1, Some(12), Some(0));
      formData := EventForm("", "", lastDate, "", []);
    }

    method OpenCreate()
      modifies this
      ensures selectedEventId == None && formData == BlankForm(Document()) && view == FormScreen
    {
      ResetForm();
      view := FormScreen;
    }

    /** `openEdit`; `navigateTo` is the tab passed to `ui:navigate` afterwards, if any. */
    method OpenEdit(id: Id) returns (navigateTo: Option<string>)
      modifies this
      ensures var found := if old(Document()).None? then None else Find(old(Document()).value.data.events, EventWithId(id));
              && (found.None? ==> view == old(view) && selectedEventId == old(selectedEventId) && formData == old(formData) && navigateTo == None)
              && (found.Some? ==> view == FormScreen && selectedEventId == Some(found.value.id)
                                  && formData == EditForm(found.value) && navigateTo == Some("timeline"))
    {
      if projects.current == null {
        return None;
      }
      var event := Find(projects.current.data.events, EventWithId(id));
      if event.None? {
        return None;
      }
      selectedEventId := Some(event.value.id);
      formData := EditForm(event.value);
      view := FormScreen;
      navigateTo := Some("timeline");
    }

    /** `saveEvent`; `newId` stands for the id `addEvent` draws. */
    method SaveEvent(newId: Id)
      modifies this, projects.current
      ensures old(Document()).None? || old(formData.name) == "" ==>
                view == old(view) && selectedEventId == old(selectedEventId) && formData == old(formData) && Document() == old(Document())
      ensures old(Document()).Some? && old(formData.name) != "" ==>
                && Document() == Some(Saved(old(Document()).value, projects.current.absent, old(selectedEventId), old(formData), newId))
                && view == ListScreen && selectedEventId == None && formData == BlankForm(Document())
    {
      if projects.current == null || formData.name == "" {
        return;
      }
      var newEventData := formData;
      if Present(selectedEventId) {
        projects.current.UpdateEvent(selectedEventId.value, PatchOf(newEventData));
      } else {
        projects.current.AddEvent(newEventData.name, newEventData.description, newEventData.locationId,
                                  newEventData.date, newEventData.characters, newId);
      }
      view := ListScreen;
      ResetForm();
    }

    /** `deleteEvent`; `confirmed` is the answer to the confirmation dialog. */
    method DeleteEvent(confirmed: bool)
      modifies this, projects.current
      ensures !Present(old(selectedEventId)) || old(Document()).None? || !confirmed ==>
                view == old(view) && selectedEventId == old(selectedEventId) && formData == old(formData) && Document() == old(Document())
      ensures Present(old(selectedEventId)) && old(Document()).Some? && confirmed ==>
                && Document() == Some(projects.current.absent.removeEvent(old(Document()).value, old(selectedEventId).value))
                && view == ListScreen && selectedEventId == None && formData == BlankForm(Document())
    {
      if !Present(selectedEventId) || projects.current == null {
        return;
      }
      if confirmed {
        projects.current.RemoveEvent(selectedEventId.value);
        view := ListScreen;
        ResetForm();
      }
    }

    method CancelForm()
      modifies this
      ensures view == ListScreen && selectedEventId == None && formData == BlankForm(Document())
    {
      view := ListScreen;
      ResetForm();
    }
  }
}
