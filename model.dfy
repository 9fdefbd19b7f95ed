/**
 * The project document: the record types of a TaleArchitect project and the
 * Gregorian month table. Cross-references (a connection's two locations, an
 * event's location and participants) are ids, never embedded copies.
 */
module Model {
  import opened Wrappers

  type Id = string

  /** A JSON value: what a plugin may store as metadata or pass as command arguments. */
  datatype Json =
    | JNull
    | JBool(b: bool)
    | JNumber(n: real)
    | JString(s: string)
    | JArray(items: seq<Json>)
    | JObject(fields: map<string, Json>)

  /** JavaScript falsiness of a JSON value (NaN is not modelled). */
  predicate Falsy(v: Json) {
    v == JNull || v == JBool(false) || v == JNumber(0.0) || v == JString("")
  }

  /** A JavaScript `string | null` that is truthy: present and not empty. */
  predicate Present(s: Option<string>) {
    s.Some? && s.value != ""
  }

  /**
   * Plugin metadata attached to an entity: absent until a plugin first writes it,
   * then a dictionary keyed by plugin id.
   */
  type Metadata = Option<map<string, Json>>

  /** A point in time; hour and minute may be missing. */
  datatype Time = Time(day: int, month: int, year: int, hour: Option<int>, minute: Option<int>)

  datatype Month = Month(name: string, days: int)

  datatype Calendar = Calendar(months: seq<Month>)

  datatype Coordinates = Coordinates(x: real, y: real)

  /** `image` is null when the character has no picture. */
  datatype Character = Character(
    id: Id, name: string, image: Option<string>, description: string, createdAt: string,
    metadata: Metadata)

  datatype Location = Location(
    id: Id, name: string, description: string, coordinates: Coordinates, metadata: Metadata)

  datatype Connection = Connection(
    id: Id, name: string, description: string, fromLocationId: Id, toLocationId: Id,
    metadata: Metadata)

  datatype Event = Event(
    id: Id, name: string, description: string, locationId: Id, date: Time,
    characters: seq<Id>, metadata: Metadata)

  datatype ProjectData = ProjectData(
    id: Id, name: string, projectdir: string, createdAt: string, lastOpenedAt: string,
    autosave: bool, calendar: Calendar,
    characters: seq<Character>, locations: seq<Location>,
    connections: seq<Connection>, events: seq<Event>)

  /** The live document of an open project with its unsaved-changes flag. */
  datatype Live = Live(data: ProjectData, changesUnsaved: bool)

  const GREGORIAN_MONTHS: seq<Month> := [
    Month("Janeiro", 31), Month("Fevereiro", 28), Month("Março", 31), Month("Abril", 30),
    Month("Maio", 31), Month("Junho", 30), Month("Julho", 31), Month("Agosto", 31),
    Month("Setembro", 30), Month("Outubro", 31), Month("Novembro", 30), Month("Dezembro", 31)
  ]

  /** The number of days in the given months: `months.reduce((acc, m) => acc + m.days, 0)`. */
  function SumDays(months: seq<Month>): int {
    if |months| == 0 then 0 else SumDays(months[..|months| - 1]) + months[|months| - 1].days
  }

  /** Splitting a month list splits its day count. */
  lemma {:induction false} SumDaysAppend(a: seq<Month>, b: seq<Month>)
    ensures SumDays(a + b) == SumDays(a) + SumDays(b)
  {
    if |b| > 0 {
      assert (a + b)[..|a + b| - 1] == a + b[..|b| - 1];
      SumDaysAppend(a, b[..|b| - 1]);
    } else {
      assert a + b == a;
    }
  }

  /** The Gregorian table has twelve months, February has 28 days and the year 365. */
  lemma GregorianYear()
    ensures |GREGORIAN_MONTHS| == 12
    ensures GREGORIAN_MONTHS[1].days == 28
    ensures SumDays(GREGORIAN_MONTHS) == 365
  {
    var g := GREGORIAN_MONTHS;
    var i := 0;
    while i < 12
      invariant 0 <= i <= 12
      invariant SumDays(g[..i]) == [0, 31, 59, 90, 120, 151, 181, 212, 243, 273, 304, 334, 365][i]
    {
      assert g[..i + 1][..i] == g[..i];
      i := i + 1;
    }
    assert g[..12] == g;
  }
}
