/**
 * The statistics panel of the index page (`IndexPage`): nine counter cells
 * and an error notice, driven by the `stats` and `error` state.  The outcome
 * of the one request to the aggregate endpoint is a parameter.
 */
module StatsPanel {
  import opened Wrappers
  import opened Decimal

  /**
   * A JavaScript value held in `stats`: a falsy one (null, undefined, 0, "",
   * false), an array (such as the initial `[]`, truthy but without counter
   * fields) or an object with some numeric fields.
   */
  datatype Stats = Falsy | List | Object(fields: map<string, int>)

  /** `useState([])` */
  const INITIAL_STATS := List

  /** The fields the panel shows, in order. */
  const COUNTERS: seq<string> := [
    "tests", "testsPerOneMillion", "cases", "casesPerOneMillion",
    "deaths", "deathsPerOneMillion", "active", "critical", "recovered"]

  /** The caption after each cell. */
  const LABELS: seq<string> := [
    "Total Tests", "Per 1 Million", "Total Cases", "Per 1 Million",
    "Total Deaths", "Per 1 Million", "Active", "Critical", "Recovered"]

  /** `stats?.field`: absent on an array and on an object without the field. */
  function Field(stats: Stats, field: string): Option<int> {
    match stats
    case Object(fields) => if field in fields then Some(fields[field]) else None
    case _ => None
  }

  /** What a cell's expression `stats ? stats?.field : "-"` selects. */
  datatype Shown = Placeholder | Counter(value: Option<int>)

  function Cell(stats: Stats, field: string): Shown {
    if stats.Falsy? then Placeholder else Counter(Field(stats, field))
  }

  /** The text React renders for a cell: "-", nothing for undefined, or the number. */
  function Render(shown: Shown): string {
    match shown
    case Placeholder => "-"
    case Counter(None) => ""
    case Counter(Some(n)) => IntToString(n)
  }

  datatype Row = Row(text: string, caption: string)

  /** The nine cells of the panel. */
  function Panel(stats: Stats): seq<Row> {
    seq(|COUNTERS|, i requires 0 <= i < |COUNTERS| => Row(Render(Cell(stats, COUNTERS[i])), LABELS[i]))
  }

  /** `{error && <p>{error}</p>}`: the notice, if any. */
  function Notice(error: string): Option<string> {
    if error != "" then Some(error) else None
  }

  /** The page's `stats` and `error` state. */
  datatype PageState = PageState(stats: Stats, error: string)

  const INITIAL_PAGE := PageState(INITIAL_STATS, "")

  /**
   * The state once the request has settled: None while it is pending (or
   * never answers), `Ok` with the response's `data`, or `Err` with the
   * error's `message`.
   */
  function AfterFetch(fetch: Option<Result<Stats, string>>): PageState {
    match fetch
    case None => INITIAL_PAGE
    case Some(Ok(data)) => PageState(data, INITIAL_PAGE.error)
    case Some(Err(message)) => PageState(INITIAL_PAGE.stats, message)
  }

  /**
   * A cell's text is "-" exactly when the whole `stats` value is falsy;
   * otherwise it is the field's numeral, or nothing when the field is absent,
   * so a missing field never shows "-".
   */
  lemma CellText(stats: Stats, field: string)
    ensures Render(Cell(stats, field)) == "-" <==> stats.Falsy?
    ensures !stats.Falsy? && Field(stats, field).None? ==> Render(Cell(stats, field)) == ""
    ensures !stats.Falsy? && Field(stats, field).Some? ==>
      ParseInt(Render(Cell(stats, field))) == Field(stats, field)
  {
    match Field(stats, field)
    case None =>
    case Some(n) =>
      IntToStringRoundTrip(n);
  }

  /**
   * The panel has its nine captioned cells; cell i shows the counter
   * COUNTERS[i]: "-" exactly when `stats` is falsy, and otherwise a numeral
   * that reads back as that field's value when the field is present.
   */
  lemma PanelCells(stats: Stats)
    ensures |Panel(stats)| == 9
    ensures forall i :: 0 <= i < 9 ==> Panel(stats)[i].caption == LABELS[i]
    ensures forall i :: 0 <= i < 9 ==> Panel(stats)[i].text == Render(Cell(stats, COUNTERS[i]))
    ensures forall i :: 0 <= i < 9 ==> (Panel(stats)[i].text == "-" <==> stats.Falsy?)
    ensures forall i :: 0 <= i < 9 && !stats.Falsy? && Field(stats, COUNTERS[i]).Some? ==>
      ParseInt(Panel(stats)[i].text) == Field(stats, COUNTERS[i])
  {
    forall i | 0 <= i < 9 {
      CellText(stats, COUNTERS[i]);
    }
  }

  /** The initial `[]` is truthy: before the fetch settles every cell is empty, none is "-". */
  lemma InitialPanelEmpty()
    ensures forall i :: 0 <= i < |Panel(INITIAL_STATS)| ==> Panel(INITIAL_STATS)[i].text == ""
  {
  }

  /** The notice appears exactly when the error string is non-empty, and it shows that string. */
  lemma NoticeIff(error: string)
    ensures Notice(error).Some? <==> error != ""
    ensures Notice(error).Some? ==> Notice(error).value == error
  {
  }

  /**
   * Outcomes of the request.  On success the notice stays hidden and the
   * cells show the data; on failure the notice shows the error's message when
   * it is non-empty and the cells stay empty, never "-"; while pending the
   * page is in its initial state.
   */
  lemma FetchOutcome(fetch: Option<Result<Stats, string>>)
    ensures fetch.None? ==> AfterFetch(fetch) == INITIAL_PAGE && Notice(AfterFetch(fetch).error).None?
    ensures fetch.Some? && fetch.value.Ok? ==>
      AfterFetch(fetch).stats == fetch.value.value && Notice(AfterFetch(fetch).error).None?
    ensures fetch.Some? && fetch.value.Err? ==>
      && Notice(AfterFetch(fetch).error) == (if fetch.value.error != "" then Some(fetch.value.error) else None)
      && forall i :: 0 <= i < |Panel(AfterFetch(fetch).stats)| ==> Panel(AfterFetch(fetch).stats)[i].text == ""
  {
  }

  /** For example, `{cases: 500}` leaves "Total Tests" empty and shows "500" for "Total Cases". */
  lemma PartialStatsExample()
    ensures Panel(Object(map["cases" := 500]))[0] == Row("", "Total Tests")
    ensures Panel(Object(map["cases" := 500]))[2] == Row("500", "Total Cases")
  {
  }
}
