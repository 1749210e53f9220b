/**
 * The dashboard's session state: whether a search has completed, the market table,
 * the tag pool and the selected video, and the handlers that change them.
 */
module Session {
  import opened Wrappers
  import opened Metrics
  import opened Market

  /** What the search button reports. */
  datatype Notice =
    | Analyzed
    | FetchFailed(error: Error)
    | YouTubeKeyMissing
    | AiAccountOffline
    | QueryMissing
    | KeysOrQueryMissing

  /** Whether the search button goes on to fetch, or refuses with a message. */
  datatype Gate = Proceed | Refuse(notice: Notice)

  /**
   * The Vertex edition's search button: a key, a query and an AI account are all
   * needed; a missing key is reported first, then an offline AI account, then the
   * missing query. An absent key is the empty string.
   */
  function VertexSearchGate(apiKey: string, query: string, aiEnabled: bool): (g: Gate)
    ensures g.Proceed? <==> apiKey != "" && query != "" && aiEnabled
    ensures apiKey == "" ==> g == Refuse(YouTubeKeyMissing)
    ensures apiKey != "" && !aiEnabled ==> g == Refuse(AiAccountOffline)
    ensures apiKey != "" && aiEnabled && query == "" ==> g == Refuse(QueryMissing)
  {
    if apiKey != "" && query != "" && aiEnabled then Proceed
    else if apiKey == "" then Refuse(YouTubeKeyMissing)
    else if !aiEnabled then Refuse(AiAccountOffline)
    else Refuse(QueryMissing)
  }

  /** The Gemini edition's search button: a key and a query are needed; the AI key is not. */
  function GeminiSearchGate(apiKey: string, query: string): (g: Gate)
    ensures g.Proceed? <==> apiKey != "" && query != ""
    ensures g.Refuse? ==> g.notice == KeysOrQueryMissing
  {
    if apiKey != "" && query != "" then Proceed else Refuse(KeysOrQueryMissing)
  }

  /**
   * What a search produces once the platform calls have answered: their failure,
   * or `get_market_data` on the returned items.
   */
  function SearchOutcome(fetched: Result<seq<RawItem>, Error>, rpm: real, parse: DurationParser): Result<MarketResult, Error> {
    match fetched
    case Failure(e) => Failure(e)
    case Success(items) => MarketData(items, rpm, parse)
  }

  /** `df[df['Video ID'] == id]`'s first row: the position of the first row with that id, if any. */
  function FirstRowWithId(rows: seq<Record>, id: string): (k: Option<nat>)
    ensures k.Some? ==> k.value < |rows| && rows[k.value].videoId == id
    ensures k.Some? ==> forall j :: 0 <= j < k.value ==> rows[j].videoId != id
    ensures k.None? <==> forall j :: 0 <= j < |rows| ==> rows[j].videoId != id
    decreases |rows|
  {
    if |rows| == 0 then None
    else if rows[0].videoId == id then Some(0)
    else
      match FirstRowWithId(rows[1..], id)
      case None => None
      case Some(k) => Some(k + 1)
  }

  class SessionState {
    var searchDone: bool
    var df: Table
    var allTags: seq<string>
    var selectedVideoId: Option<string>

    /** A fresh session: no search yet, an empty table and tag pool, nothing selected. */
    constructor ()
      ensures !searchDone && df == Table([], None) && allTags == [] && selectedVideoId == None
    {
      searchDone := false;
      df := Table([], None);
      allTags := [];
      selectedVideoId := None;
    }

    /** A selected id names some row of the current table. */
    ghost predicate SelectionInTable()
      reads this
    {
      selectedVideoId.Some? ==> exists i :: 0 <= i < |df.rows| && df.rows[i].videoId == selectedVideoId.value
    }

    /** Python truthiness of `selected_video_id`. */
    predicate HasSelection()
      reads this
    {
      selectedVideoId.Some? && selectedVideoId.value != ""
    }

    /**
     * The search button. A refused search or a raising fetch leaves the whole
     * session as it was; a successful one replaces table and tags, marks the
     * search done and clears the selection.
     */
    method AnalyzeMarket(gate: Gate, fetched: Result<seq<RawItem>, Error>, rpm: real, parse: DurationParser)
      returns (notice: Notice)
      modifies this
      ensures gate.Refuse? ==> notice == gate.notice && unchanged(this)
      ensures gate.Proceed? && SearchOutcome(fetched, rpm, parse).Failure? ==>
        notice == FetchFailed(SearchOutcome(fetched, rpm, parse).error) && unchanged(this)
      ensures gate.Proceed? && SearchOutcome(fetched, rpm, parse).Success? ==>
        && notice == Analyzed
        && searchDone
        && df == SearchOutcome(fetched, rpm, parse).value.df
        && allTags == SearchOutcome(fetched, rpm, parse).value.allTags
        && selectedVideoId == None
      ensures old(SelectionInTable()) ==> SelectionInTable()
    {
      if gate.Refuse? {
        return gate.notice;
      }
      if fetched.Failure? {
        return FetchFailed(fetched.error);
      }
      var res := GetMarketData(fetched.value, rpm, parse);
      if res.Failure? {
        return FetchFailed(res.error);
      }
      df, allTags := res.value.df, res.value.allTags;
      searchDone := true;
      selectedVideoId := None;
      notice := Analyzed;
    }

    /**
     * A row click in the results table (shown only after a search): the first
     * selected row's id becomes the selection. The table reports only rows it shows.
     */
    method SelectRow(selection: seq<nat>)
      requires searchDone && selection != [] ==> selection[0] < |df.rows|
      modifies this`selectedVideoId
      ensures searchDone && selection != [] ==> selectedVideoId == Some(df.rows[selection[0]].videoId)
      ensures !(searchDone && selection != []) ==> selectedVideoId == old(selectedVideoId)
      ensures searchDone && selection != [] ==> SelectionInTable()
      ensures old(SelectionInTable()) ==> SelectionInTable()
    {
      if searchDone && selection != [] {
        selectedVideoId := Some(df.rows[selection[0]].videoId);
      }
    }

    /**
     * Loading the selected video's row for the tool tabs. A selection that no row of
     * the table carries is reset to `None` (and the page stops).
     */
    method LoadSelected() returns (row: Option<Record>)
      modifies this`selectedVideoId
      ensures !old(searchDone && HasSelection()) ==> row == None && selectedVideoId == old(selectedVideoId)
      ensures old(searchDone && HasSelection()) ==>
        match FirstRowWithId(df.rows, old(selectedVideoId).value)
        case Some(k) => row == Some(df.rows[k]) && selectedVideoId == old(selectedVideoId)
        case None => row == None && selectedVideoId == None
      ensures row.Some? ==> row.value.videoId == selectedVideoId.value
      ensures old(searchDone && HasSelection()) ==> SelectionInTable()
      ensures old(SelectionInTable()) && old(searchDone && HasSelection()) ==> row.Some?
    {
      row := None;
      if searchDone && HasSelection() {
        var k := FirstRowWithId(df.rows, selectedVideoId.value);
        if k.Some? {
          row := Some(df.rows[k.value]);
        } else {
          selectedVideoId := None;
        }
      }
    }
  }

  /** A client: a row selected after one search is cleared by the next successful search. */
  method SearchClearsSelection(items: seq<RawItem>, rpm: real, parse: DurationParser) returns (selected: Option<string>)
    requires |items| > 0 && forall i :: 0 <= i < |items| ==> "high" in items[i].thumbnails
    ensures selected == None
  {
    var session := new SessionState();
    var notice := session.AnalyzeMarket(Proceed, Success(items), rpm, parse);
    MarketDataRows(items, rpm, parse);
    session.SelectRow([0]);
    assert session.selectedVideoId == Some(items[0].id);
    notice := session.AnalyzeMarket(Proceed, Success(items), rpm, parse);
    selected := session.selectedVideoId;
  }
}
