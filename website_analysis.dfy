/** The pure parts of analyze_websites.py around the network request: the
    guard on the URL cell, the 'https://' prefixing, the rendering of a
    detection into the 'Technologies' text, the classification of request
    errors into the 'Status' text, and the conversion of the gathered
    per-URL results into the two new columns. The request itself and the
    fingerprinting are an opaque function from the prefixed URL to an
    outcome. */
module WebsiteAnalysis {
  import opened Sheet
  import opened Text
  import opened TechList
  import LeadPriority

  /** One row of the two new columns: ('Technologies', 'Status'). */
  datatype Row = Row(technologies: string, status: string)

  /** What the request and the fingerprinting of one URL end in. */
  datatype FetchOutcome =
    | Detected(names: set<string>)
      // the names the detector found in the page
    | ClientFailed(typeName: string, httpStatus: Option<int>, message: string)
      // an aiohttp.ClientError or asyncio.TimeoutError: the exception's type
      // name, its HTTP status if it has one, and str(e)
    | OtherFailed(typeName: string)
      // any other Exception raised inside the try block

  /** Whether loading the detector's fingerprints (which happens outside the
      try block) succeeds, or raises an exception with the given message. */
  datatype Setup = Loaded | LoadFailed(message: string)

  /** One entry of `asyncio.gather(..., return_exceptions=True)`: the tuple
      a coroutine returned, or the exception that escaped it. */
  datatype Gathered = Returned(row: Row) | Raised(message: string)

  const Sentinel: string := "N/A"
  const InvalidUrlStatus: string := "Missing or invalid URL"
  const SuccessStatus: string := "Success"
  const ForbiddenStatus: string := "Error: Forbidden (403)"
  const TimeoutStatus: string := "Error: Connection Timeout"
  const UnexpectedPrefix: string := "An unexpected error occurred: "

  /** `not isinstance(url, str) or not url.strip()`. */
  predicate InvalidUrl(url: Cell) {
    url.NonText? || Strip(url.value) == []
  }

  /** A blank URL is exactly one made of whitespace only. */
  lemma InvalidUrlIffBlank(url: Cell)
    ensures InvalidUrl(url) <==> url.NonText? || AllSpace(url.value)
  {
    if url.Text? {
      StripKeeps(url.value);
      StripEmptyIffSpace(url.value);
    }
  }

  /** The URL actually requested: 'https://' is put in front of a URL that
      starts with neither 'http://' nor 'https://' (case-sensitively). */
  function NormalizeUrl(url: string): (r: string)
    ensures StartsWith(r, "http://") || StartsWith(r, "https://")
    ensures StartsWith(url, "http://") || StartsWith(url, "https://") ==> r == url
    ensures !(StartsWith(url, "http://") || StartsWith(url, "https://")) ==> r == "https://" + url
  {
    if !StartsWith(url, "http://") && !StartsWith(url, "https://") then
      assert StartsWith("https://" + url, "https://") by {
        assert ("https://" + url)[..8] == "https://";
      }
      "https://" + url
    else
      url
  }

  /** Prefixing twice is prefixing once, and the given URL is always the
      tail of the requested one. */
  lemma NormalizeUrlIdempotent(url: string)
    ensures NormalizeUrl(NormalizeUrl(url)) == NormalizeUrl(url)
    ensures exists p :: p in {"", "https://"} && NormalizeUrl(url) == p + url
  {
    if NormalizeUrl(url) == url {
      assert NormalizeUrl(url) == "" + url;
    }
  }

  /** `', '.join(sorted(technologies)) if technologies else 'N/A'`. */
  function Render(names: set<string>): string {
    if names == {} then Sentinel else Join(SortedStrings(names), ", ")
  }

  /** The rendered text is the sentinel exactly when nothing was detected,
      or when the only detected name is itself "N/A". */
  lemma RenderIsSentinel(names: set<string>)
    ensures Render(names) == Sentinel <==> names == {} || names == {Sentinel}
  {
    if names != {} {
      var sorted := SortedStrings(names);
      if |sorted| == 1 {
        assert sorted[0] in names;
        assert names == {sorted[0]} by {
          forall x | x in names ensures x == sorted[0] {
            assert x in sorted;
          }
        }
      } else {
        var tail := Join(sorted[1..], ", ");
        assert Join(sorted, ", ") == sorted[0] + ", " + tail;
        assert Join(sorted, ", ")[|sorted[0]|] == ',';
        assert ',' !in Sentinel;
        assert |names| >= 2;
        assert names != {Sentinel};
      }
    }
  }

  /** Round trip with the scorer's parser: the names of a non-empty
      detection of plain names are read back from the rendered text. */
  lemma RenderRoundTrip(names: set<string>)
    requires names != {}
    requires forall n :: n in names ==> PlainName(n)
    ensures TechNames(Render(names)) == names
  {
    var sorted := SortedStrings(names);
    assert forall i :: 0 <= i < |sorted| ==> sorted[i] in names;
    TechNamesOfJoined(sorted);
    assert (set n | n in sorted) == names;
  }

  /** The rendered names come out in ascending order, each once. */
  lemma RenderSorted(names: set<string>)
    requires names != {}
    ensures Render(names) == Join(SortedStrings(names), ", ")
    ensures Increasing(SortedStrings(names))
  {
  }

  /** The status of a client or timeout error. A 403 status wins over a
      message that mentions "Timeout"; any other such error is reported by
      its type name. */
  function ClientErrorStatus(typeName: string, httpStatus: Option<int>, message: string): (s: string)
    ensures httpStatus == Some(403) ==> s == ForbiddenStatus
    ensures httpStatus != Some(403) && Contains(message, "Timeout") ==> s == TimeoutStatus
    ensures httpStatus != Some(403) && !Contains(message, "Timeout") ==> s == "Error: " + typeName
  {
    var status := "Error: " + typeName;
    if httpStatus == Some(403) then ForbiddenStatus
    else if Contains(message, "Timeout") then TimeoutStatus
    else status
  }

  /** A Python identifier-like type name: letters, digits and '_'. */
  predicate TypeName(s: string) {
    s != [] && forall i :: 0 <= i < |s| ==> ('a' <= s[i] <= 'z' || 'A' <= s[i] <= 'Z' || '0' <= s[i] <= '9' || s[i] == '_')
  }

  /** For a real exception type name, the status tells the three cases
      apart: it is the 403 text exactly for a 403, and the timeout text
      exactly for a non-403 error whose message mentions "Timeout". */
  lemma ClientErrorStatusDistinct(typeName: string, httpStatus: Option<int>, message: string)
    requires TypeName(typeName)
    ensures ClientErrorStatus(typeName, httpStatus, message) == ForbiddenStatus <==> httpStatus == Some(403)
    ensures ClientErrorStatus(typeName, httpStatus, message) == TimeoutStatus
      <==> httpStatus != Some(403) && Contains(message, "Timeout")
  {
    var plain := "Error: " + typeName;
    if |typeName| == 15 {
      assert plain[16] == typeName[9] != ' ';
      assert ForbiddenStatus[16] == ' ';
    }
    if |typeName| == 18 {
      assert plain[17] == typeName[10] != ' ';
      assert TimeoutStatus[17] == ' ';
    }
  }

  /** Every client-error status starts with "Error: ". */
  lemma ClientErrorStatusPrefix(typeName: string, httpStatus: Option<int>, message: string)
    ensures StartsWith(ClientErrorStatus(typeName, httpStatus, message), "Error: ")
  {
  }

  /** `analyze_website_tech_async` for one URL cell. */
  function AnalyzeWebsite(url: Cell, setup: Setup, fetch: string -> FetchOutcome): (g: Gathered)
    ensures InvalidUrl(url) ==> g == Returned(Row(Sentinel, InvalidUrlStatus))
    ensures !InvalidUrl(url) && setup.LoadFailed? ==> g == Raised(setup.message)
    ensures !InvalidUrl(url) && setup == Loaded && fetch(NormalizeUrl(url.value)).Detected? ==>
      g == Returned(Row(Render(fetch(NormalizeUrl(url.value)).names), SuccessStatus))
    ensures !InvalidUrl(url) && setup == Loaded && fetch(NormalizeUrl(url.value)).ClientFailed? ==>
      var f := fetch(NormalizeUrl(url.value));
      g == Returned(Row(Sentinel, ClientErrorStatus(f.typeName, f.httpStatus, f.message)))
    ensures !InvalidUrl(url) && setup == Loaded && fetch(NormalizeUrl(url.value)).OtherFailed? ==>
      g == Returned(Row(Sentinel, UnexpectedPrefix + fetch(NormalizeUrl(url.value)).typeName))
    ensures g.Returned? && g.row.status != SuccessStatus ==> g.row.technologies == Sentinel
  {
    if InvalidUrl(url) then
      Returned(Row(Sentinel, InvalidUrlStatus))
    else if setup.LoadFailed? then
      Raised(setup.message)
    else
      match fetch(NormalizeUrl(url.value))
      case Detected(names) => Returned(Row(Render(names), SuccessStatus))
      case ClientFailed(typeName, httpStatus, message) =>
        Returned(Row(Sentinel, ClientErrorStatus(typeName, httpStatus, message)))
      case OtherFailed(typeName) =>
        Returned(Row(Sentinel, UnexpectedPrefix + typeName))
  }

  /** Only the prefixed URL is requested: two fetchers that agree on it give
      the same result, and an invalid URL gives the same result whatever
      the fetcher and the setup. */
  lemma AnalyzeWebsiteRequestsNormalizedUrl(url: Cell, setup: Setup, f1: string -> FetchOutcome, f2: string -> FetchOutcome)
    requires url.Text? ==> f1(NormalizeUrl(url.value)) == f2(NormalizeUrl(url.value))
    ensures AnalyzeWebsite(url, setup, f1) == AnalyzeWebsite(url, setup, f2)
    ensures InvalidUrl(url) ==> AnalyzeWebsite(url, setup, f1) == AnalyzeWebsite(url, Loaded, f2)
  {
  }

  /** A successful analysis reports the detected names, read back intact by
      the scorer's parser. */
  lemma AnalyzeWebsiteSuccess(url: Cell, fetch: string -> FetchOutcome)
    requires !InvalidUrl(url)
    requires fetch(NormalizeUrl(url.value)).Detected?
    requires fetch(NormalizeUrl(url.value)).names != {}
    requires forall n :: n in fetch(NormalizeUrl(url.value)).names ==> PlainName(n)
    ensures AnalyzeWebsite(url, Loaded, fetch).Returned?
    ensures AnalyzeWebsite(url, Loaded, fetch).row.status == SuccessStatus
    ensures TechNames(AnalyzeWebsite(url, Loaded, fetch).row.technologies) == fetch(NormalizeUrl(url.value)).names
  {
    RenderRoundTrip(fetch(NormalizeUrl(url.value)).names);
  }

  /** The status of a returned row never reads 'Success' unless the request
      succeeded. */
  lemma AnalyzeWebsiteSuccessOnlyOnDetection(url: Cell, setup: Setup, fetch: string -> FetchOutcome)
    ensures AnalyzeWebsite(url, setup, fetch).Returned? && AnalyzeWebsite(url, setup, fetch).row.status == SuccessStatus
      ==> !InvalidUrl(url) && setup == Loaded && fetch(NormalizeUrl(url.value)).Detected?
  {
    if !InvalidUrl(url) && setup == Loaded {
      match fetch(NormalizeUrl(url.value))
      case Detected(_) =>
      case ClientFailed(typeName, httpStatus, message) =>
        ClientErrorStatusPrefix(typeName, httpStatus, message);
        assert ClientErrorStatus(typeName, httpStatus, message)[0] == 'E';
      case OtherFailed(typeName) =>
        assert (UnexpectedPrefix + typeName)[0] == 'A';
    }
  }

  /** The row written for one gathered entry: an escaped exception becomes
      ('N/A', 'Error: ' + str(exception)), a returned tuple is kept. */
  function FinalRow(g: Gathered): (row: Row)
    ensures g.Raised? ==> row == Row(Sentinel, "Error: " + g.message)
    ensures g.Returned? ==> row == g.row
  {
    match g
    case Raised(message) => Row(Sentinel, "Error: " + message)
    case Returned(row) => row
  }

  /** The loop of `main` that builds `final_results`, then the two column
      projections `[res[0] ...]` and `[res[1] ...]`. */
  method AggregateResults(results: seq<Gathered>) returns (technologies: seq<string>, statuses: seq<string>)
    ensures |technologies| == |results| && |statuses| == |results|
    ensures forall i :: 0 <= i < |results| ==>
      Row(technologies[i], statuses[i]) == FinalRow(results[i])
  {
    var finalResults: seq<Row> := [];
    for i := 0 to |results|
      invariant |finalResults| == i
      invariant forall k :: 0 <= k < i ==> finalResults[k] == FinalRow(results[k])
    {
      var res := results[i];
      if res.Raised? {
        finalResults := finalResults + [Row(Sentinel, "Error: " + res.message)];
      } else {
        finalResults := finalResults + [res.row];
      }
    }
    technologies := seq(|finalResults|, k requires 0 <= k < |finalResults| => finalResults[k].technologies);
    statuses := seq(|finalResults|, k requires 0 <= k < |finalResults| => finalResults[k].status);
  }

  /** The analyzer's whole column: every URL analyzed with the same setup
      and fetcher, in order. */
  function AnalyzeColumn(urls: seq<Cell>, setup: Setup, fetch: string -> FetchOutcome): (results: seq<Gathered>)
    ensures |results| == |urls|
    ensures forall i :: 0 <= i < |urls| ==> results[i] == AnalyzeWebsite(urls[i], setup, fetch)
  {
    seq(|urls|, i requires 0 <= i < |urls| => AnalyzeWebsite(urls[i], setup, fetch))
  }

  /** Every row the analyzer did not mark 'Success' carries 'N/A', so the
      scorer labels it a lead to call. */
  lemma FailedRowsAreHighPriority(url: Cell, setup: Setup, fetch: string -> FetchOutcome)
    requires FinalRow(AnalyzeWebsite(url, setup, fetch)).status != SuccessStatus
    ensures FinalRow(AnalyzeWebsite(url, setup, fetch)).technologies == Sentinel
    ensures LeadPriority.LeadPriority(Text(FinalRow(AnalyzeWebsite(url, setup, fetch)).technologies))
      == LeadPriority.High
  {
  }

  /** The same over whole columns, from URLs to priorities: every row of
      the written columns whose status is not 'Success' is a high-priority
      lead, and so is every successful row that detected nothing. */
  lemma FailedColumnRowsAreHighPriority(urls: seq<Cell>, setup: Setup, fetch: string -> FetchOutcome,
                                        technologies: seq<string>, statuses: seq<string>)
    requires |technologies| == |urls| && |statuses| == |urls|
    requires forall i :: 0 <= i < |urls| ==>
      Row(technologies[i], statuses[i]) == FinalRow(AnalyzeColumn(urls, setup, fetch)[i])
    ensures forall i :: 0 <= i < |urls| && statuses[i] != SuccessStatus ==>
      LeadPriority.LeadPriority(Text(technologies[i])) == LeadPriority.High
    ensures forall i ::
      (0 <= i < |urls| && !InvalidUrl(urls[i]) && setup == Loaded
       && fetch(NormalizeUrl(urls[i].value)) == Detected({})) ==>
      LeadPriority.LeadPriority(Text(technologies[i])) == LeadPriority.High
  {
    var results := AnalyzeColumn(urls, setup, fetch);
    forall i | 0 <= i < |urls| && statuses[i] != SuccessStatus
      ensures LeadPriority.LeadPriority(Text(technologies[i])) == LeadPriority.High
    {
      FailedRowsAreHighPriority(urls[i], setup, fetch);
    }
  }
}
