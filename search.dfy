/**
 * The web search adapter: the configuration check and the shaping of a
 * search service's answer into at most three results or a message, and the
 * formatting of that outcome for the user. The HTTP exchange itself is a
 * parameter: `server` maps the query parameters to the service's answer.
 */
module Search {
  import opened Wrappers
  import opened Strings
  import opened Sequences

  datatype SearchResult = SearchResult(title: string, link: string, snippet: string)

  /** What `searchGoogle` returns: results, or a message for the user. */
  datatype SearchOutcome = Results(results: seq<SearchResult>) | Message(text: string)

  /** One element of the service's `items`; fields other than these three are `other`. */
  datatype Item = Item(title: string, link: string, snippet: string, other: map<string, string>)

  /** The query parameters `key`, `cx` and `q` of the request. */
  datatype Query = Query(key: string, cx: string, q: string)

  /** The service's answer: no answer at all, or a status and a body that may not decode. */
  datatype Body = Undecodable | Decoded(items: Option<seq<Item>>)
  datatype Response = FetchFailed | Answer(ok: bool, body: Body)

  const ApiKey: string := "YOUR_GOOGLE_API_KEY"
  const SearchEngineId: string := "YOUR_SEARCH_ENGINE_ID"

  const DemoMessage: string := "I need a valid Google API key and Search Engine ID to search the web. This is a demo version."
  const ErrorMessage: string :=
    "I encountered an error while searching for information. This may be due to API limits or configuration issues."

  function NotFoundMessage(query: string): string {
    "I couldn't find any information about \"" + query + "\"."
  }

  /** A key or engine id that is missing or still the shipped placeholder. */
  predicate IsUnconfigured(key: string, cx: string) {
    key == "" || key == ApiKey || cx == "" || cx == SearchEngineId
  }

  /** The first three items (or all, if fewer), keeping title, link and snippet. */
  function TopResults(items: seq<Item>): (r: seq<SearchResult>)
    ensures |r| == if |items| < 3 then |items| else 3
    ensures forall i :: 0 <= i < |r| ==>
      r[i] == SearchResult(items[i].title, items[i].link, items[i].snippet)
  {
    var n := if |items| < 3 then |items| else 3;
    seq(n, i requires 0 <= i < n => SearchResult(items[i].title, items[i].link, items[i].snippet))
  }

  /**
   * `searchGoogle(query)` with credentials `key` and `cx`. Unconfigured, it
   * answers the demo message and asks the server nothing. A failed request, a
   * non-ok status or an undecodable body give the error message; an answer
   * with no items gives the not-found message; otherwise the first three items.
   */
  function SearchWith(key: string, cx: string, query: string, server: Query -> Response): (r: SearchOutcome)
    ensures IsUnconfigured(key, cx) ==> r == Message(DemoMessage)
    ensures !IsUnconfigured(key, cx) ==>
      match server(Query(key, cx, query))
      case Answer(true, Decoded(Some(items))) =>
        if items == [] then r == Message(NotFoundMessage(query)) else r == Results(TopResults(items))
      case Answer(true, Decoded(None)) => r == Message(NotFoundMessage(query))
      case _ => r == Message(ErrorMessage)
    ensures r.Results? ==> 1 <= |r.results| <= 3
  {
    if IsUnconfigured(key, cx) then Message(DemoMessage)
    else match server(Query(key, cx, query))
      case FetchFailed => Message(ErrorMessage)
      case Answer(ok, body) =>
        if !ok then Message(ErrorMessage)
        else match body
          case Undecodable => Message(ErrorMessage)
          case Decoded(items) =>
            if items.None? || |items.value| == 0 then Message(NotFoundMessage(query))
            else Results(TopResults(items.value))
  }

  /** `searchGoogle` as shipped, with the placeholder credentials. */
  function SearchGoogle(query: string, server: Query -> Response): (r: SearchOutcome)
    ensures r == Message(DemoMessage)
  {
    SearchWith(ApiKey, SearchEngineId, query, server)
  }

  /** Unconfigured, the outcome does not depend on the server: no question is put to it. */
  lemma UnconfiguredAsksNothing(key: string, cx: string, query: string, s1: Query -> Response, s2: Query -> Response)
    requires IsUnconfigured(key, cx)
    ensures SearchWith(key, cx, query, s1) == SearchWith(key, cx, query, s2)
  {
  }

  // ---------------------------------------------------------------------------
  // Formatting

  const Header: string := "Based on web search results:\n\n"
  const Note: string :=
    "Note: This information was compiled from search results and may not be complete or entirely accurate."

  /** The entry for the result at 0-based position `i`. */
  function Entry(i: nat, r: SearchResult): string {
    NatToString(i + 1) + ". " + r.title + "\n" + r.snippet + "\n\n"
  }

  /** The entries of all results, in order. */
  function Entries(rs: seq<SearchResult>): string {
    if rs == [] then "" else Entries(rs[..|rs| - 1]) + Entry(|rs| - 1, rs[|rs| - 1])
  }

  /** The text `formatSearchResults` produces for a list of results. */
  function Formatted(rs: seq<SearchResult>): string {
    Header + Entries(rs) + Note
  }

  /** `formatSearchResults`: a message is passed through, results are rendered entry by entry. */
  method FormatSearchResults(outcome: SearchOutcome) returns (text: string)
    ensures outcome.Message? ==> text == outcome.text
    ensures outcome.Results? ==> text == Formatted(outcome.results)
  {
    if outcome.Message? {
      return outcome.text;
    }
    var rs := outcome.results;
    text := Header;
    var i := 0;
    while i < |rs|
      invariant 0 <= i <= |rs|
      invariant text == Header + Entries(rs[..i])
    {
      EntriesStep(rs, i);
      AppendAssociates(Header, Entries(rs[..i]), Entry(i, rs[i]));
      text := text + Entry(i, rs[i]);
      i := i + 1;
    }
    assert rs[..|rs|] == rs;
    assert text == Header + Entries(rs);
    text := text + Note;
  }

  /** One more result adds its entry at the end. */
  lemma EntriesStep(rs: seq<SearchResult>, i: nat)
    requires i < |rs|
    ensures Entries(rs[..i + 1]) == Entries(rs[..i]) + Entry(i, rs[i])
  {
    assert rs[..i + 1][..i] == rs[..i];
  }

  /** No results format to the header followed by the note. */
  lemma EmptyFormatsToHeaderAndNote()
    ensures Formatted([]) == Header + Note
  {
  }

  /** Links never influence the text: results with equal titles and snippets format alike. */
  lemma {:induction false} LinksAreIgnored(rs: seq<SearchResult>, ss: seq<SearchResult>)
    requires |rs| == |ss|
    requires forall i :: 0 <= i < |rs| ==> rs[i].title == ss[i].title && rs[i].snippet == ss[i].snippet
    ensures Formatted(rs) == Formatted(ss)
  {
    EntriesIgnoreLinks(rs, ss);
  }

  lemma {:induction false} EntriesIgnoreLinks(rs: seq<SearchResult>, ss: seq<SearchResult>)
    requires |rs| == |ss|
    requires forall i :: 0 <= i < |rs| ==> rs[i].title == ss[i].title && rs[i].snippet == ss[i].snippet
    ensures Entries(rs) == Entries(ss)
  {
    if rs != [] {
      EntriesIgnoreLinks(rs[..|rs| - 1], ss[..|ss| - 1]);
    }
  }
}
