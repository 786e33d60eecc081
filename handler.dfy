/**
 * The SearXNG search tool handler: it normalises the tool's arguments,
 * builds the form payload for the backend's `/search` endpoint, keeps the
 * first backend result per URL up to the limit, truncates snippets and maps
 * every failure to an error response.
 *
 * The HTTP exchange itself is not modelled: `Execute` returns the request it
 * would send and receives the backend's outcome (its parsed result list or a
 * failure message) as a parameter. The process environment is an explicit map.
 */
module Handler {
  import opened Wrappers
  import opened Text

  const DefaultUrl: string := "http://localhost:8080"
  const DefaultTimeout: string := "10"
  const DefaultLimit: int := 5
  const MinLimit: int := 1
  const MaxLimit: int := 20
  const MaxSnippet: nat := 200
  const Ellipsis: string := "..."
  const MaxError: nat := 200
  const EngineSeparator: string := ", "

  /** The tool's `params` mapping; a key that is absent is `None`. */
  datatype Params = Params(
    query: Option<string>,
    limit: Option<int>,
    categories: Option<string>,
    timeRange: Option<string>)

  /**
   * One entry of the backend's `results` list; a key that is absent is `None`.
   * A null `url` is `None` too, since the scan skips it like an absent one.
   */
  datatype Item = Item(
    url: Option<string>,
    title: Option<string>,
    content: Option<string>,
    engines: Option<seq<string>>)

  /** One result as the tool returns it. */
  datatype SearchResult = SearchResult(title: string, snippet: string, url: string, engine: string)

  /** The tool's return value; `error` is present only when the search failed. */
  datatype Response = Response(results: seq<SearchResult>, count: int, error: Option<string>)

  /** A form field value of the outbound request. */
  datatype FormValue = StrValue(s: string) | IntValue(n: int)

  type Payload = map<string, FormValue>

  /** The POST the handler sends: endpoint, form fields and timeout (as resolved text). */
  datatype Request = Request(endpoint: string, payload: Payload, timeout: string)

  /**
   * What the backend call produced: the `results` list of the JSON body
   * (empty when the body has none), or the text of the exception it raised.
   */
  datatype BackendOutcome = Answered(items: seq<Item>) | Failed(message: string)

  // ── Argument normalisation ─────────────────────────────────────────────

  /**
   * `config.get(key) or os.getenv(key, default)`: a non-empty configured value
   * wins; otherwise the environment's value if the variable is set (even to
   * the empty string); otherwise the default.
   */
  function Setting(config: map<string, string>, env: map<string, string>, key: string, default: string): (r: string)
    ensures key in config && config[key] != "" ==> r == config[key]
    ensures (key !in config || config[key] == "") && key in env ==> r == env[key]
    ensures (key !in config || config[key] == "") && key !in env ==> r == default
  {
    if key in config && config[key] != "" then config[key]
    else if key in env then env[key]
    else default
  }

  function Distance(a: int, b: int): nat
  {
    if a <= b then b - a else a - b
  }

  /**
   * `max(1, min(20, limit))`: the result lies in [1, 20], leaves a value in
   * that range alone and is the point of the range nearest to `limit`.
   */
  function ClampLimit(limit: int): (r: int)
    ensures MinLimit <= r <= MaxLimit
    ensures MinLimit <= limit <= MaxLimit ==> r == limit
    ensures forall v | MinLimit <= v <= MaxLimit :: Distance(limit, r) <= Distance(limit, v)
  {
    var upper := if limit < MaxLimit then limit else MaxLimit;
    if MinLimit > upper then MinLimit else upper
  }

  // ── Outbound payload ───────────────────────────────────────────────────

  /**
   * The payload sent for a search: always `q`, `format = "json"` and
   * `pageno = 1`; `categories` and `time_range` exactly when non-empty;
   * no other field.
   */
  predicate IsPayloadFor(data: Payload, query: string, categories: string, timeRange: string)
  {
    data.Keys == {"q", "format", "pageno"}
                 + (if categories != "" then {"categories"} else {})
                 + (if timeRange != "" then {"time_range"} else {})
    && data["q"] == StrValue(query)
    && data["format"] == StrValue("json")
    && data["pageno"] == IntValue(1)
    && (categories != "" ==> data["categories"] == StrValue(categories))
    && (timeRange != "" ==> data["time_range"] == StrValue(timeRange))
  }

  method BuildPayload(query: string, categories: string, timeRange: string) returns (data: Payload)
    ensures IsPayloadFor(data, query, categories, timeRange)
  {
    data := map["q" := StrValue(query), "format" := StrValue("json"), "pageno" := IntValue(1)];
    if categories != "" {
      data := data["categories" := StrValue(categories)];
    }
    if timeRange != "" {
      data := data["time_range" := StrValue(timeRange)];
    }
  }

  // ── Mapping backend items ──────────────────────────────────────────────

  /** `item.get("url", "")`, with a null URL read as empty (both are skipped). */
  function UrlOf(item: Item): string
  {
    item.url.GetOr("")
  }

  /**
   * `", ".join(item.get("engines", ["unknown"]))`: "unknown" when the list is
   * absent, the empty string for an empty list, the single engine for a
   * one-element list, and in general every engine with ", " between them.
   */
  function EngineOf(engines: Option<seq<string>>): (r: string)
    ensures engines.None? ==> r == "unknown"
    ensures engines.Some? && engines.value == [] ==> r == ""
    ensures engines.Some? && |engines.value| == 1 ==> r == engines.value[0]
    ensures engines.Some? && engines.value != [] ==>
      |r| == TotalLength(engines.value) + |EngineSeparator| * (|engines.value| - 1)
      && r[..|engines.value[0]|] == engines.value[0]
  {
    Join(EngineSeparator, engines.GetOr(["unknown"]))
  }

  /** One more engine appends ", " and that engine: the engines in order, separated by ", ". */
  lemma EngineOfSnoc(engines: seq<string>, e: string)
    requires engines != []
    ensures EngineOf(Some(engines + [e])) == EngineOf(Some(engines)) + EngineSeparator + e
  {
    JoinSnoc(EngineSeparator, engines, e);
  }

  /** The record the scan keeps for an item: title and content default to "". */
  function ToSearchResult(item: Item): (r: SearchResult)
    ensures r.url == UrlOf(item)
    ensures r.title == item.title.GetOr("") && r.snippet == item.content.GetOr("")
    ensures r.engine == EngineOf(item.engines)
  {
    SearchResult(item.title.GetOr(""), item.content.GetOr(""), UrlOf(item), EngineOf(item.engines))
  }

  // ── Deduplication: the reference definition and its properties ─────────

  /** The non-empty URLs occurring in `items`. */
  function SeenUrls(items: seq<Item>): set<string>
  {
    set i | 0 <= i < |items| && UrlOf(items[i]) != "" :: UrlOf(items[i])
  }

  /** Whether the last item of `items` is the first one with its (non-empty) URL. */
  predicate KeepsLast(items: seq<Item>)
    requires items != []
  {
    var last := UrlOf(items[|items| - 1]);
    last != "" && last !in SeenUrls(items[..|items| - 1])
  }

  /** Every item with a non-empty URL not seen before it, mapped, in backend order. */
  function Deduplicated(items: seq<Item>): seq<SearchResult>
  {
    if items == [] then []
    else
      Deduplicated(items[..|items| - 1])
      + (if KeepsLast(items) then [ToSearchResult(items[|items| - 1])] else [])
  }

  /** The index in `items` each element of `Deduplicated(items)` comes from. */
  ghost function Origins(items: seq<Item>): seq<nat>
  {
    if items == [] then []
    else Origins(items[..|items| - 1]) + (if KeepsLast(items) then [|items| - 1] else [])
  }

  lemma SeenUrlsSnoc(items: seq<Item>, x: Item)
    ensures SeenUrls(items + [x]) == SeenUrls(items) + (if UrlOf(x) != "" then {UrlOf(x)} else {})
  {
    var s := items + [x];
    forall u | u in SeenUrls(s) ensures u in SeenUrls(items) || (UrlOf(x) != "" && u == UrlOf(x)) {
      var i :| 0 <= i < |s| && UrlOf(s[i]) != "" && UrlOf(s[i]) == u;
      if i < |items| { assert s[i] == items[i]; }
    }
    forall u | u in SeenUrls(items) ensures u in SeenUrls(s) {
      var i :| 0 <= i < |items| && UrlOf(items[i]) != "" && UrlOf(items[i]) == u;
      assert s[i] == items[i];
    }
    if UrlOf(x) != "" {
      assert s[|items|] == x;
    }
  }

  /**
   * The kept URLs are non-empty and pairwise distinct, and they are exactly
   * the non-empty URLs of the input: no URL is lost, none appears twice.
   */
  lemma {:induction false} DeduplicatedUrls(items: seq<Item>)
    ensures forall k | 0 <= k < |Deduplicated(items)| :: Deduplicated(items)[k].url != ""
    ensures forall k, l | 0 <= k < l < |Deduplicated(items)| :: Deduplicated(items)[k].url != Deduplicated(items)[l].url
    ensures (set k | 0 <= k < |Deduplicated(items)| :: Deduplicated(items)[k].url) == SeenUrls(items)
  {
    if items != [] {
      var n := |items| - 1;
      var prefix := items[..n];
      assert items == prefix + [items[n]];
      DeduplicatedUrls(prefix);
      SeenUrlsSnoc(prefix, items[n]);
      var d, dp := Deduplicated(items), Deduplicated(prefix);
      assert forall k | 0 <= k < |dp| :: d[k] == dp[k];
      if KeepsLast(items) {
        assert d[|dp|].url == UrlOf(items[n]);
        forall k | 0 <= k < |dp| ensures dp[k].url != d[|dp|].url {
          assert dp[k].url in (set j | 0 <= j < |dp| :: dp[j].url);
        }
        assert (set k | 0 <= k < |d| :: d[k].url) == (set k | 0 <= k < |dp| :: dp[k].url) + {d[|dp|].url};
      } else {
        assert d == dp;
      }
    }
  }

  /**
   * `Deduplicated(items)` is an order-preserving subsequence of the mapped
   * input: element `k` is the mapped item at index `Origins(items)[k]`, the
   * indices strictly increase, and each is the first index with its URL.
   */
  lemma {:induction false} DeduplicatedOrigins(items: seq<Item>)
    ensures |Origins(items)| == |Deduplicated(items)|
    ensures forall k | 0 <= k < |Origins(items)| ::
      Origins(items)[k] < |items| && Deduplicated(items)[k] == ToSearchResult(items[Origins(items)[k]])
    ensures forall k, l | 0 <= k < l < |Origins(items)| :: Origins(items)[k] < Origins(items)[l]
    ensures forall k, j | 0 <= k < |Origins(items)| && 0 <= j < Origins(items)[k] ::
      UrlOf(items[j]) != UrlOf(items[Origins(items)[k]])
  {
    if items != [] {
      var n := |items| - 1;
      var prefix := items[..n];
      DeduplicatedOrigins(prefix);
      var o, op := Origins(items), Origins(prefix);
      assert forall k | 0 <= k < |op| :: o[k] == op[k] && op[k] < n && prefix[op[k]] == items[op[k]];
      if KeepsLast(items) {
        assert o[|op|] == n;
        forall j | 0 <= j < n ensures UrlOf(items[j]) != UrlOf(items[n]) {
          assert prefix[j] == items[j];
          assert UrlOf(prefix[j]) != "" ==> UrlOf(prefix[j]) in SeenUrls(prefix);
        }
      }
    }
  }

  /** Scanning a longer prefix of the input only appends to what was kept. */
  lemma {:induction false} DeduplicatedPrefix(items: seq<Item>, i: nat)
    requires i <= |items|
    ensures |Deduplicated(items[..i])| <= |Deduplicated(items)|
    ensures Deduplicated(items[..i]) == Deduplicated(items)[..|Deduplicated(items[..i])|]
  {
    if i < |items| {
      var n := |items| - 1;
      assert items[..n][..i] == items[..i];
      DeduplicatedPrefix(items[..n], i);
    } else {
      assert items[..i] == items;
    }
  }

  // ── The scan of handler.py ─────────────────────────────────────────────

  /**
   * Walks the backend items in order, keeps the first item per non-empty
   * URL and stops as soon as `limit` results are kept; with a `limit` below 1
   * the first kept item already stops it. `scanned` is how many items were
   * examined: the scan stops at the item that reached the cap.
   */
  method CollectResults(items: seq<Item>, limit: int) returns (results: seq<SearchResult>, ghost scanned: nat)
    ensures results == Take(Deduplicated(items), if limit < 1 then 1 else limit)
    ensures scanned <= |items| && results == Deduplicated(items[..scanned])
    ensures 0 < scanned ==> |Deduplicated(items[..scanned - 1])| < (if limit < 1 then 1 else limit)
    ensures scanned < |items| ==> |results| == (if limit < 1 then 1 else limit)
  {
    ghost var cap: nat := if limit < 1 then 1 else limit;
    results := [];
    var seen: set<string> := {};
    var i := 0;
    while i < |items|
      invariant 0 <= i <= |items|
      invariant seen == SeenUrls(items[..i])
      invariant results == Deduplicated(items[..i])
      invariant |results| < cap
      invariant 0 < i ==> |Deduplicated(items[..i - 1])| < cap
    {
      var url := UrlOf(items[i]);
      assert items[..i + 1] == items[..i] + [items[i]];
      assert items[..i + 1][..i] == items[..i];
      SeenUrlsSnoc(items[..i], items[i]);
      if url != "" && url !in seen {
        seen := seen + {url};
        results := results + [ToSearchResult(items[i])];
        if |results| >= limit {
          scanned := i + 1;
          DeduplicatedPrefix(items, scanned);
          return;
        }
      }
      i := i + 1;
    }
    scanned := i;
    assert items[..i] == items;
  }

  // ── Formatting and error mapping in execute ────────────────────────────

  /** A snippet of more than 200 characters becomes its first 197 and "..."; 200 exactly. */
  function TruncateSnippet(snippet: string): (r: string)
    ensures |r| <= MaxSnippet
    ensures |snippet| <= MaxSnippet ==> r == snippet
    ensures |snippet| > MaxSnippet ==>
      |r| == MaxSnippet && r[..MaxSnippet - |Ellipsis|] == snippet[..MaxSnippet - |Ellipsis|]
      && r[MaxSnippet - |Ellipsis|..] == Ellipsis
  {
    if |snippet| > MaxSnippet then snippet[..MaxSnippet - |Ellipsis|] + Ellipsis else snippet
  }

  /** The results with every snippet truncated and every other field unchanged. */
  function Formatted(results: seq<SearchResult>): seq<SearchResult>
  {
    seq(|results|, k requires 0 <= k < |results| =>
      results[k].(snippet := TruncateSnippet(results[k].snippet)))
  }

  method FormatResults(results: seq<SearchResult>) returns (formatted: seq<SearchResult>)
    ensures formatted == Formatted(results)
    ensures |formatted| == |results|
    ensures forall k | 0 <= k < |results| ::
      formatted[k].title == results[k].title && formatted[k].url == results[k].url
      && formatted[k].engine == results[k].engine && |formatted[k].snippet| <= MaxSnippet
  {
    formatted := [];
    for i := 0 to |results|
      invariant formatted == Formatted(results[..i])
    {
      assert results[..i + 1][..i] == results[..i];
      var snippet := TruncateSnippet(results[i].snippet);
      formatted := formatted + [SearchResult(results[i].title, snippet, results[i].url, results[i].engine)];
    }
    assert results[..|results|] == results;
  }

  /** `str(e)[:200]`: a prefix of the failure message, at most 200 characters. */
  function ErrorText(message: string): (r: string)
    ensures |r| <= MaxError && r <= message
    ensures |message| <= MaxError ==> r == message
    ensures |message| > MaxError ==> |r| == MaxError
  {
    Take(message, MaxError)
  }

  // ── The tool entry point ───────────────────────────────────────────────

  /**
   * The tool's `execute`. An empty or blank query answers `{results: [], count: 0}`
   * and sends nothing. Otherwise the request carries the stripped query and
   * filters; a failed backend call answers an empty result list with the
   * message's first 200 characters; a successful one answers the first
   * results per URL, at most the clamped limit of them, snippets truncated.
   */
  method Execute(params: Params, config: map<string, string>, env: map<string, string>, backend: BackendOutcome)
    returns (response: Response, request: Option<Request>)
    ensures response.count == |response.results|
    ensures |response.results| <= ClampLimit(params.limit.GetOr(DefaultLimit))
    ensures forall k | 0 <= k < |response.results| ::
      response.results[k].url != "" && |response.results[k].snippet| <= MaxSnippet
    ensures forall k, l | 0 <= k < l < |response.results| ::
      response.results[k].url != response.results[l].url
    ensures Blank(params.query.GetOr("")) ==> response == Response([], 0, None) && request == None
    ensures !Blank(params.query.GetOr("")) ==>
      request.Some?
      && request.value.endpoint == Setting(config, env, "SEARXNG_URL", DefaultUrl) + "/search"
      && request.value.timeout == Setting(config, env, "SEARXNG_TIMEOUT", DefaultTimeout)
      && IsPayloadFor(request.value.payload, Strip(params.query.GetOr("")),
                      Strip(params.categories.GetOr("")), Strip(params.timeRange.GetOr("")))
    ensures !Blank(params.query.GetOr("")) && backend.Failed? ==>
      response == Response([], 0, Some(ErrorText(backend.message)))
    ensures !Blank(params.query.GetOr("")) && backend.Answered? ==>
      response.error == None
      && response.results == Formatted(Take(Deduplicated(backend.items), ClampLimit(params.limit.GetOr(DefaultLimit))))
  {
    var searxngUrl := Setting(config, env, "SEARXNG_URL", DefaultUrl);
    var timeout := Setting(config, env, "SEARXNG_TIMEOUT", DefaultTimeout);

    var query := Strip(params.query.GetOr(""));
    var limit := ClampLimit(params.limit.GetOr(DefaultLimit));
    var categories := Strip(params.categories.GetOr(""));
    var timeRange := Strip(params.timeRange.GetOr(""));

    if query == [] {
      return Response([], 0, None), None;
    }

    var payload := BuildPayload(query, categories, timeRange);
    request := Some(Request(searxngUrl + "/search", payload, timeout));
    match backend
    case Failed(message) =>
      response := Response([], 0, Some(ErrorText(message)));
    case Answered(items) =>
      ghost var scanned;
      var results;
      results, scanned := CollectResults(items, limit);
      DeduplicatedUrls(items);
      var formatted := FormatResults(results);
      response := Response(formatted, |formatted|, None);
  }
}
