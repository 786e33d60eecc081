# SearXNG search tool handler, modelled in Dafny

`handler.py` is a tool handler that forwards a search query to a self-hosted
SearXNG metasearch service and normalises its answer. This project models its
request shaping and result normalisation:

- argument normalisation in `execute`: configuration before environment before
  literal default for `SEARXNG_URL` and `SEARXNG_TIMEOUT`; `query`,
  `categories` and `time_range` stripped with Python's `str.strip()`; `limit`
  defaulting to 5 and clamped to [1, 20]; a blank query answering
  `{results: [], count: 0}` without contacting the backend;
- the form payload `_search_searxng` builds and grows in place;
- the scan over the backend's result list that keeps the first item per
  non-empty URL, maps it to `{title, snippet, url, engine}` and stops once
  `limit` results are kept;
- the formatting loop in `execute` that truncates snippets to 200 characters,
  and the mapping of any failure to `{results: [], count: 0, error: msg[:200]}`.

The HTTP exchange is not modelled. `Handler.Execute` returns the request it
would send (endpoint, payload, timeout text) and takes the backend's outcome as
a parameter: either the parsed `results` list or the text of the exception the
call raised. The process environment is an explicit map. A missing `config`
is the empty map.

Files: `wrappers.dfy` (an `Option` type for absent dictionary keys),
`text.dfy` (Python's `strip`, `join` and `s[:n]`), `handler.dfy` (the handler).
The imperative parts of the source stay imperative: `BuildPayload` reassigns a
map as the source adds keys to its dict, and `CollectResults` and
`FormatResults` are loops proved against the reference functions
`Deduplicated` and `Formatted`.

`handler.py` makes a single POST and has no retry; any exception during the
search becomes the error response. `config.get(K) or os.getenv(K, D)` lets an
environment variable set to the empty string yield the empty string, and
`Handler.Setting` keeps that.

## Model

| member | source | states |
|---|---|---|
| `Handler.Setting` | handler.py:33-36 | a non-empty config value wins; otherwise the environment's value when the variable is set, even when empty; otherwise the literal default |
| `Handler.ClampLimit` | handler.py:39-40 | the limit lies in [1, 20], is unchanged when already in range, and is the point of [1, 20] nearest the given value |
| `Text.Strip` | handler.py:38-42 | the stripped text is the slice of the input between leading and trailing whitespace; everything outside it is whitespace; it is empty exactly when the input is blank |
| `Handler.BuildPayload` | handler.py:80-89 | the payload has `q`, `format = "json"` and `pageno = 1`; it has `categories` and `time_range` exactly when non-empty, with their values; it has no other key |
| `Text.Join` | handler.py:111 | joining the empty list gives ""; otherwise the result starts with the first part and its length is the parts' total length plus one separator between each two parts |
| `Text.JoinSnoc` | handler.py:111 | joining one more part appends the separator and that part |
| `Handler.EngineOf` | handler.py:111 | the engine is "unknown" when `engines` is absent, "" for an empty list, the engine itself for a single engine; for several engines it starts with the first and its length is their total length plus 2 per separator |
| `Handler.EngineOfSnoc` | handler.py:111 | one more engine appends ", " and that engine, so the engine string is the engines in order with ", " between each two |
| `Handler.ToSearchResult` | handler.py:104-112 | a kept item maps to its URL, its title and its `content` as snippet (both defaulting to ""), and its engine string |
| `Handler.DeduplicatedUrls` | handler.py:103-106 | kept URLs are non-empty and pairwise distinct, and the set of kept URLs equals the set of non-empty URLs in the backend list |
| `Handler.DeduplicatedOrigins` | handler.py:103-112 | the kept results are an order-preserving subsequence of the mapped backend items, and each comes from the first item carrying its URL |
| `Handler.DeduplicatedPrefix` | handler.py:103-114 | scanning a prefix of the backend list keeps a prefix of what the whole scan keeps, which is why stopping early yields a prefix |
| `Handler.CollectResults` | handler.py:103-114 | the scan returns the first max(1, limit) first-per-URL results in backend order, and it stops right after the item that reached the limit: every item before the last one examined left the count below the limit |
| `Handler.TruncateSnippet` | handler.py:55-57 | a snippet is at most 200 characters; one of 200 or fewer is unchanged; a longer one is its first 197 characters followed by "...", exactly 200 |
| `Handler.FormatResults` | handler.py:53-63 | formatting keeps the number and order of results and every title, URL and engine, and bounds every snippet by 200 characters |
| `Handler.ErrorText` | handler.py:47-51 | the error text is a prefix of the failure message, at most 200 characters, the whole message when it is that short |
| `Handler.Execute` | handler.py:16-68 | count equals the number of results; at most the clamped limit of results, with distinct non-empty URLs and snippets of at most 200 characters; a blank query gives `{results: [], count: 0}` with no error and no request; otherwise the request carries the resolved endpoint, timeout and payload; a failure gives no results, count 0 and the truncated message; a success gives the formatted first-per-URL results up to the limit and no error |

## Left out

- The POST, `raise_for_status()` and `response.json()` (handler.py:92-100): network I/O and library calls; their outcome is the `BackendOutcome` parameter, and a body without `results` is an empty list there.
- Retry and backoff: handler.py has none, so none is modelled.
- Logging (handler.py:50, handler.py:117): observability only.
- The `int(...)` coercion of the timeout (handler.py:36): the model keeps the resolved text. In the source a non-numeric timeout raises before the query is looked at, outside the `try`; the model does not capture that.
- Values of unexpected Python types (a non-string query, a non-integer or `None` limit, a non-string URL or title, config values that are not strings): their behaviour is whatever Python's coercions do. A JSON `null` URL is treated like an absent one, as the source's truthiness test does.
- JSON `null` in an item's `title`, `content` or `engines`: the model reads only absent keys there. In the source a null `title` becomes a `None` title in the output (handler.py:108, handler.py:59); a null `engines` makes `", ".join(None)` raise a `TypeError` (handler.py:111), which the `except` at handler.py:116 does not catch but handler.py:49 turns into the error response; a null `content` is stored as a `None` snippet (handler.py:109) and `len(snippet)` at handler.py:56, outside the `try`, raises to the caller of `execute`. For inputs of the types the model covers, this and a non-numeric timeout are the only ways `execute` raises instead of answering.
- `topic` and `telemetry`: accepted and unused by the source.
- The `.get(..., default)` calls in the formatting loop (handler.py:58-62): the scan always sets all four keys, so `FormatResults` copies the fields.
- Strings are sequences of Unicode scalar values; Python strings may also hold lone surrogates, which the model cannot express.
