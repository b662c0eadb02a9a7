# DataForSEO client: request building, mode selection and response normalisation

This project models the decision logic of `DataForSEOClient`, the Python client for the
DataForSEO v3 API in `dataforseo/client.py`, and proves what it promises its callers.

The client has five endpoint methods: `serp` (Google organic results), `msv` (Google Ads
search volume), `keywords_for_site`, `domain_pages` and `domain_pages_summary` (backlinks).
Each one does three things:

- It builds a JSON payload list from the query and the caller's options.
- It picks a URL: the sandbox or production base URL, then the endpoint's path for a live
  POST, a `task_post` POST or a `task_get` GET.
- It turns the decoded response into the value it returns: the response itself, a list
  of condensed task records, a task's `result`, an `InvalidParameterError` or a
  `ValueError`.

The HTTP transport is an input to the model. A call is modelled as a `Call` value holding
two things: the `Request` it would send (none when it fails before sending), and the
`Outcome` it returns for a given decoded response body.

Files:

- `wrappers.dfy` defines `Option`, which stands for Python's `None`.
- `json.dfy` defines JSON values, objects and `Merge`, which is Python's `{**a, **b}`.
- `dataforseo.dfy` holds the client model: base URL, modes, paths, payload builders, the
  response normaliser and the five endpoint methods.
- `dataforseo_properties.dfy` holds the lemmas. They cover URL injectivity, payload order
  and override semantics, record order, error handling and one concrete scenario.

Python binds a keyword argument to a named parameter whenever the names match. So
`**kwargs` can never hold `keyword`, `location_code`, `live` or `task_id` in `serp`,
`site` or `date_from` in `keywords_for_site`, and so on. The model states this as a
`requires` on each method. One consequence: the caller's options can override `target`
(in `keywords_for_site` and the backlink methods) and `keywords` (in `msv`). They can
never override serp's `keyword` or any method's `location_code`.

`client.py` has no keyword sanitiser, no grouping of keywords by location code and no
rejection of mixed string/pair input. It computes no cost sum, and the error it raises
carries no status code. The model follows the code and adds none of these.

## Model

| member | source | states |
|---|---|---|
| `Json.Merge` | dataforseo/client.py:78-91 | the merged dict has the keys of both sides; a caller key always has the caller's value; every other default key keeps its default |
| `Json.OrNull` | dataforseo/client.py:166-170 | an omitted `date_from`/`date_to` (`None`) is sent as JSON null; a given date is sent as that string |
| `DataForSeo.NewClient` | dataforseo/client.py:11-24 | the base URL is the sandbox URL iff `sandbox` is set, and the production URL iff it is not |
| `DataForSeo.SelectMode` | dataforseo/client.py:54-77 | task_get iff `task_id` is truthy (non-empty), carrying that id, so never for `task_id=""`; otherwise live iff `live`, task_post iff not `live` |
| `DataForSeo.Url` | dataforseo/client.py:74-77 | every request URL is the client's base URL followed by a non-empty path |
| `DataForSeo.PerEntry` | dataforseo/client.py:78-91 | a per-entry comprehension yields exactly one payload per entry |
| `DataForSeo.CondenseAll` | dataforseo/client.py:100-107 | one condensed record per task of the response |
| `DataForSeo.Normalize` | dataforseo/client.py:54-107 | live returns the response unchanged; otherwise `InvalidParameterError` is raised iff `tasks_error > 0`, carrying `tasks[0].get("status_message")`; without an error task_get returns `tasks[0].result` (null when there is no `tasks` key) and task_post returns `CondenseAll` of the response's tasks; never a `ValueError` |
| `DataForSeo.Serp` | dataforseo/client.py:33-107 | `ValueError` (no request sent) iff there is no truthy `task_id` and the keyword is None, "" or []; any request goes to the URL of the selected mode and is a GET iff a task id was given; without a task id the POST carries `SerpPayloads` of the keyword list; whenever a request is sent the outcome is `Normalize` of the response in the selected mode |
| `DataForSeo.Msv` | dataforseo/client.py:109-189 | the same error, URL and outcome rules as `serp`, on the search-volume paths; the POST carries `MsvPayloads` of the keyword list |
| `DataForSeo.KeywordsForSite` | dataforseo/client.py:191-270 | the same error, URL and outcome rules, with the "site" message, on the keywords_for_site paths; the POST carries `SitePayloads` of the site list |
| `DataForSeo.Backlinks` | dataforseo/client.py:272-312 | always one live POST of `BacklinkPayloads` of the domain list, and the response returned unchanged, with no check on the query |
| `DataForSeo.Entries` | dataforseo/client.py:71-72 | a lone string becomes a one-element list; a list is used as it is |
| `DataForSeo.Missing` | dataforseo/client.py:68-69 | `not q` holds for None, "" and []; a query that is not missing has at least one entry, so serp, msv and keywords_for_site never post an empty list |
| `DataForSeo.TaskIdGiven` | dataforseo/client.py:54 | `if task_id:` is false for None and for "" and true for every non-empty id (the same test at lines 134 and 216) |
| `DataForSeo.Path` | dataforseo/client.py:54-77 | every path starts with the endpoint's root, and a task_get path ends with the task id (the same scheme at lines 134-161, 216-240, 283 and 305) |
| `DataForSeo.SerpPayloads` | dataforseo/client.py:78-91 | serp builds one payload per keyword |
| `DataForSeo.MsvPayloads` | dataforseo/client.py:162-173 | msv builds exactly one payload; `keywords` is the whole keyword list unless the caller passes `keywords`; `location_code` and the dates are the arguments, with None sent as null; `language_code` is "en" unless overridden; caller options win |
| `DataForSeo.SitePayloads` | dataforseo/client.py:245-254 | keywords_for_site builds one payload per site |
| `DataForSeo.BacklinkPayloads` | dataforseo/client.py:285-288 | the backlink methods build one payload per domain |
| `DataForSeo.StatusMessage` | dataforseo/client.py:58-61 | the error message is `tasks[0]["status_message"]` when present and null (`None`) when the key is absent |
| `DataForSeo.Condensed` | dataforseo/client.py:101-105 | a record has exactly the keys `task_id`, the echoed field and `location_code`, taken from the task's `id` and `data` |
| `DataForSeo.EchoField` | dataforseo/client.py:101-105 | serp records echo `keyword`, msv records `keywords` (lines 182-186) and keywords_for_site records `target` (lines 263-267) |
| `DataForSeoProperties.SerpPostsEachKeyword` | dataforseo/client.py:68-92 | a sending serp call posts one payload per keyword, payload i carrying keyword i and the location code |
| `DataForSeoProperties.SerpTaskPostRecords` | dataforseo/client.py:96-107 | serp in task_post mode without an error returns one record per response task, record i built from task i |
| `DataForSeoProperties.MsvTaskPostRecords` | dataforseo/client.py:178-189 | msv in task_post mode without an error returns one record per response task, record i holding task i's `id`, `data.keywords` and `data.location_code` and nothing else |
| `DataForSeoProperties.SiteTaskPostRecords` | dataforseo/client.py:259-270 | keywords_for_site in task_post mode without an error returns one record per response task, record i holding task i's `id`, `data.target` and `data.location_code` and nothing else |
| `DataForSeoProperties.SerpEmptyTaskId` | dataforseo/client.py:54-69 | `task_id=""` is falsy: serp behaves exactly as with no task id, so with no keyword it raises `ValueError` and sends nothing |
| `DataForSeoProperties.PathEndpointMarks` | dataforseo/client.py:74-77 | characters 0, 22 and 25 of a path identify its endpoint |
| `DataForSeoProperties.PathModeMarks` | dataforseo/client.py:74-77 | after the endpoint root, characters 0 and 5 identify live, task_post and task_get |
| `DataForSeoProperties.PathInjective` | dataforseo/client.py:134-161 | equal paths mean equal endpoint, equal mode and equal task id |
| `DataForSeoProperties.UrlInjective` | dataforseo/client.py:21-24 | equal URLs mean the same sandbox flag, endpoint, mode and task id |
| `DataForSeoProperties.PathLiterals` | dataforseo/client.py:74-77 | the live and task_post paths of serp, msv (lines 158-161) and keywords_for_site (lines 237-240), and the live paths of domain_pages (line 283) and domain_pages_summary (line 305), as literal strings |
| `DataForSeoProperties.PerEntryAt` | dataforseo/client.py:78-91 | the i-th payload is built from the i-th entry (input order is kept) |
| `DataForSeoProperties.PerEntryAppend` | dataforseo/client.py:245-254 | payloads of a concatenation are the concatenation of the payloads |
| `DataForSeoProperties.EntryPayloadFields` | dataforseo/client.py:245-254 | caller options win over the entry key and the defaults; other defaults are kept; no other keys appear |
| `DataForSeoProperties.SerpPayloadAt` | dataforseo/client.py:71-91 | serp sends one payload per keyword, in order; `keyword` and `location_code` are the arguments; `language_code` "en", `device` "desktop", `os` "windows" and `depth` 100 are kept unless overridden |
| `DataForSeoProperties.SitePayloadAt` | dataforseo/client.py:242-254 | one payload per site, in order; `target` is the site unless the caller passes `target` |
| `DataForSeoProperties.BacklinkPayloadAt` | dataforseo/client.py:285-288 | one payload per domain, in order, holding only `target` and the caller's options |
| `DataForSeoProperties.BacklinksEmptyQuery` | dataforseo/client.py:305-312 | an empty domain list posts an empty payload list to the live path and raises nothing |
| `DataForSeoProperties.CondenseAllAt` | dataforseo/client.py:100-107 | record i holds exactly task i's `id` as `task_id`, the echoed `data` field and `data.location_code` |
| `DataForSeoProperties.CondenseAllAppend` | dataforseo/client.py:182-189 | records of concatenated task lists are the concatenated records |
| `DataForSeoProperties.CondenseAllReverse` | dataforseo/client.py:263-270 | records follow the response's task order: reversed tasks give reversed records |
| `DataForSeoProperties.SerpTaskGetIgnoresQuery` | dataforseo/client.py:54-66 | with a truthy task id, serp sends a GET to `serp/google/organic/task_get/advanced/<id>` and its result depends on nothing but the id and the response |
| `DataForSeoProperties.MsvTaskGetIgnoresQuery` | dataforseo/client.py:134-150 | with a truthy task id, msv sends a GET to `.../search_volume/task_get/<id>` and ignores every other argument |
| `DataForSeoProperties.SiteTaskGetIgnoresQuery` | dataforseo/client.py:216-232 | with a truthy task id, keywords_for_site sends a GET to `.../keywords_for_site/task_get/<id>` and ignores every other argument |
| `DataForSeoProperties.ErrorOnlyOutsideLive` | dataforseo/client.py:93-98 | with `tasks_error > 0`, task_post and task_get raise with the first task's status message, and live returns the response unchanged (a corollary of `Normalize`, gathered for the error case) |
| `DataForSeoProperties.SerpWidgetPayloads` | dataforseo/client.py:78-91 | serp's payload list for keyword "widget" at 2840 with no options is exactly one object holding that keyword, 2840 and serp's four defaults |
| `DataForSeoProperties.SerpLiveUrl` | dataforseo/client.py:74-75 | serp's live URL on production is `https://api.dataforseo.com/v3/serp/google/organic/live/advanced` |
| `DataForSeoProperties.SerpWidgetScenario` | dataforseo/client.py:74-94 | a live serp call for "widget" posts that one payload to that URL and returns the response unchanged |

## Left out

- HTTP transport: `requests.Session`, `get`, `post` and `response.json()` are network I/O. The decoded response body is a parameter, and the outgoing request is a `Request` value.
- Authentication: the base64 encoding of the API key and the `Authorization`/`Content-Type` session headers. These are a library call and session configuration. The key is kept in `Client` and used for nothing else.
- Malformed responses: a missing `tasks_error`, an empty `tasks` list, a task without `id`/`data`, or a wrong type all make Python raise `KeyError`, `IndexError` or `TypeError`. The `WellFormed` precondition excludes them, so the model does not describe those exceptions.
- Python typing: the model does not cover entries that are not strings, or a `location_code` that is not an integer. Arguments follow the method signatures.
- Dict key order: payloads and records are maps, so the insertion order of keys in the JSON body is not modelled.
- Exceptions are modelled as values. `ValueError` is `Outcome.MissingQuery` and `InvalidParameterError` is `Outcome.InvalidParameter`.
- Floating-point JSON: `Value` has integers only. The client passes caller options through and returns the decoded response and `tasks[0]["result"]` unchanged, and any of these may hold non-integer numbers. So "returned unchanged" is proved only for bodies without fractional numbers.
- Default arguments: the defaults `keyword=None`, `live=True`, `task_id=None`, `date_from=None` and `date_to=None` are not modelled as such. Every argument of the model functions is explicit, and only `DefaultLocationCode` (2840) is named.
- Null results: Python returns `None` both when a task_get response has no `tasks` key and when `result` is null. Both are `Retrieved(Null)` in the model, so they cannot be told apart there either.
