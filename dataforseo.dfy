/** The decision logic of the DataForSEO API client (dataforseo/client.py):
    which URL a call goes to, what payload it posts, and how the decoded
    response is turned into the value the caller gets back.

    The HTTP session is not modelled. A call is described by the request it
    would send (or none, when it fails before sending) and the outcome it
    returns for a given decoded response body. */
module DataForSeo {
  import opened Wrappers
  import opened Json

  const SandboxUrl: string := "https://sandbox.dataforseo.com/v3/"
  const ProductionUrl: string := "https://api.dataforseo.com/v3/"

  /** Default `location_code` of serp, msv and keywords_for_site (USA). */
  const DefaultLocationCode: int := 2840

  const KeywordMissing: string := "You must provide a keyword or list of keywords."
  const SiteMissing: string := "You must provide a site or list of sites."

  /** Names of the named parameters of each method. Python binds a keyword
      argument with one of these names to the parameter, so `**kwargs` never
      holds them. */
  const SerpParameters: set<string> := {"self", "keyword", "location_code", "live", "task_id"}
  const MsvParameters: set<string> :=
    {"self", "keyword", "location_code", "date_from", "date_to", "live", "task_id"}
  const SiteParameters: set<string> :=
    {"self", "site", "location_code", "date_from", "date_to", "live", "task_id"}
  const BacklinkParameters: set<string> := {"self", "domain"}

  // ---------------------------------------------------------------------
  // Client and inputs
  // ---------------------------------------------------------------------

  /** The fields of DataForSEOClient that decide anything: the key (used
      only for the authorization header) and the base URL. */
  datatype Client = Client(apiKey: string, apiUrl: string)

  /** DataForSEOClient.__init__: the base URL is the sandbox one exactly when
      `sandbox` is set, and the production one otherwise. */
  function NewClient(apiKey: string, sandbox: bool): (c: Client)
    ensures c.apiKey == apiKey
    ensures c.apiUrl == SandboxUrl <==> sandbox
    ensures c.apiUrl == ProductionUrl <==> !sandbox
  {
    assert SandboxUrl[8] != ProductionUrl[8];
    if sandbox then Client(apiKey, SandboxUrl) else Client(apiKey, ProductionUrl)
  }

  /** The `str | list[str]` query argument of every endpoint method. */
  datatype Query = Single(s: string) | Many(items: seq<string>)

  /** `if isinstance(q, str): q = [q]`: the entries the payloads are built from. */
  function Entries(q: Query): (r: seq<string>)
    ensures q.Single? ==> r == [q.s]
    ensures q.Many? ==> r == q.items
  {
    match q
    case Single(s) => [s]
    case Many(items) => items
  }

  /** Python's `not q` for a query that may be `None`. */
  predicate Missing(q: Option<Query>)
    ensures !Missing(q) ==> q.Some? && |Entries(q.value)| > 0
    ensures q.Some? && q.value.Many? ==> (Missing(q) <==> Entries(q.value) == [])
    ensures q.Some? && q.value.Single? ==> (Missing(q) <==> q.value.s == "")
  {
    match q
    case None => true
    case Some(Single(s)) => s == ""
    case Some(Many(items)) => items == []
  }

  /** Python's truth value of the `task_id` argument: `None` and the empty
      string are falsy, every other string is truthy. */
  predicate TaskIdGiven(taskId: Option<string>)
    ensures taskId.None? ==> !TaskIdGiven(taskId)
    ensures taskId == Some("") ==> !TaskIdGiven(taskId)
    ensures taskId.Some? && |taskId.value| > 0 ==> TaskIdGiven(taskId)
  {
    taskId.Some? && taskId.value != ""
  }

  // ---------------------------------------------------------------------
  // Modes and URLs
  // ---------------------------------------------------------------------

  /** The three ways a call can go: a live POST, a task_post POST, or a
      task_get GET for a task id. */
  datatype Mode = Live | TaskPost | TaskGet(id: string)

  /** A truthy `task_id` wins; otherwise `live` picks live or task_post. */
  function SelectMode(live: bool, taskId: Option<string>): (m: Mode)
    ensures m.TaskGet? <==> TaskIdGiven(taskId)
    ensures m.TaskGet? ==> taskId == Some(m.id)
    ensures m.Live? <==> live && !TaskIdGiven(taskId)
    ensures m.TaskPost? <==> !live && !TaskIdGiven(taskId)
    ensures taskId == Some("") ==> !m.TaskGet?
  {
    if TaskIdGiven(taskId) then TaskGet(taskId.value)
    else if live then Live
    else TaskPost
  }

  datatype Endpoint =
    | SerpOrganic         // serp
    | SearchVolume        // msv
    | SiteKeywords        // keywords_for_site
    | DomainPages         // domain_pages
    | DomainPagesSummary  // domain_pages_summary
  {
    /** Only the two backlink endpoints lack task_post and task_get. */
    predicate HasTasks()
    {
      !DomainPages? && !DomainPagesSummary?
    }
  }

  /** The path every URL of an endpoint starts with. */
  function Root(e: Endpoint): string
  {
    match e
    case SerpOrganic => "serp/google/organic/"
    case SearchVolume => "keywords_data/google_ads/search_volume/"
    case SiteKeywords => "keywords_data/google_ads/keywords_for_site/"
    case DomainPages => "backlinks/domain_pages/"
    case DomainPagesSummary => "backlinks/domain_pages_summary/"
  }

  /** The fixed path of an endpoint in a mode; serp alone asks for the
      `advanced` result shape. */
  function Path(e: Endpoint, m: Mode): (p: string)
    requires e.HasTasks() || m.Live?
    ensures |p| > |Root(e)| && p[..|Root(e)|] == Root(e)
    ensures m.TaskGet? ==> |p| > |m.id| && p[|p| - |m.id|..] == m.id
  {
    match m
    case Live => Root(e) + (if e.SerpOrganic? then "live/advanced" else "live")
    case TaskPost => Root(e) + "task_post"
    case TaskGet(id) => Root(e) + (if e.SerpOrganic? then "task_get/advanced/" else "task_get/") + id
  }

  /** `self.api_url + path`. */
  function Url(c: Client, e: Endpoint, m: Mode): (u: string)
    requires e.HasTasks() || m.Live?
    ensures |u| > |c.apiUrl| && u[..|c.apiUrl|] == c.apiUrl
  {
    c.apiUrl + Path(e, m)
  }

  // ---------------------------------------------------------------------
  // Payloads
  // ---------------------------------------------------------------------

  /** One payload object: the endpoint's fixed fields, the entry under
      `field`, and the caller's keyword arguments on top. */
  function EntryPayload(field: string, entry: string, fixed: Object, kwargs: Object): Object
  {
    Merge(fixed[field := Str(entry)], kwargs)
  }

  /** The list comprehension `[{field: x, **fixed, **kwargs} for x in entries]`. */
  function PerEntry(field: string, entries: seq<string>, fixed: Object, kwargs: Object): (r: seq<Object>)
    ensures |r| == |entries|
  {
    if entries == [] then []
    else [EntryPayload(field, entries[0], fixed, kwargs)] + PerEntry(field, entries[1..], fixed, kwargs)
  }

  /** serp's defaults besides the keyword. */
  function SerpDefaults(locationCode: int): Object
  {
    map["location_code" := Int(locationCode), "language_code" := Str("en"),
        "device" := Str("desktop"), "os" := Str("windows"), "depth" := Int(100)]
  }

  /** serp posts one payload per keyword. */
  function SerpPayloads(keywords: seq<string>, locationCode: int, kwargs: Object): (r: seq<Object>)
    ensures |r| == |keywords|
  {
    PerEntry("keyword", keywords, SerpDefaults(locationCode), kwargs)
  }

  /** msv posts a single object that carries the whole keyword list. */
  function MsvPayloads(keywords: seq<string>, locationCode: int, dateFrom: Option<string>,
                       dateTo: Option<string>, kwargs: Object): (r: seq<Object>)
    requires MsvParameters !! kwargs.Keys
    ensures |r| == 1
    ensures r[0].Keys == {"keywords", "location_code", "language_code", "date_from", "date_to"} + kwargs.Keys
    ensures r[0]["keywords"] == (if "keywords" in kwargs then kwargs["keywords"] else StrArr(keywords))
    ensures r[0]["location_code"] == Int(locationCode)
    ensures r[0]["date_from"] == OrNull(dateFrom) && r[0]["date_to"] == OrNull(dateTo)
    ensures forall k :: k in kwargs ==> r[0][k] == kwargs[k]
    ensures "language_code" !in kwargs ==> r[0]["language_code"] == Str("en")
  {
    [Merge(map["keywords" := StrArr(keywords), "location_code" := Int(locationCode),
               "language_code" := Str("en"), "date_from" := OrNull(dateFrom),
               "date_to" := OrNull(dateTo)],
           kwargs)]
  }

  /** keywords_for_site posts one payload per site. */
  function SitePayloads(sites: seq<string>, locationCode: int, dateFrom: Option<string>,
                        dateTo: Option<string>, kwargs: Object): (r: seq<Object>)
    ensures |r| == |sites|
  {
    PerEntry("target", sites,
             map["location_code" := Int(locationCode), "date_from" := OrNull(dateFrom),
                 "date_to" := OrNull(dateTo)],
             kwargs)
  }

  /** The backlink methods post one payload per domain. */
  function BacklinkPayloads(domains: seq<string>, kwargs: Object): (r: seq<Object>)
    ensures |r| == |domains|
  {
    PerEntry("target", domains, map[], kwargs)
  }

  // ---------------------------------------------------------------------
  // Responses
  // ---------------------------------------------------------------------

  /** The query field a task_post call echoes back in each condensed record:
      the key its payloads carry the query under. */
  function EchoField(e: Endpoint): (f: string)
    requires e.HasTasks()
    ensures e.SerpOrganic? ==> f == "keyword"
    ensures e.SearchVolume? ==> f == "keywords"
    ensures e.SiteKeywords? ==> f == "target"
  {
    match e
    case SerpOrganic => "keyword"
    case SearchVolume => "keywords"
    case SiteKeywords => "target"
  }

  predicate HasErrorCount(env: Value)
  {
    env.Obj? && "tasks_error" in env.fields && env.fields["tasks_error"].Int?
  }

  function ErrorCount(env: Value): int
    requires HasErrorCount(env)
  {
    env.fields["tasks_error"].i
  }

  /** `env["tasks"][0]` is a dict. */
  predicate HasFirstTask(env: Value)
  {
    && env.Obj? && "tasks" in env.fields
    && env.fields["tasks"].Arr? && |env.fields["tasks"].items| > 0
    && env.fields["tasks"].items[0].Obj?
  }

  function FirstTask(env: Value): Object
    requires HasFirstTask(env)
  {
    env.fields["tasks"].items[0].fields
  }

  /** `env["tasks"][0].get("status_message")`: `None` when the key is absent. */
  function StatusMessage(env: Value): (msg: Value)
    requires HasFirstTask(env)
    ensures "status_message" in FirstTask(env) ==> msg == FirstTask(env)["status_message"]
    ensures "status_message" !in FirstTask(env) ==> msg == Null
  {
    var t := FirstTask(env);
    if "status_message" in t then t["status_message"] else Null
  }

  /** A task of a task_post response carries `id` and the `data` it echoes. */
  predicate Describes(e: Endpoint, task: Value)
    requires e.HasTasks()
  {
    && task.Obj? && "id" in task.fields && "data" in task.fields
    && task.fields["data"].Obj?
    && EchoField(e) in task.fields["data"].fields
    && "location_code" in task.fields["data"].fields
  }

  /** The response body holds every key the code reads in mode `m`, with the
      type it uses it at. Without this, Python raises KeyError, IndexError or
      TypeError, which the model does not describe. */
  predicate WellFormed(e: Endpoint, m: Mode, env: Value)
    requires e.HasTasks() || m.Live?
  {
    match m
    case Live => true
    case TaskGet(_) =>
      && HasErrorCount(env)
      && (ErrorCount(env) > 0 ==> HasFirstTask(env))
      && (ErrorCount(env) <= 0 && "tasks" in env.fields ==>
            HasFirstTask(env) && "result" in FirstTask(env))
    case TaskPost =>
      && HasErrorCount(env)
      && (ErrorCount(env) > 0 ==> HasFirstTask(env))
      && (ErrorCount(env) <= 0 ==>
            && "tasks" in env.fields && env.fields["tasks"].Arr?
            && forall j :: 0 <= j < |env.fields["tasks"].items| ==> Describes(e, env.fields["tasks"].items[j]))
  }

  /** `{"task_id": task["id"], echo: task["data"][echo], "location_code": ...}`. */
  function Condensed(e: Endpoint, task: Value): (r: Object)
    requires e.HasTasks() && Describes(e, task)
    ensures r.Keys == {"task_id", EchoField(e), "location_code"}
    ensures r["task_id"] == task.fields["id"]
    ensures r[EchoField(e)] == task.fields["data"].fields[EchoField(e)]
    ensures r["location_code"] == task.fields["data"].fields["location_code"]
  {
    var data := task.fields["data"].fields;
    map["task_id" := task.fields["id"], EchoField(e) := data[EchoField(e)],
        "location_code" := data["location_code"]]
  }

  /** The records list comprehension over `response["tasks"]`. */
  function CondenseAll(e: Endpoint, tasks: seq<Value>): (r: seq<Object>)
    requires e.HasTasks()
    requires forall j :: 0 <= j < |tasks| ==> Describes(e, tasks[j])
    ensures |r| == |tasks|
  {
    if tasks == [] then []
    else [Condensed(e, tasks[0])] + CondenseAll(e, tasks[1..])
  }

  /** What a call hands back to its caller. */
  datatype Outcome =
    | Response(body: Value)             // the decoded response, unchanged
    | TaskRecords(records: seq<Object>) // one condensed record per created task
    | Retrieved(result: Value)          // tasks[0]["result"]; null when there is no "tasks"
    | InvalidParameter(message: Value)  // InvalidParameterError(status_message)
    | MissingQuery(reason: string)      // ValueError, raised before any request

  /** The response normaliser of every endpoint in mode `m`. */
  function Normalize(e: Endpoint, m: Mode, env: Value): (o: Outcome)
    requires e.HasTasks() || m.Live?
    requires WellFormed(e, m, env)
    ensures !o.MissingQuery?
    ensures m.Live? ==> o == Response(env)
    ensures !m.Live? ==> (o.InvalidParameter? <==> ErrorCount(env) > 0)
    ensures o.InvalidParameter? ==> o.message == StatusMessage(env)
    ensures m.TaskGet? && ErrorCount(env) <= 0 && "tasks" in env.fields ==>
              o == Retrieved(env.fields["tasks"].items[0].fields["result"])
    ensures m.TaskGet? && ErrorCount(env) <= 0 && "tasks" !in env.fields ==> o == Retrieved(Null)
    ensures m.TaskPost? && ErrorCount(env) <= 0 ==>
              o == TaskRecords(CondenseAll(e, env.fields["tasks"].items))
  {
    match m
    case Live => Response(env)
    case TaskGet(_) =>
      if ErrorCount(env) > 0 then InvalidParameter(StatusMessage(env))
      else if "tasks" in env.fields then Retrieved(FirstTask(env)["result"])
      else Retrieved(Null)
    case TaskPost =>
      if ErrorCount(env) > 0 then InvalidParameter(StatusMessage(env))
      else TaskRecords(CondenseAll(e, env.fields["tasks"].items))
  }

  // ---------------------------------------------------------------------
  // Endpoint methods
  // ---------------------------------------------------------------------

  datatype Request = Get(url: string) | Post(url: string, payload: seq<Object>)

  /** A call: the request it sends (none when it fails first) and its outcome. */
  datatype Call = Call(request: Option<Request>, outcome: Outcome)

  /** Whether a tasked endpoint method gets as far as the transport. */
  predicate Sends(query: Option<Query>, taskId: Option<string>)
  {
    TaskIdGiven(taskId) || !Missing(query)
  }

  /** DataForSEOClient.serp, for the decoded `response` to the request it sends. */
  function Serp(c: Client, keyword: Option<Query>, locationCode: int, live: bool,
                taskId: Option<string>, kwargs: Object, response: Value): (r: Call)
    requires SerpParameters !! kwargs.Keys
    requires Sends(keyword, taskId) ==> WellFormed(SerpOrganic, SelectMode(live, taskId), response)
    ensures r.outcome.MissingQuery? <==> !TaskIdGiven(taskId) && Missing(keyword)
    ensures r.outcome.MissingQuery? ==> r.outcome.reason == KeywordMissing
    ensures r.request.None? <==> r.outcome.MissingQuery?
    ensures r.request.Some? ==> r.request.value.url == Url(c, SerpOrganic, SelectMode(live, taskId))
    ensures r.request.Some? ==> (r.request.value.Get? <==> TaskIdGiven(taskId))
    ensures Sends(keyword, taskId) ==> r.outcome == Normalize(SerpOrganic, SelectMode(live, taskId), response)
    ensures !TaskIdGiven(taskId) && !Missing(keyword) ==>
              r.request == Some(Post(Url(c, SerpOrganic, SelectMode(live, taskId)), SerpPayloads(Entries(keyword.value), locationCode, kwargs)))
  {
    var m := SelectMode(live, taskId);
    if m.TaskGet? then
      Call(Some(Get(Url(c, SerpOrganic, m))), Normalize(SerpOrganic, m, response))
    else if Missing(keyword) then
      Call(None, MissingQuery(KeywordMissing))
    else
      var payload := SerpPayloads(Entries(keyword.value), locationCode, kwargs);
      Call(Some(Post(Url(c, SerpOrganic, m), payload)), Normalize(SerpOrganic, m, response))
  }

  /** DataForSEOClient.msv. */
  function Msv(c: Client, keyword: Option<Query>, locationCode: int, dateFrom: Option<string>,
               dateTo: Option<string>, live: bool, taskId: Option<string>, kwargs: Object,
               response: Value): (r: Call)
    requires MsvParameters !! kwargs.Keys
    requires Sends(keyword, taskId) ==> WellFormed(SearchVolume, SelectMode(live, taskId), response)
    ensures r.outcome.MissingQuery? <==> !TaskIdGiven(taskId) && Missing(keyword)
    ensures r.outcome.MissingQuery? ==> r.outcome.reason == KeywordMissing
    ensures r.request.None? <==> r.outcome.MissingQuery?
    ensures r.request.Some? ==> r.request.value.url == Url(c, SearchVolume, SelectMode(live, taskId))
    ensures r.request.Some? ==> (r.request.value.Get? <==> TaskIdGiven(taskId))
    ensures Sends(keyword, taskId) ==> r.outcome == Normalize(SearchVolume, SelectMode(live, taskId), response)
    ensures !TaskIdGiven(taskId) && !Missing(keyword) ==>
              r.request == Some(Post(Url(c, SearchVolume, SelectMode(live, taskId)), MsvPayloads(Entries(keyword.value), locationCode, dateFrom, dateTo, kwargs)))
  {
    var m := SelectMode(live, taskId);
    if m.TaskGet? then
      Call(Some(Get(Url(c, SearchVolume, m))), Normalize(SearchVolume, m, response))
    else if Missing(keyword) then
      Call(None, MissingQuery(KeywordMissing))
    else
      var payload := MsvPayloads(Entries(keyword.value), locationCode, dateFrom, dateTo, kwargs);
      Call(Some(Post(Url(c, SearchVolume, m), payload)), Normalize(SearchVolume, m, response))
  }

  /** DataForSEOClient.keywords_for_site. */
  function KeywordsForSite(c: Client, site: Option<Query>, locationCode: int,
                           dateFrom: Option<string>, dateTo: Option<string>, live: bool,
                           taskId: Option<string>, kwargs: Object, response: Value): (r: Call)
    requires SiteParameters !! kwargs.Keys
    requires Sends(site, taskId) ==> WellFormed(SiteKeywords, SelectMode(live, taskId), response)
    ensures r.outcome.MissingQuery? <==> !TaskIdGiven(taskId) && Missing(site)
    ensures r.outcome.MissingQuery? ==> r.outcome.reason == SiteMissing
    ensures r.request.None? <==> r.outcome.MissingQuery?
    ensures r.request.Some? ==> r.request.value.url == Url(c, SiteKeywords, SelectMode(live, taskId))
    ensures r.request.Some? ==> (r.request.value.Get? <==> TaskIdGiven(taskId))
    ensures Sends(site, taskId) ==> r.outcome == Normalize(SiteKeywords, SelectMode(live, taskId), response)
    ensures !TaskIdGiven(taskId) && !Missing(site) ==>
              r.request == Some(Post(Url(c, SiteKeywords, SelectMode(live, taskId)), SitePayloads(Entries(site.value), locationCode, dateFrom, dateTo, kwargs)))
  {
    var m := SelectMode(live, taskId);
    if m.TaskGet? then
      Call(Some(Get(Url(c, SiteKeywords, m))), Normalize(SiteKeywords, m, response))
    else if Missing(site) then
      Call(None, MissingQuery(SiteMissing))
    else
      var payload := SitePayloads(Entries(site.value), locationCode, dateFrom, dateTo, kwargs);
      Call(Some(Post(Url(c, SiteKeywords, m), payload)), Normalize(SiteKeywords, m, response))
  }

  /** DataForSEOClient.domain_pages and domain_pages_summary: always a live
      POST, no check on the query, and the response handed back as is. */
  function Backlinks(c: Client, e: Endpoint, domain: Query, kwargs: Object, response: Value): (r: Call)
    requires e.DomainPages? || e.DomainPagesSummary?
    requires BacklinkParameters !! kwargs.Keys
    ensures r.outcome == Response(response)
    ensures r.request == Some(Post(Url(c, e, Live), BacklinkPayloads(Entries(domain), kwargs)))
  {
    Call(Some(Post(Url(c, e, Live), BacklinkPayloads(Entries(domain), kwargs))), Response(response))
  }
}
