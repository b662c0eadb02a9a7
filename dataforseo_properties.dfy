/** What the DataForSEO client promises its callers, proved of the model in
    module DataForSeo. */
module DataForSeoProperties {
  import opened Wrappers
  import opened Json
  import opened DataForSeo

  // ---------------------------------------------------------------------
  // URLs
  // ---------------------------------------------------------------------

  /** The characters at positions 0, 22 and 25 of a path tell the endpoints apart. */
  lemma PathEndpointMarks(e: Endpoint, m: Mode)
    requires e.HasTasks() || m.Live?
    ensures |Path(e, m)| > 25
    ensures Path(e, m)[0] == (if e.SerpOrganic? then 's' else if e.HasTasks() then 'k' else 'b')
    ensures e.SearchVolume? || e.SiteKeywords? ==> Path(e, m)[25] == (if e.SearchVolume? then 's' else 'k')
    ensures !e.HasTasks() ==> Path(e, m)[22] == (if e.DomainPages? then '/' else '_')
  {
    var root := Root(e);
    var p := Path(e, m);
    assert p == root + p[|root|..];
    assert p[0] == root[0];
    if !e.HasTasks() {
      assert p[22] == root[22];
    } else if !e.SerpOrganic? {
      assert p[25] == root[25];
    }
  }

  /** After the endpoint's root, the mode decides the rest of the path. */
  lemma PathModeMarks(e: Endpoint, m: Mode)
    requires e.HasTasks() || m.Live?
    ensures |Path(e, m)| > |Root(e)|
    ensures Path(e, m)[|Root(e)|] == (if m.Live? then 'l' else 't')
    ensures !m.Live? ==> |Path(e, m)| > |Root(e)| + 5
    ensures !m.Live? ==> Path(e, m)[|Root(e)| + 5] == (if m.TaskPost? then 'p' else 'g')
  {
  }

  /** Different (endpoint, mode) pairs never share a path: the path alone
      tells which endpoint, which mode and which task id a call is for. */
  lemma PathInjective(e1: Endpoint, m1: Mode, e2: Endpoint, m2: Mode)
    requires e1.HasTasks() || m1.Live?
    requires e2.HasTasks() || m2.Live?
    requires Path(e1, m1) == Path(e2, m2)
    ensures e1 == e2 && m1 == m2
  {
    PathEndpointMarks(e1, m1);
    PathEndpointMarks(e2, m2);
    assert e1 == e2;
    PathModeMarks(e1, m1);
    PathModeMarks(e2, m2);
    if m1.TaskGet? {
      var prefix := Root(e1) + (if e1.SerpOrganic? then "task_get/advanced/" else "task_get/");
      assert Path(e1, m1) == prefix + m1.id;
      assert Path(e2, m2) == prefix + m2.id;
      assert m1.id == Path(e1, m1)[|prefix|..];
    }
  }

  /** Every request URL starts with the client's base URL, which is the
      sandbox one exactly when the client was made with `sandbox`; and no two
      calls that differ in sandbox flag, endpoint, mode or task id share a URL. */
  lemma UrlInjective(k1: string, s1: bool, e1: Endpoint, m1: Mode,
                     k2: string, s2: bool, e2: Endpoint, m2: Mode)
    requires e1.HasTasks() || m1.Live?
    requires e2.HasTasks() || m2.Live?
    requires Url(NewClient(k1, s1), e1, m1) == Url(NewClient(k2, s2), e2, m2)
    ensures s1 == s2 && e1 == e2 && m1 == m2
  {
    var c1, c2 := NewClient(k1, s1), NewClient(k2, s2);
    var u := Url(c1, e1, m1);
    assert u[..|c1.apiUrl|] == c1.apiUrl;
    assert u[..|c2.apiUrl|] == c2.apiUrl;
    assert u[8] == c1.apiUrl[8] == c2.apiUrl[8];
    assert s1 == s2;
    assert Path(e1, m1) == u[|c1.apiUrl|..];
    PathInjective(e1, m1, e2, m2);
  }

  /** The fixed paths of every POST the client sends, as written in the
      client; the task_get paths are stated by the TaskGetIgnoresQuery lemmas. */
  lemma PathLiterals()
    ensures Path(SerpOrganic, Live) == "serp/google/organic/live/advanced"
    ensures Path(SerpOrganic, TaskPost) == "serp/google/organic/task_post"
    ensures Path(SearchVolume, Live) == "keywords_data/google_ads/search_volume/live"
    ensures Path(SearchVolume, TaskPost) == "keywords_data/google_ads/search_volume/task_post"
    ensures Path(SiteKeywords, Live) == "keywords_data/google_ads/keywords_for_site/live"
    ensures Path(SiteKeywords, TaskPost) == "keywords_data/google_ads/keywords_for_site/task_post"
    ensures Path(DomainPages, Live) == "backlinks/domain_pages/live"
    ensures Path(DomainPagesSummary, Live) == "backlinks/domain_pages_summary/live"
  {
  }

  // ---------------------------------------------------------------------
  // Payloads
  // ---------------------------------------------------------------------

  /** The i-th payload is built from the i-th entry: one payload per entry,
      in entry order. */
  lemma {:induction false} PerEntryAt(field: string, entries: seq<string>, fixed: Object,
                                      kwargs: Object, i: nat)
    requires i < |entries|
    ensures PerEntry(field, entries, fixed, kwargs)[i] == EntryPayload(field, entries[i], fixed, kwargs)
  {
    if i > 0 {
      PerEntryAt(field, entries[1..], fixed, kwargs, i - 1);
    }
  }

  /** Building from a concatenation is concatenating what is built. */
  lemma {:induction false} PerEntryAppend(field: string, a: seq<string>, b: seq<string>,
                                          fixed: Object, kwargs: Object)
    ensures PerEntry(field, a + b, fixed, kwargs)
            == PerEntry(field, a, fixed, kwargs) + PerEntry(field, b, fixed, kwargs)
  {
    if a == [] {
      assert a + b == b;
    } else {
      assert (a + b)[0] == a[0];
      assert (a + b)[1..] == a[1..] + b;
      PerEntryAppend(field, a[1..], b, fixed, kwargs);
    }
  }

  /** Caller options win: a payload holds the fixed keys, the entry's key and
      the caller's keys; each caller key has the caller's value, the entry key
      holds the entry unless the caller named it, and every other fixed key
      keeps its default. */
  lemma EntryPayloadFields(field: string, entry: string, fixed: Object, kwargs: Object)
    ensures EntryPayload(field, entry, fixed, kwargs).Keys == fixed.Keys + {field} + kwargs.Keys
    ensures EntryPayload(field, entry, fixed, kwargs)[field]
            == if field in kwargs then kwargs[field] else Str(entry)
    ensures forall k :: k in kwargs ==> EntryPayload(field, entry, fixed, kwargs)[k] == kwargs[k]
    ensures forall k :: k in fixed && k != field && k !in kwargs ==>
              EntryPayload(field, entry, fixed, kwargs)[k] == fixed[k]
  {
  }

  /** serp: one payload per keyword, in order. The keyword and the location
      code are always the caller's arguments (Python binds them to the named
      parameters, never to **kwargs); language, device, OS and depth keep
      their defaults unless the caller passes them. */
  lemma SerpPayloadAt(keywords: seq<string>, locationCode: int, kwargs: Object, i: nat)
    requires SerpParameters !! kwargs.Keys
    requires i < |keywords|
    ensures |SerpPayloads(keywords, locationCode, kwargs)| == |keywords|
    ensures var p := SerpPayloads(keywords, locationCode, kwargs)[i];
      && p.Keys == {"keyword", "location_code", "language_code", "device", "os", "depth"} + kwargs.Keys
      && p["keyword"] == Str(keywords[i])
      && p["location_code"] == Int(locationCode)
      && (forall k :: k in kwargs ==> p[k] == kwargs[k])
      && ("language_code" !in kwargs ==> p["language_code"] == Str("en"))
      && ("device" !in kwargs ==> p["device"] == Str("desktop"))
      && ("os" !in kwargs ==> p["os"] == Str("windows"))
      && ("depth" !in kwargs ==> p["depth"] == Int(100))
  {
    PerEntryAt("keyword", keywords, SerpDefaults(locationCode), kwargs, i);
    EntryPayloadFields("keyword", keywords[i], SerpDefaults(locationCode), kwargs);
    assert "keyword" !in kwargs && "location_code" !in kwargs;
  }

  /** keywords_for_site: one payload per site, in order; `target` is the
      site unless the caller passes `target`, which then replaces it in
      every payload. */
  lemma SitePayloadAt(sites: seq<string>, locationCode: int, dateFrom: Option<string>,
                      dateTo: Option<string>, kwargs: Object, i: nat)
    requires SiteParameters !! kwargs.Keys
    requires i < |sites|
    ensures |SitePayloads(sites, locationCode, dateFrom, dateTo, kwargs)| == |sites|
    ensures var p := SitePayloads(sites, locationCode, dateFrom, dateTo, kwargs)[i];
      && p.Keys == {"target", "location_code", "date_from", "date_to"} + kwargs.Keys
      && p["target"] == (if "target" in kwargs then kwargs["target"] else Str(sites[i]))
      && p["location_code"] == Int(locationCode)
      && p["date_from"] == OrNull(dateFrom)
      && p["date_to"] == OrNull(dateTo)
      && (forall k :: k in kwargs ==> p[k] == kwargs[k])
  {
    var fixed := map["location_code" := Int(locationCode), "date_from" := OrNull(dateFrom),
                     "date_to" := OrNull(dateTo)];
    PerEntryAt("target", sites, fixed, kwargs, i);
    EntryPayloadFields("target", sites[i], fixed, kwargs);
  }

  /** domain_pages and domain_pages_summary: one payload per domain, in
      order, holding only `target` and the caller's options. */
  lemma BacklinkPayloadAt(domains: seq<string>, kwargs: Object, i: nat)
    requires BacklinkParameters !! kwargs.Keys
    requires i < |domains|
    ensures |BacklinkPayloads(domains, kwargs)| == |domains|
    ensures var p := BacklinkPayloads(domains, kwargs)[i];
      && p.Keys == {"target"} + kwargs.Keys
      && p["target"] == (if "target" in kwargs then kwargs["target"] else Str(domains[i]))
      && (forall k :: k in kwargs ==> p[k] == kwargs[k])
  {
    PerEntryAt("target", domains, map[], kwargs, i);
    EntryPayloadFields("target", domains[i], map[], kwargs);
  }

  // ---------------------------------------------------------------------
  // Responses
  // ---------------------------------------------------------------------

  /** The i-th condensed record comes from the i-th task of the response:
      its id, the echoed query field and the location code, nothing else. */
  lemma {:induction false} CondenseAllAt(e: Endpoint, tasks: seq<Value>, i: nat)
    requires e.HasTasks()
    requires forall j :: 0 <= j < |tasks| ==> Describes(e, tasks[j])
    requires i < |tasks|
    ensures var r := CondenseAll(e, tasks)[i];
      && r.Keys == {"task_id", EchoField(e), "location_code"}
      && r["task_id"] == tasks[i].fields["id"]
      && r[EchoField(e)] == tasks[i].fields["data"].fields[EchoField(e)]
      && r["location_code"] == tasks[i].fields["data"].fields["location_code"]
  {
    if i > 0 {
      assert tasks[i] == tasks[1..][i - 1];
      CondenseAllAt(e, tasks[1..], i - 1);
    }
  }

  lemma {:induction false} CondenseAllAppend(e: Endpoint, a: seq<Value>, b: seq<Value>)
    requires e.HasTasks()
    requires forall j :: 0 <= j < |a| ==> Describes(e, a[j])
    requires forall j :: 0 <= j < |b| ==> Describes(e, b[j])
    ensures CondenseAll(e, a + b) == CondenseAll(e, a) + CondenseAll(e, b)
  {
    if a == [] {
      assert a + b == b;
    } else {
      assert (a + b)[0] == a[0];
      assert (a + b)[1..] == a[1..] + b;
      CondenseAllAppend(e, a[1..], b);
    }
  }

  function Reverse<T>(s: seq<T>): (r: seq<T>)
    ensures |r| == |s|
    ensures forall i :: 0 <= i < |s| ==> r[i] == s[|s| - 1 - i]
  {
    if s == [] then [] else Reverse(s[1..]) + [s[0]]
  }

  /** Records follow the order the response lists its tasks in, not the
      order they were submitted: a response listing the tasks the other way
      round yields the records the other way round. */
  lemma {:induction false} CondenseAllReverse(e: Endpoint, tasks: seq<Value>)
    requires e.HasTasks()
    requires forall j :: 0 <= j < |tasks| ==> Describes(e, tasks[j])
    ensures CondenseAll(e, Reverse(tasks)) == Reverse(CondenseAll(e, tasks))
  {
    if tasks != [] {
      CondenseAllReverse(e, tasks[1..]);
      CondenseAllAppend(e, Reverse(tasks[1..]), [tasks[0]]);
    }
  }

  // ---------------------------------------------------------------------
  // Whole calls
  // ---------------------------------------------------------------------

  /** The backlink methods never raise ValueError: an empty domain list posts
      an empty payload list to the live path. */
  lemma BacklinksEmptyQuery(c: Client, e: Endpoint, kwargs: Object, response: Value)
    requires e.DomainPages? || e.DomainPagesSummary?
    requires BacklinkParameters !! kwargs.Keys
    ensures Backlinks(c, e, Many([]), kwargs, response) == Call(Some(Post(Url(c, e, Live), [])), Response(response))
  {
  }

  /** With a truthy task id, serp sends a GET to task_get/advanced/<id> and
      its result depends on nothing else: not the keyword, the location, the
      live flag or the options. */
  lemma SerpTaskGetIgnoresQuery(c: Client, id: string, response: Value,
                                k1: Option<Query>, l1: int, live1: bool, kw1: Object,
                                k2: Option<Query>, l2: int, live2: bool, kw2: Object)
    requires id != ""
    requires SerpParameters !! kw1.Keys && SerpParameters !! kw2.Keys
    requires WellFormed(SerpOrganic, TaskGet(id), response)
    ensures Serp(c, k1, l1, live1, Some(id), kw1, response) == Serp(c, k2, l2, live2, Some(id), kw2, response)
    ensures Serp(c, k1, l1, live1, Some(id), kw1, response).request
            == Some(Get(c.apiUrl + "serp/google/organic/task_get/advanced/" + id))
  {
    var get := "serp/google/organic/task_get/advanced/";
    assert Root(SerpOrganic) + "task_get/advanced/" == get;
    assert Path(SerpOrganic, TaskGet(id)) == get + id;
    assert c.apiUrl + (get + id) == c.apiUrl + get + id;
  }

  /** msv with a truthy task id: a GET to search_volume/task_get/<id>,
      whatever the keyword, dates, live flag or options. */
  lemma MsvTaskGetIgnoresQuery(c: Client, id: string, response: Value,
                               k1: Option<Query>, l1: int, f1: Option<string>, t1: Option<string>,
                               live1: bool, kw1: Object,
                               k2: Option<Query>, l2: int, f2: Option<string>, t2: Option<string>,
                               live2: bool, kw2: Object)
    requires id != ""
    requires MsvParameters !! kw1.Keys && MsvParameters !! kw2.Keys
    requires WellFormed(SearchVolume, TaskGet(id), response)
    ensures Msv(c, k1, l1, f1, t1, live1, Some(id), kw1, response)
            == Msv(c, k2, l2, f2, t2, live2, Some(id), kw2, response)
    ensures Msv(c, k1, l1, f1, t1, live1, Some(id), kw1, response).request
            == Some(Get(c.apiUrl + "keywords_data/google_ads/search_volume/task_get/" + id))
  {
    var get := "keywords_data/google_ads/search_volume/task_get/";
    assert Root(SearchVolume) + "task_get/" == get;
    assert Path(SearchVolume, TaskGet(id)) == get + id;
    assert c.apiUrl + (get + id) == c.apiUrl + get + id;
  }

  /** keywords_for_site with a truthy task id: a GET to
      keywords_for_site/task_get/<id>, whatever else is passed. */
  lemma SiteTaskGetIgnoresQuery(c: Client, id: string, response: Value,
                                s1: Option<Query>, l1: int, f1: Option<string>, t1: Option<string>,
                                live1: bool, kw1: Object,
                                s2: Option<Query>, l2: int, f2: Option<string>, t2: Option<string>,
                                live2: bool, kw2: Object)
    requires id != ""
    requires SiteParameters !! kw1.Keys && SiteParameters !! kw2.Keys
    requires WellFormed(SiteKeywords, TaskGet(id), response)
    ensures KeywordsForSite(c, s1, l1, f1, t1, live1, Some(id), kw1, response)
            == KeywordsForSite(c, s2, l2, f2, t2, live2, Some(id), kw2, response)
    ensures KeywordsForSite(c, s1, l1, f1, t1, live1, Some(id), kw1, response).request
            == Some(Get(c.apiUrl + "keywords_data/google_ads/keywords_for_site/task_get/" + id))
  {
    var get := "keywords_data/google_ads/keywords_for_site/task_get/";
    assert Root(SiteKeywords) + "task_get/" == get;
    assert Path(SiteKeywords, TaskGet(id)) == get + id;
    assert c.apiUrl + (get + id) == c.apiUrl + get + id;
  }

  /** A sending serp call posts one payload per keyword, in order, each
      carrying its keyword and the location code. */
  lemma SerpPostsEachKeyword(c: Client, keyword: Option<Query>, locationCode: int, live: bool,
                             kwargs: Object, response: Value, i: nat)
    requires SerpParameters !! kwargs.Keys
    requires !Missing(keyword)
    requires WellFormed(SerpOrganic, SelectMode(live, None), response)
    requires i < |Entries(keyword.value)|
    ensures var r := Serp(c, keyword, locationCode, live, None, kwargs, response);
      && r.request.Some? && r.request.value.Post?
      && |r.request.value.payload| == |Entries(keyword.value)|
      && "keyword" in r.request.value.payload[i] && "location_code" in r.request.value.payload[i]
      && r.request.value.payload[i]["keyword"] == Str(Entries(keyword.value)[i])
      && r.request.value.payload[i]["location_code"] == Int(locationCode)
  {
    SerpPayloadAt(Entries(keyword.value), locationCode, kwargs, i);
  }

  /** serp in task_post mode without an error returns one record per task of
      the response, record i made from task i. */
  lemma SerpTaskPostRecords(c: Client, keyword: Option<Query>, locationCode: int,
                            kwargs: Object, response: Value, i: nat)
    requires SerpParameters !! kwargs.Keys
    requires !Missing(keyword)
    requires WellFormed(SerpOrganic, TaskPost, response)
    requires ErrorCount(response) <= 0
    requires i < |response.fields["tasks"].items|
    ensures var r := Serp(c, keyword, locationCode, false, None, kwargs, response);
      var task := response.fields["tasks"].items[i];
      && r.outcome.TaskRecords?
      && |r.outcome.records| == |response.fields["tasks"].items|
      && r.outcome.records[i].Keys == {"task_id", "keyword", "location_code"}
      && r.outcome.records[i]["task_id"] == task.fields["id"]
      && r.outcome.records[i]["keyword"] == task.fields["data"].fields["keyword"]
      && r.outcome.records[i]["location_code"] == task.fields["data"].fields["location_code"]
  {
    CondenseAllAt(SerpOrganic, response.fields["tasks"].items, i);
  }

  /** msv in task_post mode without an error returns one record per task of
      the response, record i made from task i and echoing its `keywords`. */
  lemma MsvTaskPostRecords(c: Client, keyword: Option<Query>, locationCode: int,
                           dateFrom: Option<string>, dateTo: Option<string>,
                           kwargs: Object, response: Value, i: nat)
    requires MsvParameters !! kwargs.Keys
    requires !Missing(keyword)
    requires WellFormed(SearchVolume, TaskPost, response)
    requires ErrorCount(response) <= 0
    requires i < |response.fields["tasks"].items|
    ensures var r := Msv(c, keyword, locationCode, dateFrom, dateTo, false, None, kwargs, response);
      var task := response.fields["tasks"].items[i];
      && r.outcome.TaskRecords?
      && |r.outcome.records| == |response.fields["tasks"].items|
      && r.outcome.records[i].Keys == {"task_id", "keywords", "location_code"}
      && r.outcome.records[i]["task_id"] == task.fields["id"]
      && r.outcome.records[i]["keywords"] == task.fields["data"].fields["keywords"]
      && r.outcome.records[i]["location_code"] == task.fields["data"].fields["location_code"]
  {
    CondenseAllAt(SearchVolume, response.fields["tasks"].items, i);
  }

  /** keywords_for_site in task_post mode without an error returns one record
      per task of the response, record i made from task i and echoing its
      `target`. */
  lemma SiteTaskPostRecords(c: Client, site: Option<Query>, locationCode: int,
                            dateFrom: Option<string>, dateTo: Option<string>,
                            kwargs: Object, response: Value, i: nat)
    requires SiteParameters !! kwargs.Keys
    requires !Missing(site)
    requires WellFormed(SiteKeywords, TaskPost, response)
    requires ErrorCount(response) <= 0
    requires i < |response.fields["tasks"].items|
    ensures var r := KeywordsForSite(c, site, locationCode, dateFrom, dateTo, false, None, kwargs, response);
      var task := response.fields["tasks"].items[i];
      && r.outcome.TaskRecords?
      && |r.outcome.records| == |response.fields["tasks"].items|
      && r.outcome.records[i].Keys == {"task_id", "target", "location_code"}
      && r.outcome.records[i]["task_id"] == task.fields["id"]
      && r.outcome.records[i]["target"] == task.fields["data"].fields["target"]
      && r.outcome.records[i]["location_code"] == task.fields["data"].fields["location_code"]
  {
    CondenseAllAt(SiteKeywords, response.fields["tasks"].items, i);
  }

  /** An empty `task_id` is falsy: serp then behaves exactly as with no task
      id, so without a keyword it raises ValueError and sends nothing. */
  lemma SerpEmptyTaskId(c: Client, keyword: Option<Query>, locationCode: int, live: bool,
                        kwargs: Object, response: Value)
    requires SerpParameters !! kwargs.Keys
    requires Sends(keyword, None) ==> WellFormed(SerpOrganic, SelectMode(live, None), response)
    ensures Serp(c, keyword, locationCode, live, Some(""), kwargs, response)
            == Serp(c, keyword, locationCode, live, None, kwargs, response)
    ensures Serp(c, None, locationCode, live, Some(""), kwargs, response)
            == Call(None, MissingQuery(KeywordMissing))
  {
  }

  /** Outside live mode an error count above zero raises InvalidParameterError
      with exactly the first task's status message, whatever else the
      response holds; in live mode the response comes back unchanged even
      when it reports errors. A corollary of Normalize's contract, gathered
      here for the error case; the backlink methods, which never inspect the
      response, are covered by Backlinks' own contract. */
  lemma ErrorOnlyOutsideLive(e: Endpoint, m: Mode, env: Value)
    requires e.HasTasks()
    requires WellFormed(e, m, env)
    requires HasErrorCount(env) && ErrorCount(env) > 0
    ensures m.Live? ==> Normalize(e, m, env) == Response(env)
    ensures !m.Live? ==> Normalize(e, m, env) == InvalidParameter(StatusMessage(env))
  {
  }

  /** serp's payload for keyword "widget" at location 2840 with no options. */
  function WidgetPayload(): Object
  {
    map["keyword" := Str("widget"), "location_code" := Int(2840),
        "language_code" := Str("en"), "device" := Str("desktop"),
        "os" := Str("windows"), "depth" := Int(100)]
  }

  lemma SerpWidgetPayloads()
    ensures SerpPayloads(["widget"], DefaultLocationCode, map[]) == [WidgetPayload()]
  {
    assert EntryPayload("keyword", "widget", SerpDefaults(2840), map[]) == WidgetPayload();
  }

  lemma SerpLiveUrl(apiKey: string)
    ensures Url(NewClient(apiKey, false), SerpOrganic, Live)
            == "https://api.dataforseo.com/v3/serp/google/organic/live/advanced"
  {
  }

  /** serp live with keyword "widget" at location 2840 and no options posts
      that one payload, with serp's defaults, to the production live path and
      returns the response unchanged. */
  lemma SerpWidgetScenario(apiKey: string, response: Value)
    ensures Serp(NewClient(apiKey, false), Some(Single("widget")), DefaultLocationCode, true, None, map[], response)
            == Call(Some(Post("https://api.dataforseo.com/v3/serp/google/organic/live/advanced",
                              [WidgetPayload()])),
                    Response(response))
  {
    SerpWidgetPayloads();
    SerpLiveUrl(apiKey);
    assert !Missing(Some(Single("widget")));
  }
}
