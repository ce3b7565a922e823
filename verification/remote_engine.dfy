/** The remote engine: a key guard, one GET request to the aggregation
    service, and a single-rule normaliser for its JSON answer. */
module RemoteEngine {
  import opened Wrappers
  import opened Json
  import opened Records
  import Strings

  /** Endpoint of the generic social-media aggregation service. */
  const RapidApiUrl: string := "https://social-media-video-downloader.p.rapidapi.com/smvd/get/all"
  const RemoteSource: string := "RapidAPI"
  const RemotePlatform: string := "External"
  const DefaultTitle: string := "Video Download"
  const DefaultThumbnail: string := ""

  /** Service key and host, as read from the environment (absent or set). */
  datatype Config = Config(key: Option<string>, host: Option<string>)

  /** The GET request: endpoint, query string and headers. A header whose
      value is `None` is dropped by the HTTP client; it is kept here as is. */
  datatype Request = Request(
    endpoint: string,
    params: map<string, string>,
    headers: map<string, Option<string>>)

  /** The HTTP call plus JSON decoding, opaque: the decoded body, or `None`
      when the transport or the decoding raised. */
  type Fetcher = Request -> Option<Json>

  /** What one run of the engine did: its result, and the request it sent,
      if any. */
  datatype RemoteRun = RemoteRun(result: Option<Record>, sent: Option<Request>)

  /** Python's `not RAPID_API_KEY` is false: the key is set and non-empty. */
  predicate Configured(cfg: Config) {
    cfg.key.Some? && cfg.key.value != ""
  }

  function BuildRequest(cfg: Config, url: string): (req: Request)
    requires Configured(cfg)
    ensures req.endpoint == RapidApiUrl
    ensures req.params.Keys == {"url"} && req.params["url"] == url
    ensures req.headers.Keys == {"X-RapidAPI-Key", "X-RapidAPI-Host"}
    ensures req.headers["X-RapidAPI-Key"] == cfg.key
    ensures req.headers["X-RapidAPI-Host"] == cfg.host
  {
    Request(
      RapidApiUrl,
      map["url" := url],
      map["X-RapidAPI-Key" := cfg.key, "X-RapidAPI-Host" := cfg.host])
  }

  /** The statements inside the `try`, after decoding, evaluated with
      Python's semantics: `'links' in data` and `data['links'][0]['link']`,
      either of which may raise, then the dict with its two `.get` defaults. */
  function LinksRule(data: Json): Py<Option<Record>> {
    var hasLinks :- PyIn("links", data);
    if !hasLinks then Val(None)
    else
      var links :- Subscript(data, KStr("links"));
      var first :- Subscript(links, KInt(0));
      var bestLink :- Subscript(first, KStr("link"));
      match data
      case JObject(f) =>
        Val(Some(Record(
          RemoteSource,
          DictGet(f, "title", JString(DefaultTitle)),
          DictGet(f, "picture", JString(DefaultThumbnail)),
          bestLink,
          JString(RemotePlatform))))
      case _ => Raise(AttributeError)
  }

  /** The one response shape the normaliser accepts: an object whose `links`
      is a non-empty array whose first entry is an object with a `link`. */
  predicate HasLinksShape(data: Json) {
    && data.JObject?
    && "links" in data.fields
    && data.fields["links"].JArray?
    && |data.fields["links"].items| > 0
    && data.fields["links"].items[0].JObject?
    && "link" in data.fields["links"].items[0].fields
  }

  /** `links[0].link` of a well-shaped response. */
  function BestLink(data: Json): Json
    requires HasLinksShape(data)
  {
    data.fields["links"].items[0].fields["link"]
  }

  /** The normaliser with its catch-all: the record for a well-shaped body,
      `None` for anything else. */
  function NormaliseResponse(data: Json): Option<Record> {
    CatchAll(LinksRule(data))
  }

  /** The remote engine. Without a key it gives up before building a request;
      otherwise it sends exactly one request and normalises the answer. */
  function RapidApiLink(cfg: Config, fetch: Fetcher, url: string): (run: RemoteRun)
    ensures !Configured(cfg) ==> run == RemoteRun(None, None)
    ensures Configured(cfg) ==> run.sent == Some(BuildRequest(cfg, url))
    ensures run.result.Some? ==> run.sent.Some? && fetch(run.sent.value).Some?
    ensures Configured(cfg) ==>
      run.result == (match fetch(BuildRequest(cfg, url))
                     case None => None
                     case Some(data) => NormaliseResponse(data))
  {
    if !Configured(cfg) then RemoteRun(None, None)
    else
      var req := BuildRequest(cfg, url);
      match fetch(req)
      case None => RemoteRun(None, Some(req))
      case Some(data) => RemoteRun(NormaliseResponse(data), Some(req))
  }

  /** The normaliser accepts exactly the `links` shape: a missing `links` key,
      an empty `links`, a first entry without `link`, or a body that is not an
      object all give `None`. */
  lemma NormaliseIffShape(data: Json)
    ensures NormaliseResponse(data).Some? <==> HasLinksShape(data)
  {
  }

  /** On a well-shaped body the record is tagged "RapidAPI"/"External", links
      to `links[0].link`, and takes `title` and `picture` from the body, falling
      back to "Video Download" and "" only when those keys are absent. */
  lemma NormaliseFields(data: Json)
    requires HasLinksShape(data)
    ensures NormaliseResponse(data).Some?
    ensures
      var r := NormaliseResponse(data).value;
      && r.source == RemoteSource
      && r.platform == JString(RemotePlatform)
      && r.downloadUrl == BestLink(data)
      && r.title == (if "title" in data.fields then data.fields["title"] else JString(DefaultTitle))
      && r.thumbnail == (if "picture" in data.fields then data.fields["picture"] else JString(DefaultThumbnail))
  {
  }

  /** Which bodies make the `try` block raise, so that only the catch-all keeps
      the engine from failing: non-containers, a str or list that holds
      "links" (then subscripted by a string), and an object with `links` of the
      wrong shape. Every other malformed body returns `None` without raising. */
  lemma {:induction false} LinksRuleRaises(data: Json)
    ensures LinksRule(data).Raise? <==>
      || data.JNull? || data.JBool? || data.JNumber?
      || (data.JString? && Strings.Occurs(data.s, "links"))
      || (data.JArray? && JString("links") in data.items)
      || (data.JObject? && "links" in data.fields && !HasLinksShape(data))
  {
    if data.JString? {
      Strings.ContainsIffOccurs(data.s, "links");
    }
    NormaliseIffShape(data);
  }

  /** The engine succeeds exactly when a key is configured, the one request it
      sends gets a decoded body, and that body has the `links` shape. */
  lemma RemoteSuccessIff(cfg: Config, fetch: Fetcher, url: string)
    ensures RapidApiLink(cfg, fetch, url).result.Some? <==>
      && Configured(cfg)
      && fetch(BuildRequest(cfg, url)).Some?
      && HasLinksShape(fetch(BuildRequest(cfg, url)).value)
  {
  }
}
