/** The download handler: classify the URL, call the two engines in the
    order its class dictates, return the first record, or fail with a fixed
    400 error. Each reply carries the engines called, in order. */
module Orchestrator {
  import opened Wrappers
  import opened Records
  import Strings
  import LocalEngine
  import RemoteEngine

  datatype Engine = Local | Remote

  /** What the handler answers: a record, or the HTTP error it raises. */
  datatype Outcome = Found(result: Record) | HttpError(status: int, detail: string)

  /** The answer together with the engines called, in call order. */
  datatype Reply = Reply(outcome: Outcome, calls: seq<Engine>)

  const FailStatus: int := 400
  const FailDetail: string := "Gagal mengambil video. Link mungkin private atau server diblokir."

  /** Everything the handler depends on besides the URL: the remote
      configuration and the two opaque collaborators. */
  datatype Env = Env(
    config: RemoteEngine.Config,
    extract: LocalEngine.Extractor,
    fetch: RemoteEngine.Fetcher)

  /** The YouTube class: the URL contains "youtube.com" or "youtu.be". */
  predicate IsYouTube(url: string) {
    Strings.Contains(url, "youtube.com") || Strings.Contains(url, "youtu.be")
  }

  /** Classification is a plain case-sensitive substring test and nothing more. */
  lemma IsYouTubeIff(url: string)
    ensures IsYouTube(url) <==> Strings.Occurs(url, "youtube.com") || Strings.Occurs(url, "youtu.be")
  {
    Strings.ContainsIffOccurs(url, "youtube.com");
    Strings.ContainsIffOccurs(url, "youtu.be");
  }

  /** Remote first for YouTube, local first for everything else. */
  function FirstEngine(url: string): Engine {
    if IsYouTube(url) then Remote else Local
  }

  function Other(e: Engine): (o: Engine)
    ensures o != e
  {
    match e
    case Local => Remote
    case Remote => Local
  }

  /** The two-step fallback over any engines `run`: call the first engine;
      if its result is truthy return it, otherwise call the second; if that
      is falsy too, fail. */
  function Orchestrate(url: string, run: Engine -> Option<Record>): (reply: Reply)
    ensures 1 <= |reply.calls| <= 2
    ensures reply.calls[0] == FirstEngine(url)
    ensures |reply.calls| == 2 ==> reply.calls[1] == Other(reply.calls[0])
  {
    var first := FirstEngine(url);
    var result := run(first);
    if Truthy(result) then Reply(Found(result.value), [first])
    else
      var second := Other(first);
      var result := run(second);
      if Truthy(result) then Reply(Found(result.value), [first, second])
      else Reply(HttpError(FailStatus, FailDetail), [first, second])
  }

  /** Calling engine `e` on `url`: only the result matters to the handler. */
  function Invoke(env: Env, e: Engine, url: string): Option<Record> {
    match e
    case Local => LocalEngine.LocalLink(env.extract, url)
    case Remote => RemoteEngine.RapidApiLink(env.config, env.fetch, url).result
  }

  /** The handler for a POST with body `{"url": url}`. */
  function DownloadVideo(env: Env, url: string): Reply {
    Orchestrate(url, e => Invoke(env, e, url))
  }

  /** Reference semantics of a fallback chain: call the engines of `order`
      one after another and stop at the first that returns a record. */
  function Fallback(order: seq<Engine>, run: Engine -> Option<Record>): Reply
    decreases |order|
  {
    if order == [] then Reply(HttpError(FailStatus, FailDetail), [])
    else if run(order[0]).Some? then Reply(Found(run(order[0]).value), [order[0]])
    else
      var rest := Fallback(order[1..], run);
      Reply(rest.outcome, [order[0]] + rest.calls)
  }

  /** The handler's order of engines for a URL. */
  function EngineOrder(url: string): (order: seq<Engine>)
    ensures |order| == 2 && order[0] != order[1]
  {
    [FirstEngine(url), Other(FirstEngine(url))]
  }

  /** The handler is the fallback chain over its engine order: truthiness
      tests on the engines' results are exactly "a record was returned". */
  lemma OrchestrateIsFallback(url: string, run: Engine -> Option<Record>)
    ensures Orchestrate(url, run) == Fallback(EngineOrder(url), run)
  {
    var order := EngineOrder(url);
    TruthyIffSome(run(order[0]));
    TruthyIffSome(run(order[1]));
    if run(order[0]).None? {
      assert order[1..][0] == order[1];
      assert order[1..][1..] == [];
      if run(order[1]).None? {
        assert Fallback(order[1..], run).calls == [order[1]];
      }
    }
  }

  /** YouTube class: the remote engine is called first, and the local engine
      is called, second, exactly when the remote engine returned nothing. */
  lemma YouTubeRemoteFirst(url: string, run: Engine -> Option<Record>)
    requires IsYouTube(url)
    ensures Orchestrate(url, run).calls[0] == Remote
    ensures Local in Orchestrate(url, run).calls <==> run(Remote).None?
    ensures run(Remote).None? ==> Orchestrate(url, run).calls == [Remote, Local]
  {
  }

  /** Any other URL: the local engine is called first, and the remote engine
      is called, second, exactly when the local engine returned nothing. */
  lemma OtherLocalFirst(url: string, run: Engine -> Option<Record>)
    requires !IsYouTube(url)
    ensures Orchestrate(url, run).calls[0] == Local
    ensures Remote in Orchestrate(url, run).calls <==> run(Local).None?
    ensures run(Local).None? ==> Orchestrate(url, run).calls == [Local, Remote]
  {
  }

  /** No engine is called twice for one request. */
  lemma AtMostOncePerEngine(url: string, run: Engine -> Option<Record>)
    ensures forall i, j :: 0 <= i < j < |Orchestrate(url, run).calls| ==>
      Orchestrate(url, run).calls[i] != Orchestrate(url, run).calls[j]
  {
  }

  /** The first record returned is passed through unchanged, the engine that
      produced it is the last one called, and every engine called before it
      returned nothing. */
  lemma FirstSuccessUnchanged(url: string, run: Engine -> Option<Record>)
    ensures Orchestrate(url, run).outcome.Found? ==>
      var calls := Orchestrate(url, run).calls;
      && run(calls[|calls| - 1]) == Some(Orchestrate(url, run).outcome.result)
      && forall i :: 0 <= i < |calls| - 1 ==> run(calls[i]).None?
    ensures run(FirstEngine(url)).Some? ==>
      Orchestrate(url, run) == Reply(Found(run(FirstEngine(url)).value), [FirstEngine(url)])
  {
  }

  /** The handler fails exactly when both engines return nothing, and then
      always with the same status and detail, which depend on neither the URL
      nor anything the engines produced. */
  lemma FailureIsFixed(url: string, run: Engine -> Option<Record>)
    ensures Orchestrate(url, run).outcome.HttpError? <==> run(Local).None? && run(Remote).None?
    ensures Orchestrate(url, run).outcome.HttpError? ==>
      Orchestrate(url, run).outcome == HttpError(FailStatus, FailDetail)
  {
  }

  /** Without a service key a YouTube URL still gets its last-resort local
      attempt: the remote engine is called, gives up, and the local engine
      decides the answer. */
  lemma NoKeyYouTubeFallsBackToLocal(env: Env, url: string)
    requires !RemoteEngine.Configured(env.config) && IsYouTube(url)
    ensures DownloadVideo(env, url).calls == [Remote, Local]
    ensures DownloadVideo(env, url).outcome.Found? <==> LocalEngine.LocalLink(env.extract, url).Some?
  {
  }

  /** For a non-YouTube URL a successful extraction ends the request: the
      remote engine is never called, and the local record is returned even
      when the info has no `url` (its download link is then `null`). */
  lemma LocalSuccessShortCircuits(env: Env, url: string)
    requires !IsYouTube(url)
    requires env.extract(url).Some? && env.extract(url).value.JObject?
    ensures DownloadVideo(env, url).calls == [Local]
    ensures DownloadVideo(env, url).outcome == Found(LocalEngine.LocalLink(env.extract, url).value)
    ensures DownloadVideo(env, url).outcome.result.source == LocalEngine.LocalSource
  {
  }

  /** For a YouTube URL with a key set, a well-shaped answer from the service
      ends the request: only the remote engine is called, and the normalised
      record, linking to `links[0].link`, is returned. */
  lemma RemoteSuccessShortCircuits(env: Env, url: string)
    requires IsYouTube(url) && RemoteEngine.Configured(env.config)
    requires env.fetch(RemoteEngine.BuildRequest(env.config, url)).Some?
    requires RemoteEngine.HasLinksShape(env.fetch(RemoteEngine.BuildRequest(env.config, url)).value)
    ensures DownloadVideo(env, url).calls == [Remote]
    ensures
      var body := env.fetch(RemoteEngine.BuildRequest(env.config, url)).value;
      && DownloadVideo(env, url).outcome == Found(RemoteEngine.NormaliseResponse(body).value)
      && DownloadVideo(env, url).outcome.result.source == RemoteEngine.RemoteSource
      && DownloadVideo(env, url).outcome.result.downloadUrl == RemoteEngine.BestLink(body)
  {
    RemoteEngine.NormaliseFields(env.fetch(RemoteEngine.BuildRequest(env.config, url)).value);
  }

  /** For any other URL whose extraction fails, a well-shaped answer from the
      service is the fallback: both engines are called, local first, and the
      normalised remote record is returned. */
  lemma RemoteFallbackAfterLocalFailure(env: Env, url: string)
    requires !IsYouTube(url) && LocalEngine.LocalLink(env.extract, url).None?
    requires RemoteEngine.Configured(env.config)
    requires env.fetch(RemoteEngine.BuildRequest(env.config, url)).Some?
    requires RemoteEngine.HasLinksShape(env.fetch(RemoteEngine.BuildRequest(env.config, url)).value)
    ensures DownloadVideo(env, url).calls == [Local, Remote]
    ensures
      var body := env.fetch(RemoteEngine.BuildRequest(env.config, url)).value;
      && DownloadVideo(env, url).outcome == Found(RemoteEngine.NormaliseResponse(body).value)
      && DownloadVideo(env, url).outcome.result.downloadUrl == RemoteEngine.BestLink(body)
  {
    RemoteEngine.NormaliseFields(env.fetch(RemoteEngine.BuildRequest(env.config, url)).value);
  }

  /** The short YouTube link form is recognised. */
  lemma ShortLinkIsYouTube()
    ensures IsYouTube("https://" + "youtu.be" + "/z9oV-6-eP3Y")
  {
    IsYouTubeIff("https://" + "youtu.be" + "/z9oV-6-eP3Y");
    Strings.OccursInside("https://", "youtu.be", "/z9oV-6-eP3Y");
  }

  /** The long YouTube link form is recognised. */
  lemma WatchLinkIsYouTube()
    ensures IsYouTube("https://www." + "youtube.com" + "/watch?v=abcDEF12345&t=10")
  {
    var url := "https://www." + "youtube.com" + "/watch?v=abcDEF12345&t=10";
    IsYouTubeIff(url);
    Strings.OccursInside("https://www.", "youtube.com", "/watch?v=abcDEF12345&t=10");
  }

  /** The test is case-sensitive: an upper-case domain is not YouTube. */
  lemma UpperCaseIsNotYouTube()
    ensures !IsYouTube("YOUTU.BE")
  {
    assert "YOUTU.BE"[0] != "youtu.be"[0];
    assert !Strings.Contains("OUTU.BE", "youtu.be");
  }
}
