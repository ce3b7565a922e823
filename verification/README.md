# Hybrid video downloader: resolution orchestrator in Dafny

This project models the decision logic of the hybrid video-link API in
`main.py`. A POST to `/api/download` carries a URL. The handler classifies
the URL as YouTube or not. It then calls two engines in a class-dependent
order:

- the local engine, which runs yt-dlp's `extract_info` without downloading;
- the remote engine, a paid RapidAPI aggregation service.

It returns the first record an engine produces. If both fail, it raises a
fixed HTTP 400 error.

Layout (one module per file):

- `wrappers.dfy` (`Wrappers`): `Option`; `Py`, the outcome of a Python
  expression that may raise; `CatchAll`, the `except Exception: return None`.
- `strings.dfy` (`Strings`): Python's substring test `pat in s`, proved
  equal to "occurs at some index".
- `json.dfy` (`Json`): decoded JSON values and the Python operations applied
  to them (`in`, subscripting, `.get`), with `KeyError`, `IndexError`,
  `TypeError` and `AttributeError` made explicit.
- `records.dfy` (`Records`): the result record, the dict it is returned as,
  and Python truthiness of an engine's return value.
- `local_engine.dfy` (`LocalEngine`): `get_local_link`, with the extractor as
  an opaque function.
- `remote_engine.dfy` (`RemoteEngine`): `get_rapidapi_link`. This covers the
  key guard, the request it builds, the opaque HTTP call plus JSON decoding,
  and the `links` normaliser.
- `orchestrator.dfy` (`Orchestrator`): `download_video`. Each reply carries
  the list of engines called, in order. Ordering, short-circuiting and
  "at most one call per engine" are lemmas over that list.

Collaborators the model cannot see are parameters:

- The extractor is a function `string -> Option<Json>`. `None` stands for any
  exception raised by yt-dlp.
- The HTTP call plus `response.json()` is a function `Request -> Option<Json>`.
  `None` stands for a transport or decoding exception.
- The API key and host are `Option<string>` inputs.

`Orchestrator` also has three lemmas about single sample URLs:
`ShortLinkIsYouTube`, `WatchLinkIsYouTube` and `UpperCaseIsNotYouTube`.
They illustrate `IsYouTubeIff` and are not separate properties.

The orchestrator's ordering lemmas hold for any engine behaviour. They are
stated over `Orchestrate`, which takes an arbitrary `Engine -> Option<Record>`.

## Model

| member | source | states |
|---|---|---|
| Strings.ContainsIffOccurs | main.py:103 | the substring search used for `in` answers true exactly when the pattern occurs at some index of the URL |
| Orchestrator.IsYouTubeIff | main.py:103 | a URL is in the YouTube class exactly when "youtube.com" or "youtu.be" occurs in it; no other parsing |
| Orchestrator.Orchestrate | main.py:103-122 | one or two engines are called; the first is the class's preferred engine; a second call is always to the other engine |
| Orchestrator.OrchestrateIsFallback | main.py:103-122 | the handler equals the reference fallback chain over its engine order, which stops at the first engine returning a record |
| Orchestrator.YouTubeRemoteFirst | main.py:103-108 | for a YouTube URL the remote engine is called first; the local engine is called exactly when the remote one returned nothing |
| Orchestrator.OtherLocalFirst | main.py:112-119 | for any other URL the local engine is called first; the remote engine is called exactly when the local one returned nothing |
| Orchestrator.AtMostOncePerEngine | main.py:103-119 | no engine appears twice among the calls of one request |
| Orchestrator.FirstSuccessUnchanged | main.py:103-119 | the returned record is the last called engine's result, unchanged; every earlier engine returned nothing; a first-engine success ends the request after one call |
| Orchestrator.FailureIsFixed | main.py:121-122 | the handler fails exactly when both engines return nothing, and then always with status 400 and the same fixed detail |
| Orchestrator.NoKeyYouTubeFallsBackToLocal | main.py:103-108 | with no API key a YouTube URL calls the remote engine, then the local one, and succeeds exactly when the local engine does |
| Orchestrator.RemoteSuccessShortCircuits | main.py:103-105 | for a YouTube URL with a key set and a body of the `links` shape, only the remote engine is called and its normalised record, linking to `links[0].link`, is returned |
| Orchestrator.RemoteFallbackAfterLocalFailure | main.py:112-119 | for any other URL whose local engine fails, with a key set and a body of the `links` shape, both engines are called, local first, and the normalised remote record is returned |
| Orchestrator.LocalSuccessShortCircuits | main.py:112-115 | for a non-YouTube URL a successful extraction ends the request: only the local engine is called and its record is returned |
| Records.TruthyIffSome | main.py:105 | `if result:` accepts every record an engine returns and rejects only `None` |
| LocalEngine.LocalLink | main.py:39-52 | the local engine succeeds exactly when extraction returns an info dict; the record is tagged "Local Server" and copies title, thumbnail, url and extractor, `null` where absent |
| LocalEngine.LocalSuccessIsTruthy | main.py:43-49 | a local success is accepted by the handler even when the info has no `url`, in which case the download link is `null` |
| RemoteEngine.RapidApiLink | main.py:62-91 | with an unset or empty key the engine returns `None` without building a request; otherwise it sends exactly the built request and returns the normalised decoded body, or `None` when the call or the decoding failed |
| RemoteEngine.NormaliseIffShape | main.py:78-91 | the normaliser yields a record exactly for an object whose `links` is a non-empty array whose first entry has `link`; every other body gives `None` |
| RemoteEngine.NormaliseFields | main.py:80-87 | a normalised record is tagged "RapidAPI"/"External", links to `links[0].link`, and defaults title to "Video Download" and thumbnail to "" only when `title`/`picture` are absent |
| RemoteEngine.LinksRuleRaises | main.py:78-91 | the bodies on which the parsing raises, which only the catch-all turns into `None`: non-containers, a string or list holding "links", an object with a malformed `links` |
| RemoteEngine.RemoteSuccessIff | main.py:62-91 | the remote engine succeeds exactly when a key is set, its request gets a decoded body, and that body has the `links` shape |

## Left out

- FastAPI app, `VideoRequest` model, the `home` route and `uvicorn.run` (main.py:12, 19-20, 94, 124-129): server plumbing. The handler takes the URL string directly.
- yt-dlp itself and its options dict (main.py:29-37): the extractor is an opaque function parameter. Exceptions raised by its construction or context manager count as extraction failure.
- `requests.get`, `response.json()` and the HTTP status: one opaque function from the built request to an optional decoded body. An HTTP error status whose body still decodes is seen only through its body, as in the source.
- `load_dotenv` and `os.getenv` (main.py:10, 15-16): the key and host are inputs. A header whose value is `None` is kept in the modelled request; the HTTP client would drop it.
- All `print` logging; the `async` nature of the handler, since nothing in it depends on concurrency.
- JSON numbers are integers; floating-point values are not modelled. They only ever pass through as metadata.
- `main.py` has a single normalisation rule, on `links`, and returns a single `download_url`. The model has exactly that rule and nothing more. A `null` download link taken from `links[0].link` or from the info dict is still a success, as in the code.
- Timeouts: `requests.get` (main.py:73) is called without a timeout, and yt-dlp's extraction has none set either. The model assumes every fetch and every extraction returns, with either a value or a failure. A call that hangs is not modelled.
- Idempotence of a request is not stated as a lemma. Every member here is a pure function, so equal inputs give equal replies by construction.
