/** The local engine: an opaque extractor (yt-dlp's `extract_info`, run
    without downloading) whose info dict is copied into a result record. */
module LocalEngine {
  import opened Wrappers
  import opened Json
  import opened Records

  /** The tag a local result carries in its `source` field. */
  const LocalSource: string := "Local Server"

  /** The extractor as the engine sees it: for a URL, either the info value
      it produced, or `None` when it raised (blocked, private, unsupported,
      network failure, ...). */
  type Extractor = string -> Option<Json>

  /** The statements inside the `try`, after extraction: build the dict from
      `info`. Reading fields with `.get` raises only when `info` is not a dict. */
  function BuildRecord(info: Json): Py<Option<Record>> {
    match info
    case JObject(f) =>
      Val(Some(Record(
        LocalSource,
        DictGet(f, "title", JNull),
        DictGet(f, "thumbnail", JNull),
        DictGet(f, "url", JNull),
        DictGet(f, "extractor", JNull))))
    case _ => Raise(AttributeError)
  }

  /** The local engine: a record tagged "Local Server" with the four fields
      copied from the info dict, or `None` when extraction or reading the
      info raised (an info value that is not a dict has no `.get`). */
  function LocalLink(extract: Extractor, url: string): (r: Option<Record>)
    ensures r.Some? <==> extract(url).Some? && extract(url).value.JObject?
    ensures r.Some? ==>
      var info := extract(url).value.fields;
      && r.value.source == LocalSource
      && r.value.title == DictGet(info, "title", JNull)
      && r.value.thumbnail == DictGet(info, "thumbnail", JNull)
      && r.value.downloadUrl == DictGet(info, "url", JNull)
      && r.value.platform == DictGet(info, "extractor", JNull)
  {
    match extract(url)
    case None => None
    case Some(info) => CatchAll(BuildRecord(info))
  }

  /** A local success is accepted by the handler even when the info dict has
      no `url`: the record is non-empty and its download link is `null`. */
  lemma LocalSuccessIsTruthy(extract: Extractor, url: string)
    requires extract(url).Some? && extract(url).value.JObject?
    ensures Truthy(LocalLink(extract, url))
    ensures "url" !in extract(url).value.fields ==> LocalLink(extract, url).value.downloadUrl == JNull
  {
  }
}
