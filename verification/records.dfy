/** The result record both engines return, seen as the Python dict the
    handler tests for truthiness and sends back to the caller. */
module Records {
  import opened Wrappers
  import opened Json

  /** One resolved video: which engine found it, its metadata and the direct
      link. Metadata values are whatever the engine supplied, `null` included. */
  datatype Record = Record(
    source: string,
    title: Json,
    thumbnail: Json,
    downloadUrl: Json,
    platform: Json)

  /** The dict literal the engines build, key for key. */
  function AsDict(r: Record): (d: map<string, Json>)
    ensures d.Keys == {"source", "title", "thumbnail", "download_url", "platform"}
    ensures d["source"] == JString(r.source) && d["download_url"] == r.downloadUrl
  {
    map[
      "source" := JString(r.source),
      "title" := r.title,
      "thumbnail" := r.thumbnail,
      "download_url" := r.downloadUrl,
      "platform" := r.platform]
  }

  /** Python's `if result:` on an engine's return value: `None` is false and a
      dict is true exactly when it has at least one key. */
  predicate Truthy(o: Option<Record>) {
    match o
    case None => false
    case Some(r) => |AsDict(r)| != 0
  }

  /** Every record an engine returns is a non-empty dict, so a returned record
      is always accepted, whatever its field values (a `null` download link
      included), and only `None` is rejected. */
  lemma TruthyIffSome(o: Option<Record>)
    ensures Truthy(o) <==> o.Some?
  {
  }
}
