/**
 * The per-exchange decision of `cacheRequest` as a function of the mode,
 * the store, the paused exchange and the environment's answers, with the
 * properties the engine promises for one exchange and across a save, a
 * flush and a replay.
 */
module Interception {
  import opened Types
  import opened Keys
  import opened ResponseStore
  import opened CacheIndex

  /** `responseCode || 200`: a missing or zero status code becomes 200. */
  function CodeOr200(code: Option<int>): (c: int)
    ensures c != 0
    ensures code.Some? && code.value != 0 ==> c == code.value
    ensures code.None? || code.value == 0 ==> c == 200
  {
    if code.None? || code.value == 0 then 200 else code.value
  }

  /** The body a capture stores: base64-encoded unless the protocol already did. */
  function EncodedBody(p: Primitives, fetched: ResponseBody): (body: string)
    ensures fetched.base64Encoded ==> body == fetched.body
    ensures !fetched.base64Encoded ==> body == p.base64(fetched.body)
  {
    if fetched.base64Encoded then fetched.body else p.base64(fetched.body)
  }

  /** The exchange is not bypassed: its URL has an origin outside the never-cache set. */
  predicate Interceptable(cfg: Config, request: Request)
  {
    cfg.prims.origin(request.url).Some? && cfg.prims.origin(request.url).value !in NeverCache(cfg)
  }

  /**
   * What `cacheRequest` does with one paused exchange: the command it sends
   * and the store afterwards. `fetched` is the result of
   * `Fetch.getResponseBody`, consulted in save mode only.
   */
  function ExchangeOutcome(cfg: Config, mode: Option<string>, st: Store, ex: Paused,
                           fetched: Option<ResponseBody>, io: Io): (out: (Action, Store))
    // a URL that does not parse leaves the exchange paused and changes nothing
    ensures cfg.prims.origin(ex.request.url).None? ==> out == (Unanswered(InvalidUrl), st)
    // never-cache origins are passed through untouched in every mode
    ensures cfg.prims.origin(ex.request.url).Some? && !Interceptable(cfg, ex.request) ==>
              out == (Continue(ex.requestId), st)
    // only save mode changes the store
    ensures mode != Some(SAVE) ==> out.1 == st
    // serve mode answers every interceptable exchange itself, never from the network
    ensures mode == Some(SERVE) && Interceptable(cfg, ex.request) ==>
              out.0.Fulfill? && out.0.requestId == ex.requestId
    // index keys are only added; the only entries that may change are the key's and its origin's
    ensures st.cache.Keys <= out.1.cache.Keys
    ensures forall k ::
              k in st.cache && k != SerializeRequest(ex.request) && Some(k) != cfg.prims.origin(ex.request.url)
              ==> out.1.cache[k] == st.cache[k]
    ensures out.1.cache.Keys <= st.cache.Keys + {SerializeRequest(ex.request)}
                                + (if cfg.prims.origin(ex.request.url).Some? then {cfg.prims.origin(ex.request.url).value} else {})
    // a capture that changes the store leaves the key pointing at a readable file holding the key's record
    ensures mode == Some(SAVE) && out.0.Continue? && out.1 != st ==>
              var key := SerializeRequest(ex.request);
              && key in out.1.cache && out.1.cache[key] in out.1.files
              && out.1.files[out.1.cache[key]].RecordFile?
              && out.1.files[out.1.cache[key]].record.key == key
  {
    match cfg.prims.origin(ex.request.url)
    case None => (Unanswered(InvalidUrl), st)
    case Some(origin) =>
      if origin in NeverCache(cfg) then
        (Continue(ex.requestId), st)
      else
        var key := SerializeRequest(ex.request);
        if mode == Some(SERVE) then
          if key in st.cache then
            var reply := GetResponseData(cfg.prims, st.files, st.cache[key]);
            (Fulfill(ex.requestId, CodeOr200(reply.responseCode), reply.responseHeaders, reply.body), st)
          else
            var stub := Uncached(cfg.prims);
            (Fulfill(ex.requestId, stub.responseCode.value, stub.responseHeaders, stub.body), st)
        else if mode == Some(SAVE) then
          if ex.responseStatusCode == Some(302) || fetched.None? then
            (Continue(ex.requestId), st)
          else
            var record := ResponseRecord(key, ex.responseStatusCode, ex.responseHeaders,
                                         EncodedBody(cfg.prims, fetched.value));
            var (saved, st1) := SaveEffect(cfg, st, key, ex.request.url, record, io);
            match saved
            case Err(cause) => (Unanswered(cause), st1)
            case Ok(path) => (Continue(ex.requestId), st1.(cache := st1.cache[key := path]))
        else
          (Unanswered(UnknownMode), st)
  }

  /** A cached key is served from its file: the stored code (200 if missing or zero), headers and body. */
  lemma ServeHit(cfg: Config, st: Store, ex: Paused, fetched: Option<ResponseBody>, io: Io)
    requires Interceptable(cfg, ex.request) && SerializeRequest(ex.request) in st.cache
    ensures var reply := GetResponseData(cfg.prims, st.files, st.cache[SerializeRequest(ex.request)]);
            ExchangeOutcome(cfg, Some(SERVE), st, ex, fetched, io)
              == (Fulfill(ex.requestId, CodeOr200(reply.responseCode), reply.responseHeaders, reply.body), st)
  {
  }

  /** An uncached key is answered with the stub: 404, plain text of length 26, the stub text in base64. */
  lemma ServeMiss(cfg: Config, st: Store, ex: Paused, fetched: Option<ResponseBody>, io: Io)
    requires Interceptable(cfg, ex.request) && SerializeRequest(ex.request) !in st.cache
    ensures ExchangeOutcome(cfg, Some(SERVE), st, ex, fetched, io)
              == (Fulfill(ex.requestId, 404, [Header("Content-type", "text/plain"), Header("Content-length", "26")],
                          cfg.prims.base64("We have not saved this data")), st)
  {
  }

  /** Redirects and exchanges whose body cannot be retrieved are passed on without capture. */
  lemma SaveSkips(cfg: Config, st: Store, ex: Paused, fetched: Option<ResponseBody>, io: Io)
    requires Interceptable(cfg, ex.request)
    requires ex.responseStatusCode == Some(302) || fetched.None?
    ensures ExchangeOutcome(cfg, Some(SAVE), st, ex, fetched, io) == (Continue(ex.requestId), st)
  {
  }

  /**
   * A successful capture: the origin gets a directory entry if it had none,
   * the record is written under the key's hash, the key maps to that file,
   * and the exchange continues to the browser.
   */
  lemma SaveCaptures(cfg: Config, st: Store, ex: Paused, fetched: ResponseBody, io: Io)
    requires Interceptable(cfg, ex.request) && ex.responseStatusCode != Some(302)
    requires io.writeOk && (io.mkdirOk || HasOriginDir(st.cache, cfg.prims.origin(ex.request.url).value))
    ensures var origin := cfg.prims.origin(ex.request.url).value;
            var key := SerializeRequest(ex.request);
            var dir := if HasOriginDir(st.cache, origin) then st.cache[origin] else OriginDir(cfg.libraryPath, origin);
            var path := ResponsePath(cfg.prims, dir, key);
            var record := ResponseRecord(key, ex.responseStatusCode, ex.responseHeaders, EncodedBody(cfg.prims, fetched));
            ExchangeOutcome(cfg, Some(SAVE), st, ex, Some(fetched), io)
              == (Continue(ex.requestId),
                  Store(st.cache[origin := dir][key := path],
                        st.files[path := RecordFile(record)],
                        if HasOriginDir(st.cache, origin) then st.dirs else st.dirs + {dir}))
  {
    var origin := cfg.prims.origin(ex.request.url).value;
    if HasOriginDir(st.cache, origin) {
      assert st.cache[origin := st.cache[origin]] == st.cache;
    }
  }

  /**
   * Capture, flush and replay: after a save-mode capture, a manifest written
   * from the index and loaded again serves a request with the same method
   * and URL with exactly the captured code, headers and body.
   */
  lemma CaptureReplaysAfterReload(cfg: Config, st: Store, saved: Paused, fetched: ResponseBody, io: Io,
                                  entries: seq<(string, string)>, replayed: Paused)
    requires Interceptable(cfg, saved.request) && saved.responseStatusCode != Some(302)
    requires io.writeOk && (io.mkdirOk || HasOriginDir(st.cache, cfg.prims.origin(saved.request.url).value))
    requires MapOfPairs(entries) == ExchangeOutcome(cfg, Some(SAVE), st, saved, Some(fetched), io).1.cache
    requires replayed.request.httpMethod == saved.request.httpMethod && replayed.request.url == saved.request.url
    ensures var after := ExchangeOutcome(cfg, Some(SAVE), st, saved, Some(fetched), io).1;
            var reloaded := Store(LoadIndex(Some(Pairs(entries))), after.files, after.dirs);
            ExchangeOutcome(cfg, Some(SERVE), reloaded, replayed, None, io).0
              == Fulfill(replayed.requestId, CodeOr200(saved.responseStatusCode), saved.responseHeaders,
                         EncodedBody(cfg.prims, fetched))
  {
  }
}
