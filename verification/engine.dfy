/**
 * The running engine: the module state of `archivist.js` (`Mode`, `Close`,
 * `State.Cache`) together with the file system it reads and writes, and the
 * operations that change them.
 */
module Engine {
  import opened Types
  import opened Keys
  import opened ResponseStore
  import opened CacheIndex
  import opened Interception

  /** The stage interception is enabled at with `Fetch.enable`. */
  datatype Stage = RequestStage | ResponseStage

  /**
   * Why `collect` or `changeMode` rejects: the `TypeError('Must specify
   * mode')` of `collect`, or the manifest flush of `saveCache` throwing.
   */
  datatype EngineError = MustSpecifyMode | ManifestWriteFailed

  /**
   * The stage `collect` registers for a mode: the response stage to capture
   * in save mode, the request stage to answer before the network in serve mode.
   */
  function StageFor(mode: string): (r: Result<Stage, EngineError>)
    ensures r == Ok(ResponseStage) <==> mode == SAVE
    ensures r == Ok(RequestStage) <==> mode == SERVE
    ensures r == Err(MustSpecifyMode) <==> mode != SAVE && mode != SERVE
  {
    if mode == SAVE then Ok(ResponseStage)
    else if mode == SERVE then Ok(RequestStage)
    else Err(MustSpecifyMode)
  }

  class Archivist {
    const cfg: Config
    /** `Mode`: `None` until `collect` first runs. */
    var mode: Option<string>
    /** `Fs`: set once `collect` has loaded the `fs` module; `saveCache` throws before that. */
    var hasFs: bool
    /** `Close` holds the close capability of a live protocol session. */
    var connected: bool
    /** The stage interception is enabled at on the live session, if any. */
    var stage: Option<Stage>
    /** `State.Cache`: origin → directory and key → response file. */
    var cache: map<string, string>
    /** Response files by path. */
    var files: map<string, FileData>
    /** Directories created under the library root. */
    var dirs: set<string>
    /** The manifest `cache.json`; `None` while it does not exist. */
    var manifest: Option<ManifestFile>

    function Snapshot(): Store
      reads this
    {
      Store(cache, files, dirs)
    }

    /** Module load: an empty index, no mode and no session, over an existing file system. */
    constructor (cfg: Config, files: map<string, FileData>, dirs: set<string>, manifest: Option<ManifestFile>)
      ensures this.cfg == cfg && mode == None && !hasFs && !connected && stage == None
      ensures cache == map[] && this.files == files && this.dirs == dirs && this.manifest == manifest
    {
      this.cfg := cfg;
      mode := None;
      hasFs := false;
      connected := false;
      stage := None;
      cache := map[];
      this.files := files;
      this.dirs := dirs;
      this.manifest := manifest;
    }

    /** `getMode`: the current mode, read without side effects. */
    function GetMode(): (m: Option<string>)
      reads this
      ensures m == mode
    {
      mode
    }

    /**
     * `collect`: load `fs`, connect a session, set the mode, create a
     * missing manifest (`createOk` is whether that write succeeds), load the
     * index from it (empty if it is missing or corrupt), and enable
     * interception at the mode's stage, or fail for an unknown mode after
     * all of that.
     */
    method Collect(m: string, createOk: bool) returns (started: Result<Stage, EngineError>)
      modifies this`mode, this`hasFs, this`connected, this`stage, this`cache, this`manifest
      ensures mode == Some(m) && hasFs && connected
      ensures manifest == if old(manifest).None? && !createOk then None else Some(Ensured(old(manifest)))
      ensures cache == LoadIndex(old(manifest))
      ensures started == StageFor(m)
      ensures stage == if started.Ok? then Some(started.value) else None
      ensures files == old(files) && dirs == old(dirs)
    {
      hasFs := true;
      connected := true;
      stage := None;
      mode := Some(m);
      if manifest.None? && createOk {
        manifest := Some(Pairs([]));
      }
      cache := LoadIndex(manifest);
      started := StageFor(m);
      if started.Ok? {
        stage := Some(started.value);
      }
    }

    /**
     * `saveCache`: overwrite the manifest with the index's entries, one pair
     * per key. `writeOk` is whether the write succeeds; before `collect` has
     * loaded `fs` the call throws as well, and the manifest is left as it was.
     */
    method SaveCache(writeOk: bool) returns (flushed: bool)
      modifies this`manifest
      ensures flushed <==> hasFs && writeOk
      ensures flushed ==> manifest.Some? && manifest.value.Pairs? && DistinctKeys(manifest.value.entries)
      ensures flushed ==> MapOfPairs(manifest.value.entries) == cache
      ensures !flushed ==> manifest == old(manifest)
    {
      if !hasFs || !writeOk {
        return false;
      }
      var entries := Entries(cache);
      manifest := Some(Pairs(entries));
      flushed := true;
    }

    /**
     * `changeMode`: flush the index, close the live session, set the mode
     * and collect again. The index survives the round trip through the
     * manifest unchanged. A flush that throws rejects before anything else
     * happens: mode, session, index and the loaded `fs` stay as they were.
     */
    method ChangeMode(m: string, writeOk: bool) returns (started: Result<Stage, EngineError>)
      modifies this`mode, this`hasFs, this`connected, this`stage, this`cache, this`manifest
      ensures !(old(hasFs) && writeOk) ==>
                && started == Err(ManifestWriteFailed)
                && mode == old(mode) && hasFs == old(hasFs) && connected == old(connected) && stage == old(stage)
                && cache == old(cache) && manifest == old(manifest)
      ensures old(hasFs) && writeOk ==>
                && GetMode() == Some(m) && hasFs && connected
                && cache == old(cache)
                && manifest.Some? && manifest.value.Pairs? && DistinctKeys(manifest.value.entries)
                && MapOfPairs(manifest.value.entries) == old(cache)
                && started == StageFor(m)
                && stage == (if started.Ok? then Some(started.value) else None)
      ensures files == old(files) && dirs == old(dirs)
    {
      var flushed := SaveCache(writeOk);
      if !flushed {
        return Err(ManifestWriteFailed);
      }
      if connected {
        connected := false;
        stage := None;
      }
      mode := Some(m);
      started := Collect(m, true);
      FlushThenLoad(old(cache), manifest.value.entries);
    }

    /** `saveResponseData`, in place: see `SaveEffect` for what it promises. */
    method SaveResponseData(key: string, url: string, response: ResponseRecord, io: Io)
      returns (saved: Result<string, Cause>)
      modifies this`cache, this`files, this`dirs
      ensures (saved, Snapshot()) == SaveEffect(cfg, old(Snapshot()), key, url, response, io)
    {
      var origin := cfg.prims.origin(url);
      if origin.None? {
        return Err(InvalidUrl);
      }
      var originDir := if origin.value in cache then cache[origin.value] else "";
      if originDir == "" {
        originDir := OriginDir(cfg.libraryPath, origin.value);
        if !io.mkdirOk {
          return Err(OriginDirFailed);
        }
        dirs := dirs + {originDir};
        cache := cache[origin.value := originDir];
      }
      var responsePath := ResponsePath(cfg.prims, originDir, key);
      if !io.writeOk {
        return Err(WriteFailed);
      }
      files := files[responsePath := RecordFile(response)];
      saved := Ok(responsePath);
    }

    /**
     * `cacheRequest`: handle one paused exchange in the current mode; see
     * `ExchangeOutcome` and the lemmas beside it for what it promises.
     */
    method CacheRequest(ex: Paused, fetched: Option<ResponseBody>, io: Io) returns (action: Action)
      modifies this`cache, this`files, this`dirs
      ensures (action, Snapshot()) == ExchangeOutcome(cfg, mode, old(Snapshot()), ex, fetched, io)
    {
      var bypass := DontCache(cfg, ex.request);
      if bypass.Err? {
        return Unanswered(InvalidUrl);
      }
      if bypass.value {
        return Continue(ex.requestId);
      }
      var key := SerializeRequest(ex.request);
      if mode == Some(SERVE) {
        if key in cache {
          var reply := GetResponseData(cfg.prims, files, cache[key]);
          action := Fulfill(ex.requestId, CodeOr200(reply.responseCode), reply.responseHeaders, reply.body);
        } else {
          var stub := Uncached(cfg.prims);
          action := Fulfill(ex.requestId, stub.responseCode.value, stub.responseHeaders, stub.body);
        }
      } else if mode == Some(SAVE) {
        if ex.responseStatusCode == Some(302) {
          return Continue(ex.requestId);
        }
        if fetched.None? {
          return Continue(ex.requestId);
        }
        var body := fetched.value.body;
        if !fetched.value.base64Encoded {
          body := cfg.prims.base64(body);
        }
        var response := ResponseRecord(key, ex.responseStatusCode, ex.responseHeaders, body);
        var saved := SaveResponseData(key, ex.request.url, response, io);
        if saved.Err? {
          return Unanswered(saved.error);
        }
        cache := cache[key := saved.value];
        action := Continue(ex.requestId);
      } else {
        action := Unanswered(UnknownMode);
      }
    }
  }

  /**
   * The first half of a client session: start in save mode and capture
   * `GET http://example.test/a` (status 200, an HTML content type, body "hi"
   * as plain text).
   */
  method CaptureExample(cfg: Config, get: Request) returns (archivist: Archivist)
    requires get == Request("GET", "http://example.test/a", None, [], None, false)
    requires cfg.libraryPath == "/library"
    requires cfg.prims.origin(get.url) == Some("http://example.test")
    ensures fresh(archivist) && archivist.cfg == cfg && archivist.hasFs
    ensures SerializeRequest(get) in archivist.cache
    ensures archivist.cache[SerializeRequest(get)] in archivist.files
    ensures archivist.files[archivist.cache[SerializeRequest(get)]]
              == RecordFile(ResponseRecord(SerializeRequest(get), Some(200), [Header("Content-type", "text/html")],
                                           cfg.prims.base64("hi")))
  {
    archivist := new Archivist(cfg, map[], {}, None);
    var _ := archivist.Collect(SAVE, true);
    var html := [Header("Content-type", "text/html")];
    assert "http://example.test"[7] != "http://localhost:"[7];
    var saving, body, io := Paused("1", get, Some(200), html), ResponseBody("hi", false), Io(true, true);
    SaveCaptures(cfg, archivist.Snapshot(), saving, body, io);
    var _ := archivist.CacheRequest(saving, Some(body), io);
  }

  /**
   * A client of the engine: capture `GET http://example.test/a` in save
   * mode, switch to serve mode, and request the same method and URL again.
   */
  method CaptureThenServe(prims: Primitives, serverPort: string, chromePort: string) returns (served: Action)
    requires prims.origin("http://example.test/a") == Some("http://example.test")
    ensures served == Fulfill("2", 200, [Header("Content-type", "text/html")], prims.base64("hi"))
  {
    var cfg := Config("/library", serverPort, chromePort, prims);
    var get := Request("GET", "http://example.test/a", None, [], None, false);
    var archivist := CaptureExample(cfg, get);
    var _ := archivist.ChangeMode(SERVE, true);
    assert "http://example.test"[7] != "http://localhost:"[7];
    var serving := Paused("2", get, None, []);
    ServeHit(cfg, archivist.Snapshot(), serving, None, Io(true, true));
    served := archivist.CacheRequest(serving, None, Io(true, true));
  }
}
