/**
 * The response store: per-origin directories and one JSON file per
 * captured response, over an abstract file system. The cache index lives in
 * the same `Store` value because `saveResponseData` records origin entries
 * in it.
 */
module ResponseStore {
  import opened Types
  import opened Keys

  /** What a response file holds: a record that parses, or anything that does not. */
  datatype FileData = RecordFile(record: ResponseRecord) | Unparseable

  /**
   * The mutable state the engine works on: the cache index (`State.Cache`),
   * the response files by path, and the directories created.
   */
  datatype Store = Store(cache: map<string, string>, files: map<string, FileData>, dirs: set<string>)

  /** The fields `cacheRequest` takes from a stored or stub response. */
  datatype Reply = Reply(responseCode: Option<int>, responseHeaders: seq<Header>, body: string)

  const UNCACHED_TEXT := "We have not saved this data"
  const UNCACHED_CODE := 404

  /** The stub headers the engine sends, with a content length of 26. */
  const UNCACHED_HEADERS := [Header("Content-type", "text/plain"), Header("Content-length", "26")]

  /** The stub headers with the content length of the stub text, 27 bytes. */
  const UNCACHED_HEADERS_CORRECTED := [Header("Content-type", "text/plain"), Header("Content-length", "27")]

  /** The stub served for anything not in the cache: a 404 whose plain-text body says so. */
  function Uncached(p: Primitives): (r: Reply)
    ensures r.responseCode == Some(404)
    ensures Header("Content-type", "text/plain") in r.responseHeaders
    ensures r.body == p.base64("We have not saved this data")
  {
    Reply(Some(UNCACHED_CODE), UNCACHED_HEADERS, p.base64(UNCACHED_TEXT))
  }

  /** The decimal numeral of `n`. */
  function Decimal(n: nat): string
  {
    var digit := "0123456789"[n % 10];
    if n < 10 then [digit] else Decimal(n / 10) + [digit]
  }

  predicate IsAscii(s: string)
  {
    forall i :: 0 <= i < |s| ==> s[i] < 128 as char
  }

  /** Every `Content-length` header states the byte length of the (ASCII) body text. */
  predicate ContentLengthMatches(headers: seq<Header>, text: string)
  {
    IsAscii(text) &&
    forall i :: 0 <= i < |headers| && headers[i].name == "Content-length" ==>
      headers[i].value == Decimal(|text|)
  }

  /** The stub the engine sends announces fewer bytes than its body decodes to. */
  lemma StubContentLengthAsWritten()
    ensures !ContentLengthMatches(UNCACHED_HEADERS, UNCACHED_TEXT)
  {
    assert |UNCACHED_TEXT| == 27;
    assert Decimal(27) == Decimal(2) + ['7'] == "27";
    assert UNCACHED_HEADERS[1].value != "27";
  }

  /** The corrected stub announces exactly the bytes of its body. */
  lemma StubContentLengthCorrected()
    ensures ContentLengthMatches(UNCACHED_HEADERS_CORRECTED, UNCACHED_TEXT)
  {
  }

  function ReplyOf(record: ResponseRecord): Reply
  {
    Reply(record.responseCode, record.responseHeaders, record.body)
  }

  /**
   * `getResponseData`: the stored record's code, headers and body; the
   * stub when the file is missing or does not parse.
   */
  function GetResponseData(p: Primitives, files: map<string, FileData>, path: string): (r: Reply)
    ensures path in files && files[path].RecordFile? ==> r == ReplyOf(files[path].record)
    ensures path !in files || files[path].Unparseable? ==> r == Uncached(p)
  {
    if path in files && files[path].RecordFile? then ReplyOf(files[path].record) else Uncached(p)
  }

  /** The file a key's response is written to: `<sha1(key)>.json` directly inside its origin directory. */
  function ResponsePath(p: Primitives, originDir: string, key: string): (path: string)
    ensures |path| > |originDir| + 1
    ensures path[..|originDir| + 1] == originDir + "/"
    ensures path[|originDir| + 1..] == p.sha1Hex(key) + ".json"
  {
    Resolve(originDir, p.sha1Hex(key) + ".json")
  }

  /** Whether the index holds a usable directory for `origin` (a truthy `State.Cache.get(origin)`). */
  predicate HasOriginDir(cache: map<string, string>, origin: string)
  {
    origin in cache && cache[origin] != ""
  }

  /**
   * `saveResponseData`: find or create the origin directory, record it in
   * the index, and write `record` to `<sha1(key)>.json` inside it. Returns
   * the file's path, or the failure that makes the source throw.
   */
  function SaveEffect(cfg: Config, st: Store, key: string, url: string, record: ResponseRecord, io: Io)
    : (out: (Result<string, Cause>, Store))
    // a URL that does not parse, or a failed mkdir, changes nothing
    ensures cfg.prims.origin(url).None? ==> out == (Err(InvalidUrl), st)
    ensures cfg.prims.origin(url).Some? && !HasOriginDir(st.cache, cfg.prims.origin(url).value) && !io.mkdirOk
            ==> out == (Err(OriginDirFailed), st)
    // otherwise the origin has a directory afterwards; an existing one is reused unchanged
    ensures out.1 != st || out.0.Ok? ==>
              var origin := cfg.prims.origin(url).value;
              && HasOriginDir(out.1.cache, origin)
              && (HasOriginDir(st.cache, origin) ==> out.1.cache == st.cache && out.1.dirs == st.dirs)
              && (!HasOriginDir(st.cache, origin) ==>
                    out.1.cache == st.cache[origin := OriginDir(cfg.libraryPath, origin)]
                    && out.1.dirs == st.dirs + {OriginDir(cfg.libraryPath, origin)})
    // the record is stored under its key's hash in that directory, and no other file changes
    ensures out.0.Ok? ==>
              var origin := cfg.prims.origin(url).value;
              && out.0.value == ResponsePath(cfg.prims, out.1.cache[origin], key)
              && out.1.files == st.files[out.0.value := RecordFile(record)]
    ensures out.0.Err? ==> out.1.files == st.files
    ensures out.0.Ok? <==> cfg.prims.origin(url).Some? && io.writeOk
                           && (io.mkdirOk || HasOriginDir(st.cache, cfg.prims.origin(url).value))
  {
    match cfg.prims.origin(url)
    case None => (Err(InvalidUrl), st)
    case Some(origin) =>
      if !HasOriginDir(st.cache, origin) && !io.mkdirOk then
        (Err(OriginDirFailed), st)
      else
        var originDir := if HasOriginDir(st.cache, origin) then st.cache[origin] else OriginDir(cfg.libraryPath, origin);
        var st1 := if HasOriginDir(st.cache, origin) then st
                   else st.(cache := st.cache[origin := originDir], dirs := st.dirs + {originDir});
        var responsePath := ResponsePath(cfg.prims, originDir, key);
        if io.writeOk then
          (Ok(responsePath), st1.(files := st1.files[responsePath := RecordFile(record)]))
        else
          (Err(WriteFailed), st1)
  }
}
