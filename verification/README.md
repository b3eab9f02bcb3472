# A Dafny model of the archivist interception-and-caching engine

`archivist.js` attaches to a browser over its debugging protocol and pauses every
HTTP(S) exchange. In **save** mode it captures each response body to a JSON file
named by the SHA-1 of the request key, inside one directory per origin. It
records key → file and origin → directory in an in-memory index (`State.Cache`).
In **serve** mode it answers paused requests itself. A cached key is answered from
its file. Anything else gets a fixed 404 stub, so it does not reach the network. The
exceptions, in every mode, are the two never-cache origins: the control server and
the browser's debugging port. Their requests continue to the network.
The index is loaded from a manifest (`cache.json`, a list of `[key, value]` pairs)
when a session starts, and written back by `saveCache`. `changeMode` flushes the
index, closes the session and starts a new one in the requested mode.

The model has six modules:

- `Types` (types.dfy): requests, paused exchanges, response records, the protocol
  action sent back (`Continue`, `Fulfill`, or `Unanswered` when the handler throws
  or the mode matches neither branch), and the foreign primitives.
- `Keys` (keys.dfy): the cache key, the never-cache filter, and the origin
  directory name.
- `ResponseStore` (response_store.dfy): reading a stored response with the stub as
  fallback, and `SaveEffect`, the pure effect of `saveResponseData` on a `Store`
  (index, files, directories).
- `CacheIndex` (cache_index.dfy): manifest contents, `new Map(pairs)`, the loop
  that lists the index's entries, and loading with its fallbacks.
- `Interception` (interception.dfy): `ExchangeOutcome`, the pure effect of
  `cacheRequest` on one exchange, and the lemmas about serve, save and replay.
- `Engine` (engine.dfy): the class `Archivist`, whose fields are the module state
  (`Mode`, `Close`, `State.Cache`) plus the file system. Its methods update them in
  place and are proved equal to the pure functions.

The foreign primitives are fields of `Types.Primitives`, supplied by the caller:
the hex SHA-1 digest, base64 encoding, and `new URL(u).origin` (`None` where the
URL constructor throws). The file system is abstract:

- response files map a path to a parsed record or to something unparseable;
- the manifest is a list of pairs, corrupt, or absent.

Outcomes of `mkdir`, `writeFile` and `Fetch.getResponseBody` are parameters.

The model follows the code at three points where its behaviour is easy to misread:

- A failing `mkdir` is not best effort. Its `catch` block (archivist.js:169) reads
  `responsePath` before its declaration at line 176, which throws. So the capture
  aborts before the origin entry is recorded, and the exchange stays paused
  (`OriginDirFailed`).
- An existing origin entry is reused only when it is truthy. An empty-string entry
  is recomputed (`HasOriginDir`).
- For an unknown mode, `collect` connects, sets `Mode` and loads the index before
  throwing `TypeError`.

## Model

| member | source | states |
|---|---|---|
| `Keys.SerializeRequest` | archivist.js:182-194 | the key is the method followed by the URL: it splits into exactly those two parts. Its promises are `KeyIgnoresHeadersAndBody` and `KeyDeterminesRequestLine` |
| `Keys.KeyIgnoresHeadersAndBody` | archivist.js:182-194 | two requests with the same method and URL get the same key whatever their headers, post data or fragment |
| `Keys.KeyDeterminesRequestLine` | archivist.js:182-194 | for requests whose method holds no `:` and whose URL is http or https, two keys are equal exactly when method and URL are both equal. This covers every RFC 9110 method token, in any case: the browser upper-cases only the standard methods |
| `Keys.KeySplitsAtUrl` | archivist.js:192 | under the same conditions, requests whose methods differ in length never share a key |
| `Keys.KeyIsNeverAnOrigin` | archivist.js:161-171 | for a non-empty method that does not start with a lower-case `h` (every standard method), a request key never equals an origin. So origin entries and response entries in the one index cannot overwrite each other. This assumes an http URL's origin starts with "http"; the restriction on the method is the lemma's own |
| `Keys.DontCache` | archivist.js:147-150 | fails exactly when the URL has no origin; otherwise true exactly when the origin is `http://localhost:` plus the server port or the browser port |
| `Keys.ReplaceSchemeSep` | archivist.js:165 | the directory name contains no `://`; a name without `://` is returned unchanged; one with it gets shorter |
| `Keys.ReplaceSchemeSepOfOrigin` | archivist.js:165 | an origin `scheme://host[:port]` (scheme without `:`) becomes the directory name `scheme_host[:port]` |
| `Keys.ReplaceSchemeSepPrefix` | archivist.js:165 | a prefix holding no `:` is kept as it is, in front of the replaced rest |
| `Keys.OriginDir` | archivist.js:165 | an origin's directory is a child of the library root whose name contains no `://` |
| `ResponseStore.Uncached` | archivist.js:27-35 | the stub is a 404 with a `Content-type: text/plain` header and the base64 of "We have not saved this data" as its body. Its `Content-length` is the subject of `StubContentLengthAsWritten` |
| `ResponseStore.ResponsePath` | archivist.js:174-176 | a response file lies directly inside its origin directory and is named `<sha1(key)>.json` |
| `ResponseStore.GetResponseData` | archivist.js:152-159 | a parseable stored record yields its code, headers and body; a missing or unparseable file yields the 404 stub (with the `Content-length: 26` that archivist.js sends) instead of an error |
| `ResponseStore.StubContentLengthAsWritten` | archivist.js:27-32 | the `Content-length: 26` of the stub the engine sends does not match its 27-byte body text |
| `ResponseStore.StubContentLengthCorrected` | archivist.js:27-32 | the corrected stub's `Content-length` is the decimal byte length of its ASCII body text |
| `ResponseStore.SaveEffect` | archivist.js:161-180 | an unparseable URL or a failed mkdir changes nothing. A known origin directory is reused with the index unchanged; otherwise the origin is mapped to `library/<origin with :// as _>` and that directory created. The record is written to `<sha1(key)>.json` there and no other file changes. Success exactly when the URL parses, the write succeeds, and the directory was known or created |
| `CacheIndex.MapOfPairs` | archivist.js:70 | `new Map(pairs)` sets each pair in turn, so the last pair always ends up in the map. The whole map is stated by `MapOfPairsKeys` and `MapOfPairsLastWins` |
| `CacheIndex.MapOfPairsKeys` | archivist.js:70 | for any pair list, duplicates included, the map's keys are exactly the keys listed |
| `CacheIndex.MapOfPairsLastWins` | archivist.js:70 | for any pair list, each key maps to the value of its last pair |
| `CacheIndex.MapOfDistinctPairs` | archivist.js:70 | `new Map(pairs)` over pairs with distinct keys contains exactly those pairs |
| `CacheIndex.PairsOrderIrrelevant` | archivist.js:207-211 | two manifests that list the same distinct-key pairs in any order load to the same index |
| `CacheIndex.Entries` | archivist.js:209 | the listed entries have distinct keys, and `new Map` of them is the index again |
| `CacheIndex.Ensured` | archivist.js:65-69 | a missing manifest is created as `[]`; an existing one is kept as is |
| `CacheIndex.LoadIndex` | archivist.js:64-74 | a corrupt manifest loads as the empty index. A missing one is created as `[]` and so loads as empty too. A distinct-key pair list loads as exactly its pairs |
| `CacheIndex.FlushThenLoad` | archivist.js:70 | loading a manifest written from an index gives that index back |
| `Interception.ExchangeOutcome` | archivist.js:101-145 | an unparseable URL leaves the exchange paused with nothing changed. A never-cache origin is continued unchanged in every mode. Only save mode changes the store. Serve mode fulfils every interceptable exchange itself. Index keys are never removed; only the key's and its origin's entries may change. A capture that changes the store leaves the key pointing at a file holding that key's record |
| `Interception.CodeOr200` | archivist.js:111 | a missing or zero stored status code becomes 200, and any other code is kept, so the code sent is never 0 |
| `Interception.EncodedBody` | archivist.js:132-137 | a body the protocol already base64-encoded is stored as is; any other body is base64-encoded |
| `Interception.ServeHit` | archivist.js:108-115 | a cached key in serve mode is fulfilled with the stored headers and body, and the stored code or 200 when it is missing or 0 |
| `Interception.ServeMiss` | archivist.js:116-120 | an uncached key in serve mode gets 404, `Content-type: text/plain`, `Content-length: 26` and the base64 of "We have not saved this data"; the store is unchanged |
| `Interception.SaveSkips` | archivist.js:122-131 | in save mode a 302 or a body retrieval with no result is continued with no index entry and no file |
| `Interception.SaveCaptures` | archivist.js:126-143 | a successful capture adds the origin's directory entry if it was missing, writes the record with the body base64-encoded only if it was not already, maps the key to the file, changes nothing else, and continues the exchange |
| `Interception.CaptureReplaysAfterReload` | archivist.js:101-145 | after a capture (write succeeded; origin directory already known or created), flushing the index and loading it back, serve mode answers the same method and URL with the captured code (200 if missing), headers and encoded body |
| `Engine.StageFor` | archivist.js:77-89 | save registers the response stage, serve the request stage, and any other mode is the "Must specify mode" error |
| `Engine.Archivist.constructor` | archivist.js:11-14 | the index starts empty, with no mode, no `fs` module and no session |
| `Engine.Archivist.GetMode` | archivist.js:197 | returns the current mode and changes nothing |
| `Engine.Archivist.Collect` | archivist.js:41-99 | loads `fs`, connects and sets the mode, and creates a missing manifest; a failed creation leaves it missing. It loads the index from the manifest, empty when the manifest is missing or corrupt. It then enables interception at the mode's stage, or fails for an unknown mode. Response files are untouched |
| `Engine.Archivist.SaveCache` | archivist.js:207-211 | succeeds exactly when `fs` is loaded and the write succeeds. On success the manifest becomes the index's entries, each key once, and reloading them gives the index. On failure the manifest is unchanged |
| `Engine.Archivist.ChangeMode` | archivist.js:199-205 | a flush that throws rejects with mode, `fs`, session, index and manifest unchanged. Otherwise, after flush, close, mode change and collect, the mode is the new one, `fs` stays loaded (so later flushes can succeed), the index equals the old index, and the manifest holds it |
| `Engine.Archivist.SaveResponseData` | archivist.js:161-180 | its result and new index, files and directories are those of `SaveEffect` |
| `Engine.Archivist.CacheRequest` | archivist.js:101-145 | its action and new index, files and directories are those of `ExchangeOutcome` |
| `Engine.CaptureExample` | archivist.js:101-145 | starting in save mode and capturing `GET http://example.test/a` (200, `text/html`, body "hi") leaves the key pointing at a file holding that record, with "hi" base64-encoded |
| `Engine.CaptureThenServe` | archivist.js:101-145 | capturing `GET http://example.test/a` (200, `text/html`, body "hi"), then switching to serve mode and requesting it again, fulfils with 200, the same header and the base64 of "hi" |

## Findings

| source | as written | input that shows it | evidently intended | confidence | as-written member | corrected member |
|---|---|---|---|---|---|---|
| archivist.js:27-32 | the stub sends `Content-length: 26` | any serve-mode request whose key is not cached: the body decodes to "We have not saved this data", which is 27 bytes | `Content-length: 27`, the byte length of the stub text | medium; not executed | `ResponseStore.StubContentLengthAsWritten` | `ResponseStore.StubContentLengthCorrected` |

The engine in the model sends the stub as the source writes it
(`ResponseStore.UNCACHED_HEADERS`, `Content-length: 26`). The corrected headers
are `ResponseStore.UNCACHED_HEADERS_CORRECTED`.

## Left out

- The protocol transport (`connect`, `send`, `on`, `close` from `./protocol.js`): a session is the `connected` flag plus the registered `stage`, and each handled exchange returns the command it would send.
- The 10-second `setInterval(saveCache, …)` and the `SIGINT` handler (archivist.js:79-83): timers and signals are outside the model. `SaveCache` models what they call.
- Concurrency between `cacheRequest` calls: each exchange is handled atomically against the store.
- `DEBUG` logging and `console.warn`.
- The `context == 'node'` switches: the model is the Node.js path (`fs`, `Buffer`). The browser `btoa` path is not modelled.
- SHA-1, base64 and URL-origin extraction: foreign library calls, taken as parameters (`Types.Primitives`). `Keys.OriginKeepsScheme` is the one property assumed of them.
- `b64`: the `Primitives.base64` parameter, not reimplemented.
- The JSON text format:
  - a response file that parses as JSON but is not a record is treated like an unparseable one;
  - a manifest that parses but is not a list of pairs is treated as corrupt.
- `path.resolve`: modelled as joining with `/` without normalisation. `mkdir`'s creation of parent directories is not recorded.
- A failed manifest write (archivist.js:67 and 209) is taken to leave the file as it was; a partially written file is not modelled.
- The branch that stores an empty body (archivist.js:138-140): unreachable, because a falsy body result returns at line 130.
- `libraryServer.js`: HTTP routing and static serving; it only calls `getMode` and `changeMode`.
