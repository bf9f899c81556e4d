# gwt-storage cache core, modelled in Dafny

gwt-storage lets a GWT / PhoneGap application keep two kinds of data on the
device:

- **Records** (`StorageItem` subclasses) are serialised to JSON in the HTML5
  key-value store. Each record is stored under `item-<type>-<id>`, and the
  time it was written under that key plus `-t`. A read returns the cached
  copy only when it is recent and new enough. Otherwise the record is fetched
  from the remote base (or the page's own base), with one fallback.
- **Resources** (`StorageResource`: a relative URL and a version) are large
  files. They are downloaded into a cache directory on the device. Their local
  file URL is stored under `resource-<url>` and their version under that key
  plus `-v`.

The model covers:

- the key schemes and their classifying predicates;
- the local read and write decisions;
- the passes that clear the store;
- the tri-state resource version check;
- the manager's download queue and the URL lookups;
- the two scheduled commands: `StorageResourceCollector`, which makes sure one
  resource is cached, and `StorageInfoCollector`, which reports on one cached
  file.

Layout:

| file | module | contents |
|---|---|---|
| `wrappers.dfy` | `Wrappers` | Option (Java null), Result, StorageError and its codes, callback replies |
| `strings.dfy` | `Strings` | `startsWith`, `endsWith` and `String.replace(char, string)`, with their lemmas |
| `local_store.dfy` | `LocalStore` | the key-value store as an ordered sequence of entries: `setItem` overwrites in place or appends; `removeItem` shifts later entries down |
| `storage_item.dfy` | `StorageItemModel` | the record key scheme, and the class `Item` whose fields a read overwrites in place |
| `storage_resource.dfy` | `StorageResourceModel` | the resource descriptor and its key scheme |
| `cache_policy.dfy` | `CachePolicy` | the version rule, the age rule, Java int text conversion, `checkResourceVersion`, the caching gate, file names and remote URLs |
| `storage_manager.dfy` | `Manager` | the class `StorageManager` |
| `resource_collector.dfy` | `ResourceCollector` | the class `StorageResourceCollector` |
| `info_collector.dfy` | `InfoCollector` | the class `StorageInfoCollector` |

Collaborators are outside the core and appear as values:

- The store is a field of the manager.
- Each asynchronous file-system, HTTP or transfer call becomes a parameter
  that carries its outcome.
- JSON encoding and decoding, and the date format, are a `Codec` of functions.
  Decoding reports what a record class's `fromJson` does with a value: it
  throws (text that does not parse, or a decoder that throws), it ignores a
  value it cannot decode and leaves the record as it was (as the test record
  class `TestItem.fromJson` does), or it reads a decoded copy. Encoding may
  give no JSON value (the test record class's `toJson` returns null when its
  encoder fails).
- The clock is a `now` parameter. `readStorageItem` reads it several times,
  so it takes a `ReadClock`: one reading each for the age check, the first
  request, the fallback request and the write time.
- The PhoneGap host is a `Host` value: inside the container or not, and on
  Wi-Fi or not.
- Downloads that the manager has handed to the file-transfer collaborator stay
  in its `transfers` field until their success or failure handler runs.

Where the code and its documentation differ, the model follows the code,
except for the two rules listed under "## Findings":

- `checkNextCacheResource` clears `downloadInProgress` in a `finally` block
  (`src/main/java/ch/gbrain/gwtstorage/manager/StorageManager.java` lines
  1474-1477). That block also runs on the early return taken while a download
  is in progress.
  - As a result, every enqueued resource is dequeued and dispatched at once.
    The queue is empty after every public call (`StorageManager.Valid`).
  - Downloads are therefore not serialised. `Manager.OverlappingDownloads`
    shows two downloads in flight together.
- `StorageResource.java` as shipped has no notification getter. The collector
  uses one, so the descriptor carries an optional sink, as the collector needs.

## Model

| member | source | states |
|---|---|---|
| `StorageItemModel.ItemKeyClasses` | src/main/java/ch/gbrain/gwtstorage/model/StorageItem.java:77-98 | every key, null included, is in at most one of the id-key and time-key classes; together the two classes are exactly the keys starting with `item-`; null is in none |
| `StorageItemModel.TimeKeyIsTimeKey` | src/main/java/ch/gbrain/gwtstorage/model/StorageItem.java:71-74 | the key `item-<type>-<id>-t` is always classified as a time key |
| `StorageItemModel.IdKeyClassification` | src/main/java/ch/gbrain/gwtstorage/model/StorageItem.java:58-62 | a generated id key is a record key; it is classified as an id key exactly when the id neither ends in `-t` nor is `t` (otherwise it passes for a time key) |
| `StorageItemModel.JsonFileNameMatchesKey` | src/main/java/ch/gbrain/gwtstorage/model/StorageItem.java:130-133 | the JSON file name is the id key without `item-`, followed by `.json` |
| `StorageItemModel.Item.constructor` | src/main/java/ch/gbrain/gwtstorage/model/StorageItem.java:111 | a new record has no id and version 1 |
| `StorageItemModel.Item.IdKey` | src/main/java/ch/gbrain/gwtstorage/model/StorageItem.java:58-62 | the key exists exactly when the id is set (a null id throws); it is `item-<type>-<id>` and starts with `item-` |
| `StorageItemModel.Item.TimeKey` | src/main/java/ch/gbrain/gwtstorage/model/StorageItem.java:71-74 | the id key followed by `-t`, classified as a time key; it is missing when the id is null |
| `StorageItemModel.Item.SetId` | src/main/java/ch/gbrain/gwtstorage/model/StorageItem.java:39-42 | sets the id and nothing else |
| `StorageItemModel.Item.SetVersion` | src/main/java/ch/gbrain/gwtstorage/model/StorageItem.java:113-116 | sets the version (null allowed) and nothing else |
| `StorageItemModel.Item.CopyFrom` | src/main/java/ch/gbrain/gwtstorage/model/StorageItem.java:164-169 | copies id and version from the other record; a null version becomes 0; nothing else changes |
| `StorageItemModel.Item.Load` | src/main/java/ch/gbrain/gwtstorage/model/StorageItem.java:177-181 | after reading a decoded copy, the record equals that copy, with a null version turned into 0 |
| `StorageResourceModel.ResourceKeyClasses` | src/main/java/ch/gbrain/gwtstorage/model/StorageResource.java:52-71 | every key is in at most one of the id-key and version-key classes; together they are exactly the keys starting with `resource-`; null is in none |
| `StorageResourceModel.VersionKeyIsVersionKey` | src/main/java/ch/gbrain/gwtstorage/model/StorageResource.java:42-50 | the version key is `resource-<url>-v`, and it is classified as a version key |
| `StorageResourceModel.IdKeyClassification` | src/main/java/ch/gbrain/gwtstorage/model/StorageResource.java:37-40 | the id key is a resource key; it is classified as an id key exactly when the URL neither ends in `-v` nor is `v` |
| `StorageResourceModel.KeyFamiliesDisjoint` | src/main/java/ch/gbrain/gwtstorage/model/StorageResource.java:52-57 | no key is both a record key and a resource key, so clearing one family leaves the other alone |
| `CachePolicy.CheckStorageItemVersion` | src/main/java/ch/gbrain/gwtstorage/manager/StorageManager.java:965-970 | accepted exactly when the expected version is at most 0 or the actual version reaches it |
| `CachePolicy.VersionCheckMonotone` | src/main/java/ch/gbrain/gwtstorage/manager/StorageManager.java:965-970 | an accepted record stays accepted under a weaker requirement and at a higher version |
| `CachePolicy.FreshForCacheTime` | src/main/java/ch/gbrain/gwtstorage/manager/StorageManager.java:350-362 | a cached record is fresh for up to `cacheTime` seconds after it was written, inclusive, and elapsed strictly after that |
| `CachePolicy.ElapsedRulesAgreeWithoutOverflow` | src/main/java/ch/gbrain/gwtstorage/manager/StorageManager.java:356 | the age rule as written and the intended rule agree while `cacheTime * 1000` fits in an int |
| `CachePolicy.ElapsedOverflowRejectsFreshEntry` | src/main/java/ch/gbrain/gwtstorage/manager/StorageManager.java:356 | for `cacheTime` from 2147484 to 4294967 the rule as written finds elapsed a record stored at this instant, while the intended rule keeps it |
| `CachePolicy.ParseIntToString` | src/main/java/ch/gbrain/gwtstorage/manager/StorageManager.java:1315 | `Integer.parseInt` reads back exactly the text that `toString` writes, for every int |
| `CachePolicy.CheckResourceVersion` | src/main/java/ch/gbrain/gwtstorage/manager/StorageManager.java:1306-1332 | the answer is "no cache entry" (null) exactly when the version key is missing |
| `CachePolicy.CheckAfterDownload` | src/main/java/ch/gbrain/gwtstorage/manager/StorageManager.java:1306-1332 | after a download at version v is recorded, a request is a match exactly when it asks for null, 0 or v; any other request is a mismatch |
| `CachePolicy.CheckIgnoresOtherKeys` | src/main/java/ch/gbrain/gwtstorage/manager/StorageManager.java:1312 | writing any key other than the resource's version key does not change its check |
| `CachePolicy.BoxedComparisonAgreesInCache` | src/main/java/ch/gbrain/gwtstorage/manager/StorageManager.java:1317 | for requested versions from -128 to 127, the boxed comparison as written and the numeric one give the same answer |
| `CachePolicy.BoxedComparisonRejectsLargeVersions` | src/main/java/ch/gbrain/gwtstorage/manager/StorageManager.java:1317 | a resource recorded at a version above 127 is a mismatch under the check as written and a match under the numeric check |
| `CachePolicy.IsResourceCachingEnabled` | src/main/java/ch/gbrain/gwtstorage/manager/StorageManager.java:184-205 | caching is on exactly when running in the container with caching enabled and, when Wi-Fi gating is on, the connection is Wi-Fi |
| `CachePolicy.FileNameHasNoSlash` | src/main/java/ch/gbrain/gwtstorage/manager/StorageManager.java:1207-1210 | a converted file name contains no `/` |
| `CachePolicy.FileNameInjective` | src/main/java/ch/gbrain/gwtstorage/manager/StorageManager.java:1207-1210 | two paths without `@` never map to the same cache file name |
| `CachePolicy.FileNameCollision` | src/main/java/ch/gbrain/gwtstorage/manager/StorageManager.java:1207-1210 | when `@` is allowed, `@/` and `/@` map to the same name, `@@@` |
| `Manager.WriteThenRead` | src/main/java/ch/gbrain/gwtstorage/manager/StorageManager.java:330-374 | with a codec that reads back the records it writes and a time format that keeps whole seconds (as the full date-time format at line 389 does), a record just written is found and loaded back unchanged by a record with its id; it is accepted exactly when its version meets the expected one and, if a cache time is set, no more than that many seconds have passed since the second it was written in |
| `Manager.StampPrecisionShortensFreshness` | src/main/java/ch/gbrain/gwtstorage/manager/StorageManager.java:350-362 | a record written other than on the whole second is rejected already exactly `cacheTime` seconds after the write, because the stored time lost its milliseconds |
| `Manager.IgnoredEntryChecksCurrentRecord` | src/main/java/ch/gbrain/gwtstorage/manager/StorageManager.java:334-348 | a stored entry that the record's class cannot decode and ignores leaves the record as it was, and the version check then judges that unchanged record; a null version is rejected whenever a version is expected |
| `Manager.ReadFromUrlRetriesOnce` | src/main/java/ch/gbrain/gwtstorage/manager/StorageManager.java:998-1023 | a read makes one request, or two; the second is made only after the first failed, and only to a non-empty fallback URL, stamped with the clock reading taken for that retry (line 1041 runs again); it ends pending, or hands on the last answer unless that answer is null or its decoding throws |
| `Manager.TransferUrls` | src/main/java/ch/gbrain/gwtstorage/manager/StorageManager.java:1230-1233 | a download's source is the remote resource URL; its destination is the directory URL followed by a file name that contains no `/` |
| `Manager.ClearStorageLeavesNoCacheKeys` | src/main/java/ch/gbrain/gwtstorage/manager/StorageManager.java:1544-1555 | after both passes no record key and no resource key is left; every other entry is kept |
| `Manager.StorageManager.constructor` | src/main/java/ch/gbrain/gwtstorage/manager/StorageManager.java:75-156 | the source defaults: remote base, `storage/v1/`, `myApp`, caching and Wi-Fi gating on, no directory handle, empty queue |
| `Manager.StorageManager.SetCacheDirectory` | src/main/java/ch/gbrain/gwtstorage/manager/StorageManager.java:126-134 | sets the path; the remembered directory handle is dropped only when the path changes |
| `Manager.StorageManager.WriteStorageItemToLocalStorage` | src/main/java/ch/gbrain/gwtstorage/manager/StorageManager.java:290-305 | succeeds exactly for a record with an id whose `toJson` gives a value (a null value makes `toString` throw at line 296, and the catch returns false); writes the record under its id key, then the write time under its time key; otherwise the store is unchanged |
| `Manager.StorageManager.WriteStorageItemStorageTime` | src/main/java/ch/gbrain/gwtstorage/manager/StorageManager.java:384-395 | writes the formatted time under the time key. For a null id the source throws a NullPointerException at line 386, outside its `try`, when it builds the time key (StorageItem.java:61); its only caller never passes such a record, and the model then writes nothing |
| `Manager.StorageManager.ReadStorageItemFromLocalStorage` | src/main/java/ch/gbrain/gwtstorage/manager/StorageManager.java:330-374 | answers as the local-read rule says: an entry whose decoding throws is a rejection; otherwise version check, then age check using the time key of the id just loaded; a missing or unreadable time is accepted. The record is overwritten by the stored copy even when it is then rejected, and stays as it was when its class ignores the entry |
| `Manager.StorageManager.ReadStorageItem` | src/main/java/ch/gbrain/gwtstorage/manager/StorageManager.java:896-983 | a valid cached copy answers with no request and leaves the record loaded from it. Otherwise: in the container, the remote storage URL is tried with the local one as fallback; in a browser, only the local one. Each request URL carries its own clock reading. A response is read into the record (or ignored by its class, leaving the record as it was), written locally when it can be stored (a failed write is ignored, lines 1006-1007) and returned; a failure is passed on; a null response, or one whose decoding throws, gives no answer. Without a delivery the record holds the stored copy if the cache was consulted and one was found, and is unchanged otherwise |
| `Manager.StorageManager.ClearStorageItems` | src/main/java/ch/gbrain/gwtstorage/manager/StorageManager.java:425-449 | a single pass over the initial length, advancing the index only past kept entries, removes exactly the record keys and keeps the other entries in order |
| `Manager.StorageManager.ClearResourceItems` | src/main/java/ch/gbrain/gwtstorage/manager/StorageManager.java:1338-1402 | the same pass removes exactly the resource keys. It requests deletion of the stored file URL of every id key, in store order |
| `Manager.StorageManager.ClearStorage` | src/main/java/ch/gbrain/gwtstorage/manager/StorageManager.java:1544-1555 | resources first, then records |
| `Manager.StorageManager.GetCacheDirectoryEntry` | src/main/java/ch/gbrain/gwtstorage/manager/StorageManager.java:1408-1450 | a remembered handle answers at once. Outside the container the callback is never called. Otherwise the callback gets the resolution outcome, and a resolved handle is remembered |
| `Manager.StorageManager.DownloadCacheResource` | src/main/java/ch/gbrain/gwtstorage/manager/StorageManager.java:1218-1253 | starts one download once the directory is known; a directory failure only leaves the handle unset |
| `Manager.StorageManager.CheckNextCacheResource` | src/main/java/ch/gbrain/gwtstorage/manager/StorageManager.java:1460-1478 | the flag is always clear afterwards. Only with the flag clear and a non-empty queue is the head removed and its download started |
| `Manager.StorageManager.AddResourceToCache` | src/main/java/ch/gbrain/gwtstorage/manager/StorageManager.java:1487-1538 | with caching on and a non-empty URL, a resource is dispatched when it has no cache entry, has a different version, or the existence check of its cached file reports it missing; nothing happens when that check finds the file or never answers; the queue stays empty |
| `Manager.StepAfterCheck` | src/main/java/ch/gbrain/gwtstorage/manager/StorageManager.java:1492-1525 | after the version check, a download follows exactly when there is no match or the existence check reports the file missing; the outcome is undecided exactly when the versions match and the existence check never answers; a found file is kept |
| `Manager.SilentLookupSkipsDownload` | src/main/java/ch/gbrain/gwtstorage/manager/StorageManager.java:741-797 | for a resource recorded at version v, after the cache directory is renamed, `addResourceToCache` at version v downloads nothing when the existence check never answers (the directory cannot be obtained), and downloads it once when the check reports the file missing |
| `Manager.StorageManager.OnDownloadSuccess` | src/main/java/ch/gbrain/gwtstorage/manager/StorageManager.java:1267-1282 | records the file URL, then the version. With a null version, only the file URL is recorded |
| `Manager.StorageManager.OnDownloadFailure` | src/main/java/ch/gbrain/gwtstorage/manager/StorageManager.java:1290-1295 | drops the finished transfer and leaves the store untouched |
| `Manager.StorageManager.RetrieveResourceUrl` | src/main/java/ch/gbrain/gwtstorage/manager/StorageManager.java:1130-1198 | by case: an empty or null URL is a SYNTAX_ERR that includes the URL; a browser gets the URL itself; no cache entry is NOT_FOUND; a version mismatch gives no callback and returns false; a match gives the directory URL + `/` + the file name |
| `Manager.StorageManager.GetAllCachedResourceItems` | src/main/java/ch/gbrain/gwtstorage/manager/StorageManager.java:1563-1590 | with caching on and a callback, schedules one collection for each resource id key, in store order, and returns their number; otherwise it returns 0 |
| `Manager.OverlappingDownloads` | src/main/java/ch/gbrain/gwtstorage/manager/StorageManager.java:1474-1477 | two requests for uncached resources leave two downloads in flight together and an empty queue |
| `ResourceCollector.RecordedDownloadIsNotRepeated` | src/main/java/ch/gbrain/gwtstorage/manager/StorageResourceCollector.java:165-183 | once a download is recorded, the version check matches, so the same collector keeps the cached file when the existence check finds it |
| `ResourceCollector.ExecuteAroundDownload` | src/main/java/ch/gbrain/gwtstorage/manager/StorageResourceCollector.java:56-183 | a collector executed on an empty cache starts one download; after that download succeeds, executing it again starts none, and the sink hears the downloaded file and then the file found in the cache |
| `ResourceCollector.StorageResourceCollector.constructor` | src/main/java/ch/gbrain/gwtstorage/manager/StorageResourceCollector.java:47-53 | keeps the manager and the resource; nothing has been delivered yet |
| `ResourceCollector.StorageResourceCollector.Execute` | src/main/java/ch/gbrain/gwtstorage/manager/StorageResourceCollector.java:56-103 | the tri-state check, with no queue: a found cached copy is reported to the sink; an existence check that never answers changes nothing; every other case downloads |
| `ResourceCollector.StorageResourceCollector.DownloadCacheResource` | src/main/java/ch/gbrain/gwtstorage/manager/StorageResourceCollector.java:112-151 | the source is the remote base + the URL; the destination is the directory URL + the file name, with no separator; a directory failure reaches the sink as a transfer error with the same code and reason |
| `ResourceCollector.StorageResourceCollector.OnDownloadSuccess` | src/main/java/ch/gbrain/gwtstorage/manager/StorageResourceCollector.java:165-183 | writes the id key, then the version key, then notifies the sink; afterwards the version check is a match. A null version stops after the id key |
| `ResourceCollector.StorageResourceCollector.OnProgress` | src/main/java/ch/gbrain/gwtstorage/manager/StorageResourceCollector.java:185-191 | forwards progress to the sink, if there is one |
| `ResourceCollector.StorageResourceCollector.OnDownloadFailure` | src/main/java/ch/gbrain/gwtstorage/manager/StorageResourceCollector.java:193-201 | forwards the failure to the sink, if there is one; the store is not touched |
| `InfoCollector.CollectAfterDownload` | src/main/java/ch/gbrain/gwtstorage/manager/StorageInfoCollector.java:90-94 | for a recorded download, reports the recorded file URL and a version text that reads back as the recorded version |
| `InfoCollector.StorageInfoCollector.constructor` | src/main/java/ch/gbrain/gwtstorage/manager/StorageInfoCollector.java:74-82 | keeps the key and the callback; every field is null |
| `InfoCollector.StorageInfoCollector.Execute` | src/main/java/ch/gbrain/gwtstorage/manager/StorageInfoCollector.java:90-165 | reads the version key and the key itself first. With a callback, exactly one reply is delivered, as `Collect` describes; with none, nothing is delivered. A readable file sets name, path and size, and the modification time when the metadata answers (else it keeps the earlier one); a failure to resolve or read the file leaves those fields as they were |
| `InfoCollector.MetadataFailureKeepsEarlierDate` | src/main/java/ch/gbrain/gwtstorage/manager/StorageInfoCollector.java:120-145 | a collector executed twice on a readable file reports, in its second execution whose metadata fails, the modification time learnt in the first |
| `InfoCollector.StorageInfoCollector.InvokeSuccessCallback` | src/main/java/ch/gbrain/gwtstorage/manager/StorageInfoCollector.java:167-178 | hands the assembled info to the callback |
| `InfoCollector.CollectOnce` | src/main/java/ch/gbrain/gwtstorage/manager/StorageInfoCollector.java:90-165 | a fresh collector with a callback delivers exactly one reply, none without. It fails, with that error, when the file cannot be resolved or read; otherwise it carries the stored version and file URL, the file's name, path and size, and the metadata's modification time, which stays null when the metadata cannot be read |

## Left out

- Logging is not modelled, including the `lastCachingState` debounce
  (StorageManager.java:168-177). It has no effect on the decisions.
- JSON encoding and parsing, and the `DATE_TIME_FULL` date format, are the
  functions of a `Codec` parameter. Their correctness is assumed only where a
  lemma requires it (`Manager.WriteThenRead`), and there only to the second,
  which is all the format's time of day holds.
- `synchronized` and real concurrency are not modelled. An asynchronous
  callback is modelled as firing at the point where it is registered. The
  model therefore does not capture other operations running in between, for
  example before the file-existence check in `addResourceToCache` answers.
- File plumbing (StorageManager.java:450-890) and the HTTP send are
  collaborators. Their outcomes are parameters:
  - `Fetch`: a response, null or with what the record's `fromJson` makes
    of it (throwing gives no callback), or a failure message;
  - `lookup`: the existence check of a cached file, which answers with the
    file or an error, or never answers (outside the container, or when the
    file system or the cache directory cannot be obtained,
    StorageManager.java:745, 783-795);
  - `resolve`: the resolution of the cache directory;
  - the deletion requests: the URLs returned by `ClearResourceItems`.
- The `StorageInfoCollector` nested inside StorageManager.java (lines
  1592-1707) is a duplicate of the top-level one and is not modelled.
  `GetAllCachedResourceItems` returns the keys it schedules.
- `extractFileNameFromCacheFile` is not part of this model.
- `isResourceCachingPossible` is not modelled. It is not on any path of the
  modelled operations.
- The record's type name is a fixed string per record. Java's
  `getClass().getCanonicalName()` is not modelled.
- `Manager.StorageManager.ReadStorageItem`: the returned boolean is not
  modelled. Neither is the ABORT_ERR that an unexpected exception raises
  (StorageManager.java:922-929, 1081-1088).
- `Manager.StorageManager.AddResourceToCache`: stated for a manager in its
  reachable state (`Valid`: flag clear, queue empty). The general queue
  behaviour is stated by `CheckNextCacheResource`.
- `InfoCollector.StorageInfoCollector.Execute`: a modification-time getter
  that throws is not modelled. The metadata answer is taken as the time,
  possibly null.
- `Manager.ReadLocal`: uses the corrected age rule `CachePolicy.CacheTimeElapsed` (product in long arithmetic), not the rule written at StorageManager.java:356; see "## Findings".
- `Manager.WriteThenRead`: uses the corrected age rule `CachePolicy.CacheTimeElapsed` (product in long arithmetic), not the rule written at StorageManager.java:356; see "## Findings".
- `Manager.StorageManager.ReadStorageItemFromLocalStorage`: uses the corrected age rule `CachePolicy.CacheTimeElapsed` (product in long arithmetic), not the rule written at StorageManager.java:356; see "## Findings".
- `Manager.StorageManager.ReadStorageItem`: uses the corrected age rule `CachePolicy.CacheTimeElapsed` (product in long arithmetic), not the rule written at StorageManager.java:356; see "## Findings".
- `Manager.StorageManager.AddResourceToCache`: uses the numeric version comparison of `CachePolicy.CheckResourceVersion`, not the boxed comparison written at StorageManager.java:1317; see "## Findings".
- `Manager.StorageManager.RetrieveResourceUrl`: uses the numeric version comparison of `CachePolicy.CheckResourceVersion`, not the boxed comparison written at StorageManager.java:1317; see "## Findings".
- `Manager.SilentLookupSkipsDownload`: uses the numeric version comparison of `CachePolicy.CheckResourceVersion`, not the boxed comparison written at StorageManager.java:1317; see "## Findings".
- `ResourceCollector.StorageResourceCollector.Execute`: uses the numeric version comparison of `CachePolicy.CheckResourceVersion`, not the boxed comparison written at StorageManager.java:1317; see "## Findings".
- `ResourceCollector.ExecuteAroundDownload`: uses the numeric version comparison of `CachePolicy.CheckResourceVersion`, not the boxed comparison written at StorageManager.java:1317; see "## Findings".
- `ResourceCollector.RecordedDownloadIsNotRepeated`: uses the numeric version comparison of `CachePolicy.CheckResourceVersion`, not the boxed comparison written at StorageManager.java:1317; see "## Findings".
- `CachePolicy.CheckAfterDownload`: uses the numeric version comparison of `CachePolicy.CheckResourceVersion`, not the boxed comparison written at StorageManager.java:1317; see "## Findings".
- `Manager.StorageManager.WriteStorageItemStorageTime`: the
  NullPointerException the source throws for a record without an id is not
  modelled; the model writes nothing then.
- Resource versions are unbounded integers. The lemmas that read a written
  version back require it to be a Java int, as an `Integer` always is.

## Findings

| source | as written | input that shows it | evidently intended | confidence | as-written member | corrected member |
|---|---|---|---|---|---|---|
| src/main/java/ch/gbrain/gwtstorage/manager/StorageManager.java:356 | `cacheTime * 1000` is an int product and wraps before it is subtracted from the long clock | `cacheTime` = 3000000 seconds (about 35 days) for a record written at this instant: the product wraps to a negative number, so the record counts as elapsed | the product computed in long arithmetic, keeping the record fresh for `cacheTime` seconds | medium, not executed (depends on GWT reproducing Java int overflow) | `CachePolicy.ElapsedOverflowRejectsFreshEntry` | `CachePolicy.FreshForCacheTime` |
| src/main/java/ch/gbrain/gwtstorage/manager/StorageManager.java:1317 | `cachedVersion == resourceVersion` compares two `Integer` objects by reference | `addResourceToCache("video/a.mp4", 200)` after that resource was downloaded at version 200: the check says mismatch, so it is downloaded again on every call | numeric comparison of the two versions | medium, not executed (depends on the boxed-value cache covering only -128..127) | `CachePolicy.BoxedComparisonRejectsLargeVersions` | `CachePolicy.CheckAfterDownload` |

The read path (`Manager.ReadLocal`) uses the corrected age rule
`CachePolicy.CacheTimeElapsed`. Every resource check uses the numeric
`CachePolicy.CheckResourceVersion`. The rules as written are
`CachePolicy.CacheTimeElapsedAsWritten` and
`CachePolicy.CheckResourceVersionAsWritten`.
