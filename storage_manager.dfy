/** StorageManager: reads and writes records in the local key-value store,
    reads them through from the application's own or remote base, and keeps
    large resource files in a local cache directory, downloading them through
    a queue. Collaborators (store, file system, file transfer, HTTP, clock)
    appear as the store value, outcome parameters and the `transfers` field,
    which lists the downloads handed to the file-transfer collaborator that
    have not completed yet. */
module Manager {
  import opened Wrappers
  import opened LocalStore
  import opened StorageItemModel
  import opened StorageResourceModel
  import opened CachePolicy

  /** A directory handle; `url` is what toURL() returns. */
  datatype DirEntry = DirEntry(url: string)

  /** A file handle; `url` is what toURL() returns. */
  datatype FileEntry = FileEntry(url: string, fullPath: string)

  /** A download handed to the file-transfer collaborator. */
  datatype Transfer = Transfer(resource: Resource, sourceUrl: string, destUrl: string)

  /** What a record's fromJson makes of a JSON value: it throws (text that
      does not parse, or a class whose decoder throws), it ignores a value
      it cannot decode and leaves the record as it was (as the test record
      class does), or it reads a decoded copy. */
  datatype Decoding = Throws | Ignored | Decoded(record: Record)

  /** The serialisation and date formatting the manager calls into:
      toJson/fromJson of the record classes and the full date-time format.
      `encode` is None where toJson returns null (as the test record class
      does when its encoder fails) or throws. */
  datatype Codec = Codec(
    encode: Record -> Option<string>,
    decode: string -> Decoding,
    formatTime: int -> string,
    parseTime: string -> Option<int>)

  /** The outcome of one JSON GET: a response (possibly null) and what the
      record's fromJson makes of it, or a failure message. */
  datatype Fetch = Fetched(response: Option<Decoding>) | FetchFailed(message: string)

  const DefaultRemoteAppBaseUrl: string := "http://www.exmaple.com/myapp/"
  const DefaultStorageUrl: string := "storage/v1/"
  const DefaultCacheDirectory: string := "myApp"

  // ---------------------------------------------------------------------
  // Local record store: the decisions of the read and the effect of a write

  /** The answer of a local read and the state the record was loaded with
      (the record is overwritten even when the read is then rejected). */
  datatype LocalRead = LocalRead(accepted: bool, loaded: Option<Record>)

  /** readStorageItemFromLocalStorage(item, expectedVersion, cacheTime) for
      a record in state `current`: no id (the key cannot be built), no
      entry, or an entry whose decoding throws fail without loading;
      otherwise the record is loaded (or kept as it was, when its class
      ignores the entry) and then rejected when below the expected version
      (a null version throws there), or when a cache time is set, the
      stored time parses and more than cacheTime seconds have passed. A
      missing or unreadable time is accepted. The time key is built from
      the id just loaded. */
  function ReadLocal(store: Store, typeName: string, current: Record, expectedVersion: int,
                     cacheTime: int, now: int, codec: Codec): LocalRead
  {
    if current.id.None? then LocalRead(false, None)
    else match Get(store, ItemIdKey(typeName, current.id.value))
      case None => LocalRead(false, None)
      case Some(text) =>
        var decoding := codec.decode(text);
        if decoding.Throws? then LocalRead(false, None)
        else
          var rec := if decoding.Decoded? then Loaded(decoding.record) else current;
          if expectedVersion > 0 && rec.version.None? then LocalRead(false, Some(rec))
          else if expectedVersion > 0 && !CheckStorageItemVersion(expectedVersion, rec.version.value) then
            LocalRead(false, Some(rec))
          else if cacheTime <= 0 then LocalRead(true, Some(rec))
          else if rec.id.None? then LocalRead(false, Some(rec))
          else match Get(store, ItemTimeKey(typeName, rec.id.value))
            case None => LocalRead(true, Some(rec))
            case Some(stamp) =>
              match codec.parseTime(stamp)
              case None => LocalRead(true, Some(rec))
              case Some(storeTime) => LocalRead(!CacheTimeElapsed(now, cacheTime, storeTime), Some(rec))
  }

  /** Whether writeStorageItemToLocalStorage stores a record: its id key
      needs an id, and the text to store needs a JSON value from toJson. */
  predicate Storable(r: Record, codec: Codec)
  {
    r.id.Some? && codec.encode(r).Some?
  }

  /** The store after writeStorageItemToLocalStorage of a storable record:
      the serialised record under its id key, then the write time under its
      time key. */
  function WriteLocal(store: Store, typeName: string, r: Record, codec: Codec, now: int): Store
    requires Storable(r, codec)
  {
    Put(Put(store, ItemIdKey(typeName, r.id.value), codec.encode(r).value),
        ItemTimeKey(typeName, r.id.value), codec.formatTime(now))
  }

  /** The instant a full date-time text reads back as: the time of day is
      written to the second, so the milliseconds are lost. */
  function WholeSecond(t: int): (s: int)
    ensures s <= t < s + 1000 && s % 1000 == 0
  {
    t - t % 1000
  }

  /** Write-then-read: with a codec that reads back the records it writes
      and a time format that keeps whole seconds, a record just written is
      found and loaded again by a record with the same id, and accepted
      exactly when its version meets the expected one and, with a cache time
      set, no more than cacheTime seconds have passed since the second in
      which it was written. */
  lemma WriteThenRead(store: Store, typeName: string, r: Record, current: Record, codec: Codec, writtenAt: int,
                      expectedVersion: int, cacheTime: int, now: int)
    requires r.id.Some? && r.version.Some? && current.id == r.id
    requires codec.encode(r).Some? && codec.decode(codec.encode(r).value) == Decoded(r)
    requires codec.parseTime(codec.formatTime(writtenAt)) == Some(WholeSecond(writtenAt))
    ensures ReadLocal(WriteLocal(store, typeName, r, codec, writtenAt), typeName, current, expectedVersion, cacheTime, now, codec)
         == LocalRead(CheckStorageItemVersion(expectedVersion, r.version.value)
                      && (cacheTime <= 0 || now <= WholeSecond(writtenAt) + cacheTime * 1000), Some(r))
  {
    var id := r.id.value;
    var idKey, timeKey := ItemIdKey(typeName, id), ItemTimeKey(typeName, id);
    var mid := Put(store, idKey, codec.encode(r).value);
    assert idKey != timeKey by {
      assert |timeKey| == |idKey| + 2;
    }
    GetPut(store, idKey, codec.encode(r).value);
    GetPutOther(mid, timeKey, codec.formatTime(writtenAt), idKey);
    GetPut(mid, timeKey, codec.formatTime(writtenAt));
    assert Loaded(r) == r;
  }

  /** Because the stored time keeps whole seconds, a record written other
      than on the second is already rejected exactly cacheTime seconds
      after it was written. */
  lemma StampPrecisionShortensFreshness(store: Store, typeName: string, r: Record, codec: Codec,
                                        writtenAt: int, cacheTime: int)
    requires r.id.Some? && r.version.Some?
    requires codec.encode(r).Some? && codec.decode(codec.encode(r).value) == Decoded(r)
    requires codec.parseTime(codec.formatTime(writtenAt)) == Some(WholeSecond(writtenAt))
    requires writtenAt % 1000 != 0 && cacheTime > 0
    ensures !ReadLocal(WriteLocal(store, typeName, r, codec, writtenAt), typeName, r, 0, cacheTime,
                       writtenAt + cacheTime * 1000, codec).accepted
  {
    WriteThenRead(store, typeName, r, r, codec, writtenAt, 0, cacheTime, writtenAt + cacheTime * 1000);
  }

  /** A stored entry that the record's class ignores leaves the record as
      it was, and that unchanged record is what the version check judges:
      without a cache time it is accepted exactly when its own version meets
      the expected one (a null version passes only when no version is
      expected). */
  lemma IgnoredEntryChecksCurrentRecord(store: Store, typeName: string, current: Record, codec: Codec,
                                        expectedVersion: int, now: int)
    requires current.id.Some?
    requires Get(store, ItemIdKey(typeName, current.id.value)).Some?
    requires codec.decode(Get(store, ItemIdKey(typeName, current.id.value)).value) == Ignored
    ensures ReadLocal(store, typeName, current, expectedVersion, 0, now, codec)
         == LocalRead(expectedVersion <= 0
                      || (current.version.Some? && current.version.value >= expectedVersion), Some(current))
  {
  }

  // ---------------------------------------------------------------------
  // Read-through from a URL with one fallback

  /** How a chain of URL reads ends: still waiting for an answer, a null
      response or one whose decoding throws (no callback at all), a
      response handed on (with the decoded copy, or None when the record's
      class ignored it), or a failure. */
  datatype ReadEnd = Pending | Silent | Delivered(decoded: Option<Record>) | Refused(error: StorageError)

  /** The URLs requested and how the chain ended. */
  datatype ReadRun = ReadRun(urls: seq<string>, end: ReadEnd)

  /** The URL readStorageItemFromUrl requests: the base, the record's JSON
      file name and the clock reading taken when the request is built, so
      that no cache answers it. */
  function RequestUrl(base: string, fileName: string, at: int): string
  {
    base + fileName + "?noCache=" + IntToString(at)
  }

  /** readStorageItemFromUrl with getReadStorageItemHandler(item, callback,
      fallbackUrl): `outcomes` are the answers to the successive requests,
      `requestAt` the clock when the first request is built and `retryAt`
      when a retry is built. A failure is retried against a non-empty
      fallback URL with a handler whose own fallback is null; otherwise it
      goes to the callback as a NOT_READABLE error carrying the message. */
  function ReadFromUrl(url: string, fallbackUrl: Option<string>, fileName: string, requestAt: int, retryAt: int,
                       outcomes: seq<Fetch>): ReadRun
    decreases |outcomes|
  {
    var requested := [RequestUrl(url, fileName, requestAt)];
    if outcomes == [] then ReadRun(requested, Pending)
    else match outcomes[0]
      case Fetched(None) => ReadRun(requested, Silent)
      case Fetched(Some(Throws)) => ReadRun(requested, Silent)
      case Fetched(Some(Ignored)) => ReadRun(requested, Delivered(None))
      case Fetched(Some(Decoded(r))) => ReadRun(requested, Delivered(Some(r)))
      case FetchFailed(message) =>
        if fallbackUrl.Some? && fallbackUrl.value != "" then
          var retry := ReadFromUrl(fallbackUrl.value, None, fileName, retryAt, retryAt, outcomes[1..]);
          ReadRun(requested + retry.urls, retry.end)
        else ReadRun(requested, Refused(StorageError(NotReadableErr, message)))
  }

  /** The fallback is tried at most once: a read makes one or two requests,
      the second only after the first failed, and only to the non-empty
      fallback URL, stamped with the clock of the retry; the chain ends as
      the last request answered. */
  lemma {:induction false} ReadFromUrlRetriesOnce(url: string, fallbackUrl: Option<string>, fileName: string,
                                                  requestAt: int, retryAt: int, outcomes: seq<Fetch>)
    ensures var run := ReadFromUrl(url, fallbackUrl, fileName, requestAt, retryAt, outcomes);
      1 <= |run.urls| <= 2 && run.urls[0] == RequestUrl(url, fileName, requestAt)
      && (|run.urls| == 2 <==> outcomes != [] && outcomes[0].FetchFailed? && fallbackUrl.Some? && fallbackUrl.value != "")
      && (|run.urls| == 2 ==> run.urls[1] == RequestUrl(fallbackUrl.value, fileName, retryAt))
      && (run.end.Pending? <==> |outcomes| < |run.urls|)
      && (run.end.Delivered? <==>
            |outcomes| >= |run.urls| && outcomes[|run.urls| - 1].Fetched?
            && outcomes[|run.urls| - 1].response.Some? && !outcomes[|run.urls| - 1].response.value.Throws?)
  {
    if outcomes != [] && outcomes[0].FetchFailed? && fallbackUrl.Some? && fallbackUrl.value != "" {
      var rest := outcomes[1..];
      var retry := ReadFromUrl(fallbackUrl.value, None, fileName, retryAt, retryAt, rest);
      if rest != [] {
        assert outcomes[1] == rest[0];
      }
      assert |retry.urls| == 1;
    }
  }

  /** The clock readings one readStorageItem takes: when the age of the
      cached copy is judged, when the first and the fallback request are
      built, and when a received record's write time is taken. */
  datatype ReadClock = ReadClock(checkAt: int, requestAt: int, retryAt: int, writeAt: int)

  // ---------------------------------------------------------------------
  // Cache directory memo

  /** What getCacheDirectoryEntry hands its callback: the memoised handle
      if there is one; outside the container nothing at all; otherwise the
      outcome of resolving the configured directory. */
  function CacheDirectory(memo: Option<DirEntry>, host: Host, resolve: Result<DirEntry, StorageError>): Option<Result<DirEntry, StorageError>>
  {
    if memo.Some? then Some(Ok(memo.value))
    else if !host.isPhoneGapDevice then None
    else Some(resolve)
  }

  /** The memo after getCacheDirectoryEntry: a successful resolution is kept. */
  function MemoAfter(memo: Option<DirEntry>, host: Host, resolve: Result<DirEntry, StorageError>): Option<DirEntry>
  {
    if memo.Some? then memo
    else if host.isPhoneGapDevice && resolve.Ok? then Some(resolve.value)
    else None
  }

  /** What getLocalFileReference(cacheDirectory, fileName, false, callback)
      hands its callback when the existence of a cached file is checked:
      None when it never calls back (outside the container, or when the file
      system or the directory cannot be obtained, which is only logged),
      otherwise the file or the error of the file lookup. */
  type FileLookup = Option<Result<FileEntry, StorageError>>

  /** What follows the version check of a resource and, for a matching
      version, the existence check of its cached file. */
  datatype NextStep = Download | KeepCached(entry: FileEntry) | NoAnswer

  /** Download without cache entry or on a version mismatch; on a match,
      download when the cached file is reported missing, keep it when it is
      found, and do nothing when the existence check never answers. */
  function StepAfterCheck(check: VersionCheck, lookup: FileLookup): (step: NextStep)
    ensures step.Download? <==> check != VersionMatch || (lookup.Some? && lookup.value.Err?)
    ensures step.NoAnswer? <==> check == VersionMatch && lookup.None?
    ensures step.KeepCached? ==> lookup == Some(Ok(step.entry))
  {
    if check != VersionMatch then Download
    else match lookup
      case None => NoAnswer
      case Some(Err(_)) => Download
      case Some(Ok(entry)) => KeepCached(entry)
  }

  /** The download downloadCacheResource starts once the directory is known. */
  function TransferFor(r: Resource, remoteAppBaseUrl: string, dir: DirEntry): Transfer
  {
    Transfer(r, remoteAppBaseUrl + r.resourceUrl, dir.url + ConvertFilePathToFileName(r.resourceUrl))
  }

  /** The downloads started for `r`: one when the directory resolves, none
      otherwise (the failure is only logged). */
  function Started(r: Resource, remoteAppBaseUrl: string, dir: Option<Result<DirEntry, StorageError>>): seq<Transfer>
  {
    if dir.Some? && dir.value.Ok? then [TransferFor(r, remoteAppBaseUrl, dir.value.value)] else []
  }

  /** The download source is the remote base followed by the relative URL,
      and the destination the directory URL followed by the converted file
      name, which holds no "/". */
  lemma TransferUrls(r: Resource, remoteAppBaseUrl: string, dir: DirEntry)
    ensures var t := TransferFor(r, remoteAppBaseUrl, dir);
      t.sourceUrl == GetRemoteResourceUrl(Host(true, false), remoteAppBaseUrl, r.resourceUrl)
      && t.destUrl[..|dir.url|] == dir.url
      && '/' !in t.destUrl[|dir.url|..]
  {
    FileNameHasNoSlash(r.resourceUrl);
    var t := TransferFor(r, remoteAppBaseUrl, dir);
    assert t.destUrl[|dir.url|..] == ConvertFilePathToFileName(r.resourceUrl);
  }

  /** The two cache families the clearing loops remove. */
  function ClearedOfResources(s: Store): Store
  {
    Drop(s, IsResourceKeyText)
  }

  function ClearedOfItems(s: Store): Store
  {
    Drop(s, IsItemKeyText)
  }

  /** Clearing both families leaves no record or resource key and keeps
      every other entry in order. */
  lemma ClearStorageLeavesNoCacheKeys(s: Store)
    ensures forall e :: e in ClearedOfItems(ClearedOfResources(s)) ==> !IsItemKeyText(e.0) && !IsResourceKeyText(e.0)
    ensures forall e :: e in s && !IsItemKeyText(e.0) && !IsResourceKeyText(e.0) ==> e in ClearedOfItems(ClearedOfResources(s))
  {
    var mid := ClearedOfResources(s);
    DropExcludes(s, IsResourceKeyText);
    DropExcludes(mid, IsItemKeyText);
    DropKeeps(s, IsResourceKeyText);
    DropKeeps(mid, IsItemKeyText);
    forall e | e in ClearedOfItems(mid)
      ensures e in mid
    {
      DropSubset(mid, IsItemKeyText, e);
    }
  }

  lemma {:induction false} DropSubset(s: Store, drop: string -> bool, e: (string, string))
    requires e in Drop(s, drop)
    ensures e in s
  {
    if s != [] {
      var init := s[..|s| - 1];
      if e in Drop(init, drop) {
        DropSubset(init, drop, e);
        assert init <= s;
      }
    }
  }

  /** The manager's state: the local store, its configuration, the
      memoised cache directory, the download queue with its in-progress
      flag, and the downloads in flight. */
  class StorageManager {
    var store: Store
    var remoteAppBaseUrl: string
    var storageUrl: string
    var cacheDirectory: string
    var cacheEnabled: bool
    var wlanEnabled: bool
    var cacheDirectoryEntry: Option<DirEntry>
    var cacheResourceQueue: seq<Resource>
    var downloadInProgress: bool
    var transfers: seq<Transfer>

    /** The state every public operation keeps: because checkNextCacheResource
        resets the flag in its finally block, the flag is never seen set and
        every enqueued resource is taken off the queue at once. */
    predicate Valid()
      reads this
    {
      !downloadInProgress && cacheResourceQueue == []
    }

    constructor (store: Store)
      ensures Valid()
      ensures this.store == store && transfers == []
      ensures remoteAppBaseUrl == DefaultRemoteAppBaseUrl && storageUrl == DefaultStorageUrl
      ensures cacheDirectory == DefaultCacheDirectory && cacheDirectoryEntry.None?
      ensures cacheEnabled && wlanEnabled
    {
      this.store := store;
      remoteAppBaseUrl := DefaultRemoteAppBaseUrl;
      storageUrl := DefaultStorageUrl;
      cacheDirectory := DefaultCacheDirectory;
      cacheEnabled := true;
      wlanEnabled := true;
      cacheDirectoryEntry := None;
      cacheResourceQueue := [];
      downloadInProgress := false;
      transfers := [];
    }

    /** setCacheDirectory: a different path forgets the memoised handle. */
    method SetCacheDirectory(dir: string)
      modifies this`cacheDirectory, this`cacheDirectoryEntry
      ensures cacheDirectory == dir
      ensures cacheDirectoryEntry == if dir == old(cacheDirectory) then old(cacheDirectoryEntry) else None
    {
      if cacheDirectory == dir {
        return;
      }
      cacheDirectory := dir;
      cacheDirectoryEntry := None;
    }

    // -------------------------------------------------------------------
    // Records in the local store

    /** writeStorageItemToLocalStorage: nothing for a null record, one
        without id or one whose toJson gives null (the exception is caught
        and false returned); otherwise the record, then its write time. */
    method WriteStorageItemToLocalStorage(item: Item?, codec: Codec, now: int) returns (ok: bool)
      modifies this`store
      ensures ok <==> item != null && Storable(item.Snapshot(), codec)
      ensures ok ==> store == WriteLocal(old(store), item.typeName, item.Snapshot(), codec, now)
      ensures !ok ==> store == old(store)
    {
      if item == null {
        return false;
      }
      var json := codec.encode(item.Snapshot());
      var key := item.IdKey();
      if key.None? || json.None? {
        return false;
      }
      store := Put(store, key.value, json.value);
      WriteStorageItemStorageTime(item, codec, now);
      ok := true;
    }

    /** writeStorageItemStorageTimeToLocalStorage. For a record without an
        id the source throws when it builds the time key; its only caller
        never passes one, and here nothing is written. */
    method WriteStorageItemStorageTime(item: Item, codec: Codec, now: int)
      modifies this`store
      ensures item.id.Some? ==> store == Put(old(store), ItemTimeKey(item.typeName, item.id.value), codec.formatTime(now))
      ensures item.id.None? ==> store == old(store)
    {
      var key := item.TimeKey();
      if key.None? {
        return;
      }
      store := Put(store, key.value, codec.formatTime(now));
    }

    /** readStorageItemFromLocalStorage(item, expectedVersion, cacheTime);
        the one-argument form passes 0 and 0. */
    method ReadStorageItemFromLocalStorage(item: Item?, expectedVersion: int, cacheTime: int, now: int, codec: Codec)
      returns (ok: bool)
      modifies item
      ensures item == null ==> !ok
      ensures item != null ==>
        var read := ReadLocal(store, item.typeName, old(item.Snapshot()), expectedVersion, cacheTime, now, codec);
        ok == read.accepted
        && item.Snapshot() == (if read.loaded.Some? then read.loaded.value else old(item.Snapshot()))
    {
      if item == null {
        return false;
      }
      var key := item.IdKey();
      if key.None? {
        return false;
      }
      var val := Get(store, key.value);
      if val.None? {
        return false;
      }
      var decoding := codec.decode(val.value);
      if decoding.Throws? {
        return false;
      }
      if decoding.Decoded? {
        item.Load(decoding.record);
      }
      if expectedVersion > 0 {
        if item.version.None? {
          return false;
        }
        if !CheckStorageItemVersion(expectedVersion, item.version.value) {
          return false;
        }
      }
      if cacheTime > 0 {
        var timeKey := item.TimeKey();
        if timeKey.None? {
          return false;
        }
        var stamp := Get(store, timeKey.value);
        var storeTime := if stamp.Some? then codec.parseTime(stamp.value) else None;
        if storeTime.Some? {
          if CacheTimeElapsed(now, cacheTime, storeTime.value) {
            return false;
          }
        }
      }
      ok := true;
    }

    /** readStorageItem: a valid cached copy answers at once; otherwise the
        record is read from the remote base with the application's own base
        as fallback (inside the container) or from the application's own
        base alone (in a browser). A response that arrives is read into the
        record (which stays as it was when its class ignores the response),
        written to the local store and handed to the callback; a write that
        fails is ignored and the callback still hears the record. */
    method ReadStorageItem(item: Item, useCache: bool, expectedVersion: int, validTime: int, clock: ReadClock,
                           codec: Codec, host: Host, outcomes: seq<Fetch>)
      returns (reply: Reply<Record>, requested: seq<string>)
      modifies this`store, item
      ensures var local := ReadLocal(old(store), item.typeName, old(item.Snapshot()), expectedVersion, validTime, clock.checkAt, codec);
        var afterLocal := if useCache && cacheEnabled && local.loaded.Some? then local.loaded.value else old(item.Snapshot());
        if useCache && cacheEnabled && local.accepted then
          reply == Succeeded(local.loaded.value) && item.Snapshot() == local.loaded.value
          && requested == [] && store == old(store)
        else
          var run := ReadFromUrl(if host.isPhoneGapDevice then remoteAppBaseUrl + storageUrl else storageUrl,
                                 if host.isPhoneGapDevice then Some(storageUrl) else None,
                                 JsonFileName(item.typeName, if useCache && cacheEnabled && local.loaded.Some? then local.loaded.value.id else old(item.id)),
                                 clock.requestAt, clock.retryAt, outcomes);
          requested == run.urls
          && (run.end.Delivered? ==>
                var delivered := if run.end.decoded.Some? then Loaded(run.end.decoded.value) else afterLocal;
                reply == Succeeded(delivered) && item.Snapshot() == delivered
                && store == (if Storable(delivered, codec) then WriteLocal(old(store), item.typeName, delivered, codec, clock.writeAt) else old(store)))
          && (run.end.Refused? ==> reply == Failed(run.end.error) && store == old(store) && item.Snapshot() == afterLocal)
          && (run.end.Pending? || run.end.Silent? ==> reply == NoReply && store == old(store) && item.Snapshot() == afterLocal)
    {
      if useCache && cacheEnabled {
        var found := ReadStorageItemFromLocalStorage(item, expectedVersion, validTime, clock.checkAt, codec);
        if found {
          return Succeeded(item.Snapshot()), [];
        }
      }
      var url := if host.isPhoneGapDevice then remoteAppBaseUrl + storageUrl else storageUrl;
      var fallback := if host.isPhoneGapDevice then Some(storageUrl) else None;
      var run := ReadFromUrl(url, fallback, JsonFileName(item.typeName, item.id), clock.requestAt, clock.retryAt, outcomes);
      requested := run.urls;
      match run.end {
        case Delivered(decoded) =>
          if decoded.Some? {
            item.Load(decoded.value);
          }
          var _ := WriteStorageItemToLocalStorage(item, codec, clock.writeAt);
          reply := Succeeded(item.Snapshot());
        case Refused(e) =>
          reply := Failed(e);
        case Pending =>
          reply := NoReply;
        case Silent =>
          reply := NoReply;
      }
    }

    /** clearStorageItems: one pass over the initial number of entries; a
        record key is removed (the next entry moves into its index),
        anything else is stepped over. */
    method ClearStorageItems()
      modifies this`store
      ensures store == ClearedOfItems(old(store))
    {
      ghost var initial := store;
      var len := |store|;
      var index := 0;
      ghost var removed := 0;
      for i := 0 to len
        invariant index + removed == i
        invariant index == |Drop(initial[..i], IsItemKeyText)|
        invariant store == Drop(initial[..i], IsItemKeyText) + initial[i..]
      {
        RemovalStep(initial, i, IsItemKeyText, store, index);
        var key := store[index].0;
        if IsStorageItemKey(Some(key)) {
          store := Remove(store, key);
          removed := removed + 1;
        } else {
          index := index + 1;
        }
      }
      assert initial[..len] == initial;
    }

    /** clearResourceItems: one pass over the initial number of entries; a
        resource id key is removed and its file deletion requested with the
        stored file URL, a resource version key is removed, anything else is
        stepped over. Returns the file URLs whose deletion was requested. */
    method ClearResourceItems() returns (deletions: seq<string>)
      modifies this`store
      ensures store == ClearedOfResources(old(store))
      ensures deletions == ValuesWhere(old(store), IsResourceIdKeyText)
    {
      ghost var initial := store;
      var len := |store|;
      var index := 0;
      ghost var removed := 0;
      deletions := [];
      for i := 0 to len
        invariant index + removed == i
        invariant index == |Drop(initial[..i], IsResourceKeyText)|
        invariant store == Drop(initial[..i], IsResourceKeyText) + initial[i..]
        invariant deletions == ValuesWhere(initial[..i], IsResourceIdKeyText)
      {
        RemovalStep(initial, i, IsResourceKeyText, store, index);
        ValuesWhereSnoc(initial, i, IsResourceIdKeyText);
        var key := store[index].0;
        ResourceKeyClasses(Some(key));
        if IsResourceIdKey(Some(key)) || IsResourceVersionKey(Some(key)) {
          if IsResourceIdKey(Some(key)) {
            var fullFileUrl := Get(store, key);
            deletions := deletions + [fullFileUrl.value];
          }
          store := Remove(store, key);
          removed := removed + 1;
        } else {
          index := index + 1;
        }
      }
      assert initial[..len] == initial;
    }

    /** clearStorage: resources first, then records. */
    method ClearStorage() returns (deletions: seq<string>)
      modifies this`store
      ensures store == ClearedOfItems(ClearedOfResources(old(store)))
      ensures deletions == ValuesWhere(old(store), IsResourceIdKeyText)
    {
      deletions := ClearResourceItems();
      ClearStorageItems();
    }

    // -------------------------------------------------------------------
    // Resources

    /** getCacheDirectoryEntry with a callback: `resolved` is what the
        callback receives (None: it is never called). */
    method GetCacheDirectoryEntry(host: Host, resolve: Result<DirEntry, StorageError>)
      returns (resolved: Option<Result<DirEntry, StorageError>>)
      modifies this`cacheDirectoryEntry
      ensures resolved == CacheDirectory(old(cacheDirectoryEntry), host, resolve)
      ensures cacheDirectoryEntry == MemoAfter(old(cacheDirectoryEntry), host, resolve)
    {
      if cacheDirectoryEntry.Some? {
        return Some(Ok(cacheDirectoryEntry.value));
      }
      if !host.isPhoneGapDevice {
        return None;
      }
      if resolve.Ok? {
        cacheDirectoryEntry := Some(resolve.value);
      }
      resolved := Some(resolve);
    }

    /** downloadCacheResource: resolve the cache directory, then hand the
        download to the file-transfer collaborator. */
    method DownloadCacheResource(r: Resource, host: Host, resolve: Result<DirEntry, StorageError>)
      modifies this`cacheDirectoryEntry, this`transfers
      ensures cacheDirectoryEntry == MemoAfter(old(cacheDirectoryEntry), host, resolve)
      ensures transfers == old(transfers) + Started(r, remoteAppBaseUrl, CacheDirectory(old(cacheDirectoryEntry), host, resolve))
    {
      var dir := GetCacheDirectoryEntry(host, resolve);
      if dir.Some? && dir.value.Ok? {
        transfers := transfers + [TransferFor(r, remoteAppBaseUrl, dir.value.value)];
      }
    }

    /** checkNextCacheResource: unless a download is flagged, take the head
        of the queue and start its download. The finally block clears the
        flag on every return, including the early one. */
    method CheckNextCacheResource(host: Host, resolve: Result<DirEntry, StorageError>)
      modifies this`downloadInProgress, this`cacheResourceQueue, this`cacheDirectoryEntry, this`transfers
      ensures !downloadInProgress
      ensures old(downloadInProgress) || old(cacheResourceQueue) == [] ==>
        cacheResourceQueue == old(cacheResourceQueue) && transfers == old(transfers)
        && cacheDirectoryEntry == old(cacheDirectoryEntry)
      ensures !old(downloadInProgress) && old(cacheResourceQueue) != [] ==>
        cacheResourceQueue == old(cacheResourceQueue)[1..]
        && transfers == old(transfers) + Started(old(cacheResourceQueue)[0], remoteAppBaseUrl, CacheDirectory(old(cacheDirectoryEntry), host, resolve))
        && cacheDirectoryEntry == MemoAfter(old(cacheDirectoryEntry), host, resolve)
    {
      if downloadInProgress {
        downloadInProgress := false;
        return;
      }
      if |cacheResourceQueue| > 0 {
        downloadInProgress := true;
        var next := cacheResourceQueue[0];
        cacheResourceQueue := cacheResourceQueue[1..];
        DownloadCacheResource(next, host, resolve);
      }
      downloadInProgress := false;
    }

    /** addResourceToCache: with caching on and a non-empty URL, a resource
        without cache entry or with a different cached version is queued and
        the queue pumped; one with a matching version is queued only when
        the existence check of its cached file (`lookup`) reports it
        missing; no answer to that check means nothing happens. */
    method AddResourceToCache(relativeUrl: Option<string>, version: Option<int>, host: Host,
                              lookup: FileLookup, resolve: Result<DirEntry, StorageError>)
      requires Valid()
      modifies this`downloadInProgress, this`cacheResourceQueue, this`cacheDirectoryEntry, this`transfers
      ensures Valid()
      ensures var r := NewResource(relativeUrl.GetOr(""), version);
        var wanted := IsResourceCachingEnabled(host, cacheEnabled, wlanEnabled)
          && relativeUrl.Some? && relativeUrl.value != ""
          && StepAfterCheck(CheckResourceVersion(store, r), lookup).Download?;
        if wanted then
          transfers == old(transfers) + Started(r, remoteAppBaseUrl, CacheDirectory(old(cacheDirectoryEntry), host, resolve))
          && cacheDirectoryEntry == MemoAfter(old(cacheDirectoryEntry), host, resolve)
        else
          transfers == old(transfers) && cacheDirectoryEntry == old(cacheDirectoryEntry)
    {
      if !IsResourceCachingEnabled(host, cacheEnabled, wlanEnabled) {
        return;
      }
      if relativeUrl.None? || relativeUrl.value == "" {
        return;
      }
      var resource := NewResource(relativeUrl.value, version);
      var versionCheck := CheckResourceVersion(store, resource);
      if versionCheck == VersionMatch {
        if lookup.Some? && lookup.value.Err? {
          cacheResourceQueue := cacheResourceQueue + [NewResource(relativeUrl.value, version)];
          CheckNextCacheResource(host, resolve);
        }
        return;
      }
      cacheResourceQueue := cacheResourceQueue + [NewResource(relativeUrl.value, version)];
      CheckNextCacheResource(host, resolve);
    }

    /** The success handler of a manager download: record the file URL,
        then the version (a null version throws here, which ends the
        handler), then clear the flag and pump the queue. */
    method OnDownloadSuccess(k: nat, entry: FileEntry, host: Host, resolve: Result<DirEntry, StorageError>)
      requires Valid() && k < |transfers|
      modifies this`store, this`downloadInProgress, this`cacheResourceQueue, this`cacheDirectoryEntry, this`transfers
      ensures Valid()
      ensures var r := old(transfers)[k].resource;
        store == (if r.version.Some? then RecordDownload(old(store), r, entry.url, r.version.value)
                  else Put(old(store), r.IdKey(), entry.url))
      ensures transfers == old(transfers)[..k] + old(transfers)[k + 1..]
      ensures cacheDirectoryEntry == old(cacheDirectoryEntry)
    {
      var r := transfers[k].resource;
      transfers := transfers[..k] + transfers[k + 1..];
      store := Put(store, r.IdKey(), entry.url);
      if r.version.None? {
        return;
      }
      store := Put(store, r.VersionKey(), IntToString(r.version.value));
      downloadInProgress := false;
      CheckNextCacheResource(host, resolve);
    }

    /** The failure handler of a manager download: clear the flag and pump
        the queue; the store is not touched. */
    method OnDownloadFailure(k: nat, host: Host, resolve: Result<DirEntry, StorageError>)
      requires Valid() && k < |transfers|
      modifies this`downloadInProgress, this`cacheResourceQueue, this`cacheDirectoryEntry, this`transfers
      ensures Valid()
      ensures transfers == old(transfers)[..k] + old(transfers)[k + 1..]
      ensures cacheDirectoryEntry == old(cacheDirectoryEntry)
    {
      transfers := transfers[..k] + transfers[k + 1..];
      downloadInProgress := false;
      CheckNextCacheResource(host, resolve);
    }

    /** retrieveResourceUrl: the URL under which a resource can be loaded.
        `started` is the returned boolean; `reply` is what the callback
        receives (nothing when none is given). */
    method RetrieveResourceUrl(relativeUrl: Option<string>, version: Option<int>, hasCallback: bool,
                               host: Host, resolve: Result<DirEntry, StorageError>)
      returns (started: bool, reply: Reply<string>)
      modifies this`cacheDirectoryEntry
      ensures !hasCallback ==> reply == NoReply
      ensures relativeUrl.None? || relativeUrl.value == "" ==>
        !started && cacheDirectoryEntry == old(cacheDirectoryEntry)
        && (hasCallback ==> reply == Failed(StorageError(SyntaxErr, "Invalid Url given : " + relativeUrl.GetOr("null"))))
      ensures relativeUrl.Some? && relativeUrl.value != "" && !host.isPhoneGapDevice ==>
        started && cacheDirectoryEntry == old(cacheDirectoryEntry)
        && (hasCallback ==> reply == Succeeded(relativeUrl.value))
      ensures relativeUrl.Some? && relativeUrl.value != "" && host.isPhoneGapDevice ==>
        var check := CheckResourceVersion(store, NewResource(relativeUrl.value, version));
        (check == NoCacheEntry ==>
           !started && cacheDirectoryEntry == old(cacheDirectoryEntry)
           && (hasCallback ==> reply == Failed(StorageError(NotFoundErr, "No resource cache item found"))))
        && (check == VersionMismatch ==> !started && reply == NoReply && cacheDirectoryEntry == old(cacheDirectoryEntry))
        && (check == VersionMatch ==>
           started
           && cacheDirectoryEntry == MemoAfter(old(cacheDirectoryEntry), host, resolve)
           && var dir := CacheDirectory(old(cacheDirectoryEntry), host, resolve).value;
              (hasCallback && dir.Ok? ==> reply == Succeeded(dir.value.url + "/" + ConvertFilePathToFileName(relativeUrl.value)))
              && (hasCallback && dir.Err? ==> reply == Failed(dir.error)))
    {
      reply := NoReply;
      if relativeUrl.None? || relativeUrl.value == "" {
        if hasCallback {
          reply := Failed(StorageError(SyntaxErr, "Invalid Url given : " + relativeUrl.GetOr("null")));
        }
        return false, reply;
      }
      if !host.isPhoneGapDevice {
        if hasCallback {
          reply := Succeeded(relativeUrl.value);
        }
        return true, reply;
      }
      var resource := NewResource(relativeUrl.value, version);
      var checkVersion := CheckResourceVersion(store, resource);
      if checkVersion == NoCacheEntry {
        if hasCallback {
          reply := Failed(StorageError(NotFoundErr, "No resource cache item found"));
        }
      } else if checkVersion == VersionMatch {
        var dir := GetCacheDirectoryEntry(host, resolve);
        if dir.Some? && hasCallback {
          match dir.value {
            case Ok(dirEntry) =>
              reply := Succeeded(dirEntry.url + "/" + ConvertFilePathToFileName(relativeUrl.value));
            case Err(error) =>
              reply := Failed(error);
          }
        }
        return true, reply;
      }
      started := false;
    }

    /** getAllCachedResourceItems: with caching on and a callback, one info
        collection is scheduled per resource id key, in store order; the
        count of scheduled collections is returned. */
    method GetAllCachedResourceItems(host: Host, hasCallback: bool) returns (count: int, scheduled: seq<string>)
      ensures count == |scheduled|
      ensures !IsResourceCachingEnabled(host, cacheEnabled, wlanEnabled) || !hasCallback ==> scheduled == []
      ensures IsResourceCachingEnabled(host, cacheEnabled, wlanEnabled) && hasCallback ==>
        scheduled == KeysWhere(store, IsResourceIdKeyText)
      ensures forall key :: key in scheduled ==> IsResourceIdKey(Some(key))
    {
      scheduled := [];
      if !IsResourceCachingEnabled(host, cacheEnabled, wlanEnabled) {
        return 0, scheduled;
      }
      if !hasCallback {
        return 0, scheduled;
      }
      var len := |store|;
      var resCtr := 0;
      for i := 0 to len
        invariant resCtr == |scheduled|
        invariant scheduled == KeysWhere(store[..i], IsResourceIdKeyText)
        invariant forall key :: key in scheduled ==> IsResourceIdKey(Some(key))
      {
        var key := store[i].0;
        if IsResourceIdKey(Some(key)) {
          resCtr := resCtr + 1;
          scheduled := scheduled + [key];
        }
        KeysWhereSnoc(store, i, IsResourceIdKeyText);
      }
      assert store[..len] == store;
      count := resCtr;
    }
  }

  /** Two requests for uncached resources, made one after the other before
      either download completes, leave two downloads in flight at once:
      the finally block of checkNextCacheResource has already cleared the
      flag that was meant to hold the second one in the queue. */
  method OverlappingDownloads() returns (inFlight: nat, queued: nat)
    ensures inFlight == 2 && queued == 0
  {
    var m := new StorageManager([]);
    var host := Host(true, true);
    var dir := Ok(DirEntry("cdvfile://localhost/persistent/myApp/"));
    var missing := Some(Err(ErrorOf(NotFoundErr)));
    m.AddResourceToCache(Some("video/a.mp4"), Some(1), host, missing, dir);
    m.AddResourceToCache(Some("video/b.mp4"), Some(1), host, missing, dir);
    inFlight := |m.transfers|;
    queued := |m.cacheResourceQueue|;
  }

  /** A resource whose download at version v was recorded, after the
      cache directory has been renamed: addResourceToCache for version v
      finds a matching version, the existence check never answers because
      the renamed directory cannot be obtained, and nothing is downloaded;
      had the check reported the file missing, it would have been
      downloaded again. */
  method SilentLookupSkipsDownload(url: string, v: int, fileUrl: string, renamed: string, dirUrl: string)
    returns (silent: nat, reported: nat)
    requires url != "" && IsInt32(v)
    ensures silent == 0 && reported == 1
  {
    var r := NewResource(url, Some(v));
    var recorded := RecordDownload([], r, fileUrl, v);
    CheckAfterDownload([], r, fileUrl, v, Some(v));
    var host := Host(true, true);
    var dir := Ok(DirEntry(dirUrl));

    var m := new StorageManager(recorded);
    m.SetCacheDirectory(renamed);
    m.AddResourceToCache(Some(url), Some(v), host, None, dir);
    silent := |m.transfers|;

    var n := new StorageManager(recorded);
    n.SetCacheDirectory(renamed);
    n.AddResourceToCache(Some(url), Some(v), host, Some(Err(ErrorOf(NotFoundErr))), dir);
    reported := |n.transfers|;
  }
}
