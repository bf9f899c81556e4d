/** StorageResourceCollector: a scheduled command that makes sure one
    resource is in the cache in the requested version, downloading it when
    there is no cache entry, the versions differ or the cached file is
    reported missing, and reporting to the resource's notification sink, if
    it has one. */
module ResourceCollector {
  import opened Wrappers
  import opened LocalStore
  import opened StorageResourceModel
  import opened CachePolicy
  import opened Manager

  /** A file-transfer failure as the sink receives it. */
  datatype TransferError = TransferError(code: ErrorCode, reason: string)

  /** What a download notification sink is told. */
  datatype Notice = Progress(loaded: int, total: int) | Downloaded(entry: FileEntry) | TransferFailed(error: TransferError)

  /** The notices delivered for `r`: none when it has no sink. */
  function Notify(r: Resource, n: Notice): seq<Notice>
  {
    if r.downloadNotification.Some? then [n] else []
  }

  /** After a collector's download of `r` at version v is recorded, the
      version check matches, so executing the same collector again keeps
      the cached file when the existence check finds it. */
  lemma RecordedDownloadIsNotRepeated(store: Store, r: Resource, fileUrl: string, v: int, entry: FileEntry)
    requires r.version == Some(v) && IsInt32(v)
    ensures CheckResourceVersion(RecordDownload(store, r, fileUrl, v), r) == VersionMatch
    ensures StepAfterCheck(CheckResourceVersion(RecordDownload(store, r, fileUrl, v), r), Some(Ok(entry))) == KeepCached(entry)
  {
    CheckAfterDownload(store, r, fileUrl, v, r.version);
    assert Resource(r.resourceUrl, r.version, None).VersionKey() == r.VersionKey();
  }

  /** A collector for `r` executed on an empty cache downloads it; once the
      download succeeds and is recorded, executing it again starts no second
      download and hands the sink the file the existence check found. */
  method ExecuteAroundDownload(r: Resource, v: int, dirUrl: string, entry: FileEntry, found: FileEntry)
    returns (downloadsFirst: nat, downloadsSecond: nat, delivered: seq<Notice>)
    requires r.version == Some(v) && IsInt32(v)
    ensures downloadsFirst == 1 && downloadsSecond == 1
    ensures delivered == Notify(r, Downloaded(entry)) + Notify(r, Downloaded(found))
  {
    var m := new StorageManager([]);
    var c := new StorageResourceCollector(m, r);
    var host := Host(true, true);
    var dir := Ok(DirEntry(dirUrl));
    c.Execute(host, None, dir);
    downloadsFirst := |c.downloads|;
    c.OnDownloadSuccess(entry);
    c.Execute(host, Some(Ok(found)), dir);
    downloadsSecond := |c.downloads|;
    delivered := c.notices;
  }

  class StorageResourceCollector {
    const manager: StorageManager
    const resource: Resource
    /** The notices delivered to the resource's sink, in order. */
    var notices: seq<Notice>
    /** The downloads this collector handed to the file-transfer collaborator. */
    var downloads: seq<Transfer>

    constructor (manager: StorageManager, resource: Resource)
      ensures this.manager == manager && this.resource == resource
      ensures notices == [] && downloads == []
    {
      this.manager := manager;
      this.resource := resource;
      notices := [];
      downloads := [];
    }

    /** execute: the tri-state version check decides at once; nothing is
        queued. `lookup` is what the existence check of the cached file
        answers, if anything, `resolve` the outcome of resolving the cache
        directory. A found file is reported to the sink as it is; no answer
        leaves everything as it was. */
    method Execute(host: Host, lookup: FileLookup, resolve: Result<DirEntry, StorageError>)
      modifies this`notices, this`downloads, manager`cacheDirectoryEntry
      ensures var step := StepAfterCheck(CheckResourceVersion(manager.store, resource), lookup);
        if step.Download? then
          manager.cacheDirectoryEntry == MemoAfter(old(manager.cacheDirectoryEntry), host, resolve)
          && var dir := CacheDirectory(old(manager.cacheDirectoryEntry), host, resolve);
             downloads == old(downloads) + Started(resource, manager.remoteAppBaseUrl, dir)
             && notices == old(notices) + DirectoryFailureNotices(dir)
        else
          manager.cacheDirectoryEntry == old(manager.cacheDirectoryEntry)
          && downloads == old(downloads)
          && notices == old(notices) + (if step.KeepCached? then Notify(resource, Downloaded(step.entry)) else [])
    {
      var versionCheck := CheckResourceVersion(manager.store, resource);
      if versionCheck == NoCacheEntry {
        DownloadCacheResource(host, resolve);
      } else if versionCheck == VersionMatch {
        match lookup {
          case None =>
          case Some(Ok(entry)) =>
            notices := notices + Notify(resource, Downloaded(entry));
          case Some(Err(_)) =>
            DownloadCacheResource(host, resolve);
        }
      } else {
        DownloadCacheResource(host, resolve);
      }
    }

    /** The notices a failed directory resolution produces: the storage
        error becomes a transfer error with the same code and reason. */
    function DirectoryFailureNotices(dir: Option<Result<DirEntry, StorageError>>): seq<Notice>
      reads {}
    {
      if dir.Some? && dir.value.Err? then
        Notify(resource, TransferFailed(TransferError(dir.value.error.code, dir.value.error.reason)))
      else []
    }

    /** downloadCacheResource: resolve the cache directory; on success start
        the download from the remote base plus the relative URL to the
        directory URL plus the converted file name (no separator is added
        in either); on failure tell the sink. */
    method DownloadCacheResource(host: Host, resolve: Result<DirEntry, StorageError>)
      modifies this`notices, this`downloads, manager`cacheDirectoryEntry
      ensures manager.cacheDirectoryEntry == MemoAfter(old(manager.cacheDirectoryEntry), host, resolve)
      ensures var dir := CacheDirectory(old(manager.cacheDirectoryEntry), host, resolve);
        downloads == old(downloads) + Started(resource, manager.remoteAppBaseUrl, dir)
        && notices == old(notices) + DirectoryFailureNotices(dir)
    {
      var dir := manager.GetCacheDirectoryEntry(host, resolve);
      match dir {
        case None =>
        case Some(Ok(cacheDir)) =>
          var localFileName := ConvertFilePathToFileName(resource.resourceUrl);
          var sourceUrl := manager.remoteAppBaseUrl + resource.resourceUrl;
          var destUrl := cacheDir.url + localFileName;
          downloads := downloads + [Transfer(resource, sourceUrl, destUrl)];
        case Some(Err(error)) =>
          notices := notices + Notify(resource, TransferFailed(TransferError(error.code, error.reason)));
      }
    }

    /** The download handler's success: record the file URL, then the
        version (a null version throws here and the sink hears nothing),
        then tell the sink. */
    method OnDownloadSuccess(entry: FileEntry)
      modifies manager`store, this`notices
      ensures resource.version.Some? ==>
        manager.store == RecordDownload(old(manager.store), resource, entry.url, resource.version.value)
        && notices == old(notices) + Notify(resource, Downloaded(entry))
      ensures resource.version.None? ==>
        manager.store == Put(old(manager.store), resource.IdKey(), entry.url) && notices == old(notices)
      ensures resource.version.Some? && IsInt32(resource.version.value) ==>
        CheckResourceVersion(manager.store, resource) == VersionMatch
    {
      manager.store := Put(manager.store, resource.IdKey(), entry.url);
      if resource.version.None? {
        return;
      }
      manager.store := Put(manager.store, resource.VersionKey(), IntToString(resource.version.value));
      notices := notices + Notify(resource, Downloaded(entry));
      if IsInt32(resource.version.value) {
        RecordedDownloadIsNotRepeated(old(manager.store), resource, entry.url, resource.version.value, entry);
      }
    }

    /** The download handler's progress: forwarded to the sink. */
    method OnProgress(loaded: int, total: int)
      modifies this`notices
      ensures notices == old(notices) + Notify(resource, Progress(loaded, total))
    {
      notices := notices + Notify(resource, Progress(loaded, total));
    }

    /** The download handler's failure: forwarded to the sink; the store is
        not touched. */
    method OnDownloadFailure(error: TransferError)
      modifies this`notices
      ensures notices == old(notices) + Notify(resource, TransferFailed(error))
    {
      notices := notices + Notify(resource, TransferFailed(error));
    }
  }
}
