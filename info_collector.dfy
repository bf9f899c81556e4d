/** StorageInfoCollector: a scheduled command that gathers what is known
    about one cached resource (stored version and file URL, then the file's
    name, path and size, then its modification time) and hands it to a
    callback. */
module InfoCollector {
  import opened Wrappers
  import opened LocalStore
  import opened StorageResourceModel
  import opened CachePolicy

  /** A file-system error as the callback receives it. */
  datatype FileError = FileError(code: int)

  /** The outcome of one asynchronous file-system call. */
  datatype Outcome<+T> = Answered(value: T) | Errored(error: FileError)

  /** The file object getFile delivers. */
  datatype FileObject = FileObject(name: string, fullPath: string, size: int)

  /** StorageInfo; a field the collector never learnt stays null. */
  datatype StorageInfo = StorageInfo(
    fileName: Option<string>,
    filePath: Option<string>,
    fileUrl: Option<string>,
    fileSize: Option<int>,
    lastModificationDate: Option<int>,
    storageKey: string,
    version: Option<string>)

  datatype InfoReply = InfoSucceeded(info: StorageInfo) | InfoFailed(error: FileError)

  /** What one execution reports, given the outcomes of resolving the file
      URL, of getFile and of getMetadata (whose answer is the modification
      time, possibly null), for a collector whose previous
      modification time is `priorDate`. */
  function Collect(store: Store, storageKey: string, resolve: Outcome<()>, file: Outcome<FileObject>,
                   meta: Outcome<Option<int>>, priorDate: Option<int>): InfoReply
  {
    if resolve.Errored? then InfoFailed(resolve.error)
    else if file.Errored? then InfoFailed(file.error)
    else
      InfoSucceeded(StorageInfo(
        Some(file.value.name), Some(file.value.fullPath), Get(store, storageKey), Some(file.value.size),
        if meta.Answered? then meta.value else priorDate,
        storageKey, Get(store, ResourceVersionKey(storageKey))))
  }

  /** For a resource whose download was recorded, the collection scheduled
      for its id key reports the recorded file URL and a version text that reads back as
      the recorded version. */
  lemma CollectAfterDownload(store: Store, r: Resource, fileUrl: string, v: int,
                             file: FileObject, meta: Outcome<Option<int>>, priorDate: Option<int>)
    ensures var reply := Collect(RecordDownload(store, r, fileUrl, v), r.IdKey(), Answered(()), Answered(file), meta, priorDate);
      reply.InfoSucceeded?
      && reply.info.storageKey == r.IdKey()
      && reply.info.fileUrl == Some(fileUrl)
      && reply.info.version == Some(IntToString(v))
      && (IsInt32(v) ==> ParseInt(reply.info.version.value) == Some(v))
  {
    var mid := Put(store, r.IdKey(), fileUrl);
    assert r.IdKey() != r.VersionKey() by {
      assert |r.VersionKey()| == |r.IdKey()| + 2;
    }
    GetPut(store, r.IdKey(), fileUrl);
    GetPutOther(mid, r.VersionKey(), IntToString(v), r.IdKey());
    GetPut(mid, r.VersionKey(), IntToString(v));
    if IsInt32(v) {
      ParseIntToString(v);
    }
  }

  class StorageInfoCollector {
    const storageKey: string
    /** Whether a callback was given; calling a missing one throws. */
    const hasCallback: bool
    var version: Option<string>
    var fileName: Option<string>
    var filePath: Option<string>
    var fileUrl: Option<string>
    var fileSize: Option<int>
    var lastModificationDate: Option<int>
    /** What the callback received, in order. */
    var replies: seq<InfoReply>

    constructor (storageKey: string, hasCallback: bool)
      ensures this.storageKey == storageKey && this.hasCallback == hasCallback
      ensures version == None && fileName == None && filePath == None && fileUrl == None
      ensures fileSize == None && lastModificationDate == None && replies == []
    {
      this.storageKey := storageKey;
      this.hasCallback := hasCallback;
      version := None;
      fileName := None;
      filePath := None;
      fileUrl := None;
      fileSize := None;
      lastModificationDate := None;
      replies := [];
    }

    /** The StorageInfo invokeSuccessCallback assembles from the fields. */
    function Info(): StorageInfo
      reads this
    {
      StorageInfo(fileName, filePath, fileUrl, fileSize, lastModificationDate, storageKey, version)
    }

    /** execute: the version and file URL are read from the store first,
        then the file is resolved, read and its metadata fetched. The
        callback hears exactly one reply, that of Collect; without a
        callback nothing is delivered. */
    method Execute(store: Store, resolve: Outcome<()>, file: Outcome<FileObject>, meta: Outcome<Option<int>>)
      modifies this
      ensures replies == old(replies)
        + (if hasCallback then [Collect(store, storageKey, resolve, file, meta, old(lastModificationDate))] else [])
      ensures version == Get(store, ResourceVersionKey(storageKey)) && fileUrl == Get(store, storageKey)
      ensures resolve.Answered? && file.Answered? ==>
        fileName == Some(file.value.name) && filePath == Some(file.value.fullPath) && fileSize == Some(file.value.size)
        && lastModificationDate == (if meta.Answered? then meta.value else old(lastModificationDate))
      ensures resolve.Errored? || file.Errored? ==>
        fileName == old(fileName) && filePath == old(filePath) && fileSize == old(fileSize)
        && lastModificationDate == old(lastModificationDate)
    {
      var versionKey := ResourceVersionKey(storageKey);
      version := Get(store, versionKey);
      fileUrl := Get(store, storageKey);
      match resolve {
        case Errored(error) =>
          if hasCallback {
            replies := replies + [InfoFailed(error)];
          }
        case Answered(_) =>
          match file {
            case Errored(error) =>
              if hasCallback {
                replies := replies + [InfoFailed(error)];
              }
            case Answered(entry) =>
              fileName := Some(entry.name);
              filePath := Some(entry.fullPath);
              fileSize := Some(entry.size);
              match meta {
                case Answered(modificationTime) =>
                  lastModificationDate := modificationTime;
                  InvokeSuccessCallback();
                case Errored(_) =>
                  InvokeSuccessCallback();
              }
          }
      }
    }

    method InvokeSuccessCallback()
      modifies this`replies
      ensures replies == old(replies) + (if hasCallback then [InfoSucceeded(Info())] else [])
    {
      if hasCallback {
        replies := replies + [InfoSucceeded(Info())];
      }
    }
  }

  /** A fresh collector for `storageKey` executed once: its callback, if
      any, hears exactly one reply. The reply is a failure, with that error,
      exactly when the file cannot be resolved or read; otherwise it
      carries the stored version and file URL, the file's data and the
      modification time the metadata answered, which stays null when the
      metadata cannot be read. */
  method CollectOnce(store: Store, storageKey: string, hasCallback: bool,
                     resolve: Outcome<()>, file: Outcome<FileObject>, meta: Outcome<Option<int>>)
    returns (replies: seq<InfoReply>)
    ensures |replies| == if hasCallback then 1 else 0
    ensures hasCallback && resolve.Errored? ==> replies == [InfoFailed(resolve.error)]
    ensures hasCallback && resolve.Answered? && file.Errored? ==> replies == [InfoFailed(file.error)]
    ensures hasCallback && resolve.Answered? && file.Answered? ==>
      replies[0].InfoSucceeded?
      && replies[0].info.storageKey == storageKey
      && replies[0].info.version == Get(store, ResourceVersionKey(storageKey))
      && replies[0].info.fileUrl == Get(store, storageKey)
      && replies[0].info.fileName == Some(file.value.name)
      && replies[0].info.filePath == Some(file.value.fullPath)
      && replies[0].info.fileSize == Some(file.value.size)
      && replies[0].info.lastModificationDate == (if meta.Answered? then meta.value else None)
  {
    var c := new StorageInfoCollector(storageKey, hasCallback);
    c.Execute(store, resolve, file, meta);
    replies := c.replies;
  }

  /** The same collector executed twice on a readable file: the second
      execution, whose metadata cannot be read, still reports the
      modification time the first one learnt. */
  method MetadataFailureKeepsEarlierDate(store: Store, storageKey: string, file: FileObject,
                                         date: Option<int>, error: FileError)
    returns (replies: seq<InfoReply>)
    ensures |replies| == 2 && replies[0] == replies[1]
    ensures replies[1].InfoSucceeded? && replies[1].info.lastModificationDate == date
  {
    var c := new StorageInfoCollector(storageKey, true);
    c.Execute(store, Answered(()), Answered(file), Answered(date));
    c.Execute(store, Answered(()), Answered(file), Errored(error));
    replies := c.replies;
  }
}
