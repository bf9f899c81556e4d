/** StorageItem: the base of every record the manager caches. A record has
    an id, a version (default 1) and the subclass's own fields, here one
    opaque payload string. Its store keys are `item-<typeName>-<id>` for the
    serialised record and that key plus `-t` for the time it was written. */
module StorageItemModel {
  import opened Wrappers
  import opened Strings

  const ItemKeyPrefix: string := "item-"
  const ItemTimeSuffix: string := "-t"
  const DefaultVersion: int := 1

  /** getStorageItemIdKey for a record whose id is set. */
  function ItemIdKey(typeName: string, id: string): string
  {
    ItemKeyPrefix + typeName + "-" + id
  }

  /** getStorageItemTimeKey for a record whose id is set. */
  function ItemTimeKey(typeName: string, id: string): string
  {
    ItemIdKey(typeName, id) + ItemTimeSuffix
  }

  predicate IsStorageItemKey(key: Option<string>)
  {
    key.Some? && StartsWith(key.value, ItemKeyPrefix)
  }

  predicate IsStorageItemIdKey(key: Option<string>)
  {
    key.Some? && IsStorageItemKey(key) && !EndsWith(key.value, ItemTimeSuffix)
  }

  predicate IsStorageItemTimeKey(key: Option<string>)
  {
    key.Some? && IsStorageItemKey(key) && EndsWith(key.value, ItemTimeSuffix)
  }

  /** The same test on a key read from the store, which is never null. */
  predicate IsItemKeyText(key: string)
  {
    IsStorageItemKey(Some(key))
  }

  /** getJsonFileName: string concatenation writes a null id as "null". */
  function JsonFileName(typeName: string, id: Option<string>): string
  {
    typeName + "-" + id.GetOr("null") + ".json"
  }

  /** The state of a record: id, version and the subclass's payload. */
  datatype Record = Record(id: Option<string>, version: Option<int>, payload: string)

  /** fromJson(StorageItem) stores a null version as 0. */
  function VersionOrZero(v: Option<int>): int
  {
    v.GetOr(0)
  }

  /** The state a record is left in after it was read from a decoded copy. */
  function Loaded(r: Record): Record
  {
    Record(r.id, Some(VersionOrZero(r.version)), r.payload)
  }

  /** For every key: the id and time classes never overlap and together
      make up exactly the record keys; null is in none of them. */
  lemma ItemKeyClasses(key: Option<string>)
    ensures !(IsStorageItemIdKey(key) && IsStorageItemTimeKey(key))
    ensures IsStorageItemIdKey(key) || IsStorageItemTimeKey(key) <==> IsStorageItemKey(key)
    ensures key.None? ==> !IsStorageItemKey(key)
  {
  }

  /** Every generated time key classifies as a time key. */
  lemma TimeKeyIsTimeKey(typeName: string, id: string)
    ensures IsStorageItemTimeKey(Some(ItemTimeKey(typeName, id)))
  {
    StartsWithConcat(ItemKeyPrefix, typeName + "-" + id + ItemTimeSuffix);
    assert ItemTimeKey(typeName, id) == ItemKeyPrefix + (typeName + "-" + id + ItemTimeSuffix);
    EndsWithConcat(ItemIdKey(typeName, id), ItemTimeSuffix);
  }

  /** A generated id key is a record key, and classifies as an id key
      exactly when the id neither ends in "-t" nor is "t" itself; otherwise
      it is taken for a time key. */
  lemma IdKeyClassification(typeName: string, id: string)
    ensures IsStorageItemKey(Some(ItemIdKey(typeName, id)))
    ensures IsStorageItemIdKey(Some(ItemIdKey(typeName, id))) <==> !EndsWith(id, "-t") && id != "t"
  {
    var head := ItemKeyPrefix + typeName + "-";
    assert ItemIdKey(typeName, id) == head + id;
    StartsWithConcat(ItemKeyPrefix, typeName + "-" + id);
    assert ItemIdKey(typeName, id) == ItemKeyPrefix + (typeName + "-" + id);
    EndsWithAfterSeparator(head, id, '-', 't');
  }

  /** The JSON file name is the id key without its "item-" prefix, followed
      by ".json". */
  lemma JsonFileNameMatchesKey(typeName: string, id: string)
    ensures JsonFileName(typeName, Some(id)) == ItemIdKey(typeName, id)[|ItemKeyPrefix|..] + ".json"
  {
    assert ItemIdKey(typeName, id) == ItemKeyPrefix + (typeName + "-" + id);
  }

  /** A record the manager can cache. The type name is fixed by the
      subclass; id, version and payload are overwritten in place when the
      record is read back. */
  class Item {
    const typeName: string
    var id: Option<string>
    var version: Option<int>
    var payload: string

    /** A new record has no id and version 1. */
    constructor (typeName: string)
      ensures this.typeName == typeName
      ensures id == None && version == Some(DefaultVersion) && payload == ""
    {
      this.typeName := typeName;
      id := None;
      version := Some(DefaultVersion);
      payload := "";
    }

    function Snapshot(): Record
      reads this
    {
      Record(id, version, payload)
    }

    /** getStorageItemIdKey; None where a null id makes the source throw. */
    function IdKey(): (k: Option<string>)
      reads this
      ensures k.Some? <==> id.Some?
      ensures k.Some? ==> IsStorageItemKey(k) && k.value == ItemIdKey(typeName, id.value)
    {
      if id.Some? then
        IdKeyClassification(typeName, id.value);
        Some(ItemIdKey(typeName, id.value))
      else None
    }

    /** getStorageItemTimeKey; None where a null id makes the source throw. */
    function TimeKey(): (k: Option<string>)
      reads this
      ensures k.Some? <==> id.Some?
      ensures k.Some? ==> IsStorageItemTimeKey(k) && k.value == IdKey().value + ItemTimeSuffix
    {
      if id.Some? then
        TimeKeyIsTimeKey(typeName, id.value);
        Some(ItemTimeKey(typeName, id.value))
      else None
    }

    method SetId(id: Option<string>)
      modifies this`id
      ensures this.id == id
    {
      this.id := id;
    }

    method SetVersion(version: Option<int>)
      modifies this`version
      ensures this.version == version
    {
      this.version := version;
    }

    /** fromJson(StorageItem): copy id and version from `other`, a null
        version becoming 0; the payload is left alone. */
    method CopyFrom(other: Item)
      modifies this`id, this`version
      ensures id == old(other.id)
      ensures version == Some(VersionOrZero(old(other.version)))
      ensures old(other.version).Some? ==> version == old(other.version)
    {
      var otherVersion := other.version;
      id := other.id;
      version := otherVersion;
      if version.None? {
        version := Some(0);
      }
    }

    /** fromJson(JSONValue) as the subclasses implement it: the decoded copy
        is read back through fromJson(StorageItem), then the subclass's own
        fields are copied. */
    method Load(decoded: Record)
      modifies this`id, this`version, this`payload
      ensures Snapshot() == Loaded(decoded)
    {
      var tmp := new Item(typeName);
      tmp.id, tmp.version, tmp.payload := decoded.id, decoded.version, decoded.payload;
      CopyFrom(tmp);
      payload := tmp.payload;
    }
  }
}
