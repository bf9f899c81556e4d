/** StorageResource: a resource file to cache, named by its URL relative to
    the application base, with a requested version (null or 0: any version)
    and an optional sink for download notifications. Its store keys are
    `resource-<url>` for the local file URL and that key plus `-v` for the
    cached version. */
module StorageResourceModel {
  import opened Wrappers
  import opened Strings
  import StorageItemModel

  const ResourceKeyPrefix: string := "resource-"
  const ResourceVersionSuffix: string := "-v"

  /** The listener that receives progress, success and failure of a
      resource's download, identified by a handle. */
  datatype Sink = Sink(listener: nat)

  datatype Resource = Resource(resourceUrl: string, version: Option<int>, downloadNotification: Option<Sink>)
  {
    /** getResourceIdKey */
    function IdKey(): string
    {
      ResourceIdKey(resourceUrl)
    }

    /** getResourceVersionKey(): the static form applied to the id key. */
    function VersionKey(): string
    {
      ResourceVersionKey(IdKey())
    }
  }

  /** The two-argument constructor: no notification sink. */
  function NewResource(url: string, version: Option<int>): Resource
  {
    Resource(url, version, None)
  }

  function ResourceIdKey(url: string): string
  {
    ResourceKeyPrefix + url
  }

  /** getResourceVersionKey(String): the version key of an id key. */
  function ResourceVersionKey(resourceKey: string): string
  {
    resourceKey + ResourceVersionSuffix
  }

  predicate IsResourceKey(key: Option<string>)
  {
    key.Some? && StartsWith(key.value, ResourceKeyPrefix)
  }

  predicate IsResourceIdKey(key: Option<string>)
  {
    key.Some? && IsResourceKey(key) && !EndsWith(key.value, ResourceVersionSuffix)
  }

  predicate IsResourceVersionKey(key: Option<string>)
  {
    key.Some? && IsResourceKey(key) && EndsWith(key.value, ResourceVersionSuffix)
  }

  /** The same tests on keys read from the store, which are never null. */
  predicate IsResourceKeyText(key: string)
  {
    IsResourceKey(Some(key))
  }

  predicate IsResourceIdKeyText(key: string)
  {
    IsResourceIdKey(Some(key))
  }

  /** For every key: the id and version classes never overlap and together
      make up exactly the resource keys; null is in none of them. */
  lemma ResourceKeyClasses(key: Option<string>)
    ensures !(IsResourceIdKey(key) && IsResourceVersionKey(key))
    ensures IsResourceIdKey(key) || IsResourceVersionKey(key) <==> IsResourceKey(key)
    ensures key.None? ==> !IsResourceKey(key)
  {
  }

  /** A resource's version key always classifies as a version key. */
  lemma VersionKeyIsVersionKey(r: Resource)
    ensures r.VersionKey() == ResourceKeyPrefix + r.resourceUrl + ResourceVersionSuffix
    ensures IsResourceVersionKey(Some(r.VersionKey()))
  {
    StartsWithConcat(ResourceKeyPrefix, r.resourceUrl + ResourceVersionSuffix);
    assert r.VersionKey() == ResourceKeyPrefix + (r.resourceUrl + ResourceVersionSuffix);
    EndsWithConcat(r.IdKey(), ResourceVersionSuffix);
  }

  /** A resource's id key is a resource key, and classifies as an id key
      exactly when the URL neither ends in "-v" nor is "v" itself. */
  lemma IdKeyClassification(r: Resource)
    ensures IsResourceKey(Some(r.IdKey()))
    ensures IsResourceIdKey(Some(r.IdKey())) <==> !EndsWith(r.resourceUrl, "-v") && r.resourceUrl != "v"
  {
    StartsWithConcat(ResourceKeyPrefix, r.resourceUrl);
    EndsWithAfterSeparator(ResourceKeyPrefix, r.resourceUrl, '-', 'v');
  }

  /** Record keys and resource keys never overlap, so clearing one family
      leaves the other alone. */
  lemma KeyFamiliesDisjoint(key: string)
    ensures !(StorageItemModel.IsItemKeyText(key) && IsResourceKeyText(key))
  {
    if StartsWith(key, ResourceKeyPrefix) {
      StartsWithDistinctHeads(key, ResourceKeyPrefix, StorageItemModel.ItemKeyPrefix);
    }
  }
}
