/** The decisions the manager takes on plain values: the minimum-version
    rule for records, the freshness rule, the tri-state version check for
    resources over the store, the resource-caching gate, the cache file name
    of a resource and the remote URL of a resource. Also the Java integer
    text conversions the version check depends on. */
module CachePolicy {
  import opened Wrappers
  import opened Strings
  import opened LocalStore
  import opened StorageResourceModel

  /** What the host capability reports: running inside the PhoneGap
      container, and whether the current connection is Wi-Fi. */
  datatype Host = Host(isPhoneGapDevice: bool, onWifi: bool)

  // ---------------------------------------------------------------------
  // Record versions and age

  /** checkStorageItemVersion: a required version <= 0 accepts anything,
      otherwise the actual version must reach it. */
  function CheckStorageItemVersion(expectedVersion: int, realVersion: int): (ok: bool)
    ensures ok <==> expectedVersion <= 0 || realVersion >= expectedVersion
  {
    if expectedVersion <= 0 then true
    else if realVersion >= expectedVersion then true
    else false
  }

  /** A record acceptable for some requirement stays acceptable for a
      weaker requirement and at a higher version. */
  lemma VersionCheckMonotone(expected: int, weaker: int, actual: int, higher: int)
    requires CheckStorageItemVersion(expected, actual)
    requires weaker <= expected && actual <= higher
    ensures CheckStorageItemVersion(weaker, higher)
  {
  }

  const Int32Min: int := -0x8000_0000
  const Int32Max: int := 0x7fff_ffff

  predicate IsInt32(n: int)
  {
    Int32Min <= n <= Int32Max
  }

  /** Two's-complement wrap-around of a Java int computation. */
  function Wrap32(n: int): (r: int)
    ensures IsInt32(r)
  {
    (n - Int32Min) % 0x1_0000_0000 + Int32Min
  }

  /** The age rule with the product cacheTime * 1000 taken in full
      precision: an entry written at `storeTime` (milliseconds) has elapsed
      at `now` when more than `cacheTime` seconds separate them. */
  function CacheTimeElapsed(now: int, cacheTime: int, storeTime: int): bool
  {
    now - cacheTime * 1000 > storeTime
  }

  /** An entry is fresh for exactly `cacheTime` seconds after it was
      written, and elapsed strictly afterwards. */
  lemma FreshForCacheTime(now: int, cacheTime: int, storeTime: int)
    ensures !CacheTimeElapsed(now, cacheTime, storeTime) <==> now <= storeTime + cacheTime * 1000
  {
  }

  /** The age rule as written: cacheTime * 1000 is an int product and
      wraps before it is subtracted from the long clock value. */
  function CacheTimeElapsedAsWritten(now: int, cacheTime: int, storeTime: int): bool
    requires IsInt32(cacheTime)
  {
    now - Wrap32(cacheTime * 1000) > storeTime
  }

  /** Both rules agree while cacheTime * 1000 fits in an int. */
  lemma ElapsedRulesAgreeWithoutOverflow(now: int, cacheTime: int, storeTime: int)
    requires IsInt32(cacheTime) && IsInt32(cacheTime * 1000)
    ensures CacheTimeElapsedAsWritten(now, cacheTime, storeTime) == CacheTimeElapsed(now, cacheTime, storeTime)
  {
    assert Wrap32(cacheTime * 1000) == cacheTime * 1000;
  }

  /** With a cache time between 2147484 and 4294967 seconds the wrapped
      product is negative, so the written rule declares every entry elapsed,
      even one stored at this very instant; the intended rule keeps it. */
  lemma ElapsedOverflowRejectsFreshEntry(now: int, cacheTime: int)
    requires 2147484 <= cacheTime <= 4294967
    ensures CacheTimeElapsedAsWritten(now, cacheTime, now)
    ensures !CacheTimeElapsed(now, cacheTime, now)
  {
    var p := cacheTime * 1000;
    assert 0x8000_0000 <= p < 0x1_0000_0000;
    assert (p - Int32Min) % 0x1_0000_0000 == p - Int32Min - 0x1_0000_0000;
    assert Wrap32(p) == p - 0x1_0000_0000 < 0;
  }

  // ---------------------------------------------------------------------
  // Java int <-> decimal text

  predicate IsDigit(c: char)
  {
    '0' <= c <= '9'
  }

  predicate AllDigits(s: string)
  {
    forall i :: 0 <= i < |s| ==> IsDigit(s[i])
  }

  function DigitsValue(s: string): nat
    requires AllDigits(s)
  {
    if s == [] then 0 else DigitsValue(s[..|s| - 1]) * 10 + (s[|s| - 1] as int - '0' as int)
  }

  /** Integer.parseInt in radix 10: an optional sign, at least one digit,
      and a value within the int range; None where it throws. */
  function ParseInt(s: string): Option<int>
  {
    if s == [] then None
    else
      var digits := if s[0] == '-' || s[0] == '+' then s[1..] else s;
      if digits == [] || !AllDigits(digits) then None
      else
        var v: int := if s[0] == '-' then 0 - DigitsValue(digits) as int else DigitsValue(digits);
        if IsInt32(v) then Some(v) else None
  }

  function DigitChar(d: nat): char
    requires d < 10
  {
    ('0' as int + d) as char
  }

  function NatToString(n: nat): string
  {
    if n < 10 then [DigitChar(n)] else NatToString(n / 10) + [DigitChar(n % 10)]
  }

  /** Integer.toString. */
  function IntToString(n: int): string
  {
    if n < 0 then "-" + NatToString(-n) else NatToString(n)
  }

  lemma {:induction false} NatToStringDigits(n: nat)
    ensures NatToString(n) != [] && AllDigits(NatToString(n))
    ensures NatToString(n)[0] != '-' && NatToString(n)[0] != '+'
    ensures DigitsValue(NatToString(n)) == n
  {
    var s := NatToString(n);
    if n >= 10 {
      NatToStringDigits(n / 10);
      assert s[..|s| - 1] == NatToString(n / 10);
    }
  }

  /** The version text the download writes reads back as the same number. */
  lemma ParseIntToString(n: int)
    requires IsInt32(n)
    ensures ParseInt(IntToString(n)) == Some(n)
  {
    var s := IntToString(n);
    if n < 0 {
      NatToStringDigits(-n);
      assert s[1..] == NatToString(-n);
    } else {
      NatToStringDigits(n);
    }
  }

  // ---------------------------------------------------------------------
  // Resource version check

  /** The three answers of checkResourceVersion: null, true and false. */
  datatype VersionCheck = NoCacheEntry | VersionMatch | VersionMismatch

  /** checkResourceVersion: no version key means no cache entry; a cached
      version that does not parse is a mismatch; otherwise a requested
      version of null or 0 accepts any cached version and any other must
      equal it. */
  function CheckResourceVersion(store: Store, r: Resource): (c: VersionCheck)
    ensures c.NoCacheEntry? <==> Get(store, r.VersionKey()).None?
  {
    match Get(store, r.VersionKey())
    case None => NoCacheEntry
    case Some(text) =>
      match ParseInt(text)
      case None => VersionMismatch
      case Some(cached) =>
        if r.version.None? || r.version.value == 0 || cached == r.version.value then VersionMatch
        else VersionMismatch
  }

  /** The store after a successful download of `r`: its file URL under the
      id key, then its version under the version key. */
  function RecordDownload(store: Store, r: Resource, fileUrl: string, version: int): Store
  {
    Put(Put(store, r.IdKey(), fileUrl), r.VersionKey(), IntToString(version))
  }

  /** After a download of `r` at version v is recorded, a request for the
      same URL finds a cache entry; it matches when it asks for no version,
      version 0 or v itself, and mismatches for any other version. */
  lemma CheckAfterDownload(store: Store, r: Resource, fileUrl: string, v: int, request: Option<int>)
    requires IsInt32(v)
    ensures var check := CheckResourceVersion(RecordDownload(store, r, fileUrl, v), Resource(r.resourceUrl, request, None));
      check == if request.None? || request.value == 0 || request.value == v then VersionMatch else VersionMismatch
  {
    GetPut(Put(store, r.IdKey(), fileUrl), r.VersionKey(), IntToString(v));
    ParseIntToString(v);
  }

  /** `cachedVersion == resourceVersion` on two Integer objects compares
      references. Both are boxed through Integer.valueOf, which shares one
      object per value only for -128..127; any other value gives two
      distinct objects. */
  predicate SameBoxedInteger(a: int, b: int)
  {
    a == b && -128 <= a <= 127
  }

  /** checkResourceVersion as written, with the reference comparison. */
  function CheckResourceVersionAsWritten(store: Store, r: Resource): VersionCheck
  {
    match Get(store, r.VersionKey())
    case None => NoCacheEntry
    case Some(text) =>
      match ParseInt(text)
      case None => VersionMismatch
      case Some(cached) =>
        if r.version.None? || r.version.value == 0 || SameBoxedInteger(cached, r.version.value) then VersionMatch
        else VersionMismatch
  }

  /** Within the box cache the written comparison is the numeric one. */
  lemma BoxedComparisonAgreesInCache(store: Store, r: Resource)
    requires r.version.Some? ==> -128 <= r.version.value <= 127
    ensures CheckResourceVersionAsWritten(store, r) == CheckResourceVersion(store, r)
  {
  }

  /** A resource downloaded at version 200 (or any version above 127) is
      found stale by the written check on every later request for that same
      version, so it is downloaded again each time; the numeric check
      accepts it. */
  lemma BoxedComparisonRejectsLargeVersions(store: Store, r: Resource, fileUrl: string, v: int)
    requires 128 <= v <= Int32Max && r.version == Some(v)
    ensures CheckResourceVersionAsWritten(RecordDownload(store, r, fileUrl, v), r) == VersionMismatch
    ensures CheckResourceVersion(RecordDownload(store, r, fileUrl, v), r) == VersionMatch
  {
    GetPut(Put(store, r.IdKey(), fileUrl), r.VersionKey(), IntToString(v));
    ParseIntToString(v);
  }

  /** Writing any other key leaves the check of `r` unchanged. */
  lemma CheckIgnoresOtherKeys(store: Store, r: Resource, k: string, v: string)
    requires k != r.VersionKey()
    ensures CheckResourceVersion(Put(store, k, v), r) == CheckResourceVersion(store, r)
  {
    GetPutOther(store, k, v, r.VersionKey());
  }

  // ---------------------------------------------------------------------
  // Caching gate, file names, remote URLs

  /** isResourceCachingEnabled: only inside the container, only with
      caching on, and, when Wi-Fi gating is on, only over Wi-Fi. */
  function IsResourceCachingEnabled(host: Host, cacheEnabled: bool, wlanEnabled: bool): (on: bool)
    ensures on <==> host.isPhoneGapDevice && cacheEnabled && (!wlanEnabled || host.onWifi)
  {
    if !host.isPhoneGapDevice then false
    else if !cacheEnabled then false
    else if wlanEnabled then host.isPhoneGapDevice && host.onWifi
    else true
  }

  /** convertFilePathToFileName: every "/" becomes "@@". */
  function ConvertFilePathToFileName(filePath: string): string
  {
    Replace(filePath, '/', "@@")
  }

  /** A converted name is a plain file name: it holds no "/". */
  lemma FileNameHasNoSlash(filePath: string)
    ensures '/' !in ConvertFilePathToFileName(filePath)
  {
    ReplaceRemoves(filePath, '/', "@@");
  }

  /** Two paths without "@" never share a cache file name. */
  lemma FileNameInjective(a: string, b: string)
    requires '@' !in a && '@' !in b
    requires ConvertFilePathToFileName(a) == ConvertFilePathToFileName(b)
    ensures a == b
  {
    ReplaceInjective(a, b, '/', "@@");
  }

  /** With "@" allowed, distinct paths can share a cache file: "@/" and "/@"
      both become "@@@". */
  lemma FileNameCollision()
    ensures ConvertFilePathToFileName("@/") == ConvertFilePathToFileName("/@") == "@@@"
  {
  }

  /** getRemoteResourceUrl: inside the container the resource is fetched
      from the configured remote base, in a browser relative to the page. */
  function GetRemoteResourceUrl(host: Host, remoteAppBaseUrl: string, relativeUrl: string): string
  {
    if host.isPhoneGapDevice then remoteAppBaseUrl + relativeUrl else relativeUrl
  }
}
