/**
 * The S3 storage classes (backend/src/core/storages.py). The class hierarchy becomes a
 * datatype naming each class, with the class attributes as functions of it; a constructed
 * storage is an object whose `custom_domain` field `__init__` rewrites. The inherited
 * `S3Boto3Storage` machinery is not part of this model.
 */
module Storages {
  import opened Wrappers
  import opened Strings

  /** The settings the classes read: `USE_AWS`, `AWS_S3_CUSTOM_DOMAIN`, `AWS_STORAGE_BUCKET_NAME`. */
  datatype Settings = Settings(useAws: bool, customDomain: string, staticBucket: string)

  datatype StorageClass =
    | DefaultStorage | PublicStorage | PublicStorageExpire | PrivateStorage
    | StaticStorage | ProfileStorage | ProductStorage | PublicMediaStorage | PrivateMediaStorage

  /** The class whose attributes and `querystring_auth` a class inherits (itself for the four bases). */
  function Base(c: StorageClass): (b: StorageClass)
    ensures b in {DefaultStorage, PublicStorage, PublicStorageExpire, PrivateStorage}
  {
    match c
    case StaticStorage | ProfileStorage | ProductStorage | PublicMediaStorage => PublicStorage
    case PrivateMediaStorage => PrivateStorage
    case _ => c
  }

  /** `bucket_name`: empty on the bases, fixed names on the concrete classes. */
  function BucketName(c: StorageClass, settings: Settings): string
  {
    match c
    case StaticStorage => settings.staticBucket
    case ProfileStorage => "profiles"
    case ProductStorage => "products"
    case PublicMediaStorage => "media"
    case PrivateMediaStorage => "private-media"
    case _ => ""
  }

  /** `querystring_auth`; `DefaultStorage` inherits the library's value, which is not modelled. */
  function QuerystringAuth(c: StorageClass): Option<bool>
  {
    match Base(c)
    case PublicStorageExpire => Some(true)
    case PublicStorage | PrivateStorage => Some(false)
    case _ => None
  }

  /** `file_overwrite`, likewise unset on `DefaultStorage`. */
  function FileOverwrite(c: StorageClass): Option<bool>
  {
    match Base(c)
    case PublicStorage | PublicStorageExpire => Some(true)
    case PrivateStorage => Some(false)
    case _ => None
  }

  /** `default_acl`. */
  function DefaultAcl(c: StorageClass): Option<string>
  {
    match Base(c)
    case PublicStorage | PublicStorageExpire => Some("public-read")
    case PrivateStorage => Some("private")
    case _ => None
  }

  /** `querystring_expire` in seconds: ten minutes, on `PublicStorageExpire` only. */
  function QuerystringExpire(c: StorageClass): Option<int>
  {
    if c == PublicStorageExpire then Some(10 * 60) else None
  }

  /** The class attribute `custom_domain`: the configured domain with trailing slashes removed. */
  function ClassDomain(settings: Settings): (d: string)
    ensures |d| > 0 ==> d[|d| - 1] != '/'
    ensures StartsWith(settings.customDomain, d)
    ensures forall k | |d| <= k < |settings.customDomain| :: settings.customDomain[k] == '/'
  {
    RStripChar(settings.customDomain, '/')
  }

  /** `f"{domain}/{bucket.strip('/')}/"`. */
  function DomainWithBucket(domain: string, bucket: string): (r: string)
    ensures |r| == |domain| + |StripChar(bucket, '/')| + 2
    ensures r[|r| - 1] == '/'
    ensures StartsWith(r, domain + "/")
  {
    var r := domain + "/" + StripChar(bucket, '/') + "/";
    assert r[..|domain + "/"|] == domain + "/";
    r
  }

  class Storage {
    const storageClass: StorageClass
    const bucketName: string
    var customDomain: string

    /** `__init__`: the domain gains a trailing slash with AWS, or the bucket path without it. */
    constructor(c: StorageClass, settings: Settings)
      ensures storageClass == c && bucketName == BucketName(c, settings)
      ensures customDomain ==
        if settings.useAws then ClassDomain(settings) + "/" else DomainWithBucket(ClassDomain(settings), BucketName(c, settings))
    {
      storageClass := c;
      bucketName := BucketName(c, settings);
      customDomain := ClassDomain(settings);
      new;
      if settings.useAws {
        customDomain := customDomain + "/";
      } else {
        customDomain := CustomDomainWithBucket();
      }
    }

    /** The `custom_domain_with_bucket` property, read from the current `custom_domain`. */
    function CustomDomainWithBucket(): (r: string)
      reads this
      ensures |r| >= 2 && r[|r| - 1] == '/'
      ensures StartsWith(r, customDomain + "/")
    {
      DomainWithBucket(customDomain, bucketName)
    }
  }

  /** The bucket segment of the composed domain has no slash at either end, and a clean bucket name is kept. */
  lemma BucketSegment(domain: string, bucket: string)
    ensures var r := DomainWithBucket(domain, bucket);
      var seg := r[|domain| + 1..|r| - 1];
      seg == StripChar(bucket, '/') && (|seg| > 0 ==> seg[0] != '/' && seg[|seg| - 1] != '/') &&
      ((|bucket| > 0 && bucket[0] != '/' && bucket[|bucket| - 1] != '/') ==> seg == bucket)
  {
    var r := DomainWithBucket(domain, bucket);
    assert r == domain + "/" + StripChar(bucket, '/') + "/";
    assert r[|domain| + 1..|r| - 1] == StripChar(bucket, '/');
  }

  /** Whichever branch `__init__` takes, the instance domain ends in a slash and begins with the class domain. */
  lemma ConstructedDomain(c: StorageClass, settings: Settings)
    ensures var d := if settings.useAws then ClassDomain(settings) + "/"
                     else DomainWithBucket(ClassDomain(settings), BucketName(c, settings));
      d[|d| - 1] == '/' && StartsWith(d, ClassDomain(settings) + "/")
  {
    var cd := ClassDomain(settings);
    assert (cd + "/")[..|cd + "/"|] == cd + "/";
  }

  /** Only `PublicStorageExpire` signs its URLs; the public classes overwrite files and the private ones do not. */
  lemma ClassFlags(c: StorageClass)
    ensures QuerystringAuth(c) == Some(true) <==> c == PublicStorageExpire
    ensures c != DefaultStorage ==> QuerystringAuth(c).Some? && FileOverwrite(c).Some? && DefaultAcl(c).Some?
    ensures FileOverwrite(c) == Some(false) <==> c in {PrivateStorage, PrivateMediaStorage}
    ensures DefaultAcl(c) == Some("private") <==> FileOverwrite(c) == Some(false)
    ensures QuerystringExpire(c).Some? ==> QuerystringAuth(c) == Some(true) && QuerystringExpire(c) == Some(600)
  {
  }

  /** The concrete classes whose bucket name is fixed in the source. */
  predicate NamedBucket(c: StorageClass)
  {
    c.ProfileStorage? || c.ProductStorage? || c.PublicMediaStorage? || c.PrivateMediaStorage?
  }

  /** The concrete classes have distinct bucket names, the static one from the settings. */
  lemma ConcreteBuckets(settings: Settings)
    ensures BucketName(StaticStorage, settings) == settings.staticBucket
    ensures forall c: StorageClass | NamedBucket(c) ::
      StripChar(BucketName(c, settings), '/') == BucketName(c, settings)
    ensures forall c, c': StorageClass | NamedBucket(c) && NamedBucket(c') && c != c' ::
      BucketName(c, settings) != BucketName(c', settings)
  {
    forall c: StorageClass | NamedBucket(c)
      ensures StripChar(BucketName(c, settings), '/') == BucketName(c, settings)
    {
      var b := BucketName(c, settings);
      assert b[0] != '/' && b[|b| - 1] != '/';
    }
    forall c, c': StorageClass | NamedBucket(c) && NamedBucket(c') && c != c'
      ensures BucketName(c, settings) != BucketName(c', settings)
    {
      var b, b' := BucketName(c, settings), BucketName(c', settings);
      assert |b| != |b'| || b[3] != b'[3];
    }
  }
}
