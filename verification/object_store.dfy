/** Object-store options of the reader: whether a file system is switched
    on, and the validation and registration of the S3 store in the runtime's
    object-store registry. */
module ObjectStore {
  import opened Common
  import opened ReaderConfig

  /** Rust's `str::parse::<bool>`: exactly "true" and "false" are accepted. */
  function ParseBool(s: string): (r: Option<bool>)
    ensures r.Some? <==> s == "true" || s == "false"
    ensures r.Some? ==> (r.value <==> s == "true")
  {
    if s == "true" then Some(true) else if s == "false" then Some(false) else None
  }

  /** The option that switches a file system on: `fs.<name>.enabled`. */
  function EnabledKey(fsName: string): string
  {
    "fs." + fsName + ".enabled"
  }

  /** `check_fs_type_enabled`: a file system is on exactly when its enabled
      option is present and parses as `true`; an absent or unparsable value
      means off. */
  function CheckFsTypeEnabled(config: Config, fsName: string): (enabled: bool)
    ensures enabled <==>
      && EnabledKey(fsName) in config.objectStoreOptions
      && config.objectStoreOptions[EnabledKey(fsName)] == "true"
  {
    match Lookup(config.objectStoreOptions, EnabledKey(fsName))
    case None => false
    case Some(v) =>
      match ParseBool(v)
      case Some(b) => b
      case None => false
  }

  const AccessKeyOption := "fs.s3.access.key"
  const AccessSecretOption := "fs.s3.access.secret"
  const RegionOption := "fs.s3.region"
  const BucketOption := "fs.s3.bucket"
  const EndpointOption := "fs.s3.endpoint"

  const MissingRegion := InvalidArgument("missing fs.s3.region")
  const MissingBucket := InvalidArgument("missing fs.s3.bucket")

  /** The retry budget of the S3 store. */
  const MaxRetries: nat := 4

  /** Retry policy of a store; the backoff and the timeout keep the library's
      defaults, which are not modelled. */
  datatype RetryConfig = RetryConfig(maxRetries: nat)

  /** An S3 store as the builder configures it. */
  datatype S3Store = S3Store(
    accessKeyId: string,
    secretAccessKey: string,
    region: string,
    bucketName: string,
    endpoint: string,
    retry: RetryConfig,
    allowHttp: bool)

  /** Stores are registered under a URL scheme and a host (for S3, the bucket). */
  datatype StoreKey = StoreKey(scheme: string, host: string)

  /** What `register_s3_object_store` decides from the options: `Ok(None)`
      registers nothing, `Ok(Some(s))` registers `s`; an error or a panic
      registers nothing. Region is checked before bucket; the access key, the
      secret and the endpoint are unwrapped, so their absence panics. */
  function S3StoreFor(config: Config): (r: Outcome<Option<S3Store>>)
    ensures !CheckFsTypeEnabled(config, "s3") <==> r == Ok(None)
    ensures r == Err(MissingRegion) <==>
      CheckFsTypeEnabled(config, "s3") && RegionOption !in config.objectStoreOptions
    ensures r == Err(MissingBucket) <==>
      && CheckFsTypeEnabled(config, "s3")
      && RegionOption in config.objectStoreOptions
      && BucketOption !in config.objectStoreOptions
    ensures r.Err? ==> r.error == MissingRegion || r.error == MissingBucket
    ensures r.Panic? <==>
      && CheckFsTypeEnabled(config, "s3")
      && RegionOption in config.objectStoreOptions
      && BucketOption in config.objectStoreOptions
      && (|| AccessKeyOption !in config.objectStoreOptions
          || AccessSecretOption !in config.objectStoreOptions
          || EndpointOption !in config.objectStoreOptions)
    ensures r.Ok? && r.value.Some? ==>
      var opts, s := config.objectStoreOptions, r.value.value;
      && AccessKeyOption in opts && s.accessKeyId == opts[AccessKeyOption]
      && AccessSecretOption in opts && s.secretAccessKey == opts[AccessSecretOption]
      && RegionOption in opts && s.region == opts[RegionOption]
      && BucketOption in opts && s.bucketName == opts[BucketOption]
      && EndpointOption in opts && s.endpoint == opts[EndpointOption]
      && s.retry.maxRetries == MaxRetries
      && s.allowHttp
  {
    if !CheckFsTypeEnabled(config, "s3") then Ok(None)
    else
      var opts := config.objectStoreOptions;
      var key := Lookup(opts, AccessKeyOption);
      var secret := Lookup(opts, AccessSecretOption);
      var region := Lookup(opts, RegionOption);
      var bucket := Lookup(opts, BucketOption);
      if region.None? then Err(MissingRegion)
      else if bucket.None? then Err(MissingBucket)
      else
        var endpoint := Lookup(opts, EndpointOption);
        if key.None? || secret.None? || endpoint.None? then Panic(UnwrapFailed)
        else
          Ok(Some(S3Store(key.value, secret.value, region.value, bucket.value, endpoint.value,
                          RetryConfig(MaxRetries), true)))
  }

  /** The registry after a registration decision has been carried out. */
  function Registered(stores: map<StoreKey, S3Store>, decision: Outcome<Option<S3Store>>): map<StoreKey, S3Store>
  {
    if decision.Ok? && decision.value.Some?
    then stores[StoreKey("s3", decision.value.value.bucketName) := decision.value.value]
    else stores
  }

  /** With S3 switched off, registration leaves the registry alone, whatever
      the other options say. */
  lemma DisabledRegistersNothing(config: Config, stores: map<StoreKey, S3Store>)
    requires !CheckFsTypeEnabled(config, "s3")
    ensures S3StoreFor(config) == Ok(None)
    ensures Registered(stores, S3StoreFor(config)) == stores
  {
  }

  /** With S3 switched on and the region or the bucket missing, registration
      fails, names the first missing option, and registers nothing. */
  lemma MissingOptionRegistersNothing(config: Config, stores: map<StoreKey, S3Store>)
    requires CheckFsTypeEnabled(config, "s3")
    requires RegionOption !in config.objectStoreOptions || BucketOption !in config.objectStoreOptions
    ensures S3StoreFor(config) ==
      if RegionOption !in config.objectStoreOptions then Err(MissingRegion) else Err(MissingBucket)
    ensures Registered(stores, S3StoreFor(config)) == stores
  {
  }

  /** A successful registration adds exactly one store, under scheme "s3"
      and the bucket named by the options, and keeps every other entry. */
  lemma SuccessRegistersOneStore(config: Config, stores: map<StoreKey, S3Store>)
    requires CheckFsTypeEnabled(config, "s3") && S3StoreFor(config).Ok?
    ensures BucketOption in config.objectStoreOptions
    ensures var key := StoreKey("s3", config.objectStoreOptions[BucketOption]);
      var after := Registered(stores, S3StoreFor(config));
      && after.Keys == stores.Keys + {key}
      && after[key] == S3StoreFor(config).value.value
      && after[key].retry.maxRetries == MaxRetries
      && (forall k :: k in stores && k != key ==> after[k] == stores[k])
  {
  }

  /** Registering a store for a bucket that already has one replaces that
      single entry: the registry ends as if only the second registration had
      happened, and it holds no more entries than after the first. */
  lemma ReRegisteringReplaces(c1: Config, c2: Config, stores: map<StoreKey, S3Store>)
    requires S3StoreFor(c1).Ok? && S3StoreFor(c1).value.Some?
    requires S3StoreFor(c2).Ok? && S3StoreFor(c2).value.Some?
    requires c1.objectStoreOptions[BucketOption] == c2.objectStoreOptions[BucketOption]
    ensures var once := Registered(stores, S3StoreFor(c1));
      var twice := Registered(once, S3StoreFor(c2));
      && twice == Registered(stores, S3StoreFor(c2))
      && |twice| == |once|
  {
    var once := Registered(stores, S3StoreFor(c1));
    var twice := Registered(once, S3StoreFor(c2));
    assert twice.Keys == once.Keys;
  }

  /** The runtime environment's object-store registry, updated in place. */
  class RuntimeEnv {
    var objectStores: map<StoreKey, S3Store>

    constructor ()
      ensures objectStores == map[]
    {
      objectStores := map[];
    }

    /** Registers `store` for `scheme://host`, replacing an earlier store
        registered there. */
    method RegisterObjectStore(scheme: string, host: string, store: S3Store)
      modifies this
      ensures objectStores == old(objectStores)[StoreKey(scheme, host) := store]
    {
      objectStores := objectStores[StoreKey(scheme, host) := store];
    }
  }

  /** `register_s3_object_store`: validates the S3 options and, when S3 is on
      and they are complete, registers one store in `runtime`. */
  method RegisterS3ObjectStore(config: Config, runtime: RuntimeEnv) returns (r: Outcome<()>)
    modifies runtime
    ensures r == S3StoreFor(config).Unit()
    ensures runtime.objectStores == Registered(old(runtime.objectStores), S3StoreFor(config))
  {
    if !CheckFsTypeEnabled(config, "s3") {
      return Ok(());
    }
    var opts := config.objectStoreOptions;
    var key := Lookup(opts, AccessKeyOption);
    var secret := Lookup(opts, AccessSecretOption);
    var region := Lookup(opts, RegionOption);
    var bucket := Lookup(opts, BucketOption);
    if region.None? {
      return Err(MissingRegion);
    }
    if bucket.None? {
      return Err(MissingBucket);
    }
    var endpoint := Lookup(opts, EndpointOption);
    if key.None? || secret.None? || endpoint.None? {
      return Panic(UnwrapFailed);
    }
    var store := S3Store(key.value, secret.value, region.value, bucket.value, endpoint.value,
                         RetryConfig(MaxRetries), true);
    runtime.RegisterObjectStore("s3", bucket.value, store);
    r := Ok(());
  }
}
