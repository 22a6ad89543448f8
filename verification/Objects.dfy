// The configurations ampulla applies (controllers/objects.go and statusFor), and how the objects
// they leave behind are read.

module Objects {
  import opened Api
  import opened BucketSecret
  import opened Config
  import opened Names
  import opened ServerSideApply

  // Leaf field paths. Elsewhere is any path ampulla never sends.
  datatype Path =
    | ManagedLabel
    | OwnerReferencePath(uid: string)
    | BucketClassNamePath
    | ProtocolsPath
    | BucketAccessClassNamePath
    | ProtocolPath
    | BucketClaimsPath
    | RepoPasswordRefPath
    | S3EndpointPath
    | S3BucketPath
    | AccessKeyIdRefPath
    | SecretAccessKeyRefPath
    | BackupSchedulePath
    | PruneSchedulePath
    | PruneRetentionPath(key: RetentionKey)
    | CheckSchedulePath
    | PhasePath
    | ObservedGenerationPath
    | MessagePath
    | BucketPath
    | EndpointPath
    | CredentialsSecretPath
    | SchedulePath
    | Elsewhere(path: string)

  // What the key pair of an access may be used for.
  datatype AccessMode = ReadWrite | ReadOnly | WriteOnly

  datatype Operation = Reading | Writing

  predicate Permits(mode: AccessMode, operation: Operation) {
    match mode
    case ReadWrite => true
    case ReadOnly => operation.Reading?
    case WriteOnly => operation.Writing?
  }

  datatype Value =
    | Text(text: string)
    | Texts(texts: seq<string>)
    | Count(count: int)
    | SecretRef(name: string, key: SecretKey)
    | OwnerRef(policyName: string, controller: bool)
    | ClaimAccess(claimName: string, accessMode: AccessMode, secretName: string)
    | PhaseValue(phase: Phase)
    | MessageValue(message: Message)

  type Configuration = map<Path, Value>
  type Fields = map<Path, Field<Value>>

  // Which policy is reconciled, and how its controller is set up.
  datatype Setup = Setup(namespace: string, name: string, uid: string, defaults: Defaults, hash: Hash)

  function NamesOf(k: Setup): Names {
    NamesFor(k.hash, k.name)
  }

  // The metadata every applied object shares: the label the cache filters on, and the policy as
  // its controller.
  function ObjectFor(k: Setup): Configuration {
    map[ManagedLabel := Text(k.name), OwnerReferencePath(k.uid) := OwnerRef(k.name, true)]
  }

  function BucketClaimConfig(k: Setup, cfg: Config): Configuration {
    ObjectFor(k)[BucketClassNamePath := Text(cfg.bucketClassName)][ProtocolsPath := Texts([S3])]
  }

  function BucketAccessConfig(k: Setup, cfg: Config): Configuration {
    ObjectFor(k)
      [BucketAccessClassNamePath := Text(cfg.bucketAccessClassName)]
      [ProtocolPath := Text(S3)]
      [BucketClaimsPath := ClaimAccess(NamesOf(k).bucketClaim, ReadWrite, NamesOf(k).credentialsSecret)]
  }

  const RETENTION_PATHS: set<Path> := {
    PruneRetentionPath(KeepLast), PruneRetentionPath(KeepHourly), PruneRetentionPath(KeepDaily),
    PruneRetentionPath(KeepWeekly), PruneRetentionPath(KeepMonthly), PruneRetentionPath(KeepYearly)}

  // The counts of a retention that are asked for.
  function RetentionEntries(r: Retention): Configuration {
    map p | p in RETENTION_PATHS && p.PruneRetentionPath? && r.Count(p.key) > 0 :: Count(r.Count(p.key))
  }

  function BackendConfig(k: Setup, bucket: Bucket): Configuration {
    map[RepoPasswordRefPath := SecretRef(NamesOf(k).repositorySecret, RepoPasswordKey),
        S3EndpointPath := Text(bucket.endpoint),
        S3BucketPath := Text(bucket.id),
        AccessKeyIdRefPath := SecretRef(NamesOf(k).credentialsSecret, AccessKeyIdKey),
        SecretAccessKeyRefPath := SecretRef(NamesOf(k).credentialsSecret, AccessSecretKeyKey)]
  }

  // The prune job and the check job. With an empty cron expression there is no such job at all.
  function PruneConfig(cfg: Config): Configuration {
    if cfg.schedules.prune == "" then map[]
    else map[PruneSchedulePath := Text(cfg.schedules.prune)] + RetentionEntries(cfg.retention)
  }

  function CheckConfig(cfg: Config): Configuration {
    if cfg.schedules.check == "" then map[] else map[CheckSchedulePath := Text(cfg.schedules.check)]
  }

  function JobsConfig(cfg: Config): Configuration {
    map[BackupSchedulePath := Text(cfg.schedules.backup)] + PruneConfig(cfg) + CheckConfig(cfg)
  }

  function ScheduleConfig(k: Setup, cfg: Config, bucket: Bucket): Configuration {
    ObjectFor(k) + (BackendConfig(k, bucket) + JobsConfig(cfg))
  }

  // ---------- The builders as they run ----------

  method BucketClaimFor(k: Setup, cfg: Config) returns (claim: Configuration)
    ensures claim == BucketClaimConfig(k, cfg)
  {
    claim := ObjectFor(k);
    claim := claim[BucketClassNamePath := Text(cfg.bucketClassName)];
    claim := claim[ProtocolsPath := Texts([S3])];
  }

  method BucketAccessFor(k: Setup, cfg: Config) returns (access: Configuration)
    ensures access == BucketAccessConfig(k, cfg)
  {
    var names := NamesFor(k.hash, k.name);
    access := ObjectFor(k);
    access := access[BucketAccessClassNamePath := Text(cfg.bucketAccessClassName)];
    access := access[ProtocolPath := Text(S3)];
    access := access[BucketClaimsPath := ClaimAccess(names.bucketClaim, ReadWrite, names.credentialsSecret)];
  }

  // The map of counts is walked in an order the language leaves open.
  method RetentionFor(r: Retention) returns (entries: Configuration)
    ensures entries == RetentionEntries(r)
  {
    entries := map[];
    var left := RETENTION_PATHS;
    while left != {}
      invariant left <= RETENTION_PATHS
      invariant forall p :: p in entries <==>
                            p in RETENTION_PATHS - left && p.PruneRetentionPath? && r.Count(p.key) > 0
      invariant forall p :: p in entries ==> p.PruneRetentionPath? && entries[p] == Count(r.Count(p.key))
      decreases |left|
    {
      var p :| p in left;
      if r.Count(p.key) > 0 {
        entries := entries[p := Count(r.Count(p.key))];
      }
      left := left - {p};
    }
  }

  method ScheduleFor(k: Setup, cfg: Config, bucket: Bucket) returns (schedule: Configuration)
    ensures schedule == ScheduleConfig(k, cfg, bucket)
  {
    hide ObjectFor, BackendConfig, RetentionEntries, RETENTION_PATHS;
    var prune, check: Configuration := map[], map[];
    if cfg.schedules.prune != "" {
      prune := map[PruneSchedulePath := Text(cfg.schedules.prune)];
      var retention := RetentionFor(cfg.retention);
      EmptyAddsNothing(prune, retention);
      if |retention| > 0 {
        prune := prune + retention;
      }
    }
    if cfg.schedules.check != "" {
      check := map[CheckSchedulePath := Text(cfg.schedules.check)];
    }
    assert prune == PruneConfig(cfg);
    assert check == CheckConfig(cfg);
    var jobs := map[BackupSchedulePath := Text(cfg.schedules.backup)] + prune + check;
    schedule := ObjectFor(k) + (BackendConfig(k, bucket) + jobs);
  }

  lemma EmptyAddsNothing(c: Configuration, d: Configuration)
    ensures |d| == 0 ==> c + d == c
  {
  }
}
