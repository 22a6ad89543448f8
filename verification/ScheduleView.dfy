// What a k8up Schedule that ampulla applied asks for, read back field by field.

module ScheduleView {
  import opened Api
  import opened BucketSecret
  import opened Config
  import opened ServerSideApply
  import opened Objects

  datatype PruneJob = PruneJob(schedule: string, retention: Retention)

  datatype Jobs = Jobs(backup: string, prune: Option<PruneJob>, check: Option<string>)

  function ReadText(f: Fields, p: Path): string {
    if p in f && f[p].value.Text? then f[p].value.text else ""
  }

  // An absent count reads as zero.
  function ReadCount(f: Fields, p: Path): int {
    if p in f && f[p].value.Count? then f[p].value.count else 0
  }

  function ReadRetention(f: Fields): Retention {
    Retention(
      ReadCount(f, PruneRetentionPath(KeepLast)),
      ReadCount(f, PruneRetentionPath(KeepHourly)),
      ReadCount(f, PruneRetentionPath(KeepDaily)),
      ReadCount(f, PruneRetentionPath(KeepWeekly)),
      ReadCount(f, PruneRetentionPath(KeepMonthly)),
      ReadCount(f, PruneRetentionPath(KeepYearly)))
  }

  // A job is there if any of its fields is.
  predicate HasPrune(f: Fields) {
    PruneSchedulePath in f || exists p :: p in RETENTION_PATHS && p in f
  }

  function JobsIn(f: Fields): Jobs {
    Jobs(
      ReadText(f, BackupSchedulePath),
      if HasPrune(f) then Some(PruneJob(ReadText(f, PruneSchedulePath), ReadRetention(f))) else None,
      if CheckSchedulePath in f then Some(ReadText(f, CheckSchedulePath)) else None)
  }

  // The jobs a resolved policy asks for.
  function JobsOf(cfg: Config): Jobs {
    Jobs(
      cfg.schedules.backup,
      if cfg.schedules.prune == "" then None else Some(PruneJob(cfg.schedules.prune, cfg.retention)),
      if cfg.schedules.check == "" then None else Some(cfg.schedules.check))
  }

  // Where each field of a Schedule comes from.
  lemma ScheduleConfigAt(k: Setup, cfg: Config, bucket: Bucket, p: Path)
    ensures var config := ScheduleConfig(k, cfg, bucket);
            && (p in config <==> p in ObjectFor(k) || p in BackendConfig(k, bucket) || p in JobsConfig(cfg))
            && (p in JobsConfig(cfg) ==> config[p] == JobsConfig(cfg)[p])
            && (p in BackendConfig(k, bucket) && p !in JobsConfig(cfg) ==> config[p] == BackendConfig(k, bucket)[p])
            && (p in ObjectFor(k) && p !in BackendConfig(k, bucket) && p !in JobsConfig(cfg) ==>
                  config[p] == ObjectFor(k)[p])
  {
    hide ObjectFor, BackendConfig, JobsConfig;
  }

  predicate IsJobPath(p: Path) {
    p.BackupSchedulePath? || p.PruneSchedulePath? || p.PruneRetentionPath? || p.CheckSchedulePath?
  }

  lemma NothingElseIsAJob(k: Setup, bucket: Bucket, p: Path)
    ensures IsJobPath(p) ==> p !in ObjectFor(k) && p !in BackendConfig(k, bucket)
  {
    hide NamesOf;
  }

  lemma RetentionPaths(p: Path)
    ensures p in RETENTION_PATHS <==> p.PruneRetentionPath?
  {
    if p.PruneRetentionPath? {
      match p.key
      case KeepLast =>
      case KeepHourly =>
      case KeepDaily =>
      case KeepWeekly =>
      case KeepMonthly =>
      case KeepYearly =>
    }
  }

  lemma RetentionEntriesAt(r: Retention, p: Path)
    ensures p in RetentionEntries(r) <==> p.PruneRetentionPath? && r.Count(p.key) > 0
    ensures p in RetentionEntries(r) ==> RetentionEntries(r)[p] == Count(r.Count(p.key))
  {
    hide RETENTION_PATHS;
    RetentionPaths(p);
  }

  lemma JobsConfigAt(cfg: Config, p: Path)
    ensures var config := JobsConfig(cfg);
            match p
            case BackupSchedulePath => p in config && config[p] == Text(cfg.schedules.backup)
            case PruneSchedulePath =>
              && (p in config <==> cfg.schedules.prune != "")
              && (p in config ==> config[p] == Text(cfg.schedules.prune))
            case PruneRetentionPath(key) =>
              && (p in config <==> cfg.schedules.prune != "" && cfg.retention.Count(key) > 0)
              && (p in config ==> config[p] == Count(cfg.retention.Count(key)))
            case CheckSchedulePath =>
              && (p in config <==> cfg.schedules.check != "")
              && (p in config ==> config[p] == Text(cfg.schedules.check))
            case _ => p !in config
  {
    hide RetentionEntries;
    RetentionEntriesAt(cfg.retention, p);
  }

  lemma {:induction false} JobsReadBack(k: Setup, cfg: Config, bucket: Bucket)
    requires forall key :: cfg.retention.Count(key) >= 0
    ensures JobsIn(Owned(ScheduleConfig(k, cfg, bucket))) == JobsOf(cfg)
  {
    hide ScheduleConfig, JobsConfig, RETENTION_PATHS;
    var f := Owned(ScheduleConfig(k, cfg, bucket));
    forall p | IsJobPath(p)
      ensures p in f <==> p in JobsConfig(cfg)
      ensures p in f ==> f[p].value == JobsConfig(cfg)[p]
    {
      ScheduleConfigAt(k, cfg, bucket, p);
      NothingElseIsAJob(k, bucket, p);
    }
    forall p
      ensures p in RETENTION_PATHS <==> p.PruneRetentionPath?
    {
      RetentionPaths(p);
    }
    forall key
      ensures ReadCount(f, PruneRetentionPath(key)) == if cfg.schedules.prune == "" then 0 else cfg.retention.Count(key)
    {
      JobsConfigAt(cfg, PruneRetentionPath(key));
    }
    if cfg.schedules.prune != "" {
      ByCounts(ReadRetention(f), cfg.retention);
    } else {
      forall p | p in RETENTION_PATHS
        ensures p !in f
      {
        JobsConfigAt(cfg, p);
      }
    }
    JobsConfigAt(cfg, BackupSchedulePath);
    JobsConfigAt(cfg, PruneSchedulePath);
    JobsConfigAt(cfg, CheckSchedulePath);
  }

  lemma ByCounts(a: Retention, b: Retention)
    requires a.keepLast == b.Count(KeepLast) && a.keepHourly == b.Count(KeepHourly)
    requires a.keepDaily == b.Count(KeepDaily) && a.keepWeekly == b.Count(KeepWeekly)
    requires a.keepMonthly == b.Count(KeepMonthly) && a.keepYearly == b.Count(KeepYearly)
    ensures a == b
  {
  }

  // On a Schedule that only ampulla writes, whatever was applied to it before, the jobs are
  // exactly the last configuration's: none survives the one that asked for it.
  lemma JobsAfterAnyHistory(k: Setup, o: Fields, configs: seq<Configuration>, cfg: Config, bucket: Bucket)
    requires OnlyAmpulla(o)
    requires forall key :: cfg.retention.Count(key) >= 0
    ensures JobsIn(ApplyAll(o, configs + [ScheduleConfig(k, cfg, bucket)])) == JobsOf(cfg)
  {
    HistoryIndependent(o, configs, ScheduleConfig(k, cfg, bucket));
    JobsReadBack(k, cfg, bucket);
  }

  // On one that somebody else writes as well, they need not be: where a policy that asks for no
  // check did ask for one in between, the check another manager had set is gone for good; it
  // would be there had the policy not been edited. Both specs are ones that resolve.
  lemma {:induction false} AnEditCanCostAForeignCheck(k: Setup, spec: Spec, bucket: Bucket, other: string)
    requires Resolve(spec, k.defaults).Resolved? && Resolve(spec, k.defaults).cfg.schedules.check == ""
    requires other != "@daily"
    ensures var edited := spec.(schedule := spec.schedule.(check := "@daily"));
            var o: Fields := map[CheckSchedulePath := Field(Text(other), {Foreign("kubectl")})];
            && Resolve(edited, k.defaults).Resolved?
            && (CrdValid(spec) ==> CrdValid(edited))
            && var asked := ScheduleConfig(k, Resolve(spec, k.defaults).cfg, bucket);
               var between := ScheduleConfig(k, Resolve(edited, k.defaults).cfg, bucket);
               && JobsIn(Apply(o, asked)).check == Some(other)
               && JobsIn(ApplyAll(o, [between, asked])).check == None
  {
    hide ScheduleConfig, JobsConfig, HasPrune, ReadRetention;
    var edited := spec.(schedule := spec.schedule.(check := "@daily"));
    ResolveReportsExactlyTheUnmet(spec, k.defaults);
    ResolveReportsExactlyTheUnmet(edited, k.defaults);
    forall q
      ensures Meets(Filled(edited, k.defaults), q)
    {
      assert Meets(Filled(spec, k.defaults), q);
    }
    assert CrdValid(spec) ==> CrdValid(edited) by {
      assert forall key :: edited.retention.Count(key) == spec.retention.Count(key);
    }
    var before, after := Resolve(spec, k.defaults).cfg, Resolve(edited, k.defaults).cfg;
    var o: Fields := map[CheckSchedulePath := Field(Text(other), {Foreign("kubectl")})];
    CheckAfterApply(k, o, after, bucket);
    CheckAfterApply(k, o, before, bucket);
    var between, asked := ScheduleConfig(k, after, bucket), ScheduleConfig(k, before, bucket);
    CheckAfterApply(k, Apply(o, between), before, bucket);
    assert [between, asked][..1] == [between] && [between][..0] == [];
    assert ApplyAll(o, []) == o;
    assert ApplyAll(o, [between]) == Apply(o, between);
    assert ApplyAll(o, [between, asked]) == Apply(ApplyAll(o, [between]), asked);
  }

  // What an apply makes of the check.
  lemma CheckAfterApply(k: Setup, o: Fields, cfg: Config, bucket: Bucket)
    ensures var f := Apply(o, ScheduleConfig(k, cfg, bucket));
            var p := CheckSchedulePath;
            if cfg.schedules.check == "" then
              && (p in f <==> p in o && o[p].owners != {Ampulla})
              && (p in f ==> f[p] == Field(o[p].value, o[p].owners - {Ampulla}))
            else
              && p in f && f[p].value == Text(cfg.schedules.check)
              && (p !in o || o[p].value != Text(cfg.schedules.check) ==> f[p].owners == {Ampulla})
  {
    hide ScheduleConfig, JobsConfig;
    ScheduleConfigAt(k, cfg, bucket, CheckSchedulePath);
    NothingElseIsAJob(k, bucket, CheckSchedulePath);
    JobsConfigAt(cfg, CheckSchedulePath);
  }

  // Where the Schedule of a policy points, over any object it is applied to.
  predicate PointsAt(k: Setup, f: Fields, bucket: Bucket) {
    && RepoPasswordRefPath in f
    && f[RepoPasswordRefPath].value == SecretRef(NamesOf(k).repositorySecret, RepoPasswordKey)
    && S3EndpointPath in f && f[S3EndpointPath].value == Text(bucket.endpoint)
    && S3BucketPath in f && f[S3BucketPath].value == Text(bucket.id)
    && AccessKeyIdRefPath in f && f[AccessKeyIdRefPath].value == SecretRef(NamesOf(k).credentialsSecret, AccessKeyIdKey)
    && SecretAccessKeyRefPath in f
    && f[SecretAccessKeyRefPath].value == SecretRef(NamesOf(k).credentialsSecret, AccessSecretKeyKey)
  }

  lemma {:induction false} ScheduleConfigPoints(k: Setup, o: Fields, cfg: Config, bucket: Bucket)
    ensures PointsAt(k, Apply(o, ScheduleConfig(k, cfg, bucket)), bucket)
  {
    hide ScheduleConfig, JobsConfig, NamesOf, PruneConfig, CheckConfig, ObjectFor;
    var config := ScheduleConfig(k, cfg, bucket);
    forall p | p in BackendConfig(k, bucket)
      ensures p in config && config[p] == BackendConfig(k, bucket)[p]
    {
      ScheduleConfigAt(k, cfg, bucket, p);
      JobsConfigAt(cfg, p);
    }
  }

  // The label and the owner reference of a policy's objects.
  predicate Labelled(k: Setup, config: Configuration) {
    && ManagedLabel in config && config[ManagedLabel] == Text(k.name)
    && OwnerReferencePath(k.uid) in config && config[OwnerReferencePath(k.uid)] == OwnerRef(k.name, true)
  }

  lemma {:induction false} ConfigsAreLabelled(k: Setup, cfg: Config, bucket: Bucket)
    ensures Labelled(k, BucketClaimConfig(k, cfg))
    ensures Labelled(k, BucketAccessConfig(k, cfg))
    ensures Labelled(k, ScheduleConfig(k, cfg, bucket))
  {
    hide JobsConfig, NamesOf, ScheduleConfig;
    forall p | p in {ManagedLabel, OwnerReferencePath(k.uid)}
      ensures p in ScheduleConfig(k, cfg, bucket) && ScheduleConfig(k, cfg, bucket)[p] == ObjectFor(k)[p]
    {
      ScheduleConfigAt(k, cfg, bucket, p);
      JobsConfigAt(cfg, p);
    }
  }

  // ---------- Retention ----------

  // A prune job carries a retention exactly when there is something to keep.
  lemma RetentionSentIff(r: Retention)
    ensures RetentionEntries(r) != map[] <==> exists key :: r.Count(key) > 0
  {
    hide RetentionEntries;
    if key :| r.Count(key) > 0 {
      RetentionEntriesAt(r, PruneRetentionPath(key));
    }
    if p :| p in RetentionEntries(r) {
      RetentionEntriesAt(r, p);
    }
  }

  // For a policy that resolves, restic is told to keep something unless the policy itself holds
  // counts the CRD forbids.
  lemma PruningKeepsSomethingIff(spec: Spec, def: Defaults)
    requires Resolve(spec, def).Resolved?
    ensures RetentionEntries(Resolve(spec, def).cfg.retention) != map[] <==>
            spec.retention.IsZero() || exists key :: spec.retention.Count(key) > 0
  {
    var r := Resolve(spec, def).cfg.retention;
    RetentionSentIff(r);
    if spec.retention.IsZero() {
      assert r.Count(KeepDaily) == 7;
    }
  }

  // So for a policy the CRD admits, pruning never means keeping everything, and the retention
  // read back from the Schedule is the resolved one.
  lemma {:induction false} PruningNeverKeepsEverything(k: Setup, spec: Spec, bucket: Bucket)
    requires CrdValid(spec) && Resolve(spec, k.defaults).Resolved?
    ensures var cfg := Resolve(spec, k.defaults).cfg;
            var jobs := JobsIn(Owned(ScheduleConfig(k, cfg, bucket)));
            && (jobs.prune.Some? <==> cfg.schedules.prune != "")
            && (jobs.prune.Some? ==>
                  && jobs.prune.value.retention == cfg.retention
                  && exists key :: jobs.prune.value.retention.Count(key) > 0)
  {
    var cfg := Resolve(spec, k.defaults).cfg;
    var r := spec.retention;
    if r.IsZero() {
      assert cfg.retention.Count(KeepDaily) == 7;
    } else {
      assert r.Count(KeepLast) > 0 || r.Count(KeepHourly) > 0 || r.Count(KeepDaily) > 0 ||
             r.Count(KeepWeekly) > 0 || r.Count(KeepMonthly) > 0 || r.Count(KeepYearly) > 0 by {
        assert r.Count(KeepLast) >= 0 && r.Count(KeepHourly) >= 0 && r.Count(KeepDaily) >= 0;
        assert r.Count(KeepWeekly) >= 0 && r.Count(KeepMonthly) >= 0 && r.Count(KeepYearly) >= 0;
      }
    }
    forall key
      ensures cfg.retention.Count(key) >= 0
    {
      assert r.Count(key) >= 0;
    }
    JobsReadBack(k, cfg, bucket);
  }
}
