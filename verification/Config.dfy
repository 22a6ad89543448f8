// Resolution of a policy against the controller's defaults (internal/backup/config.go).

module Config {
  import opened Api

  datatype Defaults = Defaults(bucketClassName: string, bucketAccessClassName: string, schedules: ScheduleSpec)

  datatype Config = Config(
    mode: Mode,
    schedules: ScheduleSpec,
    bucketClassName: string,
    bucketAccessClassName: string,
    retention: Retention)

  datatype Resolution = Resolved(cfg: Config) | NotActionable(unmet: seq<Requirement>)

  const DEFAULT_RETENTION := Retention(0, 0, 7, 4, 6, 0)

  function OrDefault(value: string, fallback: string): string {
    if value == "" then fallback else value
  }

  // A policy with every empty field taken from the defaults, actionable or not.
  function Filled(spec: Spec, def: Defaults): Config {
    Config(
      if spec.mode.Unset? then ScheduleMode else spec.mode,
      ScheduleSpec(
        OrDefault(spec.schedule.backup, def.schedules.backup),
        OrDefault(spec.schedule.prune, def.schedules.prune),
        OrDefault(spec.schedule.check, def.schedules.check)),
      OrDefault(spec.bucketClassName, def.bucketClassName),
      OrDefault(spec.bucketAccessClassName, def.bucketAccessClassName),
      if spec.retention.IsZero() then DEFAULT_RETENTION else spec.retention)
  }

  predicate Meets(cfg: Config, requirement: Requirement) {
    match requirement
    case BucketClass => cfg.bucketClassName != ""
    case BucketAccessClass => cfg.bucketAccessClassName != ""
    case BackupSchedule => cfg.mode == ScheduleMode ==> cfg.schedules.backup != ""
  }

  function Unless(met: bool, requirement: Requirement): (unmet: seq<Requirement>)
    ensures forall q :: q in unmet <==> !met && q == requirement
  {
    if met then [] else [requirement]
  }

  function Unmet(cfg: Config): seq<Requirement> {
    Unless(Meets(cfg, BucketClass), BucketClass) +
    Unless(Meets(cfg, BucketAccessClass), BucketAccessClass) +
    Unless(Meets(cfg, BackupSchedule), BackupSchedule)
  }

  function Resolve(spec: Spec, def: Defaults): Resolution {
    var cfg := Filled(spec, def);
    var unmet := Unmet(cfg);
    if unmet == [] then Resolved(cfg) else NotActionable(unmet)
  }

  // Resolve as the controller runs it: the retention is overwritten and the errors appended.
  method ResolveSpec(spec: Spec, def: Defaults) returns (r: Resolution)
    ensures r == Resolve(spec, def)
  {
    var cfg := Config(
      if spec.mode == Unset then ScheduleMode else spec.mode,
      ScheduleSpec(
        OrDefault(spec.schedule.backup, def.schedules.backup),
        OrDefault(spec.schedule.prune, def.schedules.prune),
        OrDefault(spec.schedule.check, def.schedules.check)),
      OrDefault(spec.bucketClassName, def.bucketClassName),
      OrDefault(spec.bucketAccessClassName, def.bucketAccessClassName),
      spec.retention);
    if cfg.retention.IsZero() {
      cfg := cfg.(retention := DEFAULT_RETENTION);
    }
    var errs: seq<Requirement> := [];
    if cfg.bucketClassName == "" {
      errs := errs + [BucketClass];
    }
    if cfg.bucketAccessClassName == "" {
      errs := errs + [BucketAccessClass];
    }
    if cfg.mode == ScheduleMode && cfg.schedules.backup == "" {
      errs := errs + [BackupSchedule];
    }
    if errs != [] {
      return NotActionable(errs);
    }
    return Resolved(cfg);
  }

  // Resolution fails exactly when a requirement is unmet, and then reports exactly the unmet
  // ones, each once and in their fixed order.
  lemma {:induction false} ResolveReportsExactlyTheUnmet(spec: Spec, def: Defaults)
    ensures Resolve(spec, def).Resolved? <==> forall q :: Meets(Filled(spec, def), q)
    ensures Resolve(spec, def).NotActionable? ==>
              var unmet := Resolve(spec, def).unmet;
              && (forall q :: q in unmet <==> !Meets(Filled(spec, def), q))
              && (forall i, j :: 0 <= i < j < |unmet| ==> Rank(unmet[i]) < Rank(unmet[j]))
  {
    UnmetExactly(Filled(spec, def));
  }

  lemma UnmetExactly(cfg: Config)
    ensures forall q :: q in Unmet(cfg) <==> !Meets(cfg, q)
    ensures forall i, j :: 0 <= i < j < |Unmet(cfg)| ==> Rank(Unmet(cfg)[i]) < Rank(Unmet(cfg)[j])
    ensures Unmet(cfg) == [] <==> forall q :: Meets(cfg, q)
  {
    hide Meets;
    forall q
      ensures q in Unmet(cfg) <==> !Meets(cfg, q)
    {
      var first := Unless(Meets(cfg, BucketClass), BucketClass);
      var second := Unless(Meets(cfg, BucketAccessClass), BucketAccessClass);
      var third := Unless(Meets(cfg, BackupSchedule), BackupSchedule);
      assert Unmet(cfg) == first + second + third;
      assert q in first + second + third <==> q in first || q in second || q in third;
      assert q.BucketClass? || q.BucketAccessClass? || q.BackupSchedule?;
    }
    if Unmet(cfg) != [] {
      assert Unmet(cfg)[0] in Unmet(cfg);
    }
  }

  function Rank(q: Requirement): nat {
    match q
    case BucketClass => 0
    case BucketAccessClass => 1
    case BackupSchedule => 2
  }

  // The policy's own value wins, and the default stands in only for one left out.
  predicate Prefers(value: string, own: string, fallback: string) {
    (own != "" ==> value == own) && (own == "" ==> value == fallback)
  }

  // What a policy resolves to, field by field.
  lemma {:induction false} ThePolicyWins(spec: Spec, def: Defaults)
    requires Resolve(spec, def).Resolved?
    ensures var cfg := Resolve(spec, def).cfg;
            && Prefers(cfg.schedules.backup, spec.schedule.backup, def.schedules.backup)
            && Prefers(cfg.schedules.prune, spec.schedule.prune, def.schedules.prune)
            && Prefers(cfg.schedules.check, spec.schedule.check, def.schedules.check)
            && Prefers(cfg.bucketClassName, spec.bucketClassName, def.bucketClassName)
            && Prefers(cfg.bucketAccessClassName, spec.bucketAccessClassName, def.bucketAccessClassName)
            && (cfg.mode == ScheduleMode <==> spec.mode == ScheduleMode || spec.mode == Unset)
            && (spec.mode != Unset ==> cfg.mode == spec.mode)
            && var none := Retention(0, 0, 0, 0, 0, 0);
               && (spec.retention != none ==> cfg.retention == spec.retention)
               && (spec.retention == none ==> cfg.retention == Retention(0, 0, 7, 4, 6, 0))
  {
  }

  // Nothing else can be wrong with a policy: what is reported, and in which order, said by what
  // neither the policy nor the defaults provide.
  predicate Lacks(spec: Spec, def: Defaults, requirement: Requirement) {
    match requirement
    case BucketClass => spec.bucketClassName == "" && def.bucketClassName == ""
    case BucketAccessClass => spec.bucketAccessClassName == "" && def.bucketAccessClassName == ""
    case BackupSchedule =>
      && (spec.mode == ScheduleMode || spec.mode == Unset)
      && spec.schedule.backup == "" && def.schedules.backup == ""
  }

  lemma {:induction false} RejectedForWhatIsLacking(spec: Spec, def: Defaults)
    ensures Resolve(spec, def).NotActionable? <==> exists q :: Lacks(spec, def, q)
    ensures Resolve(spec, def).NotActionable? ==>
              var unmet := Resolve(spec, def).unmet;
              && (forall q :: q in unmet <==> Lacks(spec, def, q))
              && (forall i, j :: 0 <= i < j < |unmet| ==> Rank(unmet[i]) < Rank(unmet[j]))
  {
    ResolveReportsExactlyTheUnmet(spec, def);
    forall q
      ensures Lacks(spec, def, q) <==> !Meets(Filled(spec, def), q)
    {
    }
  }

  // What the API server lets through: the two modes or none, and no negative count.
  lemma CrdAdmits(spec: Spec)
    ensures CrdValid(spec) <==>
            && spec.mode in {Unset, ScheduleMode, BucketOnlyMode}
            && spec.retention.keepLast >= 0 && spec.retention.keepHourly >= 0 && spec.retention.keepDaily >= 0
            && spec.retention.keepWeekly >= 0 && spec.retention.keepMonthly >= 0 && spec.retention.keepYearly >= 0
  {
    var r := spec.retention;
    assert r.Count(KeepLast) == r.keepLast && r.Count(KeepHourly) == r.keepHourly && r.Count(KeepDaily) == r.keepDaily;
    assert r.Count(KeepWeekly) == r.keepWeekly && r.Count(KeepMonthly) == r.keepMonthly;
    assert r.Count(KeepYearly) == r.keepYearly;
  }

  // A resolved configuration written back as a spec.
  function AsSpec(cfg: Config): Spec {
    Spec(cfg.mode, cfg.schedules, cfg.bucketClassName, cfg.bucketAccessClassName, cfg.retention)
  }

  // Resolving is a closure: a resolved configuration asks for itself.
  lemma {:induction false} ResolveIsAClosure(spec: Spec, def: Defaults)
    requires Resolve(spec, def).Resolved?
    ensures Resolve(AsSpec(Resolve(spec, def).cfg), def) == Resolve(spec, def)
    ensures CrdValid(spec) ==> CrdValid(AsSpec(Resolve(spec, def).cfg))
  {
    var cfg := Filled(spec, def);
    assert Filled(AsSpec(cfg), def) == cfg;
  }

  // What the rest of the controller relies on once a policy has resolved.
  lemma {:induction false} ResolvedIsUsable(spec: Spec, def: Defaults)
    requires Resolve(spec, def).Resolved?
    ensures var cfg := Resolve(spec, def).cfg;
            && cfg == Filled(spec, def)
            && cfg.bucketClassName != ""
            && cfg.bucketAccessClassName != ""
            && !cfg.mode.Unset?
            && !cfg.retention.IsZero()
            && (CrdValid(spec) && cfg.mode != BucketOnlyMode ==> cfg.schedules.backup != "")
  {
    ResolveReportsExactlyTheUnmet(spec, def);
    var cfg := Filled(spec, def);
    assert Meets(cfg, BucketClass) && Meets(cfg, BucketAccessClass) && Meets(cfg, BackupSchedule);
  }

  // Resolve asks whether the mode is Schedule, the reconciler whether it is BucketOnly. The two
  // questions are each other's negation exactly for the modes the CRD admits.
  lemma ModeTestsAgree(spec: Spec, def: Defaults)
    ensures var mode := Filled(spec, def).mode;
            (mode == ScheduleMode <==> mode != BucketOnlyMode) <==> !spec.mode.Other?
  {
  }

  // Outside those modes the disagreement shows: a policy resolves with no backup schedule at
  // all and is still treated as one to be backed up.
  lemma UnknownModeSlipsThrough(def: Defaults, text: string)
    requires def.bucketClassName != "" && def.bucketAccessClassName != "" && def.schedules.backup == ""
    ensures var spec := Spec(Other(text), ScheduleSpec("", "", ""), "", "", Retention(0, 0, 0, 0, 0, 0));
            && Resolve(spec, def).Resolved?
            && Resolve(spec, def).cfg.mode != BucketOnlyMode
            && Resolve(spec, def).cfg.schedules.backup == ""
  {
    var spec := Spec(Other(text), ScheduleSpec("", "", ""), "", "", Retention(0, 0, 0, 0, 0, 0));
  }
}
