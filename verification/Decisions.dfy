// What a whole reconcile comes to, as one table over what the cluster holds. The reconcile makes its
// way there call by call; here nothing is said of calls, and nothing of the names the way has for
// what it finds: only of the fields of the objects.

module Decisions {
  import opened Api
  import opened BucketSecret
  import opened Config
  import opened ServerSideApply
  import opened Objects
  import opened ScheduleView
  import opened StatusView
  import opened Reconciler

  predicate SaysReady(o: Option<Object>) {
    o.Some? && o.value.cosi.readyToUse == Some(true)
  }

  function LastError(o: Option<Object>): string {
    if o.Some? && o.value.cosi.error.Some? && o.value.cosi.error.value.Some? then o.value.cosi.error.value.value else ""
  }

  // The conclusion, with what is then stored, the status that is wanted, and the seconds until the
  // next look. A status that reads like that already is left alone.
  predicate Reports(k: Setup, s: Store, outcome: Outcome, s': Store, done: Store, want: Status, requeue: nat) {
    && outcome.Reported? && outcome.policy == s.policy
    && WantOf(k, s.policy, outcome.verdict) == want
    && PhaseOf(k, outcome.verdict).requeue == requeue
    && s' == (if ReadStatus(s.policy.status) == want then done
              else done.(policy := s.policy.(status := Apply(s.policy.status, StatusConfig(want)))))
  }

  predicate Fails(outcome: Outcome, s': Store, done: Store) {
    outcome == Errored && s' == done
  }

  function Asked(k: Setup, s: Store, cfg: Config): Store {
    s.(claim := Applied(s.claim, BucketClaimConfig(k, cfg)))
  }

  function Granted(k: Setup, s: Store, cfg: Config): Store {
    Asked(k, s, cfg).(access := Applied(s.access, BucketAccessConfig(k, cfg)))
  }

  function BucketOf(data: SecretData): Bucket
    requires Complete(data)
  {
    Bucket(data[BucketIdKey], data[EndpointKey], if RegionKey in data then data[RegionKey] else "")
  }

  // The Schedule is written last, and after a password that is only generated where there is none.
  function BackedUp(k: Setup, s: Store, cfg: Config, bucket: Bucket, password: NewPassword): Store {
    Granted(k, s, cfg).(
      repository := if s.repository.Some? then s.repository else Some(Secret(true, map[RepoPasswordKey := password])),
      schedule := Applied(s.schedule, ScheduleConfig(k, cfg, bucket)))
  }

  predicate RepositoryRefused(s: Store) {
    s.repository.Some? && s.repository.value.managed && !Holds(s.repository.value.data, RepoPasswordKey)
  }

  // What is left once everything COSI has to provide is there.
  predicate Provisions(k: Setup, s: Store, cfg: Config, password: NewPassword, outcome: Outcome, s': Store)
    requires s.credentials.Some? && Complete(s.credentials.value.data)
  {
    var bucket, secret, g := BucketOf(s.credentials.value.data), NamesOf(k).credentialsSecret, s.policy.generation;
    if cfg.mode == BucketOnlyMode then
      Reports(k, s, outcome, s', Granted(k, s, cfg).(schedule := None),
              Status(Ready, g, ServesBucket(bucket.id), bucket.id, bucket.endpoint, secret, ""), 3600)
    else if RepositoryRefused(s) then Fails(outcome, s', Granted(k, s, cfg))
    else
      Reports(k, s, outcome, s', BackedUp(k, s, cfg, bucket, password),
              Status(Ready, g, BacksUpTo(bucket.id, bucket.endpoint), bucket.id, bucket.endpoint, secret,
                     cfg.schedules.backup),
              3600)
  }

  // The table.
  predicate Decides(k: Setup, s: Store, password: NewPassword, outcome: Outcome, s': Store) {
    var g := s.policy.generation;
    if s.policy.presence != Live then outcome == Skipped && s' == s
    else
      match Resolve(s.policy.spec, k.defaults)
      case NotActionable(unmet) =>
        Reports(k, s, outcome, s', s, Status(Failed, g, Rejected(unmet), "", "", "", ""), 0)
      case Resolved(cfg) =>
        if !SaysReady(s.claim) then
          Reports(k, s, outcome, s', Asked(k, s, cfg),
                  Status(Pending, g, AwaitingBucket(LastError(s.claim)), "", "", "", ""), 0)
        else if !SaysReady(s.access) then
          Reports(k, s, outcome, s', Granted(k, s, cfg),
                  Status(Pending, g, AwaitingCredentials(LastError(s.access)), s.claim.value.cosi.boundBucket,
                         "", "", ""),
                  0)
        else if s.credentials.None? then
          Reports(k, s, outcome, s', Granted(k, s, cfg),
                  Status(Pending, g, AwaitingCredentials(""), "", "", "", ""), 10)
        else if !Complete(s.credentials.value.data) then Fails(outcome, s', Granted(k, s, cfg))
        else Provisions(k, s, cfg, password, outcome, s')
  }

  // ---------- The way there ----------

  lemma FreshNext(k: Setup, s: Store, w: Worker, password: NewPassword)
    requires !w.Finished?
    ensures var (w', s') := Attempt(k, s, FreshView(s), w, password);
            Fresh(k, s, w, password) == Fresh(k, s', w', password)
  {
    hide Attempt;
    AttemptProgresses(k, s, FreshView(s), w, password);
  }

  lemma AppliedIsVisible(o: Option<Object>, config: Configuration)
    requires ManagedLabel in config
    ensures Visible(Applied(o, config)) == Applied(o, config)
    ensures Applied(o, config).Some?
    ensures Applied(o, config).value.cosi == if o.Some? then o.value.cosi else CosiStatus(None, "", None)
  {
  }

  lemma UpToTheClaim(k: Setup, s: Store, cfg: Config, password: NewPassword)
    requires s.policy.presence == Live && Resolve(s.policy.spec, k.defaults) == Resolved(cfg)
    ensures var asked := Asked(k, s, cfg);
            && asked.claim.Some?
            && asked.claim.value.cosi == (if s.claim.Some? then s.claim.value.cosi else CosiStatus(None, "", None))
            && Fresh(k, s, GettingPolicy, password) ==
                 Fresh(k, asked, AfterClaim(s.policy, cfg, asked.claim), password)
  {
    hide Resolve, Fresh, BucketClaimConfig, Applied, AfterClaim, Visible;
    ConfigsAreLabelled(k, cfg, Bucket("", "", ""));
    AppliedIsVisible(s.claim, BucketClaimConfig(k, cfg));
    FreshNext(k, s, GettingPolicy, password);
    FreshNext(k, s, ApplyingClaim(s.policy, cfg), password);
    FreshNext(k, Asked(k, s, cfg), GettingClaim(s.policy, cfg), password);
  }

  lemma AReadyClaimLeadsOn(p: Policy, cfg: Config, claim: Object)
    requires claim.cosi.readyToUse == Some(true)
    ensures AfterClaim(p, cfg, Some(claim)) == ApplyingAccess(p, cfg, claim)
  {
  }

  lemma UpToTheAccess(k: Setup, s: Store, cfg: Config, password: NewPassword)
    requires s.policy.presence == Live && Resolve(s.policy.spec, k.defaults) == Resolved(cfg) && SaysReady(s.claim)
    ensures var claim, granted := Asked(k, s, cfg).claim, Granted(k, s, cfg);
            && claim.Some? && claim.value.cosi == s.claim.value.cosi && granted.access.Some?
            && granted.access.value.cosi == (if s.access.Some? then s.access.value.cosi else CosiStatus(None, "", None))
            && Fresh(k, s, GettingPolicy, password) ==
                 Fresh(k, granted, AfterAccess(s.policy, cfg, claim.value, granted.access), password)
  {
    hide Resolve, Fresh, BucketClaimConfig, BucketAccessConfig, Applied, AfterClaim, AfterAccess, Visible, IsReady;
    UpToTheClaim(k, s, cfg, password);
    var asked := Asked(k, s, cfg);
    var claim := asked.claim.value;
    AReadyClaimLeadsOn(s.policy, cfg, claim);
    ConfigsAreLabelled(k, cfg, Bucket("", "", ""));
    AppliedIsVisible(s.access, BucketAccessConfig(k, cfg));
    FreshNext(k, asked, ApplyingAccess(s.policy, cfg, claim), password);
    FreshNext(k, Granted(k, s, cfg), GettingAccess(s.policy, cfg, claim), password);
  }

  lemma UpToTheCredentials(k: Setup, s: Store, cfg: Config, password: NewPassword)
    requires s.policy.presence == Live && Resolve(s.policy.spec, k.defaults) == Resolved(cfg)
    requires SaysReady(s.claim) && SaysReady(s.access)
    ensures var claim, granted := Asked(k, s, cfg).claim, Granted(k, s, cfg);
            && claim.Some? && granted.access.Some?
            && Fresh(k, s, GettingPolicy, password) ==
                 Fresh(k, granted,
                       AfterCredentials(s.policy, cfg, claim.value, granted.access.value, s.credentials), password)
  {
    hide Resolve, Fresh, BucketClaimConfig, BucketAccessConfig, Applied, AfterCredentials, Visible;
    UpToTheAccess(k, s, cfg, password);
    var granted := Granted(k, s, cfg);
    var claim := Asked(k, s, cfg).claim.value;
    FreshNext(k, granted, GettingCredentials(s.policy, cfg, claim, granted.access.value), password);
  }

  // A report, made on a store in which the policy is as it was read.
  lemma Concludes(k: Setup, s: Store, done: Store, v: Verdict, password: NewPassword)
    requires s.policy.presence == Live && done.policy == s.policy
    ensures var (outcome, s') := Fresh(k, done, Reporting(s.policy, v), password);
            Reports(k, s, outcome, s', done, WantOf(k, s.policy, v), PhaseOf(k, v).requeue)
  {
    hide Fresh, WantOf, PhaseOf, ReadStatus, StatusConfig, Apply;
    FreshNext(k, done, Reporting(s.policy, v), password);
    var (w', s') := Attempt(k, done, FreshView(done), Reporting(s.policy, v), password);
    FreshEnds(k, s', w'.outcome, password);
  }

  lemma FreshEnds(k: Setup, s: Store, outcome: Outcome, password: NewPassword)
    ensures Fresh(k, s, Finished(outcome), password) == (outcome, s)
  {
  }

  // ---------- The rows of the table ----------

  lemma SkipsOrRejects(k: Setup, s: Store, password: NewPassword)
    requires s.policy.presence != Live || Resolve(s.policy.spec, k.defaults).NotActionable?
    ensures var (outcome, s') := Fresh(k, s, GettingPolicy, password);
            Decides(k, s, password, outcome, s')
  {
    hide Resolve, Fresh, Reports, Provisions;
    FreshNext(k, s, GettingPolicy, password);
    if s.policy.presence != Live {
      FreshEnds(k, s, Skipped, password);
    } else {
      Concludes(k, s, s, Unactionable(Resolve(s.policy.spec, k.defaults).unmet), password);
    }
  }

  lemma WaitsForTheClaim(k: Setup, s: Store, cfg: Config, password: NewPassword)
    requires s.policy.presence == Live && Resolve(s.policy.spec, k.defaults) == Resolved(cfg) && !SaysReady(s.claim)
    ensures var (outcome, s') := Fresh(k, s, GettingPolicy, password);
            Decides(k, s, password, outcome, s')
  {
    hide Resolve, Fresh, Reports, Provisions, BucketClaimConfig, Applied;
    UpToTheClaim(k, s, cfg, password);
    Concludes(k, s, Asked(k, s, cfg), AwaitClaim(Asked(k, s, cfg).claim.value), password);
  }

  lemma WaitsForTheAccess(k: Setup, s: Store, cfg: Config, password: NewPassword)
    requires s.policy.presence == Live && Resolve(s.policy.spec, k.defaults) == Resolved(cfg)
    requires SaysReady(s.claim) && !SaysReady(s.access)
    ensures var (outcome, s') := Fresh(k, s, GettingPolicy, password);
            Decides(k, s, password, outcome, s')
  {
    hide Resolve, Fresh, Reports, Provisions, BucketClaimConfig, BucketAccessConfig, Applied;
    UpToTheAccess(k, s, cfg, password);
    var granted := Granted(k, s, cfg);
    Concludes(k, s, granted, AwaitAccess(Asked(k, s, cfg).claim.value, granted.access.value), password);
  }

  lemma WaitsForTheCredentials(k: Setup, s: Store, cfg: Config, password: NewPassword)
    requires s.policy.presence == Live && Resolve(s.policy.spec, k.defaults) == Resolved(cfg)
    requires SaysReady(s.claim) && SaysReady(s.access)
    requires s.credentials.None? || !Complete(s.credentials.value.data)
    ensures var (outcome, s') := Fresh(k, s, GettingPolicy, password);
            Decides(k, s, password, outcome, s')
  {
    hide Resolve, Fresh, Reports, Provisions, BucketClaimConfig, BucketAccessConfig, Applied, BucketIn, Complete;
    UpToTheCredentials(k, s, cfg, password);
    var granted := Granted(k, s, cfg);
    if s.credentials.None? {
      Concludes(k, s, granted, AwaitCredentials, password);
    } else {
      AcceptedIffComplete(s.credentials.value.data);
      FreshEnds(k, granted, Errored, password);
    }
  }

  lemma EvidenceIsComplete(k: Setup, s: Store, cfg: Config, password: NewPassword) returns (ev: Evidence)
    requires s.policy.presence == Live && Resolve(s.policy.spec, k.defaults) == Resolved(cfg)
    requires SaysReady(s.claim) && SaysReady(s.access)
    requires s.credentials.Some? && Complete(s.credentials.value.data)
    ensures ev.bucket == BucketOf(s.credentials.value.data)
    ensures Fresh(k, s, GettingPolicy, password) ==
            Fresh(k, Granted(k, s, cfg),
                  if cfg.mode == BucketOnlyMode then DeletingSchedule(s.policy, cfg, ev)
                  else GettingRepository(s.policy, cfg, ev), password)
  {
    hide Resolve, Fresh, BucketClaimConfig, BucketAccessConfig, Applied, BucketIn, Complete;
    UpToTheCredentials(k, s, cfg, password);
    AcceptedIffComplete(s.credentials.value.data);
    var granted := Granted(k, s, cfg);
    ev := Evidence(Asked(k, s, cfg).claim.value, granted.access.value, s.credentials.value,
                   BucketIn(s.credentials.value.data).bucket);
  }

  lemma ServesTheBucket(k: Setup, s: Store, cfg: Config, password: NewPassword)
    requires s.policy.presence == Live && Resolve(s.policy.spec, k.defaults) == Resolved(cfg)
    requires SaysReady(s.claim) && SaysReady(s.access)
    requires s.credentials.Some? && Complete(s.credentials.value.data) && cfg.mode == BucketOnlyMode
    ensures var (outcome, s') := Fresh(k, s, GettingPolicy, password);
            Provisions(k, s, cfg, password, outcome, s')
  {
    hide Resolve, Fresh, Reports, BucketClaimConfig, BucketAccessConfig, Applied, BucketOf, NamesOf, Complete;
    var ev := EvidenceIsComplete(k, s, cfg, password);
    FreshNext(k, Granted(k, s, cfg), DeletingSchedule(s.policy, cfg, ev), password);
    Concludes(k, s, Granted(k, s, cfg).(schedule := None), ServingBucket(ev), password);
  }

  // The three ways past the repository Secret, or not.
  lemma PastTheRepository(k: Setup, s: Store, granted: Store, cfg: Config, ev: Evidence, password: NewPassword)
    requires granted.repository == s.repository
    ensures var w := GettingRepository(s.policy, cfg, ev);
            if RepositoryRefused(s) then Fresh(k, granted, w, password) == (Errored, granted)
            else
              Fresh(k, granted, w, password) ==
              Fresh(k, granted.(repository := if s.repository.Some? then s.repository
                                              else Some(Secret(true, map[RepoPasswordKey := password]))),
                    ApplyingSchedule(s.policy, cfg, ev), password)
  {
    hide Fresh;
    var w := GettingRepository(s.policy, cfg, ev);
    FreshNext(k, granted, w, password);
    if RepositoryRefused(s) {
      FreshEnds(k, granted, Errored, password);
    } else if VisibleSecret(s.repository).None? {
      FreshNext(k, granted, CreatingRepository(s.policy, cfg, ev), password);
    } else {
      assert granted.(repository := s.repository) == granted;
    }
  }

  lemma BacksUpThePolicy(k: Setup, s: Store, cfg: Config, password: NewPassword)
    requires s.policy.presence == Live && Resolve(s.policy.spec, k.defaults) == Resolved(cfg)
    requires SaysReady(s.claim) && SaysReady(s.access)
    requires s.credentials.Some? && Complete(s.credentials.value.data) && cfg.mode != BucketOnlyMode
    ensures var (outcome, s') := Fresh(k, s, GettingPolicy, password);
            Provisions(k, s, cfg, password, outcome, s')
  {
    hide Resolve, Fresh, Reports, BucketClaimConfig, BucketAccessConfig, ScheduleConfig, Applied, BucketOf, NamesOf;
    hide Complete, RepositoryRefused;
    var ev := EvidenceIsComplete(k, s, cfg, password);
    var granted := Granted(k, s, cfg);
    PastTheRepository(k, s, granted, cfg, ev, password);
    if !RepositoryRefused(s) {
      var secured := granted.(repository := if s.repository.Some? then s.repository
                                            else Some(Secret(true, map[RepoPasswordKey := password])));
      FreshNext(k, secured, ApplyingSchedule(s.policy, cfg, ev), password);
      Concludes(k, s, BackedUp(k, s, cfg, ev.bucket, password), BackingUp(cfg, ev), password);
    }
  }

  // From every store, a reconcile with fresh reads does what the table says and nothing else.
  lemma {:induction false} ReconcileDecides(k: Setup, s: Store, password: NewPassword)
    ensures var (outcome, s') := Fresh(k, s, GettingPolicy, password);
            Decides(k, s, password, outcome, s')
  {
    hide Resolve, Fresh, Reports, Provisions, SaysReady, Complete, Asked, Granted, Fails;
    if s.policy.presence != Live || Resolve(s.policy.spec, k.defaults).NotActionable? {
      SkipsOrRejects(k, s, password);
    } else {
      var cfg := Resolve(s.policy.spec, k.defaults).cfg;
      if !SaysReady(s.claim) {
        WaitsForTheClaim(k, s, cfg, password);
      } else if !SaysReady(s.access) {
        WaitsForTheAccess(k, s, cfg, password);
      } else if s.credentials.None? || !Complete(s.credentials.value.data) {
        WaitsForTheCredentials(k, s, cfg, password);
      } else if cfg.mode == BucketOnlyMode {
        ServesTheBucket(k, s, cfg, password);
      } else {
        BacksUpThePolicy(k, s, cfg, password);
      }
    }
  }
}
