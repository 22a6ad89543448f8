// What a reconcile under way knows: about its own inputs, about the watched objects, and about
// the two Secrets nothing watches.

module Tracking {
  import opened Api
  import opened BucketSecret
  import opened Config
  import opened ServerSideApply
  import opened Objects
  import opened ScheduleView
  import opened StatusView
  import opened Reconciler

  // ---------- Justified: true of a reconcile whatever happens around it ----------

  predicate Resolves(k: Setup, p: Policy, cfg: Config) {
    p.presence == Live && Resolve(p.spec, k.defaults) == Resolved(cfg)
  }

  // Everything was seen that has to be there before a policy can be Ready.
  predicate Proven(ev: Evidence) {
    && IsReady(ev.claim)
    && IsReady(ev.access)
    && BucketIn(ev.credentials.data) == Usable(ev.bucket)
  }

  predicate JustifiedVerdict(k: Setup, p: Policy, v: Verdict) {
    match v
    case Unactionable(unmet) => p.presence == Live && Resolve(p.spec, k.defaults) == NotActionable(unmet)
    case AwaitClaim(claim) => p.presence == Live && Resolve(p.spec, k.defaults).Resolved? && !IsReady(claim)
    case AwaitAccess(claim, access) =>
      p.presence == Live && Resolve(p.spec, k.defaults).Resolved? && IsReady(claim) && !IsReady(access)
    case AwaitCredentials => p.presence == Live && Resolve(p.spec, k.defaults).Resolved?
    case ServingBucket(ev) =>
      && p.presence == Live && Resolve(p.spec, k.defaults).Resolved?
      && Resolve(p.spec, k.defaults).cfg.mode == BucketOnlyMode
      && Proven(ev)
    case BackingUp(cfg, ev) => Resolves(k, p, cfg) && cfg.mode != BucketOnlyMode && Proven(ev)
  }

  predicate Justified(k: Setup, w: Worker) {
    match w
    case GettingPolicy => true
    case ApplyingClaim(p, cfg) => Resolves(k, p, cfg)
    case GettingClaim(p, cfg) => Resolves(k, p, cfg)
    case ApplyingAccess(p, cfg, claim) => Resolves(k, p, cfg) && IsReady(claim)
    case GettingAccess(p, cfg, claim) => Resolves(k, p, cfg) && IsReady(claim)
    case GettingCredentials(p, cfg, claim, access) => Resolves(k, p, cfg) && IsReady(claim) && IsReady(access)
    case DeletingSchedule(p, cfg, ev) => Resolves(k, p, cfg) && Proven(ev) && cfg.mode == BucketOnlyMode
    case GettingRepository(p, cfg, ev) => Resolves(k, p, cfg) && Proven(ev) && cfg.mode != BucketOnlyMode
    case CreatingRepository(p, cfg, ev) => Resolves(k, p, cfg) && Proven(ev) && cfg.mode != BucketOnlyMode
    case ApplyingSchedule(p, cfg, ev) => Resolves(k, p, cfg) && Proven(ev) && cfg.mode != BucketOnlyMode
    case Reporting(p, v) => JustifiedVerdict(k, p, v)
    case Finished(outcome) => outcome.Reported? ==> JustifiedVerdict(k, outcome.policy, outcome.verdict)
  }

  lemma {:induction false} AttemptJustified(k: Setup, s: Store, v: View, w: Worker, password: NewPassword)
    requires Justified(k, w)
    ensures Justified(k, Attempt(k, s, v, w, password).0)
  {
    hide Resolve, BucketIn, BucketClaimConfig, BucketAccessConfig, ScheduleConfig, StatusConfig, WantOf, ReadStatus;
    hide Applied, IsSilent;
  }

  lemma CallJustified(k: Setup, s: Store, v: View, w: Worker, fault: Fault, password: NewPassword)
    requires Justified(k, w)
    ensures Justified(k, Call(k, s, v, w, fault, password).0)
  {
    hide Attempt, Resolve, BucketIn, IsSilent;
    AttemptJustified(k, s, v, w, password);
  }

  // COSI has said so.
  predicate SaidReady(o: Object) {
    o.cosi.readyToUse == Some(true)
  }

  // Whoever has come past the claim has seen COSI call it ready, and the same of the access; whoever
  // waits for one has seen that it does not.
  lemma {:induction false} NobodyRunsAhead(k: Setup, w: Worker)
    requires Justified(k, w)
    ensures match w
            case ApplyingAccess(_, _, claim) => SaidReady(claim)
            case GettingAccess(_, _, claim) => SaidReady(claim)
            case GettingCredentials(_, _, claim, access) => SaidReady(claim) && SaidReady(access)
            case DeletingSchedule(_, _, ev) => SaidReady(ev.claim) && SaidReady(ev.access)
            case GettingRepository(_, _, ev) => SaidReady(ev.claim) && SaidReady(ev.access)
            case CreatingRepository(_, _, ev) => SaidReady(ev.claim) && SaidReady(ev.access)
            case ApplyingSchedule(_, _, ev) => SaidReady(ev.claim) && SaidReady(ev.access)
            case Reporting(_, AwaitClaim(claim)) => !SaidReady(claim)
            case Reporting(_, AwaitAccess(claim, access)) => SaidReady(claim) && !SaidReady(access)
            case Reporting(_, ServingBucket(ev)) => SaidReady(ev.claim) && SaidReady(ev.access)
            case Reporting(_, BackingUp(_, ev)) => SaidReady(ev.claim) && SaidReady(ev.access)
            case _ => true
  {
    hide Resolve, BucketIn;
  }

  // ---------- OnTrack: a fresh reconcile would come the same way ----------

  predicate Settled(o: Option<Object>, config: Configuration) {
    Applied(o, config) == o
  }

  predicate ClaimSettled(k: Setup, s: Store, cfg: Config) {
    Settled(s.claim, BucketClaimConfig(k, cfg)) && Visible(s.claim) == s.claim
  }

  predicate AccessSettled(k: Setup, s: Store, cfg: Config) {
    Settled(s.access, BucketAccessConfig(k, cfg)) && Visible(s.access) == s.access
  }

  predicate ScheduleSettled(k: Setup, s: Store, cfg: Config, bucket: Bucket) {
    Settled(s.schedule, ScheduleConfig(k, cfg, bucket)) && Visible(s.schedule) == s.schedule
  }

  // The policy read is the one stored, up to the status the reconcile itself reports.
  predicate HasPolicy(k: Setup, s: Store, p: Policy, cfg: Config) {
    Resolves(k, p, cfg) && p.(status := s.policy.status) == s.policy
  }

  predicate HasClaim(k: Setup, s: Store, p: Policy, cfg: Config, claim: Object) {
    HasPolicy(k, s, p, cfg) && ClaimSettled(k, s, cfg) && s.claim == Some(claim)
  }

  predicate HasAccess(k: Setup, s: Store, p: Policy, cfg: Config, claim: Object, access: Object) {
    HasClaim(k, s, p, cfg, claim) && IsReady(claim) && AccessSettled(k, s, cfg) && s.access == Some(access)
  }

  predicate HasEvidence(k: Setup, s: Store, p: Policy, cfg: Config, ev: Evidence) {
    HasAccess(k, s, p, cfg, ev.claim, ev.access) && Proven(ev)
  }

  function ConfigOf(k: Setup, p: Policy): Config
    requires Resolve(p.spec, k.defaults).Resolved?
  {
    Resolve(p.spec, k.defaults).cfg
  }

  predicate VerdictOnTrack(k: Setup, s: Store, p: Policy, v: Verdict) {
    && p.(status := s.policy.status) == s.policy
    && JustifiedVerdict(k, p, v)
    && match v
       case Unactionable(_) => true
       case AwaitClaim(claim) => HasClaim(k, s, p, ConfigOf(k, p), claim)
       case AwaitAccess(claim, access) => HasAccess(k, s, p, ConfigOf(k, p), claim, access)
       case AwaitCredentials =>
         && s.claim.Some? && s.access.Some? && IsReady(s.access.value)
         && HasAccess(k, s, p, ConfigOf(k, p), s.claim.value, s.access.value)
       case ServingBucket(ev) => HasEvidence(k, s, p, ConfigOf(k, p), ev) && Visible(s.schedule) == None
       case BackingUp(cfg, ev) => HasEvidence(k, s, p, cfg, ev) && ScheduleSettled(k, s, cfg, ev.bucket)
  }

  // Reporting this verdict again would change nothing.
  predicate StatusSettled(f: Fields, want: Status) {
    ReadStatus(f) == want || Apply(f, StatusConfig(want)) == f
  }

  predicate OnTrack(k: Setup, s: Store, w: Worker) {
    && Justified(k, w)
    && match w
       case GettingPolicy => true
       case ApplyingClaim(p, cfg) => p == s.policy && HasPolicy(k, s, p, cfg)
       case GettingClaim(p, cfg) => p == s.policy && HasPolicy(k, s, p, cfg) && ClaimSettled(k, s, cfg)
       case ApplyingAccess(p, cfg, claim) => p == s.policy && HasClaim(k, s, p, cfg, claim)
       case GettingAccess(p, cfg, claim) => p == s.policy && HasClaim(k, s, p, cfg, claim) && AccessSettled(k, s, cfg)
       case GettingCredentials(p, cfg, claim, access) => p == s.policy && HasAccess(k, s, p, cfg, claim, access)
       case DeletingSchedule(p, cfg, ev) => p == s.policy && HasEvidence(k, s, p, cfg, ev)
       case GettingRepository(p, cfg, ev) => p == s.policy && HasEvidence(k, s, p, cfg, ev)
       case CreatingRepository(p, cfg, ev) => p == s.policy && HasEvidence(k, s, p, cfg, ev)
       case ApplyingSchedule(p, cfg, ev) => p == s.policy && HasEvidence(k, s, p, cfg, ev)
       case Reporting(p, v) => p == s.policy && VerdictOnTrack(k, s, p, v)
       case Finished(Reported(p, v)) =>
         VerdictOnTrack(k, s, p, v) && StatusSettled(s.policy.status, WantOf(k, p, v))
       case Finished(Skipped) => s.policy.presence != Live
       case Finished(Errored) => true
  }

  lemma AppliedIsSettled(o: Option<Object>, config: Configuration)
    ensures Settled(Applied(o, config), config)
    ensures ManagedLabel in config ==> Visible(Applied(o, config)) == Applied(o, config)
  {
    match o
    case None => ApplyIdempotent(map[], config);
    case Some(found) => ApplyIdempotent(found.fields, config);
  }

  // A view that agrees with the store on everything that is watched.
  predicate SeesWatched(s: Store, v: View) {
    v.policy == s.policy && v.claim == Visible(s.claim) && v.access == Visible(s.access)
  }

  lemma ReadStaysOnTrack(k: Setup, s: Store, v: View, w: Worker, password: NewPassword)
    requires OnTrack(k, s, w) && SeesWatched(s, v)
    requires w.GettingPolicy? || w.GettingClaim? || w.GettingAccess? || w.GettingCredentials? || w.GettingRepository?
    ensures Attempt(k, s, v, w, password).1 == s
    ensures OnTrack(k, s, Attempt(k, s, v, w, password).0)
  {
    hide Resolve, BucketIn, BucketClaimConfig, BucketAccessConfig, ScheduleConfig, StatusConfig, WantOf, ReadStatus;
    hide Settled, Applied, Apply, IsReady;
    AttemptJustified(k, s, v, w, password);
  }

  lemma ApplyStaysOnTrack(k: Setup, s: Store, v: View, w: Worker, password: NewPassword)
    requires OnTrack(k, s, w)
    requires w.ApplyingClaim? || w.ApplyingAccess? || w.ApplyingSchedule? || w.DeletingSchedule?
             || w.CreatingRepository?
    ensures var (w', s') := Attempt(k, s, v, w, password);
            OnTrack(k, s', w')
  {
    hide Resolve, BucketIn, BucketClaimConfig, BucketAccessConfig, ScheduleConfig, StatusConfig, WantOf, ReadStatus;
    hide Settled, Applied, Apply, IsReady;
    AttemptJustified(k, s, v, w, password);
    ConfigsAreLabelled(k, w.cfg, if w.ApplyingSchedule? then w.ev.bucket else Bucket("", "", ""));
    match w
    case ApplyingClaim(p, cfg) => AppliedIsSettled(s.claim, BucketClaimConfig(k, cfg));
    case ApplyingAccess(p, cfg, claim) => AppliedIsSettled(s.access, BucketAccessConfig(k, cfg));
    case ApplyingSchedule(p, cfg, ev) => AppliedIsSettled(s.schedule, ScheduleConfig(k, cfg, ev.bucket));
    case _ =>
  }

  lemma ReportStaysOnTrack(k: Setup, s: Store, v: View, w: Worker, password: NewPassword)
    requires OnTrack(k, s, w) && w.Reporting?
    ensures var (w', s') := Attempt(k, s, v, w, password);
            OnTrack(k, s', w')
  {
    hide Resolve, BucketIn, BucketClaimConfig, BucketAccessConfig, ScheduleConfig, StatusConfig, WantOf, ReadStatus;
    hide Settled, Applied, Apply, IsReady;
    AttemptJustified(k, s, v, w, password);
    ApplyIdempotent(s.policy.status, StatusConfig(WantOf(k, w.p, w.verdict)));
  }

  // One more call, made on a view that sees the watched objects as they are, keeps it so.
  lemma AttemptStaysOnTrack(k: Setup, s: Store, v: View, w: Worker, password: NewPassword)
    requires OnTrack(k, s, w) && SeesWatched(s, v)
    ensures var (w', s') := Attempt(k, s, v, w, password);
            OnTrack(k, s', w')
  {
    hide OnTrack, Attempt;
    match w
    case ApplyingClaim(_, _) => ApplyStaysOnTrack(k, s, v, w, password);
    case ApplyingAccess(_, _, _) => ApplyStaysOnTrack(k, s, v, w, password);
    case ApplyingSchedule(_, _, _) => ApplyStaysOnTrack(k, s, v, w, password);
    case DeletingSchedule(_, _, _) => ApplyStaysOnTrack(k, s, v, w, password);
    case CreatingRepository(_, _, _) => ApplyStaysOnTrack(k, s, v, w, password);
    case Reporting(_, _) => ReportStaysOnTrack(k, s, v, w, password);
    case Finished(_) => FinishedStays(k, s, v, w, password);
    case _ => ReadStaysOnTrack(k, s, v, w, password);
  }

  lemma FinishedStays(k: Setup, s: Store, v: View, w: Worker, password: NewPassword)
    requires w.Finished?
    ensures Attempt(k, s, v, w, password) == (w, s)
  {
  }

  // ---------- UpToDate: the Secrets, which nothing watches, are still as they were seen ----------

  // A repository password that a fresh read accepts, or an unlabelled Secret it cannot see.
  predicate RepositoryAccepted(s: Store) {
    s.repository.Some? && (s.repository.value.managed ==> Password(s.repository.value) != "")
  }

  predicate VerdictUpToDate(s: Store, v: Verdict) {
    match v
    case AwaitCredentials => s.credentials == None
    case ServingBucket(ev) => s.credentials == Some(ev.credentials) && s.schedule == None
    case BackingUp(_, ev) => s.credentials == Some(ev.credentials) && RepositoryAccepted(s)
    case _ => true
  }

  predicate UpToDate(s: Store, w: Worker) {
    match w
    case DeletingSchedule(_, _, ev) => s.credentials == Some(ev.credentials)
    case GettingRepository(_, _, ev) => s.credentials == Some(ev.credentials)
    case CreatingRepository(_, _, ev) => s.credentials == Some(ev.credentials) && VisibleSecret(s.repository) == None
    case ApplyingSchedule(_, _, ev) => s.credentials == Some(ev.credentials) && RepositoryAccepted(s)
    case Reporting(_, v) => VerdictUpToDate(s, v)
    case Finished(Reported(_, v)) => VerdictUpToDate(s, v)
    case _ => true
  }

  lemma AttemptStaysUpToDate(k: Setup, s: Store, w: Worker, password: NewPassword)
    requires UpToDate(s, w)
    ensures var (w', s') := Attempt(k, s, FreshView(s), w, password);
            UpToDate(s', w')
  {
    hide Resolve, BucketIn, BucketClaimConfig, BucketAccessConfig, ScheduleConfig, StatusConfig, WantOf, ReadStatus;
    hide Applied, Apply, IsReady;
  }

  // ---------- Fresh reconciles ----------

  lemma {:induction false} FreshStaysOnTrack(k: Setup, s: Store, w: Worker, password: NewPassword)
    requires OnTrack(k, s, w) && UpToDate(s, w)
    ensures var (outcome, s') := Fresh(k, s, w, password);
            OnTrack(k, s', Finished(outcome)) && UpToDate(s', Finished(outcome))
    decreases Remaining(w)
  {
    hide OnTrack, UpToDate, Attempt;
    if !w.Finished? {
      AttemptProgresses(k, s, FreshView(s), w, password);
      AttemptStaysOnTrack(k, s, FreshView(s), w, password);
      AttemptStaysUpToDate(k, s, w, password);
      var (w', s') := Attempt(k, s, FreshView(s), w, password);
      FreshStaysOnTrack(k, s', w', password);
    }
  }

  lemma FreshStep(k: Setup, s: Store, w: Worker, w': Worker, password: NewPassword)
    requires !w.Finished? && Attempt(k, s, FreshView(s), w, password) == (w', s)
    ensures Fresh(k, s, w, password) == Fresh(k, s, w', password)
  {
    hide Attempt;
  }
}
