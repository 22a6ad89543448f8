// A reconcile that has nothing left to do does nothing.

module Idempotence {
  import opened Api
  import opened BucketSecret
  import opened Config
  import opened ServerSideApply
  import opened Objects
  import opened StatusView
  import opened Reconciler
  import opened Tracking

  // Once the policy resolves, the applies find everything in place up to the claim.
  lemma ThroughClaim(k: Setup, s: Store, cfg: Config, claim: Object, password: NewPassword)
    requires HasClaim(k, s, s.policy, cfg, claim)
    ensures Fresh(k, s, GettingPolicy, password) == Fresh(k, s, AfterClaim(s.policy, cfg, Some(claim)), password)
  {
    hide Resolve, BucketClaimConfig, Applied, IsReady;
    var p := s.policy;
    FreshStep(k, s, GettingPolicy, ApplyingClaim(p, cfg), password);
    FreshStep(k, s, ApplyingClaim(p, cfg), GettingClaim(p, cfg), password);
    FreshStep(k, s, GettingClaim(p, cfg), AfterClaim(p, cfg, Some(claim)), password);
  }

  lemma ThroughAccess(k: Setup, s: Store, cfg: Config, claim: Object, access: Object, password: NewPassword)
    requires HasAccess(k, s, s.policy, cfg, claim, access)
    ensures Fresh(k, s, GettingPolicy, password) ==
            Fresh(k, s, AfterAccess(s.policy, cfg, claim, Some(access)), password)
  {
    hide Resolve, BucketAccessConfig, Applied;
    var p := s.policy;
    ThroughClaim(k, s, cfg, claim, password);
    FreshStep(k, s, ApplyingAccess(p, cfg, claim), GettingAccess(p, cfg, claim), password);
    FreshStep(k, s, GettingAccess(p, cfg, claim), AfterAccess(p, cfg, claim, Some(access)), password);
  }

  lemma ThroughCredentials(k: Setup, s: Store, cfg: Config, ev: Evidence, password: NewPassword)
    requires HasEvidence(k, s, s.policy, cfg, ev) && s.credentials == Some(ev.credentials)
    ensures Fresh(k, s, GettingPolicy, password) ==
            Fresh(k, s, if cfg.mode == BucketOnlyMode then DeletingSchedule(s.policy, cfg, ev)
                        else GettingRepository(s.policy, cfg, ev), password)
  {
    hide Resolve, BucketIn, Settled, Visible;
    var p := s.policy;
    ThroughAccess(k, s, cfg, ev.claim, ev.access, password);
    FreshStep(k, s, GettingCredentials(p, cfg, ev.claim, ev.access),
              AfterCredentials(p, cfg, ev.claim, ev.access, s.credentials), password);
  }

  lemma ThroughRepository(k: Setup, s: Store, cfg: Config, ev: Evidence, password: NewPassword)
    requires HasEvidence(k, s, s.policy, cfg, ev) && s.credentials == Some(ev.credentials)
    requires cfg.mode != BucketOnlyMode && RepositoryAccepted(s)
    ensures Fresh(k, s, GettingPolicy, password) == Fresh(k, s, ApplyingSchedule(s.policy, cfg, ev), password)
  {
    hide HasEvidence, Password;
    var p := s.policy;
    ThroughCredentials(k, s, cfg, ev, password);
    FreshStep(k, s, GettingRepository(p, cfg, ev), AfterRepository(p, cfg, ev, VisibleSecret(s.repository)), password);
    if !s.repository.value.managed {
      FreshStep(k, s, CreatingRepository(p, cfg, ev), ApplyingSchedule(p, cfg, ev), password);
    }
  }

  lemma ReportIsSettled(k: Setup, s: Store, v: Verdict, password: NewPassword)
    requires s.policy.presence == Live && StatusSettled(s.policy.status, WantOf(k, s.policy, v))
    ensures Fresh(k, s, Reporting(s.policy, v), password) == (Reported(s.policy, v), s)
  {
    hide WantOf, ReadStatus, StatusConfig, Apply;
    FreshStep(k, s, Reporting(s.policy, v), Finished(Reported(s.policy, v)), password);
  }

  lemma WaitingComesBack(k: Setup, s: Store, v: Verdict, password: NewPassword)
    requires VerdictOnTrack(k, s, s.policy, v) && VerdictUpToDate(s, v)
    requires !v.ServingBucket? && !v.BackingUp?
    ensures Fresh(k, s, GettingPolicy, password) == Fresh(k, s, Reporting(s.policy, v), password)
  {
    hide Resolve, BucketIn, StatusSettled, HasClaim, HasAccess, HasEvidence, IsReady, Fresh;
    hide BucketClaimConfig, BucketAccessConfig, ScheduleConfig, Applied, IsSilent;
    var q := s.policy;
    match v
    case Unactionable(unmet) =>
      FreshStep(k, s, GettingPolicy, Reporting(q, v), password);
    case AwaitClaim(claim) =>
      ThroughClaim(k, s, ConfigOf(k, q), claim, password);
    case AwaitAccess(claim, access) =>
      ThroughAccess(k, s, ConfigOf(k, q), claim, access, password);
    case AwaitCredentials =>
      var cfg := ConfigOf(k, q);
      ThroughAccess(k, s, cfg, s.claim.value, s.access.value, password);
      FreshStep(k, s, GettingCredentials(q, cfg, s.claim.value, s.access.value), Reporting(q, v), password);
  }

  lemma ServingComesBack(k: Setup, s: Store, v: Verdict, password: NewPassword)
    requires VerdictOnTrack(k, s, s.policy, v) && VerdictUpToDate(s, v) && v.ServingBucket?
    ensures Fresh(k, s, GettingPolicy, password) == Fresh(k, s, Reporting(s.policy, v), password)
  {
    hide Resolve, StatusSettled, HasEvidence, Fresh;
    var cfg := ConfigOf(k, s.policy);
    ThroughCredentials(k, s, cfg, v.evidence, password);
    FreshStep(k, s, DeletingSchedule(s.policy, cfg, v.evidence), Reporting(s.policy, v), password);
  }

  lemma BackingUpComesBack(k: Setup, s: Store, v: Verdict, password: NewPassword)
    requires VerdictOnTrack(k, s, s.policy, v) && VerdictUpToDate(s, v) && v.BackingUp?
    ensures Fresh(k, s, GettingPolicy, password) == Fresh(k, s, Reporting(s.policy, v), password)
  {
    hide Resolve, StatusSettled, HasEvidence, ScheduleSettled, RepositoryAccepted, Fresh;
    ThroughRepository(k, s, v.cfg, v.evidence, password);
    ApplyingIsSettled(k, s, v.cfg, v.evidence, password);
  }

  lemma SameVerdict(k: Setup, s: Store, p: Policy, v: Verdict)
    requires VerdictOnTrack(k, s, p, v)
    ensures VerdictOnTrack(k, s, s.policy, v) && WantOf(k, p, v) == WantOf(k, s.policy, v)
    ensures s.policy.presence == Live
  {
    hide Resolve, BucketIn, Settled, Visible, IsReady;
    var q := s.policy;
    assert q.spec == p.spec && q.presence == p.presence && q.generation == p.generation;
  }

  // Where a reconcile came to a conclusion and nothing has changed since, a fresh reconcile comes
  // to the same conclusion and leaves the store as it is.
  lemma FixedPoint(k: Setup, s: Store, p: Policy, v: Verdict, password: NewPassword)
    requires OnTrack(k, s, Finished(Reported(p, v))) && VerdictUpToDate(s, v)
    ensures Fresh(k, s, GettingPolicy, password) == (Reported(s.policy, v), s)
  {
    hide Fresh, VerdictOnTrack, VerdictUpToDate, WantOf, StatusSettled;
    SameVerdict(k, s, p, v);
    match v {
      case ServingBucket(_) => ServingComesBack(k, s, v, password);
      case BackingUp(_, _) => BackingUpComesBack(k, s, v, password);
      case _ => WaitingComesBack(k, s, v, password);
    }
    ReportIsSettled(k, s, v, password);
  }

  lemma ApplyingIsSettled(k: Setup, s: Store, cfg: Config, ev: Evidence, password: NewPassword)
    requires ScheduleSettled(k, s, cfg, ev.bucket)
    ensures Fresh(k, s, ApplyingSchedule(s.policy, cfg, ev), password) ==
            Fresh(k, s, Reporting(s.policy, BackingUp(cfg, ev)), password)
  {
    hide ScheduleConfig, Applied;
    FreshStep(k, s, ApplyingSchedule(s.policy, cfg, ev), Reporting(s.policy, BackingUp(cfg, ev)), password);
  }

  // From any store, a second successful reconcile leaves it as the first did and concludes the
  // same, whichever password either would have generated.
  lemma {:induction false} ReconcileIsIdempotent(k: Setup, s: Store, password: NewPassword, password': NewPassword)
    requires Fresh(k, s, GettingPolicy, password).0 != Errored
    ensures var (first, s1) := Fresh(k, s, GettingPolicy, password);
            var (second, s2) := Fresh(k, s1, GettingPolicy, password');
            && s2 == s1
            && second == match first case Reported(_, v) => Reported(s1.policy, v) case _ => Skipped
  {
    hide Attempt, OnTrack;
    assert OnTrack(k, s, GettingPolicy) by { TrackStart(k, s); }
    FreshStaysOnTrack(k, s, GettingPolicy, password);
    var (first, s1) := Fresh(k, s, GettingPolicy, password);
    match first
    case Reported(p, v) =>
      FixedPoint(k, s1, p, v, password');
    case Skipped =>
      SkippedIsFixed(k, s1, password');
  }

  lemma TrackStart(k: Setup, s: Store)
    ensures OnTrack(k, s, GettingPolicy)
  {
  }

  lemma SkippedIsFixed(k: Setup, s: Store, password: NewPassword)
    requires OnTrack(k, s, Finished(Skipped))
    ensures Fresh(k, s, GettingPolicy, password) == (Skipped, s)
  {
    hide Resolve;
    FreshStep(k, s, GettingPolicy, Finished(Skipped), password);
  }
}
