// One reconcile of a BackupPolicy, API call by API call
// (controllers/backuppolicy_controller_manager.go).
//
// The cluster is a value, the Store. A reconcile under way is a Worker: where it is, together
// with the locals it holds there. Attempt makes its next API call, reading through a View (what
// the manager's label-filtered cache currently holds) and writing to the Store.

module Reconciler {
  import opened Api
  import opened BucketSecret
  import opened Config
  import opened ServerSideApply
  import opened Objects
  import opened StatusView

  // ---------- The cluster ----------

  // What COSI reports on a claim or an access.
  datatype CosiStatus = CosiStatus(readyToUse: Option<bool>, boundBucket: string, error: Option<Option<string>>)

  const UNREPORTED := CosiStatus(None, "", None)

  // An applied object. A Schedule has no use for cosi, which stays UNREPORTED there.
  datatype Object = Object(fields: Fields, cosi: CosiStatus)

  // A Secret; managed says whether it carries ampulla's label.
  datatype Secret = Secret(managed: bool, data: SecretData)

  datatype Presence = Live | Deleting | Gone

  datatype Policy = Policy(presence: Presence, spec: Spec, generation: nat, status: Fields)

  datatype Store = Store(
    policy: Policy,
    claim: Option<Object>,
    access: Option<Object>,
    schedule: Option<Object>,
    repository: Option<Secret>,
    credentials: Option<Secret>)

  // What the cached reads of a reconcile return.
  datatype View = View(policy: Policy, claim: Option<Object>, access: Option<Object>, repository: Option<Secret>)

  // The label selector the cache is filtered on.
  predicate Managed(o: Object) {
    ManagedLabel in o.fields
  }

  function Visible(o: Option<Object>): Option<Object> {
    if o.Some? && Managed(o.value) then o else None
  }

  function VisibleSecret(s: Option<Secret>): Option<Secret> {
    if s.Some? && s.value.managed then s else None
  }

  // The view of a cache that has caught up.
  function FreshView(s: Store): View {
    View(s.policy, Visible(s.claim), Visible(s.access), VisibleSecret(s.repository))
  }

  // A forced apply creates the object if it is not there and leaves its status alone.
  function Applied(o: Option<Object>, config: Configuration): Option<Object> {
    match o
    case None => Some(Object(Apply(map[], config), UNREPORTED))
    case Some(found) => Some(found.(fields := Apply(found.fields, config)))
  }

  predicate IsReady(o: Object) {
    o.cosi.readyToUse == Some(true)
  }

  function Password(s: Secret): string {
    Read(s.data, RepoPasswordKey)
  }

  predicate HasPassword(s: Option<Secret>) {
    s.Some? && Password(s.value) != ""
  }

  // ---------- What a reconcile concludes ----------

  // What has to be seen before a policy can be Ready.
  datatype Evidence = Evidence(claim: Object, access: Object, credentials: Secret, bucket: Bucket)

  datatype Verdict =
    | Unactionable(unmet: seq<Requirement>)
    | AwaitClaim(claim: Object)
    | AwaitAccess(claim: Object, access: Object)
    | AwaitCredentials
    | ServingBucket(evidence: Evidence)
    | BackingUp(cfg: Config, evidence: Evidence)

  // The phase a reconcile ends in, with the status to report and the seconds until the next look.
  datatype PhaseResult = PhaseResult(phase: Phase, message: Message, status: Status, requeue: nat)

  const RESYNC_INTERVAL := 3600
  const CREDENTIALS_RETRY := 10

  // The last error COSI reported, if it said anything.
  function CosiError(o: Object): string {
    match o.cosi.error
    case Some(Some(message)) => message
    case _ => ""
  }

  function Coordinates(k: Setup, bucket: Bucket): Status {
    NO_STATUS.(bucket := bucket.id, endpoint := bucket.endpoint, credentialsSecret := NamesOf(k).credentialsSecret)
  }

  function PhaseOf(k: Setup, v: Verdict): PhaseResult {
    match v
    case Unactionable(unmet) => PhaseResult(Failed, Rejected(unmet), NO_STATUS, 0)
    case AwaitClaim(claim) => PhaseResult(Pending, AwaitingBucket(CosiError(claim)), NO_STATUS, 0)
    case AwaitAccess(claim, access) =>
      PhaseResult(Pending, AwaitingCredentials(CosiError(access)), NO_STATUS.(bucket := claim.cosi.boundBucket), 0)
    case AwaitCredentials => PhaseResult(Pending, AwaitingCredentials(""), NO_STATUS, CREDENTIALS_RETRY)
    case ServingBucket(ev) =>
      PhaseResult(Ready, ServesBucket(ev.bucket.id), Coordinates(k, ev.bucket), RESYNC_INTERVAL)
    case BackingUp(cfg, ev) =>
      PhaseResult(Ready, BacksUpTo(ev.bucket.id, ev.bucket.endpoint),
                  Coordinates(k, ev.bucket).(schedule := cfg.schedules.backup), RESYNC_INTERVAL)
  }

  function Wanted(phase: PhaseResult, generation: nat): Status {
    phase.status.(phase := phase.phase, message := phase.message, observedGeneration := generation)
  }

  // The status a reconcile of this policy wants to see on it.
  function WantOf(k: Setup, p: Policy, v: Verdict): Status {
    Wanted(PhaseOf(k, v), p.generation)
  }

  datatype Outcome = Skipped | Errored | Reported(policy: Policy, verdict: Verdict)

  // ---------- The protocol of calls ----------

  datatype Worker =
    | GettingPolicy
    | ApplyingClaim(p: Policy, cfg: Config)
    | GettingClaim(p: Policy, cfg: Config)
    | ApplyingAccess(p: Policy, cfg: Config, claim: Object)
    | GettingAccess(p: Policy, cfg: Config, claim: Object)
    | GettingCredentials(p: Policy, cfg: Config, claim: Object, access: Object)
    | DeletingSchedule(p: Policy, cfg: Config, ev: Evidence)
    | GettingRepository(p: Policy, cfg: Config, ev: Evidence)
    | CreatingRepository(p: Policy, cfg: Config, ev: Evidence)
    | ApplyingSchedule(p: Policy, cfg: Config, ev: Evidence)
    | Reporting(p: Policy, verdict: Verdict)
    | Finished(outcome: Outcome)

  function AfterPolicy(k: Setup, p: Policy): Worker {
    if p.presence != Live then Finished(Skipped)
    else
      match Resolve(p.spec, k.defaults)
      case NotActionable(unmet) => Reporting(p, Unactionable(unmet))
      case Resolved(cfg) => ApplyingClaim(p, cfg)
  }

  function AfterClaim(p: Policy, cfg: Config, seen: Option<Object>): Worker {
    match seen
    case None => Finished(Errored)
    case Some(claim) => if IsReady(claim) then ApplyingAccess(p, cfg, claim) else Reporting(p, AwaitClaim(claim))
  }

  function AfterAccess(p: Policy, cfg: Config, claim: Object, seen: Option<Object>): Worker {
    match seen
    case None => Finished(Errored)
    case Some(access) =>
      if IsReady(access) then GettingCredentials(p, cfg, claim, access)
      else Reporting(p, AwaitAccess(claim, access))
  }

  function AfterCredentials(p: Policy, cfg: Config, claim: Object, access: Object, seen: Option<Secret>): Worker {
    match seen
    case None => Reporting(p, AwaitCredentials)
    case Some(secret) =>
      match BucketIn(secret.data)
      case Usable(bucket) =>
        var ev := Evidence(claim, access, secret, bucket);
        if cfg.mode == BucketOnlyMode then DeletingSchedule(p, cfg, ev) else GettingRepository(p, cfg, ev)
      case _ => Finished(Errored)
  }

  function AfterRepository(p: Policy, cfg: Config, ev: Evidence, seen: Option<Secret>): Worker {
    match seen
    case None => CreatingRepository(p, cfg, ev)
    case Some(secret) => if Password(secret) == "" then Finished(Errored) else ApplyingSchedule(p, cfg, ev)
  }

  // A report that would change nothing the reconcile can see is not made.
  predicate IsSilent(k: Setup, w: Worker) {
    w.Reporting? && ReadStatus(w.p.status) == WantOf(k, w.p, w.verdict)
  }

  // A generated password: base64 of 32 random bytes, in any case not empty.
  type NewPassword = s: string | s != "" witness "x"

  // The next API call, made and answered.
  function Attempt(k: Setup, s: Store, v: View, w: Worker, password: NewPassword): (Worker, Store) {
    match w
    case GettingPolicy =>
      (AfterPolicy(k, v.policy), s)
    case ApplyingClaim(p, cfg) =>
      (GettingClaim(p, cfg), s.(claim := Applied(s.claim, BucketClaimConfig(k, cfg))))
    case GettingClaim(p, cfg) =>
      (AfterClaim(p, cfg, v.claim), s)
    case ApplyingAccess(p, cfg, claim) =>
      (GettingAccess(p, cfg, claim), s.(access := Applied(s.access, BucketAccessConfig(k, cfg))))
    case GettingAccess(p, cfg, claim) =>
      (AfterAccess(p, cfg, claim, v.access), s)
    case GettingCredentials(p, cfg, claim, access) =>
      (AfterCredentials(p, cfg, claim, access, s.credentials), s)
    case DeletingSchedule(p, cfg, ev) =>
      (Reporting(p, ServingBucket(ev)), s.(schedule := None))
    case GettingRepository(p, cfg, ev) =>
      (AfterRepository(p, cfg, ev, v.repository), s)
    case CreatingRepository(p, cfg, ev) =>
      (ApplyingSchedule(p, cfg, ev),
       if s.repository.Some? then s else s.(repository := Some(Secret(true, map[RepoPasswordKey := password]))))
    case ApplyingSchedule(p, cfg, ev) =>
      (Reporting(p, BackingUp(cfg, ev)), s.(schedule := Applied(s.schedule, ScheduleConfig(k, cfg, ev.bucket))))
    case Reporting(p, verdict) =>
      if IsSilent(k, w) then (Finished(Reported(p, verdict)), s)
      else if s.policy.presence == Gone then (Finished(Errored), s)
      else
        (Finished(Reported(p, verdict)),
         s.(policy := s.policy.(status := Apply(s.policy.status, StatusConfig(WantOf(k, p, verdict))))))
    case Finished(outcome) =>
      (w, s)
  }

  // A call may fail without having been made, or be made and have its answer lost. Either way
  // the reconcile gives up.
  datatype Fault = NoFault | NotMade | AnswerLost

  function Call(k: Setup, s: Store, v: View, w: Worker, fault: Fault, password: NewPassword): (Worker, Store) {
    var (w', s') := Attempt(k, s, v, w, password);
    if w.Finished? || IsSilent(k, w) then (w', s')
    else
      match fault
      case NoFault => (w', s')
      case NotMade => (Finished(Errored), s)
      case AnswerLost => (Finished(Errored), s')
  }

  // How many calls a reconcile can still make.
  function Remaining(w: Worker): nat {
    match w
    case GettingPolicy => 11
    case ApplyingClaim(_, _) => 10
    case GettingClaim(_, _) => 9
    case ApplyingAccess(_, _, _) => 8
    case GettingAccess(_, _, _) => 7
    case GettingCredentials(_, _, _, _) => 6
    case DeletingSchedule(_, _, _) => 2
    case GettingRepository(_, _, _) => 5
    case CreatingRepository(_, _, _) => 4
    case ApplyingSchedule(_, _, _) => 3
    case Reporting(_, _) => 1
    case Finished(_) => 0
  }

  lemma AttemptProgresses(k: Setup, s: Store, v: View, w: Worker, password: NewPassword)
    requires !w.Finished?
    ensures Remaining(Attempt(k, s, v, w, password).0) < Remaining(w)
  {
    hide Resolve, BucketIn, BucketClaimConfig, BucketAccessConfig, ScheduleConfig, StatusConfig, WantOf, ReadStatus;
  }

  // A whole reconcile with fresh reads, nobody in between and no failing call.
  function Fresh(k: Setup, s: Store, w: Worker, password: NewPassword): (r: (Outcome, Store))
    decreases Remaining(w)
  {
    if w.Finished? then (w.outcome, s)
    else
      AttemptProgresses(k, s, FreshView(s), w, password);
      var (w', s') := Attempt(k, s, FreshView(s), w, password);
      Fresh(k, s', w', password)
  }
}
