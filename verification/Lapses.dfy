// Three things that can go wrong, each as a run from the very beginning.

module Lapses {
  import opened Api
  import opened BucketSecret
  import opened Config
  import opened ServerSideApply
  import opened Objects
  import opened StatusView
  import opened Reconciler
  import opened Tracking
  import opened Idempotence
  import opened Convergence
  import opened Protocol
  import opened Truth
  import opened FreshRuns
  import opened FilteredCache
  import opened Racing
  import opened Agreement

  // ---------- From the start to a policy that is backed up ----------

  predicate IsToBackUp(k: Setup, s: Store) {
    Feasible(k, s) && s.policy.spec.mode != BucketOnlyMode
  }

  // After some rounds the policy is Ready, and everybody knows.
  predicate BackedUp(k: Setup, y: System) {
    && Synced(y) && y.slot.Idle?
    && IsToBackUp(k, y.store) && Missing(y.store) == 0
    && StatusOf(y).phase == Ready && ObservedGeneration(y) == y.store.policy.generation
  }

  lemma {:induction false} GetsBackedUp(k: Setup, x: Provision, y: System, password: NewPassword)
    returns (steps: seq<Step>)
    requires Init(y) && IsToBackUp(k, y.store) && Fulfils(x)
    ensures AllSmooth(steps) && BackedUp(k, Run(k, y, steps))
  {
    hide Run, Synced, Feasible, Rounds, ReadStatus, OnlyAmpulla, Missing;
    InitIsSynced(y);
    var n := ConvergesAndStays(k, x, y.store, password);
    steps := RoundsAreARun(k, x, y, password, n);
  }

  lemma InitIsSynced(y: System)
    requires Init(y)
    ensures Synced(y) && y.slot.Idle? && OnlyAmpulla(y.store.policy.status)
  {
    hide CrdValid, Visible, VisibleSecret;
  }

  // ---------- A reconcile up to its report ----------

  // Everything watched has been told. The repository Secret is cached, but not watched.
  predicate WatchesTold(y: System) {
    && InStep(y)
    && y.caches.policy.pending == []
    && y.caches.claim.pending == []
    && y.caches.access.pending == []
    && y.caches.schedule.pending == []
  }

  const WATCHES: seq<Step> := [Deliver(PolicyWatch), Deliver(ClaimWatch), Deliver(AccessWatch), Deliver(ScheduleWatch)]

  lemma TellWatches(k: Setup, y: System)
    requires InStep(y)
    requires Short(y.caches.policy) && Short(y.caches.claim) && Short(y.caches.access) && Short(y.caches.schedule)
    ensures var z := Run(k, y, WATCHES);
            && WatchesTold(z) && z.store == y.store && z.slot == y.slot
            && z.caches.repository == y.caches.repository
  {
    hide InStep, Do, Run, Short;
    var a := Do(k, y, Deliver(PolicyWatch));
    var b := Do(k, a, Deliver(ClaimWatch));
    var c := Do(k, b, Deliver(AccessWatch));
    OneDelivery(k, y, PolicyWatch);
    OneDelivery(k, a, ClaimWatch);
    OneDelivery(k, b, AccessWatch);
    OneDelivery(k, c, ScheduleWatch);
    RunFour(k, y, WATCHES);
  }

  lemma RunFour(k: Setup, y: System, d: seq<Step>)
    requires |d| == 4
    ensures Run(k, y, d) == Do(k, Do(k, Do(k, Do(k, y, d[0]), d[1]), d[2]), d[3])
  {
    hide Do;
    RunNothing(k, y);
    RunLast(k, y, [], d[0]);
    RunLast(k, y, d[..1], d[1]);
    RunLast(k, y, d[..2], d[2]);
    RunLast(k, y, d[..3], d[3]);
    assert [] + [d[0]] == d[..1] && d[..1] + [d[1]] == d[..2] && d[..2] + [d[2]] == d[..3];
    assert d[..3] + [d[3]] == d;
  }

  lemma WatchesSee(y: System)
    requires WatchesTold(y)
    ensures SeesWatched(y.store, y.caches.AsView())
  {
    hide Visible, VisibleSecret;
  }

  // The credentials a reconcile rests on, also while it reports.
  predicate OnCurrentCredentials(s: Store, w: Worker) {
    match w
    case DeletingSchedule(_, _, ev) => s.credentials == Some(ev.credentials)
    case GettingRepository(_, _, ev) => s.credentials == Some(ev.credentials)
    case CreatingRepository(_, _, ev) => s.credentials == Some(ev.credentials)
    case ApplyingSchedule(_, _, ev) => s.credentials == Some(ev.credentials)
    case Reporting(_, ServingBucket(ev)) => s.credentials == Some(ev.credentials)
    case Reporting(_, BackingUp(_, ev)) => s.credentials == Some(ev.credentials)
    case _ => true
  }

  // A reconcile on its way, on current reads of all but the repository Secret.
  predicate OnItsWay(k: Setup, s: Store, w: Worker) {
    && OnTrack(k, s, w) && Feasible(k, s) && Advances(k, s, w) && OnCurrentCredentials(s, w)
    && !w.Finished?
  }

  lemma StaysOnItsWay(k: Setup, s: Store, v: View, w: Worker, password: NewPassword)
    requires OnItsWay(k, s, w) && SeesWatched(s, v) && Acceptable(v) && !w.Reporting?
    requires Missing(s) == 0
    requires w.CreatingRepository? ==> v.repository == None
    ensures var (w', s') := Attempt(k, s, v, w, password);
            && OnItsWay(k, s', w') && Keeps(s, s') && s'.policy == s.policy
            && (w'.CreatingRepository? ==> v.repository == None)
            && (v.repository.Some? ==> s'.repository == s.repository)
  {
    hide OnTrack, Advances, Feasible;
    AttemptStaysOnTrack(k, s, v, w, password);
    AttemptAdvances(k, s, v, w, password);
    AttemptOnCredentials(k, s, v, w, password);
    var (w', s') := Attempt(k, s, v, w, password);
    if w'.Finished? {
      KeepsMilestones(s, s');
      NeverStops(k, s', w');
    }
  }

  lemma AttemptOnCredentials(k: Setup, s: Store, v: View, w: Worker, password: NewPassword)
    requires OnCurrentCredentials(s, w) && !w.Reporting?
    requires w.CreatingRepository? ==> v.repository == None
    ensures var (w', s') := Attempt(k, s, v, w, password);
            && OnCurrentCredentials(s', w') && s'.policy == s.policy
            && (w'.CreatingRepository? ==> v.repository == None)
            && (v.repository.Some? ==> s'.repository == s.repository)
            && (w'.Finished? ==> w.Finished? || !w'.outcome.Reported?)
  {
    hide Resolve, BucketIn, BucketClaimConfig, BucketAccessConfig, ScheduleConfig, StatusConfig, WantOf, ReadStatus;
    hide Applied, Apply, IsReady, Password;
  }

  lemma NeverStops(k: Setup, s: Store, w: Worker)
    requires Advances(k, s, w) && Missing(s) == 0 && w.Finished?
    ensures w.outcome.Reported?
  {
    hide Complete, IsReady;
  }

  // From its first call, a reconcile of a policy that has all it needs gets to its report.
  lemma {:induction false} ToTheReport(k: Setup, y: System, password: NewPassword) returns (steps: seq<Step>)
    requires WatchesTold(y) && y.slot.Busy? && OnItsWay(k, y.store, y.slot.w)
    requires Missing(y.store) == 0 && Acceptable(y.caches.AsView())
    requires y.slot.w.CreatingRepository? ==> y.caches.repository.cached == None
    ensures AllOwn(steps)
    ensures var z := Run(k, y, steps);
            && WatchesTold(z) && z.slot.Busy? && z.slot.w.Reporting?
            && OnItsWay(k, z.store, z.slot.w) && Missing(z.store) == 0
            && z.store.policy == y.store.policy && z.store.credentials == y.store.credentials
            && (y.caches.repository.cached.Some? ==> z.store.repository == y.store.repository)
    decreases Remaining(y.slot.w)
  {
    hide Attempt, Do, Run, WATCHES, WatchesTold, OnTrack, Feasible, Advances, OnCurrentCredentials;
    hide Missing, Informer.Latest, AllOwn;
    if y.slot.w.Reporting? {
      steps := [];
      RunNothing(k, y);
      NothingIsOwn();
    } else {
      var v, w, s := y.caches.AsView(), y.slot.w, y.store;
      AttemptProgresses(k, s, v, w, password);
      WatchesSee(y);
      StaysOnItsWay(k, s, v, w, password);
      CallAndTell(k, y, password);
      KeepsMilestones(s, Attempt(k, s, v, w, password).1);
      var call := [CallApi(NoFault, password)];
      var z := Run(k, Do(k, y, call[0]), WATCHES);
      var rest := ToTheReport(k, z, password);
      RunOne(k, y, call[0]);
      RunAppend(k, y, call, WATCHES);
      RunAppend(k, y, call + WATCHES, rest);
      OneCallIsOwn(password);
      WatchesAreNobodys();
      BothOwn(call, WATCHES);
      BothOwn(call + WATCHES, rest);
      steps := call + WATCHES + rest;
    }
  }

  lemma WatchesAreNobodys()
    ensures AllOwn(WATCHES)
  {
  }

  lemma KeepsMilestones(s: Store, s': Store)
    requires Keeps(s, s')
    ensures Missing(s') == Missing(s)
  {
    hide Complete, IsReady;
  }

  lemma CallAndTell(k: Setup, y: System, password: NewPassword)
    requires WatchesTold(y) && y.slot.Busy? && !y.slot.w.Finished?
    ensures var (w, s) := Attempt(k, y.store, y.caches.AsView(), y.slot.w, password);
            var z := Run(k, Do(k, y, CallApi(NoFault, password)), WATCHES);
            && WatchesTold(z) && z.store == s && z.slot == Busy(w)
            && z.caches.repository.cached == y.caches.repository.cached
  {
    hide Attempt, Logged, Visible, VisibleSecret, Run, WATCHES, IsSilent;
    InStepStays(k, y, CallApi(NoFault, password));
    TellWatches(k, Do(k, y, CallApi(NoFault, password)));
  }

  // Woken, a reconcile of such a policy reports that it is backed up to the bucket of the
  // credentials that are there.
  lemma {:induction false} WokenUpToTheReport(k: Setup, y: System, password: NewPassword) returns (steps: seq<Step>)
    requires WatchesTold(y) && y.slot.Idle? && IsToBackUp(k, y.store) && Missing(y.store) == 0
    requires Acceptable(y.caches.AsView())
    ensures AllOwn(steps)
    ensures var z := Run(k, y, steps);
            && WatchesTold(z) && z.store.policy == y.store.policy
            && z.slot.Busy? && z.slot.w.Reporting? && OnItsWay(k, z.store, z.slot.w)
            && z.slot.w.p == y.store.policy && z.slot.w.verdict.BackingUp?
            && z.store.schedule.Some?
            && SameBucket(Coordinates(k, z.slot.w.verdict.evidence.bucket), z.store.schedule)
            && y.store.credentials.Some?
            && BucketIn(y.store.credentials.value.data) == Usable(z.slot.w.verdict.evidence.bucket)
            && (y.caches.repository.cached.Some? ==> z.store.repository == y.store.repository)
  {
    hide Run, OnItsWay, Feasible, Visible, VisibleSecret, BucketIn, SameBucket, Missing, Password;
    var z := Do(k, Do(k, y, Wake), Start);
    RunNothing(k, y);
    RunLast(k, y, [], Wake);
    RunLast(k, y, [Wake], Start);
    assert [] + [Wake] == [Wake] && [Wake] + [Start] == [Wake, Start];
    BeginsOnItsWay(k, y.store);
    var rest := ToTheReport(k, z, password);
    RunAppend(k, y, [Wake, Start], rest);
    assert AllOwn([Wake, Start] + rest) by { hide Do; }
    steps := [Wake, Start] + rest;
    var r := Run(k, y, steps);
    ReportsABackup(k, r.store, r.slot.w);
  }

  lemma BeginsOnItsWay(k: Setup, s: Store)
    requires Feasible(k, s)
    ensures OnItsWay(k, s, GettingPolicy)
  {
    hide Feasible;
  }

  lemma ReportsABackup(k: Setup, s: Store, w: Worker)
    requires OnItsWay(k, s, w) && w.Reporting? && Missing(s) == 0 && s.policy.spec.mode != BucketOnlyMode
    ensures w.p == s.policy && w.verdict.BackingUp?
    ensures s.schedule.Some? && SameBucket(Coordinates(k, w.verdict.evidence.bucket), s.schedule)
    ensures s.credentials.Some? && BucketIn(s.credentials.value.data) == Usable(w.verdict.evidence.bucket)
  {
    hide Resolve, BucketIn, Applied, SameBucket, Visible, StatusSettled, Complete, IsReady, ScheduleConfig;
    if w.verdict.ServingBucket? {
      ServingIsBucketOnly(k, w);
    }
    var v := w.verdict;
    AppliedNamesItsBucket(k, s.schedule, v.cfg, v.evidence.bucket, Coordinates(k, v.evidence.bucket));
    AppliedIsSome(s.schedule, ScheduleConfig(k, v.cfg, v.evidence.bucket));
  }

  lemma AppliedIsSome(o: Option<Object>, config: Configuration)
    ensures Applied(o, config).Some?
  {
  }

  // ---------- A status that names another bucket than the Schedule ----------

  lemma SyncedIsTold(k: Setup, y: System)
    requires Synced(y) && Feasible(k, y.store)
    ensures WatchesTold(y) && Acceptable(y.caches.AsView())
  {
    hide Visible, Password;
  }

  // COSI hands out another bucket.
  function Elsewhere(data: SecretData, id: string): SecretData {
    data[BucketIdKey := id + "'"]
  }

  lemma NothingMissing(s: Store)
    requires Missing(s) == 0
    ensures ReadyObject(s.claim) && ReadyObject(s.access) && UsableCredentials(s)
  {
    hide Complete, IsReady;
  }

  lemma NewCredentialsWillDo(k: Setup, s: Store, id: string)
    requires IsToBackUp(k, s) && Missing(s) == 0
    ensures var data := Elsewhere(s.credentials.value.data, id);
            var s' := Changed(s, WriteCredentials(Some(Secret(false, data))));
            && IsToBackUp(k, s') && Missing(s') == 0 && s'.policy == s.policy
            && BucketIn(data).Usable? && BucketIn(data).bucket.id != id
  {
    hide Resolve, Password, IsReady, BucketIn;
    AcceptedIffComplete(Elsewhere(s.credentials.value.data, id));
  }

  lemma ReportFails(k: Setup, y: System, password: NewPassword)
    requires y.slot.Busy? && y.slot.w.Reporting? && !IsSilent(k, y.slot.w)
    ensures var steps := [CallApi(NotMade, password), Finish];
            Run(k, y, steps).slot == Idle(Some(Errored)) && Run(k, y, steps).store == y.store
  {
    hide Notice, Logged, Attempt, IsSilent, PhaseOf;
    var steps := [CallApi(NotMade, password), Finish];
    RunNothing(k, y);
    RunLast(k, y, [], steps[0]);
    RunLast(k, y, steps[..1], steps[1]);
    assert [] + [steps[0]] == steps[..1] && steps[..1] + [steps[1]] == steps;
  }

  lemma BothSmooth(first: seq<Step>, second: seq<Step>)
    requires AllSmooth(first) && AllSmooth(second)
    ensures AllSmooth(first + second)
  {
    hide Smooth;
  }

  lemma OwnIsSmooth(steps: seq<Step>)
    requires AllOwn(steps)
    ensures AllSmooth(steps)
  {
    hide Smooth;
  }

  lemma ChangeIsSmooth(change: Change)
    requires IsCosi(change)
    ensures AllSmooth([Environment(change)] + DELIVERIES)
  {
    hide DELIVERIES;
    DeliveriesAreNobodys();
    OwnIsSmooth(DELIVERIES);
    BothSmooth([Environment(change)], DELIVERIES);
  }

  // Every policy that is to be backed up can get there: with nobody but COSI acting and no call
  // failing but the very last one, that leaves a status that says Ready for the current spec next
  // to a Schedule that already backs up to another bucket.
  lemma {:induction false} StatusMayNameTheOldBucket(k: Setup, x: Provision, y: System, password: NewPassword)
    returns (before: seq<Step>)
    requires Init(y) && IsToBackUp(k, y.store) && Fulfils(x)
    ensures AllSmooth(before)
    ensures var z := Run(k, y, before + [CallApi(NotMade, password), Finish]);
            && z.slot == Idle(Some(Errored))
            && StatusOf(z).phase == Ready && ObservedGeneration(z) == z.store.policy.generation
            && z.store.schedule.Some? && !SameBucket(StatusOf(z), z.store.schedule)
            && Parted(z)
  {
    hide Run, Synced, WatchesTold, Feasible, Missing, ReadStatus, OnItsWay, BucketIn, Elsewhere, SameBucket, Do;
    hide AllSmooth, AllOwn;
    var first := GetsBackedUp(k, x, y, password);
    var a := Run(k, y, first);
    NothingMissing(a.store);
    var data := Elsewhere(a.store.credentials.value.data, StatusOf(a).bucket);
    NewCredentialsWillDo(k, a.store, StatusOf(a).bucket);
    var rotation := WriteCredentials(Some(Secret(false, data)));
    var second := ChangeAndCatchUp(k, a, rotation);
    var b := Run(k, a, second);
    SyncedIsTold(k, b);
    var third := WokenUpToTheReport(k, b, password);
    var c := Run(k, b, third);
    assert !IsSilent(k, c.slot.w);
    ReportFails(k, c, password);
    NotTheSameBucket(StatusOf(c), Coordinates(k, c.slot.w.verdict.evidence.bucket), c.store.schedule);
    RunAppend(k, y, first, second);
    RunAppend(k, y, first + second, third);
    before := first + second + third;
    RunAppend(k, y, before, [CallApi(NotMade, password), Finish]);
    ChangeIsSmooth(rotation);
    BothSmooth(first, second);
    OwnIsSmooth(third);
    BothSmooth(first + second, third);
  }

  lemma NotTheSameBucket(a: Status, b: Status, schedule: Option<Object>)
    requires SameBucket(b, schedule) && a.bucket != b.bucket
    ensures !SameBucket(a, schedule)
  {
  }

  // ---------- A Schedule without a password ----------

  lemma ReportSucceeds(k: Setup, y: System, password: NewPassword)
    requires y.slot.Busy? && y.slot.w.Reporting? && y.store.policy.presence == Live
    ensures var steps := [CallApi(NoFault, password), Finish];
            var z := Run(k, y, steps);
            && z.slot == Idle(Some(Reported(y.slot.w.p, y.slot.w.verdict)))
            && z.store == y.store.(policy := z.store.policy)
            && AllOwn(steps)
  {
    hide Notice, Logged, IsSilent, StatusConfig, WantOf, PhaseOf;
    var steps := [CallApi(NoFault, password), Finish];
    RunNothing(k, y);
    RunLast(k, y, [], steps[0]);
    RunLast(k, y, steps[..1], steps[1]);
    assert [] + [steps[0]] == steps[..1] && steps[..1] + [steps[1]] == steps;
  }

  // Somebody deletes the repository Secret, and the cache does not know yet.
  lemma LossGoesUnnoticed(k: Setup, y: System)
    requires Synced(y) && IsToBackUp(k, y.store) && Missing(y.store) == 0
    requires VisibleSecret(y.store.repository).Some?
    ensures var z := Do(k, y, Environment(EditRepository(None)));
            && WatchesTold(z) && z.slot == y.slot && z.store == y.store.(repository := None)
            && IsToBackUp(k, z.store) && Missing(z.store) == 0
            && z.caches.repository.cached.Some? && Acceptable(z.caches.AsView())
  {
    hide Visible, Resolve, Complete, IsReady, Password;
    InStepStays(k, y, Environment(EditRepository(None)));
  }

  // A backed up policy whose repository Secret was created by the controller has it labelled.
  lemma PasswordIsVisible(k: Setup, y: System, steps: seq<Step>)
    requires Init(y) && AllLabelled(y.store) && AllSmooth(steps)
    requires Run(k, y, steps).store.repository.Some?
    ensures VisibleSecret(Run(k, y, steps).store.repository).Some?
  {
    hide Run, CarriesLabel, Init;
    assert KeepLabels(steps);
    AlwaysLabelled(k, y, steps);
  }

  // Another reconcile of a backed up policy finds or leaves a repository Secret.
  lemma FreshLeavesASecret(k: Setup, s: Store, password: NewPassword)
    requires IsToBackUp(k, s) && Missing(s) == 0
    ensures var s' := Fresh(k, s, GettingPolicy, password).1;
            IsToBackUp(k, s') && Missing(s') == 0 && s'.repository.Some?
  {
    hide Fresh, Missing, OnTrack, Feasible, Advances, UpToDate;
    assert UpToDate(s, GettingPolicy) && Advances(k, s, GettingPolicy) by { BeginsAsItShould(k, s); }
    TrackStart(k, s);
    FreshStaysOnTrack(k, s, GettingPolicy, password);
    FreshAdvances(k, s, GettingPolicy, password);
    var (outcome, s') := Fresh(k, s, GettingPolicy, password);
    KeepsMilestones(s, s');
    ConcludesWithASecret(k, s', outcome);
  }

  lemma BeginsAsItShould(k: Setup, s: Store)
    ensures UpToDate(s, GettingPolicy) && Advances(k, s, GettingPolicy)
  {
  }

  lemma ConcludesWithASecret(k: Setup, s: Store, outcome: Outcome)
    requires OnTrack(k, s, Finished(outcome)) && UpToDate(s, Finished(outcome)) && Advances(k, s, Finished(outcome))
    requires Missing(s) == 0 && s.policy.spec.mode != BucketOnlyMode
    ensures s.repository.Some?
  {
    hide OnTrack, Complete, IsReady, Password;
    ReportedModeIsTheSpecs(k, s, outcome);
  }

  lemma ReportedModeIsTheSpecs(k: Setup, s: Store, outcome: Outcome)
    requires OnTrack(k, s, Finished(outcome))
    ensures outcome.Reported? && outcome.verdict.ServingBucket? ==> s.policy.spec.mode == BucketOnlyMode
    ensures outcome.Reported? && outcome.verdict.Unactionable? ==> Resolve(s.policy.spec, k.defaults).NotActionable?
  {
    hide Resolve, Proven, HasEvidence, HasAccess, HasClaim, StatusSettled, Visible;
    if outcome.Reported? && outcome.verdict.ServingBucket? {
      ModeIsTheSpecs(k, outcome.policy, Resolve(outcome.policy.spec, k.defaults).cfg);
    }
  }

  lemma HasOneThen(k: Setup, s: Store)
    requires Feasible(k, s) && VisibleSecret(s.repository).Some?
    ensures HasPassword(s.repository)
  {
    hide Password;
  }

  // A read that is out of date does it: with nobody acting but COSI and one who deletes the
  // repository Secret, and no call failing, a reconcile reports that the policy is backed up,
  // with the Schedule there and no password.
  lemma {:induction false} AStaleReadMissesTheLoss(k: Setup, x: Provision, y: System, password: NewPassword)
    returns (before: seq<Step>, after: seq<Step>)
    requires Init(y) && IsToBackUp(k, y.store) && Fulfils(x) && AllLabelled(y.store)
    ensures AllSmooth(before) && AllOwn(after)
    ensures var a := Run(k, y, before);
            var z := Run(k, y, before + [Environment(EditRepository(None))] + after);
            && HasPassword(a.store.repository)
            && z.slot.Idle? && z.slot.last.Some? && z.slot.last.value.Reported? && z.slot.last.value.verdict.BackingUp?
            && z.store.schedule.Some? && z.store.repository == None
  {
    hide Run, Synced, WatchesTold, Feasible, Missing, ReadStatus, OnItsWay, BucketIn, SameBucket, Do;
    hide Password, AllSmooth, AllOwn;
    var first := GetsBackedUp(k, x, y, password);
    var second := ReconcileIsARun(k, Run(k, y, first), password);
    before := first + second;
    RunAppend(k, y, first, second);
    OwnIsSmooth(second);
    BothSmooth(first, second);
    var a := Run(k, y, before);
    FreshLeavesASecret(k, Run(k, y, first).store, password);
    PasswordIsVisible(k, y, before);
    HasOneThen(k, a.store);

    var loss := Environment(EditRepository(None));
    LossGoesUnnoticed(k, a);
    var b := Do(k, a, loss);
    RunLast(k, y, before, loss);
    var third := WokenUpToTheReport(k, b, password);
    var c := Run(k, b, third);
    assert c.store.policy.presence == Live by { FeasibleIsLive(k, c.store, c.slot.w); }
    var last := [CallApi(NoFault, password), Finish];
    ReportSucceeds(k, c, password);
    RunAppend(k, b, third, last);
    after := third + last;
    BothOwn(third, last);
    RunAppend(k, y, before + [loss], after);
  }

  lemma FeasibleIsLive(k: Setup, s: Store, w: Worker)
    requires OnItsWay(k, s, w)
    ensures s.policy.presence == Live
  {
    hide OnTrack, Advances;
  }

  // ---------- A place that is taken ----------

  lemma {:induction false} RoundsKeepOccupied(k: Setup, x: Provision, s: Store, password: NewPassword, n: nat)
    requires Occupied(s)
    ensures Occupied(Rounds(k, x, s, password, n))
  {
    hide Fresh, Occupied, Granted, Granting;
    if n > 0 {
      var before := Rounds(k, x, s, password, n - 1);
      RoundsKeepOccupied(k, x, s, password, n - 1);
      FreshKeepsOccupied(k, before, password);
      AnswerLeavesRepository(x, Fresh(k, before, GettingPolicy, password).1);
    }
  }

  lemma FreshKeepsOccupied(k: Setup, s: Store, password: NewPassword)
    requires Occupied(s)
    ensures Occupied(Fresh(k, s, GettingPolicy, password).1)
  {
    hide Fresh, Occupied;
    FreshAndTheRepository(k, s, GettingPolicy, password);
  }

  lemma AnswerLeavesRepository(x: Provision, s: Store)
    ensures Occupied(Answered(x, s)) == Occupied(s)
  {
    hide Granted, Granting, Password;
  }

  // A fresh reconcile of a policy that has all it needs backs it up.
  lemma FreshBacksUp(k: Setup, s: Store, password: NewPassword)
    requires IsToBackUp(k, s) && Missing(s) == 0
    ensures var (outcome, s') := Fresh(k, s, GettingPolicy, password);
            outcome.Reported? && outcome.verdict.BackingUp? && s'.schedule.Some?
  {
    hide Fresh, Missing, OnTrack, Feasible, Advances, UpToDate;
    BeginsAsItShould(k, s);
    TrackStart(k, s);
    FreshStaysOnTrack(k, s, GettingPolicy, password);
    FreshAdvances(k, s, GettingPolicy, password);
    var (outcome, s') := Fresh(k, s, GettingPolicy, password);
    KeepsMilestones(s, s');
    ConcludesBackedUp(k, s', outcome);
  }

  lemma ConcludesBackedUp(k: Setup, s: Store, outcome: Outcome)
    requires OnTrack(k, s, Finished(outcome)) && Advances(k, s, Finished(outcome))
    requires Missing(s) == 0 && s.policy.spec.mode != BucketOnlyMode
    ensures outcome.Reported? && outcome.verdict.BackingUp? && s.schedule.Some?
  {
    hide OnTrack, Complete, IsReady;
    ReportedModeIsTheSpecs(k, s, outcome);
    if outcome.Reported? && outcome.verdict.BackingUp? {
      BackedUpHasASchedule(k, s, outcome.policy, outcome.verdict);
    }
  }

  lemma BackedUpHasASchedule(k: Setup, s: Store, p: Policy, v: Verdict)
    requires OnTrack(k, s, Finished(Reported(p, v))) && v.BackingUp?
    ensures s.schedule.Some?
  {
    hide Justified, JustifiedVerdict, HasEvidence, StatusSettled, Visible, ScheduleConfig, Apply;
    AppliedIsSome(s.schedule, ScheduleConfig(k, v.cfg, v.evidence.bucket));
  }

  // Where somebody had put an unlabelled Secret without a password before the policy came, it is
  // backed up without one all the same: nobody but COSI acts, no call fails, every read is fresh.
  lemma {:induction false} AnOccupiedPlaceGetsNoPassword(k: Setup, x: Provision, y: System, password: NewPassword)
    returns (steps: seq<Step>)
    requires Init(y) && IsToBackUp(k, y.store) && Fulfils(x) && Occupied(y.store)
    ensures AllSmooth(steps)
    ensures var z := Run(k, y, steps);
            && z.slot.Idle? && z.slot.last.Some? && z.slot.last.value.Reported? && z.slot.last.value.verdict.BackingUp?
            && z.store.schedule.Some? && !HasPassword(z.store.repository)
  {
    hide Run, Synced, Fresh, Rounds, Feasible, Missing, ReadStatus, OnlyAmpulla, AllSmooth, AllOwn;
    InitIsSynced(y);
    var n := ConvergesAndStays(k, x, y.store, password);
    var first := RoundsAreARun(k, x, y, password, n);
    var a := Run(k, y, first);
    RoundsKeepOccupied(k, x, y.store, password, n);
    var second := ReconcileIsARun(k, a, password);
    FreshBacksUp(k, a.store, password);
    FreshKeepsOccupied(k, a.store, password);
    RunAppend(k, y, first, second);
    OwnIsSmooth(second);
    BothSmooth(first, second);
    steps := first + second;
  }
}
