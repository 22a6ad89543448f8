// The label-filtered cache (controllers/cache.go) agrees with the store on what is read through it.

module FilteredCache {
  import opened Api
  import opened BucketSecret
  import opened Objects
  import opened ScheduleView
  import opened StatusView
  import opened Reconciler
  import opened Protocol

  predicate CarriesLabel(o: Option<Object>) {
    o.Some? ==> Managed(o.value)
  }

  predicate SecretCarriesLabel(s: Option<Secret>) {
    s.Some? ==> s.value.managed
  }

  predicate AllLabelled(s: Store) {
    CarriesLabel(s.claim) && CarriesLabel(s.access) && SecretCarriesLabel(s.repository)
  }

  // Outsiders neither strip the label nor put an object without it in a policy's place.
  predicate KeepsLabels(step: Step) {
    match step
    case Environment(EditClaim(o)) => CarriesLabel(o)
    case Environment(EditAccess(o)) => CarriesLabel(o)
    case Environment(EditRepository(s)) => SecretCarriesLabel(s)
    case _ => true
  }

  predicate KeepLabels(steps: seq<Step>) {
    forall i :: 0 <= i < |steps| ==> KeepsLabels(steps[i])
  }

  lemma AppliedCarriesLabel(o: Option<Object>, config: Configuration)
    requires ManagedLabel in config
    ensures CarriesLabel(Applied(o, config))
  {
  }

  lemma CallKeepsLabels(k: Setup, s: Store, v: View, w: Worker, fault: Fault, password: NewPassword)
    requires AllLabelled(s)
    ensures AllLabelled(Call(k, s, v, w, fault, password).1)
  {
    hide BucketClaimConfig, BucketAccessConfig, ScheduleConfig, StatusConfig, WantOf, ReadStatus, Applied;
    hide AfterPolicy, AfterClaim, AfterAccess, AfterCredentials, AfterRepository, Managed;
    match w
    case ApplyingClaim(p, cfg) =>
      ConfigsAreLabelled(k, cfg, Bucket("", "", ""));
      AppliedCarriesLabel(s.claim, BucketClaimConfig(k, cfg));
    case ApplyingAccess(p, cfg, claim) =>
      ConfigsAreLabelled(k, cfg, Bucket("", "", ""));
      AppliedCarriesLabel(s.access, BucketAccessConfig(k, cfg));
    case _ =>
  }

  lemma ChangeKeepsLabels(s: Store, change: Change)
    requires AllLabelled(s) && KeepsLabels(Environment(change))
    ensures AllLabelled(Changed(s, change))
  {
    hide Managed, CrdValid;
    ReportKeepsLabel(s.claim, if change.ReportClaim? then change.cosi else UNREPORTED);
    ReportKeepsLabel(s.access, if change.ReportAccess? then change.cosi else UNREPORTED);
  }

  lemma StepKeepsLabels(k: Setup, y: System, step: Step)
    requires AllLabelled(y.store) && KeepsLabels(step)
    ensures AllLabelled(Do(k, y, step).store)
  {
    hide Call, Notice, Logged, AllLabelled, Changed, KeepsLabels, PhaseOf;
    match step
    case CallApi(fault, password) =>
      if y.slot.Busy? { CallKeepsLabels(k, y.store, y.caches.AsView(), y.slot.w, fault, password); }
    case Environment(change) =>
      ChangeKeepsLabels(y.store, change);
    case _ =>
  }

  lemma ReportKeepsLabel(o: Option<Object>, cosi: CosiStatus)
    ensures CarriesLabel(o) ==> CarriesLabel(Report(o, cosi))
  {
  }

  lemma {:induction false} AlwaysLabelled(k: Setup, y: System, steps: seq<Step>)
    requires AllLabelled(y.store) && KeepLabels(steps)
    ensures AllLabelled(Run(k, y, steps).store)
  {
    hide AllLabelled, Do, KeepsLabels;
    if steps != [] {
      var init := steps[..|steps| - 1];
      assert KeepLabels(init);
      AlwaysLabelled(k, y, init);
      StepKeepsLabels(k, Run(k, y, init), steps[|steps| - 1]);
    }
  }

  // A cache that has been told everything returns what the store holds exactly when that carries
  // the label.
  lemma SyncedCacheAgreesIff(y: System)
    requires InStep(y)
    ensures y.caches.claim.pending == [] ==> (y.caches.claim.cached == y.store.claim <==> CarriesLabel(y.store.claim))
    ensures y.caches.access.pending == [] ==>
      (y.caches.access.cached == y.store.access <==> CarriesLabel(y.store.access))
    ensures y.caches.repository.pending == [] ==>
              (y.caches.repository.cached == y.store.repository <==> SecretCarriesLabel(y.store.repository))
  {
  }

  // In every reachable state, what a synced cache returns for the claim, the access or the
  // repository Secret is what the API server holds.
  lemma {:induction false} CachedReadsAgree(k: Setup, y: System, steps: seq<Step>)
    requires Init(y) && AllLabelled(y.store) && KeepLabels(steps)
    ensures var z := Run(k, y, steps);
            && (z.caches.claim.pending == [] ==> z.caches.AsView().claim == z.store.claim)
            && (z.caches.access.pending == [] ==> z.caches.AsView().access == z.store.access)
            && (z.caches.repository.pending == [] ==> z.caches.AsView().repository == z.store.repository)
  {
    hide Run, Init;
    AlwaysLabelled(k, y, steps);
    InStepAlways(k, y, steps);
    SyncedCacheAgreesIff(Run(k, y, steps));
  }

  // The credentials Secret is COSI's and carries no label: through the cache it would be missing
  // for ever, and a policy would wait for credentials that are there.
  lemma CredentialsNeedTheApiReader(k: Setup, s: Store, v: View, w: Worker, password: NewPassword)
    requires w.GettingCredentials? && s.credentials.Some? && !s.credentials.value.managed
    requires Complete(s.credentials.value.data)
    ensures AfterCredentials(w.p, w.cfg, w.claim, w.access, VisibleSecret(s.credentials)) ==
      Reporting(w.p, AwaitCredentials)
    ensures var w' := Attempt(k, s, v, w, password).0;
            w'.DeletingSchedule? || w'.GettingRepository?
  {
    AcceptedIffComplete(s.credentials.value.data);
  }

  // COSI does not label the credentials it writes.
  predicate LeavesUnlabelled(step: Step) {
    match step
    case Environment(WriteCredentials(Some(secret))) => !secret.managed
    case _ => true
  }

  predicate LeaveUnlabelled(steps: seq<Step>) {
    forall i :: 0 <= i < |steps| ==> LeavesUnlabelled(steps[i])
  }

  lemma StepHidesCredentials(k: Setup, y: System, step: Step)
    requires VisibleSecret(y.store.credentials) == None && LeavesUnlabelled(step)
    ensures VisibleSecret(Do(k, y, step).store.credentials) == None
  {
    hide Call, Notice, Logged, PhaseOf, CrdValid;
    if step.CallApi? && y.slot.Busy? {
      CallLeavesCredentials(k, y.store, y.caches.AsView(), y.slot.w, step.fault, step.password);
    }
  }

  lemma CallLeavesCredentials(k: Setup, s: Store, v: View, w: Worker, fault: Fault, password: NewPassword)
    ensures Call(k, s, v, w, fault, password).1.credentials == s.credentials
  {
    hide BucketClaimConfig, BucketAccessConfig, ScheduleConfig, StatusConfig, WantOf, ReadStatus, Applied;
    hide AfterPolicy, AfterClaim, AfterAccess, AfterCredentials, AfterRepository;
  }

  lemma {:induction false} CredentialsNeverShow(k: Setup, y: System, steps: seq<Step>)
    requires VisibleSecret(y.store.credentials) == None && LeaveUnlabelled(steps)
    ensures VisibleSecret(Run(k, y, steps).store.credentials) == None
  {
    hide Do, VisibleSecret, LeavesUnlabelled;
    if steps != [] {
      var init := steps[..|steps| - 1];
      assert LeaveUnlabelled(init);
      CredentialsNeverShow(k, y, init);
      StepHidesCredentials(k, Run(k, y, init), steps[|steps| - 1]);
    }
  }

  // On no run could the cache have shown them: whenever a reconcile comes to read the credentials,
  // it would take a complete Secret for one that is not there, where the direct read goes on.
  lemma {:induction false} CacheNeverShowsCredentials(k: Setup, y: System, steps: seq<Step>, password: NewPassword)
    requires VisibleSecret(y.store.credentials) == None && LeaveUnlabelled(steps)
    requires var z := Run(k, y, steps);
             && z.slot.Busy? && z.slot.w.GettingCredentials?
             && z.store.credentials.Some? && Complete(z.store.credentials.value.data)
    ensures var z := Run(k, y, steps);
            var w, w' := z.slot.w, Attempt(k, z.store, z.caches.AsView(), z.slot.w, password).0;
            && AfterCredentials(w.p, w.cfg, w.claim, w.access, VisibleSecret(z.store.credentials)) ==
               Reporting(w.p, AwaitCredentials)
            && (w'.DeletingSchedule? || w'.GettingRepository?)
  {
    hide Run, Complete, Attempt, AfterCredentials;
    CredentialsNeverShow(k, y, steps);
    var z := Run(k, y, steps);
    CredentialsNeedTheApiReader(k, z.store, z.caches.AsView(), z.slot.w, password);
  }
}
