// The controller stops writing: over any run in which nobody acts but it and COSI, however stale
// its caches, however often it is woken, fails or restarts, its writes change the store only a
// number of times bounded by what COSI changes, and so only that many events come back to it.

module OwnWrites {
  import opened Api
  import opened BucketSecret
  import opened Config
  import opened ServerSideApply
  import opened Objects
  import opened StatusView
  import opened Reconciler
  import opened Tracking
  import opened Protocol
  import opened Truth

  // ---------- Where a run without others can be ----------

  predicate SameSpec(p: Policy, q: Policy) {
    p.spec == q.spec && p.generation == q.generation && p.presence == q.presence
  }

  predicate AllSame(i: Informer<Policy>, q: Policy) {
    SameSpec(i.cached, q) && forall j :: 0 <= j < |i.pending| ==> SameSpec(i.pending[j], q)
  }

  function CredentialsOf(slot: Slot): Option<Secret> {
    match slot
    case Busy(DeletingSchedule(_, _, ev)) => Some(ev.credentials)
    case Busy(GettingRepository(_, _, ev)) => Some(ev.credentials)
    case Busy(CreatingRepository(_, _, ev)) => Some(ev.credentials)
    case Busy(ApplyingSchedule(_, _, ev)) => Some(ev.credentials)
    case _ => None
  }

  // The cache may be behind on anything but the spec; a reconcile under way works for that spec.
  predicate Alone(k: Setup, y: System) {
    && InStep(y)
    && Justified(k, Standing(y.slot))
    && OnlyAmpulla(y.store.policy.status)
    && AllSame(y.caches.policy, y.store.policy)
    && (PolicyOf(y.slot).Some? ==> SameSpec(PolicyOf(y.slot).value, y.store.policy))
  }

  // ---------- What is still to be written ----------

  function Owed(open: bool): nat {
    if open then 1 else 0
  }

  function AimOf(k: Setup, s: Store): Config {
    Filled(s.policy.spec, k.defaults)
  }

  predicate ScheduleOwed(k: Setup, s: Store) {
    && s.credentials.Some?
    && BucketIn(s.credentials.value.data).Usable?
    && if AimOf(k, s).mode == BucketOnlyMode then s.schedule.Some?
       else !Settled(s.schedule, ScheduleConfig(k, AimOf(k, s), BucketIn(s.credentials.value.data).bucket))
  }

  // The conclusion of a reconcile that reads the caches as they are now, if it comes to one.
  function Prospect(k: Setup, s: Store, claim: Option<Object>, access: Option<Object>): Option<Verdict> {
    match Resolve(s.policy.spec, k.defaults)
    case NotActionable(unmet) => Some(Unactionable(unmet))
    case Resolved(cfg) =>
      if claim.None? then None
      else if !IsReady(claim.value) then Some(AwaitClaim(claim.value))
      else if access.None? then None
      else if !IsReady(access.value) then Some(AwaitAccess(claim.value, access.value))
      else if s.credentials.None? then Some(AwaitCredentials)
      else
        match BucketIn(s.credentials.value.data)
        case Usable(bucket) =>
          var ev := Evidence(claim.value, access.value, s.credentials.value, bucket);
          Some(if cfg.mode == BucketOnlyMode then ServingBucket(ev) else BackingUp(cfg, ev))
        case _ => None
  }

  function ProspectOf(k: Setup, y: System): Option<Verdict> {
    Prospect(k, y.store, y.caches.claim.cached, y.caches.access.cached)
  }

  predicate Rests(y: System, ev: Evidence) {
    && Some(ev.claim) == y.caches.claim.cached && Some(ev.access) == y.caches.access.cached
    && Some(ev.credentials) == y.store.credentials
  }

  // A reconcile under way that has read what the caches still hold, and the credentials that are
  // still there.
  predicate Conforms(k: Setup, y: System, w: Worker) {
    var claim, access := y.caches.claim.cached, y.caches.access.cached;
    match w
    case ApplyingAccess(_, _, c) => Some(c) == claim
    case GettingAccess(_, _, c) => Some(c) == claim
    case GettingCredentials(_, _, c, a) => Some(c) == claim && Some(a) == access
    case DeletingSchedule(_, _, ev) => Rests(y, ev)
    case GettingRepository(_, _, ev) => Rests(y, ev)
    case CreatingRepository(_, _, ev) => Rests(y, ev)
    case ApplyingSchedule(_, _, ev) => Rests(y, ev)
    case Reporting(_, v) => ProspectOf(k, y) == Some(v)
    case _ => true
  }

  // The status is not yet the one in prospect.
  predicate StatusOwed(k: Setup, y: System) {
    match ProspectOf(k, y)
    case None => true
    case Some(v) => y.store.policy.status != Owned(StatusConfig(WantOf(k, y.store.policy, v)))
  }

  predicate Deviates(k: Setup, y: System) {
    y.slot.Busy? && !Conforms(k, y, y.slot.w)
  }

  // The status can be written once for what is in prospect, and once before that by a reconcile
  // that has read something older.
  function ReportsOwed(k: Setup, y: System): nat {
    Owed(StatusOwed(k, y)) + 2 * Owed(Deviates(k, y))
  }

  // Each undelivered event can change the prospect, and leave a reconcile behind it.
  function NewsOwed(y: System): nat {
    3 * |y.caches.claim.pending| + 3 * |y.caches.access.pending|
  }

  // Each object can be written once; a write of the claim or the access comes back as an event.
  function ObjectsOwed(k: Setup, s: Store): nat {
    5 * Owed(!Settled(s.claim, BucketClaimConfig(k, AimOf(k, s)))) +
    5 * Owed(!Settled(s.access, BucketAccessConfig(k, AimOf(k, s)))) +
    Owed(s.repository.None?)
  }

  // A reconcile that has read other credentials than are there now.
  predicate HoldsOld(y: System) {
    CredentialsOf(y.slot).Some? && CredentialsOf(y.slot) != y.store.credentials
  }

  // The Schedule can be written once for the credentials that are there, and once before that by
  // a reconcile that holds older ones.
  function ScheduleWritesOwed(k: Setup, y: System): nat {
    Owed(ScheduleOwed(k, y.store)) + 2 * Owed(HoldsOld(y))
  }

  function StillOwed(k: Setup, y: System): nat {
    ObjectsOwed(k, y.store) + ScheduleWritesOwed(k, y) + NewsOwed(y) + ReportsOwed(k, y)
  }

  // ---------- Calls ----------

  // The four object writes: each changes something only if it was owed, and then no longer is.
  lemma CallOnObjects(k: Setup, s: Store, v: View, w: Worker, fault: Fault, password: NewPassword)
    requires Justified(k, w)
    requires PolicyOf(Busy(w)).Some? ==> SameSpec(PolicyOf(Busy(w)).value, s.policy)
    ensures var s' := Call(k, s, v, w, fault, password).1;
            && SameSpec(s'.policy, s.policy) && s'.credentials == s.credentials
            && ObjectOwes(s.claim, s'.claim, BucketClaimConfig(k, AimOf(k, s)))
            && ObjectOwes(s.access, s'.access, BucketAccessConfig(k, AimOf(k, s)))
            && (s'.schedule != s.schedule ==>
                  && CredentialsOf(Busy(w)).Some?
                  && (CredentialsOf(Busy(w)) == s.credentials ==> ScheduleOwed(k, s) && !ScheduleOwed(k, s')))
            && (s'.repository != s.repository ==> s.repository.None? && s'.repository.Some?)
  {
    hide BucketIn, BucketClaimConfig, BucketAccessConfig, ScheduleConfig, StatusConfig, WantOf, ReadStatus;
    hide Applied, Apply, IsReady, Password, Filled, Unmet;
    match w
    case ApplyingClaim(_, _) => AppliedIsSettled(s.claim, BucketClaimConfig(k, AimOf(k, s)));
    case ApplyingAccess(_, _, _) => AppliedIsSettled(s.access, BucketAccessConfig(k, AimOf(k, s)));
    case ApplyingSchedule(_, _, ev) => AppliedIsSettled(s.schedule, ScheduleConfig(k, AimOf(k, s), ev.bucket));
    case _ =>
  }

  predicate ObjectOwes(o: Option<Object>, o': Option<Object>, config: Configuration) {
    o' != o ==> !Settled(o, config) && Settled(o', config)
  }

  // What a call does to the reconcile under way: one that conforms goes on conforming.
  lemma CallConforms(k: Setup, y: System, fault: Fault, password: NewPassword)
    requires Alone(k, y) && y.slot.Busy? && Conforms(k, y, y.slot.w)
    ensures Conforms(k, y, Call(k, y.store, y.caches.AsView(), y.slot.w, fault, password).0)
  {
    hide BucketIn, BucketClaimConfig, BucketAccessConfig, ScheduleConfig, StatusConfig, WantOf, ReadStatus;
    hide Applied, Apply, IsReady, Password, Resolve, InStep, OnlyAmpulla;
  }

  // Credentials are read from the store; whoever writes the Schedule is done with them.
  lemma CallKeepsCredentials(k: Setup, s: Store, v: View, w: Worker, fault: Fault, password: NewPassword)
    ensures var (w', s') := Call(k, s, v, w, fault, password);
            && s'.credentials == s.credentials
            && (CredentialsOf(Busy(w')).Some? && CredentialsOf(Busy(w')) != s.credentials ==>
                  CredentialsOf(Busy(w)) == CredentialsOf(Busy(w')))
            && (s'.schedule != s.schedule ==> CredentialsOf(Busy(w')).None?)
  {
    hide Resolve, BucketIn, BucketClaimConfig, BucketAccessConfig, ScheduleConfig, StatusConfig, WantOf, ReadStatus;
    hide Applied, Apply, IsReady, Password;
  }

  // Those of the status: a reconcile that conforms writes the one in prospect.
  lemma CallOnStatus(k: Setup, y: System, fault: Fault, password: NewPassword)
    requires Alone(k, y) && y.slot.Busy?
    ensures var w := y.slot.w;
            var (w', s') := Call(k, y.store, y.caches.AsView(), w, fault, password);
            && OnlyAmpulla(s'.policy.status)
            && (s'.policy.status != y.store.policy.status ==>
                  && w.Reporting? && w'.Finished?
                  && s' == y.store.(policy := s'.policy)
                  && s'.policy.status == Owned(StatusConfig(WantOf(k, y.store.policy, w.verdict))))
  {
    hide OnlyAmpulla, Apply, Owned, StatusConfig, Call, Justified, InStep, AllSame, PhaseOf;
    var w, v, s := y.slot.w, y.caches.AsView(), y.store;
    CallKeepsPolicy(k, s, v, w, fault, password);
    if w.Reporting? {
      ApplyOwned(s.policy.status, StatusConfig(WantOf(k, w.p, w.verdict)));
      ReportEnds(k, s, v, w, fault, password);
    }
  }

  lemma ReportEnds(k: Setup, s: Store, v: View, w: Worker, fault: Fault, password: NewPassword)
    requires w.Reporting?
    ensures var (w', s') := Call(k, s, v, w, fault, password);
            w'.Finished? && s' == s.(policy := s'.policy)
  {
    hide WantOf, StatusConfig, ReadStatus, Apply;
  }

  // What is in prospect rests on the specs, the caches and the credentials alone.
  lemma SameProspect(k: Setup, s: Store, s': Store, claim: Option<Object>, access: Option<Object>)
    requires SameSpec(s'.policy, s.policy) && s'.credentials == s.credentials
    ensures Prospect(k, s', claim, access) == Prospect(k, s, claim, access)
    ensures forall v :: WantOf(k, s'.policy, v) == WantOf(k, s.policy, v)
    ensures AimOf(k, s') == AimOf(k, s)
  {
    hide Resolve, BucketIn, IsReady, PhaseOf, Filled;
  }

  // An object write pays for the event it causes.
  lemma ObjectsPay(k: Setup, s: Store, s': Store)
    requires SameSpec(s'.policy, s.policy)
    requires ObjectOwes(s.claim, s'.claim, BucketClaimConfig(k, AimOf(k, s)))
    requires ObjectOwes(s.access, s'.access, BucketAccessConfig(k, AimOf(k, s)))
    requires s'.repository != s.repository ==> s.repository.None? && s'.repository.Some?
    ensures ObjectsOwed(k, s') + 4 * Owed(s'.claim != s.claim) + 4 * Owed(s'.access != s.access)
            + Owed(s'.repository != s.repository) <= ObjectsOwed(k, s)
  {
    hide Filled, Settled, BucketClaimConfig, BucketAccessConfig;
    SameAim(k, s, s');
  }

  lemma SameScheduleOwed(k: Setup, s: Store, s': Store)
    requires SameSpec(s'.policy, s.policy) && s'.credentials == s.credentials && s'.schedule == s.schedule
    ensures ScheduleOwed(k, s') == ScheduleOwed(k, s)
  {
    hide Filled, BucketIn, Settled, ScheduleConfig;
  }

  // A write of the Schedule is the last one for the credentials that are there, or the last of a
  // reconcile that holds older ones.
  lemma SchedulePays(k: Setup, y: System, fault: Fault, password: NewPassword)
    requires Alone(k, y) && y.slot.Busy?
    ensures var z := Called(k, y, fault, password);
            ScheduleWritesOwed(k, z) + Owed(z.store.schedule != y.store.schedule) <= ScheduleWritesOwed(k, y)
  {
    hide ScheduleOwed, Call, Logged, InStep, OnlyAmpulla, Justified, Notice, AllSame, ObjectOwes, CredentialsOf;
    hide BucketClaimConfig, BucketAccessConfig;
    var w, v, s := y.slot.w, y.caches.AsView(), y.store;
    var (w', s') := Call(k, s, v, w, fault, password);
    CallOnObjects(k, s, v, w, fault, password);
    CallKeepsCredentials(k, s, v, w, fault, password);
    if s'.schedule == s.schedule {
      SameScheduleOwed(k, s, s');
    }
  }

  lemma SameAim(k: Setup, s: Store, s': Store)
    requires SameSpec(s'.policy, s.policy)
    ensures AimOf(k, s') == AimOf(k, s)
  {
    hide Filled;
  }

  // A cache hears of a call at most once for each object it changed.
  lemma NewsOfCall(y: System, s: Store)
    requires InStep(y)
    ensures NewsOwed(Moved(y, s)) <=
              NewsOwed(y) + 3 * Owed(s.claim != y.store.claim) + 3 * Owed(s.access != y.store.access)
    ensures Moved(y, s).caches.claim.cached == y.caches.claim.cached
    ensures Moved(y, s).caches.access.cached == y.caches.access.cached
  {
    hide Visible, VisibleSecret;
  }

  lemma SameConformity(k: Setup, y: System, z: System, w: Worker)
    requires Conforms(k, y, w)
    requires z.caches.claim.cached == y.caches.claim.cached && z.caches.access.cached == y.caches.access.cached
    requires SameSpec(z.store.policy, y.store.policy) && z.store.credentials == y.store.credentials
    ensures Conforms(k, z, w) && ProspectOf(k, z) == ProspectOf(k, y)
  {
    hide Prospect;
    SameProspect(k, y.store, z.store, y.caches.claim.cached, y.caches.access.cached);
  }

  lemma CallKeepsProspect(k: Setup, y: System, fault: Fault, password: NewPassword)
    requires Alone(k, y) && y.slot.Busy?
    ensures var z := Called(k, y, fault, password);
            && SameSpec(z.store.policy, y.store.policy)
            && ProspectOf(k, z) == ProspectOf(k, y)
            && (forall v :: WantOf(k, z.store.policy, v) == WantOf(k, y.store.policy, v))
            && (Deviates(k, z) ==> Deviates(k, y))
  {
    hide Prospect, Call, InStep, OnlyAmpulla, Notice, Conforms, AllSame, Justified, Logged, WantOf, ObjectOwes;
    hide ScheduleOwed, BucketClaimConfig, BucketAccessConfig;
    var w, v, s := y.slot.w, y.caches.AsView(), y.store;
    var z := Called(k, y, fault, password);
    var (w', s') := Call(k, s, v, w, fault, password);
    NewsOfCall(y, s');
    CallOnObjects(k, s, v, w, fault, password);
    SameProspect(k, s, s', y.caches.claim.cached, y.caches.access.cached);
    if Conforms(k, y, w) {
      CallConforms(k, y, fault, password);
      SameConformity(k, y, z, w');
    }
  }

  // A report of what is in prospect is the last one; any other leaves at most that one to make.
  lemma ReportsPay(k: Setup, y: System, fault: Fault, password: NewPassword)
    requires Alone(k, y) && y.slot.Busy?
    ensures var z := Called(k, y, fault, password);
            && ReportsOwed(k, z) <= ReportsOwed(k, y)
            && (z.store.policy != y.store.policy ==> ReportsOwed(k, z) < ReportsOwed(k, y))
  {
    hide ProspectOf, Call, Alone, OnlyAmpulla, Notice, StatusConfig, Owned, WantOf, Logged;
    var z := Called(k, y, fault, password);
    CallKeepsProspect(k, y, fault, password);
    CallOnStatus(k, y, fault, password);
    if z.store.policy.status != y.store.policy.status && !Deviates(k, y) {
      assert ProspectOf(k, y) == Some(y.slot.w.verdict);
    }
  }

  // No call raises what is owed, and one that changes the store lowers it.
  lemma CallPays(k: Setup, y: System, fault: Fault, password: NewPassword)
    requires Alone(k, y) && y.slot.Busy?
    ensures var z := Called(k, y, fault, password);
            StillOwed(k, z) + Owed(z.store != y.store) <= StillOwed(k, y)
  {
    hide ObjectsOwed, ScheduleWritesOwed, ReportsOwed, Call, InStep, OnlyAmpulla, Justified, Notice;
    hide AllSame, ObjectOwes;
    hide ScheduleOwed, CredentialsOf;
    var w, v, s := y.slot.w, y.caches.AsView(), y.store;
    var (w', s') := Call(k, s, v, w, fault, password);
    CallOnObjects(k, s, v, w, fault, password);
    ObjectsPay(k, s, s');
    SchedulePays(k, y, fault, password);
    NewsOfCall(y, s');
    ReportsPay(k, y, fault, password);
  }

  // ---------- COSI ----------

  lemma ReportKeepsSettled(o: Option<Object>, cosi: CosiStatus, config: Configuration)
    ensures Settled(Report(o, cosi), config) == Settled(o, config)
  {
    hide Apply;
  }

  // What COSI reports on the claim or the access is an event to come.
  lemma ReportCosts(k: Setup, y: System, change: Change)
    requires InStep(y) && (change.ReportClaim? || change.ReportAccess?)
    ensures StillOwed(k, Moved(y, Changed(y.store, change))) <= StillOwed(k, y) + 3
  {
    hide Settled, BucketClaimConfig, BucketAccessConfig, ScheduleOwed, InStep, Notice, CrdValid;
    hide CredentialsOf, Prospect;
    hide Conforms, StatusConfig, Owned, WantOf, Filled;
    var s := Changed(y.store, change);
    NewsOfCall(y, s);
    ReportKeepsSettled(y.store.claim, change.cosi, BucketClaimConfig(k, AimOf(k, y.store)));
    ReportKeepsSettled(y.store.access, change.cosi, BucketAccessConfig(k, AimOf(k, y.store)));
    SameScheduleOwed(k, y.store, s);
    SameProspect(k, y.store, s, y.caches.claim.cached, y.caches.access.cached);
    if y.slot.Busy? && Conforms(k, y, y.slot.w) {
      SameConformity(k, y, Moved(y, s), y.slot.w);
    }
  }

  // Credentials can change the prospect and the Schedule, and leave a reconcile behind.
  lemma CredentialsCost(k: Setup, y: System, credentials: Option<Secret>)
    requires InStep(y)
    ensures StillOwed(k, Moved(y, Changed(y.store, WriteCredentials(credentials)))) <= StillOwed(k, y) + 6
  {
    hide ScheduleOwed, StatusOwed, Deviates, HoldsOld, InStep, Notice, Settled, BucketClaimConfig;
    hide BucketAccessConfig, Filled;
    NewsOfCall(y, Changed(y.store, WriteCredentials(credentials)));
  }

  lemma NothingMoves(y: System)
    requires InStep(y)
    ensures Moved(y, y.store) == y
  {
    hide Visible, VisibleSecret;
  }

  // Each change that COSI makes raises what is owed by a constant.
  lemma CosiCosts(k: Setup, y: System, change: Change)
    requires InStep(y) && IsCosi(change)
    ensures var z := Do(k, y, Environment(change));
            StillOwed(k, z) <= StillOwed(k, y) + 6 * Owed(z.store != y.store)
  {
    hide StillOwed, InStep, Notice, CrdValid, Changed;
    var s := Changed(y.store, change);
    assert Moved(y, s).store == s;
    if s == y.store {
      NothingMoves(y);
    } else if change.WriteCredentials? {
      CredentialsCost(k, y, change.credentials);
    } else {
      ReportCosts(k, y, change);
    }
  }

  // ---------- The other steps ----------

  lemma DeliveryPays(k: Setup, y: System, what: Watched)
    ensures StillOwed(k, Delivered(y, what)) <= StillOwed(k, y)
  {
    hide ObjectsOwed, ScheduleOwed, CredentialsOf, ProspectOf, StatusConfig, Owned, WantOf;
    var z := Delivered(y, what);
    assert z.store == y.store && z.slot == y.slot;
    match what
    case ClaimWatch =>
    case AccessWatch =>
    case _ => SameReports(k, y, z);
  }

  lemma SameReports(k: Setup, y: System, z: System)
    requires z.store == y.store && (z.slot == y.slot || !Deviates(k, z))
    requires z.caches.claim.cached == y.caches.claim.cached && z.caches.access.cached == y.caches.access.cached
    ensures ReportsOwed(k, z) <= ReportsOwed(k, y)
  {
    hide StatusConfig, Owned, WantOf, Prospect;
  }

  lemma RestartPays(k: Setup, y: System)
    requires InStep(y)
    ensures StillOwed(k, Do(k, y, Restart)) <= StillOwed(k, y)
  {
    hide ObjectsOwed, ScheduleOwed, ReportsOwed, Visible, VisibleSecret, Conforms;
    var z := Do(k, y, Restart);
    IdleReports(k, z);
    if y.caches.claim.pending == [] && y.caches.access.pending == [] {
      SameReports(k, y, z);
    }
  }

  lemma IdleReports(k: Setup, y: System)
    requires y.slot.Idle?
    ensures ReportsOwed(k, y) <= 1 && !Deviates(k, y)
  {
    hide StatusOwed, Conforms;
  }

  lemma StepPays(k: Setup, y: System, step: Step)
    requires Alone(k, y) && !step.Environment?
    ensures var z := Do(k, y, step);
            StillOwed(k, z) + Owed(z.store != y.store) <= StillOwed(k, y)
  {
    hide Called, Alone, StillOwed, Delivered, Listed, PhaseOf;
    match step
    case CallApi(fault, password) => if y.slot.Busy? { CallPays(k, y, fault, password); }
    case Deliver(what) =>
      DeliveryPays(k, y, what);
      DeliveryKeepsStore(y, what);
    case Restart =>
      AloneInStep(k, y);
      RestartPays(k, y);
    case _ => SlotPays(k, y, step);
  }

  lemma DeliveryKeepsStore(y: System, what: Watched)
    ensures Delivered(y, what).store == y.store
  {
  }

  lemma SlotPays(k: Setup, y: System, step: Step)
    requires step.Start? || step.Finish? || step.Wake? || step.FireTimer?
    ensures var z := Do(k, y, step);
            z.store == y.store && StillOwed(k, z) <= StillOwed(k, y)
  {
    hide PhaseOf, StatusConfig, Owned, WantOf, Prospect, ObjectsOwed, ScheduleOwed, ReportsOwed;
    var z := Do(k, y, step);
    assert z.slot == y.slot || !Deviates(k, z);
    SameReports(k, y, z);
  }

  // ---------- Nobody else comes in ----------

  lemma CallStaysAlone(k: Setup, y: System, fault: Fault, password: NewPassword)
    requires Alone(k, y) && y.slot.Busy?
    ensures Alone(k, Called(k, y, fault, password))
  {
    hide Call, Logged, InStep, OnlyAmpulla, Justified, ObjectOwes, ScheduleOwed, BucketClaimConfig, BucketAccessConfig;
    hide StatusConfig, Owned, WantOf, Notice, CredentialsOf;
    var w, v, s := y.slot.w, y.caches.AsView(), y.store;
    InStepStays(k, y, CallApi(fault, password));
    CallJustified(k, s, v, w, fault, password);
    CallOnObjects(k, s, v, w, fault, password);
    CallOnStatus(k, y, fault, password);
    CallKeepsPolicy(k, s, v, w, fault, password);
    MovedIsSame(y, Call(k, s, v, w, fault, password).1);
  }

  lemma MovedIsSame(y: System, s: Store)
    requires AllSame(y.caches.policy, y.store.policy) && SameSpec(s.policy, y.store.policy)
    ensures AllSame(Moved(y, s).caches.policy, s.policy)
  {
    hide Visible, VisibleSecret;
  }

  lemma DeliveryStaysAlone(k: Setup, y: System, what: Watched)
    requires Alone(k, y)
    ensures Alone(k, Delivered(y, what))
  {
    hide InStep, OnlyAmpulla, Justified;
    DeliveredIsInStep(y, what) by { AloneInStep(k, y); }
    DeliveryKeepsStore(y, what);
    assert Delivered(y, what).slot == y.slot;
    assert AllSame(Delivered(y, what).caches.policy, y.store.policy);
  }

  lemma OthersStayAlone(k: Setup, y: System, step: Step)
    requires Alone(k, y) && !step.Environment? && !step.CallApi? && !step.Deliver?
    ensures Alone(k, Do(k, y, step))
  {
    hide Called, Delivered, Moved, InStep, OnlyAmpulla, JustifiedVerdict, PhaseOf, Visible, VisibleSecret;
    InStepStays(k, y, step);
  }

  lemma CosiStaysAlone(k: Setup, y: System, change: Change)
    requires Alone(k, y) && IsCosi(change)
    ensures Alone(k, Do(k, y, Environment(change)))
  {
    hide InStep, OnlyAmpulla, Justified, Notice, CrdValid;
    InStepStays(k, y, Environment(change));
    MovedIsSame(y, Changed(y.store, change));
  }

  lemma StepStaysAlone(k: Setup, y: System, step: Step)
    requires Alone(k, y) && OwnOrCosi(step)
    ensures Alone(k, Do(k, y, step))
  {
    hide Called, Delivered, Moved, Alone;
    match step
    case Environment(change) => CosiStaysAlone(k, y, change);
    case CallApi(fault, password) => if y.slot.Busy? { CallStaysAlone(k, y, fault, password); }
    case Deliver(what) => DeliveryStaysAlone(k, y, what);
    case _ => OthersStayAlone(k, y, step);
  }

  // ---------- Runs ----------

  predicate ChangesStore(k: Setup, y: System, step: Step) {
    Do(k, y, step).store != y.store
  }

  // How many of the controller's own steps on a run change the store, and how many of COSI's.
  function Writes(k: Setup, y: System, steps: seq<Step>): nat {
    if steps == [] then 0
    else
      var init, last := steps[..|steps| - 1], steps[|steps| - 1];
      Writes(k, y, init) + Owed(!last.Environment? && ChangesStore(k, Run(k, y, init), last))
  }

  function CosiChanges(k: Setup, y: System, steps: seq<Step>): nat {
    if steps == [] then 0
    else
      var init, last := steps[..|steps| - 1], steps[|steps| - 1];
      CosiChanges(k, y, init) + Owed(last.Environment? && ChangesStore(k, Run(k, y, init), last))
  }

  predicate IsNews(y: System, step: Step) {
    step.Deliver? &&
    match step.what
    case PolicyWatch => y.caches.policy.pending != []
    case ClaimWatch => y.caches.claim.pending != []
    case AccessWatch => y.caches.access.pending != []
    case ScheduleWatch => y.caches.schedule.pending != []
    case RepositoryCache => false
  }

  // A delivery wakes the controller exactly if it brings news of the policy or of an object it owns;
  // the repository Secret is not among those.
  lemma NewsWakes(y: System, what: Watched)
    ensures Delivered(y, what).dirty <==> y.dirty || IsNews(y, Deliver(what))
  {
  }

  // How often an event wakes the controller.
  function WokenByEvents(k: Setup, y: System, steps: seq<Step>): nat {
    if steps == [] then 0
    else
      var before := Run(k, y, steps[..|steps| - 1]);
      WokenByEvents(k, y, steps[..|steps| - 1]) + Owed(IsNews(before, steps[|steps| - 1]))
  }

  function Undelivered(y: System): nat {
    |y.caches.policy.pending| + |y.caches.claim.pending| + |y.caches.access.pending| + |y.caches.schedule.pending|
  }

  // A call writes one object, if any, and so does COSI.
  predicate OneAtMost(s: Store, s': Store) {
    || s' == s.(policy := s'.policy)
    || s' == s.(claim := s'.claim)
    || s' == s.(access := s'.access)
    || s' == s.(schedule := s'.schedule)
    || s' == s.(repository := s'.repository)
    || s' == s.(credentials := s'.credentials)
  }

  lemma CallWritesOne(k: Setup, s: Store, v: View, w: Worker, fault: Fault, password: NewPassword)
    ensures OneAtMost(s, Call(k, s, v, w, fault, password).1)
  {
    hide Resolve, BucketIn, BucketClaimConfig, BucketAccessConfig, ScheduleConfig, StatusConfig, WantOf, ReadStatus;
    hide Applied, Apply, IsReady, Password;
  }

  lemma MoveTellsOnce(y: System, s: Store)
    requires InStep(y) && OneAtMost(y.store, s)
    ensures Undelivered(Moved(y, s)) <= Undelivered(y) + Owed(s != y.store)
  {
    hide Visible, VisibleSecret;
  }

  lemma MovedTells(k: Setup, y: System, step: Step, s: Store)
    requires InStep(y) && OneAtMost(y.store, s)
    requires Do(k, y, step).store == s && Do(k, y, step).caches == Moved(y, s).caches
    ensures Undelivered(Do(k, y, step)) <= Undelivered(y) + Owed(ChangesStore(k, y, step))
  {
    hide Do, Moved, InStep, OneAtMost;
    MoveTellsOnce(y, s);
  }

  lemma StepTells(k: Setup, y: System, step: Step)
    requires InStep(y) && OwnOrCosi(step)
    ensures Undelivered(Do(k, y, step)) + Owed(IsNews(y, step)) <= Undelivered(y) + Owed(ChangesStore(k, y, step))
  {
    hide InStep, Call, OneAtMost, Notice, Logged, PhaseOf, CrdValid;
    if step.CallApi? && y.slot.Busy? {
      CallWritesOne(k, y.store, y.caches.AsView(), y.slot.w, step.fault, step.password);
      MovedTells(k, y, step, Call(k, y.store, y.caches.AsView(), y.slot.w, step.fault, step.password).1);
    }
    if step.Environment? {
      CosiChangesOne(y.store, step.change);
      MovedTells(k, y, step, Changed(y.store, step.change));
    }
  }

  lemma CosiChangesOne(s: Store, change: Change)
    requires IsCosi(change)
    ensures OneAtMost(s, Changed(s, change))
  {
    hide CrdValid;
  }

  lemma {:induction false} RunPays(k: Setup, y: System, steps: seq<Step>)
    requires Alone(k, y) && OnlyCosi(steps)
    ensures var z := Run(k, y, steps);
            && Alone(k, z)
            && Writes(k, y, steps) + StillOwed(k, z) <= StillOwed(k, y) + 6 * CosiChanges(k, y, steps)
            && WokenByEvents(k, y, steps) + Undelivered(z) <=
                 Undelivered(y) + Writes(k, y, steps) + CosiChanges(k, y, steps)
  {
    hide Alone, Do, StillOwed, Undelivered, IsNews, OwnOrCosi;
    if steps != [] {
      var init, last := steps[..|steps| - 1], steps[|steps| - 1];
      assert OnlyCosi(init);
      RunPays(k, y, init);
      var before := Run(k, y, init);
      AloneInStep(k, before);
      StepStaysAlone(k, before, last);
      StepTells(k, before, last);
      OneStepPays(k, before, last);
    }
  }

  lemma OneStepPays(k: Setup, y: System, step: Step)
    requires Alone(k, y) && OwnOrCosi(step)
    ensures StillOwed(k, Do(k, y, step)) + Owed(!step.Environment? && ChangesStore(k, y, step)) <=
              StillOwed(k, y) + 6 * Owed(step.Environment? && ChangesStore(k, y, step))
  {
    hide Alone, Do, StillOwed;
    if step.Environment? {
      AloneInStep(k, y);
      CosiCosts(k, y, step.change);
    } else {
      StepPays(k, y, step);
    }
  }

  lemma AloneInStep(k: Setup, y: System)
    requires Alone(k, y)
    ensures InStep(y)
  {
    hide InStep, OnlyAmpulla, Justified;
  }

  lemma OwedIsLittle(k: Setup, y: System)
    requires y.slot.Idle?
    ensures StillOwed(k, y) <= 13 + NewsOwed(y)
  {
    hide ScheduleOwed, ReportsOwed;
    IdleReports(k, y);
  }

  // A run has led here, the controller is idle and has been told of the last spec.
  predicate CaughtUp(k: Setup, y: System, before: seq<Step>, z: System) {
    Init(y) && LeaveStatus(before) && z == Run(k, y, before) && z.slot.Idle? && z.caches.policy.pending == []
  }

  // As long as nobody acts but COSI: whatever is delivered, lost, repeated or restarted from there
  // on, at most 13 steps of the controller's change the store, and three more for each event of
  // the claim or the access still to come, and six for each change that COSI makes.
  lemma {:induction false} OwnWritesAreFinite(k: Setup, y: System, before: seq<Step>, z: System, steps: seq<Step>)
    requires CaughtUp(k, y, before, z) && OnlyCosi(steps)
    ensures Writes(k, z, steps) <=
              13 + 3 * (|z.caches.claim.pending| + |z.caches.access.pending|) + 6 * CosiChanges(k, z, steps)
  {
    hide Init, Run, Writes, CosiChanges, WokenByEvents, StillOwed, Undelivered, Alone;
    AlwaysHonest(k, y, before);
    InStepAlways(k, y, before);
    HonestIsAlone(k, z);
    OwedIsLittle(k, z);
    RunPays(k, z, steps);
  }

  // Each change comes back as one event at most, so the controller wakes itself only that often.
  lemma {:induction false} OwnWakeupsAreFinite(k: Setup, y: System, before: seq<Step>, z: System, steps: seq<Step>)
    requires CaughtUp(k, y, before, z) && OnlyCosi(steps)
    ensures WokenByEvents(k, z, steps) <=
              Undelivered(z) + 13 + 3 * (|z.caches.claim.pending| + |z.caches.access.pending|)
              + 7 * CosiChanges(k, z, steps)
  {
    hide Init, Run, Writes, CosiChanges, WokenByEvents, StillOwed, Undelivered, Alone;
    AlwaysHonest(k, y, before);
    InStepAlways(k, y, before);
    HonestIsAlone(k, z);
    RunPays(k, z, steps);
    OwnWritesAreFinite(k, y, before, z, steps);
  }

  lemma HonestIsAlone(k: Setup, y: System)
    requires Honest(k, y) && InStep(y) && y.slot.Idle? && y.caches.policy.pending == []
    ensures Alone(k, y)
  {
    hide Recorded, Justified, Truthful, TruthfulLog, OnlyAmpulla, ReadStatus;
  }
}
