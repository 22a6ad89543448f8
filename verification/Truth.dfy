// The status tells the truth about the spec it names, over all runs.

module Truth {
  import opened Api
  import opened BucketSecret
  import opened Config
  import opened Names
  import opened ServerSideApply
  import opened Objects
  import opened StatusView
  import opened Reconciler
  import opened Tracking
  import opened Protocol

  // What a status says about the spec it was computed from.
  predicate Describes(k: Setup, spec: Spec, st: Status) {
    var r := Resolve(spec, k.defaults);
    && st.phase != NoPhase
    && (st.phase == Failed <==> r.NotActionable?)
    && (r.NotActionable? ==> st.message == Rejected(r.unmet))
    && (st.phase == Ready <==> st.endpoint != "")
    && (st.phase == Ready <==> st.credentialsSecret != "")
    && (st.phase == Ready ==> st.bucket != "" && st.credentialsSecret == NamesOf(k).credentialsSecret)
    && (st.schedule != "" <==> st.phase == Ready && r.cfg.mode == ScheduleMode)
    && (st.schedule != "" ==> st.schedule == r.cfg.schedules.backup)
  }

  lemma CredentialsSecretIsNamed(k: Setup)
    ensures NamesOf(k).credentialsSecret != ""
  {
    hide Stem;
  }

  lemma WantDescribes(k: Setup, p: Policy, v: Verdict)
    requires JustifiedVerdict(k, p, v) && CrdValid(p.spec)
    ensures Describes(k, p.spec, WantOf(k, p, v))
  {
    hide Resolve, BucketIn, NamesOf, IsReady;
    CredentialsSecretIsNamed(k);
    if Resolve(p.spec, k.defaults).Resolved? {
      ResolvedIsUsable(p.spec, k.defaults);
    }
    if v.ServingBucket? || v.BackingUp? {
      AcceptedIffComplete(v.evidence.credentials.data);
    }
  }

  // ---------- The history of specs ----------

  // A version of the policy that the history knows.
  predicate Known(specs: seq<Spec>, p: Policy) {
    1 <= p.generation <= |specs| && specs[p.generation - 1] == p.spec
  }

  predicate Versions(specs: seq<Spec>, i: Informer<Policy>) {
    && Known(specs, i.cached)
    && (forall j :: 0 <= j < |i.pending| ==>
          Known(specs, i.pending[j]) && i.cached.generation <= i.pending[j].generation)
    && (forall j, l :: 0 <= j < l < |i.pending| ==> i.pending[j].generation <= i.pending[l].generation)
  }

  function PolicyOf(slot: Slot): Option<Policy> {
    match slot
    case Idle(_) => None
    case Busy(GettingPolicy) => None
    case Busy(Finished(_)) => None
    case Busy(w) => Some(w.p)
  }

  predicate Admitted(specs: seq<Spec>) {
    forall i :: 0 <= i < |specs| ==> CrdValid(specs[i])
  }

  predicate Recorded(y: System) {
    && |y.specs| == y.store.policy.generation
    && Known(y.specs, y.store.policy)
    && Admitted(y.specs)
    && Versions(y.specs, y.caches.policy)
    && y.caches.policy.Latest() == y.store.policy
    && (PolicyOf(y.slot).Some? ==>
          && Known(y.specs, PolicyOf(y.slot).value)
          && PolicyOf(y.slot).value.generation <= y.caches.policy.cached.generation)
  }

  lemma ObserveKeepsVersions(specs: seq<Spec>, i: Informer<Policy>, p: Policy)
    requires Versions(specs, i) && Known(specs, p) && i.Latest().generation <= p.generation
    ensures Versions(specs, i.Observe(p)) && i.Observe(p).Latest() == p
    ensures i.Observe(p).cached == i.cached
  {
  }

  lemma DeliverKeepsVersions(specs: seq<Spec>, i: Informer<Policy>)
    requires Versions(specs, i)
    ensures Versions(specs, i.Deliver()) && i.Deliver().Latest() == i.Latest()
    ensures i.cached.generation <= i.Deliver().cached.generation
  {
  }

  lemma GrowKeepsVersions(specs: seq<Spec>, i: Informer<Policy>, spec: Spec)
    requires Versions(specs, i)
    ensures Versions(specs + [spec], i)
  {
  }

  // A move leaves the policy alone, changes its status or presence, or edits its spec.
  predicate PolicyMoves(p: Policy, q: Policy) {
    || (q.generation == p.generation && q.spec == p.spec)
    || (q.generation == p.generation + 1 && CrdValid(q.spec))
  }

  lemma MoveKeepsRecord(y: System, s: Store)
    requires Recorded(y) && PolicyMoves(y.store.policy, s.policy)
    ensures Recorded(Moved(y, s))
    ensures y.specs <= Moved(y, s).specs
    ensures Moved(y, s).caches.policy.cached == y.caches.policy.cached
  {
    hide CrdValid, Visible, VisibleSecret, Versions, Informer.Observe, Informer.Latest;
    var y' := Moved(y, s);
    assert y'.caches.policy == y.caches.policy.Observe(s.policy);
    if s.policy.generation != y.store.policy.generation {
      GrowKeepsVersions(y.specs, y.caches.policy, s.policy.spec);
    }
    ObserveKeepsVersions(y'.specs, y.caches.policy, s.policy);
  }

  lemma ChangeMovesPolicy(s: Store, c: Change)
    ensures PolicyMoves(s.policy, Changed(s, c).policy)
    ensures c.EditStatus? || Changed(s, c).policy.status == s.policy.status
  {
    hide CrdValid;
  }

  // A call keeps the policy it works for, or is the one that reads it from the cache; it writes
  // nothing of the policy but its status.
  lemma CallKeepsPolicy(k: Setup, s: Store, v: View, w: Worker, fault: Fault, password: NewPassword)
    ensures var (w', s') := Call(k, s, v, w, fault, password);
            && s'.policy.generation == s.policy.generation && s'.policy.spec == s.policy.spec
            && (PolicyOf(Busy(w')).Some? ==>
                  PolicyOf(Busy(w')) == if w.GettingPolicy? then Some(v.policy) else PolicyOf(Busy(w)))
    ensures var (w', s') := Call(k, s, v, w, fault, password);
            s'.policy.status != s.policy.status ==>
              w.Reporting? && s'.policy.status == Apply(s.policy.status, StatusConfig(WantOf(k, w.p, w.verdict)))
  {
    hide Resolve, BucketIn, BucketClaimConfig, BucketAccessConfig, ScheduleConfig, StatusConfig, WantOf, ReadStatus;
    hide Applied, Apply, IsReady, Password;
  }

  lemma CalledKeepsRecord(k: Setup, y: System, fault: Fault, password: NewPassword)
    requires Recorded(y) && y.slot.Busy?
    ensures Recorded(Called(k, y, fault, password))
    ensures Called(k, y, fault, password).specs == y.specs
    ensures Called(k, y, fault, password).caches.policy.cached == y.caches.policy.cached
  {
    hide Call, Logged, Versions, Admitted, Informer.Latest, Notice;
    var v := y.caches.AsView();
    CallKeepsPolicy(k, y.store, v, y.slot.w, fault, password);
    var (w, s) := Call(k, y.store, v, y.slot.w, fault, password);
    MoveKeepsRecord(y, s);
    assert Known(y.specs, y.caches.policy.cached) by { CachedIsKnown(y.specs, y.caches.policy); }
  }

  lemma CachedIsKnown(specs: seq<Spec>, i: Informer<Policy>)
    requires Versions(specs, i)
    ensures Known(specs, i.cached)
  {
  }

  lemma OtherStepsKeepRecord(k: Setup, y: System, step: Step)
    requires Recorded(y) && !step.Environment? && !step.CallApi?
    ensures Recorded(Do(k, y, step))
    ensures Do(k, y, step).specs == y.specs
    ensures Do(k, y, step).store == y.store
    ensures y.caches.policy.cached.generation <= Do(k, y, step).caches.policy.cached.generation
  {
    hide Call, Logged, Moved, Admitted, Visible, VisibleSecret, PhaseOf, Versions, Informer.Latest, Informer.Deliver;
    DeliverKeepsVersions(y.specs, y.caches.policy);
    LatestIsNewest(y.specs, y.caches.policy);
    ListedVersions(y.specs, y.store.policy);
  }

  lemma ListedVersions(specs: seq<Spec>, p: Policy)
    requires Known(specs, p)
    ensures Versions(specs, Informer(p, [])) && Informer(p, []).Latest() == p
  {
  }

  lemma LatestIsNewest(specs: seq<Spec>, i: Informer<Policy>)
    requires Versions(specs, i)
    ensures i.cached.generation <= i.Latest().generation
  {
  }

  // ---------- The status ----------

  predicate Truthful(k: Setup, specs: seq<Spec>, st: Status) {
    st == NO_STATUS ||
    (1 <= st.observedGeneration <= |specs| && Describes(k, specs[st.observedGeneration - 1], st))
  }

  // The status on the policy; a status names the generation it was computed from.
  function StatusOf(y: System): Status {
    ReadStatus(y.store.policy.status)
  }

  function ObservedGeneration(y: System): nat {
    StatusOf(y).observedGeneration
  }

  // Every status a reconcile ever wrote told the truth.
  predicate TruthfulLog(k: Setup, specs: seq<Spec>, log: seq<Event>) {
    forall i :: 0 <= i < |log| && log[i].WroteStatus? ==>
      log[i].status != NO_STATUS && Truthful(k, specs, log[i].status)
  }

  predicate Sincere(k: Setup, y: System) {
    && Recorded(y)
    && Justified(k, Standing(y.slot))
    && TruthfulLog(k, y.specs, y.log)
  }

  lemma TruthGrows(k: Setup, specs: seq<Spec>, specs': seq<Spec>, log: seq<Event>)
    requires specs <= specs'
    ensures TruthfulLog(k, specs, log) ==> TruthfulLog(k, specs', log)
    ensures forall st :: Truthful(k, specs, st) ==> Truthful(k, specs', st)
  {
    hide Describes;
  }

  // What a reconcile would report is true of the generation it works for.
  lemma ReportIsTruthful(k: Setup, y: System)
    requires Recorded(y) && Justified(k, Standing(y.slot)) && y.slot.Busy? && y.slot.w.Reporting?
    ensures var want := WantOf(k, y.slot.w.p, y.slot.w.verdict);
            && want != NO_STATUS
            && Truthful(k, y.specs, want)
            && want.observedGeneration == y.slot.w.p.generation
  {
    hide JustifiedVerdict, Describes, Versions, CrdValid, PhaseOf;
    WantDescribes(k, y.slot.w.p, y.slot.w.verdict);
    DescribedIsSomething(k, y.slot.w.p.spec, WantOf(k, y.slot.w.p, y.slot.w.verdict));
  }

  lemma DescribedIsSomething(k: Setup, spec: Spec, st: Status)
    requires Describes(k, spec, st)
    ensures st != NO_STATUS
  {
    hide Resolve;
  }

  lemma CallKeepsSincere(k: Setup, y: System, fault: Fault, password: NewPassword)
    requires Sincere(k, y) && y.slot.Busy?
    ensures Sincere(k, Called(k, y, fault, password))
  {
    hide Recorded, Justified, Call, Truthful, Notice;
    var v := y.caches.AsView();
    CalledKeepsRecord(k, y, fault, password);
    CallJustified(k, y.store, v, y.slot.w, fault, password);
    if y.slot.w.Reporting? {
      ReportIsTruthful(k, y);
    }
    assert forall e :: e in Logged(k, y.store, v, y.slot.w, fault, password) && e.WroteStatus? ==>
             y.slot.w.Reporting? && e.status == WantOf(k, y.slot.w.p, y.slot.w.verdict) by {
      LoggedStatus(k, y.store, v, y.slot.w, fault, password);
    }
    hide Logged;
    var log := Logged(k, y.store, v, y.slot.w, fault, password);
    assert forall i :: 0 <= i < |log| ==> log[i] in log;
  }

  lemma LoggedStatus(k: Setup, s: Store, v: View, w: Worker, fault: Fault, password: NewPassword)
    ensures forall e :: e in Logged(k, s, v, w, fault, password) && e.WroteStatus? ==>
              w.Reporting? && e.status == WantOf(k, w.p, w.verdict)
  {
    hide WantOf, IsSilent, Applied, ScheduleConfig;
  }

  lemma EnvironmentKeepsSincere(k: Setup, y: System, change: Change)
    requires Sincere(k, y)
    ensures Sincere(k, Moved(y, Changed(y.store, change)))
  {
    hide Recorded, Justified, Truthful, TruthfulLog, Changed, Notice;
    ChangeMovesPolicy(y.store, change);
    MoveKeepsRecord(y, Changed(y.store, change));
    TruthGrows(k, y.specs, Moved(y, Changed(y.store, change)).specs, y.log);
  }

  lemma OtherStepsKeepSincere(k: Setup, y: System, step: Step)
    requires Sincere(k, y) && !step.Environment? && !step.CallApi?
    ensures Sincere(k, Do(k, y, step))
  {
    hide Recorded, Truthful, Moved, Called, PhaseOf, JustifiedVerdict, Resolves, Proven, Informer.Deliver;
    OtherStepsKeepRecord(k, y, step);
  }

  lemma StepKeepsSincere(k: Setup, y: System, step: Step)
    requires Sincere(k, y)
    ensures Sincere(k, Do(k, y, step))
  {
    hide Sincere, Called, Moved, Changed, Delivered, PhaseOf, Listed;
    match step
    case Environment(change) => EnvironmentKeepsSincere(k, y, change);
    case CallApi(fault, password) => if y.slot.Busy? { CallKeepsSincere(k, y, fault, password); }
    case _ => OtherStepsKeepSincere(k, y, step);
  }

  lemma InitIsSincere(k: Setup, y: System)
    requires Init(y)
    ensures Sincere(k, y)
  {
    hide CrdValid, Visible, VisibleSecret;
  }

  lemma {:induction false} AlwaysSincere(k: Setup, y: System, steps: seq<Step>)
    requires Init(y)
    ensures Sincere(k, Run(k, y, steps))
  {
    hide Sincere, Do, Init;
    if steps == [] {
      InitIsSincere(k, y);
    } else {
      AlwaysSincere(k, y, steps[..|steps| - 1]);
      StepKeepsSincere(k, Run(k, y, steps[..|steps| - 1]), steps[|steps| - 1]);
    }
  }

  // Over every run, with everybody free to do anything, each status that was ever written
  // describes the spec at the generation it names.
  lemma {:induction false} EveryStatusWrittenIsTruthful(k: Setup, y: System, steps: seq<Step>, i: nat)
    requires Init(y)
    requires i < |Run(k, y, steps).log| && Run(k, y, steps).log[i].WroteStatus?
    ensures var z := Run(k, y, steps);
            var st := z.log[i].status;
            && |z.specs| == z.store.policy.generation
            && 1 <= st.observedGeneration <= z.store.policy.generation
            && Describes(k, z.specs[st.observedGeneration - 1], st)
  {
    hide Run, Init, Describes, Versions, Justified, Admitted;
    AlwaysSincere(k, y, steps);
  }

  // ---------- The stored status, while nobody else writes it ----------

  predicate LeavesStatus(step: Step) {
    step.Environment? ==> !step.change.EditStatus?
  }

  predicate LeaveStatus(steps: seq<Step>) {
    forall i :: 0 <= i < |steps| ==> LeavesStatus(steps[i])
  }

  predicate Honest(k: Setup, y: System) {
    && Sincere(k, y)
    && OnlyAmpulla(y.store.policy.status)
    && Truthful(k, y.specs, StatusOf(y))
    && ObservedGeneration(y) <= y.caches.policy.cached.generation
    && (PolicyOf(y.slot).Some? ==> ObservedGeneration(y) <= PolicyOf(y.slot).value.generation)
  }

  lemma EnvironmentKeepsHonest(k: Setup, y: System, change: Change)
    requires Honest(k, y) && !change.EditStatus?
    ensures var z := Moved(y, Changed(y.store, change));
            (Sincere(k, z) ==> Honest(k, z)) && ObservedGeneration(z) == ObservedGeneration(y)
  {
    hide Recorded, Justified, Truthful, TruthfulLog, Changed, OnlyAmpulla, ReadStatus, Sincere, Notice;
    var s := Changed(y.store, change);
    RecordedOf(k, y);
    ChangeMovesPolicy(y.store, change);
    MoveKeepsRecord(y, s);
    TruthGrows(k, y.specs, Moved(y, s).specs, []);
  }

  lemma OtherStepsKeepHonest(k: Setup, y: System, step: Step)
    requires Honest(k, y) && !step.Environment? && !step.CallApi?
    ensures var z := Do(k, y, step);
            (Sincere(k, z) ==> Honest(k, z)) && ObservedGeneration(z) == ObservedGeneration(y)
  {
    hide Truthful, Do, OnlyAmpulla, ReadStatus, Sincere, Recorded;
    RecordedOf(k, y);
    OtherStepsKeepRecord(k, y, step);
    OtherStepsKeepPolicy(k, y, step);
  }

  // What one step does to the status and to the order of generations.
  lemma StepKeepsHonest(k: Setup, y: System, step: Step)
    requires Honest(k, y) && LeavesStatus(step)
    ensures Honest(k, Do(k, y, step))
    ensures ObservedGeneration(y) <= ObservedGeneration(Do(k, y, step))
  {
    hide Honest, Called, Moved, Changed, Delivered, Sincere, PhaseOf, Listed, ReadStatus, ObservedGeneration;
    assert Sincere(k, y) by { HonestIsSincere(k, y); }
    StepKeepsSincere(k, y, step);
    match step
    case Environment(change) => EnvironmentKeepsHonest(k, y, change);
    case CallApi(fault, password) => if y.slot.Busy? { CallKeepsHonest(k, y, fault, password); }
    case _ => OtherStepsKeepHonest(k, y, step);
  }

  lemma HonestIsSincere(k: Setup, y: System)
    requires Honest(k, y)
    ensures Sincere(k, y)
  {
    hide Sincere, Truthful, OnlyAmpulla, ReadStatus;
  }

  lemma RecordedOf(k: Setup, y: System)
    requires Sincere(k, y)
    ensures Recorded(y) && Justified(k, Standing(y.slot))
  {
  }

  lemma OtherStepsKeepPolicy(k: Setup, y: System, step: Step)
    requires !step.Environment? && !step.CallApi?
    ensures PolicyOf(Do(k, y, step).slot).Some? ==> PolicyOf(Do(k, y, step).slot) == PolicyOf(y.slot)
  {
    hide Moved, Called, PhaseOf;
  }

  lemma CallKeepsHonest(k: Setup, y: System, fault: Fault, password: NewPassword)
    requires Honest(k, y) && y.slot.Busy?
    requires Sincere(k, Called(k, y, fault, password))
    ensures Honest(k, Called(k, y, fault, password))
    ensures ObservedGeneration(y) <= ObservedGeneration(Called(k, y, fault, password))
  {
    hide Call, Logged, Notice, Justified, Recorded, Sincere, Truthful, OnlyAmpulla, ReadStatus;
    var v := y.caches.AsView();
    RecordedOf(k, y);
    CallKeepsPolicy(k, y.store, v, y.slot.w, fault, password);
    CalledKeepsRecord(k, y, fault, password);
    if y.slot.w.Reporting? {
      ReportIsTruthful(k, y);
      StatusRoundTrip(y.store.policy.status, WantOf(k, y.slot.w.p, y.slot.w.verdict));
      WorkingPolicyIsCached(y);
    }
  }

  lemma WorkingPolicyIsCached(y: System)
    requires Recorded(y) && PolicyOf(y.slot).Some?
    ensures PolicyOf(y.slot).value.generation <= y.caches.policy.cached.generation
  {
    hide Versions;
  }

  lemma InitIsHonest(k: Setup, y: System)
    requires Init(y)
    ensures Honest(k, y) && StatusOf(y) == NO_STATUS
  {
    hide CrdValid, Visible, VisibleSecret, Sincere;
    InitIsSincere(k, y);
  }

  lemma {:induction false} AlwaysHonest(k: Setup, y: System, steps: seq<Step>)
    requires Init(y) && LeaveStatus(steps)
    ensures Honest(k, Run(k, y, steps))
  {
    hide Honest, Do, Init, LeavesStatus;
    if steps == [] {
      InitIsHonest(k, y);
    } else {
      var init := steps[..|steps| - 1];
      assert LeaveStatus(init);
      AlwaysHonest(k, y, init);
      StepKeepsHonest(k, Run(k, y, init), steps[|steps| - 1]);
    }
  }

  // In every reachable state the stored status, once there is one, describes the spec at its
  // observed generation, which is never beyond the current one.
  lemma {:induction false} StatusIsTruthful(k: Setup, y: System, steps: seq<Step>)
    requires Init(y) && LeaveStatus(steps)
    ensures var z := Run(k, y, steps);
            && |z.specs| == z.store.policy.generation
            && ObservedGeneration(z) <= z.store.policy.generation
            && (StatusOf(z) != NO_STATUS ==>
                  && 1 <= ObservedGeneration(z)
                  && Describes(k, z.specs[ObservedGeneration(z) - 1], StatusOf(z)))
  {
    hide Run, Init, Describes, Versions, Justified, Admitted, ReadStatus, OnlyAmpulla;
    AlwaysHonest(k, y, steps);
  }

  // And it never goes back, however stale the cache, however often the spec is edited meanwhile.
  lemma {:induction false} ObservedGenerationNeverGoesBack(k: Setup, y: System, steps: seq<Step>, step: Step)
    requires Init(y) && LeaveStatus(steps) && LeavesStatus(step)
    ensures ObservedGeneration(Run(k, y, steps)) <= ObservedGeneration(Do(k, Run(k, y, steps), step))
  {
    hide Run, Init, Honest, Do, ObservedGeneration;
    AlwaysHonest(k, y, steps);
    StepKeepsHonest(k, Run(k, y, steps), step);
  }
}
