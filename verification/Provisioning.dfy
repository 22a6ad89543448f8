// Ready means provisioned: the Schedule is what the policy asks for whenever the status says so.

module Provisioning {
  import opened Api
  import opened BucketSecret
  import opened Config
  import opened ServerSideApply
  import opened Objects
  import opened ScheduleView
  import opened StatusView
  import opened Reconciler
  import opened Tracking
  import opened Protocol
  import opened Truth

  // The Schedule is, field by field and with no other owner, the one built for this
  // configuration, on some bucket.
  ghost predicate IsScheduleOf(k: Setup, cfg: Config, schedule: Option<Object>) {
    schedule.Some? && exists bucket :: schedule.value.fields == Owned(ScheduleConfig(k, cfg, bucket))
  }

  ghost predicate Provisioned(k: Setup, s: Store, cfg: Config) {
    if cfg.mode == BucketOnlyMode then s.schedule == None else IsScheduleOf(k, cfg, s.schedule)
  }

  ghost predicate ProvisionedFor(k: Setup, s: Store, spec: Spec) {
    Resolve(spec, k.defaults).Resolved? && Provisioned(k, s, Resolve(spec, k.defaults).cfg)
  }

  // Runs in which nobody else touches the Schedule or the status.
  predicate LeavesSchedule(step: Step) {
    step.Environment? ==> !step.change.EditSchedule?
  }

  predicate HandsOff(steps: seq<Step>) {
    forall i :: 0 <= i < |steps| ==> LeavesStatus(steps[i]) && LeavesSchedule(steps[i])
  }

  predicate OwnSchedule(s: Store) {
    s.schedule.Some? ==> OnlyAmpulla(s.schedule.value.fields)
  }

  // What is promised of a store with this policy and status, to a reconcile standing here.
  ghost predicate StatusBacked(k: Setup, s: Store) {
    (&& ReadStatus(s.policy.status).phase == Ready
     && ReadStatus(s.policy.status).observedGeneration == s.policy.generation) ==>
      ProvisionedFor(k, s, s.policy.spec)
  }

  ghost predicate ReportBacked(k: Setup, s: Store, w: Worker) {
    w.Reporting? && PhaseOf(k, w.verdict).phase == Ready ==> ProvisionedFor(k, s, w.p.spec)
  }

  // A status that says Ready for the current spec is backed by the Schedule, and so is one about
  // to be written.
  ghost predicate Backed(k: Setup, y: System) {
    && OwnSchedule(y.store)
    && (y.slot.Busy? ==> ReportBacked(k, y.store, y.slot.w))
    && StatusBacked(k, y.store)
  }

  lemma AppliedScheduleIsOwned(k: Setup, s: Store, cfg: Config, bucket: Bucket)
    requires OwnSchedule(s)
    ensures Applied(s.schedule, ScheduleConfig(k, cfg, bucket)).Some?
    ensures Applied(s.schedule, ScheduleConfig(k, cfg, bucket)).value.fields == Owned(ScheduleConfig(k, cfg, bucket))
    ensures OnlyAmpulla(Owned(ScheduleConfig(k, cfg, bucket)))
  {
    hide ScheduleConfig;
    var o: Fields := if s.schedule.Some? then s.schedule.value.fields else map[];
    ApplyOwned(o, ScheduleConfig(k, cfg, bucket));
  }

  // What one faultless call does to the Schedule.
  lemma AttemptOnSchedule(k: Setup, s: Store, v: View, w: Worker, password: NewPassword)
    requires Justified(k, w) && OwnSchedule(s)
    ensures var (w', s') := Attempt(k, s, v, w, password);
            && OwnSchedule(s')
            && (w.DeletingSchedule? || w.ApplyingSchedule? ==>
                  ProvisionedFor(k, s', w.p.spec) && PolicyOf(Busy(w)) == Some(w.p))
            && (!w.DeletingSchedule? && !w.ApplyingSchedule? ==> s'.schedule == s.schedule)
            && (w'.Reporting? && PhaseOf(k, w'.verdict).phase == Ready && w' != w ==>
                  (w.DeletingSchedule? || w.ApplyingSchedule?) && w'.p == w.p)
  {
    hide Resolve, BucketIn, BucketClaimConfig, BucketAccessConfig, ScheduleConfig, StatusConfig, WantOf, ReadStatus;
    hide Applied, Apply, IsReady, OnlyAmpulla, Proven, Password;
    if w.ApplyingSchedule? {
      AppliedScheduleIsOwned(k, s, w.cfg, w.ev.bucket);
    }
  }

  lemma CallOnSchedule(k: Setup, s: Store, v: View, w: Worker, fault: Fault, password: NewPassword)
    requires Justified(k, w) && OwnSchedule(s)
    ensures var (w', s') := Call(k, s, v, w, fault, password);
            && OwnSchedule(s')
            && (s'.schedule != s.schedule ==>
                  PolicyOf(Busy(w)).Some? && ProvisionedFor(k, s', PolicyOf(Busy(w)).value.spec))
            && (w'.Reporting? && PhaseOf(k, w'.verdict).phase == Ready && w' != w ==>
                  ProvisionedFor(k, s', w'.p.spec))
            && (w'.Reporting? && w' == w ==> s'.schedule == s.schedule)
  {
    hide Attempt, Justified, OwnSchedule, ProvisionedFor, IsSilent, PhaseOf;
    AttemptOnSchedule(k, s, v, w, password);
  }

  lemma ProvisionedSame(k: Setup, s: Store, s': Store, spec: Spec)
    requires s'.schedule == s.schedule
    ensures ProvisionedFor(k, s, spec) == ProvisionedFor(k, s', spec)
    ensures OwnSchedule(s) == OwnSchedule(s')
  {
    hide Resolve, ScheduleConfig, OnlyAmpulla;
  }

  lemma CallKeepsReportBacked(k: Setup, s: Store, v: View, w: Worker, fault: Fault, password: NewPassword)
    requires Justified(k, w) && OwnSchedule(s) && ReportBacked(k, s, w)
    ensures var (w', s') := Call(k, s, v, w, fault, password);
            OwnSchedule(s') && ReportBacked(k, s', w')
  {
    hide Call, Justified, OwnSchedule, ProvisionedFor, PhaseOf;
    var (w', s') := Call(k, s, v, w, fault, password);
    CallOnSchedule(k, s, v, w, fault, password);
    if w'.Reporting? && w' == w {
      ProvisionedSame(k, s, s', w.p.spec);
    }
  }

  // A call that leaves the status is, if it touches the Schedule, one for the very spec that a
  // Ready status at the current generation speaks of.
  lemma ScheduleWriteKeepsStatusBacked(k: Setup, y: System, fault: Fault, password: NewPassword)
    requires Honest(k, y) && Backed(k, y) && y.slot.Busy?
    requires Call(k, y.store, y.caches.AsView(), y.slot.w, fault, password).1.policy.status == y.store.policy.status
    ensures StatusBacked(k, Call(k, y.store, y.caches.AsView(), y.slot.w, fault, password).1)
  {
    hide Call, Honest, OwnSchedule, ProvisionedFor, PhaseOf, ReadStatus, Justified, ReportBacked;
    var v, w, s := y.caches.AsView(), y.slot.w, y.store;
    var s' := Call(k, s, v, w, fault, password).1;
    JustifiedOf(k, y);
    CallOnSchedule(k, s, v, w, fault, password);
    CallKeepsPolicy(k, s, v, w, fault, password);
    if s'.schedule == s.schedule {
      ProvisionedSame(k, s, s', s.policy.spec);
    } else {
      WorkingGeneration(k, y);
    }
  }

  // One that writes the status leaves the Schedule.
  lemma ReportKeepsStatusBacked(k: Setup, y: System, fault: Fault, password: NewPassword)
    requires Honest(k, y) && Backed(k, y) && y.slot.Busy? && y.slot.w.Reporting?
    requires Call(k, y.store, y.caches.AsView(), y.slot.w, fault, password).1.policy.status != y.store.policy.status
    ensures StatusBacked(k, Call(k, y.store, y.caches.AsView(), y.slot.w, fault, password).1)
  {
    hide Call, Honest, OwnSchedule, ProvisionedFor, PhaseOf, ReadStatus, Justified, StatusConfig, Apply;
    var v, w, s := y.caches.AsView(), y.slot.w, y.store;
    var s' := Call(k, s, v, w, fault, password).1;
    CallKeepsPolicy(k, s, v, w, fault, password);
    WorkingGeneration(k, y);
    ReportedStatus(k, y);
    ReportChangesNoSchedule(k, s, v, w, fault, password);
    ProvisionedSame(k, s, s', s.policy.spec);
  }

  // A call of a reconcile never takes away what a Ready status at the current generation promises:
  // that reconcile works for this very generation.
  lemma CallKeepsStatusBacked(k: Setup, y: System, fault: Fault, password: NewPassword)
    requires Honest(k, y) && Backed(k, y) && y.slot.Busy?
    ensures StatusBacked(k, Call(k, y.store, y.caches.AsView(), y.slot.w, fault, password).1)
  {
    hide Call, Honest, Backed, StatusBacked, WantOf, StatusConfig, Apply;
    CallKeepsPolicy(k, y.store, y.caches.AsView(), y.slot.w, fault, password);
    if Call(k, y.store, y.caches.AsView(), y.slot.w, fault, password).1.policy.status == y.store.policy.status {
      ScheduleWriteKeepsStatusBacked(k, y, fault, password);
    } else {
      ReportKeepsStatusBacked(k, y, fault, password);
    }
  }

  lemma ReportChangesNoSchedule(k: Setup, s: Store, v: View, w: Worker, fault: Fault, password: NewPassword)
    requires w.Reporting?
    ensures Call(k, s, v, w, fault, password).1.schedule == s.schedule
  {
    hide IsSilent, StatusConfig, WantOf;
  }

  lemma CallKeepsBacked(k: Setup, y: System, fault: Fault, password: NewPassword)
    requires Honest(k, y) && Backed(k, y) && y.slot.Busy?
    ensures Backed(k, Called(k, y, fault, password))
  {
    hide Call, Logged, Notice, Honest, OwnSchedule, ProvisionedFor, PhaseOf, ReadStatus;
    JustifiedOf(k, y);
    CallKeepsReportBacked(k, y.store, y.caches.AsView(), y.slot.w, fault, password);
    CallKeepsStatusBacked(k, y, fault, password);
  }

  lemma JustifiedOf(k: Setup, y: System)
    requires Honest(k, y) && y.slot.Busy?
    ensures Justified(k, y.slot.w)
  {
    hide Justified, Recorded, Truthful, TruthfulLog, OnlyAmpulla, ReadStatus;
  }

  lemma ReportedStatus(k: Setup, y: System)
    requires Honest(k, y) && y.slot.Busy? && y.slot.w.Reporting?
    ensures var want := WantOf(k, y.slot.w.p, y.slot.w.verdict);
            var status := ReadStatus(Apply(y.store.policy.status, StatusConfig(want)));
            status.phase == PhaseOf(k, y.slot.w.verdict).phase && status.observedGeneration == y.slot.w.p.generation
  {
    hide Sincere, Truthful, OnlyAmpulla, ReadStatus, StatusConfig, PhaseOf;
    StatusRoundTrip(y.store.policy.status, WantOf(k, y.slot.w.p, y.slot.w.verdict));
  }

  // Whoever works at the generation the status observed, or at the current one, works for its spec.
  lemma WorkingGeneration(k: Setup, y: System)
    requires Honest(k, y) && PolicyOf(y.slot).Some?
    ensures var p := PolicyOf(y.slot).value;
            && ObservedGeneration(y) <= p.generation <= y.store.policy.generation
            && (p.generation == y.store.policy.generation ==> p.spec == y.store.policy.spec)
  {
    hide Versions, Justified, Admitted, Truthful, ReadStatus, OnlyAmpulla;
  }

  lemma EnvironmentKeepsBacked(k: Setup, y: System, change: Change)
    requires Honest(k, y) && Backed(k, y) && !change.EditStatus? && !change.EditSchedule?
    ensures Backed(k, Moved(y, Changed(y.store, change)))
  {
    hide Honest, ReadStatus, OwnSchedule, ProvisionedFor, PhaseOf, Notice, CrdValid;
    var s := Changed(y.store, change);
    ObservedIsNotAhead(k, y);
    ProvisionedSame(k, y.store, s, y.store.policy.spec);
    if PolicyOf(y.slot).Some? {
      ProvisionedSame(k, y.store, s, PolicyOf(y.slot).value.spec);
    }
  }

  lemma ObservedIsNotAhead(k: Setup, y: System)
    requires Honest(k, y)
    ensures ObservedGeneration(y) <= y.store.policy.generation
  {
    hide Truthful, ReadStatus, OnlyAmpulla, Justified, TruthfulLog, Admitted;
  }

  lemma StepKeepsBacked(k: Setup, y: System, step: Step)
    requires Honest(k, y) && Backed(k, y) && LeavesStatus(step) && LeavesSchedule(step)
    ensures Backed(k, Do(k, y, step))
  {
    hide Honest, Moved, Called, Delivered, Changed, OwnSchedule, ProvisionedFor, PhaseOf, ReadStatus;
    match step
    case Environment(change) =>
      hide Backed;
      EnvironmentKeepsBacked(k, y, change);
    case CallApi(fault, password) =>
      hide Backed;
      if y.slot.Busy? { CallKeepsBacked(k, y, fault, password); }
    case Deliver(what) =>
      DeliveredStore(y, what);
    case _ =>
  }

  lemma DeliveredStore(y: System, what: Watched)
    ensures Delivered(y, what).store == y.store && Delivered(y, what).slot == y.slot
  {
  }

  lemma {:induction false} AlwaysBacked(k: Setup, y: System, steps: seq<Step>)
    requires Init(y) && OwnSchedule(y.store) && HandsOff(steps)
    ensures Honest(k, Run(k, y, steps)) && Backed(k, Run(k, y, steps))
  {
    hide Honest, Do, Init, LeavesStatus, LeavesSchedule, OwnSchedule, ProvisionedFor, ReadStatus;
    if steps == [] {
      InitIsHonest(k, y);
      assert y.slot == Idle(None) by { InitIsIdle(y); }
    } else {
      var init := steps[..|steps| - 1];
      assert HandsOff(init);
      AlwaysBacked(k, y, init);
      StepKeepsHonest(k, Run(k, y, init), steps[|steps| - 1]);
      StepKeepsBacked(k, Run(k, y, init), steps[|steps| - 1]);
    }
  }

  lemma InitIsIdle(y: System)
    requires Init(y)
    ensures y.slot == Idle(None)
  {
  }

  // In every reachable state, whatever calls failed and whatever was edited meanwhile: if the
  // status says Ready for the current generation, then in mode Schedule the Schedule holds exactly
  // the jobs the spec resolves to and references this policy's Secrets, and in mode BucketOnly
  // there is none.
  lemma {:induction false} ReadyMeansProvisioned(k: Setup, y: System, steps: seq<Step>)
    requires Init(y) && OwnSchedule(y.store) && HandsOff(steps)
    requires var z := Run(k, y, steps);
             StatusOf(z).phase == Ready && ObservedGeneration(z) == z.store.policy.generation
    ensures var s := Run(k, y, steps).store;
            && Resolve(s.policy.spec, k.defaults).Resolved?
            && var cfg := Resolve(s.policy.spec, k.defaults).cfg;
               if cfg.mode == BucketOnlyMode then s.schedule == None
               else
                 && s.schedule.Some?
                 && OnlyAmpulla(s.schedule.value.fields)
                 && JobsIn(s.schedule.value.fields) == JobsOf(cfg)
                 && exists bucket :: PointsAt(k, s.schedule.value.fields, bucket)
  {
    hide Init, Run, Honest, Resolve, ReadStatus;
    AlwaysBacked(k, y, steps);
    var z := Run(k, y, steps);
    SpecIsAdmitted(k, z);
    var s := z.store;
    var cfg := Resolve(s.policy.spec, k.defaults).cfg;
    if cfg.mode != BucketOnlyMode {
      var bucket :| s.schedule.value.fields == Owned(ScheduleConfig(k, cfg, bucket));
      ScheduleOfIsExact(k, s.policy.spec, bucket);
      assert PointsAt(k, s.schedule.value.fields, bucket);
    }
  }

  lemma SpecIsAdmitted(k: Setup, y: System)
    requires Honest(k, y)
    ensures CrdValid(y.store.policy.spec)
  {
    hide CrdValid, Versions, Justified, Truthful, TruthfulLog, OnlyAmpulla, ReadStatus;
    assert CrdValid(y.specs[|y.specs| - 1]);
  }

  lemma ScheduleOfIsExact(k: Setup, spec: Spec, bucket: Bucket)
    requires CrdValid(spec) && Resolve(spec, k.defaults).Resolved?
    ensures var cfg := Resolve(spec, k.defaults).cfg;
            var fields := Owned(ScheduleConfig(k, cfg, bucket));
            JobsIn(fields) == JobsOf(cfg) && PointsAt(k, fields, bucket)
  {
    hide JobsIn, JobsOf, ScheduleConfig, PointsAt;
    var cfg := Resolve(spec, k.defaults).cfg;
    forall key
      ensures cfg.retention.Count(key) >= 0
    {
      assert spec.retention.Count(key) >= 0;
    }
    JobsReadBack(k, cfg, bucket);
    ScheduleConfigPoints(k, map[], cfg, bucket);
    ApplyOwned<Path, Value>(map[], ScheduleConfig(k, cfg, bucket));
  }
}
