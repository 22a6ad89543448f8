// The bucket the status names and the bucket the Schedule backs up to.

module Agreement {
  import opened Api
  import opened BucketSecret
  import opened Config
  import opened ServerSideApply
  import opened Objects
  import opened ScheduleView
  import opened StatusView
  import opened Reconciler
  import opened Tracking
  import opened Protocol
  import opened Wakeups
  import opened Truth
  import opened Provisioning

  // While it is calm, the status names the very bucket the Schedule points at.
  lemma {:induction false} CalmStatusNamesTheScheduledBucket(k: Setup, y: System, steps: seq<Step>)
    requires Init(y) && LeaveStatus(steps)
    requires var z := Run(k, y, steps);
             && z.slot.Idle? && Calm(z) && z.slot.last.Some? && z.slot.last.value.Reported?
             && z.slot.last.value.verdict.BackingUp?
    ensures var z := Run(k, y, steps);
            && StatusOf(z).phase == Ready
            && z.store.schedule.Some?
            && exists region ::
                 PointsAt(k, z.store.schedule.value.fields, Bucket(StatusOf(z).bucket, StatusOf(z).endpoint, region))
  {
    hide Init, Run, Calm, Justified, ReadStatus, StatusConfig, Apply, ScheduleConfig, Sincere, Truthful;
    hide PointsAt, OnlyAmpulla;
    AlwaysAwake(k, y, steps);
    AlwaysHonest(k, y, steps);
    var z := Run(k, y, steps);
    var p, v := z.slot.last.value.policy, z.slot.last.value.verdict;
    StatusRoundTrip(z.store.policy.status, WantOf(k, p, v));
    var bucket := v.evidence.bucket;
    ScheduleConfigPoints(k, z.store.schedule.value.fields, v.cfg, bucket);
    assert PointsAt(k, z.store.schedule.value.fields, Bucket(StatusOf(z).bucket, StatusOf(z).endpoint, bucket.region));
  }

  // Put without the conclusion: where an idle, calm controller leaves a policy that is still
  // there with a status that says Ready for the current spec, the status names the bucket and the
  // endpoint the Schedule backs up to.
  lemma {:induction false} CalmIsNotParted(k: Setup, y: System, steps: seq<Step>)
    requires Init(y) && LeaveStatus(steps)
    requires var z := Run(k, y, steps);
             z.slot.Idle? && Calm(z) && z.store.policy.presence == Live
    ensures !Parted(Run(k, y, steps))
  {
    hide Init, Run, Calm, OnTrack, Parted, Sincere, Truthful, OnlyAmpulla, InStep, ReadStatus;
    AlwaysAwake(k, y, steps);
    AlwaysHonest(k, y, steps);
    var z := Run(k, y, steps);
    CalmIsClean(z);
    var outcome := Standing(z.slot).outcome;
    if outcome.Reported? {
      ReportedIsNotParted(k, z, outcome.policy, outcome.verdict);
    } else {
      SkippedIsNotLive(k, z.store, outcome);
    }
  }

  lemma CalmIsClean(y: System)
    requires Calm(y)
    ensures !y.dirty
  {
  }

  lemma SkippedIsNotLive(k: Setup, s: Store, outcome: Outcome)
    requires OnTrack(k, s, Finished(outcome)) && outcome.Skipped?
    ensures s.policy.presence != Live
  {
  }

  lemma ReportedIsNotParted(k: Setup, y: System, p: Policy, v: Verdict)
    requires OnTrack(k, y.store, Finished(Reported(p, v))) && OnlyAmpulla(y.store.policy.status)
    ensures !Parted(y)
  {
    hide Justified, StatusConfig, ReadStatus, Apply, OnlyAmpulla, Resolve, Proven, HasEvidence, HasAccess, HasClaim;
    hide SameBucket, Applied, ScheduleConfig, Visible;
    StatusRoundTrip(y.store.policy.status, WantOf(k, p, v));
    match v
    case ServingBucket(_) => ServingIsForBucketOnly(k, p, v);
    case BackingUp(cfg, ev) => AppliedNamesItsBucket(k, y.store.schedule, cfg, ev.bucket, StatusOf(y));
    case _ =>
  }

  lemma ServingIsForBucketOnly(k: Setup, p: Policy, v: Verdict)
    requires JustifiedVerdict(k, p, v) && v.ServingBucket?
    ensures p.spec.mode == BucketOnlyMode
  {
    hide Resolve, Proven;
    ModeIsTheSpecs(k, p, Resolve(p.spec, k.defaults).cfg);
  }

  // What COSI said last, word for word, or nothing if it said nothing.
  predicate IsLastError(text: string, cosi: CosiStatus) {
    && (cosi.error.Some? && cosi.error.value.Some? ==> text == cosi.error.value.value)
    && (cosi.error == None || cosi.error == Some(None) ==> text == "")
  }

  // While it is calm, a policy that waits says what COSI says: the message carries the error that
  // the claim or the access holds now, and the bucket is the one the claim is bound to.
  lemma {:induction false} CalmWaitsAreExplained(k: Setup, y: System, steps: seq<Step>)
    requires Init(y) && LeaveStatus(steps)
    requires var z := Run(k, y, steps);
             && z.slot.Idle? && Calm(z) && z.slot.last.Some? && z.slot.last.value.Reported?
             && (z.slot.last.value.verdict.AwaitClaim? || z.slot.last.value.verdict.AwaitAccess?)
    ensures var z := Run(k, y, steps);
            && StatusOf(z).phase == Pending
            && z.store.claim.Some?
            && (z.slot.last.value.verdict.AwaitClaim? ==>
                  && z.store.claim.value.cosi.readyToUse != Some(true)
                  && StatusOf(z).message.AwaitingBucket?
                  && IsLastError(StatusOf(z).message.cosiError, z.store.claim.value.cosi))
            && (z.slot.last.value.verdict.AwaitAccess? ==>
                  && z.store.access.Some?
                  && z.store.claim.value.cosi.readyToUse == Some(true)
                  && z.store.access.value.cosi.readyToUse != Some(true)
                  && StatusOf(z).message.AwaitingCredentials?
                  && IsLastError(StatusOf(z).message.cosiError, z.store.access.value.cosi)
                  && StatusOf(z).bucket == z.store.claim.value.cosi.boundBucket)
  {
    hide Init, Run, Calm, Resolve, ReadStatus, StatusConfig, Apply, Sincere, Truthful, OnlyAmpulla;
    AlwaysAwake(k, y, steps);
    AlwaysHonest(k, y, steps);
    var z := Run(k, y, steps);
    var p, v := z.slot.last.value.policy, z.slot.last.value.verdict;
    StatusRoundTrip(z.store.policy.status, WantOf(k, p, v));
  }

  // ---------- When they part ----------

  // The Schedule backs up to the bucket and endpoint that the status names.
  predicate SameBucket(status: Status, schedule: Option<Object>) {
    && schedule.Some?
    && S3BucketPath in schedule.value.fields && schedule.value.fields[S3BucketPath].value == Text(status.bucket)
    && S3EndpointPath in schedule.value.fields && schedule.value.fields[S3EndpointPath].value == Text(status.endpoint)
  }

  // The status says Ready for the current spec, which is to be backed up.
  predicate ReadyNow(y: System) {
    && StatusOf(y).phase == Ready
    && ObservedGeneration(y) == y.store.policy.generation
    && y.store.policy.spec.mode != BucketOnlyMode
  }

  predicate Parted(y: System) {
    ReadyNow(y) && !SameBucket(StatusOf(y), y.store.schedule)
  }

  // A reconcile about to report a Schedule has just written it for the bucket it reports.
  predicate ReportAgrees(k: Setup, s: Store, w: Worker) {
    w.Reporting? && w.verdict.BackingUp? ==> SameBucket(Coordinates(k, w.verdict.evidence.bucket), s.schedule)
  }

  predicate SlotAgrees(k: Setup, y: System) {
    y.slot.Busy? ==> ReportAgrees(k, y.store, y.slot.w)
  }

  lemma AppliedNamesItsBucket(k: Setup, o: Option<Object>, cfg: Config, bucket: Bucket, status: Status)
    ensures SameBucket(status, Applied(o, ScheduleConfig(k, cfg, bucket))) <==>
            status.bucket == bucket.id && status.endpoint == bucket.endpoint
  {
    hide ScheduleConfig, NamesOf, Apply;
    ScheduleConfigPoints(k, if o.Some? then o.value.fields else map[], cfg, bucket);
  }

  lemma CallKeepsReportAgrees(k: Setup, s: Store, v: View, w: Worker, fault: Fault, password: NewPassword)
    requires ReportAgrees(k, s, w)
    ensures var (w', s') := Call(k, s, v, w, fault, password);
            ReportAgrees(k, s', w')
  {
    hide Resolve, BucketIn, BucketClaimConfig, BucketAccessConfig, ScheduleConfig, StatusConfig, WantOf, ReadStatus;
    hide Applied, Apply, IsReady, Password, SameBucket, NamesOf;
    if w.ApplyingSchedule? {
      AppliedNamesItsBucket(k, s.schedule, w.cfg, w.ev.bucket, Coordinates(k, w.ev.bucket));
    }
  }

  // The Schedule and what is reported of it, wherever else the system has moved.
  lemma SameSlotAgrees(k: Setup, y: System, z: System)
    requires SlotAgrees(k, y)
    requires z.store.schedule == y.store.schedule
    requires z.slot == y.slot || z.slot.Idle? || z.slot == Busy(GettingPolicy)
    ensures SlotAgrees(k, z)
  {
    hide SameBucket, Coordinates;
  }

  lemma ChangeLeavesSchedule(s: Store, change: Change)
    requires !change.EditSchedule?
    ensures Changed(s, change).schedule == s.schedule
  {
    hide CrdValid;
  }

  lemma CalledKeepsSlotAgrees(k: Setup, y: System, fault: Fault, password: NewPassword)
    requires SlotAgrees(k, y) && y.slot.Busy?
    ensures SlotAgrees(k, Called(k, y, fault, password))
  {
    hide Call, Notice, Logged, ReportAgrees;
    CallKeepsReportAgrees(k, y.store, y.caches.AsView(), y.slot.w, fault, password);
  }

  lemma StepKeepsSlotAgrees(k: Setup, y: System, step: Step)
    requires SlotAgrees(k, y) && LeavesSchedule(step)
    ensures SlotAgrees(k, Do(k, y, step))
  {
    hide SlotAgrees, Called, Notice, Delivered, Changed, PhaseOf, Listed;
    match step
    case CallApi(fault, password) =>
      if y.slot.Busy? { CalledKeepsSlotAgrees(k, y, fault, password); }
    case Environment(change) =>
      ChangeLeavesSchedule(y.store, change);
      SameSlotAgrees(k, y, Do(k, y, step));
    case Deliver(what) =>
      DeliveredStore(y, what);
      SameSlotAgrees(k, y, Do(k, y, step));
    case _ =>
      SameSlotAgrees(k, y, Do(k, y, step));
  }

  lemma {:induction false} SlotAlwaysAgrees(k: Setup, y: System, steps: seq<Step>)
    requires Init(y) && HandsOff(steps)
    ensures SlotAgrees(k, Run(k, y, steps))
  {
    hide Do, ReportAgrees, LeavesStatus, LeavesSchedule, Init;
    if steps == [] {
      InitIsIdle(y);
    } else {
      var init := steps[..|steps| - 1];
      assert HandsOff(init);
      SlotAlwaysAgrees(k, y, init);
      StepKeepsSlotAgrees(k, Run(k, y, init), steps[|steps| - 1]);
    }
  }

  // A reconcile writes a Schedule for another bucket than the status names.
  predicate Redirects(y: System, step: Step) {
    && step.CallApi? && step.fault != NotMade
    && y.slot.Busy? && y.slot.w.ApplyingSchedule?
    && (y.slot.w.ev.bucket.id != StatusOf(y).bucket || y.slot.w.ev.bucket.endpoint != StatusOf(y).endpoint)
  }

  // What a call does to the Schedule and the status.
  lemma CallParts(k: Setup, y: System, fault: Fault, password: NewPassword)
    requires Honest(k, y) && SlotAgrees(k, y) && y.slot.Busy? && !Parted(y)
    ensures Parted(Called(k, y, fault, password)) <==> ReadyNow(y) && Redirects(y, CallApi(fault, password))
  {
    hide Honest, Notice, Logged, Call, SameBucket, ReadStatus, PhaseOf, Apply, StatusConfig;
    var v, w, s := y.caches.AsView(), y.slot.w, y.store;
    var (w', s') := Call(k, s, v, w, fault, password);
    CallKeepsPolicy(k, s, v, w, fault, password);
    CallOnTheSchedule(k, s, v, w, fault, password);
    if w.ApplyingSchedule? {
      AppliedNamesItsBucket(k, s.schedule, w.cfg, w.ev.bucket, StatusOf(y));
    } else if s'.policy.status != s.policy.status {
      ReportParts(k, y);
    } else if w.DeletingSchedule? {
      DeletersServe(k, y);
    }
  }

  // Nobody deletes the Schedule of a policy that is Ready for a spec that asks for one.
  lemma DeletersServe(k: Setup, y: System)
    requires Honest(k, y) && y.slot.Busy? && y.slot.w.DeletingSchedule?
    ensures !ReadyNow(y)
  {
    hide Honest, ReadStatus, Proven;
    WorkingGeneration(k, y);
    JustifiedOf(k, y);
    ModeIsTheSpecs(k, y.slot.w.p, y.slot.w.cfg);
  }

  lemma ModeIsTheSpecs(k: Setup, p: Policy, cfg: Config)
    requires Resolves(k, p, cfg)
    ensures cfg.mode == BucketOnlyMode <==> p.spec.mode == BucketOnlyMode
  {
    hide Unmet;
  }

  lemma CallOnTheSchedule(k: Setup, s: Store, v: View, w: Worker, fault: Fault, password: NewPassword)
    ensures var s' := Call(k, s, v, w, fault, password).1;
            && (w.ApplyingSchedule? ==>
                  s'.schedule ==
                    if fault == NotMade then s.schedule
                    else Applied(s.schedule, ScheduleConfig(k, w.cfg, w.ev.bucket)))
            && (!w.ApplyingSchedule? && !w.DeletingSchedule? ==> s'.schedule == s.schedule)
            && (s'.policy.status != s.policy.status ==> w.Reporting?)
  {
    hide Resolve, BucketIn, BucketClaimConfig, BucketAccessConfig, ScheduleConfig, StatusConfig, WantOf, ReadStatus;
    hide Applied, Apply, IsReady, Password;
  }

  // A report that says Ready is of the bucket the Schedule points at.
  lemma ReportParts(k: Setup, y: System)
    requires Honest(k, y) && SlotAgrees(k, y) && y.slot.Busy? && y.slot.w.Reporting?
    ensures var w := y.slot.w;
            var status := ReadStatus(Apply(y.store.policy.status, StatusConfig(WantOf(k, w.p, w.verdict))));
            (&& status.phase == Ready && status.observedGeneration == y.store.policy.generation
             && y.store.policy.spec.mode != BucketOnlyMode) ==>
              SameBucket(status, y.store.schedule)
  {
    hide Honest, ReadStatus, StatusConfig, Apply, Justified, SameBucket;
    var w := y.slot.w;
    ReportReadsBack(k, y);
    JustifiedOf(k, y);
    WorkingGeneration(k, y);
    if w.verdict.ServingBucket? {
      ServingIsBucketOnly(k, w);
    }
    if w.verdict.BackingUp? {
      SameBucketOnly(WantOf(k, w.p, w.verdict), Coordinates(k, w.verdict.evidence.bucket), y.store.schedule);
    }
  }

  lemma ReportReadsBack(k: Setup, y: System)
    requires Honest(k, y) && y.slot.Busy? && y.slot.w.Reporting?
    ensures var want := WantOf(k, y.slot.w.p, y.slot.w.verdict);
            ReadStatus(Apply(y.store.policy.status, StatusConfig(want))) == want
  {
    hide Sincere, Truthful, OnlyAmpulla, ReadStatus, StatusConfig, Apply, PhaseOf;
    StatusRoundTrip(y.store.policy.status, WantOf(k, y.slot.w.p, y.slot.w.verdict));
  }

  lemma ServingIsBucketOnly(k: Setup, w: Worker)
    requires Justified(k, w) && w.Reporting? && w.verdict.ServingBucket?
    ensures w.p.spec.mode == BucketOnlyMode
  {
    hide Resolve, Proven;
    ServingIsForBucketOnly(k, w.p, w.verdict);
  }

  lemma SameBucketOnly(a: Status, b: Status, schedule: Option<Object>)
    requires a.bucket == b.bucket && a.endpoint == b.endpoint
    ensures SameBucket(a, schedule) == SameBucket(b, schedule)
  {
  }

  lemma OtherStepsDoNotPart(k: Setup, y: System, step: Step)
    requires Honest(k, y) && !Parted(y) && LeavesStatus(step) && LeavesSchedule(step)
    requires step.CallApi? ==> y.slot.Idle?
    ensures !Parted(Do(k, y, step))
  {
    hide Honest, Called, Delivered, Notice, SameBucket, ReadStatus, PhaseOf, CrdValid;
    ObservedIsNotAhead(k, y);
    if step.Deliver? {
      DeliveredStore(y, step.what);
    }
  }

  // A run on which nobody else touches the Schedule or the status has led here.
  predicate Reached(k: Setup, y: System, steps: seq<Step>, z: System) {
    Init(y) && HandsOff(steps) && z == Run(k, y, steps)
  }

  // In every such state where the status does not say Ready of another bucket than the
  // Schedule's, whatever failed before: a step parts the two exactly if it is a reconcile's write
  // of a Schedule, seen through or with its answer lost, for another bucket or endpoint than a
  // status that says Ready for the current spec names.
  lemma {:induction false} StatusAndSchedulePartIff(k: Setup, y: System, steps: seq<Step>, z: System, step: Step)
    requires Reached(k, y, steps, z) && !Parted(z)
    requires LeavesStatus(step) && LeavesSchedule(step)
    ensures Parted(Do(k, z, step)) <==> ReadyNow(z) && Redirects(z, step)
  {
    hide Run, Init, Honest, Called, Parted, SlotAgrees, ReadyNow;
    assert LeaveStatus(steps);
    AlwaysHonest(k, y, steps);
    SlotAlwaysAgrees(k, y, steps);
    if step.CallApi? && z.slot.Busy? {
      CallParts(k, z, step.fault, step.password);
    } else {
      OtherStepsDoNotPart(k, z, step);
    }
  }

  // What somebody else has put into the status can stay there for good: a policy that is rejected
  // still names a bucket, reconcile after reconcile.
  lemma {:induction false} ARejectedPolicyCanNameABucket(
      k: Setup, s: Store, other: string, who: string, password: NewPassword)
    requires s.policy.presence == Live && Resolve(s.policy.spec, k.defaults).NotActionable?
    requires BucketPath in s.policy.status && other != ""
    requires s.policy.status[BucketPath] == Field(Text(other), {Foreign(who)})
    ensures var (outcome, s') := Fresh(k, s, GettingPolicy, password);
            && outcome.Reported? && WantOf(k, s.policy, outcome.verdict).bucket == ""
            && ReadStatus(s'.policy.status).bucket == other
            && ReadStatus(s'.policy.status) != WantOf(k, s.policy, outcome.verdict)
            && s'.policy.status[BucketPath] == s.policy.status[BucketPath]
  {
    hide Resolve, StatusConfig, ReadStatus;
    var v := Unactionable(Resolve(s.policy.spec, k.defaults).unmet);
    var want := WantOf(k, s.policy, v);
    StatusConfigAt(want, BucketPath);
    FreshStep(k, s, GettingPolicy, Reporting(s.policy, v), password);
    assert s.policy.status[BucketPath].owners - {Ampulla} == {Foreign(who)};
    assert ReadStatus(s.policy.status).bucket == other by { BucketRead(s.policy.status); }
    BucketRead(Apply(s.policy.status, StatusConfig(want)));
  }

  lemma BucketRead(f: Fields)
    ensures ReadStatus(f).bucket == TextAt(f, BucketPath)
  {
  }
}
