// Where a Schedule comes from: what the reconcile that wrote it had seen by then.

module Provenance {
  import opened Api
  import opened BucketSecret
  import opened Config
  import opened ServerSideApply
  import opened Objects
  import opened ScheduleView
  import opened StatusView
  import opened Reconciler
  import opened Tracking
  import opened Protocol

  // The events of the reconcile that a log ends in.
  function Since(log: seq<Event>): seq<Event> {
    if log == [] then []
    else
      var last := log[|log| - 1];
      if last == Began then [last] else Since(log[..|log| - 1]) + [last]
  }

  lemma SinceAppend(log: seq<Event>, e: Event)
    ensures Since(log + [e]) == if e == Began then [e] else Since(log) + [e]
  {
    assert (log + [e])[..|log|] == log;
  }

  predicate SawAll(seen: seq<Event>, ev: Evidence) {
    SawClaim(ev.claim) in seen && SawAccess(ev.access) in seen && SawCredentials(ev.credentials) in seen
  }

  // What a reconcile holds in its locals it has seen since it began.
  predicate Remembers(w: Worker, seen: seq<Event>) {
    match w
    case ApplyingAccess(_, _, claim) => SawClaim(claim) in seen
    case GettingAccess(_, _, claim) => SawClaim(claim) in seen
    case GettingCredentials(_, _, claim, access) => SawClaim(claim) in seen && SawAccess(access) in seen
    case DeletingSchedule(_, _, ev) => SawAll(seen, ev)
    case GettingRepository(_, _, ev) => SawAll(seen, ev)
    case CreatingRepository(_, _, ev) => SawAll(seen, ev)
    case ApplyingSchedule(_, _, ev) => SawAll(seen, ev)
    case _ => true
  }

  // Entry i wrote a Schedule after the same reconcile had seen a ready claim, a ready access and
  // a complete S3 Secret; and that Secret's bucket is what it points at, with the references
  // derived for this policy.
  ghost predicate Founded(k: Setup, log: seq<Event>, i: nat)
    requires i < |log| && log[i].WroteSchedule?
  {
    exists ev :: FoundedOn(k, log[i].schedule, Since(log[..i]), ev)
  }

  predicate FoundedOn(k: Setup, schedule: Object, seen: seq<Event>, ev: Evidence) {
    && SawAll(seen, ev)
    && ev.claim.cosi.readyToUse == Some(true)
    && ev.access.cosi.readyToUse == Some(true)
    && Complete(ev.credentials.data)
    && ev.bucket.id == ev.credentials.data[BucketIdKey]
    && ev.bucket.endpoint == ev.credentials.data[EndpointKey]
    && PointsAt(k, schedule.fields, ev.bucket)
  }

  ghost predicate AllFounded(k: Setup, log: seq<Event>) {
    forall i :: 0 <= i < |log| && log[i].WroteSchedule? ==> Founded(k, log, i)
  }

  ghost predicate WellFounded(k: Setup, y: System) {
    && Justified(k, Standing(y.slot))
    && AllFounded(k, y.log)
    && (y.slot.Busy? ==> Remembers(y.slot.w, Since(y.log)))
  }

  lemma AllFoundedAppend(k: Setup, log: seq<Event>, e: Event)
    requires AllFounded(k, log)
    requires e.WroteSchedule? ==> exists ev :: FoundedOn(k, e.schedule, Since(log), ev)
    ensures AllFounded(k, log + [e])
  {
    hide FoundedOn, Since;
    var log' := log + [e];
    forall i | 0 <= i < |log'| && log'[i].WroteSchedule?
      ensures Founded(k, log', i)
    {
      assert log'[..i] == log[..i];
      if i < |log| {
        assert Founded(k, log, i);
      } else {
        assert log'[..i] == log;
      }
    }
  }

  lemma ApplyIsFounded(k: Setup, s: Store, w: Worker, seen: seq<Event>)
    requires w.ApplyingSchedule? && Justified(k, w) && Remembers(w, seen)
    ensures FoundedOn(k, Applied(s.schedule, ScheduleConfig(k, w.cfg, w.ev.bucket)).value, seen, w.ev)
  {
    hide ScheduleConfig, PointsAt, BucketIn, Resolve;
    AcceptedIffComplete(w.ev.credentials.data);
    ScheduleConfigPoints(k, if s.schedule.Some? then s.schedule.value.fields else map[], w.cfg, w.ev.bucket);
  }

  // A call sees at most one thing, and remembers it if it keeps it.
  lemma CallRemembers(k: Setup, s: Store, v: View, w: Worker, fault: Fault, password: NewPassword, seen: seq<Event>)
    requires Remembers(w, seen)
    ensures var log := Logged(k, s, v, w, fault, password);
            && |log| <= 1 && (log != [] ==> log[0] != Began)
            && Remembers(Call(k, s, v, w, fault, password).0, seen + log)
            && (log != [] && log[0].WroteSchedule? ==>
                  && w.ApplyingSchedule?
                  && log[0].schedule == Applied(s.schedule, ScheduleConfig(k, w.cfg, w.ev.bucket)).value)
  {
    hide Resolve, BucketIn, BucketClaimConfig, BucketAccessConfig, ScheduleConfig, StatusConfig, WantOf, ReadStatus;
    hide Applied, Apply, IsReady, Password;
  }

  lemma CallKeepsWellFounded(k: Setup, y: System, fault: Fault, password: NewPassword)
    requires WellFounded(k, y) && y.slot.Busy?
    ensures WellFounded(k, Called(k, y, fault, password))
  {
    hide Call, Logged, Moved, Justified, Remembers, FoundedOn, AllFounded, Applied, ScheduleConfig;
    var v := y.caches.AsView();
    var w := y.slot.w;
    CallJustified(k, y.store, v, w, fault, password);
    CallRemembers(k, y.store, v, w, fault, password, Since(y.log));
    var log := Logged(k, y.store, v, w, fault, password);
    if log == [] {
      assert y.log + log == y.log && Since(y.log) + log == Since(y.log);
    } else {
      assert log == [log[0]];
      SinceAppend(y.log, log[0]);
      if log[0].WroteSchedule? {
        ApplyIsFounded(k, y.store, w, Since(y.log));
      }
      AllFoundedAppend(k, y.log, log[0]);
    }
  }

  lemma StartIsWellFounded(k: Setup, y: System)
    requires WellFounded(k, y)
    ensures WellFounded(k, y.(slot := Busy(GettingPolicy), dirty := false, log := y.log + [Began]))
  {
    hide Founded, AllFounded;
    AllFoundedAppend(k, y.log, Began);
  }

  // Nothing else adds to the log, or to what a reconcile holds.
  lemma SameLogIsWellFounded(k: Setup, y: System, z: System)
    requires WellFounded(k, y) && z.log == y.log
    requires Standing(z.slot) == Standing(y.slot) || Standing(z.slot) == Finished(Errored)
    requires z.slot.Busy? ==> y.slot.Busy?
    ensures WellFounded(k, z)
  {
    hide AllFounded, JustifiedVerdict, Resolves, Proven, SawAll, Since;
  }

  lemma StepKeepsWellFounded(k: Setup, y: System, step: Step)
    requires WellFounded(k, y)
    ensures WellFounded(k, Do(k, y, step))
  {
    hide WellFounded, Called, Changed, Notice, PhaseOf, Listed;
    match step
    case CallApi(fault, password) =>
      if y.slot.Busy? { CallKeepsWellFounded(k, y, fault, password); }
    case Start =>
      StartIsWellFounded(k, y);
    case _ =>
      SameLogIsWellFounded(k, y, Do(k, y, step));
  }

  lemma {:induction false} AlwaysWellFounded(k: Setup, y: System, steps: seq<Step>)
    requires Init(y)
    ensures WellFounded(k, Run(k, y, steps))
  {
    hide Do, Founded;
    if steps != [] {
      hide WellFounded;
      AlwaysWellFounded(k, y, steps[..|steps| - 1]);
      StepKeepsWellFounded(k, Run(k, y, steps[..|steps| - 1]), steps[|steps| - 1]);
    }
  }

  // Over every run, no Schedule is ever written on anything less.
  lemma {:induction false} EveryScheduleWriteIsFounded(k: Setup, y: System, steps: seq<Step>, i: nat)
    requires Init(y)
    requires i < |Run(k, y, steps).log| && Run(k, y, steps).log[i].WroteSchedule?
    ensures Founded(k, Run(k, y, steps).log, i)
  {
    hide Run, Founded;
    AlwaysWellFounded(k, y, steps);
  }

  // ---------- The log is true ----------

  // Whatever a step says it saw, is in the cache, or in the store for the credentials; and a write
  // of the controller's is in the log exactly as it is in the store.
  lemma {:induction false} TheLogIsTrue(k: Setup, y: System, step: Step)
    ensures y.log <= Do(k, y, step).log
    ensures var z := Do(k, y, step);
            var news := z.log[|y.log|..];
            && |news| <= 1
            && (forall e :: e in news ==>
                  match e
                  case Began => z.slot == Busy(GettingPolicy)
                  case SawClaim(claim) => y.caches.claim.cached == Some(claim)
                  case SawAccess(access) => y.caches.access.cached == Some(access)
                  case SawCredentials(credentials) => y.store.credentials == Some(credentials)
                  case CreatedRepository(secret) => y.store.repository == None && z.store.repository == Some(secret)
                  case WroteSchedule(schedule) => z.store.schedule == Some(schedule)
                  case WroteStatus(status) =>
                    z.store.policy.status == Apply(y.store.policy.status, StatusConfig(status)))
            && (!step.Environment? ==>
                  && (z.store.repository != y.store.repository ==>
                        z.store.repository.Some? && news == [CreatedRepository(z.store.repository.value)])
                  && (z.store.schedule != y.store.schedule && z.store.schedule.Some? ==>
                        news == [WroteSchedule(z.store.schedule.value)])
                  && (z.store.policy.status != y.store.policy.status ==>
                        news != [] && news[0].WroteStatus?))
  {
    hide Call, Logged, Notice, Changed, PhaseOf, StatusConfig, Apply;
    if step.CallApi? && y.slot.Busy? {
      CallIsLogged(k, y.store, y.caches.AsView(), y.slot.w, step.fault, step.password);
      var log := Logged(k, y.store, y.caches.AsView(), y.slot.w, step.fault, step.password);
      assert Do(k, y, step).log[|y.log|..] == log;
    }
  }

  lemma CallIsLogged(k: Setup, s: Store, v: View, w: Worker, fault: Fault, password: NewPassword)
    ensures var s' := Call(k, s, v, w, fault, password).1;
            var news := Logged(k, s, v, w, fault, password);
            && |news| <= 1
            && (forall e :: e in news ==>
                  match e
                  case Began => false
                  case SawClaim(claim) => v.claim == Some(claim)
                  case SawAccess(access) => v.access == Some(access)
                  case SawCredentials(credentials) => s.credentials == Some(credentials)
                  case CreatedRepository(secret) => s.repository == None && s'.repository == Some(secret)
                  case WroteSchedule(schedule) => s'.schedule == Some(schedule)
                  case WroteStatus(status) => s'.policy.status == Apply(s.policy.status, StatusConfig(status)))
            && (s'.repository != s.repository ==>
                  s'.repository.Some? && news == [CreatedRepository(s'.repository.value)])
            && (s'.schedule != s.schedule && s'.schedule.Some? ==> news == [WroteSchedule(s'.schedule.value)])
            && (s'.policy.status != s.policy.status ==> news != [] && news[0].WroteStatus?)
  {
    hide Resolve, BucketIn, BucketClaimConfig, BucketAccessConfig, ScheduleConfig, StatusConfig, WantOf, ReadStatus;
    hide Apply, IsReady, Password;
  }

  // A status that reads as the wanted one is not written, and so no failing call can get in the
  // way; any other is, and has to succeed.
  lemma {:induction false} EqualStatusIsNotWritten(k: Setup, y: System, fault: Fault, password: NewPassword)
    requires y.slot.Busy? && y.slot.w.Reporting?
    ensures var z := Called(k, y, fault, password);
            var want := WantOf(k, y.slot.w.p, y.slot.w.verdict);
            var done := Reported(y.slot.w.p, y.slot.w.verdict);
            if ReadStatus(y.slot.w.p.status) == want then
              z.store == y.store && z.log == y.log && z.slot == Busy(Finished(done))
            else if fault == NoFault && y.store.policy.presence != Gone then
              && z.slot == Busy(Finished(done)) && z.log == y.log + [WroteStatus(want)]
              && z.store.policy.status == Apply(y.store.policy.status, StatusConfig(want))
            else z.slot == Busy(Finished(Errored))
  {
    hide Notice, WantOf, ReadStatus, StatusConfig, Apply;
  }
}
