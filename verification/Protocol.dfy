// The controller of one policy and everything around it, as a transition system: the store, the
// informers that lag behind it, the work queue with its timer, the one reconcile at a time, and
// every other actor in the cluster.

module Protocol {
  import opened Api
  import opened BucketSecret
  import opened Objects
  import opened Reconciler

  // A watched value: what the cache holds, and the changes it has not been told of yet.
  datatype Informer<T(==)> = Informer(cached: T, pending: seq<T>) {
    function Latest(): T {
      if pending == [] then cached else pending[|pending| - 1]
    }

    function Observe(v: T): Informer<T> {
      if v == Latest() then this else Informer(cached, pending + [v])
    }

    function Deliver(): Informer<T> {
      if pending == [] then this else Informer(pending[0], pending[1..])
    }
  }

  // The policy is cached whole; the objects and the repository Secret through the label selector.
  datatype Caches = Caches(
    policy: Informer<Policy>,
    claim: Informer<Option<Object>>,
    access: Informer<Option<Object>>,
    schedule: Informer<Option<Object>>,
    repository: Informer<Option<Secret>>)
  {
    function AsView(): View {
      View(policy.cached, claim.cached, access.cached, repository.cached)
    }
  }

  // Every informer hears of what changed in what it can see.
  function Notice(c: Caches, s: Store): Caches {
    Caches(
      c.policy.Observe(s.policy),
      c.claim.Observe(Visible(s.claim)),
      c.access.Observe(Visible(s.access)),
      c.schedule.Observe(Visible(s.schedule)),
      c.repository.Observe(VisibleSecret(s.repository)))
  }

  // The caches after listing everything anew.
  function Listed(s: Store): Caches {
    Caches(
      Informer(s.policy, []),
      Informer(Visible(s.claim), []),
      Informer(Visible(s.access), []),
      Informer(Visible(s.schedule), []),
      Informer(VisibleSecret(s.repository), []))
  }

  datatype Slot = Idle(last: Option<Outcome>) | Busy(w: Worker)

  // Where the last or current reconcile stands.
  function Standing(slot: Slot): Worker {
    match slot
    case Busy(w) => w
    case Idle(None) => Finished(Errored)
    case Idle(Some(outcome)) => Finished(outcome)
  }

  // What reconciles saw and did, in order.
  datatype Event =
    | Began
    | SawClaim(claim: Object)
    | SawAccess(access: Object)
    | SawCredentials(credentials: Secret)
    | CreatedRepository(repository: Secret)
    | WroteSchedule(schedule: Object)
    | WroteStatus(status: Status)

  // specs[g - 1] is the spec at generation g.
  datatype System = System(
    store: Store,
    caches: Caches,
    dirty: bool,
    timer: bool,
    slot: Slot,
    specs: seq<Spec>,
    log: seq<Event>)

  // ---------- What others do ----------

  datatype Change =
    | EditSpec(spec: Spec)
    | Retire(presence: Presence)
    | ReportClaim(cosi: CosiStatus)
    | ReportAccess(cosi: CosiStatus)
    | WriteCredentials(credentials: Option<Secret>)
    | EditClaim(claim: Option<Object>)
    | EditAccess(access: Option<Object>)
    | EditSchedule(schedule: Option<Object>)
    | EditRepository(repository: Option<Secret>)
    | EditStatus(status: Fields)

  // Those that are COSI's to make.
  predicate IsCosi(c: Change) {
    c.ReportClaim? || c.ReportAccess? || c.WriteCredentials?
  }

  // Nobody acts but the controller and COSI.
  predicate OwnOrCosi(step: Step) {
    step.Environment? ==> IsCosi(step.change)
  }

  predicate OnlyCosi(steps: seq<Step>) {
    forall i :: 0 <= i < |steps| ==> OwnOrCosi(steps[i])
  }

  // Besides, no call fails and the controller is not restarted.
  predicate Smooth(step: Step) {
    && OwnOrCosi(step)
    && !step.Restart?
    && (step.CallApi? ==> step.fault == NoFault)
  }

  predicate AllSmooth(steps: seq<Step>) {
    forall i :: 0 <= i < |steps| ==> Smooth(steps[i])
  }

  // And COSI does nothing either.
  predicate AllOwn(steps: seq<Step>) {
    forall i :: 0 <= i < |steps| ==> Smooth(steps[i]) && !steps[i].Environment?
  }

  function Report(o: Option<Object>, cosi: CosiStatus): Option<Object> {
    match o
    case None => None
    case Some(found) => Some(found.(cosi := cosi))
  }

  // The API server bumps the generation when the spec changes and refuses one the CRD forbids. A
  // policy is deleted for good.
  function Changed(s: Store, c: Change): Store {
    match c
    case EditSpec(spec) =>
      if s.policy.presence == Gone || spec == s.policy.spec || !CrdValid(spec) then s
      else s.(policy := s.policy.(spec := spec, generation := s.policy.generation + 1))
    case Retire(presence) =>
      if s.policy.presence == Gone || presence == Live then s else s.(policy := s.policy.(presence := presence))
    case ReportClaim(cosi) => s.(claim := Report(s.claim, cosi))
    case ReportAccess(cosi) => s.(access := Report(s.access, cosi))
    case WriteCredentials(credentials) => s.(credentials := credentials)
    case EditClaim(claim) => s.(claim := claim)
    case EditAccess(access) => s.(access := access)
    case EditSchedule(schedule) => s.(schedule := schedule)
    case EditRepository(repository) => s.(repository := repository)
    case EditStatus(status) => s.(policy := s.policy.(status := status))
  }

  // ---------- Steps ----------

  datatype Watched = PolicyWatch | ClaimWatch | AccessWatch | ScheduleWatch | RepositoryCache

  datatype Step =
    | Environment(change: Change)
    | Deliver(what: Watched)
    | FireTimer
    | Wake
    | Start
    | CallApi(fault: Fault, password: NewPassword)
    | Finish
    | Restart

  function Moved(y: System, s: Store): System {
    y.(store := s,
       caches := Notice(y.caches, s),
       specs := if s.policy.generation == y.store.policy.generation then y.specs else y.specs + [s.policy.spec])
  }

  // An event wakes the controller for everything it watches; the repository Secret is cached, not
  // watched.
  function Delivered(y: System, what: Watched): System {
    match what
    case PolicyWatch =>
      if y.caches.policy.pending == [] then y
      else y.(caches := y.caches.(policy := y.caches.policy.Deliver()), dirty := true)
    case ClaimWatch =>
      if y.caches.claim.pending == [] then y
      else y.(caches := y.caches.(claim := y.caches.claim.Deliver()), dirty := true)
    case AccessWatch =>
      if y.caches.access.pending == [] then y
      else y.(caches := y.caches.(access := y.caches.access.Deliver()), dirty := true)
    case ScheduleWatch =>
      if y.caches.schedule.pending == [] then y
      else y.(caches := y.caches.(schedule := y.caches.schedule.Deliver()), dirty := true)
    case RepositoryCache =>
      y.(caches := y.caches.(repository := y.caches.repository.Deliver()))
  }

  function Logged(k: Setup, s: Store, v: View, w: Worker, fault: Fault, password: NewPassword): seq<Event> {
    match w
    case GettingClaim(_, _) => if fault.NoFault? && v.claim.Some? then [SawClaim(v.claim.value)] else []
    case GettingAccess(_, _, _) => if fault.NoFault? && v.access.Some? then [SawAccess(v.access.value)] else []
    case GettingCredentials(_, _, _, _) =>
      if fault.NoFault? && s.credentials.Some? then [SawCredentials(s.credentials.value)] else []
    case CreatingRepository(_, _, _) =>
      if fault.NotMade? || s.repository.Some? then []
      else [CreatedRepository(Secret(true, map[RepoPasswordKey := password]))]
    case ApplyingSchedule(_, cfg, ev) =>
      if fault.NotMade? then [] else [WroteSchedule(Applied(s.schedule, ScheduleConfig(k, cfg, ev.bucket)).value)]
    case Reporting(p, verdict) =>
      if IsSilent(k, w) || fault.NotMade? || s.policy.presence == Gone then []
      else [WroteStatus(WantOf(k, p, verdict))]
    case _ => []
  }

  function Called(k: Setup, y: System, fault: Fault, password: NewPassword): System
    requires y.slot.Busy?
  {
    var (w, s) := Call(k, y.store, y.caches.AsView(), y.slot.w, fault, password);
    Moved(y, s).(slot := Busy(w), log := y.log + Logged(k, y.store, y.caches.AsView(), y.slot.w, fault, password))
  }

  // An error is requeued; a conclusion may ask for another look later on.
  function Ended(k: Setup, y: System, outcome: Outcome): System {
    y.(slot := Idle(Some(outcome)),
       dirty := y.dirty || outcome.Errored?,
       timer := y.timer || (outcome.Reported? && PhaseOf(k, outcome.verdict).requeue > 0))
  }

  // A step that is not possible changes nothing.
  function Do(k: Setup, y: System, step: Step): System {
    match step
    case Environment(change) => Moved(y, Changed(y.store, change))
    case Deliver(what) => Delivered(y, what)
    case FireTimer => if y.timer then y.(timer := false, dirty := true) else y
    case Wake => y.(dirty := true)
    case Start =>
      if y.slot.Idle? && y.dirty then y.(slot := Busy(GettingPolicy), dirty := false, log := y.log + [Began]) else y
    case CallApi(fault, password) => if y.slot.Busy? then Called(k, y, fault, password) else y
    case Finish => if y.slot.Busy? && y.slot.w.Finished? then Ended(k, y, y.slot.w.outcome) else y
    case Restart => y.(slot := Idle(None), dirty := true, timer := false, caches := Listed(y.store))
  }

  function Run(k: Setup, y: System, steps: seq<Step>): System {
    if steps == [] then y
    else Do(k, Run(k, y, steps[..|steps| - 1]), steps[|steps| - 1])
  }

  lemma RunNothing(k: Setup, y: System)
    ensures Run(k, y, []) == y
  {
  }

  lemma RunLast(k: Setup, y: System, steps: seq<Step>, step: Step)
    ensures Run(k, y, steps + [step]) == Do(k, Run(k, y, steps), step)
  {
    hide Do;
    assert (steps + [step])[..|steps|] == steps;
  }

  // A policy the controller has not looked at yet, with anything lying around it.
  predicate Init(y: System) {
    && y.store.policy.presence == Live
    && CrdValid(y.store.policy.spec)
    && y.store.policy.generation == 1
    && y.store.policy.status == map[]
    && y.specs == [y.store.policy.spec]
    && y.caches == Listed(y.store)
    && y.dirty && !y.timer
    && y.slot == Idle(None)
    && y.log == []
  }

  // ---------- Informers keep up ----------

  predicate InStep(y: System) {
    && y.caches.policy.Latest() == y.store.policy
    && y.caches.claim.Latest() == Visible(y.store.claim)
    && y.caches.access.Latest() == Visible(y.store.access)
    && y.caches.schedule.Latest() == Visible(y.store.schedule)
    && y.caches.repository.Latest() == VisibleSecret(y.store.repository)
  }

  lemma DeliverKeepsLatest<T>(i: Informer<T>)
    ensures i.Deliver().Latest() == i.Latest()
  {
  }

  lemma MovedIsInStep(y: System, s: Store)
    ensures InStep(Moved(y, s))
  {
    hide Visible, VisibleSecret;
  }

  lemma DeliveredIsInStep(y: System, what: Watched)
    requires InStep(y)
    ensures InStep(Delivered(y, what))
  {
    hide Visible, VisibleSecret, Informer.Latest, Informer.Deliver;
    match what
    case PolicyWatch => DeliverKeepsLatest(y.caches.policy);
    case ClaimWatch => DeliverKeepsLatest(y.caches.claim);
    case AccessWatch => DeliverKeepsLatest(y.caches.access);
    case ScheduleWatch => DeliverKeepsLatest(y.caches.schedule);
    case RepositoryCache => DeliverKeepsLatest(y.caches.repository);
  }

  lemma InStepStays(k: Setup, y: System, step: Step)
    requires InStep(y)
    ensures InStep(Do(k, y, step))
  {
    hide Call, Logged, Changed, Moved, Delivered, Visible, VisibleSecret, PhaseOf;
    match step
    case Environment(change) => MovedIsInStep(y, Changed(y.store, change));
    case Deliver(what) => DeliveredIsInStep(y, what);
    case CallApi(fault, password) =>
      if y.slot.Busy? {
        MovedIsInStep(y, Call(k, y.store, y.caches.AsView(), y.slot.w, fault, password).1);
        MovedStore(y, Call(k, y.store, y.caches.AsView(), y.slot.w, fault, password).1);
      }
    case _ =>
  }

  lemma MovedStore(y: System, s: Store)
    ensures Moved(y, s).store == s
  {
  }

  lemma {:induction false} InStepAlways(k: Setup, y: System, steps: seq<Step>)
    requires Init(y)
    ensures InStep(Run(k, y, steps))
  {
    if steps != [] {
      InStepAlways(k, y, steps[..|steps| - 1]);
      InStepStays(k, Run(k, y, steps[..|steps| - 1]), steps[|steps| - 1]);
    }
  }
}
