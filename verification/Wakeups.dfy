// No lost wakeup: where nothing is queued, nothing is timed and nothing is under way, there is
// nothing left to do.

module Wakeups {
  import opened Api
  import opened Config
  import opened ServerSideApply
  import opened Objects
  import opened StatusView
  import opened Reconciler
  import opened Tracking
  import opened Idempotence
  import opened Protocol

  // Nothing that wakes the controller has happened and not been taken up.
  predicate Calm(y: System) {
    && !y.dirty
    && y.caches.policy.pending == []
    && y.caches.claim.pending == []
    && y.caches.access.pending == []
    && y.caches.schedule.pending == []
  }

  // While it is calm, a reconcile is on the track a fresh one would take, an idle controller has
  // come to a conclusion, and one that wanted another look has its timer running.
  predicate Awake(k: Setup, y: System) {
    && InStep(y)
    && (Calm(y) ==> OnTrack(k, y.store, Standing(y.slot)))
    && (y.slot.Idle? && !y.dirty ==>
          && Standing(y.slot) != Finished(Errored)
          && (NeedsAnotherLook(k, y.slot) ==> y.timer))
  }

  predicate NeedsAnotherLook(k: Setup, slot: Slot) {
    match slot
    case Idle(Some(Reported(_, v))) => PhaseOf(k, v).requeue > 0
    case _ => false
  }

  // What is not visible to the watches cannot throw a reconcile off its track.
  predicate SameToWatches(s: Store, s': Store) {
    && s'.policy == s.policy
    && Visible(s'.claim) == Visible(s.claim)
    && Visible(s'.access) == Visible(s.access)
    && Visible(s'.schedule) == Visible(s.schedule)
  }

  lemma UnwatchedChangeKeepsTrack(k: Setup, s: Store, s': Store, w: Worker)
    requires OnTrack(k, s, w) && SameToWatches(s, s')
    ensures OnTrack(k, s', w)
  {
    hide Resolve, Justified, JustifiedVerdict, StatusSettled, IsReady, Proven, Managed, Apply;
    hide BucketClaimConfig, BucketAccessConfig, ScheduleConfig;
  }

  lemma CalmSeesTheStore(y: System)
    requires InStep(y) && Calm(y)
    ensures SeesWatched(y.store, y.caches.AsView())
    ensures y.caches.schedule.cached == Visible(y.store.schedule)
  {
    hide Visible;
  }

  // If the informers have nothing new to tell after a change, they had nothing before it either,
  // and it was one they cannot see.
  lemma CalmAfterMove(y: System, s: Store, slot: Slot, log: seq<Event>)
    requires InStep(y)
    requires Calm(Moved(y, s).(slot := slot, log := log))
    ensures Calm(y) && SameToWatches(y.store, s)
  {
    hide Visible, VisibleSecret;
  }

  lemma EnvironmentKeepsAwake(k: Setup, y: System, s: Store)
    requires Awake(k, y)
    ensures Awake(k, Moved(y, s))
  {
    hide OnTrack, InStep, Calm, Notice;
    MovedIsInStep(y, s);
    if Calm(Moved(y, s)) {
      CalmAfterMove(y, s, y.slot, y.log);
      UnwatchedChangeKeepsTrack(k, y.store, s, Standing(y.slot));
    }
  }

  lemma CallKeepsAwake(k: Setup, y: System, fault: Fault, password: NewPassword)
    requires Awake(k, y) && y.slot.Busy?
    ensures Awake(k, Called(k, y, fault, password))
  {
    hide OnTrack, InStep, Calm, Notice, Attempt, Logged;
    var v := y.caches.AsView();
    var (w, s) := Call(k, y.store, v, y.slot.w, fault, password);
    var log := y.log + Logged(k, y.store, v, y.slot.w, fault, password);
    MovedIsInStep(y, s);
    var y' := Called(k, y, fault, password);
    assert y' == Moved(y, s).(slot := Busy(w), log := log);
    InStepIgnoresSlot(Moved(y, s), Busy(w), log);
    if Calm(y') {
      CalmAfterMove(y, s, Busy(w), log);
      CalmSeesTheStore(y);
      AttemptStaysOnTrack(k, y.store, v, y.slot.w, password);
      ErroredIsOnTrack(k, s);
    }
  }

  lemma InStepIgnoresSlot(y: System, slot: Slot, log: seq<Event>)
    ensures InStep(y.(slot := slot, log := log)) == InStep(y)
  {
  }

  lemma ErroredIsOnTrack(k: Setup, s: Store)
    ensures OnTrack(k, s, Finished(Errored))
  {
  }

  lemma OtherStepsKeepAwake(k: Setup, y: System, step: Step)
    requires Awake(k, y) && !step.Environment? && !step.CallApi?
    ensures Awake(k, Do(k, y, step))
  {
    hide OnTrack, Moved, Notice, Visible, VisibleSecret, Call, Logged, PhaseOf;
    InStepStays(k, y, step);
    TrackStart(k, y.store);
  }

  lemma StepKeepsAwake(k: Setup, y: System, step: Step)
    requires Awake(k, y)
    ensures Awake(k, Do(k, y, step))
  {
    hide Awake, Moved, Called, Delivered, Ended, Changed;
    match step
    case Environment(change) => EnvironmentKeepsAwake(k, y, Changed(y.store, change));
    case CallApi(fault, password) => if y.slot.Busy? { CallKeepsAwake(k, y, fault, password); }
    case _ => OtherStepsKeepAwake(k, y, step);
  }

  lemma InitIsAwake(k: Setup, y: System)
    requires Init(y)
    ensures Awake(k, y)
  {
    hide Visible, VisibleSecret;
  }

  lemma {:induction false} AlwaysAwake(k: Setup, y: System, steps: seq<Step>)
    requires Init(y)
    ensures Awake(k, Run(k, y, steps))
  {
    hide Awake, Do, Init;
    if steps == [] {
      InitIsAwake(k, y);
    } else {
      AlwaysAwake(k, y, steps[..|steps| - 1]);
      StepKeepsAwake(k, Run(k, y, steps[..|steps| - 1]), steps[|steps| - 1]);
    }
  }

  // No queued event, no undelivered one, no timer, no reconcile under way.
  predicate Quiet(y: System) {
    y.slot.Idle? && Calm(y) && !y.timer
  }

  // A reconcile run now would change nothing, and what it would report is already there, exactly
  // as far as it can be: unless somebody else holds a value at a field it would leave empty.
  ghost predicate NothingToDo(k: Setup, s: Store) {
    forall password: NewPassword ::
      var (outcome, s') := Fresh(k, s, GettingPolicy, password);
      && s' == s
      && (outcome.Skipped? <==> s.policy.presence != Live)
      && outcome != Errored
      && (outcome.Reported? ==>
            && outcome.policy == s.policy
            && Reads(s.policy.status, WantOf(k, s.policy, outcome.verdict)))
  }

  // The status reads as the wanted one iff nobody else has left something in it.
  ghost predicate Reads(f: Fields, want: Status) {
    ReadStatus(f) == want <==> forall p :: !Leftover(f, want, p)
  }

  lemma SettledReads(f: Fields, want: Status)
    requires StatusSettled(f, want)
    ensures Reads(f, want)
  {
    hide ReadStatus, StatusConfig, Carries;
    if ReadStatus(f) == want {
      forall p
        ensures !Leftover(f, want, p)
      {
        if IsStatusPath(p) {
          ReadStatusAt(f, p);
          StatusConfigAt(want, p);
          CarriesMeans(want, p);
        }
      }
    } else {
      StatusRoundTripIff(f, want);
    }
  }

  // Over every run, with every actor free to do anything at any point and every call free to
  // fail: a controller that nothing will wake is one with nothing to do.
  lemma {:induction false} NoLostWakeup(k: Setup, y: System, steps: seq<Step>)
    requires Init(y) && Quiet(Run(k, y, steps))
    ensures NothingToDo(k, Run(k, y, steps).store)
  {
    hide Init, Run, OnTrack, UpToDate, Attempt, NothingToDo, InStep, VerdictUpToDate, PhaseOf;
    AlwaysAwake(k, y, steps);
    var z := Run(k, y, steps);
    match z.slot.last.value
    case Skipped => SkippedHasNothingToDo(k, z.store);
    case Reported(p, v) =>
      OnlyUnwatchedAreTimed(k, z.store, v);
      ConcludedHasNothingToDo(k, z.store, p, v);
  }

  // The same for a controller that only its timer will wake, as long as the two Secrets and an
  // unlabelled Schedule are as the last reconcile left them: only those can have gone unnoticed.
  lemma {:induction false} OnlyTheSecretsGoUnnoticed(k: Setup, y: System, steps: seq<Step>)
    requires Init(y)
    requires var z := Run(k, y, steps);
             Calm(z) && z.slot.Idle? && UpToDate(z.store, Standing(z.slot))
    ensures NothingToDo(k, Run(k, y, steps).store)
  {
    hide Init, Run, OnTrack, Attempt, NothingToDo, InStep, VerdictUpToDate, PhaseOf;
    AlwaysAwake(k, y, steps);
    var z := Run(k, y, steps);
    match z.slot.last.value
    case Skipped => SkippedHasNothingToDo(k, z.store);
    case Reported(p, v) => ConcludedHasNothingToDo(k, z.store, p, v);
  }

  // Whoever relied on the credentials Secret, or is waiting for it, will look at it again: in
  // every reachable state, idle and with an empty queue, the timer is running.
  lemma {:induction false} CredentialsAreLookedAtAgain(k: Setup, y: System, steps: seq<Step>)
    requires Init(y)
    requires var z := Run(k, y, steps);
             && z.slot.Idle? && !z.dirty && z.slot.last.Some? && z.slot.last.value.Reported?
             && var v := z.slot.last.value.verdict; v.AwaitCredentials? || v.ServingBucket? || v.BackingUp?
    ensures Run(k, y, steps).timer
  {
    hide Init, Run;
    AlwaysAwake(k, y, steps);
  }

  lemma OnlyUnwatchedAreTimed(k: Setup, s: Store, v: Verdict)
    requires PhaseOf(k, v).requeue == 0
    ensures VerdictUpToDate(s, v)
  {
  }

  lemma ConcludedHasNothingToDo(k: Setup, s: Store, p: Policy, v: Verdict)
    requires OnTrack(k, s, Finished(Reported(p, v))) && VerdictUpToDate(s, v)
    ensures NothingToDo(k, s)
  {
    hide VerdictOnTrack, VerdictUpToDate, WantOf, ReadStatus, StatusConfig, Attempt;
    SameVerdict(k, s, p, v);
    forall password: NewPassword
      ensures Fresh(k, s, GettingPolicy, password) == (Reported(s.policy, v), s)
    {
      FixedPoint(k, s, p, v, password);
    }
    SettledReads(s.policy.status, WantOf(k, s.policy, v));
  }

  lemma SkippedHasNothingToDo(k: Setup, s: Store)
    requires OnTrack(k, s, Finished(Skipped))
    ensures NothingToDo(k, s)
  {
    hide Attempt;
    forall password: NewPassword
      ensures Fresh(k, s, GettingPolicy, password) == (Skipped, s)
    {
      SkippedIsFixed(k, s, password);
    }
  }
}
