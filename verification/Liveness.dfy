// A policy that can become Ready does, on every endless run on which calls stop failing, others
// but COSI stop acting, COSI answers what is asked of it, and everything due gets its turn; however
// stale the caches are on the way, and whatever went before.

module Liveness {
  import opened Api
  import opened BucketSecret
  import opened Config
  import opened ServerSideApply
  import opened Objects
  import opened ScheduleView
  import opened StatusView
  import opened Reconciler
  import opened Tracking
  import opened Convergence
  import opened Protocol
  import opened Wakeups
  import opened Truth
  import opened Agreement
  import opened FreshRuns
  import opened OwnWrites
  import opened EndlessRuns

  // ---------- What a conclusion means ----------

  // The backup is in place for these credentials: what an apply would leave, with a password.
  predicate Serves(k: Setup, s: Store, bucket: Bucket) {
    if s.policy.spec.mode == BucketOnlyMode then s.schedule == None
    else
      && Resolve(s.policy.spec, k.defaults).Resolved?
      && s.schedule.Some?
      && Settled(s.schedule, ScheduleConfig(k, Resolve(s.policy.spec, k.defaults).cfg, bucket))
      && PointsAt(k, s.schedule.value.fields, bucket)
      && RepositoryAccepted(s)
  }

  // Ready for the current spec, on the bucket of the credentials that are there now.
  predicate IsReadyNow(k: Setup, s: Store) {
    var status := ReadStatus(s.policy.status);
    && status.phase == Ready
    && status.observedGeneration == s.policy.generation
    && Missing(s) == 0
    && s.credentials.Some?
    && BucketIn(s.credentials.value.data).Usable?
    && var bucket := BucketIn(s.credentials.value.data).bucket;
       status.bucket == bucket.id && status.endpoint == bucket.endpoint && Serves(k, s, bucket)
  }

  // An up-to-date conclusion where COSI has nothing left to answer is Ready,
  lemma ConcludedIsReady(k: Setup, s: Store, outcome: Outcome)
    requires OnTrack(k, s, Finished(outcome)) && UpToDate(s, Finished(outcome)) && Advances(k, s, Finished(outcome))
    requires Served(s) && OnlyAmpulla(s.policy.status)
    ensures IsReadyNow(k, s) && NothingToDo(k, s)
  {
    hide Resolve, Settled, Visible, Complete, IsReady, OnlyAmpulla, ReadStatus, StatusConfig, Apply, UpToDate;
    hide HasEvidence, HasAccess, HasClaim, Proven, Justified, JustifiedVerdict, Serves, NothingToDo, BucketIn;
    var p, v := outcome.policy, outcome.verdict;
    UpToDateVerdict(s, p, v);
    assert v.ServingBucket? || v.BackingUp?;
    ReadyHasAll(k, s, p, v);
    ConcludedServes(k, s, p, v);
    StatusRoundTrip(s.policy.status, WantOf(k, p, v));
    ConcludedHasNothingToDo(k, s, p, v);
  }

  // on the bucket of the credentials it has seen, which are the ones that are there.
  lemma ConcludedServes(k: Setup, s: Store, p: Policy, v: Verdict)
    requires OnTrack(k, s, Finished(Reported(p, v))) && VerdictUpToDate(s, v)
    requires v.ServingBucket? || v.BackingUp?
    ensures s.credentials == Some(v.evidence.credentials)
    ensures BucketIn(s.credentials.value.data) == Usable(v.evidence.bucket)
    ensures Serves(k, s, v.evidence.bucket)
  {
    hide StatusSettled, HasClaim, Visible, IsReady, BucketIn, ScheduleConfig, Resolve, Apply, PointsAt;
    hide RepositoryAccepted;
    if v.ServingBucket? {
      ModeIsTheSpecs(k, p, Resolve(p.spec, k.defaults).cfg);
    } else {
      ModeIsTheSpecs(k, p, v.cfg);
      SettledPoints(k, s.schedule, v.cfg, v.evidence.bucket);
    }
  }

  lemma SettledPoints(k: Setup, o: Option<Object>, cfg: Config, bucket: Bucket)
    requires Settled(o, ScheduleConfig(k, cfg, bucket))
    ensures o.Some? && PointsAt(k, o.value.fields, bucket)
  {
    hide ScheduleConfig, PointsAt, Apply;
    ScheduleConfigPoints(k, if o.Some? then o.value.fields else map[], cfg, bucket);
  }

  lemma UpToDateVerdict(s: Store, p: Policy, v: Verdict)
    requires UpToDate(s, Finished(Reported(p, v)))
    ensures VerdictUpToDate(s, v)
  {
  }

  lemma NothingToDoIsReady(k: Setup, s: Store)
    requires NothingToDo(k, s) && Feasible(k, s) && Served(s) && OnlyAmpulla(s.policy.status)
    ensures IsReadyNow(k, s)
  {
    hide Fresh, OnTrack, UpToDate, Advances, Feasible, Served, OnlyAmpulla, Reads, IsReadyNow;
    var password: NewPassword := "x";
    BeginsFresh(k, s);
    FreshStaysOnTrack(k, s, GettingPolicy, password);
    FreshAdvances(k, s, GettingPolicy, password);
    var (outcome, s') := Fresh(k, s, GettingPolicy, password);
    assert s' == s;
    ConcludedIsReady(k, s, outcome);
  }

  lemma BeginsFresh(k: Setup, s: Store)
    ensures OnTrack(k, s, GettingPolicy) && UpToDate(s, GettingPolicy) && Advances(k, s, GettingPolicy)
  {
  }

  // In every reachable state: where nothing is queued, undelivered or under way, the Secrets are
  // as last seen and COSI has nothing left to answer, a policy that can be Ready is.
  lemma {:induction false} CalmIsReady(k: Setup, y: System, steps: seq<Step>)
    requires Init(y) && LeaveStatus(steps)
    requires var z := Run(k, y, steps);
             && Calm(z) && z.slot.Idle? && UpToDate(z.store, Standing(z.slot))
             && Feasible(k, z.store) && Served(z.store)
    ensures IsReadyNow(k, Run(k, y, steps).store) && NothingToDo(k, Run(k, y, steps).store)
  {
    hide Init, Run, Feasible, Served, OnlyAmpulla, NothingToDo, IsReadyNow, Sincere, Truthful, UpToDate, Calm;
    AlwaysHonest(k, y, steps);
    OnlyTheSecretsGoUnnoticed(k, y, steps);
    NothingToDoIsReady(k, Run(k, y, steps).store);
  }

  // The same said with an answer: there is none that would change anything.
  lemma ServedIffAnswered(x: Provision, s: Store)
    requires Fulfils(x)
    ensures Served(s) <==> Answered(x, s) == s
  {
    hide Complete;
  }

  // ---------- The last reconcile ----------

  // From here on nothing changes, and everybody knows.
  ghost predicate Still(e: Endless, from: nat, n: nat) {
    Undisturbed(e, from) && from <= n && SettledFrom(e, n) && forall m: nat :: n <= m ==> Synced(e.At(m))
  }

  lemma StillStays(e: Endless, from: nat, n: nat, m: nat)
    requires Still(e, from, n) && n <= m
    ensures Still(e, from, m) && e.At(m).store == e.At(n).store
    ensures Synced(e.At(m)) && Proceeds(e.At(m).store, e.plan(m)) && e.At(m + 1).store == e.At(m).store
    ensures e.At(m + 1) == Do(e.k, e.At(m), e.plan(m))
  {
    hide Endless.At, Do, Proceeds, Synced;
    AtNext(e, m);
    assert e.At(m + 1).store == e.At(n).store;
  }

  predicate WellUnderWay(k: Setup, s: Store, w: Worker) {
    OnTrack(k, s, w) && UpToDate(s, w) && Advances(k, s, w)
  }

  lemma StepStaysUnderWay(k: Setup, y: System, step: Step)
    requires Synced(y) && Proceeds(y.store, step) && Do(k, y, step).store == y.store
    requires y.slot.Busy? && Feasible(k, y.store) && WellUnderWay(k, y.store, y.slot.w)
    ensures WellUnderWay(k, y.store, Standing(Do(k, y, step).slot))
  {
    hide Attempt, Notice, Logged, Delivered, Grants, PhaseOf, IsSilent, Changed, OnTrack, UpToDate, Advances, Feasible;
    var s, w := y.store, y.slot.w;
    match step
    case CallApi(_, password) =>
      SyncedViewIsFresh(y);
      if w.Finished? {
        FinishedStays(k, s, FreshView(s), w, password);
      } else {
        AttemptStaysOnTrack(k, s, FreshView(s), w, password);
        AttemptStaysUpToDate(k, s, w, password);
        FeasibleIsAcceptable(k, s);
        AttemptAdvances(k, s, FreshView(s), w, password);
      }
    case Deliver(what) => DeliveryKeepsSlot(y, what);
    case _ =>
  }

  lemma {:induction false} RunStaysUnderWay(e: Endless, from: nat, n: nat, m: nat)
    requires Still(e, from, n) && n <= m && forall i: nat :: n <= i < m ==> e.At(i).slot.Busy?
    requires e.At(n).slot.Busy? && Feasible(e.k, e.At(n).store)
    requires WellUnderWay(e.k, e.At(n).store, e.At(n).slot.w)
    ensures WellUnderWay(e.k, e.At(n).store, Standing(e.At(m).slot))
    decreases m - n
  {
    hide Endless.At, Do, Proceeds, Synced, Feasible, WellUnderWay, Still, Undisturbed;
    if n < m {
      RunStaysUnderWay(e, from, n, m - 1);
      StillStays(e, from, n, m - 1);
      StepStaysUnderWay(e.k, e.At(m - 1), e.plan(m - 1));
    }
  }

  // An idle controller waits for its turn.
  lemma IdleWaits(k: Setup, y: System, step: Step)
    requires y.slot.Idle? && Proceeds(y.store, step)
    ensures var z := Do(k, y, step);
            && (step.Start? && y.dirty ==> z.slot == Busy(GettingPolicy))
            && (!(step.Start? && y.dirty) ==> z.slot.Idle? && (y.dirty ==> z.dirty) && (y.timer ==> z.timer || z.dirty))
            && (step.FireTimer? && y.timer ==> z.dirty)
  {
    hide Notice, Changed, Grants;
  }

  lemma {:induction false} TimerFires(e: Endless, from: nat, n: nat, next: nat) returns (j: nat)
    requires Still(e, from, n) && n <= next && e.plan(next) == FireTimer
    requires e.At(n).slot.Idle? && (e.At(n).timer || e.At(n).dirty)
    ensures n <= j && e.At(j).slot.Idle? && e.At(j).dirty
    decreases next - n
  {
    hide Endless.At, Do, Proceeds, Synced, Still, Undisturbed;
    if e.At(n).dirty {
      j := n;
    } else {
      StillStays(e, from, n, n);
      StillStays(e, from, n, n + 1);
      IdleWaits(e.k, e.At(n), e.plan(n));
      j := n + 1;
      if n < next {
        j := TimerFires(e, from, n + 1, next);
      }
    }
  }

  lemma {:induction false} QueueIsServed(e: Endless, from: nat, n: nat, next: nat) returns (j: nat)
    requires Still(e, from, n) && n <= next && e.plan(next) == Start
    requires e.At(n).slot.Idle? && e.At(n).dirty
    ensures n <= j && e.At(j).slot == Busy(GettingPolicy)
    decreases next - n
  {
    hide Endless.At, Do, Proceeds, Synced, Still, Undisturbed;
    StillStays(e, from, n, n);
    StillStays(e, from, n, n + 1);
    IdleWaits(e.k, e.At(n), e.plan(n));
    j := n + 1;
    if !e.plan(n).Start? {
      j := QueueIsServed(e, from, n + 1, next);
    }
  }

  lemma SettledIsServed(e: Endless, n: nat)
    requires SettledFrom(e, n) && CosiAnswers(e)
    ensures Served(e.At(n).store)
  {
    hide Endless.At, Met, Requested, ReadyObject, UsableCredentials;
    var s := e.At(n).store;
    forall stone | Requested(s, stone)
      ensures Met(s, stone)
    {
      assert IsMetLater(e, n, stone);
      var m: nat :| n <= m && Met(e.At(m).store, stone);
    }
    MetIsServed(s);
  }

  lemma MetIsServed(s: Store)
    requires forall stone :: Requested(s, stone) ==> Met(s, stone)
    ensures Served(s)
  {
    hide ReadyObject, UsableCredentials;
    assert Requested(s, ClaimReady) ==> Met(s, ClaimReady);
    assert Requested(s, AccessReady) ==> Met(s, AccessReady);
    assert Requested(s, CredentialsWritten) ==> Met(s, CredentialsWritten);
  }

  // Where nothing moves any more, the controller is either done or about to see for itself.
  lemma {:induction false} StillIsReady(e: Endless, from: nat, n: nat)
    requires Still(e, from, n) && Honestly(e) && Fair(e) && CosiAnswers(e) && Feasible(e.k, e.At(n).store)
    ensures IsReadyNow(e.k, e.At(n).store) && NothingToDo(e.k, e.At(n).store)
  {
    hide Endless.At, Do, Proceeds, Synced, Feasible, WellUnderWay, Fair, Still, SettledFrom, Undisturbed;
    hide Served, IsReadyNow, NothingToDo;
    hide CosiAnswers, Honestly;
    StillIs(e, from, n);
    SettledIsServed(e, n);
    var idle := IdleAfter(e, from, n);
    StillStays(e, from, n, idle);
    OwnStatusAt(e, n);
    if e.At(idle).dirty || e.At(idle).timer {
      var fire := TurnComes(e, idle, FireTimer);
      var dirty := TimerFires(e, from, idle, fire);
      StillStays(e, from, idle, dirty);
      var start := TurnComes(e, dirty, Start);
      var begun := QueueIsServed(e, from, dirty, start);
      StillStays(e, from, dirty, begun);
      SeenThrough(e, from, begun);
    } else {
      QuietIsReady(e, idle);
    }
  }

  lemma StillIs(e: Endless, from: nat, n: nat)
    requires Still(e, from, n)
    ensures Undisturbed(e, from) && from <= n && SettledFrom(e, n) && Synced(e.At(n))
  {
    hide Endless.At, Undisturbed, SettledFrom, Synced;
  }

  lemma OwnStatusAt(e: Endless, n: nat)
    requires Honestly(e)
    ensures OnlyAmpulla(e.At(n).store.policy.status)
  {
    hide Honestly, Endless.At, OnlyAmpulla, Sincere, Truthful, InStep, Awake;
    HonestAt(e, n);
  }

  // A reconcile that begins now and is seen through.
  lemma SeenThrough(e: Endless, from: nat, n: nat)
    requires Still(e, from, n) && Fair(e) && e.At(n).slot == Busy(GettingPolicy)
    requires Feasible(e.k, e.At(n).store) && Served(e.At(n).store) && OnlyAmpulla(e.At(n).store.policy.status)
    ensures IsReadyNow(e.k, e.At(n).store) && NothingToDo(e.k, e.At(n).store)
  {
    hide Endless.At, Feasible, Fair, Still, Undisturbed, Served, IsReadyNow, NothingToDo, OnTrack, UpToDate;
    hide Advances, OnlyAmpulla;
    StillIs(e, from, n);
    BeginsFresh(e.k, e.At(n).store);
    var done := IdleAfter(e, from, n);
    RunStaysUnderWay(e, from, n, done);
    ConcludedIsReady(e.k, e.At(n).store, Standing(e.At(done).slot).outcome);
  }

  // Nothing queued and nothing timed: no wakeup was lost.
  lemma QuietIsReady(e: Endless, n: nat)
    requires Honestly(e) && Synced(e.At(n)) && e.At(n).slot.Idle? && !e.At(n).dirty && !e.At(n).timer
    requires Feasible(e.k, e.At(n).store) && Served(e.At(n).store) && OnlyAmpulla(e.At(n).store.policy.status)
    ensures IsReadyNow(e.k, e.At(n).store) && NothingToDo(e.k, e.At(n).store)
  {
    hide Endless.At, Run, Init, InStep, Feasible, Served, IsReadyNow, NothingToDo, OnlyAmpulla;
    AtIsARun(e, n);
    NoLostWakeup(e.k, e.start, e.Upto(n));
    NothingToDoIsReady(e.k, e.At(n).store);
  }

  // ---------- The theorem ----------

  lemma {:induction false} FeasibleStays(e: Endless, from: nat, n: nat)
    requires Undisturbed(e, from) && from <= n && Feasible(e.k, e.At(from).store)
    ensures Feasible(e.k, e.At(n).store) && SameSpec(e.At(n).store.policy, e.At(from).store.policy)
    decreases n - from
  {
    hide Endless.At, Do, Proceeds, Feasible;
    if from < n {
      FeasibleStays(e, from, n - 1);
      AtNext(e, n - 1);
      assert Proceeds(e.At(n - 1).store, e.plan(n - 1));
      StepKeepsMilestones(e.k, e.At(n - 1), e.plan(n - 1));
      SpecStays(e.k, e.At(n - 1), e.plan(n - 1));
    }
  }

  // Sooner or later the controller is idle and its cache holds no other spec than the last one.
  lemma ComesToBeAlone(e: Endless, from: nat) returns (j: nat)
    requires Honestly(e) && Undisturbed(e, from) && Fair(e)
    ensures from <= j && Alone(e.k, e.At(j))
  {
    hide Endless.At, Fair, Undisturbed, Behind, Honest, Awake, Honestly;
    HonestAt(e, from);
    InStepIsBehind(e.At(from));
    var next := TurnComes(e, from, Deliver(PolicyWatch));
    var told := CatchUp(e, from, from, next, |e.At(from).caches.policy.pending|);
    j := IdleAfter(e, from, told);
    StaysCaughtUp(e, from, told, j);
    HonestAt(e, j);
    CaughtUpIsAlone(e.k, e.At(j));
  }

  lemma InStepIsBehind(y: System)
    requires InStep(y)
    ensures Behind(y.caches.policy, y.store.policy, |y.caches.policy.pending|)
  {
    hide Visible, VisibleSecret;
  }

  lemma CaughtUpIsAlone(k: Setup, y: System)
    requires Honest(k, y) && InStep(y) && y.slot.Idle? && Behind(y.caches.policy, y.store.policy, 0)
    ensures Alone(k, y)
  {
    hide Recorded, Truthful, TruthfulLog, OnlyAmpulla, ReadStatus, InStep, JustifiedVerdict;
  }

  // Whatever went before, edits, failures, restarts and other actors included: once calls stop
  // failing and nobody acts but COSI, which answers, a policy that can be Ready becomes Ready for
  // its spec as it then is, and stays so, with nothing in the store changing any more.
  lemma {:induction false} EventuallyReady(e: Endless, from: nat) returns (n: nat)
    requires Honestly(e) && Undisturbed(e, from) && Fair(e) && CosiAnswers(e)
    requires Feasible(e.k, e.At(from).store)
    ensures from <= n
    ensures SameSpec(e.At(n).store.policy, e.At(from).store.policy)
    ensures IsReadyNow(e.k, e.At(n).store) && NothingToDo(e.k, e.At(n).store)
    ensures forall m: nat :: n <= m ==> e.At(m).store == e.At(n).store
  {
    hide Endless.At, Do, Fair, CosiAnswers, Honestly, Undisturbed, Feasible, IsReadyNow, NothingToDo, Synced, Alone;
    var alone := ComesToBeAlone(e, from);
    var settled := StoreSettles(e, from, alone);
    n := AllDelivered(e, from, settled);
    SettledLater(e, settled, n);
    forall m: nat | n <= m
      ensures Synced(e.At(m))
    {
      StaysSynced(e, from, n, m);
    }
    FeasibleStays(e, from, n);
    StillIsReady(e, from, n);
  }

  lemma SettledLater(e: Endless, n: nat, m: nat)
    requires SettledFrom(e, n) && n <= m
    ensures SettledFrom(e, m)
  {
    hide Endless.At;
  }

  // ---------- How much it takes ----------

  // A run on which COSI only provides what is missing; calls may fail and the controller restart.
  predicate OnlyGrants(k: Setup, y: System, steps: seq<Step>) {
    steps == [] ||
    var init, last := steps[..|steps| - 1], steps[|steps| - 1];
    OnlyGrants(k, y, init) && (last.Environment? ==> Grants(Run(k, y, init).store, last.change))
  }

  lemma FaultyStepKeepsMilestones(k: Setup, y: System, step: Step)
    requires step.Environment? ==> Grants(y.store, step.change)
    ensures Missing(Do(k, y, step).store) + Owed(step.Environment? && ChangesStore(k, y, step)) <= Missing(y.store)
  {
    hide Call, Notice, Logged, PhaseOf, Grants, Missing, Changed;
    if step.CallApi? && y.slot.Busy? {
      CallKeepsMilestones(k, y.store, y.caches.AsView(), y.slot.w, step.fault, step.password);
    }
    if step.Environment? {
      GrantsBringCloser(k, y.store, step.change);
    }
  }

  lemma {:induction false} GrantsAreFew(k: Setup, y: System, steps: seq<Step>)
    requires OnlyGrants(k, y, steps)
    ensures OnlyCosi(steps) && CosiChanges(k, y, steps) + Missing(Run(k, y, steps).store) <= Missing(y.store)
  {
    hide Do, Grants, Missing, ChangesStore, OwnOrCosi;
    if steps != [] {
      var init, last := steps[..|steps| - 1], steps[|steps| - 1];
      GrantsAreFew(k, y, init);
      FaultyStepKeepsMilestones(k, Run(k, y, init), last);
      assert OwnOrCosi(last) by { GrantsAreCosisSteps(Run(k, y, init).store, last); }
    }
  }

  lemma GrantsAreCosisSteps(s: Store, step: Step)
    requires step.Environment? ==> Grants(s, step.change)
    ensures OwnOrCosi(step)
  {
    hide Complete, ReadyObject, UsableCredentials;
  }

  // All the writes of the controller's on the way there, failures and restarts included: none of
  // them can make it write for ever.
  lemma {:induction false} WritesUntilReady(k: Setup, y: System, before: seq<Step>, z: System, steps: seq<Step>)
    requires CaughtUp(k, y, before, z) && OnlyGrants(k, z, steps)
    ensures Writes(k, z, steps) <= 31 + 3 * (|z.caches.claim.pending| + |z.caches.access.pending|)
  {
    hide CaughtUp, Missing, Writes, CosiChanges, OnlyGrants, Run;
    GrantsAreFew(k, z, steps);
    AtMostThree(z.store);
    OwnWritesAreFinite(k, y, before, z, steps);
  }

  lemma AtMostThree(s: Store)
    ensures Missing(s) <= 3
  {
    hide ReadyObject, UsableCredentials;
  }

  // ---------- Such runs exist ----------

  const TURNS: seq<Step> :=
    DELIVERIES + [Start, CallApi(NoFault, "x"), Finish, FireTimer]

  // A run, and then every turn in turn.
  function Onwards(k: Setup, y: System, steps: seq<Step>): Endless {
    Endless(k, y, (n: nat) => if n < |steps| then steps[n] else TURNS[(n - |steps|) % 9])
  }

  lemma {:induction false} OnwardsBegins(k: Setup, y: System, steps: seq<Step>)
    ensures Onwards(k, y, steps).At(|steps|) == Run(k, y, steps)
  {
    hide Endless.At, Run;
    var e := Onwards(k, y, steps);
    AtIsARun(e, |steps|);
    assert e.Upto(|steps|) == steps;
  }

  lemma OnwardsIsFair(k: Setup, y: System, steps: seq<Step>)
    ensures Fair(Onwards(k, y, steps))
  {
    hide Endless.At, TURNS, IsTurn, SameTurn;
    var e := Onwards(k, y, steps);
    forall n: nat, turn: Step | IsTurn(turn)
      ensures ComesUp(e, n, turn)
    {
      var i := TurnIsThere(turn);
      var m := |steps| + (9 * n + i);
      NineOnwards(n, i);
      assert m - |steps| == 9 * n + i;
      assert e.plan(m) == TURNS[i];
      assert n <= m && SameTurn(e.plan(m), turn);
    }
  }

  lemma NineOnwards(n: nat, i: nat)
    requires i < 9
    ensures (9 * n + i) % 9 == i
  {
  }

  lemma {:induction false} UnhinderedAt(k: Setup, y: System, steps: seq<Step>, i: nat)
    requires Unhindered(k, y, steps) && i < |steps|
    ensures Proceeds(Run(k, y, steps[..i]).store, steps[i])
  {
    hide Run, Proceeds;
    if i < |steps| - 1 {
      UnhinderedAt(k, y, steps[..|steps| - 1], i);
      assert steps[..|steps| - 1][..i] == steps[..i];
    }
  }

  lemma OnwardsIsUndisturbed(k: Setup, y: System, steps: seq<Step>)
    requires Unhindered(k, y, steps)
    ensures Undisturbed(Onwards(k, y, steps), 0)
  {
    hide Endless.At, TURNS, Proceeds, Run, Unhindered;
    var e := Onwards(k, y, steps);
    forall n: nat
      ensures Proceeds(e.At(n).store, e.plan(n))
    {
      if n < |steps| {
        AtIsARun(e, n);
        assert e.Upto(n) == steps[..n];
        UnhinderedAt(k, y, steps, n);
      } else {
        TurnProceeds(e.At(n).store, (n - |steps|) % 9);
      }
    }
  }

  lemma TurnProceeds(s: Store, i: nat)
    requires i < 9
    ensures |TURNS| == 9 && Proceeds(s, TURNS[i])
  {
    hide Grants;
  }

  lemma TurnIsThere(turn: Step) returns (i: nat)
    requires IsTurn(turn)
    ensures i < |TURNS| == 9 && SameTurn(TURNS[i], turn)
  {
    match turn
    case Deliver(what) =>
      match what {
        case PolicyWatch => i := 0;
        case ClaimWatch => i := 1;
        case AccessWatch => i := 2;
        case ScheduleWatch => i := 3;
        case RepositoryCache => i := 4;
      }
    case Start => i := 5;
    case CallApi(_, _) => i := 6;
    case Finish => i := 7;
    case FireTimer => i := 8;
  }

  lemma {:induction false} MilestonesStay(e: Endless, from: nat, n: nat)
    requires Undisturbed(e, from) && from <= n && Missing(e.At(from).store) == 0
    ensures Missing(e.At(n).store) == 0
    decreases n - from
  {
    hide Endless.At, Do, Proceeds, Missing;
    if from < n {
      MilestonesStay(e, from, n - 1);
      AtNext(e, n - 1);
      assert Proceeds(e.At(n - 1).store, e.plan(n - 1));
      StepKeepsMilestones(e.k, e.At(n - 1), e.plan(n - 1));
    }
  }

  lemma NothingMissingIsMet(s: Store, stone: Milestone)
    requires Missing(s) == 0
    ensures Met(s, stone)
  {
    hide ReadyObject, UsableCredentials;
  }

  // From every start with a policy that can be Ready there is a run as EventuallyReady asks for,
  // from its very first step on.
  lemma {:induction false} SuchRunsExist(k: Setup, x: Provision, y: System, password: NewPassword) returns (e: Endless)
    requires Init(y) && Feasible(k, y.store) && Fulfils(x)
    ensures e.k == k && e.start == y
    ensures Honestly(e) && Undisturbed(e, 0) && Fair(e) && CosiAnswers(e) && Feasible(e.k, e.At(0).store)
  {
    hide Endless.At, Run, Rounds, Feasible, Missing, Fair, Undisturbed, Synced, Requested, Met, ReadStatus, OnlyAmpulla;
    hide Unhindered, Fulfils;
    InitIsListed(y);
    var n := ConvergesAndStays(k, x, y.store, password);
    var steps := RoundsAreARun(k, x, y, password, n);
    e := Onwards(k, y, steps);
    AtTheStart(e);
    OnwardsBegins(k, y, steps);
    OnwardsIsFair(k, y, steps);
    OnwardsIsUndisturbed(k, y, steps);
    OnwardsIsHonest(k, y, steps);
    UndisturbedLater(e, |steps|);
    forall n: nat, stone: Milestone
      ensures IsMetLater(e, n, stone)
    {
      var m := if n < |steps| then |steps| else n;
      MilestonesStay(e, |steps|, m);
      NothingMissingIsMet(e.At(m).store, stone);
    }
  }

  lemma AtTheStart(e: Endless)
    ensures e.At(0) == e.start
  {
  }

  lemma UndisturbedLater(e: Endless, from: nat)
    requires Undisturbed(e, 0)
    ensures Undisturbed(e, from)
  {
    hide Endless.At, Proceeds;
  }

  lemma OnwardsIsHonest(k: Setup, y: System, steps: seq<Step>)
    requires Init(y) && AllSmooth(steps)
    ensures Honestly(Onwards(k, y, steps))
  {
    hide Init;
    var e := Onwards(k, y, steps);
    forall n: nat
      ensures LeavesStatus(e.plan(n))
    {
      if n < |steps| {
        assert Smooth(steps[n]);
      }
    }
  }

  lemma InitIsListed(y: System)
    requires Init(y)
    ensures Synced(y) && y.slot.Idle?
  {
    hide CrdValid, Visible, VisibleSecret;
  }
}
