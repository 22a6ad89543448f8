// A fresh reconcile is one of the protocol's own runs: the one in which every event is delivered
// before the next call is made.

module FreshRuns {
  import opened Api
  import opened BucketSecret
  import opened Objects
  import opened Reconciler
  import opened Convergence
  import opened Protocol

  // Every informer has been told everything.
  predicate Synced(y: System) {
    && InStep(y)
    && y.caches.policy.pending == []
    && y.caches.claim.pending == []
    && y.caches.access.pending == []
    && y.caches.schedule.pending == []
    && y.caches.repository.pending == []
  }

  const DELIVERIES: seq<Step> :=
    [Deliver(PolicyWatch), Deliver(ClaimWatch), Deliver(AccessWatch), Deliver(ScheduleWatch), Deliver(RepositoryCache)]

  lemma DeliveriesAreNobodys()
    ensures AllOwn(DELIVERIES)
  {
  }

  lemma SyncedViewIsFresh(y: System)
    requires Synced(y)
    ensures y.caches.AsView() == FreshView(y.store)
  {
    hide Visible, VisibleSecret;
  }

  // At most one event is outstanding.
  predicate Short<T(==)>(i: Informer<T>) {
    |i.pending| <= 1
  }

  lemma DeliveriesCatchUp(k: Setup, y: System)
    requires InStep(y)
    requires Short(y.caches.policy) && Short(y.caches.claim) && Short(y.caches.access)
    requires Short(y.caches.schedule) && Short(y.caches.repository)
    ensures var z := Run(k, y, DELIVERIES);
            Synced(z) && z.store == y.store && z.slot == y.slot
  {
    hide InStep, Do, Run, Short;
    var a := Do(k, y, Deliver(PolicyWatch));
    var b := Do(k, a, Deliver(ClaimWatch));
    var c := Do(k, b, Deliver(AccessWatch));
    var d := Do(k, c, Deliver(ScheduleWatch));
    OneDelivery(k, y, PolicyWatch);
    OneDelivery(k, a, ClaimWatch);
    OneDelivery(k, b, AccessWatch);
    OneDelivery(k, c, ScheduleWatch);
    OneDelivery(k, d, RepositoryCache);
    DeliveriesOneByOne(k, y);
  }

  // A delivery empties its own informer and touches no other.
  lemma OneDelivery(k: Setup, y: System, what: Watched)
    requires InStep(y)
    ensures var z := Do(k, y, Deliver(what));
            && InStep(z) && z.store == y.store && z.slot == y.slot
            && (if what.PolicyWatch? then Short(y.caches.policy) ==> z.caches.policy.pending == []
                else z.caches.policy == y.caches.policy)
            && (if what.ClaimWatch? then Short(y.caches.claim) ==> z.caches.claim.pending == []
                else z.caches.claim == y.caches.claim)
            && (if what.AccessWatch? then Short(y.caches.access) ==> z.caches.access.pending == []
                else z.caches.access == y.caches.access)
            && (if what.ScheduleWatch? then Short(y.caches.schedule) ==> z.caches.schedule.pending == []
                else z.caches.schedule == y.caches.schedule)
            && (if what.RepositoryCache? then Short(y.caches.repository) ==> z.caches.repository.pending == []
                else z.caches.repository == y.caches.repository)
  {
    hide InStep;
    InStepStays(k, y, Deliver(what));
  }

  lemma DeliveriesOneByOne(k: Setup, y: System)
    ensures var d := DELIVERIES;
            Run(k, y, d) == Do(k, Do(k, Do(k, Do(k, Do(k, y, d[0]), d[1]), d[2]), d[3]), d[4])
  {
    hide Do;
    var d := DELIVERIES;
    RunNothing(k, y);
    RunLast(k, y, [], d[0]);
    RunLast(k, y, d[..1], d[1]);
    RunLast(k, y, d[..2], d[2]);
    RunLast(k, y, d[..3], d[3]);
    RunLast(k, y, d[..4], d[4]);
    assert [] + [d[0]] == d[..1] && d[..1] + [d[1]] == d[..2] && d[..2] + [d[2]] == d[..3];
    assert d[..3] + [d[3]] == d[..4] && d[..4] + [d[4]] == d;
  }

  lemma {:induction false} RunAppend(k: Setup, y: System, first: seq<Step>, second: seq<Step>)
    ensures Run(k, y, first + second) == Run(k, Run(k, y, first), second)
    decreases |second|
  {
    hide Do;
    if second == [] {
      assert first + second == first;
    } else {
      var init := second[..|second| - 1];
      assert (first + second)[..|first + second| - 1] == first + init;
      RunAppend(k, y, first, init);
    }
  }

  // The next call, and everything it set off told.
  lemma CallAndCatchUp(k: Setup, y: System, password: NewPassword)
    requires Synced(y) && y.slot.Busy? && !y.slot.w.Finished?
    ensures var (w, s) := Attempt(k, y.store, FreshView(y.store), y.slot.w, password);
            var z := Run(k, Do(k, y, CallApi(NoFault, password)), DELIVERIES);
            Synced(z) && z.store == s && z.slot == Busy(w)
  {
    hide Attempt, Logged, Visible, VisibleSecret, Run, DELIVERIES, IsSilent;
    SyncedViewIsFresh(y);
    InStepStays(k, y, CallApi(NoFault, password));
    DeliveriesCatchUp(k, Do(k, y, CallApi(NoFault, password)));
  }

  lemma OneCallIsOwn(password: NewPassword)
    ensures AllOwn([CallApi(NoFault, password)])
  {
  }

  lemma BothOwn(first: seq<Step>, second: seq<Step>)
    requires AllOwn(first) && AllOwn(second)
    ensures AllOwn(first + second)
  {
    hide Smooth;
  }

  // Whatever Fresh says of a reconcile, there is a run of the protocol that does it.
  lemma {:induction false} FreshIsARun(k: Setup, y: System, password: NewPassword) returns (steps: seq<Step>)
    requires Synced(y) && y.slot.Busy?
    ensures var (outcome, s) := Fresh(k, y.store, y.slot.w, password);
            var z := Run(k, y, steps);
            Synced(z) && z.store == s && z.slot == Busy(Finished(outcome))
    ensures AllOwn(steps)
    decreases Remaining(y.slot.w)
  {
    hide Attempt, Do, DELIVERIES, Synced, AllOwn;
    if y.slot.w.Finished? {
      steps := [];
      assert AllOwn([]) by { NothingIsOwn(); }
    } else {
      AttemptProgresses(k, y.store, FreshView(y.store), y.slot.w, password);
      CallAndCatchUp(k, y, password);
      var call := [CallApi(NoFault, password)];
      var z := Run(k, Do(k, y, call[0]), DELIVERIES);
      var rest := FreshIsARun(k, z, password);
      RunOne(k, y, call[0]);
      RunAppend(k, y, call, DELIVERIES);
      RunAppend(k, y, call + DELIVERIES, rest);
      OneCallIsOwn(password);
      DeliveriesAreNobodys();
      BothOwn(call, DELIVERIES);
      BothOwn(call + DELIVERIES, rest);
      steps := call + DELIVERIES + rest;
    }
  }

  lemma NothingIsOwn()
    ensures AllOwn([])
  {
  }

  lemma RunOne(k: Setup, y: System, step: Step)
    ensures Run(k, y, [step]) == Do(k, y, step)
  {
    hide Do;
    RunNothing(k, y);
    RunLast(k, y, [], step);
    assert [] + [step] == [step];
  }

  // ---------- Runs on which things proceed ----------

  // COSI provides something that is still missing.
  predicate Grants(s: Store, change: Change) {
    match change
    case ReportClaim(cosi) => s.claim.Some? && !ReadyObject(s.claim) && cosi.readyToUse == Some(true)
    case ReportAccess(cosi) => s.access.Some? && !ReadyObject(s.access) && cosi.readyToUse == Some(true)
    case WriteCredentials(credentials) => !UsableCredentials(s) && credentials.Some? && Complete(credentials.value.data)
    case _ => false
  }

  // No call fails, the controller is not restarted, and nobody acts but COSI.
  predicate Proceeds(s: Store, step: Step) {
    match step
    case Environment(change) => Grants(s, change)
    case CallApi(fault, _) => fault == NoFault
    case Restart => false
    case _ => true
  }

  predicate Unhindered(k: Setup, y: System, steps: seq<Step>) {
    steps == [] ||
    var init, last := steps[..|steps| - 1], steps[|steps| - 1];
    Unhindered(k, y, init) && Proceeds(Run(k, y, init).store, last)
  }

  lemma {:induction false} UnhinderedAppend(k: Setup, y: System, first: seq<Step>, second: seq<Step>)
    requires Unhindered(k, y, first) && Unhindered(k, Run(k, y, first), second)
    ensures Unhindered(k, y, first + second)
    decreases |second|
  {
    hide Run, Proceeds;
    if second == [] {
      assert first + second == first;
    } else {
      var init := second[..|second| - 1];
      assert (first + second)[..|first + second| - 1] == first + init;
      UnhinderedAppend(k, y, first, init);
      RunAppend(k, y, first, init);
    }
  }

  lemma {:induction false} OwnStepsProceed(k: Setup, y: System, steps: seq<Step>)
    requires AllOwn(steps)
    ensures Unhindered(k, y, steps)
  {
    hide Run;
    if steps != [] {
      OwnStepsProceed(k, y, steps[..|steps| - 1]);
    }
  }

  // ---------- Rounds ----------

  // Somebody else's change, told to everybody.
  lemma ChangeAndCatchUp(k: Setup, y: System, change: Change) returns (steps: seq<Step>)
    requires Synced(y)
    ensures steps == [Environment(change)] + DELIVERIES
    ensures var z := Run(k, y, steps);
            Synced(z) && z.store == Changed(y.store, change) && z.slot == y.slot
  {
    hide Changed, Visible, VisibleSecret, Run, DELIVERIES;
    var step := Environment(change);
    steps := [step] + DELIVERIES;
    InStepStays(k, y, step);
    DeliveriesCatchUp(k, Do(k, y, step));
    RunNothing(k, y);
    RunLast(k, y, [], step);
    assert [] + [step] == [step];
    RunAppend(k, y, [step], DELIVERIES);
  }

  // COSI's changes, one after the other, that make up its answer.
  function ClaimAnswer(x: Provision, s: Store): seq<Change> {
    if s.claim.None? || ReadyObject(s.claim) then []
    else [ReportClaim(CosiStatus(Some(true), x.boundBucket, None))]
  }

  function CredentialsAnswer(x: Provision, s: Store): seq<Change> {
    if Granting(s) then [WriteCredentials(Some(Secret(false, x.credentials)))] else []
  }

  function AccessAnswer(s: Store): seq<Change> {
    if s.access.None? || ReadyObject(s.access) then [] else [ReportAccess(CosiStatus(Some(true), "", None))]
  }

  function Answers(x: Provision, s: Store): seq<Change> {
    ClaimAnswer(x, s) + (CredentialsAnswer(x, s) + AccessAnswer(s))
  }

  function ChangedBy(s: Store, changes: seq<Change>): Store
    decreases |changes|
  {
    if changes == [] then s else ChangedBy(Changed(s, changes[0]), changes[1..])
  }

  // Each change grants something that is missing when it is made.
  predicate AllGrant(s: Store, changes: seq<Change>)
    decreases |changes|
  {
    changes == [] || (Grants(s, changes[0]) && AllGrant(Changed(s, changes[0]), changes[1..]))
  }

  lemma {:induction false} AppendChanges(s: Store, first: seq<Change>, second: seq<Change>)
    ensures ChangedBy(s, first + second) == ChangedBy(ChangedBy(s, first), second)
    ensures AllGrant(s, first + second) <==> AllGrant(s, first) && AllGrant(ChangedBy(s, first), second)
    decreases |first|
  {
    hide Changed, Grants;
    if first == [] {
      assert first + second == second;
    } else {
      assert (first + second)[1..] == first[1..] + second;
      AppendChanges(Changed(s, first[0]), first[1..], second);
    }
  }

  lemma OneChange(s: Store, change: Change)
    ensures ChangedBy(s, [change]) == Changed(s, change)
    ensures AllGrant(s, [change]) <==> Grants(s, change)
  {
    hide Changed, Grants;
    assert [change][1..] == [];
  }

  lemma ClaimIsAnswered(x: Provision, s: Store)
    ensures ChangedBy(s, ClaimAnswer(x, s)) == s.(claim := Granted(s.claim, x.boundBucket))
    ensures AllGrant(s, ClaimAnswer(x, s))
  {
    OneChange(s, ReportClaim(CosiStatus(Some(true), x.boundBucket, None)));
  }

  lemma CredentialsAreAnswered(x: Provision, s: Store)
    ensures ChangedBy(s, CredentialsAnswer(x, s)) ==
            if Granting(s) then s.(credentials := Some(Secret(false, x.credentials))) else s
    ensures Fulfils(x) ==> AllGrant(s, CredentialsAnswer(x, s))
  {
    hide Complete;
    OneChange(s, WriteCredentials(Some(Secret(false, x.credentials))));
  }

  lemma AccessIsAnswered(s: Store)
    ensures ChangedBy(s, AccessAnswer(s)) == s.(access := Granted(s.access, ""))
    ensures AllGrant(s, AccessAnswer(s))
  {
    OneChange(s, ReportAccess(CosiStatus(Some(true), "", None)));
  }

  lemma AnswersAnswer(x: Provision, s: Store)
    ensures ChangedBy(s, Answers(x, s)) == Answered(x, s)
    ensures Fulfils(x) ==> AllGrant(s, Answers(x, s))
  {
    hide ChangedBy, AllGrant, Granted, Fulfils, ReadyObject, Complete, ClaimAnswer;
    var claimed := ChangedBy(s, ClaimAnswer(x, s));
    var provided := ChangedBy(claimed, CredentialsAnswer(x, s));
    ClaimIsAnswered(x, s);
    assert CredentialsAnswer(x, claimed) == CredentialsAnswer(x, s);
    CredentialsAreAnswered(x, claimed);
    assert AccessAnswer(provided) == AccessAnswer(s);
    AccessIsAnswered(provided);
    AppendChanges(claimed, CredentialsAnswer(x, s), AccessAnswer(s));
    AppendChanges(s, ClaimAnswer(x, s), CredentialsAnswer(x, s) + AccessAnswer(s));
  }

  lemma AnswersAreCosis(x: Provision, s: Store)
    ensures forall i :: 0 <= i < |Answers(x, s)| ==> IsCosi(Answers(x, s)[i])
  {
    hide Granting, ReadyObject;
  }

  lemma {:induction false} ChangesAreARun(k: Setup, y: System, changes: seq<Change>) returns (steps: seq<Step>)
    requires Synced(y) && forall i :: 0 <= i < |changes| ==> IsCosi(changes[i])
    ensures AllSmooth(steps)
    ensures AllGrant(y.store, changes) ==> Unhindered(k, y, steps)
    ensures var z := Run(k, y, steps);
            Synced(z) && z.store == ChangedBy(y.store, changes) && z.slot == y.slot
    decreases |changes|
  {
    hide Changed, Synced, Run, Unhindered, Grants, DELIVERIES;
    if changes == [] {
      steps := [];
      RunNothing(k, y);
      assert Unhindered(k, y, []) by { OwnStepsProceed(k, y, []); }
    } else {
      var first := ChangeAndCatchUp(k, y, changes[0]);
      var rest := ChangesAreARun(k, Run(k, y, first), changes[1..]);
      RunAppend(k, y, first, rest);
      DeliveriesAreNobodys();
      if AllGrant(y.store, changes) {
        GrantIsUnhindered(k, y, changes[0]);
        UnhinderedAppend(k, y, first, rest);
      }
      steps := first + rest;
    }
  }

  lemma GrantIsUnhindered(k: Setup, y: System, change: Change)
    requires Grants(y.store, change)
    ensures Unhindered(k, y, [Environment(change)] + DELIVERIES)
  {
    hide Run, Grants, DELIVERIES;
    var step := [Environment(change)];
    RunNothing(k, y);
    assert step[..0] == [];
    assert Unhindered(k, y, step);
    DeliveriesAreNobodys();
    OwnStepsProceed(k, Run(k, y, step), DELIVERIES);
    UnhinderedAppend(k, y, step, DELIVERIES);
  }

  // A reconcile that is woken, runs undisturbed and is taken note of.
  lemma {:induction false} ReconcileIsARun(k: Setup, y: System, password: NewPassword) returns (steps: seq<Step>)
    requires Synced(y) && y.slot.Idle?
    ensures AllOwn(steps)
    ensures var (outcome, s) := Fresh(k, y.store, GettingPolicy, password);
            var z := Run(k, y, steps);
            Synced(z) && z.store == s && z.slot == Idle(Some(outcome))
  {
    hide Fresh, Run, Visible, VisibleSecret, PhaseOf;
    var z := Do(k, Do(k, y, Wake), Start);
    RunNothing(k, y);
    RunLast(k, y, [], Wake);
    RunLast(k, y, [Wake], Start);
    assert [] + [Wake] == [Wake] && [Wake] + [Start] == [Wake, Start];
    var rest := FreshIsARun(k, z, password);
    RunAppend(k, y, [Wake, Start], rest);
    RunLast(k, y, [Wake, Start] + rest, Finish);
    steps := [Wake, Start] + rest + [Finish];
  }

  // A round of a reconcile and COSI's answer is one of the protocol's runs as well,
  lemma {:induction false} RoundIsARun(k: Setup, x: Provision, y: System, password: NewPassword)
    returns (steps: seq<Step>)
    requires Synced(y) && y.slot.Idle?
    ensures AllSmooth(steps) && (Fulfils(x) ==> Unhindered(k, y, steps))
    ensures var z := Run(k, y, steps);
            Synced(z) && z.slot.Idle? && z.store == Round(k, x, y.store, password)
  {
    hide Fresh, Run, Synced, Answers, ChangedBy, Unhindered, AllGrant, Fulfils;
    var first := ReconcileIsARun(k, y, password);
    var z := Run(k, y, first);
    AnswersAnswer(x, z.store);
    AnswersAreCosis(x, z.store);
    var rest := ChangesAreARun(k, z, Answers(x, z.store));
    RunAppend(k, y, first, rest);
    OwnStepsProceed(k, y, first);
    if Fulfils(x) {
      UnhinderedAppend(k, y, first, rest);
    }
    steps := first + rest;
  }

  // and so is any number of rounds: no call fails, and nobody acts but COSI, which provides what
  // is missing.
  lemma {:induction false} RoundsAreARun(k: Setup, x: Provision, y: System, password: NewPassword, n: nat)
    returns (steps: seq<Step>)
    requires Synced(y) && y.slot.Idle?
    ensures AllSmooth(steps) && (Fulfils(x) ==> Unhindered(k, y, steps))
    ensures var z := Run(k, y, steps);
            Synced(z) && z.slot.Idle? && z.store == Rounds(k, x, y.store, password, n)
  {
    hide Round, Run, Synced, Unhindered, Fulfils;
    if n == 0 {
      steps := [];
      RunNothing(k, y);
      OwnStepsProceed(k, y, []);
    } else {
      var first := RoundsAreARun(k, x, y, password, n - 1);
      var last := RoundIsARun(k, x, Run(k, y, first), password);
      RunAppend(k, y, first, last);
      if Fulfils(x) {
        UnhinderedAppend(k, y, first, last);
      }
      steps := first + last;
    }
  }
}
