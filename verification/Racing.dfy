// The repository password is written once, even by any number of racing reconcilers.

module Racing {
  import opened Api
  import opened BucketSecret
  import opened Config
  import opened ServerSideApply
  import opened Objects
  import opened StatusView
  import opened Reconciler
  import opened Protocol

  // Reconcilers, by number, over one store. Each holds its own cache of the repository Secret,
  // which shows some state the Secret has been in; everything else they read may be anything.
  datatype Race = Race(store: Store, workers: map<nat, Worker>, history: seq<Option<Secret>>)

  datatype Turn =
    | Begin(who: nat)
    | Proceed(who: nat, view: View, remembered: nat, fault: Fault, password: NewPassword)
    | Abandon(who: nat)
    | Others(change: Change)

  // Nobody outside ampulla writes or deletes the repository Secret, or makes up a Schedule.
  predicate Permitted(s: Store, change: Change) {
    && !change.EditRepository?
    && (change.EditSchedule? && change.schedule.Some? ==> s.schedule.Some?)
  }

  function Take(k: Setup, r: Race, turn: Turn): Race {
    match turn
    case Begin(who) => r.(workers := r.workers[who := GettingPolicy])
    case Abandon(who) => r.(workers := r.workers - {who})
    case Proceed(who, view, remembered, fault, password) =>
      if who !in r.workers || remembered >= |r.history| then r
      else
        var v := view.(repository := VisibleSecret(r.history[remembered]));
        var (w, s) := Call(k, r.store, v, r.workers[who], fault, password);
        Race(s, r.workers[who := w], r.history + [s.repository])
    case Others(change) =>
      if !Permitted(r.store, change) then r else r.(store := Changed(r.store, change))
  }

  function RunRace(k: Setup, r: Race, turns: seq<Turn>): Race {
    if turns == [] then r
    else Take(k, RunRace(k, r, turns[..|turns| - 1]), turns[|turns| - 1])
  }

  // A reconciler that has made sure of the password.
  predicate PastPassword(w: Worker) {
    w.ApplyingSchedule? || (w.Reporting? && w.verdict.BackingUp?)
  }

  predicate Guarded(r: Race) {
    && (r.store.repository.Some? ==> HasPassword(r.store.repository))
    && (forall i :: 0 <= i < |r.history| ==> r.history[i].Some? ==> r.history[i] == r.store.repository)
    && (r.store.schedule.Some? ==> HasPassword(r.store.repository))
    && (forall who :: who in r.workers && PastPassword(r.workers[who]) ==> HasPassword(r.store.repository))
  }

  // One call, on any view whose repository Secret is absent or the stored one.
  lemma CallGuards(k: Setup, s: Store, v: View, w: Worker, fault: Fault, password: NewPassword)
    requires s.repository.Some? ==> HasPassword(s.repository)
    requires v.repository.Some? ==> v.repository == s.repository
    requires s.schedule.Some? || PastPassword(w) ==> HasPassword(s.repository)
    ensures var (w', s') := Call(k, s, v, w, fault, password);
            && (s.repository.Some? ==> s'.repository == s.repository)
            && (s'.repository.Some? ==> HasPassword(s'.repository))
            && (s'.schedule.Some? || PastPassword(w') ==> HasPassword(s'.repository))
  {
    hide Resolve, BucketIn, BucketClaimConfig, BucketAccessConfig, ScheduleConfig, StatusConfig, WantOf, ReadStatus;
    hide Applied, Apply, IsReady;
  }

  lemma TurnGuards(k: Setup, r: Race, turn: Turn)
    requires Guarded(r)
    ensures Guarded(Take(k, r, turn))
    ensures r.store.repository.Some? ==> Take(k, r, turn).store.repository == r.store.repository
  {
    hide Call, HasPassword, CrdValid;
    match turn
    case Proceed(who, view, remembered, fault, password) =>
      if who in r.workers && remembered < |r.history| {
        var v := view.(repository := VisibleSecret(r.history[remembered]));
        CallGuards(k, r.store, v, r.workers[who], fault, password);
      }
    case _ =>
  }

  lemma {:induction false} AlwaysGuarded(k: Setup, r: Race, turns: seq<Turn>)
    requires Guarded(r)
    ensures Guarded(RunRace(k, r, turns))
  {
    hide Guarded, Take;
    if turns != [] {
      AlwaysGuarded(k, r, turns[..|turns| - 1]);
      TurnGuards(k, RunRace(k, r, turns[..|turns| - 1]), turns[|turns| - 1]);
    }
  }

  // No reconciler has begun, and there is neither a password nor a Schedule yet.
  predicate Untouched(r: Race) {
    r.workers == map[] && r.history == [None] && r.store.repository == None && r.store.schedule == None
  }

  // Over every run of every number of reconcilers: once the password is there it stays exactly as
  // it is,
  lemma {:induction false} PasswordIsWrittenOnce(k: Setup, r: Race, turns: seq<Turn>, later: seq<Turn>)
    requires Untouched(r)
    requires RunRace(k, r, turns).store.repository.Some?
    ensures RunRace(k, r, turns + later).store.repository == RunRace(k, r, turns).store.repository
    decreases |later|
  {
    hide Guarded, Take;
    if later == [] {
      assert turns + later == turns;
    } else {
      var init := later[..|later| - 1];
      PasswordIsWrittenOnce(k, r, turns, init);
      assert (turns + later)[..|turns + later| - 1] == turns + init;
      UntouchedIsGuarded(r);
      AlwaysGuarded(k, r, turns + init);
      TurnGuards(k, RunRace(k, r, turns + init), later[|later| - 1]);
    }
  }

  lemma UntouchedIsGuarded(r: Race)
    requires Untouched(r)
    ensures Guarded(r)
  {
  }

  // and there is never a Schedule without one.
  lemma {:induction false} NoScheduleWithoutPassword(k: Setup, r: Race, turns: seq<Turn>)
    requires Untouched(r)
    ensures var s := RunRace(k, r, turns).store;
            && (s.repository.Some? ==> Password(s.repository.value) != "")
            && (s.schedule.Some? ==> s.repository.Some?)
  {
    hide RunRace, Take;
    UntouchedIsGuarded(r);
    AlwaysGuarded(k, r, turns);
  }

  // What the assumption about outsiders is for. An undisturbed reconcile that backs a policy up
  // leaves a password behind it unless it found a Secret there that carries no label, so that the
  // cache does not show it, and no password either.
  lemma PasswordUnlessOccupied(k: Setup, s: Store, password: NewPassword)
    requires var outcome := Fresh(k, s, GettingPolicy, password).0;
             outcome.Reported? && outcome.verdict.BackingUp?
    ensures var s' := Fresh(k, s, GettingPolicy, password).1;
            HasPassword(s'.repository) <==>
            !Occupied(s)
  {
    hide Attempt;
    FreshAndTheRepository(k, s, GettingPolicy, password);
  }

  predicate Occupied(s: Store) {
    s.repository.Some? && !s.repository.value.managed && Password(s.repository.value) == ""
  }

  // A reconcile does not disturb an occupying Secret, and otherwise gets past this point only
  // with a password.
  lemma {:induction false} FreshAndTheRepository(k: Setup, s: Store, w: Worker, password: NewPassword)
    requires PastPassword(w) ==> Occupied(s) || HasPassword(s.repository)
    requires w.CreatingRepository? ==> VisibleSecret(s.repository) == None
    requires w.Finished? ==> !w.outcome.Reported? || !w.outcome.verdict.BackingUp?
    ensures var (outcome, s') := Fresh(k, s, w, password);
            && (Occupied(s) ==> Occupied(s'))
            && (!Occupied(s) && outcome.Reported? && outcome.verdict.BackingUp? ==> HasPassword(s'.repository))
    decreases Remaining(w)
  {
    if !w.Finished? {
      AttemptProgresses(k, s, FreshView(s), w, password);
      var (w', s') := Attempt(k, s, FreshView(s), w, password);
      AttemptAndTheRepository(k, s, w, password);
      if !w'.Finished? {
        FreshAndTheRepository(k, s', w', password);
      }
    }
  }

  lemma AttemptAndTheRepository(k: Setup, s: Store, w: Worker, password: NewPassword)
    requires PastPassword(w) ==> Occupied(s) || HasPassword(s.repository)
    requires w.CreatingRepository? ==> VisibleSecret(s.repository) == None
    requires !w.Finished?
    ensures var (w', s') := Attempt(k, s, FreshView(s), w, password);
            && Occupied(s') == Occupied(s)
            && (PastPassword(w') ==> Occupied(s') || HasPassword(s'.repository))
            && (w'.CreatingRepository? ==> VisibleSecret(s'.repository) == None)
            && (w'.Finished? && w'.outcome.Reported? && w'.outcome.verdict.BackingUp? ==>
                  Occupied(s') || HasPassword(s'.repository))
  {
    hide Resolve, BucketIn, BucketClaimConfig, BucketAccessConfig, ScheduleConfig, StatusConfig, WantOf, ReadStatus;
    hide Applied, Apply, IsReady;
  }

  // ---------- Whatever outsiders do ----------

  // What decides whether a reconcile that gets past the password with this call has one behind
  // it. It may rest on a cache that is out of date: what the cache shows has to be still there
  // with a password. If the cache showed nothing, the place has to be free or hold one.
  predicate WillHold(s: Store, w: Worker) {
    HasPassword(s.repository) || (w.CreatingRepository? && s.repository.None?)
  }

  // A reconcile gets past the password by reading one through the cache, or by a create.
  lemma EntersByRepository(k: Setup, s: Store, v: View, w: Worker, fault: Fault, password: NewPassword)
    ensures var (w', s') := Call(k, s, v, w, fault, password);
            && (PastPassword(w') && !PastPassword(w) <==>
                  && fault == NoFault
                  && ((w.GettingRepository? && HasPassword(v.repository)) || w.CreatingRepository?))
            && (PastPassword(w') && !PastPassword(w) ==> (HasPassword(s'.repository) <==> WillHold(s, w)))
            && (s'.repository != s.repository ==> w.CreatingRepository?)
            && (PastPassword(w) ==> PastPassword(w') || w'.Finished?)
            && (w.Finished? ==> w'.Finished?)
  {
    hide Resolve, BucketIn, BucketClaimConfig, BucketAccessConfig, ScheduleConfig, StatusConfig, WantOf, ReadStatus;
    hide Applied, Apply, IsReady;
  }

  // No outsider touches the repository Secret, and no other reconcile begins.
  predicate LeavesRepository(step: Step) {
    && !step.Start?
    && (step.Environment? ==> !step.change.EditRepository?)
  }

  predicate LeaveRepository(steps: seq<Step>) {
    forall i :: 0 <= i < |steps| ==> LeavesRepository(steps[i])
  }

  // The reconcile has got past the password, or is over.
  predicate IsPast(slot: Slot) {
    slot.Idle? || PastPassword(slot.w) || slot.w.Finished?
  }

  lemma StepLeavesRepository(k: Setup, y: System, step: Step)
    requires IsPast(y.slot) && LeavesRepository(step)
    ensures IsPast(Do(k, y, step).slot) && Do(k, y, step).store.repository == y.store.repository
  {
    hide Call, Notice, Logged, CrdValid, PhaseOf, Visible, VisibleSecret;
    if step.CallApi? && y.slot.Busy? {
      EntersByRepository(k, y.store, y.caches.AsView(), y.slot.w, step.fault, step.password);
    }
  }

  lemma {:induction false} RunLeavesRepository(k: Setup, y: System, steps: seq<Step>)
    requires IsPast(y.slot) && LeaveRepository(steps)
    ensures IsPast(Run(k, y, steps).slot) && Run(k, y, steps).store.repository == y.store.repository
  {
    hide Do, IsPast, LeavesRepository;
    if steps != [] {
      var init := steps[..|steps| - 1];
      assert LeaveRepository(init);
      RunLeavesRepository(k, y, init);
      StepLeavesRepository(k, Run(k, y, init), steps[|steps| - 1]);
    }
  }

  // From any state whatsoever, with caches as stale as may be: a reconcile that gets past the
  // password has one behind it, from there until the next one begins, exactly if one was there or
  // the create found the place free; unless an outsider takes it away in between.
  lemma {:induction false} PasswordBehindIff(k: Setup, y: System, call: Step, later: seq<Step>)
    requires y.slot.Busy? && !PastPassword(y.slot.w) && call.CallApi?
    requires var z := Do(k, y, call); z.slot.Busy? && PastPassword(z.slot.w)
    requires LeaveRepository(later)
    ensures y.slot.w.CreatingRepository? || (y.slot.w.GettingRepository? && HasPassword(y.caches.repository.cached))
    ensures HasPassword(Run(k, Do(k, y, call), later).store.repository) <==> WillHold(y.store, y.slot.w)
  {
    hide Run, Call, Notice, Logged, HasPassword, WillHold;
    EntersByRepository(k, y.store, y.caches.AsView(), y.slot.w, call.fault, call.password);
    RunLeavesRepository(k, Do(k, y, call), later);
  }

  // ---------- Which password ----------

  // What is created for a generated password, under the key the Schedule refers to.
  function NewSecret(password: NewPassword): Secret {
    Secret(true, map[RepoPasswordKey := password])
  }

  lemma CreatesWhatWasGenerated(k: Setup, s: Store, v: View, w: Worker, fault: Fault, password: NewPassword)
    ensures var s' := Call(k, s, v, w, fault, password).1;
            s'.repository != s.repository ==> s'.repository == Some(NewSecret(password))
  {
    hide Resolve, BucketIn, BucketClaimConfig, BucketAccessConfig, ScheduleConfig, StatusConfig, WantOf, ReadStatus;
    hide Applied, Apply, IsReady;
  }

  // The Secret was generated on the way here, for the very call that created it.
  ghost predicate GeneratedBy(turns: seq<Turn>, repository: Option<Secret>) {
    repository.Some? ==>
      exists i :: 0 <= i < |turns| && turns[i].Proceed? && repository == Some(NewSecret(turns[i].password))
  }

  // Over every run of every number of reconcilers: the password that all of them end up with is
  // one that one of them generated.
  lemma {:induction false} PasswordWasGenerated(k: Setup, r: Race, turns: seq<Turn>)
    requires Untouched(r)
    ensures GeneratedBy(turns, RunRace(k, r, turns).store.repository)
  {
    hide Call;
    if turns != [] {
      var init, last := turns[..|turns| - 1], turns[|turns| - 1];
      PasswordWasGenerated(k, r, init);
      var before := RunRace(k, r, init);
      TurnGenerates(k, before, last);
      if i :| 0 <= i < |init| && init[i].Proceed? && before.store.repository == Some(NewSecret(init[i].password)) {
        assert turns[i] == init[i];
      }
      assert turns[|turns| - 1] == last;
    }
  }

  lemma TurnGenerates(k: Setup, r: Race, turn: Turn)
    ensures var r' := Take(k, r, turn);
            r'.store.repository != r.store.repository ==>
              turn.Proceed? && r'.store.repository == Some(NewSecret(turn.password))
  {
    hide Call, CrdValid;
    if turn.Proceed? && turn.who in r.workers && turn.remembered < |r.history| {
      var v := turn.view.(repository := VisibleSecret(r.history[turn.remembered]));
      CreatesWhatWasGenerated(k, r.store, v, r.workers[turn.who], turn.fault, turn.password);
    }
  }

  predicate LeavesTheSecret(step: Step) {
    step.Environment? ==> !step.change.EditRepository?
  }

  // And of one controller, with any failures and restarts, as long as nobody else writes it: the
  // step of the run that created the Secret generated its password.
  lemma {:induction false} PasswordIsThatOfItsCall(k: Setup, y: System, steps: seq<Step>)
    requires y.store.repository == None
    requires forall i :: 0 <= i < |steps| ==> LeavesTheSecret(steps[i])
    ensures var repository := Run(k, y, steps).store.repository;
            repository.Some? ==>
              exists i :: 0 <= i < |steps| && steps[i].CallApi? && repository == Some(NewSecret(steps[i].password))
  {
    hide Do, LeavesTheSecret;
    if steps != [] {
      var init, last := steps[..|steps| - 1], steps[|steps| - 1];
      PasswordIsThatOfItsCall(k, y, init);
      var before := Run(k, y, init);
      StepGenerates(k, before, last);
      if i :| 0 <= i < |init| && init[i].CallApi? && before.store.repository == Some(NewSecret(init[i].password)) {
        assert steps[i] == init[i];
      }
      assert steps[|steps| - 1] == last;
    }
  }

  lemma StepGenerates(k: Setup, y: System, step: Step)
    requires LeavesTheSecret(step)
    ensures var z := Do(k, y, step);
            z.store.repository != y.store.repository ==>
              step.CallApi? && z.store.repository == Some(NewSecret(step.password))
  {
    hide Call, Notice, Logged, CrdValid, PhaseOf, NewSecret;
    if step.CallApi? && y.slot.Busy? {
      CreatesWhatWasGenerated(k, y.store, y.caches.AsView(), y.slot.w, step.fault, step.password);
    }
  }
}
