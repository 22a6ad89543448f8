// Endless runs of the protocol, and how far they get on their own: a reconcile under way ends, the
// cache hears of the last spec, the store settles and every event is delivered.

module EndlessRuns {
  import opened Api
  import opened BucketSecret
  import opened Config
  import opened ServerSideApply
  import opened Objects
  import opened StatusView
  import opened Reconciler
  import opened Tracking
  import opened Convergence
  import opened Protocol
  import opened Wakeups
  import opened Truth
  import opened FreshRuns
  import opened OwnWrites

  // ---------- Endless runs ----------

  datatype Endless = Endless(k: Setup, start: System, plan: nat -> Step) {
    function At(n: nat): System {
      if n == 0 then start else Do(k, At(n - 1), plan(n - 1))
    }

    function Upto(n: nat): seq<Step> {
      seq(n, i requires 0 <= i < n => plan(i))
    }
  }

  lemma AtNext(e: Endless, n: nat)
    ensures e.At(n + 1) == Do(e.k, e.At(n), e.plan(n))
  {
    hide Do;
  }

  lemma {:induction false} AtIsARun(e: Endless, n: nat)
    ensures e.At(n) == Run(e.k, e.start, e.Upto(n))
  {
    hide Do;
    if n > 0 {
      AtIsARun(e, n - 1);
      assert e.Upto(n)[..n - 1] == e.Upto(n - 1);
    }
  }

  // ---------- What is asked of the surroundings ----------

  ghost predicate Undisturbed(e: Endless, from: nat) {
    forall n: nat :: from <= n ==> Proceeds(e.At(n).store, e.plan(n))
  }

  // What has to have its turn: events are delivered, the queue is served, calls are made and
  // timers fire, each again and again.
  predicate IsTurn(step: Step) {
    step.Deliver? || step.Start? || step.CallApi? || step.Finish? || step.FireTimer?
  }

  predicate SameTurn(a: Step, b: Step) {
    a == b || (a.CallApi? && b.CallApi?)
  }

  ghost predicate ComesUp(e: Endless, n: nat, turn: Step) {
    exists m: nat :: n <= m && SameTurn(e.plan(m), turn)
  }

  ghost predicate Fair(e: Endless) {
    forall n: nat, turn: Step :: IsTurn(turn) ==> ComesUp(e, n, turn)
  }

  // COSI answers: a claim becomes ready, and so does an access, with credentials.
  datatype Milestone = ClaimReady | AccessReady | CredentialsWritten

  predicate Requested(s: Store, stone: Milestone) {
    if stone.ClaimReady? then s.claim.Some? else s.access.Some?
  }

  predicate Met(s: Store, stone: Milestone) {
    match stone
    case ClaimReady => ReadyObject(s.claim)
    case AccessReady => ReadyObject(s.access)
    case CredentialsWritten => UsableCredentials(s)
  }

  ghost predicate IsMetLater(e: Endless, n: nat, stone: Milestone) {
    exists m: nat :: n <= m && Met(e.At(m).store, stone)
  }

  ghost predicate CosiAnswers(e: Endless) {
    forall n: nat, stone: Milestone :: Requested(e.At(n).store, stone) ==> IsMetLater(e, n, stone)
  }

  // COSI has nothing left to answer.
  predicate Served(s: Store) {
    && (s.claim.Some? ==> ReadyObject(s.claim))
    && (s.access.Some? ==> ReadyObject(s.access) && UsableCredentials(s))
  }

  // ---------- A reconcile under way comes to its end ----------

  function Rank(slot: Slot): nat {
    match slot
    case Idle(_) => 0
    case Busy(w) => 1 + Remaining(w)
  }

  // The turn a reconcile under way is waiting for.
  function NextTurn(slot: Slot): Step {
    if slot.Busy? && slot.w.Finished? then Finish else CallApi(NoFault, "x")
  }

  lemma SlotMoves(k: Setup, y: System, step: Step)
    requires y.slot.Busy? && Proceeds(y.store, step)
    ensures var z := Do(k, y, step);
            && (z.slot == y.slot || Rank(z.slot) < Rank(y.slot))
            && (SameTurn(step, NextTurn(y.slot)) ==> z.slot != y.slot)
  {
    hide Attempt, Notice, Logged, Delivered, Grants, PhaseOf, IsSilent, Changed;
    if step.CallApi? {
      if y.slot.w.Finished? {
        FinishedStays(k, y.store, y.caches.AsView(), y.slot.w, step.password);
      } else {
        AttemptProgresses(k, y.store, y.caches.AsView(), y.slot.w, step.password);
      }
    }
    if step.Deliver? {
      DeliveryKeepsSlot(y, step.what);
    }
  }

  lemma DeliveryKeepsSlot(y: System, what: Watched)
    ensures Delivered(y, what).slot == y.slot
  {
  }

  lemma {:induction false} ReachIdle(e: Endless, from: nat, n: nat, next: nat) returns (j: nat)
    requires Undisturbed(e, from) && Fair(e) && from <= n <= next
    requires e.At(n).slot.Busy? ==> SameTurn(e.plan(next), NextTurn(e.At(n).slot))
    ensures n <= j && e.At(j).slot.Idle?
    ensures forall i: nat :: n <= i < j ==> e.At(i).slot.Busy?
    decreases Rank(e.At(n).slot), next - n
  {
    hide Endless.At, Do, Proceeds, Rank, SameTurn, Fair;
    AtNext(e, n);
    if e.At(n).slot.Idle? {
      j := n;
    } else {
      assert Proceeds(e.At(n).store, e.plan(n));
      SlotMoves(e.k, e.At(n), e.plan(n));
      if e.At(n + 1).slot == e.At(n).slot {
        j := ReachIdle(e, from, n + 1, next);
      } else {
        var later := TurnComes(e, n + 1, NextTurn(e.At(n + 1).slot));
        j := ReachIdle(e, from, n + 1, later);
      }
    }
  }

  lemma TurnComes(e: Endless, n: nat, turn: Step) returns (m: nat)
    requires Fair(e) && IsTurn(turn)
    ensures n <= m && SameTurn(e.plan(m), turn)
  {
    hide IsTurn, SameTurn;
    assert ComesUp(e, n, turn);
    m :| n <= m && SameTurn(e.plan(m), turn);
  }

  lemma IdleAfter(e: Endless, from: nat, n: nat) returns (j: nat)
    requires Undisturbed(e, from) && Fair(e) && from <= n
    ensures n <= j && e.At(j).slot.Idle?
    ensures forall i: nat :: n <= i < j ==> e.At(i).slot.Busy?
  {
    hide Do, Fair, Undisturbed;
    var next := TurnComes(e, n, NextTurn(e.At(n).slot));
    j := ReachIdle(e, from, n, next);
  }

  // ---------- The cache hears of the last spec ----------

  // The cache is c events away from the policy's spec.
  predicate Behind(i: Informer<Policy>, q: Policy, c: nat) {
    && c <= |i.pending|
    && (forall j :: c <= j < |i.pending| ==> SameSpec(i.pending[j], q))
    && SameSpec(if c == 0 then i.cached else i.pending[c - 1], q)
  }

  lemma ObserveStaysBehind(i: Informer<Policy>, q: Policy, p: Policy, c: nat)
    requires Behind(i, q, c) && SameSpec(p, q)
    ensures Behind(i.Observe(p), p, c)
  {
  }

  lemma DeliverComesCloser(i: Informer<Policy>, q: Policy, c: nat)
    requires Behind(i, q, c)
    ensures Behind(i.Deliver(), q, if c == 0 then 0 else c - 1)
  {
  }

  // Neither a call nor COSI touches a spec.
  lemma SpecStays(k: Setup, y: System, step: Step)
    requires Proceeds(y.store, step)
    ensures SameSpec(Do(k, y, step).store.policy, y.store.policy)
  {
    hide Call, Notice, Logged, PhaseOf, CrdValid, Grants;
    if step.CallApi? && y.slot.Busy? {
      CallKeepsSpec(k, y.store, y.caches.AsView(), y.slot.w, step.fault, step.password);
    }
    if step.Environment? {
      GrantsAreCosis(y.store, step.change);
    }
  }

  lemma GrantsAreCosis(s: Store, change: Change)
    requires Grants(s, change)
    ensures IsCosi(change) && Changed(s, change).policy == s.policy
  {
    hide CrdValid, Complete;
  }

  lemma CallKeepsSpec(k: Setup, s: Store, v: View, w: Worker, fault: Fault, password: NewPassword)
    ensures SameSpec(Call(k, s, v, w, fault, password).1.policy, s.policy)
  {
    hide Resolve, BucketIn, BucketClaimConfig, BucketAccessConfig, ScheduleConfig, StatusConfig, WantOf, ReadStatus;
    hide Applied, Apply, IsReady, Password;
  }

  lemma StepComesCloser(k: Setup, y: System, step: Step, c: nat)
    requires Behind(y.caches.policy, y.store.policy, c) && Proceeds(y.store, step)
    ensures var z := Do(k, y, step);
            if step == Deliver(PolicyWatch) then Behind(z.caches.policy, z.store.policy, if c == 0 then 0 else c - 1)
            else Behind(z.caches.policy, z.store.policy, c)
  {
    hide Call, Logged, PhaseOf, Grants, Changed, Behind, SameSpec, Visible, VisibleSecret, Informer.Observe;
    SpecStays(k, y, step);
    if step.CallApi? || step.Environment? {
      ObserveStaysBehind(y.caches.policy, y.store.policy, Do(k, y, step).store.policy, c);
    } else {
      DeliverComesCloser(y.caches.policy, y.store.policy, c);
    }
    if step == Deliver(PolicyWatch) && y.caches.policy.pending == [] {
      EmptyIsClose(y.caches.policy, y.store.policy, c);
    }
  }

  lemma EmptyIsClose(i: Informer<Policy>, q: Policy, c: nat)
    requires Behind(i, q, c) && i.pending == []
    ensures c == 0
  {
  }

  lemma {:induction false} CatchUp(e: Endless, from: nat, n: nat, next: nat, c: nat) returns (j: nat)
    requires Undisturbed(e, from) && Fair(e) && from <= n <= next
    requires Behind(e.At(n).caches.policy, e.At(n).store.policy, c)
    requires e.plan(next) == Deliver(PolicyWatch)
    ensures n <= j && Behind(e.At(j).caches.policy, e.At(j).store.policy, 0)
    decreases c, next - n
  {
    hide Endless.At, Do, Proceeds, Behind, Fair;
    AtNext(e, n);
    if c == 0 {
      j := n;
    } else {
      assert Proceeds(e.At(n).store, e.plan(n));
      StepComesCloser(e.k, e.At(n), e.plan(n), c);
      if e.plan(n) == Deliver(PolicyWatch) {
        var later := TurnComes(e, n + 1, Deliver(PolicyWatch));
        j := CatchUp(e, from, n + 1, later, c - 1);
      } else {
        j := CatchUp(e, from, n + 1, next, c);
      }
    }
  }

  lemma {:induction false} StaysCaughtUp(e: Endless, from: nat, n: nat, m: nat)
    requires Undisturbed(e, from) && from <= n <= m
    requires Behind(e.At(n).caches.policy, e.At(n).store.policy, 0)
    ensures Behind(e.At(m).caches.policy, e.At(m).store.policy, 0)
    decreases m - n
  {
    hide Endless.At, Do, Proceeds, Behind;
    if n < m {
      AtNext(e, m - 1);
      StaysCaughtUp(e, from, n, m - 1);
      assert Proceeds(e.At(m - 1).store, e.plan(m - 1));
      StepComesCloser(e.k, e.At(m - 1), e.plan(m - 1), 0);
    }
  }

  // ---------- Milestones ----------

  lemma CallKeepsMilestones(k: Setup, s: Store, v: View, w: Worker, fault: Fault, password: NewPassword)
    ensures var s' := Call(k, s, v, w, fault, password).1;
            && Missing(s') == Missing(s)
            && (Feasible(k, s) ==> Feasible(k, s'))
  {
    hide Resolve, BucketIn, BucketClaimConfig, BucketAccessConfig, ScheduleConfig, StatusConfig, WantOf, ReadStatus;
    hide Applied, Apply, IsReady, Complete;
    match w
    case ApplyingClaim(_, cfg) => AppliedKeepsStatus(s.claim, BucketClaimConfig(k, cfg));
    case ApplyingAccess(_, cfg, _) => AppliedKeepsStatus(s.access, BucketAccessConfig(k, cfg));
    case _ =>
  }

  lemma GrantsBringCloser(k: Setup, s: Store, change: Change)
    requires Grants(s, change)
    ensures Missing(Changed(s, change)) < Missing(s)
    ensures Feasible(k, s) ==> Feasible(k, Changed(s, change))
  {
    hide Complete, CrdValid, Resolve, Password;
  }

  // Nothing that proceeds takes a milestone back or makes Ready impossible, and what COSI grants
  // is one milestone more.
  lemma StepKeepsMilestones(k: Setup, y: System, step: Step)
    requires Proceeds(y.store, step)
    ensures var z := Do(k, y, step);
            && Missing(z.store) <= Missing(y.store)
            && (Feasible(k, y.store) ==> Feasible(k, z.store))
            && (step.Environment? ==> Missing(z.store) < Missing(y.store))
  {
    hide Call, Notice, Logged, PhaseOf, Grants, Missing, Feasible, Changed;
    if step.CallApi? && y.slot.Busy? {
      CallKeepsMilestones(k, y.store, y.caches.AsView(), y.slot.w, step.fault, step.password);
    }
    if step.Environment? {
      GrantsBringCloser(k, y.store, step.change);
    }
  }

  // ---------- The store settles ----------

  function Budget(k: Setup, y: System): nat {
    StillOwed(k, y) + 7 * Missing(y.store)
  }

  lemma StepSpends(k: Setup, y: System, step: Step)
    requires Alone(k, y) && Proceeds(y.store, step)
    ensures Alone(k, Do(k, y, step))
    ensures Budget(k, Do(k, y, step)) + Owed(ChangesStore(k, y, step)) <= Budget(k, y)
  {
    hide Do, Alone, StillOwed, Missing, Grants, ChangesStore;
    if step.Environment? {
      GrantsAreCosis(y.store, step.change);
    }
    StepKeepsMilestones(k, y, step);
    StepStaysAlone(k, y, step);
    OneStepPays(k, y, step);
  }

  lemma {:induction false} BudgetIsSpent(e: Endless, from: nat, n: nat, m: nat)
    requires Undisturbed(e, from) && from <= n <= m && Alone(e.k, e.At(n))
    ensures Alone(e.k, e.At(m))
    ensures Budget(e.k, e.At(m)) + Owed(e.At(m).store != e.At(n).store) <= Budget(e.k, e.At(n))
    decreases m - n
  {
    hide Endless.At, Do, Alone, Budget, Proceeds;
    if n < m {
      BudgetIsSpent(e, from, n, m - 1);
      AtNext(e, m - 1);
      assert Proceeds(e.At(m - 1).store, e.plan(m - 1));
      StepSpends(e.k, e.At(m - 1), e.plan(m - 1));
    }
  }

  ghost predicate SettledFrom(e: Endless, n: nat) {
    forall m: nat :: n <= m ==> e.At(m).store == e.At(n).store
  }

  lemma {:induction false} StoreSettles(e: Endless, from: nat, n: nat) returns (j: nat)
    requires Undisturbed(e, from) && from <= n && Alone(e.k, e.At(n))
    ensures n <= j && SettledFrom(e, j)
    decreases Budget(e.k, e.At(n))
  {
    hide Endless.At, Do, Alone, Budget, Proceeds;
    if SettledFrom(e, n) {
      j := n;
    } else {
      var m: nat :| n <= m && e.At(m).store != e.At(n).store;
      BudgetIsSpent(e, from, n, m);
      j := StoreSettles(e, from, m);
    }
  }

  // ---------- Everything is delivered ----------

  function Pending(y: System): nat {
    Undelivered(y) + |y.caches.repository.pending|
  }

  predicate HasNews(y: System, what: Watched) {
    match what
    case PolicyWatch => y.caches.policy.pending != []
    case ClaimWatch => y.caches.claim.pending != []
    case AccessWatch => y.caches.access.pending != []
    case ScheduleWatch => y.caches.schedule.pending != []
    case RepositoryCache => y.caches.repository.pending != []
  }

  // Where the store stays, a step only delivers.
  lemma StepDelivers(k: Setup, y: System, step: Step)
    requires InStep(y) && Proceeds(y.store, step) && Do(k, y, step).store == y.store
    ensures var z := Do(k, y, step);
            && ((z.caches == y.caches && Pending(z) == Pending(y)) || Pending(z) < Pending(y))
            && (step.Deliver? && HasNews(y, step.what) ==> Pending(z) < Pending(y))
  {
    hide InStep, Call, Logged, PhaseOf, Grants, Changed, Notice, Delivered, Pending, HasNews;
    if step.Deliver? {
      DeliveryLowers(y, step.what);
    }
    if step.CallApi? || step.Environment? {
      NothingMoves(y);
    }
    if Do(k, y, step).caches == y.caches {
      SamePending(y, Do(k, y, step));
    }
  }

  lemma DeliveryLowers(y: System, what: Watched)
    ensures var z := Delivered(y, what);
            if HasNews(y, what) then Pending(z) < Pending(y) else z.caches == y.caches
  {
  }

  lemma SamePending(y: System, z: System)
    requires z.caches == y.caches
    ensures Pending(z) == Pending(y)
  {
  }

  lemma {:induction false} NewsIsDelivered(e: Endless, from: nat, n: nat, next: nat, what: Watched) returns (j: nat)
    requires Undisturbed(e, from) && Fair(e) && from <= n <= next && Honestly(e)
    requires SettledFrom(e, n) && HasNews(e.At(n), what) && e.plan(next) == Deliver(what)
    ensures n <= j && Synced(e.At(j))
    decreases Pending(e.At(n)), next - n
  {
    hide Endless.At, Do, Proceeds, Fair, Pending, Synced, Honest, Awake, InStep;
    AtNext(e, n);
    assert Proceeds(e.At(n).store, e.plan(n));
    assert e.At(n + 1).store == e.At(n).store;
    HonestAt(e, n);
    StepDelivers(e.k, e.At(n), e.plan(n));
    if Pending(e.At(n + 1)) < Pending(e.At(n)) {
      j := AllDelivered(e, from, n + 1);
    } else {
      j := NewsIsDelivered(e, from, n + 1, next, what);
    }
  }

  lemma {:induction false} AllDelivered(e: Endless, from: nat, n: nat) returns (j: nat)
    requires Undisturbed(e, from) && Fair(e) && from <= n && SettledFrom(e, n) && Honestly(e)
    ensures n <= j && Synced(e.At(j))
    decreases Pending(e.At(n))
  {
    hide Endless.At, Do, Proceeds, Fair, Pending, Synced, Honest, Awake, InStep;
    HonestAt(e, n);
    if what :| HasNews(e.At(n), what) {
      var next := TurnComes(e, n, Deliver(what));
      j := NewsIsDelivered(e, from, n, next, what);
    } else {
      NoNewsIsSynced(e.At(n));
      j := n;
    }
  }

  lemma NoNewsIsSynced(y: System)
    requires InStep(y) && forall what :: !HasNews(y, what)
    ensures Synced(y)
  {
    hide InStep;
    assert !HasNews(y, PolicyWatch) && !HasNews(y, ClaimWatch) && !HasNews(y, AccessWatch);
    assert !HasNews(y, ScheduleWatch) && !HasNews(y, RepositoryCache);
  }

  lemma {:induction false} StaysSynced(e: Endless, from: nat, n: nat, m: nat)
    requires Undisturbed(e, from) && from <= n <= m && SettledFrom(e, n) && Synced(e.At(n))
    ensures Synced(e.At(m))
    decreases m - n
  {
    hide Endless.At, Do, Proceeds, Synced;
    if n < m {
      StaysSynced(e, from, n, m - 1);
      AtNext(e, m - 1);
      assert Proceeds(e.At(m - 1).store, e.plan(m - 1));
      assert e.At(m).store == e.At(n).store == e.At(m - 1).store;
      StepStaysSynced(e.k, e.At(m - 1), e.plan(m - 1));
    }
  }

  lemma StepStaysSynced(k: Setup, y: System, step: Step)
    requires Synced(y) && Proceeds(y.store, step) && Do(k, y, step).store == y.store
    ensures Synced(Do(k, y, step))
  {
    hide Do, InStep, Proceeds;
    InStepStays(k, y, step);
    StepDelivers(k, y, step);
  }

  // Nobody else writes the status, from the beginning on.
  ghost predicate Honestly(e: Endless) {
    Init(e.start) && forall n: nat :: LeavesStatus(e.plan(n))
  }

  lemma HonestAt(e: Endless, n: nat)
    requires Honestly(e)
    ensures Honest(e.k, e.At(n)) && InStep(e.At(n)) && Awake(e.k, e.At(n))
  {
    hide Init, Honest, InStep, Awake, Run, Endless.At, LeavesStatus;
    AtIsARun(e, n);
    AlwaysHonest(e.k, e.start, e.Upto(n));
    InStepAlways(e.k, e.start, e.Upto(n));
    AlwaysAwake(e.k, e.start, e.Upto(n));
  }
}
