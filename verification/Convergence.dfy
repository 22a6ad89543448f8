// With COSI answering, a policy that resolves becomes Ready in finitely many reconciles and then
// stays as it is.

module Convergence {
  import opened Api
  import opened BucketSecret
  import opened Config
  import opened ServerSideApply
  import opened Objects
  import opened StatusView
  import opened Reconciler
  import opened Tracking
  import opened Idempotence
  import opened Truth

  // What COSI gives a request it fulfils.
  datatype Provision = Provision(boundBucket: string, credentials: SecretData)

  predicate Fulfils(x: Provision) {
    Complete(x.credentials)
  }

  function Granted(o: Option<Object>, bound: string): Option<Object> {
    match o
    case None => None
    case Some(found) => if IsReady(found) then o else Some(found.(cosi := CosiStatus(Some(true), bound, None)))
  }

  predicate Granting(s: Store) {
    s.access.Some? && (s.credentials.Some? ==> !Complete(s.credentials.value.data))
  }

  // COSI answers whatever has been asked for: it readies the claim, writes the credentials of an
  // access that has none, and readies the access.
  function Answered(x: Provision, s: Store): Store {
    s.(claim := Granted(s.claim, x.boundBucket),
       credentials := if Granting(s) then Some(Secret(false, x.credentials)) else s.credentials,
       access := Granted(s.access, ""))
  }

  // One reconcile with fresh reads and no failing call, then COSI's turn.
  function Round(k: Setup, x: Provision, s: Store, password: NewPassword): Store {
    Answered(x, Fresh(k, s, GettingPolicy, password).1)
  }

  function Rounds(k: Setup, x: Provision, s: Store, password: NewPassword, n: nat): Store {
    if n == 0 then s else Round(k, x, Rounds(k, x, s, password, n - 1), password)
  }

  predicate ReadyObject(o: Option<Object>) {
    o.Some? && IsReady(o.value)
  }

  predicate UsableCredentials(s: Store) {
    s.credentials.Some? && Complete(s.credentials.value.data)
  }

  function Lacking(met: bool): nat {
    if met then 0 else 1
  }

  // The milestones still missing.
  function Missing(s: Store): nat {
    Lacking(ReadyObject(s.claim)) + Lacking(ReadyObject(s.access)) + Lacking(UsableCredentials(s))
  }

  // A policy that can get there: it is live, it resolves, and its repository Secret, if there is
  // one that the cache shows, holds a password.
  predicate Feasible(k: Setup, s: Store) {
    && s.policy.presence == Live
    && Resolve(s.policy.spec, k.defaults).Resolved?
    && (s.repository.Some? && s.repository.value.managed ==> Password(s.repository.value) != "")
  }

  predicate ConcludesReady(outcome: Outcome) {
    outcome.Reported? && (outcome.verdict.ServingBucket? || outcome.verdict.BackingUp?)
  }

  // ---------- What a fresh reconcile gets done ----------

  // Milestones a reconcile stands on, and what it leaves as it found it.
  predicate Advances(k: Setup, s: Store, w: Worker) {
    match w
    case GettingPolicy => true
    case ApplyingClaim(_, _) => true
    case GettingClaim(_, _) => s.claim.Some? && Visible(s.claim) == s.claim
    case ApplyingAccess(_, _, _) => ReadyObject(s.claim)
    case GettingAccess(_, _, _) => ReadyObject(s.claim) && s.access.Some? && Visible(s.access) == s.access
    case GettingCredentials(_, _, _, _) => ReadyObject(s.claim) && ReadyObject(s.access)
    case Reporting(_, v) => AdvancesVerdict(s, v)
    case Finished(Reported(_, v)) => AdvancesVerdict(s, v)
    case Finished(Skipped) => false
    case Finished(Errored) =>
      ReadyObject(s.claim) && ReadyObject(s.access) && s.credentials.Some? && !UsableCredentials(s)
    case _ => true
  }

  predicate AdvancesVerdict(s: Store, v: Verdict) {
    match v
    case Unactionable(_) => false
    case AwaitClaim(_) => s.claim.Some? && !ReadyObject(s.claim)
    case AwaitAccess(_, _) => ReadyObject(s.claim) && s.access.Some? && !ReadyObject(s.access)
    case AwaitCredentials => ReadyObject(s.claim) && ReadyObject(s.access) && !UsableCredentials(s)
    case _ => true
  }

  lemma AppliedKeepsStatus(o: Option<Object>, config: Configuration)
    ensures Applied(o, config).Some? && ReadyObject(Applied(o, config)) == ReadyObject(o)
    ensures ManagedLabel in config ==> Visible(Applied(o, config)) == Applied(o, config)
  {
  }

  // What the cache shows of the repository Secret does not stop a reconcile.
  predicate Acceptable(v: View) {
    v.repository.Some? ==> Password(v.repository.value) != ""
  }

  // What the reads of a worker lead to, for a policy that can get there.
  lemma ReadAdvances(k: Setup, s: Store, v: View, w: Worker, password: NewPassword)
    requires Feasible(k, s) && Advances(k, s, w) && SeesWatched(s, v) && Acceptable(v)
    requires w.GettingPolicy? || w.GettingClaim? || w.GettingAccess? || w.GettingCredentials? || w.GettingRepository?
    ensures Attempt(k, s, v, w, password).1 == s
    ensures Advances(k, s, Attempt(k, s, v, w, password).0)
  {
    hide Resolve, BucketIn, Complete, Managed;
    if w.GettingCredentials? && s.credentials.Some? {
      AcceptedIffComplete(s.credentials.value.data);
    }
  }

  lemma WriteAdvances(k: Setup, s: Store, v: View, w: Worker, password: NewPassword)
    requires Feasible(k, s) && Advances(k, s, w)
    requires !(w.GettingPolicy? || w.GettingClaim? || w.GettingAccess? || w.GettingCredentials? || w.GettingRepository?)
    ensures var (w', s') := Attempt(k, s, v, w, password);
            Feasible(k, s') && Advances(k, s', w') && Keeps(s, s')
  {
    hide Resolve, Complete, IsReady, BucketClaimConfig, BucketAccessConfig, ScheduleConfig, StatusConfig;
    hide WantOf, IsSilent, Applied, Apply;
    match w
    case ApplyingClaim(p, cfg) =>
      ScheduleViewLabels(k, cfg);
      AppliedKeepsStatus(s.claim, BucketClaimConfig(k, cfg));
    case ApplyingAccess(p, cfg, claim) =>
      ScheduleViewLabels(k, cfg);
      AppliedKeepsStatus(s.access, BucketAccessConfig(k, cfg));
    case _ =>
  }

  lemma ScheduleViewLabels(k: Setup, cfg: Config)
    ensures ManagedLabel in BucketClaimConfig(k, cfg) && ManagedLabel in BucketAccessConfig(k, cfg)
  {
    hide NamesOf;
  }

  // A reconcile changes neither the spec nor the credentials, and takes no milestone back.
  predicate Keeps(s: Store, s': Store) {
    && s'.policy.(status := s.policy.status) == s.policy
    && s'.credentials == s.credentials
    && ReadyObject(s'.claim) == ReadyObject(s.claim)
    && ReadyObject(s'.access) == ReadyObject(s.access)
    && (s.claim.Some? ==> s'.claim.Some?)
    && (s.access.Some? ==> s'.access.Some?)
  }

  // One more call, on a view that sees the watched objects as they are.
  lemma AttemptAdvances(k: Setup, s: Store, v: View, w: Worker, password: NewPassword)
    requires Feasible(k, s) && Advances(k, s, w) && SeesWatched(s, v) && Acceptable(v)
    ensures var (w', s') := Attempt(k, s, v, w, password);
            Feasible(k, s') && Advances(k, s', w') && Keeps(s, s')
  {
    hide Attempt, Advances, Feasible;
    if w.GettingPolicy? || w.GettingClaim? || w.GettingAccess? || w.GettingCredentials? || w.GettingRepository? {
      ReadAdvances(k, s, v, w, password);
    } else {
      WriteAdvances(k, s, v, w, password);
    }
  }

  lemma {:induction false} FreshAdvances(k: Setup, s: Store, w: Worker, password: NewPassword)
    requires Feasible(k, s) && Advances(k, s, w)
    ensures var (outcome, s') := Fresh(k, s, w, password);
            Feasible(k, s') && Advances(k, s', Finished(outcome)) && Keeps(s, s')
    decreases Remaining(w)
  {
    hide Attempt, Advances, Feasible;
    if !w.Finished? {
      AttemptProgresses(k, s, FreshView(s), w, password);
      assert Acceptable(FreshView(s)) by { FeasibleIsAcceptable(k, s); }
      AttemptAdvances(k, s, FreshView(s), w, password);
      var (w', s') := Attempt(k, s, FreshView(s), w, password);
      FreshAdvances(k, s', w', password);
    }
  }

  lemma FeasibleIsAcceptable(k: Setup, s: Store)
    requires Feasible(k, s)
    ensures Acceptable(FreshView(s))
  {
  }

  // A round that does not end Ready brings a milestone closer; none is ever lost.
  lemma RoundProgresses(k: Setup, x: Provision, s: Store, password: NewPassword)
    requires Feasible(k, s) && Fulfils(x)
    ensures Feasible(k, Round(k, x, s, password))
    ensures Missing(Round(k, x, s, password)) <= Missing(s)
    ensures ConcludesReady(Fresh(k, s, GettingPolicy, password).0) || Missing(Round(k, x, s, password)) < Missing(s)
  {
    hide Fresh, Resolve, Complete, Visible, Password;
    FreshAdvances(k, s, GettingPolicy, password);
  }

  // At the latest after as many rounds as milestones were missing, the next reconcile concludes
  // Ready.
  lemma {:induction false} BecomesReady(k: Setup, x: Provision, s: Store, password: NewPassword) returns (n: nat)
    requires Feasible(k, s) && Fulfils(x)
    ensures n <= Missing(s)
    ensures Feasible(k, Rounds(k, x, s, password, n))
    ensures ConcludesReady(Fresh(k, Rounds(k, x, s, password, n), GettingPolicy, password).0)
    decreases Missing(s)
  {
    hide Fresh, Round, Feasible, Missing;
    if ConcludesReady(Fresh(k, s, GettingPolicy, password).0) {
      n := 0;
    } else {
      RoundProgresses(k, x, s, password);
      var m := BecomesReady(k, x, Round(k, x, s, password), password);
      RoundsShift(k, x, s, password, m);
      n := m + 1;
    }
  }

  lemma {:induction false} RoundsShift(k: Setup, x: Provision, s: Store, password: NewPassword, n: nat)
    ensures Rounds(k, x, Round(k, x, s, password), password, n) == Rounds(k, x, s, password, n + 1)
  {
    hide Round;
    if n > 0 {
      RoundsShift(k, x, s, password, n - 1);
    } else {
      assert Rounds(k, x, s, password, 1) == Round(k, x, Rounds(k, x, s, password, 0), password);
    }
  }

  // ---------- And stays so ----------

  lemma {:induction false} FreshKeepsOwnStatus(k: Setup, s: Store, w: Worker, password: NewPassword)
    requires OnlyAmpulla(s.policy.status)
    ensures OnlyAmpulla(Fresh(k, s, w, password).1.policy.status)
    decreases Remaining(w)
  {
    hide Attempt, OnlyAmpulla, WantOf, StatusConfig;
    if !w.Finished? {
      AttemptProgresses(k, s, FreshView(s), w, password);
      CallKeepsPolicy(k, s, FreshView(s), w, NoFault, password);
      var (w', s') := Attempt(k, s, FreshView(s), w, password);
      if s'.policy.status != s.policy.status {
        ApplyOwned(s.policy.status, StatusConfig(WantOf(k, w.p, w.verdict)));
      }
      FreshKeepsOwnStatus(k, s', w', password);
    }
  }

  // The store a Ready reconcile leaves is one that neither a reconcile nor COSI changes again.
  lemma ReadyIsFixed(k: Setup, x: Provision, s: Store, password: NewPassword)
    requires Feasible(k, s) && ConcludesReady(Fresh(k, s, GettingPolicy, password).0)
    ensures var (outcome, s') := Fresh(k, s, GettingPolicy, password);
            && Fresh(k, s', GettingPolicy, password).1 == s'
            && Missing(s') == 0
            && Answered(x, s') == s'
            && Round(k, x, s', password) == s'
    ensures OnlyAmpulla(s.policy.status) ==>
              var (outcome, s') := Fresh(k, s, GettingPolicy, password);
              && ReadStatus(s'.policy.status).phase == Ready
              && ReadStatus(s'.policy.status).observedGeneration == s.policy.generation
  {
    hide Attempt, Feasible, ReadStatus, StatusConfig, Apply, Settled, Visible, Resolve;
    TrackStart(k, s);
    FreshStaysOnTrack(k, s, GettingPolicy, password);
    FreshAdvances(k, s, GettingPolicy, password);
    var (outcome, s') := Fresh(k, s, GettingPolicy, password);
    FixedPoint(k, s', outcome.policy, outcome.verdict, password);
    ReadyHasAll(k, s', outcome.policy, outcome.verdict);
    assert Answered(x, s') == s' by { AnsweredAll(x, s'); }
    if OnlyAmpulla(s.policy.status) {
      FreshKeepsOwnStatus(k, s, GettingPolicy, password);
      StatusRoundTrip(s'.policy.status, WantOf(k, outcome.policy, outcome.verdict));
    }
  }

  lemma ReadyHasAll(k: Setup, s: Store, p: Policy, v: Verdict)
    requires OnTrack(k, s, Finished(Reported(p, v))) && VerdictUpToDate(s, v)
    requires v.ServingBucket? || v.BackingUp?
    ensures ReadyObject(s.claim) && ReadyObject(s.access) && UsableCredentials(s)
  {
    hide Resolve, Settled, Visible, StatusSettled, BucketIn, Complete, RepositoryAccepted;
    AcceptedIffComplete(v.evidence.credentials.data);
  }

  lemma AnsweredAll(x: Provision, s: Store)
    requires ReadyObject(s.claim) && ReadyObject(s.access) && UsableCredentials(s)
    ensures Answered(x, s) == s
  {
    hide Complete;
  }

  lemma {:induction false} FixedStays(k: Setup, x: Provision, s: Store, password: NewPassword, n: nat, m: nat)
    requires n <= m
    requires Round(k, x, Rounds(k, x, s, password, n), password) == Rounds(k, x, s, password, n)
    ensures Rounds(k, x, s, password, m) == Rounds(k, x, s, password, n)
  {
    hide Round;
    if n < m {
      FixedStays(k, x, s, password, n, m - 1);
    }
  }

  lemma {:induction false} RoundsKeepThePolicy(k: Setup, x: Provision, s: Store, password: NewPassword, n: nat)
    requires Feasible(k, s) && Fulfils(x)
    ensures var s' := Rounds(k, x, s, password, n);
            && Feasible(k, s')
            && s'.policy.(status := s.policy.status) == s.policy
            && (OnlyAmpulla(s.policy.status) ==> OnlyAmpulla(s'.policy.status))
  {
    hide Fresh, Feasible, OnlyAmpulla, ConcludesReady;
    if n > 0 {
      var before := Rounds(k, x, s, password, n - 1);
      RoundsKeepThePolicy(k, x, s, password, n - 1);
      RoundProgresses(k, x, before, password);
      FreshAdvances(k, before, GettingPolicy, password);
      if OnlyAmpulla(before.policy.status) {
        FreshKeepsOwnStatus(k, before, GettingPolicy, password);
      }
    }
  }

  // One round more than milestones were missing is enough: the policy is Ready at its generation,
  // and no later round changes anything, so the controller's own writes stop waking it.
  lemma {:induction false} ConvergesAndStays(k: Setup, x: Provision, s: Store, password: NewPassword) returns (n: nat)
    requires Feasible(k, s) && Fulfils(x)
    ensures n <= Missing(s) + 1 <= 4
    ensures Feasible(k, Rounds(k, x, s, password, n)) && Missing(Rounds(k, x, s, password, n)) == 0
    ensures Rounds(k, x, s, password, n).policy.(status := s.policy.status) == s.policy
    ensures forall m: nat :: n <= m ==> Rounds(k, x, s, password, m) == Rounds(k, x, s, password, n)
    ensures OnlyAmpulla(s.policy.status) ==>
              var status := ReadStatus(Rounds(k, x, s, password, n).policy.status);
              status.phase == Ready && status.observedGeneration == s.policy.generation
  {
    hide Fresh, Feasible, ReadStatus, OnlyAmpulla, ConcludesReady, Answered;
    var ready := BecomesReady(k, x, s, password);
    n := ready + 1;
    var before := Rounds(k, x, s, password, ready);
    RoundsKeepThePolicy(k, x, s, password, ready);
    RoundsKeepThePolicy(k, x, s, password, n);
    ReadyIsFixed(k, x, before, password);
    forall m: nat | n <= m
      ensures Rounds(k, x, s, password, m) == Rounds(k, x, s, password, n)
    {
      FixedStays(k, x, s, password, n, m);
    }
  }
}
