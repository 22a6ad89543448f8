// The controller as it runs (controllers/backuppolicy_controller_manager.go), over a cluster that
// changes under it: before every API call others may do anything, and every call may fail.
//
// Each method takes the protocol's steps and nothing else: Valid ties the state to a run of
// Protocol, so all that is proved of every run holds of what these methods do.

module Controller {
  import opened Api
  import opened BucketSecret
  import opened Config
  import opened Names
  import opened ServerSideApply
  import opened Objects
  import opened StatusView
  import opened Reconciler
  import opened Tracking
  import opened Protocol
  import opened Racing
  import opened Wakeups

  // The answer to a read.
  datatype Reply<+T> = Found(value: T) | NotFound | Failure

  // A step that is nobody's reconcile: somebody else's change, an event, a timer.
  predicate IsOutside(step: Step) {
    step.Environment? || step.Deliver? || step.FireTimer? || step.Wake?
  }

  // What a reconcile under way can see happen: others' steps and its own calls.
  predicate IsWithin(step: Step) {
    IsOutside(step) || step.CallApi?
  }

  // A repository Secret as it is created: labelled, with a password and nothing else.
  predicate IsNewRepository(secret: Secret) {
    secret.managed && Password(secret) != "" && secret.data == map[RepoPasswordKey := Password(secret)]
  }

  lemma DeliveryTouchesNothingElse(y: System, what: Watched)
    ensures var bare := Delivered(y.(slot := Idle(None), specs := [], log := []), what);
            Delivered(y, what) == y.(caches := bare.caches, dirty := bare.dirty)
  {
  }

  lemma AppliedIsThere(o: Option<Object>, config: Configuration)
    ensures Applied(o, config).Some?
  {
  }

  // A move is news to the caches, and changes nothing in what they hold.
  lemma NoticeKeepsView(c: Caches, s: Store)
    ensures Notice(c, s).AsView() == c.AsView()
  {
    hide Visible, VisibleSecret;
  }

  class BackupPolicyManager {
    const k: Setup
    var store: Store
    var caches: Caches
    var dirty: bool
    var timer: bool

    // The protocol's view of it: where the reconcile stands, the histories, and the steps taken.
    ghost var slot: Slot
    ghost var specs: seq<Spec>
    ghost var log: seq<Event>
    ghost var initial: System
    ghost var steps: seq<Step>

    ghost function Current(): System
      reads this
    {
      System(store, caches, dirty, timer, slot, specs, log)
    }

    ghost predicate Valid()
      reads this
    {
      Init(initial) && Current() == Run(k, initial, steps)
    }

    // The run goes on, by steps a reconcile can see happen.
    twostate predicate Continues()
      reads this
    {
      && initial == old(initial)
      && old(steps) <= steps
      && forall i :: |old(steps)| <= i < |steps| ==> IsWithin(steps[i])
    }

    // No repository Secret has been created since.
    twostate predicate CreatesNothing()
      reads this
    {
      && old(log) <= log
      && forall i :: |old(log)| <= i < |log| ==> !log[i].CreatedRepository?
    }

    // None has been created but with this password.
    twostate predicate CreatesOnly(random: NewPassword)
      reads this
    {
      && old(log) <= log
      && forall i :: |old(log)| <= i < |log| && log[i].CreatedRepository? ==> log[i].repository == NewSecret(random)
    }

    constructor (k: Setup, store: Store)
      requires store.policy.presence == Live && CrdValid(store.policy.spec)
      requires store.policy.generation == 1 && store.policy.status == map[]
      ensures Valid() && this.k == k && this.store == store
      ensures slot == Idle(None) && dirty && steps == []
    {
      this.k := k;
      this.store := store;
      this.caches := Listed(store);
      this.dirty := true;
      this.timer := false;
      this.slot := Idle(None);
      this.specs := [store.policy.spec];
      this.log := [];
      this.initial := System(store, Listed(store), true, false, Idle(None), [store.policy.spec], []);
      this.steps := [];
    }

    // Somebody else's step.
    method Outside(step: Step)
      requires Valid() && IsOutside(step)
      modifies this
      ensures Valid() && Continues() && slot == old(slot) && log == old(log)
      ensures Current() == Do(k, old(Current()), step)
    {
      hide Run, Init, Notice, Changed, Delivered, Called, Ended;
      RunLast(k, initial, steps, step);
      ghost var z := Do(k, Current(), step);
      match step {
        case Environment(change) =>
          store := Changed(store, change);
          caches := Notice(caches, store);
        case Deliver(what) =>
          var y := Delivered(System(store, caches, dirty, timer, Idle(None), [], []), what);
          DeliveryTouchesNothingElse(Current(), what);
          caches := y.caches;
          dirty := y.dirty;
        case FireTimer =>
          if timer {
            timer := false;
            dirty := true;
          }
        case Wake =>
          dirty := true;
      }
      specs := z.specs;
      steps := steps + [step];
    }

    // Any number of others' steps.
    method Interfere()
      requires Valid()
      modifies this
      ensures Valid() && Continues() && slot == old(slot) && log == old(log)
    {
      hide Run, Init, Do;
      var n: int := *;
      while 0 < n
        invariant Valid() && Continues() && slot == old(slot) && log == old(log)
        decreases n
      {
        n := n - 1;
        var step: Step := *;
        if IsOutside(step) {
          Outside(step);
        }
      }
    }

    // The effect of the reconcile's next call on the cluster.
    method Perform(s: Store, ghost fault: Fault, ghost password: NewPassword)
      requires Valid() && slot.Busy?
      requires s == Call(k, store, caches.AsView(), slot.w, fault, password).1
      modifies this
      ensures Valid() && Continues()
      ensures slot == Busy(Call(k, old(store), old(caches).AsView(), old(slot).w, fault, password).0)
      ensures store == s && caches == Notice(old(caches), s) && dirty == old(dirty) && timer == old(timer)
      ensures log == old(log) + Logged(k, old(store), old(caches).AsView(), old(slot).w, fault, password)
    {
      hide Run, Init, Notice, Call, Logged;
      RunLast(k, initial, steps, CallApi(fault, password));
      ghost var z := Do(k, Current(), CallApi(fault, password));
      store := s;
      caches := Notice(caches, s);
      slot := z.slot;
      specs := z.specs;
      log := z.log;
      steps := steps + [CallApi(fault, password)];
    }

    // ---------- API calls ----------

    // A cached read of the policy. A policy that is gone is not found.
    method GetPolicy() returns (r: Reply<Policy>)
      requires Valid() && slot == Busy(GettingPolicy)
      modifies this
      ensures Valid() && Continues() && CreatesNothing()
      ensures match r
              case Found(p) => p.presence != Gone && slot == Busy(AfterPolicy(k, p))
              case NotFound => slot == Busy(Finished(Skipped))
              case Failure => slot == Busy(Finished(Errored))
    {
      hide Run, Init, Notice, Resolve;
      Interfere();
      var fault: Fault := *;
      var p := caches.policy.cached;
      Perform(store, fault, "x");
      return if fault != NoFault then Failure else if p.presence == Gone then NotFound else Found(p);
    }

    // The forced applies of applyOwned.
    method ApplyClaim(config: Configuration) returns (err: bool)
      requires Valid() && slot.Busy? && slot.w.ApplyingClaim? && config == BucketClaimConfig(k, slot.w.cfg)
      modifies this
      ensures Valid() && Continues() && CreatesNothing()
      ensures slot == Busy(if err then Finished(Errored) else GettingClaim(old(slot).w.p, old(slot).w.cfg))
      ensures !err ==> store.claim.Some? && Settled(store.claim, config)
    {
      hide Run, Init, Notice, BucketClaimConfig, Applied, Settled;
      Interfere();
      var fault: Fault := *;
      AppliedIsSettled(store.claim, config);
      AppliedIsThere(store.claim, config);
      Perform(if fault == NotMade then store else store.(claim := Applied(store.claim, config)), fault, "x");
      err := fault != NoFault;
    }

    method ApplyAccess(config: Configuration) returns (err: bool)
      requires Valid() && slot.Busy? && slot.w.ApplyingAccess? && config == BucketAccessConfig(k, slot.w.cfg)
      modifies this
      ensures Valid() && Continues() && CreatesNothing()
      ensures slot == Busy(if err then Finished(Errored)
                           else GettingAccess(old(slot).w.p, old(slot).w.cfg, old(slot).w.claim))
      ensures !err ==> store.access.Some? && Settled(store.access, config)
    {
      hide Run, Init, Notice, BucketAccessConfig, Applied, Settled;
      Interfere();
      var fault: Fault := *;
      AppliedIsSettled(store.access, config);
      AppliedIsThere(store.access, config);
      Perform(if fault == NotMade then store else store.(access := Applied(store.access, config)), fault, "x");
      err := fault != NoFault;
    }

    method ApplySchedule(config: Configuration) returns (err: bool)
      requires Valid() && slot.Busy? && slot.w.ApplyingSchedule?
      requires config == ScheduleConfig(k, slot.w.cfg, slot.w.ev.bucket)
      modifies this
      ensures Valid() && Continues() && CreatesNothing()
      ensures slot == Busy(if err then Finished(Errored)
                           else Reporting(old(slot).w.p, BackingUp(old(slot).w.cfg, old(slot).w.ev)))
      ensures !err ==> store.schedule.Some? && Settled(store.schedule, config)
    {
      hide Run, Init, Notice, ScheduleConfig, Applied, Settled;
      Interfere();
      var fault: Fault := *;
      AppliedIsSettled(store.schedule, config);
      AppliedIsThere(store.schedule, config);
      Perform(if fault == NotMade then store else store.(schedule := Applied(store.schedule, config)), fault, "x");
      err := fault != NoFault;
    }

    // Reading the claim and the access back, through the cache.
    method GetClaim() returns (r: Reply<Object>)
      requires Valid() && slot.Busy? && slot.w.GettingClaim?
      modifies this
      ensures Valid() && Continues() && CreatesNothing()
      ensures match r
              case Found(claim) => slot == Busy(AfterClaim(old(slot).w.p, old(slot).w.cfg, Some(claim)))
              case _ => slot == Busy(Finished(Errored))
      ensures r.Found? ==> caches.claim.cached == Some(r.value)
    {
      hide Run, Init, Notice, IsReady;
      Interfere();
      var fault: Fault := *;
      var seen := caches.claim.cached;
      NoticeKeepsView(caches, store);
      Perform(store, fault, "x");
      return if fault != NoFault then Failure else if seen.None? then NotFound else Found(seen.value);
    }

    method GetAccess() returns (r: Reply<Object>)
      requires Valid() && slot.Busy? && slot.w.GettingAccess?
      modifies this
      ensures Valid() && Continues() && CreatesNothing()
      ensures match r
              case Found(access) =>
                slot == Busy(AfterAccess(old(slot).w.p, old(slot).w.cfg, old(slot).w.claim, Some(access)))
              case _ => slot == Busy(Finished(Errored))
      ensures r.Found? ==> caches.access.cached == Some(r.value)
    {
      hide Run, Init, Notice, IsReady;
      Interfere();
      var fault: Fault := *;
      var seen := caches.access.cached;
      NoticeKeepsView(caches, store);
      Perform(store, fault, "x");
      return if fault != NoFault then Failure else if seen.None? then NotFound else Found(seen.value);
    }

    // The credentials Secret, read past the cache.
    method GetCredentials() returns (r: Reply<Secret>)
      requires Valid() && slot.Busy? && slot.w.GettingCredentials?
      modifies this
      ensures Valid() && Continues() && CreatesNothing()
      ensures var w := old(slot).w;
              match r
              case Found(secret) => slot == Busy(AfterCredentials(w.p, w.cfg, w.claim, w.access, Some(secret)))
              case NotFound => slot == Busy(Reporting(w.p, AwaitCredentials))
              case Failure => slot == Busy(Finished(Errored))
      ensures r.Found? ==> store.credentials == Some(r.value)
      ensures r.NotFound? ==> store.credentials == None
    {
      hide Run, Init, Notice, BucketIn;
      Interfere();
      var fault: Fault := *;
      var seen := store.credentials;
      Perform(store, fault, "x");
      return if fault != NoFault then Failure else if seen.None? then NotFound else Found(seen.value);
    }

    // The repository Secret, through the cache.
    method GetRepository() returns (r: Reply<Secret>)
      requires Valid() && slot.Busy? && slot.w.GettingRepository?
      modifies this
      ensures Valid() && Continues() && CreatesNothing()
      ensures var w := old(slot).w;
              match r
              case Found(secret) => slot == Busy(AfterRepository(w.p, w.cfg, w.ev, Some(secret)))
              case NotFound => slot == Busy(CreatingRepository(w.p, w.cfg, w.ev))
              case Failure => slot == Busy(Finished(Errored))
      ensures r.Found? ==> caches.repository.cached == Some(r.value)
      ensures r.NotFound? ==> caches.repository.cached == None
    {
      hide Run, Init, Notice, Password;
      Interfere();
      var fault: Fault := *;
      var seen := caches.repository.cached;
      NoticeKeepsView(caches, store);
      Perform(store, fault, "x");
      return if fault != NoFault then Failure else if seen.None? then NotFound else Found(seen.value);
    }

    // A create. One that finds the Secret already there is not an error to its caller.
    method CreateRepository(secret: Secret) returns (err: bool)
      requires Valid() && slot.Busy? && slot.w.CreatingRepository?
      requires IsNewRepository(secret)
      modifies this
      ensures Valid() && Continues()
      ensures slot == Busy(if err then Finished(Errored)
                           else ApplyingSchedule(old(slot).w.p, old(slot).w.cfg, old(slot).w.ev))
      ensures !err ==> store.repository.Some?
      ensures log == old(log) || log == old(log) + [CreatedRepository(secret)]
      ensures !err && log != old(log) ==> store.repository == Some(secret)
    {
      hide Run, Init, Notice;
      Interfere();
      var fault: Fault := *;
      var created := if store.repository.None? then store.(repository := Some(secret)) else store;
      Perform(if fault == NotMade then store else created, fault, Password(secret));
      err := fault != NoFault;
    }

    // A delete. One that finds nothing is not an error to its caller.
    method DeleteSchedule() returns (err: bool)
      requires Valid() && slot.Busy? && slot.w.DeletingSchedule?
      modifies this
      ensures Valid() && Continues() && CreatesNothing()
      ensures slot == Busy(if err then Finished(Errored) else Reporting(old(slot).w.p, ServingBucket(old(slot).w.ev)))
      ensures !err ==> store.schedule.None?
    {
      hide Run, Init, Notice;
      Interfere();
      var fault: Fault := *;
      Perform(if fault == NotMade then store else store.(schedule := None), fault, "x");
      err := fault != NoFault;
    }

    // The forced apply of the status.
    method ApplyStatus(ac: Configuration) returns (err: bool)
      requires Valid() && slot.Busy? && slot.w.Reporting? && !IsSilent(k, slot.w)
      requires ac == StatusConfig(WantOf(k, slot.w.p, slot.w.verdict))
      modifies this
      ensures Valid() && Continues() && CreatesNothing()
      ensures slot == Busy(Finished(if err then Errored else Reported(old(slot).w.p, old(slot).w.verdict)))
      ensures !err ==> Apply(store.policy.status, ac) == store.policy.status
    {
      hide Run, Init, Notice, StatusConfig, WantOf, ReadStatus, Apply;
      Interfere();
      var fault: Fault := *;
      ApplyIdempotent(store.policy.status, ac);
      err := fault != NoFault || store.policy.presence == Gone;
      var written := store.(policy := store.policy.(status := Apply(store.policy.status, ac)));
      Perform(if fault == NotMade || store.policy.presence == Gone then store else written, fault, "x");
    }

    // No report is made, and so none can fail.
    method SkipReport()
      requires Valid() && slot.Busy? && slot.w.Reporting? && IsSilent(k, slot.w)
      modifies this
      ensures Valid() && Continues() && CreatesNothing()
      ensures slot == Busy(Finished(Reported(old(slot).w.p, old(slot).w.verdict)))
    {
      hide Run, Init, Notice, StatusConfig, WantOf, ReadStatus, Apply;
      Perform(store, NoFault, "x");
    }

    // ---------- The reconciler ----------

    // The repository password is created once and then left alone.
    method EnsureRepositoryPassword(random: NewPassword) returns (err: bool)
      requires Valid() && slot.Busy? && slot.w.GettingRepository?
      modifies this
      ensures Valid() && Continues() && CreatesOnly(random)
      ensures slot == Busy(if err then Finished(Errored)
                           else ApplyingSchedule(old(slot).w.p, old(slot).w.cfg, old(slot).w.ev))
      ensures !err ==> store.repository.Some? || HasPassword(caches.repository.cached)
      ensures !err && !CreatesNothing() ==> store.repository == Some(NewSecret(random))
    {
      hide Run, Init, Current;
      var existing := GetRepository();
      match existing {
        case Found(secret) =>
          return |Read(secret.data, RepoPasswordKey)| == 0;
        case Failure =>
          return true;
        case NotFound =>
      }
      err := CreateRepository(Secret(true, map[RepoPasswordKey := random]));
    }

    // The bucket out of the Secret COSI populated.
    method GetBucket() returns (r: Reply<Bucket>)
      requires Valid() && slot.Busy? && slot.w.GettingCredentials?
      modifies this
      ensures Valid() && Continues() && CreatesNothing()
      ensures var w := old(slot).w;
              match r
              case Found(bucket) =>
                && slot.Busy?
                && (if w.cfg.mode == BucketOnlyMode then slot.w.DeletingSchedule? else slot.w.GettingRepository?)
                && slot.w.p == w.p && slot.w.cfg == w.cfg && slot.w.ev.bucket == bucket
              case NotFound => slot == Busy(Reporting(w.p, AwaitCredentials))
              case Failure => slot == Busy(Finished(Errored))
      ensures r.Found? ==> store.credentials.Some? && BucketIn(store.credentials.value.data) == Usable(r.value)
      ensures r.NotFound? ==> store.credentials == None
    {
      hide Run, Init, Current, BucketIn;
      var secretRead := GetCredentials();
      match secretRead {
        case NotFound => return NotFound;
        case Failure => return Failure;
        case Found(secret) =>
          var parsed := BucketFromSecret(secret.data);
          return if parsed.Usable? then Found(parsed.bucket) else Failure;
      }
    }

    // What is left once the bucket is there: no Schedule, or a password and a Schedule.
    method ProvisionBackups(cfg: Config, bucket: Bucket, names: Names, random: NewPassword)
      returns (err: bool, phase: PhaseResult)
      requires Valid() && slot.Busy? && names == NamesOf(k)
      requires if cfg.mode == BucketOnlyMode then slot.w.DeletingSchedule? else slot.w.GettingRepository?
      requires slot.w.cfg == cfg && slot.w.ev.bucket == bucket
      modifies this
      ensures Valid() && Continues() && CreatesOnly(random)
      ensures err ==> slot == Busy(Finished(Errored))
      ensures !err ==> slot.Busy? && slot.w.Reporting? && slot.w.p == old(slot).w.p
      ensures !err ==> phase == PhaseOf(k, slot.w.verdict)
    {
      hide Run, Init, Current, ScheduleConfig;
      err, phase := true, PhaseResult(NoPhase, Silent, NO_STATUS, 0);
      var status :=
        NO_STATUS.(bucket := bucket.id, endpoint := bucket.endpoint, credentialsSecret := names.credentialsSecret);

      if cfg.mode == BucketOnlyMode {
        var failed := DeleteSchedule();
        if failed { return; }
        return false, PhaseResult(Ready, ServesBucket(bucket.id), status, RESYNC_INTERVAL);
      }

      var failed := EnsureRepositoryPassword(random);
      if failed { return; }
      var scheduleConfig := ScheduleFor(k, cfg, bucket);
      failed := ApplySchedule(scheduleConfig);
      if failed { return; }
      status := status.(schedule := cfg.schedules.backup);
      return false, PhaseResult(Ready, BacksUpTo(bucket.id, bucket.endpoint), status, RESYNC_INTERVAL);
    }

    // What is left once the claim is ready: the access, its credentials, and the backups on them.
    method PhaseOnClaim(cfg: Config, claim: Object, names: Names, random: NewPassword)
      returns (err: bool, phase: PhaseResult)
      requires Valid() && slot.Busy? && slot.w.ApplyingAccess? && slot.w.cfg == cfg && slot.w.claim == claim
      requires names == NamesOf(k)
      modifies this
      ensures Valid() && Continues() && CreatesOnly(random)
      ensures err ==> slot == Busy(Finished(Errored))
      ensures !err ==> slot.Busy? && slot.w.Reporting? && slot.w.p == old(slot).w.p
      ensures !err ==> phase == PhaseOf(k, slot.w.verdict)
    {
      hide Run, Init, Current, BucketIn, BucketAccessConfig, NamesFor, IsWithin, NewSecret, Settled;
      err, phase := true, PhaseResult(NoPhase, Silent, NO_STATUS, 0);
      var accessConfig := BucketAccessFor(k, cfg);
      var failed := ApplyAccess(accessConfig);
      if failed { return; }
      var accessRead := GetAccess();
      if !accessRead.Found? { return; }
      var access := accessRead.value;
      if !IsReady(access) {
        var bound := NO_STATUS.(bucket := claim.cosi.boundBucket);
        return false, PhaseResult(Pending, AwaitingCredentials(CosiError(access)), bound, 0);
      }

      var bucketRead := GetBucket();
      if bucketRead.NotFound? {
        return false, PhaseResult(Pending, AwaitingCredentials(""), NO_STATUS, CREDENTIALS_RETRY);
      }
      if bucketRead.Failure? { return; }
      var bucket := bucketRead.value;

      err, phase := ProvisionBackups(cfg, bucket, names, random);
    }

    // Provisions what the policy asks for and reports how far it got.
    method DesiredPhase(policy: Policy, random: NewPassword) returns (err: bool, phase: PhaseResult)
      requires Valid() && policy.presence == Live && slot == Busy(AfterPolicy(k, policy))
      modifies this
      ensures Valid() && Continues() && CreatesOnly(random)
      ensures err ==> slot == Busy(Finished(Errored))
      ensures !err ==> slot.Busy? && slot.w.Reporting? && slot.w.p == policy && phase == PhaseOf(k, slot.w.verdict)
    {
      hide Run, Init, Current, Resolve, BucketClaimConfig, NamesFor, IsWithin, NewSecret, Settled;
      err, phase := true, PhaseResult(NoPhase, Silent, NO_STATUS, 0);
      var resolution := ResolveSpec(policy.spec, k.defaults);
      if resolution.NotActionable? {
        return false, PhaseResult(Failed, Rejected(resolution.unmet), NO_STATUS, 0);
      }
      var cfg := resolution.cfg;
      var names := NamesFor(k.hash, k.name);

      var claimConfig := BucketClaimFor(k, cfg);
      var failed := ApplyClaim(claimConfig);
      if failed { return; }
      var claimRead := GetClaim();
      if !claimRead.Found? { return; }
      var claim := claimRead.value;
      if !IsReady(claim) {
        return false, PhaseResult(Pending, AwaitingBucket(CosiError(claim)), NO_STATUS, 0);
      }

      err, phase := PhaseOnClaim(cfg, claim, names, random);
    }

    // One reconcile. Whatever happens around it, it is a run of the protocol from its first call to
    // its outcome, which is what it returns.
    method Reconcile(random: NewPassword) returns (err: bool, requeue: nat)
      requires Valid() && slot == Busy(GettingPolicy)
      modifies this
      ensures Valid() && Continues() && CreatesOnly(random)
      ensures slot.Busy? && slot.w.Finished?
      ensures err <==> slot.w.outcome == Errored
      ensures requeue == match slot.w.outcome case Reported(_, v) => PhaseOf(k, v).requeue case _ => 0
    {
      hide Run, Init, Current, PhaseOf, Resolve, ReadStatus, StatusConfig;
      err, requeue := false, 0;
      var read := GetPolicy();
      match read {
        case NotFound => return;
        case Failure => return true, 0;
        case Found(_) =>
      }
      var policy := read.value;
      if policy.presence != Live {
        return;
      }
      var phase;
      err, phase := DesiredPhase(policy, random);
      if err {
        return;
      }
      var want :=
        phase.status.(phase := phase.phase, message := phase.message, observedGeneration := policy.generation);
      if ReadStatus(policy.status) != want {
        var ac := StatusFor(want);
        err := ApplyStatus(ac);
        if err {
          return;
        }
      } else {
        SkipReport();
      }
      requeue := phase.requeue;
    }

    // The queue hands the policy to a reconcile and takes up its result: an error is requeued, and
    // a requeue time sets the timer.
    method ProcessNext(random: NewPassword)
      requires Valid() && slot.Idle? && dirty
      modifies this
      ensures Valid() && initial == old(initial) && old(steps) < steps
      ensures CreatesOnly(random)
      ensures slot.Idle? && slot.last.Some?
      ensures slot.last == Some(Errored) ==> dirty
      ensures NeedsAnotherLook(k, slot) ==> timer
    {
      hide Run, Init, Notice, Called, Moved, Delivered, PhaseOf, Changed;
      RunLast(k, initial, steps, Start);
      dirty := false;
      slot, log, steps := Busy(GettingPolicy), log + [Began], steps + [Start];
      var err, requeue := Reconcile(random);
      RunLast(k, initial, steps, Finish);
      if err {
        dirty := true;
      }
      if requeue > 0 {
        timer := true;
      }
      slot, steps := Idle(Some(slot.w.outcome)), steps + [Finish];
    }

    // Whenever these methods leave nothing queued, nothing timed and nothing undelivered, another
    // reconcile would change nothing.
    lemma QuietMeansDone()
      requires Valid() && Quiet(Current())
      ensures NothingToDo(k, store)
    {
      NoLostWakeup(k, initial, steps);
    }
  }
}
