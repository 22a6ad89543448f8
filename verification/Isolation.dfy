// Two policies in one cluster: which objects a reconcile touches, and when another policy's are
// among them.

module Isolation {
  import opened Api
  import opened BucketSecret
  import opened Config
  import opened Names
  import opened ServerSideApply
  import opened Objects
  import opened ScheduleView
  import opened StatusView
  import opened Reconciler
  import opened Tracking
  import opened Idempotence
  import opened Convergence

  datatype Id = Id(namespace: string, name: string)

  datatype Cluster = Cluster(
    policies: map<Id, Policy>,
    claims: map<Id, Object>,
    accesses: map<Id, Object>,
    schedules: map<Id, Object>,
    secrets: map<Id, Secret>)

  function Lookup<T>(m: map<Id, T>, id: Id): Option<T> {
    if id in m then Some(m[id]) else None
  }

  function Put<T>(m: map<Id, T>, id: Id, o: Option<T>): map<Id, T> {
    match o
    case None => m - {id}
    case Some(value) => m[id := value]
  }

  const GONE := Policy(Gone, Spec(Unset, ScheduleSpec("", "", ""), "", "", Retention(0, 0, 0, 0, 0, 0)), 0, map[])

  function PolicyId(k: Setup): Id {
    Id(k.namespace, k.name)
  }

  function ClaimId(k: Setup): Id {
    Id(k.namespace, NamesOf(k).bucketClaim)
  }

  function AccessId(k: Setup): Id {
    Id(k.namespace, NamesOf(k).bucketAccess)
  }

  function ScheduleId(k: Setup): Id {
    Id(k.namespace, NamesOf(k).schedule)
  }

  function RepositoryId(k: Setup): Id {
    Id(k.namespace, NamesOf(k).repositorySecret)
  }

  function CredentialsId(k: Setup): Id {
    Id(k.namespace, NamesOf(k).credentialsSecret)
  }

  // What of the cluster one policy's reconcile deals with.
  function StoreOf(c: Cluster, k: Setup): Store {
    Store(
      if PolicyId(k) in c.policies then c.policies[PolicyId(k)] else GONE,
      Lookup(c.claims, ClaimId(k)),
      Lookup(c.accesses, AccessId(k)),
      Lookup(c.schedules, ScheduleId(k)),
      Lookup(c.secrets, RepositoryId(k)),
      Lookup(c.secrets, CredentialsId(k)))
  }

  // A reconcile's writes, put where its names say. It never writes the credentials Secret.
  function WriteBack(c: Cluster, k: Setup, s: Store): Cluster {
    Cluster(
      if PolicyId(k) in c.policies then c.policies[PolicyId(k) := s.policy] else c.policies,
      Put(c.claims, ClaimId(k), s.claim),
      Put(c.accesses, AccessId(k), s.access),
      Put(c.schedules, ScheduleId(k), s.schedule),
      Put(c.secrets, RepositoryId(k), s.repository))
  }

  function ClusterCall(k: Setup, c: Cluster, v: View, w: Worker, fault: Fault, password: NewPassword): (Worker, Cluster)
  {
    var (w', s') := Call(k, StoreOf(c, k), v, w, fault, password);
    (w', WriteBack(c, k, s'))
  }

  lemma PutLookup<T>(m: map<Id, T>, id: Id, o: Option<T>)
    ensures Lookup(Put(m, id, o), id) == o
    ensures forall other :: other != id ==> Lookup(Put(m, id, o), other) == Lookup(m, other)
    ensures Put(m, id, Lookup(m, id)) == m
  {
  }

  // The credentials Secret is left alone, and a policy that is not there stays away.
  lemma CallLeaves(k: Setup, s: Store, v: View, w: Worker, fault: Fault, password: NewPassword)
    ensures var s' := Call(k, s, v, w, fault, password).1;
            && s'.credentials == s.credentials
            && (s.policy.presence == Gone ==> s'.policy == s.policy)
  {
    hide BucketClaimConfig, BucketAccessConfig, ScheduleConfig, StatusConfig, WantOf, ReadStatus, Applied, Apply;
    hide AfterPolicy, AfterClaim, AfterAccess, AfterCredentials, AfterRepository;
  }

  // Writing back is exactly what the reconcile sees it do to its own objects.
  lemma {:induction false} ClusterCallIsCall(
      k: Setup, c: Cluster, v: View, w: Worker, fault: Fault, password: NewPassword)
    ensures var (w', s') := Call(k, StoreOf(c, k), v, w, fault, password);
            var (w'', c') := ClusterCall(k, c, v, w, fault, password);
            w'' == w' && StoreOf(c', k) == s'
  {
    hide Call, NamesOf, Lookup, Put;
    var s := StoreOf(c, k);
    var s' := Call(k, s, v, w, fault, password).1;
    CallLeaves(k, s, v, w, fault, password);
    PutLookup(c.claims, ClaimId(k), s'.claim);
    PutLookup(c.accesses, AccessId(k), s'.access);
    PutLookup(c.schedules, ScheduleId(k), s'.schedule);
    PutLookup(c.secrets, RepositoryId(k), s'.repository);
    SecretsNeverMeet(k.hash, k.name, k.name);
    assert CredentialsId(k) != RepositoryId(k) by { CredentialsApart(k, k); }
  }

  lemma CredentialsApart(a: Setup, b: Setup)
    requires a.hash == b.hash
    ensures CredentialsId(a) != RepositoryId(b)
  {
    hide Suffixed;
    SecretsNeverMeet(a.hash, a.name, b.name);
  }

  predicate Apart(a: Setup, b: Setup) {
    a.namespace != b.namespace ||
    (!Meet(a.hash, a.name, b.name, BACKUP) && !Meet(a.hash, a.name, b.name, REPOSITORY))
  }

  lemma ApartNames(a: Setup, b: Setup)
    requires a.hash == b.hash
    ensures Apart(a, b) <==> ClaimId(a) != ClaimId(b) && RepositoryId(a) != RepositoryId(b)
    ensures ClaimId(a) == ClaimId(b) <==> AccessId(a) == AccessId(b)
    ensures ClaimId(a) == ClaimId(b) <==> ScheduleId(a) == ScheduleId(b)
  {
    hide Suffixed, Meet;
    CollisionIff(a.hash, a.name, b.name, BACKUP);
    CollisionIff(a.hash, a.name, b.name, REPOSITORY);
  }

  lemma ApartIsolates(a: Setup, b: Setup, c: Cluster, v: View, w: Worker, fault: Fault, password: NewPassword)
    requires a.hash == b.hash && PolicyId(a) != PolicyId(b) && Apart(a, b)
    ensures StoreOf(ClusterCall(a, c, v, w, fault, password).1, b) == StoreOf(c, b)
  {
    hide Call, NamesOf, Lookup, Put, Meet;
    var s' := Call(a, StoreOf(c, a), v, w, fault, password).1;
    ApartNames(a, b);
    CredentialsApart(b, a);
    PutLookup(c.claims, ClaimId(a), s'.claim);
    PutLookup(c.accesses, AccessId(a), s'.access);
    PutLookup(c.schedules, ScheduleId(a), s'.schedule);
    PutLookup(c.secrets, RepositoryId(a), s'.repository);
  }

  // Whole reconciles of a's, call after call on whatever its cache shows.
  datatype ClusterStep = ClusterStep(view: View, fault: Fault, password: NewPassword)

  function Calls(a: Setup, c: Cluster, w: Worker, steps: seq<ClusterStep>): (Worker, Cluster)
    decreases |steps|
  {
    if steps == [] then (w, c)
    else
      var (w', c') := ClusterCall(a, c, steps[0].view, w, steps[0].fault, steps[0].password);
      Calls(a, c', w', steps[1..])
  }

  lemma {:induction false} RunsAreIsolated(a: Setup, b: Setup, c: Cluster, w: Worker, steps: seq<ClusterStep>)
    requires a.hash == b.hash && PolicyId(a) != PolicyId(b) && Apart(a, b)
    ensures StoreOf(Calls(a, c, w, steps).1, b) == StoreOf(c, b)
    decreases |steps|
  {
    hide ClusterCall, StoreOf, Apart;
    if steps != [] {
      var (w', c') := ClusterCall(a, c, steps[0].view, w, steps[0].fault, steps[0].password);
      ApartIsolates(a, b, c, steps[0].view, w, steps[0].fault, steps[0].password);
      RunsAreIsolated(a, b, c', w', steps[1..]);
    }
  }

  // A policy that its controller has work with.
  predicate Working(k: Setup, c: Cluster) {
    && PolicyId(k) in c.policies
    && c.policies[PolicyId(k)].presence == Live
    && CrdValid(c.policies[PolicyId(k)].spec)
    && Resolve(c.policies[PolicyId(k)].spec, k.defaults).Resolved?
  }

  // Nothing of b's is ever changed by a reconcile of a's, where both are there to be reconciled.
  ghost predicate Isolated(a: Setup, b: Setup) {
    forall c, steps :: Working(a, c) && Working(b, c) ==>
      StoreOf(Calls(a, c, GettingPolicy, steps).1, b) == StoreOf(c, b)
  }

  // Every call is made on what the cluster holds at that moment, and none fails.
  predicate Undisturbed(a: Setup, c: Cluster, w: Worker, steps: seq<ClusterStep>)
    decreases |steps|
  {
    steps == [] ||
    (&& steps[0].view == FreshView(StoreOf(c, a)) && steps[0].fault == NoFault
     && var (w', c') := ClusterCall(a, c, steps[0].view, w, NoFault, steps[0].password);
        Undisturbed(a, c', w', steps[1..]))
  }

  // A fresh reconcile, in the cluster.
  lemma {:induction false} FreshInCluster(a: Setup, c: Cluster, w: Worker, password: NewPassword)
    returns (steps: seq<ClusterStep>)
    ensures var (outcome, s) := Fresh(a, StoreOf(c, a), w, password);
            var (w', c') := Calls(a, c, w, steps);
            Undisturbed(a, c, w, steps) && w' == Finished(outcome) && StoreOf(c', a) == s
    decreases Remaining(w)
  {
    hide ClusterCall, StoreOf, Attempt, FreshView, IsSilent;
    if w.Finished? {
      steps := [];
    } else {
      var s := StoreOf(c, a);
      AttemptProgresses(a, s, FreshView(s), w, password);
      ClusterCallIsCall(a, c, FreshView(s), w, NoFault, password);
      var (w', c') := ClusterCall(a, c, FreshView(s), w, NoFault, password);
      var rest := FreshInCluster(a, c', w', password);
      steps := [ClusterStep(FreshView(s), NoFault, password)] + rest;
      assert steps[1..] == rest;
    }
  }

  // Two policies that are alike, and for the first what COSI provides, not yet labelled.
  const DAILY := Spec(ScheduleMode, ScheduleSpec("@daily", "", ""), "class", "class", Retention(0, 0, 0, 0, 0, 0))
  const PROVIDED := Object(map[], CosiStatus(Some(true), "id", None))
  const S3_SECRET: SecretData :=
    map[ProtocolKey := S3,
        BucketIdKey := "id",
        EndpointKey := "url",
        AccessKeyIdKey := "key",
        AccessSecretKeyKey := "secret"]

  function TwoPolicies(a: Setup, b: Setup): Cluster {
    var p := Policy(Live, DAILY, 1, map[]);
    Cluster(
      map[PolicyId(a) := p, PolicyId(b) := p],
      map[ClaimId(a) := PROVIDED],
      map[AccessId(a) := PROVIDED],
      map[],
      map[CredentialsId(a) := Secret(false, S3_SECRET)])
  }

  lemma TwoPoliciesWork(a: Setup, b: Setup)
    requires a.hash == b.hash
    ensures Working(a, TwoPolicies(a, b)) && Working(b, TwoPolicies(a, b))
    ensures var s := StoreOf(TwoPolicies(a, b), a);
            && s.claim == Some(PROVIDED) && s.access == Some(PROVIDED)
            && s.repository == None && s.credentials == Some(Secret(false, S3_SECRET))
            && s.policy == Policy(Live, DAILY, 1, map[])
  {
    hide NamesOf;
    CredentialsApart(a, a);
  }

  // Reconciling the first labels its claim and creates its password.
  lemma FirstIsBackedUp(k: Setup, s: Store, password: NewPassword)
    requires s.claim == Some(PROVIDED) && s.access == Some(PROVIDED)
    requires s.repository == None && s.credentials == Some(Secret(false, S3_SECRET))
    requires s.policy == Policy(Live, DAILY, 1, map[])
    ensures var s' := Fresh(k, s, GettingPolicy, password).1;
            s'.repository.Some? && s'.claim != s.claim
  {
    hide Attempt, Fresh, Settled, BucketIn, HasPolicy, RepositoryAccepted, StatusSettled;
    TrackStart(k, s);
    assert Feasible(k, s);
    FreshStaysOnTrack(k, s, GettingPolicy, password);
    FreshAdvances(k, s, GettingPolicy, password);
    var (outcome, s') := Fresh(k, s, GettingPolicy, password);
    BackedUpHasPassword(k, s', outcome);
  }

  lemma BackedUpHasPassword(k: Setup, s: Store, outcome: Outcome)
    requires OnTrack(k, s, Finished(outcome)) && UpToDate(s, Finished(outcome)) && Advances(k, s, Finished(outcome))
    requires ReadyObject(s.claim) && ReadyObject(s.access) && UsableCredentials(s)
    requires s.policy.spec == DAILY
    ensures s.repository.Some? && s.claim.Some? && Managed(s.claim.value)
  {
    hide Settled, Resolve, BucketIn, StatusSettled, Complete, IsReady, Proven, Managed;
    ResolvedIsUsable(DAILY, k.defaults);
  }

  // Where the names of two policies meet, reconciling the one changes what belongs to the other,
  // even when nothing fails and every read is up to date.
  lemma {:induction false} MeetingInterferes(a: Setup, b: Setup) returns (c: Cluster, steps: seq<ClusterStep>)
    requires a.hash == b.hash && !Apart(a, b)
    ensures Working(a, c) && Working(b, c) && Undisturbed(a, c, GettingPolicy, steps)
    ensures StoreOf(Calls(a, c, GettingPolicy, steps).1, b) != StoreOf(c, b)
  {
    hide NamesOf, Meet, Fresh, Calls, TwoPolicies, Undisturbed, Working, Apart;
    ApartNames(a, b);
    c := TwoPolicies(a, b);
    TwoPoliciesWork(a, b);
    steps := FreshInCluster(a, c, GettingPolicy, "x");
    FirstIsBackedUp(a, StoreOf(c, a), "x");
  }

  // Two different policies are isolated from each other exactly when they live in different
  // namespaces or their names meet under neither suffix that ampulla writes under.
  lemma {:induction false} IsolatedIff(a: Setup, b: Setup)
    requires a.hash == b.hash && PolicyId(a) != PolicyId(b)
    ensures Isolated(a, b) <==> Apart(a, b)
  {
    hide Calls, StoreOf, Apart, Working;
    if Apart(a, b) {
      forall c, steps
        ensures StoreOf(Calls(a, c, GettingPolicy, steps).1, b) == StoreOf(c, b)
      {
        RunsAreIsolated(a, b, c, GettingPolicy, steps);
      }
    } else {
      var c, steps := MeetingInterferes(a, b);
    }
  }

  // ---------- References ----------

  function ValueAt(o: Option<Object>, p: Path): Option<Value> {
    if o.Some? && p in o.value.fields then Some(o.value.fields[p].value) else None
  }

  // Over whatever was there before, the claim asks for a bucket of the resolved class,
  lemma {:induction false} ClaimFits(k: Setup, c: Cluster, v: View, w: Worker, password: NewPassword)
    requires w.ApplyingClaim?
    ensures var claim := Lookup(ClusterCall(k, c, v, w, NoFault, password).1.claims, ClaimId(k));
            && ValueAt(claim, BucketClassNamePath) == Some(Text(w.cfg.bucketClassName))
            && ValueAt(claim, ProtocolsPath) == Some(Texts(["S3"]))
  {
    hide NamesOf, Lookup, Put, Applied, ValueAt;
    var s' := Call(k, StoreOf(c, k), v, w, NoFault, password).1;
    PutLookup(c.claims, ClaimId(k), s'.claim);
    AppliedValues(StoreOf(c, k).claim, BucketClaimConfig(k, w.cfg));
  }

  // the access asks to read and to write the bucket of that very claim, and has COSI write the very
  // Secret that is then read for the bucket,
  lemma {:induction false} AccessFits(k: Setup, c: Cluster, v: View, w: Worker, password: NewPassword)
    requires w.ApplyingAccess?
    ensures var access := Lookup(ClusterCall(k, c, v, w, NoFault, password).1.accesses, AccessId(k));
            && ValueAt(access, BucketAccessClassNamePath) == Some(Text(w.cfg.bucketAccessClassName))
            && ValueAt(access, ProtocolPath) == Some(Text("S3"))
            && var asked := ValueAt(access, BucketClaimsPath);
               && asked.Some? && asked.value.ClaimAccess?
               && asked.value.claimName == ClaimId(k).name
               && asked.value.secretName == CredentialsId(k).name
               && (forall operation :: Permits(asked.value.accessMode, operation))
  {
    hide NamesOf, Lookup, Put, Applied, ValueAt;
    var s' := Call(k, StoreOf(c, k), v, w, NoFault, password).1;
    PutLookup(c.accesses, AccessId(k), s'.access);
    AppliedValues(StoreOf(c, k).access, BucketAccessConfig(k, w.cfg));
  }

  // and the Schedule takes the key pair from that Secret and the password from the one created.
  lemma {:induction false} ScheduleFits(k: Setup, c: Cluster, v: View, w: Worker, password: NewPassword)
    requires w.ApplyingSchedule?
    ensures var schedule := Lookup(ClusterCall(k, c, v, w, NoFault, password).1.schedules, ScheduleId(k));
            && ValueAt(schedule, RepoPasswordRefPath) == Some(SecretRef(RepositoryId(k).name, RepoPasswordKey))
            && ValueAt(schedule, AccessKeyIdRefPath) == Some(SecretRef(CredentialsId(k).name, AccessKeyIdKey))
            && ValueAt(schedule, SecretAccessKeyRefPath) == Some(SecretRef(CredentialsId(k).name, AccessSecretKeyKey))
  {
    hide NamesOf, Lookup, Put, ScheduleConfig, Apply;
    var s' := Call(k, StoreOf(c, k), v, w, NoFault, password).1;
    PutLookup(c.schedules, ScheduleId(k), s'.schedule);
    var o := StoreOf(c, k).schedule;
    ScheduleConfigPoints(k, if o.Some? then o.value.fields else map[], w.cfg, w.ev.bucket);
  }

  lemma AppliedValues(o: Option<Object>, config: Configuration)
    ensures forall p :: p in config ==> ValueAt(Applied(o, config), p) == Some(config[p])
  {
  }
}
