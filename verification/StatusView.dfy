// The policy's status as an apply configuration, and as it is read back.

module StatusView {
  import opened Api
  import opened ServerSideApply
  import opened Objects

  const STATUS_PATHS: set<Path> := {
    PhasePath, ObservedGenerationPath, MessagePath, BucketPath, EndpointPath, CredentialsSecretPath, SchedulePath}

  const NO_STATUS := Status(NoPhase, 0, Silent, "", "", "", "")

  function StatusValue(st: Status, p: Path): Value {
    match p
    case PhasePath => PhaseValue(st.phase)
    case ObservedGenerationPath => Count(st.observedGeneration)
    case MessagePath => MessageValue(st.message)
    case BucketPath => Text(st.bucket)
    case EndpointPath => Text(st.endpoint)
    case CredentialsSecretPath => Text(st.credentialsSecret)
    case SchedulePath => Text(st.schedule)
    case _ => Text("")
  }

  // Whether a status has anything to say at a path.
  predicate Carries(st: Status, p: Path) {
    StatusValue(st, p) != StatusValue(NO_STATUS, p)
  }

  // The phase and the generation are always sent, the rest only when it carries something.
  function StatusConfig(st: Status): Configuration {
    map p | p in STATUS_PATHS && (p == PhasePath || p == ObservedGenerationPath || Carries(st, p)) :: StatusValue(st, p)
  }

  lemma StatusPaths(p: Path)
    ensures p in STATUS_PATHS <==> IsStatusPath(p)
  {
  }

  predicate IsStatusPath(p: Path) {
    || p.PhasePath? || p.ObservedGenerationPath? || p.MessagePath? || p.BucketPath? || p.EndpointPath?
    || p.CredentialsSecretPath? || p.SchedulePath?
  }

  lemma StatusConfigAt(st: Status, p: Path)
    ensures p in StatusConfig(st) <==>
            IsStatusPath(p) && (p.PhasePath? || p.ObservedGenerationPath? || Carries(st, p))
    ensures p in StatusConfig(st) ==> StatusConfig(st)[p] == StatusValue(st, p)
  {
    hide STATUS_PATHS, Carries;
    StatusPaths(p);
  }

  lemma StatusValues(st: Status)
    ensures StatusValue(st, PhasePath) == PhaseValue(st.phase)
    ensures StatusValue(st, ObservedGenerationPath) == Count(st.observedGeneration)
    ensures StatusValue(st, MessagePath) == MessageValue(st.message)
    ensures StatusValue(st, BucketPath) == Text(st.bucket)
    ensures StatusValue(st, EndpointPath) == Text(st.endpoint)
    ensures StatusValue(st, CredentialsSecretPath) == Text(st.credentialsSecret)
    ensures StatusValue(st, SchedulePath) == Text(st.schedule)
  {
  }

  lemma CarriesCases(st: Status)
    ensures Carries(st, MessagePath) <==> st.message != Silent
    ensures Carries(st, BucketPath) <==> st.bucket != ""
    ensures Carries(st, EndpointPath) <==> st.endpoint != ""
    ensures Carries(st, CredentialsSecretPath) <==> st.credentialsSecret != ""
    ensures Carries(st, SchedulePath) <==> st.schedule != ""
  {
    hide StatusValue;
    StatusValues(st);
    StatusValues(NO_STATUS);
  }

  method StatusFor(st: Status) returns (ac: Configuration)
    ensures ac == StatusConfig(st)
  {
    hide StatusConfig, StatusValue, Carries;
    StatusValues(st);
    CarriesCases(st);
    ac := map[PhasePath := PhaseValue(st.phase), ObservedGenerationPath := Count(st.observedGeneration)];
    if st.message != Silent {
      ac := ac[MessagePath := MessageValue(st.message)];
    }
    if st.bucket != "" {
      ac := ac[BucketPath := Text(st.bucket)];
    }
    if st.endpoint != "" {
      ac := ac[EndpointPath := Text(st.endpoint)];
    }
    if st.credentialsSecret != "" {
      ac := ac[CredentialsSecretPath := Text(st.credentialsSecret)];
    }
    if st.schedule != "" {
      ac := ac[SchedulePath := Text(st.schedule)];
    }
    forall p
      ensures p in ac <==> p in StatusConfig(st)
      ensures p in ac ==> ac[p] == StatusConfig(st)[p]
    {
      StatusConfigAt(st, p);
    }
  }

  function ReadAt(f: Fields, p: Path): Option<Value> {
    if p in f then Some(f[p].value) else None
  }

  function TextAt(f: Fields, p: Path): string {
    match ReadAt(f, p)
    case Some(Text(text)) => text
    case _ => ""
  }

  // A field that is absent reads as empty.
  function ReadStatus(f: Fields): Status {
    Status(
      match ReadAt(f, PhasePath) case Some(PhaseValue(phase)) => phase case _ => NoPhase,
      match ReadAt(f, ObservedGenerationPath) case Some(Count(n)) => if n >= 0 then n else 0 case _ => 0,
      match ReadAt(f, MessagePath) case Some(MessageValue(m)) => m case _ => Silent,
      TextAt(f, BucketPath),
      TextAt(f, EndpointPath),
      TextAt(f, CredentialsSecretPath),
      TextAt(f, SchedulePath))
  }

  // The value of a field as its type admits it.
  function Typed(v: Option<Value>, p: Path): Value {
    match p
    case PhasePath => if v.Some? && v.value.PhaseValue? then v.value else PhaseValue(NoPhase)
    case ObservedGenerationPath => if v.Some? && v.value.Count? && v.value.count >= 0 then v.value else Count(0)
    case MessagePath => if v.Some? && v.value.MessageValue? then v.value else MessageValue(Silent)
    case _ => if v.Some? && v.value.Text? then v.value else Text("")
  }

  lemma ReadStatusAt(f: Fields, p: Path)
    requires IsStatusPath(p)
    ensures StatusValue(ReadStatus(f), p) == Typed(ReadAt(f, p), p)
  {
  }

  // Somebody else holds a value at a path the wanted status leaves empty.
  predicate Leftover(f: Fields, want: Status, p: Path) {
    && IsStatusPath(p) && p !in StatusConfig(want)
    && p in Others(f)
    && Typed(ReadAt(f, p), p) != StatusValue(NO_STATUS, p)
  }

  // What reading back an applied status gives at each path.
  lemma ReadBackAt(f: Fields, want: Status, p: Path)
    requires IsStatusPath(p)
    ensures StatusValue(ReadStatus(Apply(f, StatusConfig(want))), p) == StatusValue(want, p) <==> !Leftover(f, want, p)
  {
    hide ReadStatus, StatusConfig, Carries;
    var got := Apply(f, StatusConfig(want));
    ReadStatusAt(got, p);
    StatusConfigAt(want, p);
    if p in StatusConfig(want) {
      assert ReadAt(got, p) == Some(StatusValue(want, p));
    } else {
      assert !Carries(want, p);
      assert StatusValue(want, p) == StatusValue(NO_STATUS, p) by { CarriesMeans(want, p); }
      assert ReadAt(got, p) == if p in Others(f) then ReadAt(f, p) else None;
    }
  }

  lemma CarriesMeans(st: Status, p: Path)
    ensures Carries(st, p) <==> StatusValue(st, p) != StatusValue(NO_STATUS, p)
  {
  }

  // The status read back is the one wanted exactly when nobody else holds a value at a field the
  // wanted one leaves empty.
  lemma {:induction false} StatusRoundTripIff(f: Fields, want: Status)
    ensures ReadStatus(Apply(f, StatusConfig(want))) == want <==> forall p :: !Leftover(f, want, p)
  {
    hide ReadStatus, StatusConfig;
    var got := ReadStatus(Apply(f, StatusConfig(want)));
    forall p | IsStatusPath(p)
      ensures StatusValue(got, p) == StatusValue(want, p) <==> !Leftover(f, want, p)
    {
      ReadBackAt(f, want, p);
    }
    SameEverywhere(got, want);
  }

  lemma SameEverywhere(a: Status, b: Status)
    ensures a == b <==> forall p :: IsStatusPath(p) ==> StatusValue(a, p) == StatusValue(b, p)
  {
    hide StatusValue;
    StatusValues(a);
    StatusValues(b);
    assert IsStatusPath(PhasePath) && IsStatusPath(ObservedGenerationPath) && IsStatusPath(MessagePath);
    assert IsStatusPath(BucketPath) && IsStatusPath(EndpointPath);
    assert IsStatusPath(CredentialsSecretPath) && IsStatusPath(SchedulePath);
  }

  // On a status only ampulla writes, skipping an equal write is the same as making it.
  lemma StatusRoundTrip(f: Fields, want: Status)
    requires OnlyAmpulla(f)
    ensures ReadStatus(Apply(f, StatusConfig(want))) == want
    ensures OnlyAmpulla(Apply(f, StatusConfig(want)))
  {
    hide ReadStatus, StatusConfig;
    StatusRoundTripIff(f, want);
    ApplyOwned(f, StatusConfig(want));
  }

  // On a status as ampulla left it, a write that would be skipped would have changed nothing.
  lemma {:induction false} SkippedWriteWouldChangeNothing(last: Status, want: Status)
    ensures var f := Owned(StatusConfig(last));
            ReadStatus(f) == want <==> Apply(f, StatusConfig(want)) == f
  {
    hide ReadStatus, StatusConfig;
    var f := Owned(StatusConfig(last));
    var none: Fields := map[];
    ApplyOwned(none, StatusConfig(last));
    StatusRoundTrip(none, last);
    ApplyOwned(f, StatusConfig(want));
    if Apply(f, StatusConfig(want)) == f {
      StatusRoundTrip(f, want);
    }
  }
}
