// The Secret COSI populates for a BucketAccess (internal/backup/bucket.go).

module BucketSecret {

  // The keys of the Secrets ampulla reads and writes.
  datatype SecretKey =
    | ProtocolKey
    | BucketIdKey
    | EndpointKey
    | RegionKey
    | AccessKeyIdKey
    | AccessSecretKeyKey
    | RepoPasswordKey
    | OtherKey(name: string)

  type SecretData = map<SecretKey, string>

  datatype Bucket = Bucket(id: string, endpoint: string, region: string)

  datatype BucketResult =
    | Usable(bucket: Bucket)
    | WrongProtocol(protocol: string)
    | Incomplete(missing: seq<SecretKey>)

  const S3 := "S3"
  const REQUIRED_KEYS: seq<SecretKey> := [BucketIdKey, EndpointKey, AccessKeyIdKey, AccessSecretKeyKey]

  // A lookup in a Go map: an absent key reads as empty.
  function Read(data: SecretData, key: SecretKey): string {
    if key in data then data[key] else ""
  }

  function MissingOf(data: SecretData, keys: seq<SecretKey>): seq<SecretKey> {
    if keys == [] then []
    else
      var last := keys[|keys| - 1];
      MissingOf(data, keys[..|keys| - 1]) + if Read(data, last) == "" then [last] else []
  }

  function BucketIn(data: SecretData): BucketResult {
    if Read(data, ProtocolKey) != S3 then WrongProtocol(Read(data, ProtocolKey))
    else
      var missing := MissingOf(data, REQUIRED_KEYS);
      if missing != [] then Incomplete(missing)
      else Usable(Bucket(Read(data, BucketIdKey), Read(data, EndpointKey), Read(data, RegionKey)))
  }

  method BucketFromSecret(data: SecretData) returns (r: BucketResult)
    ensures r == BucketIn(data)
  {
    var protocol := Read(data, ProtocolKey);
    if protocol != S3 {
      return WrongProtocol(protocol);
    }
    var missing: seq<SecretKey> := [];
    for i := 0 to |REQUIRED_KEYS|
      invariant missing == MissingOf(data, REQUIRED_KEYS[..i])
    {
      assert REQUIRED_KEYS[..i + 1][..i] == REQUIRED_KEYS[..i];
      if |Read(data, REQUIRED_KEYS[i])| == 0 {
        missing := missing + [REQUIRED_KEYS[i]];
      }
    }
    assert REQUIRED_KEYS[..|REQUIRED_KEYS|] == REQUIRED_KEYS;
    if missing != [] {
      return Incomplete(missing);
    }
    return Usable(Bucket(Read(data, BucketIdKey), Read(data, EndpointKey), Read(data, RegionKey)));
  }

  // Where a required key stands in the order of the checks.
  function Turn(key: SecretKey): nat {
    match key
    case BucketIdKey => 0
    case EndpointKey => 1
    case AccessKeyIdKey => 2
    case AccessSecretKeyKey => 3
    case _ => 4
  }

  predicate InOrder(keys: seq<SecretKey>) {
    forall i, j :: 0 <= i < j < |keys| ==> Turn(keys[i]) < Turn(keys[j])
  }

  lemma {:induction false} MissingExactly(data: SecretData, keys: seq<SecretKey>)
    ensures forall key :: key in MissingOf(data, keys) <==> key in keys && !Holds(data, key)
    ensures InOrder(keys) ==> InOrder(MissingOf(data, keys))
  {
    if keys != [] {
      var init, last := keys[..|keys| - 1], keys[|keys| - 1];
      MissingExactly(data, init);
      assert keys == init + [last];
      if InOrder(keys) {
        assert InOrder(init);
        var missing := MissingOf(data, init);
        forall i | 0 <= i < |missing|
          ensures Turn(missing[i]) < Turn(last)
        {
          assert missing[i] in init;
        }
      }
    }
  }

  // A key that is there, with something under it.
  predicate Holds(data: SecretData, key: SecretKey) {
    key in data && data[key] != ""
  }

  // All four pieces the backend needs, over the one protocol ampulla speaks.
  predicate Complete(data: SecretData) {
    && ProtocolKey in data && data[ProtocolKey] == "S3"
    && Holds(data, BucketIdKey)
    && Holds(data, EndpointKey)
    && Holds(data, AccessKeyIdKey)
    && Holds(data, AccessSecretKeyKey)
  }

  // A Secret is accepted exactly when it is complete; otherwise the answer names exactly the
  // required keys it lacks, in the order of the checks. The region is never one of them.
  lemma AcceptedIffComplete(data: SecretData)
    ensures BucketIn(data).Usable? <==> Complete(data)
    ensures BucketIn(data).Usable? ==>
              var b := BucketIn(data).bucket;
              && b.id == data[BucketIdKey] != ""
              && b.endpoint == data[EndpointKey] != ""
              && b.region == if RegionKey in data then data[RegionKey] else ""
    ensures BucketIn(data).WrongProtocol? <==> !(ProtocolKey in data && data[ProtocolKey] == "S3")
    ensures BucketIn(data).WrongProtocol? && ProtocolKey in data ==> BucketIn(data).protocol == data[ProtocolKey]
    ensures BucketIn(data).Incomplete? ==>
              && InOrder(BucketIn(data).missing)
              && forall key :: key in BucketIn(data).missing <==>
                               && key in {BucketIdKey, EndpointKey, AccessKeyIdKey, AccessSecretKeyKey}
                               && !Holds(data, key)
  {
    hide REQUIRED_KEYS, MissingOf, InOrder;
    RequiredKeys();
    MissingExactly(data, REQUIRED_KEYS);
    var missing := MissingOf(data, REQUIRED_KEYS);
    if missing != [] {
      assert missing[0] in missing;
    } else {
      assert forall key :: key in REQUIRED_KEYS ==> Holds(data, key);
      assert BucketIdKey in REQUIRED_KEYS && EndpointKey in REQUIRED_KEYS;
      assert AccessKeyIdKey in REQUIRED_KEYS && AccessSecretKeyKey in REQUIRED_KEYS;
    }
  }

  lemma RequiredKeys()
    ensures InOrder(REQUIRED_KEYS)
    ensures forall key :: key in REQUIRED_KEYS <==>
                          key in {BucketIdKey, EndpointKey, AccessKeyIdKey, AccessSecretKeyKey}
  {
    assert REQUIRED_KEYS[0] == BucketIdKey && REQUIRED_KEYS[1] == EndpointKey;
    assert REQUIRED_KEYS[2] == AccessKeyIdKey && REQUIRED_KEYS[3] == AccessSecretKeyKey;
  }
}
