// Object naming (internal/backup/names.go). Names are byte strings; every character stands for
// one byte.

module Names {
  newtype byte = b: int | 0 <= b < 256

  // The first four bytes of the SHA-256 of a name.
  datatype Digest = Digest(b0: byte, b1: byte, b2: byte, b3: byte)

  // SHA-256 itself is not modelled: everything below holds for any function in its place.
  type Hash = string -> Digest

  const MAX_NAME_LENGTH := 253
  const HASH_LENGTH := 9

  const BACKUP := "-backup"
  const CREDENTIALS := "-backup-credentials"
  const REPOSITORY := "-backup-repository"

  datatype Names = Names(
    bucketClaim: string,
    bucketAccess: string,
    credentialsSecret: string,
    repositorySecret: string,
    schedule: string)

  function NamesFor(hash: Hash, policy: string): Names {
    Names(
      Suffixed(hash, policy, BACKUP),
      Suffixed(hash, policy, BACKUP),
      Suffixed(hash, policy, CREDENTIALS),
      Suffixed(hash, policy, REPOSITORY),
      Suffixed(hash, policy, BACKUP))
  }

  predicate IsShortened(name: string, suffix: string) {
    |name| + |suffix| > MAX_NAME_LENGTH
  }

  // How much of a shortened name is kept. The slice is in range whenever it is taken.
  function Keep(suffix: string): (keep: nat)
    requires |suffix| <= MAX_NAME_LENGTH - HASH_LENGTH
    ensures forall name :: IsShortened(name, suffix) ==> keep + HASH_LENGTH <= |name|
  {
    MAX_NAME_LENGTH - |suffix| - HASH_LENGTH
  }

  function HexDigit(n: int): char
    requires 0 <= n < 16
  {
    "0123456789abcdef"[n]
  }

  function HexByte(b: byte): string {
    [HexDigit(b as int / 16), HexDigit(b as int % 16)]
  }

  function Hex(d: Digest): (s: string)
    ensures |s| == 8
  {
    HexByte(d.b0) + HexByte(d.b1) + HexByte(d.b2) + HexByte(d.b3)
  }

  // What stands in for a shortened name in front of the suffix.
  function Stem(hash: Hash, name: string, suffix: string): string
    requires |suffix| <= MAX_NAME_LENGTH - HASH_LENGTH
    requires IsShortened(name, suffix)
  {
    name[..Keep(suffix)] + "-" + Hex(hash(name))
  }

  function Suffixed(hash: Hash, name: string, suffix: string): string
    requires |suffix| <= MAX_NAME_LENGTH - HASH_LENGTH
  {
    if IsShortened(name, suffix) then Stem(hash, name, suffix) + suffix else name + suffix
  }

  // ---------- Spelled out ----------

  // Two lower-case characters a byte, the higher half first.
  predicate Spells(text: string, b: byte) {
    exists high, low ::
      && 0 <= high < 16 && 0 <= low < 16
      && b as int == 16 * high + low
      && text == ["0123456789abcdef"[high], "0123456789abcdef"[low]]
  }

  predicate SpellsHash(text: string, d: Digest) {
    && |text| == 8
    && Spells(text[0..2], d.b0) && Spells(text[2..4], d.b1)
    && Spells(text[4..6], d.b2) && Spells(text[6..8], d.b3)
  }

  // A name that fits keeps the whole policy name; one that does not keeps 253 characters in all,
  // of which the last are the hash of the whole policy name and the ending.
  predicate IsDerived(hash: Hash, derived: string, policy: string, ending: string) {
    if |policy| + |ending| <= 253 then derived == policy + ending
    else
      && |derived| == 253 && |policy| + |ending| >= 253 && |ending| <= 244
      && var keep := 244 - |ending|;
         && keep <= |policy|
         && derived[..keep] == policy[..keep]
         && derived[keep] == '-'
         && SpellsHash(derived[keep + 1..keep + 9], hash(policy))
         && derived[keep + 9..] == ending
  }

  lemma HexByteSpells(b: byte)
    ensures Spells(HexByte(b), b)
  {
    var high, low := b as int / 16, b as int % 16;
    assert b as int == 16 * high + low;
  }

  lemma HexSpells(d: Digest)
    ensures SpellsHash(Hex(d), d)
  {
    hide Spells;
    HexByteSpells(d.b0);
    HexByteSpells(d.b1);
    HexByteSpells(d.b2);
    HexByteSpells(d.b3);
    assert Hex(d)[0..2] == HexByte(d.b0) && Hex(d)[2..4] == HexByte(d.b1);
    assert Hex(d)[4..6] == HexByte(d.b2) && Hex(d)[6..8] == HexByte(d.b3);
  }

  lemma SuffixedIsDerived(hash: Hash, policy: string, suffix: string)
    requires |suffix| <= 244
    ensures IsDerived(hash, Suffixed(hash, policy, suffix), policy, suffix)
  {
    hide Hex, SpellsHash;
    if IsShortened(policy, suffix) {
      HexSpells(hash(policy));
      var derived, keep := Suffixed(hash, policy, suffix), Keep(suffix);
      assert derived == policy[..keep] + "-" + Hex(hash(policy)) + suffix;
      assert derived[..keep] == policy[..keep];
      assert derived[keep + 1..keep + 9] == Hex(hash(policy));
      assert derived[keep + 9..] == suffix;
    }
  }

  // The five names of a policy.
  lemma {:induction false} NamesAreSpelled(hash: Hash, policy: string)
    ensures var names := NamesFor(hash, policy);
            && IsDerived(hash, names.bucketClaim, policy, "-backup")
            && IsDerived(hash, names.bucketAccess, policy, "-backup")
            && IsDerived(hash, names.credentialsSecret, policy, "-backup-credentials")
            && IsDerived(hash, names.repositorySecret, policy, "-backup-repository")
            && IsDerived(hash, names.schedule, policy, "-backup")
  {
    hide IsDerived, Suffixed;
    SuffixedIsDerived(hash, policy, BACKUP);
    SuffixedIsDerived(hash, policy, CREDENTIALS);
    SuffixedIsDerived(hash, policy, REPOSITORY);
  }

  // ---------- Collisions ----------

  lemma HexDigitInjective(m: int, n: int)
    requires 0 <= m < 16 && 0 <= n < 16
    ensures HexDigit(m) == HexDigit(n) ==> m == n
  {
  }

  lemma HexByteInjective(a: byte, b: byte)
    ensures HexByte(a) == HexByte(b) ==> a == b
  {
    if HexByte(a) == HexByte(b) {
      assert HexByte(a)[0] == HexByte(b)[0] && HexByte(a)[1] == HexByte(b)[1];
      HexDigitInjective(a as int / 16, b as int / 16);
      HexDigitInjective(a as int % 16, b as int % 16);
    }
  }

  lemma HexInjective(d: Digest, e: Digest)
    ensures Hex(d) == Hex(e) ==> d == e
  {
    if Hex(d) == Hex(e) {
      assert Hex(d)[0..2] == HexByte(d.b0) && Hex(e)[0..2] == HexByte(e.b0);
      assert Hex(d)[2..4] == HexByte(d.b1) && Hex(e)[2..4] == HexByte(e.b1);
      assert Hex(d)[4..6] == HexByte(d.b2) && Hex(e)[4..6] == HexByte(e.b2);
      assert Hex(d)[6..8] == HexByte(d.b3) && Hex(e)[6..8] == HexByte(e.b3);
      HexByteInjective(d.b0, e.b0);
      HexByteInjective(d.b1, e.b1);
      HexByteInjective(d.b2, e.b2);
      HexByteInjective(d.b3, e.b3);
    }
  }

  lemma ConcatCancels(s: string, t: string, suffix: string)
    ensures s + suffix == t + suffix <==> s == t
  {
    if s + suffix == t + suffix {
      assert |s| == |t|;
      assert s == (s + suffix)[..|s|] == (t + suffix)[..|t|] == t;
    }
  }

  // Two policies whose derived names meet under one suffix.
  predicate Meet(hash: Hash, a: string, b: string, suffix: string)
    requires |suffix| <= MAX_NAME_LENGTH - HASH_LENGTH
  {
    || a == b
    || (&& IsShortened(a, suffix) && IsShortened(b, suffix)
        && a[..Keep(suffix)] == b[..Keep(suffix)]
        && hash(a) == hash(b))
    || (IsShortened(a, suffix) && !IsShortened(b, suffix) && b == Stem(hash, a, suffix))
    || (!IsShortened(a, suffix) && IsShortened(b, suffix) && a == Stem(hash, b, suffix))
  }

  lemma StemsMeet(p: string, d: Digest, q: string, e: Digest)
    requires |p| == |q|
    ensures p + "-" + Hex(d) == q + "-" + Hex(e) <==> p == q && d == e
  {
    ghost var x, y := Hex(d), Hex(e);
    if p + "-" + x == q + "-" + y {
      assert p == (p + "-" + x)[..|p|] == (q + "-" + y)[..|q|] == q;
      assert x == (p + "-" + x)[|p| + 1..] == (q + "-" + y)[|q| + 1..] == y;
      HexInjective(d, e);
    }
  }

  // The exact account of when two derived names are the same.
  lemma {:induction false} CollisionIff(hash: Hash, a: string, b: string, suffix: string)
    requires |suffix| <= MAX_NAME_LENGTH - HASH_LENGTH
    ensures Suffixed(hash, a, suffix) == Suffixed(hash, b, suffix) <==> Meet(hash, a, b, suffix)
  {
    hide Hex;
    var sa := if IsShortened(a, suffix) then Stem(hash, a, suffix) else a;
    var sb := if IsShortened(b, suffix) then Stem(hash, b, suffix) else b;
    ConcatCancels(sa, sb, suffix);
    if IsShortened(a, suffix) && IsShortened(b, suffix) {
      StemsMeet(a[..Keep(suffix)], hash(a), b[..Keep(suffix)], hash(b));
    }
  }

  // Long names that differ only past the cut are kept apart by the hash, and by nothing else.
  lemma {:induction false} LongNamesApartIffHashesDiffer(hash: Hash, a: string, b: string, suffix: string)
    requires |suffix| <= MAX_NAME_LENGTH - HASH_LENGTH
    requires a != b && IsShortened(a, suffix) && IsShortened(b, suffix)
    requires a[..Keep(suffix)] == b[..Keep(suffix)]
    ensures Suffixed(hash, a, suffix) != Suffixed(hash, b, suffix) <==> hash(a) != hash(b)
  {
    CollisionIff(hash, a, b, suffix);
  }

  // Hashing does not rule collisions out even between a long and a short name: for every
  // shortened name there is an unshortened one that derives the very same object name, and for a
  // policy name that is cut cleanly it is a policy name as well.
  lemma {:induction false} EveryShortenedNameHasATwin(hash: Hash, a: string, suffix: string) returns (twin: string)
    requires |suffix| <= MAX_NAME_LENGTH - HASH_LENGTH
    requires IsShortened(a, suffix)
    ensures twin != a && !IsShortened(twin, suffix)
    ensures Suffixed(hash, a, suffix) == Suffixed(hash, twin, suffix)
    ensures twin == a[..Keep(suffix)] + "-" + Hex(hash(a))
    ensures Subdomain(a) && LabelEnd(suffix) ==> (Subdomain(twin) <==> CutsCleanly(a, suffix))
  {
    hide Hex, Labels;
    twin := Stem(hash, a, suffix);
    if Subdomain(a) && LabelEnd(suffix) {
      TwinIsValid(hash, a, suffix);
    }
  }

  // The two Secrets live in one namespace and are never the same object, whatever the policies.
  lemma SecretsNeverMeet(hash: Hash, a: string, b: string)
    ensures NamesFor(hash, a).credentialsSecret != NamesFor(hash, b).repositorySecret
  {
    var c, r := NamesFor(hash, a).credentialsSecret, NamesFor(hash, b).repositorySecret;
    assert c[|c| - 1] == 's';
    assert r[|r| - 1] == 'y';
  }

  // ---------- Validity ----------

  predicate Alnum(c: char) {
    'a' <= c <= 'z' || '0' <= c <= '9'
  }

  // One label of a subdomain: alphanumerics and hyphens, alphanumeric at both ends.
  predicate Label(s: string) {
    && s != ""
    && Alnum(s[0]) && Alnum(s[|s| - 1])
    && forall i :: 0 <= i < |s| ==> Alnum(s[i]) || s[i] == '-'
  }

  // The labels between the dots.
  function Labels(s: string): (labels: seq<string>)
    ensures |labels| > 0
  {
    if s == "" then [""]
    else
      var rest := Labels(s[1..]);
      if s[0] == '.' then [""] + rest else [[s[0]] + rest[0]] + rest[1..]
  }

  // A lower-case DNS subdomain (section 2.1 of RFC 1123), as Kubernetes checks object names.
  predicate Subdomain(s: string) {
    |s| <= MAX_NAME_LENGTH && forall part :: part in Labels(s) ==> Label(part)
  }

  // The same, said character by character: what may stand next to what.
  predicate WellFormed(s: string) {
    && s != "" && Alnum(s[0]) && Alnum(s[|s| - 1])
    && (forall i :: 0 <= i < |s| ==> Alnum(s[i]) || s[i] == '-' || s[i] == '.')
    && (forall i :: 0 < i < |s| && s[i - 1] == '.' ==> Alnum(s[i]))
    && (forall i :: 0 < i < |s| && s[i] == '.' ==> Alnum(s[i - 1]))
  }

  // Like WellFormed, except that the first label may have lost its start.
  predicate WellFormedTail(s: string) {
    && (s != "" ==> Alnum(s[|s| - 1]))
    && (forall i :: 0 <= i < |s| ==> Alnum(s[i]) || s[i] == '-' || s[i] == '.')
    && (forall i :: 0 < i < |s| && s[i - 1] == '.' ==> Alnum(s[i]))
    && (forall i :: 0 < i < |s| && s[i] == '.' ==> Alnum(s[i - 1]))
  }

  predicate LabelTail(s: string) {
    && (s != "" ==> Alnum(s[|s| - 1]))
    && forall i :: 0 <= i < |s| ==> Alnum(s[i]) || s[i] == '-'
  }

  predicate LabelsTail(parts: seq<string>) {
    parts != [] && LabelTail(parts[0]) && forall j :: 1 <= j < |parts| ==> Label(parts[j])
  }

  // What one more character in front does to a well-formed tail.
  predicate Extends(c: char, t: string) {
    || (Alnum(c))
    || (c == '-' && t != "" && t[0] != '.')
    || (c == '.' && t != "" && Alnum(t[0]))
  }

  lemma TailCons(s: string)
    requires s != ""
    ensures WellFormedTail(s) <==> WellFormedTail(s[1..]) && Extends(s[0], s[1..])
  {
    var t := s[1..];
    assert forall i :: 1 <= i < |s| ==> s[i] == t[i - 1];
    if WellFormedTail(s) {
      assert forall i :: 0 <= i < |t| ==> t[i] == s[i + 1];
      assert t != "" ==> t[0] == s[1];
    }
  }

  lemma LabelsCons(c: char, t: string, rest: seq<string>)
    requires rest != []
    requires rest[0] != "" <==> t != "" && t[0] != '.'
    requires rest[0] != "" ==> rest[0][0] == t[0]
    ensures c == '.' ==> (LabelsTail([""] + rest) <==> LabelsTail(rest) && Extends(c, t))
    ensures c != '.' ==> (LabelsTail([[c] + rest[0]] + rest[1..]) <==> LabelsTail(rest) && Extends(c, t))
  {
    if c == '.' {
      var parts := [""] + rest;
      assert parts[1] == rest[0];
      assert forall j :: 1 <= j < |rest| ==> parts[j + 1] == rest[j];
      assert forall j :: 2 <= j < |parts| ==> parts[j] == rest[j - 1];
    } else {
      var parts := [[c] + rest[0]] + rest[1..];
      var first := parts[0];
      assert forall j :: 1 <= j < |rest| ==> parts[j] == rest[j];
      assert first[0] == c && forall i :: 0 <= i < |rest[0]| ==> first[i + 1] == rest[0][i];
      assert forall i :: 1 <= i < |first| ==> first[i] == rest[0][i - 1];
    }
  }

  lemma {:induction false} TailByLabels(s: string)
    ensures WellFormedTail(s) <==> LabelsTail(Labels(s))
    ensures Labels(s)[0] != "" <==> s != "" && s[0] != '.'
    ensures Labels(s)[0] != "" ==> Labels(s)[0][0] == s[0]
  {
    if s != "" {
      TailByLabels(s[1..]);
      TailCons(s);
      LabelsCons(s[0], s[1..], Labels(s[1..]));
    }
  }

  // The two readings of a subdomain agree.
  lemma SubdomainIffWellFormed(s: string)
    ensures Subdomain(s) <==> |s| <= MAX_NAME_LENGTH && WellFormed(s)
  {
    TailByLabels(s);
    var parts := Labels(s);
    assert forall j :: 0 <= j < |parts| ==> parts[j] in parts;
    assert WellFormed(s) <==> WellFormedTail(s) && s != "" && Alnum(s[0]);
  }

  // A suffix that continues the last label it is put behind.
  predicate LabelEnd(suffix: string) {
    && 0 < |suffix| < MAX_NAME_LENGTH - HASH_LENGTH
    && suffix[0] == '-' && Alnum(suffix[|suffix| - 1])
    && forall i :: 0 <= i < |suffix| ==> Alnum(suffix[i]) || suffix[i] == '-'
  }

  lemma SuffixesAreLabelEnds()
    ensures LabelEnd(BACKUP) && LabelEnd(CREDENTIALS) && LabelEnd(REPOSITORY)
  {
  }

  lemma HexIsAlnum(d: Digest)
    ensures forall i :: 0 <= i < 8 ==> Alnum(Hex(d)[i])
  {
    forall n | 0 <= n < 16
      ensures Alnum(HexDigit(n))
    {
    }
  }

  lemma AppendedIsWellFormed(s: string, tail: string)
    requires s != "" && WellFormedPrefix(s)
    requires tail != "" && Alnum(tail[|tail| - 1])
    requires tail[0] == '-'
    requires forall i :: 0 <= i < |tail| ==> Alnum(tail[i]) || tail[i] == '-'
    ensures WellFormed(s + tail) <==> s[|s| - 1] != '.'
  {
    var r := s + tail;
    if s[|s| - 1] == '.' {
      assert r[|s| - 1] == '.' && r[|s|] == '-';
    }
  }

  predicate WellFormedPrefix(s: string) {
    && (s != "" ==> Alnum(s[0]))
    && (forall i :: 0 <= i < |s| ==> Alnum(s[i]) || s[i] == '-' || s[i] == '.')
    && (forall i :: 0 < i < |s| && s[i - 1] == '.' ==> Alnum(s[i]))
    && (forall i :: 0 < i < |s| && s[i] == '.' ==> Alnum(s[i - 1]))
  }

  // Every derived name fits, a shortened one exactly; and it is a subdomain again exactly when
  // nothing was cut off, or the cut did not fall just behind a dot.
  lemma DerivedNameValidity(hash: Hash, name: string, suffix: string)
    requires Subdomain(name) && LabelEnd(suffix)
    ensures 0 < Keep(suffix)
    ensures |Suffixed(hash, name, suffix)| <= MAX_NAME_LENGTH
    ensures IsShortened(name, suffix) ==> |Suffixed(hash, name, suffix)| == MAX_NAME_LENGTH
    ensures Subdomain(Suffixed(hash, name, suffix)) <==>
            CutsCleanly(name, suffix)
  {
    hide Hex, Labels;
    SubdomainIffWellFormed(name);
    SubdomainIffWellFormed(Suffixed(hash, name, suffix));
    if IsShortened(name, suffix) {
      ShortenedIsWellFormed(name[..Keep(suffix)], hash(name), suffix);
    } else {
      AppendedIsWellFormed(name, suffix);
    }
  }

  lemma ShortenedIsWellFormed(kept: string, d: Digest, suffix: string)
    requires kept != "" && WellFormedPrefix(kept)
    requires suffix != "" && Alnum(suffix[|suffix| - 1])
    requires forall i :: 0 <= i < |suffix| ==> Alnum(suffix[i]) || suffix[i] == '-'
    ensures WellFormed(kept + "-" + Hex(d) + suffix) <==> kept[|kept| - 1] != '.'
  {
    hide Hex;
    ghost var hex := Hex(d);
    HexIsAlnum(d);
    var tail := "-" + hex + suffix;
    assert kept + "-" + hex + suffix == kept + tail;
    assert forall i :: 0 <= i < |tail| ==>
             tail[i] == if i == 0 then '-' else if i < 9 then hex[i - 1] else suffix[i - 9];
    AppendedIsWellFormed(kept, tail);
  }

  // Within the limit, and exactly at it if shortened.
  predicate Fits(derived: string, name: string, suffix: string) {
    |derived| <= MAX_NAME_LENGTH && (IsShortened(name, suffix) ==> |derived| == MAX_NAME_LENGTH)
  }

  // All five names of a policy at once.
  lemma {:induction false} NamesAreValid(hash: Hash, policy: string)
    requires Subdomain(policy)
    ensures var names := NamesFor(hash, policy);
            && (Subdomain(names.schedule) <==> CutsCleanly(policy, BACKUP))
            && (Subdomain(names.credentialsSecret) <==> CutsCleanly(policy, CREDENTIALS))
            && (Subdomain(names.repositorySecret) <==> CutsCleanly(policy, REPOSITORY))
            && names.bucketClaim == names.bucketAccess == names.schedule
            && Fits(names.schedule, policy, BACKUP)
            && Fits(names.credentialsSecret, policy, CREDENTIALS)
            && Fits(names.repositorySecret, policy, REPOSITORY)
  {
    SuffixesAreLabelEnds();
    DerivedNameValidity(hash, policy, BACKUP);
    DerivedNameValidity(hash, policy, CREDENTIALS);
    DerivedNameValidity(hash, policy, REPOSITORY);
  }

  // Whether shortening leaves the name in front of the hash without a trailing dot.
  predicate CutsCleanly(name: string, suffix: string)
    requires |suffix| < MAX_NAME_LENGTH - HASH_LENGTH
  {
    IsShortened(name, suffix) ==> name[Keep(suffix) - 1] != '.'
  }

  // There is a name like that: a policy called aa.aa.aa and so on, 247 characters long, loses its
  // tail just behind a dot, and no hash makes its claim's name one the API server accepts.
  lemma {:induction false} CutBehindADot(hash: Hash) returns (name: string)
    ensures Subdomain(name) && |name| == 247
    ensures !Subdomain(NamesFor(hash, name).bucketClaim)
  {
    hide Labels, Hex;
    name := seq(247, i => if i % 3 == 2 then '.' else 'a');
    SubdomainIffWellFormed(name);
    SuffixesAreLabelEnds();
    DerivedNameValidity(hash, name, BACKUP);
  }

  // The twin of a name that is cut cleanly is itself a name the API server accepts.
  lemma {:induction false} TwinIsValid(hash: Hash, name: string, suffix: string)
    requires Subdomain(name) && LabelEnd(suffix) && IsShortened(name, suffix)
    ensures Subdomain(Stem(hash, name, suffix)) <==> CutsCleanly(name, suffix)
  {
    hide Hex, Labels;
    SubdomainIffWellFormed(name);
    SubdomainIffWellFormed(Stem(hash, name, suffix));
    ghost var hex := Hex(hash(name));
    HexIsAlnum(hash(name));
    var tail := "-" + hex;
    assert Stem(hash, name, suffix) == name[..Keep(suffix)] + tail;
    assert forall i :: 0 <= i < |tail| ==> tail[i] == if i == 0 then '-' else hex[i - 1];
    AppendedIsWellFormed(name[..Keep(suffix)], tail);
  }
}
