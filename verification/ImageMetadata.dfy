/**
 Names of image records: platform defaults (pkg/image/contract.go) and the record key
 (pkg/image/internal/metadata/metadata.go).
 */
module ImageMetadata {
  import opened Text
  import opened ImageLayout

  type Key = nat

  /** `host` is runtime.GOARCH; `hash` is SHA-256 as an injective function. */
  datatype Setup = Setup(codec: Codec, hash: string -> Key, host: string)

  ghost predicate SetupOk(u: Setup) {
    match u
    case Setup(codec, hash, host) =>
      && CollisionFree(codec) && Acyclic(codec)
      && (forall a, b :: hash(a) == hash(b) ==> a == b)
      && host != "" && TrimSpace(host) == host && '/' !in host
  }

  function OrDefault(value: string, default: string): string {
    var trimmed := TrimSpace(value);
    if trimmed == "" then default else trimmed
  }

  function NormalizePlatform(host: string, p: Platform): Platform {
    Platform.Platform(OrDefault(p.os, "linux"), OrDefault(p.architecture, host), TrimSpace(p.variant))
  }

  function PlatformKey(host: string, p: Platform): string {
    var n := NormalizePlatform(host, p);
    n.os + "/" + n.architecture + "/" + n.variant
  }

  function KeyOf(u: Setup, reference: string, p: Platform): Key {
    u.hash(reference + "\n" + PlatformKey(u.host, p))
  }

  lemma DefaultSettles(value: string, default: string)
    requires TrimSpace(default) == default
    ensures OrDefault(OrDefault(value, default), default) == OrDefault(value, default)
  {
    TrimSpaceTrims(value);
    TrimSpaceKeeps(TrimSpace(value));
  }

  /** Defaults are applied once: a normalized platform stays as it is. */
  lemma NormalizeSettles(host: string, p: Platform)
    requires TrimSpace(host) == host
    ensures NormalizePlatform(host, NormalizePlatform(host, p)) == NormalizePlatform(host, p)
  {
    TrimSpaceKeeps("linux");
    DefaultSettles(p.os, "linux");
    DefaultSettles(p.architecture, host);
    TrimSpaceTrims(p.variant);
    TrimSpaceKeeps(TrimSpace(p.variant));
  }

  /** Each field loses the white space around it; a blank operating system is linux, a blank architecture the host's. */
  lemma NormalizedFields(host: string, p: Platform)
    ensures
      var n := NormalizePlatform(host, p);
      && (if Blank(p.os) then n.os == "linux" else n.os != "" && Trimmed(n.os) && Middle(p.os, n.os))
      && (if Blank(p.architecture) then n.architecture == host
          else n.architecture != "" && Trimmed(n.architecture) && Middle(p.architecture, n.architecture))
      && Trimmed(n.variant) && Middle(p.variant, n.variant)
  {
    TrimSpaceTrims(p.os);
    TrimSpaceTrims(p.architecture);
    TrimSpaceTrims(p.variant);
  }

  predicate Normalized(host: string, p: Platform) {
    NormalizePlatform(host, p) == p
  }

  lemma NormalizedExactly(host: string, p: Platform)
    requires host != "" && TrimSpace(host) == host
    ensures Normalized(host, p) <==>
      p.os != "" && p.architecture != "" && Trimmed(p.os) && Trimmed(p.architecture) && Trimmed(p.variant)
  {
    TrimSpaceTrims(p.os);
    TrimSpaceTrims(p.architecture);
    TrimSpaceTrims(p.variant);
    TrimSpaceKeeps("linux");
    if p.os != "" && p.architecture != "" && Trimmed(p.os) && Trimmed(p.architecture) && Trimmed(p.variant) {
      NormalizedAlready(host, p);
    }
  }

  lemma NormalizedAlready(host: string, p: Platform)
    requires p.os != "" && p.architecture != "" && Trimmed(p.os) && Trimmed(p.architecture) && Trimmed(p.variant)
    ensures Normalized(host, p)
  {
    TrimSpaceKeeps(p.os);
    TrimSpaceKeeps(p.architecture);
    TrimSpaceKeeps(p.variant);
  }

  /** The key of a normalized platform. */
  function Joined(p: Platform): string {
    p.os + ['/'] + (p.architecture + ['/'] + p.variant)
  }

  lemma KeyOfNormalized(host: string, p: Platform)
    requires Normalized(host, p)
    ensures PlatformKey(host, p) == Joined(p)
  {
  }

  lemma KeysAgree(u: Setup, r1: string, p1: Platform, r2: string, p2: Platform)
    requires SetupOk(u) && '\n' !in r1 && '\n' !in r2 && Normalized(u.host, p1) && Normalized(u.host, p2)
    ensures KeyOf(u, r1, p1) == KeyOf(u, r2, p2) <==> r1 == r2 && Joined(p1) == Joined(p2)
  {
    KeyOfNormalized(u.host, p1);
    KeyOfNormalized(u.host, p2);
    if KeyOf(u, r1, p1) == KeyOf(u, r2, p2) {
      SplitsAt(r1, PlatformKey(u.host, p1), r2, PlatformKey(u.host, p2), '\n');
    }
  }

  /** No slash in the first two fields. */
  predicate PlainHeads(p: Platform) {
    '/' !in p.os && '/' !in p.architecture
  }

  /** Among platforms without a slash in the first two fields there is one record per (reference, platform). */
  lemma KeyNamesOneImage(u: Setup, r1: string, p1: Platform, r2: string, p2: Platform)
    requires SetupOk(u) && Canonical(u, r1, p1) && Canonical(u, r2, p2) && PlainHeads(p1) && PlainHeads(p2)
    ensures KeyOf(u, r1, p1) == KeyOf(u, r2, p2) <==> r1 == r2 && p1 == p2
  {
    KeysAgree(u, r1, p1, r2, p2);
    if Joined(p1) == Joined(p2) {
      SplitsAt(p1.os, p1.architecture + ['/'] + p1.variant, p2.os, p2.architecture + ['/'] + p2.variant, '/');
      SplitsAt(p1.architecture, p1.variant, p2.architecture, p2.variant, '/');
    }
  }

  // ------------------------------------------------------------------
  // Which platforms share a record
  // ------------------------------------------------------------------

  /** A key cut at two of its slashes. */
  function Cut(key: string, i: nat, j: nat): Platform
    requires i < j < |key|
  {
    Platform.Platform(key[..i], key[i + 1..j], key[j + 1..])
  }

  predicate CutsAt(key: string, i: nat, j: nat) {
    i < j < |key| && key[i] == '/' && key[j] == '/'
  }

  /** The only two slashes whose pieces are a normalized platform are the ones that joined `p`. */
  predicate Alone(host: string, p: Platform) {
    forall i: nat, j: nat | i < j < |Joined(p)| && CutsAt(Joined(p), i, j) && Normalized(host, Cut(Joined(p), i, j)) ::
      i == |p.os| && j == |p.os| + 1 + |p.architecture|
  }

  lemma JoinedCuts(p: Platform)
    ensures
      var key, i, j := Joined(p), |p.os|, |p.os| + 1 + |p.architecture|;
      CutsAt(key, i, j) && Cut(key, i, j) == p
  {
  }

  lemma CutJoins(key: string, i: nat, j: nat)
    requires CutsAt(key, i, j)
    ensures Joined(Cut(key, i, j)) == key
  {
    assert key == key[..i] + ['/'] + (key[i + 1..j] + ['/'] + key[j + 1..]);
  }

  /** A reference without line breaks and a platform with its defaults applied, as the store passes them. */
  predicate Canonical(u: Setup, reference: string, p: Platform) {
    '\n' !in reference && Normalized(u.host, p)
  }

  /** The record of (reference, p) is that of no other image. */
  ghost predicate OwnsRecord(u: Setup, reference: string, p: Platform) {
    forall r, q | Canonical(u, r, q) && KeyOf(u, r, q) == KeyOf(u, reference, p) :: r == reference && q == p
  }

  lemma AloneCuts(host: string, p: Platform, q: Platform, key: string)
    requires Alone(host, p) && Normalized(host, q) && key == Joined(p) == Joined(q)
    ensures |q.os| == |p.os| && |q.architecture| == |p.architecture|
  {
    var i, j := |q.os|, |q.os| + 1 + |q.architecture|;
    JoinedCuts(q);
    assert CutsAt(key, i, j) && Normalized(host, Cut(key, i, j));
  }

  lemma OneCut(host: string, p: Platform, q: Platform)
    requires Alone(host, p) && Normalized(host, q) && Joined(p) == Joined(q)
    ensures p == q
  {
    AloneCuts(host, p, q, Joined(p));
    JoinedCuts(p);
    JoinedCuts(q);
  }

  lemma AloneOwns(u: Setup, reference: string, p: Platform, r: string, q: Platform)
    requires SetupOk(u) && Canonical(u, reference, p) && Canonical(u, r, q) && Alone(u.host, p)
    ensures KeyOf(u, r, q) == KeyOf(u, reference, p) <==> r == reference && q == p
  {
    KeysAgree(u, reference, p, r, q);
    if Joined(p) == Joined(q) {
      OneCut(u.host, p, q);
    }
  }

  /** One record per (reference, platform) holds for a platform exactly when its key has no second normalized cut. */
  lemma OwnsRecordExactly(u: Setup, reference: string, p: Platform)
    requires SetupOk(u) && Canonical(u, reference, p)
    ensures OwnsRecord(u, reference, p) <==> Alone(u.host, p)
  {
    if Alone(u.host, p) {
      forall r, q | Canonical(u, r, q) && KeyOf(u, r, q) == KeyOf(u, reference, p) ensures r == reference && q == p {
        AloneOwns(u, reference, p, r, q);
      }
    }
    if OwnsRecord(u, reference, p) {
      var key := Joined(p);
      forall i: nat, j: nat | CutsAt(key, i, j) && Normalized(u.host, Cut(key, i, j))
        ensures i == |p.os| && j == |p.os| + 1 + |p.architecture|
      {
        CutJoins(key, i, j);
        KeysAgree(u, reference, p, reference, Cut(key, i, j));
        assert Cut(key, i, j) == p;
      }
    }
  }

  /** In particular no slash in any field is enough, whatever the other platform contains. */
  lemma SlashFreeIsAlone(host: string, p: Platform)
    requires '/' !in p.os && '/' !in p.architecture && '/' !in p.variant
    ensures Alone(host, p)
  {
    var key, first := Joined(p), |p.os|;
    var second := first + 1 + |p.architecture|;
    assert key == p.os + ['/'] + p.architecture + ['/'] + p.variant;
    assert '/' !in key[..first] && '/' !in key[first + 1..second] && '/' !in key[second + 1..] by {
      assert key[..first] == p.os && key[first + 1..second] == p.architecture && key[second + 1..] == p.variant;
    }
    assert forall k | 0 <= k < first :: key[k] == key[..first][k];
    assert forall k | first < k < second :: key[k] == key[first + 1..second][k - first - 1];
    assert forall k | second < k < |key| :: key[k] == key[second + 1..][k - second - 1];
  }

  /** Two platforms that share a record, the second one without a slash in its first two fields. */
  lemma SlashesCollide(u: Setup, reference: string) returns (p: Platform, q: Platform)
    ensures Normalized(u.host, p) && Normalized(u.host, q) && PlainHeads(q)
    ensures p != q && KeyOf(u, reference, p) == KeyOf(u, reference, q)
  {
    p := Platform.Platform("linux/arm", "v7", "x");
    q := Platform.Platform("linux", "arm", "v7/x");
    NormalizedAlready(u.host, p);
    NormalizedAlready(u.host, q);
    KeyOfNormalized(u.host, p);
    KeyOfNormalized(u.host, q);
    assert Joined(p) == Joined(q);
  }
}
