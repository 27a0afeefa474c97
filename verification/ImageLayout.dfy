/**
 The descriptor graph of an OCI image layout (OCI Image Format Specification, image-layout.md and
 descriptor.md): what is reachable, what the copier visits with its `seen` set, and what the
 recursive validator of pkg/image/contract.go demands without one.
 */
module ImageLayout {
  import opened Prelude

  type Digest = string
  type Bytes = string
  type Blobs = map<Digest, Bytes>

  datatype Platform = Platform(os: string, architecture: string, variant: string)

  datatype Descriptor = Descriptor(
    mediaType: string, digest: Digest, size: int, annotations: map<string, string>, platform: Option<Platform>)

  datatype Manifest = Manifest(config: Descriptor, layers: seq<Descriptor>)

  /**
   Hashing and JSON decoding, left abstract. `matches` is the digest verifier on a well-formed
   digest. `rank` exists because no blob can contain its own digest, however deeply.
   */
  datatype Codec = Codec(
    matches: (Digest, Bytes) -> bool,
    index: Bytes -> Option<seq<Descriptor>>,
    manifest: Bytes -> Option<Manifest>,
    rank: Digest -> nat)

  datatype Kind = IndexKind | ManifestKind | LeafKind

  function KindOf(mediaType: string): Kind {
    if mediaType == "application/vnd.oci.image.index.v1+json"
       || mediaType == "application/vnd.docker.distribution.manifest.list.v2+json" then IndexKind
    else if mediaType == "application/vnd.oci.image.manifest.v1+json"
            || mediaType == "application/vnd.docker.distribution.manifest.v2+json" then ManifestKind
    else LeafKind
  }

  /** The descriptors a blob of this kind lists; None when it does not decode. */
  function Listed(c: Codec, x: Bytes, kind: Kind): Option<seq<Descriptor>> {
    match kind
    case IndexKind => c.index(x)
    case ManifestKind =>
      (match c.manifest(x)
       case None => None
       case Some(m) => Some([m.config] + m.layers))
    case LeafKind => Some([])
  }

  ghost predicate CollisionFree(c: Codec) {
    forall d, x, y :: c.matches(d, x) && c.matches(d, y) ==> x == y
  }

  ghost predicate Acyclic(c: Codec) {
    forall d, x, kind | c.matches(d, x) && Listed(c, x, kind).Some? ::
      forall e | e in Listed(c, x, kind).value :: c.rank(e.digest) < c.rank(d)
  }

  /** validateBlob: present, of the stated size, and matching the digest. */
  predicate BlobOk(c: Codec, blobs: Blobs, d: Descriptor) {
    && d.digest != ""
    && d.digest in blobs
    && |blobs[d.digest]| == d.size
    && c.matches(d.digest, blobs[d.digest])
  }

  function Children(c: Codec, blobs: Blobs, d: Descriptor): seq<Descriptor> {
    if d.digest in blobs && Listed(c, blobs[d.digest], KindOf(d.mediaType)).Some?
    then Listed(c, blobs[d.digest], KindOf(d.mediaType)).value
    else []
  }

  predicate NodeOk(c: Codec, blobs: Blobs, d: Descriptor) {
    BlobOk(c, blobs, d) && Listed(c, blobs[d.digest], KindOf(d.mediaType)).Some?
  }

  // ------------------------------------------------------------------
  // Reachability
  // ------------------------------------------------------------------

  /** Where the steps `p` lead from `root`. */
  function End(root: Descriptor, p: seq<Descriptor>): Descriptor {
    if p == [] then root else p[|p| - 1]
  }

  predicate Path(c: Codec, blobs: Blobs, root: Descriptor, p: seq<Descriptor>) {
    p != [] ==>
      var q := p[..|p| - 1];
      Path(c, blobs, root, q) && p[|p| - 1] in Children(c, blobs, End(root, q))
  }

  ghost predicate Reaches(c: Codec, blobs: Blobs, root: Descriptor, e: Descriptor) {
    exists p :: Path(c, blobs, root, p) && End(root, p) == e
  }

  lemma ReachesSelf(c: Codec, blobs: Blobs, root: Descriptor)
    ensures Reaches(c, blobs, root, root)
  {
    assert Path(c, blobs, root, []) && End(root, []) == root;
  }

  lemma ReachesChild(c: Codec, blobs: Blobs, root: Descriptor, d: Descriptor, e: Descriptor)
    requires Reaches(c, blobs, root, d) && e in Children(c, blobs, d)
    ensures Reaches(c, blobs, root, e)
  {
    var p :| Path(c, blobs, root, p) && End(root, p) == d;
    var q := p + [e];
    assert q[..|q| - 1] == p;
    assert Path(c, blobs, root, q) && End(root, q) == e;
  }

  /** A property of the root that children inherit holds of everything reachable. */
  lemma {:induction false} PathInherits(
      c: Codec, blobs: Blobs, root: Descriptor, p: seq<Descriptor>, good: Descriptor -> bool)
    requires Path(c, blobs, root, p) && good(root)
    requires forall d, e | Reaches(c, blobs, root, d) && good(d) && e in Children(c, blobs, d) :: good(e)
    ensures good(End(root, p))
  {
    if p == [] {
    } else {
      PathInherits(c, blobs, root, p[..|p| - 1], good);
    }
  }

  lemma Inherits(c: Codec, blobs: Blobs, root: Descriptor, e: Descriptor, good: Descriptor -> bool)
    requires Reaches(c, blobs, root, e) && good(root)
    requires forall d, k | Reaches(c, blobs, root, d) && good(d) && k in Children(c, blobs, d) :: good(k)
    ensures good(e)
  {
    var p :| Path(c, blobs, root, p) && End(root, p) == e;
    PathInherits(c, blobs, root, p, good);
  }

  /** Everything the copier would need below `root` is present, valid and decodable. */
  ghost predicate Closed(c: Codec, blobs: Blobs, root: Descriptor) {
    forall e | Reaches(c, blobs, root, e) :: NodeOk(c, blobs, e)
  }

  /** No digest is reachable under two kinds or two sizes. */
  ghost predicate Uniform(c: Codec, blobs: Blobs, root: Descriptor) {
    forall d, e | Reaches(c, blobs, root, d) && Reaches(c, blobs, root, e) && d.digest == e.digest ::
      KindOf(d.mediaType) == KindOf(e.mediaType) && d.size == e.size
  }

  // ------------------------------------------------------------------
  // The copier's traversal
  // ------------------------------------------------------------------

  lemma Shrinks(keys: set<Digest>, was: set<Digest>, now: set<Digest>)
    requires was <= now
    ensures |keys - now| <= |keys - was|
    ensures forall d | d in keys && d !in was && d in now :: |keys - now| < |keys - was|
  {
    SubsetSize(keys - now, keys - was);
    forall d | d in keys && d !in was && d in now ensures |keys - now| < |keys - was| {
      SubsetSize(keys - now, (keys - was) - {d});
    }
  }

  /**
   copyDescriptorGraph without I/O faults: the digests marked `seen` afterwards, or None when it
   stops with an invalid-layout error. It terminates because `seen` grows within the source.
   */
  function Visit(c: Codec, blobs: Blobs, d: Descriptor, seen: set<Digest>): (after: Option<set<Digest>>)
    ensures after.Some? ==> seen <= after.value && d.digest in after.value
    decreases |blobs.Keys - seen|, 0, 0
  {
    if d.digest == "" then None
    else if d.digest in seen then Some(seen)
    else if !NodeOk(c, blobs, d) then None
    else
      (Shrinks(blobs.Keys, seen, seen + {d.digest});
       VisitAll(c, blobs, Children(c, blobs, d), seen + {d.digest}))
  }

  function VisitAll(c: Codec, blobs: Blobs, ds: seq<Descriptor>, seen: set<Digest>): (after: Option<set<Digest>>)
    ensures after.Some? ==> seen <= after.value && forall d | d in ds :: d.digest in after.value
    decreases |blobs.Keys - seen|, 1, |ds|
  {
    if ds == [] then Some(seen)
    else
      match Visit(c, blobs, ds[0], seen)
      case None => None
      case Some(then') =>
        (Shrinks(blobs.Keys, seen, then');
         assert ds == [ds[0]] + ds[1..];
         VisitAll(c, blobs, ds[1..], then'))
  }

  /** Everything newly marked is reachable and was present and valid in the source. */
  lemma {:induction false} VisitFinds(
      c: Codec, blobs: Blobs, root: Descriptor, d: Descriptor, seen: set<Digest>, x: Digest)
    requires Reaches(c, blobs, root, d) && Visit(c, blobs, d, seen).Some?
    requires x in Visit(c, blobs, d, seen).value && x !in seen
    ensures exists e :: Reaches(c, blobs, root, e) && e.digest == x && NodeOk(c, blobs, e)
    decreases |blobs.Keys - seen|, 0, 0
  {
    if x != d.digest {
      Shrinks(blobs.Keys, seen, seen + {d.digest});
      forall e | e in Children(c, blobs, d) ensures Reaches(c, blobs, root, e) {
        ReachesChild(c, blobs, root, d, e);
      }
      VisitAllFinds(c, blobs, root, Children(c, blobs, d), seen + {d.digest}, x);
    }
  }

  lemma {:induction false} VisitAllFinds(
      c: Codec, blobs: Blobs, root: Descriptor, ds: seq<Descriptor>, seen: set<Digest>, x: Digest)
    requires forall d | d in ds :: Reaches(c, blobs, root, d)
    requires VisitAll(c, blobs, ds, seen).Some? && x in VisitAll(c, blobs, ds, seen).value && x !in seen
    ensures exists e :: Reaches(c, blobs, root, e) && e.digest == x && NodeOk(c, blobs, e)
    decreases |blobs.Keys - seen|, 1, |ds|
  {
    if ds == [] {
    } else {
      var next := Visit(c, blobs, ds[0], seen).value;
      if x in next {
        VisitFinds(c, blobs, root, ds[0], seen, x);
      } else {
        Shrinks(blobs.Keys, seen, next);
        VisitAllFinds(c, blobs, root, ds[1..], next, x);
      }
    }
  }

  /** In a uniform graph the children of every newly marked descriptor are marked. */
  ghost predicate ChildrenMarked(c: Codec, blobs: Blobs, root: Descriptor, seen: set<Digest>, after: set<Digest>) {
    forall e, k | Reaches(c, blobs, root, e) && e.digest in after && e.digest !in seen && k in Children(c, blobs, e) ::
      k.digest in after
  }

  lemma SameDigestSameChildren(c: Codec, blobs: Blobs, root: Descriptor, d: Descriptor)
    requires Uniform(c, blobs, root) && Reaches(c, blobs, root, d)
    ensures forall e | Reaches(c, blobs, root, e) && e.digest == d.digest ::
      Children(c, blobs, e) == Children(c, blobs, d)
  {
    forall e | Reaches(c, blobs, root, e) && e.digest == d.digest
      ensures Children(c, blobs, e) == Children(c, blobs, d)
    {
      assert KindOf(e.mediaType) == KindOf(d.mediaType);
    }
  }

  lemma {:induction false} VisitCloses(c: Codec, blobs: Blobs, root: Descriptor, d: Descriptor, seen: set<Digest>)
    requires Uniform(c, blobs, root) && Reaches(c, blobs, root, d) && Visit(c, blobs, d, seen).Some?
    ensures ChildrenMarked(c, blobs, root, seen, Visit(c, blobs, d, seen).value)
    decreases |blobs.Keys - seen|, 0, 0
  {
    if d.digest !in seen {
      Shrinks(blobs.Keys, seen, seen + {d.digest});
      forall e | e in Children(c, blobs, d) ensures Reaches(c, blobs, root, e) {
        ReachesChild(c, blobs, root, d, e);
      }
      VisitAllCloses(c, blobs, root, Children(c, blobs, d), seen + {d.digest});
      SameDigestSameChildren(c, blobs, root, d);
    }
  }

  lemma {:induction false} VisitAllCloses(
      c: Codec, blobs: Blobs, root: Descriptor, ds: seq<Descriptor>, seen: set<Digest>)
    requires Uniform(c, blobs, root) && (forall d | d in ds :: Reaches(c, blobs, root, d))
    requires VisitAll(c, blobs, ds, seen).Some?
    ensures ChildrenMarked(c, blobs, root, seen, VisitAll(c, blobs, ds, seen).value)
    decreases |blobs.Keys - seen|, 1, |ds|
  {
    if ds == [] {
    } else {
      var next := Visit(c, blobs, ds[0], seen).value;
      VisitCloses(c, blobs, root, ds[0], seen);
      Shrinks(blobs.Keys, seen, next);
      VisitAllCloses(c, blobs, root, ds[1..], next);
    }
  }

  /** With a fresh `seen`, a uniform graph is visited exactly: the marked digests are the reachable ones. */
  lemma VisitIsReachability(c: Codec, blobs: Blobs, root: Descriptor, x: Digest)
    requires Uniform(c, blobs, root) && Visit(c, blobs, root, {}).Some?
    ensures x in Visit(c, blobs, root, {}).value <==> exists e :: Reaches(c, blobs, root, e) && e.digest == x
  {
    var marked := Visit(c, blobs, root, {}).value;
    ReachesSelf(c, blobs, root);
    if x in marked {
      VisitFinds(c, blobs, root, root, {}, x);
    }
    VisitCloses(c, blobs, root, root, {});
    forall e | Reaches(c, blobs, root, e) ensures e.digest in marked {
      Inherits(c, blobs, root, e, (d: Descriptor) => d.digest in marked);
    }
  }

  /** In a uniform graph a successful traversal has checked every reachable descriptor. */
  lemma VisitProvesClosed(c: Codec, blobs: Blobs, root: Descriptor)
    requires Uniform(c, blobs, root) && Visit(c, blobs, root, {}).Some?
    ensures Closed(c, blobs, root)
  {
    ReachesSelf(c, blobs, root);
    forall e | Reaches(c, blobs, root, e) ensures NodeOk(c, blobs, e) {
      VisitIsReachability(c, blobs, root, e.digest);
      VisitFinds(c, blobs, root, root, {}, e.digest);
      var k :| Reaches(c, blobs, root, k) && k.digest == e.digest && NodeOk(c, blobs, k);
      assert KindOf(e.mediaType) == KindOf(k.mediaType) && e.size == k.size;
    }
  }

  /** A complete graph is always traversed to the end, uniform or not. */
  lemma {:induction false} ClosedVisits(c: Codec, blobs: Blobs, root: Descriptor, d: Descriptor, seen: set<Digest>)
    requires Closed(c, blobs, root) && Reaches(c, blobs, root, d)
    ensures Visit(c, blobs, d, seen).Some?
    decreases |blobs.Keys - seen|, 0, 0
  {
    assert NodeOk(c, blobs, d);
    if d.digest !in seen {
      Shrinks(blobs.Keys, seen, seen + {d.digest});
      forall e | e in Children(c, blobs, d) ensures Reaches(c, blobs, root, e) {
        ReachesChild(c, blobs, root, d, e);
      }
      ClosedVisitsAll(c, blobs, root, Children(c, blobs, d), seen + {d.digest});
    }
  }

  lemma {:induction false} ClosedVisitsAll(
      c: Codec, blobs: Blobs, root: Descriptor, ds: seq<Descriptor>, seen: set<Digest>)
    requires Closed(c, blobs, root) && forall d | d in ds :: Reaches(c, blobs, root, d)
    ensures VisitAll(c, blobs, ds, seen).Some?
    decreases |blobs.Keys - seen|, 1, |ds|
  {
    if ds == [] {
    } else {
      ClosedVisits(c, blobs, root, ds[0], seen);
      Shrinks(blobs.Keys, seen, Visit(c, blobs, ds[0], seen).value);
      ClosedVisitsAll(c, blobs, root, ds[1..], Visit(c, blobs, ds[0], seen).value);
    }
  }

  // ------------------------------------------------------------------
  // The same graph in two blob stores
  // ------------------------------------------------------------------

  /** A blob that matches its digest is here. */
  predicate Holds(c: Codec, blobs: Blobs, x: Digest) {
    x in blobs && c.matches(x, blobs[x])
  }

  lemma SameChildren(c: Codec, here: Blobs, there: Blobs, d: Descriptor)
    requires CollisionFree(c) && NodeOk(c, here, d) && Holds(c, there, d.digest)
    ensures NodeOk(c, there, d) && Children(c, there, d) == Children(c, here, d)
  {
    assert here[d.digest] == there[d.digest];
  }

  lemma ReachedIsOk(c: Codec, blobs: Blobs, root: Descriptor, p: seq<Descriptor>)
    requires Closed(c, blobs, root) && Path(c, blobs, root, p)
    ensures Reaches(c, blobs, root, End(root, p)) && NodeOk(c, blobs, End(root, p))
  {
  }

  lemma {:induction false} PathComesFrom(c: Codec, here: Blobs, there: Blobs, root: Descriptor, p: seq<Descriptor>)
    requires CollisionFree(c) && Closed(c, here, root) && Path(c, there, root, p)
    requires forall e | Reaches(c, here, root, e) :: Holds(c, there, e.digest)
    ensures Path(c, here, root, p) && NodeOk(c, there, End(root, p))
  {
    if p == [] {
    } else {
      var q := p[..|p| - 1];
      PathComesFrom(c, here, there, root, q);
      ReachedIsOk(c, here, root, q);
      SameChildren(c, here, there, End(root, q));
    }
    ReachedIsOk(c, here, root, p);
    SameChildren(c, here, there, End(root, p));
  }

  lemma {:induction false} PathGoesTo(c: Codec, here: Blobs, there: Blobs, root: Descriptor, p: seq<Descriptor>)
    requires CollisionFree(c) && Closed(c, here, root) && Closed(c, there, root) && Path(c, here, root, p)
    ensures Path(c, there, root, p)
  {
    if p == [] {
    } else {
      var q := p[..|p| - 1];
      PathGoesTo(c, here, there, root, q);
      assert NodeOk(c, here, End(root, q)) && NodeOk(c, there, End(root, q));
      SameChildren(c, here, there, End(root, q));
    }
  }

  /** A graph complete here is complete there exactly when every digest it reaches is held there. */
  lemma ClosedExactly(c: Codec, here: Blobs, there: Blobs, root: Descriptor)
    requires CollisionFree(c) && Closed(c, here, root)
    ensures Closed(c, there, root) <==> forall e | Reaches(c, here, root, e) :: Holds(c, there, e.digest)
  {
    if forall e | Reaches(c, here, root, e) :: Holds(c, there, e.digest) {
      forall e | Reaches(c, there, root, e) ensures NodeOk(c, there, e) {
        var p :| Path(c, there, root, p) && End(root, p) == e;
        PathComesFrom(c, here, there, root, p);
      }
    }
    if Closed(c, there, root) {
      forall e | Reaches(c, here, root, e) ensures Holds(c, there, e.digest) {
        var p :| Path(c, here, root, p) && End(root, p) == e;
        PathGoesTo(c, here, there, root, p);
        assert NodeOk(c, there, e);
      }
    }
  }

  /** No valid blob was lost. */
  ghost predicate KeepsValid(c: Codec, was: Blobs, now: Blobs) {
    forall x | Holds(c, was, x) :: Holds(c, now, x)
  }

  lemma ClosedStays(c: Codec, was: Blobs, now: Blobs, root: Descriptor)
    requires CollisionFree(c) && Closed(c, was, root) && KeepsValid(c, was, now)
    ensures Closed(c, now, root)
  {
    forall e | Reaches(c, was, root, e) ensures Holds(c, now, e.digest) {
      assert NodeOk(c, was, e) && Holds(c, was, e.digest);
    }
    ClosedExactly(c, was, now, root);
  }

  /** Two descriptors that differ only in annotations and platform lead to the same graph. */
  predicate SameTarget(d: Descriptor, e: Descriptor) {
    d.mediaType == e.mediaType && d.digest == e.digest && d.size == e.size
  }

  lemma {:induction false} Relabelled(c: Codec, blobs: Blobs, d: Descriptor, e: Descriptor, p: seq<Descriptor>)
    requires SameTarget(d, e) && Path(c, blobs, e, p)
    ensures Path(c, blobs, d, p)
  {
    if p == [] {
    } else {
      Relabelled(c, blobs, d, e, p[..|p| - 1]);
    }
  }

  lemma ClosedRelabelled(c: Codec, blobs: Blobs, d: Descriptor, e: Descriptor)
    requires SameTarget(d, e) && Closed(c, blobs, d)
    ensures Closed(c, blobs, e)
  {
    ReachesSelf(c, blobs, d);
    forall k | Reaches(c, blobs, e, k) ensures NodeOk(c, blobs, k) {
      var p :| Path(c, blobs, e, p) && End(e, p) == k;
      Relabelled(c, blobs, d, e, p);
      assert NodeOk(c, blobs, End(d, p));
    }
  }

  // ------------------------------------------------------------------
  // The recursive validator
  // ------------------------------------------------------------------

  /** validateLayoutDescriptor: an index expands its entries, a manifest checks config and layers unexpanded. */
  predicate Validated(c: Codec, blobs: Blobs, d: Descriptor, expand: bool)
    requires Acyclic(c)
    decreases c.rank(d.digest), if expand then 1 else 0
  {
    BlobOk(c, blobs, d) &&
    (expand ==>
       match KindOf(d.mediaType)
       case IndexKind =>
         var entries := Listed(c, blobs[d.digest], IndexKind);
         entries.Some? && entries.value != [] && forall e | e in entries.value :: Validated(c, blobs, e, true)
       case ManifestKind =>
         var parts := Listed(c, blobs[d.digest], ManifestKind);
         parts.Some? && forall e | e in parts.value :: Validated(c, blobs, e, false)
       case LeafKind => true)
  }

  /** ValidateLayoutContext on a layout whose metadata file is in order. */
  predicate LayoutValid(c: Codec, blobs: Blobs, index: seq<Descriptor>)
    requires Acyclic(c)
  {
    index != [] && forall d | d in index :: Validated(c, blobs, d, true)
  }

  /** The digests the validator reads below a descriptor it accepts. */
  ghost function Needs(c: Codec, blobs: Blobs, d: Descriptor, expand: bool): set<Digest>
    requires Acyclic(c) && Validated(c, blobs, d, expand)
    decreases c.rank(d.digest), if expand then 1 else 0
  {
    var below := Children(c, blobs, d);
    if expand && KindOf(d.mediaType).IndexKind? then
      {d.digest} + set e, x | e in below && x in Needs(c, blobs, e, true) :: x
    else if expand && KindOf(d.mediaType).ManifestKind? then
      {d.digest} + set e, x | e in below && x in Needs(c, blobs, e, false) :: x
    else {d.digest}
  }

  /** What the validator accepts here it accepts there exactly when every digest it reads is held there. */
  lemma {:induction false} ValidatedExactly(c: Codec, here: Blobs, there: Blobs, d: Descriptor, expand: bool)
    requires CollisionFree(c) && Acyclic(c) && Validated(c, here, d, expand)
    ensures Validated(c, there, d, expand) <==> forall x | x in Needs(c, here, d, expand) :: Holds(c, there, x)
    decreases c.rank(d.digest), if expand then 1 else 0
  {
    var kind := KindOf(d.mediaType);
    if Holds(c, there, d.digest) {
      assert there[d.digest] == here[d.digest];
    }
    if expand && kind != LeafKind {
      var below := Listed(c, here[d.digest], kind).value;
      forall e | e in below
        ensures Validated(c, there, e, kind == IndexKind) <==>
                forall x | x in Needs(c, here, e, kind == IndexKind) :: Holds(c, there, x)
      {
        ValidatedExactly(c, here, there, e, kind == IndexKind);
      }
    }
  }

  lemma ValidatedStays(c: Codec, was: Blobs, now: Blobs, d: Descriptor, expand: bool)
    requires CollisionFree(c) && Acyclic(c) && Validated(c, was, d, expand) && KeepsValid(c, was, now)
    ensures Validated(c, now, d, expand)
  {
    ValidatedExactly(c, was, was, d, expand);
    ValidatedExactly(c, was, now, d, expand);
  }

  /** The validator reads nothing that the graph does not reach. */
  lemma {:induction false} NeedsAreReached(
      c: Codec, blobs: Blobs, root: Descriptor, d: Descriptor, expand: bool, x: Digest)
    requires Acyclic(c) && Validated(c, blobs, d, expand) && Reaches(c, blobs, root, d)
    requires x in Needs(c, blobs, d, expand)
    ensures exists e :: Reaches(c, blobs, root, e) && e.digest == x
    decreases c.rank(d.digest), if expand then 1 else 0
  {
    if x != d.digest {
      var kind := KindOf(d.mediaType);
      var below := Listed(c, blobs[d.digest], kind).value;
      var e :| e in below && x in Needs(c, blobs, e, kind == IndexKind);
      ReachesChild(c, blobs, root, d, e);
      NeedsAreReached(c, blobs, root, e, kind == IndexKind, x);
    }
  }

  // ------------------------------------------------------------------
  // Where copier and validator agree, and where they do not
  // ------------------------------------------------------------------

  /** Below a manifest there are only leaves, as image configurations and layers are. */
  ghost predicate PlainManifests(c: Codec, blobs: Blobs, root: Descriptor) {
    forall d, e | Reaches(c, blobs, root, d) && KindOf(d.mediaType) == ManifestKind && e in Children(c, blobs, d) ::
      KindOf(e.mediaType) == LeafKind
  }

  /** The copier never stops on a plain graph that the validator accepts. */
  lemma ValidatedIsClosed(c: Codec, blobs: Blobs, root: Descriptor)
    requires Acyclic(c) && Validated(c, blobs, root, true) && PlainManifests(c, blobs, root)
    ensures Closed(c, blobs, root) && Visit(c, blobs, root, {}).Some?
  {
    PartsClosedSuffices(c, blobs, root);
    ReachesSelf(c, blobs, root);
    ClosedVisits(c, blobs, root, root, {});
  }

  /** In a uniform graph the copier succeeds exactly when everything reachable is there, valid and decodable. */
  lemma VisitExactly(c: Codec, blobs: Blobs, root: Descriptor)
    requires Uniform(c, blobs, root)
    ensures Visit(c, blobs, root, {}).Some? <==> Closed(c, blobs, root)
  {
    ReachesSelf(c, blobs, root);
    if Closed(c, blobs, root) {
      ClosedVisits(c, blobs, root, root, {});
    }
    if Visit(c, blobs, root, {}).Some? {
      VisitProvesClosed(c, blobs, root);
    }
  }

  /** Every descriptor that a manifest of the graph lists under an expanding media type is complete itself. */
  ghost predicate PartsClosed(c: Codec, blobs: Blobs, root: Descriptor) {
    forall d, e | Reaches(c, blobs, root, d) && KindOf(d.mediaType) == ManifestKind && e in Children(c, blobs, d) ::
      KindOf(e.mediaType) != LeafKind ==> Closed(c, blobs, e)
  }

  lemma ClosedBelow(c: Codec, blobs: Blobs, root: Descriptor, d: Descriptor)
    requires Closed(c, blobs, root) && Reaches(c, blobs, root, d)
    ensures Closed(c, blobs, d)
  {
    forall e | Reaches(c, blobs, d, e) ensures NodeOk(c, blobs, e) {
      ReachesOn(c, blobs, root, d, e);
    }
  }

  lemma ReachesOn(c: Codec, blobs: Blobs, root: Descriptor, d: Descriptor, e: Descriptor)
    requires Reaches(c, blobs, root, d) && Reaches(c, blobs, d, e)
    ensures Reaches(c, blobs, root, e)
  {
    var p :| Path(c, blobs, d, p) && End(d, p) == e;
    PathReachesOn(c, blobs, root, d, p);
  }

  lemma {:induction false} PathReachesOn(c: Codec, blobs: Blobs, root: Descriptor, d: Descriptor, p: seq<Descriptor>)
    requires Reaches(c, blobs, root, d) && Path(c, blobs, d, p)
    ensures Reaches(c, blobs, root, End(d, p))
  {
    if p == [] {
    } else {
      PathReachesOn(c, blobs, root, d, p[..|p| - 1]);
      ReachesChild(c, blobs, root, End(d, p[..|p| - 1]), End(d, p));
    }
  }

  lemma {:induction false} ValidatedOrClosed(c: Codec, blobs: Blobs, root: Descriptor, p: seq<Descriptor>)
    requires Acyclic(c) && Validated(c, blobs, root, true) && PartsClosed(c, blobs, root) && Path(c, blobs, root, p)
    ensures
      var d := End(root, p);
      Validated(c, blobs, d, KindOf(d.mediaType) != LeafKind) || Closed(c, blobs, d)
  {
    if p == [] {
    } else {
      var d, e := End(root, p[..|p| - 1]), End(root, p);
      ValidatedOrClosed(c, blobs, root, p[..|p| - 1]);
      assert Reaches(c, blobs, root, d) && e in Children(c, blobs, d);
      if Closed(c, blobs, d) {
        ReachesSelf(c, blobs, d);
        ReachesChild(c, blobs, d, d, e);
        ClosedBelow(c, blobs, d, e);
      }
    }
  }

  lemma PartsClosedSuffices(c: Codec, blobs: Blobs, root: Descriptor)
    requires Acyclic(c) && Validated(c, blobs, root, true) && PartsClosed(c, blobs, root)
    ensures Closed(c, blobs, root)
  {
    forall e | Reaches(c, blobs, root, e) ensures NodeOk(c, blobs, e) {
      var p :| Path(c, blobs, root, p) && End(root, p) == e;
      ValidatedOrClosed(c, blobs, root, p);
      ReachesSelf(c, blobs, e);
      assert Closed(c, blobs, e) || Validated(c, blobs, e, KindOf(e.mediaType) != LeafKind);
    }
  }

  lemma ClosedHasClosedParts(c: Codec, blobs: Blobs, root: Descriptor)
    requires Closed(c, blobs, root)
    ensures PartsClosed(c, blobs, root)
  {
    forall d, e | Reaches(c, blobs, root, d) && KindOf(d.mediaType) == ManifestKind && e in Children(c, blobs, d)
      ensures Closed(c, blobs, e)
    {
      ReachesChild(c, blobs, root, d, e);
      ClosedBelow(c, blobs, root, e);
    }
  }

  /** The copier accepts a validated uniform layout exactly when what its manifests list can be expanded as well. */
  lemma ValidatedVisitsExactly(c: Codec, blobs: Blobs, root: Descriptor)
    requires Acyclic(c) && Uniform(c, blobs, root) && Validated(c, blobs, root, true)
    ensures Visit(c, blobs, root, {}).Some? <==> PartsClosed(c, blobs, root)
  {
    VisitExactly(c, blobs, root);
    if PartsClosed(c, blobs, root) {
      PartsClosedSuffices(c, blobs, root);
    }
    if Closed(c, blobs, root) {
      ClosedHasClosedParts(c, blobs, root);
    }
  }

  // ------------------------------------------------------------------
  // What copying achieves
  // ------------------------------------------------------------------

  /** The destination after copying the digests `xs`: blobs that were valid there are left alone. */
  function Merged(c: Codec, there: Blobs, here: Blobs, xs: set<Digest>): Blobs {
    map x | x in there.Keys + (xs * here.Keys) ::
      if x in xs && x in here && !Holds(c, there, x) then here[x] else there[x]
  }

  lemma MergedHolds(c: Codec, there: Blobs, here: Blobs, xs: set<Digest>)
    requires HoldsAll(c, here, xs)
    ensures forall x :: Holds(c, Merged(c, there, here, xs), x) <==> x in xs || Holds(c, there, x)
  {
  }

  predicate HoldsAll(c: Codec, blobs: Blobs, xs: set<Digest>) {
    forall x | x in xs :: Holds(c, blobs, x)
  }

  lemma MarkedAreHeld(c: Codec, here: Blobs, root: Descriptor)
    requires Visit(c, here, root, {}).Some?
    ensures HoldsAll(c, here, Visit(c, here, root, {}).value)
  {
    ReachesSelf(c, here, root);
    forall x | x in Visit(c, here, root, {}).value ensures Holds(c, here, x) {
      VisitFinds(c, here, root, root, {}, x);
    }
  }

  /**
   The whole graph is there after a copy exactly when it is complete over both stores and each digest
   it reaches was visited or already there.
   */
  lemma CopyExactly(c: Codec, there: Blobs, here: Blobs, root: Descriptor)
    requires CollisionFree(c) && Visit(c, here, root, {}).Some?
    ensures
      var marked, both := Visit(c, here, root, {}).value, Merged(c, there, here, here.Keys);
      Closed(c, Merged(c, there, here, marked), root)
      <==>
      Closed(c, both, root) && forall e | Reaches(c, both, root, e) :: e.digest in marked || Holds(c, there, e.digest)
  {
    var marked, both := Visit(c, here, root, {}).value, Merged(c, there, here, here.Keys);
    var after := Merged(c, there, here, marked);
    MarkedAreHeld(c, here, root);
    MergedHolds(c, there, here, marked);
    if Closed(c, after, root) {
      ClosedStays(c, after, both, root);
    }
    if Closed(c, both, root) {
      ClosedExactly(c, both, after, root);
    }
  }

  /** The copied graph validates exactly when each digest the validator reads was visited or was already there. */
  lemma CopyValidatesExactly(c: Codec, there: Blobs, here: Blobs, root: Descriptor)
    requires CollisionFree(c) && Acyclic(c) && Validated(c, here, root, true) && Visit(c, here, root, {}).Some?
    ensures
      var marked := Visit(c, here, root, {}).value;
      Validated(c, Merged(c, there, here, marked), root, true)
      <==> forall x | x in Needs(c, here, root, true) :: x in marked || Holds(c, there, x)
  {
    var marked := Visit(c, here, root, {}).value;
    MarkedAreHeld(c, here, root);
    MergedHolds(c, there, here, marked);
    ValidatedExactly(c, here, Merged(c, there, here, marked), root, true);
  }

  /** In a uniform graph the validator reads only what the copier visits. */
  lemma NeedsAreVisited(c: Codec, here: Blobs, root: Descriptor)
    requires Acyclic(c) && Uniform(c, here, root) && Validated(c, here, root, true) && Visit(c, here, root, {}).Some?
    ensures Needs(c, here, root, true) <= Visit(c, here, root, {}).value
  {
    ReachesSelf(c, here, root);
    forall x | x in Needs(c, here, root, true) ensures x in Visit(c, here, root, {}).value {
      NeedsAreReached(c, here, root, root, true, x);
      VisitIsReachability(c, here, root, x);
    }
  }

  // ------------------------------------------------------------------
  // In the terms of media types, manifests and indexes
  // ------------------------------------------------------------------

  predicate NamesIndex(d: Descriptor) {
    || d.mediaType == "application/vnd.oci.image.index.v1+json"
    || d.mediaType == "application/vnd.docker.distribution.manifest.list.v2+json"
  }

  predicate NamesManifest(d: Descriptor) {
    || d.mediaType == "application/vnd.oci.image.manifest.v1+json"
    || d.mediaType == "application/vnd.docker.distribution.manifest.v2+json"
  }

  /** The traversal follows an index's entries, or a manifest's config and then its layers, and nothing else. */
  lemma VisitFollows(c: Codec, blobs: Blobs, d: Descriptor, seen: set<Digest>)
    requires d.digest !in seen
    ensures Visit(c, blobs, d, seen) ==
      if d.digest == "" || d.digest !in blobs || |blobs[d.digest]| != d.size || !c.matches(d.digest, blobs[d.digest])
      then None
      else if NamesIndex(d) then
        match c.index(blobs[d.digest])
        case None => None
        case Some(entries) => VisitAll(c, blobs, entries, seen + {d.digest})
      else if NamesManifest(d) then
        match c.manifest(blobs[d.digest])
        case None => None
        case Some(m) => VisitAll(c, blobs, [m.config] + m.layers, seen + {d.digest})
      else Some(seen + {d.digest})
  {
  }

  /** The validator wants the same of an index's entries, and of a manifest that its config and layers are in place. */
  lemma ValidatedWants(c: Codec, blobs: Blobs, d: Descriptor)
    requires Acyclic(c)
    ensures Validated(c, blobs, d, false) <==>
      d.digest != "" && d.digest in blobs && |blobs[d.digest]| == d.size && c.matches(d.digest, blobs[d.digest])
    ensures Validated(c, blobs, d, true) <==>
      && Validated(c, blobs, d, false)
      && (NamesIndex(d) ==>
            match c.index(blobs[d.digest])
            case None => false
            case Some(entries) => entries != [] && forall e | e in entries :: Validated(c, blobs, e, true))
      && (NamesManifest(d) ==>
            match c.manifest(blobs[d.digest])
            case None => false
            case Some(m) =>
              && Validated(c, blobs, m.config, false)
              && forall layer | layer in m.layers :: Validated(c, blobs, layer, false))
  {
    if Validated(c, blobs, d, false) && NamesManifest(d) && c.manifest(blobs[d.digest]).Some? {
      var m := c.manifest(blobs[d.digest]).value;
      assert m.config in [m.config] + m.layers;
      assert forall layer | layer in m.layers :: layer in [m.config] + m.layers;
    }
  }

  /** The descriptor's blob is here, and with it a blob for everything the descriptor lists. */
  predicate Arrived(c: Codec, blobs: Blobs, d: Descriptor) {
    match d
    case Descriptor(_, x, size, _, _) =>
      && x in blobs && |blobs[x]| == size && c.matches(x, blobs[x])
      && (NamesIndex(d) ==>
            match c.index(blobs[x])
            case None => false
            case Some(entries) => forall e | e in entries :: Holds(c, blobs, e.digest))
      && (NamesManifest(d) ==>
            match c.manifest(blobs[x])
            case None => false
            case Some(m) =>
              Holds(c, blobs, m.config.digest) && forall layer | layer in m.layers :: Holds(c, blobs, layer.digest))
  }

  lemma ChildrenArrive(c: Codec, here: Blobs, after: Blobs, d: Descriptor)
    requires CollisionFree(c) && NodeOk(c, here, d) && Holds(c, after, d.digest)
    requires forall k | k in Children(c, here, d) :: Holds(c, after, k.digest)
    ensures Arrived(c, after, d)
  {
    assert after[d.digest] == here[d.digest];
    if NamesManifest(d) {
      var m := c.manifest(here[d.digest]).value;
      assert Children(c, here, d) == [m.config] + m.layers;
      assert forall layer | layer in m.layers :: layer in Children(c, here, d);
    }
  }

  /** Whatever the graph, a successful copy brings the image itself, its config and all its layers. */
  lemma CopyArrives(c: Codec, there: Blobs, here: Blobs, root: Descriptor)
    requires CollisionFree(c) && Visit(c, here, root, {}).Some?
    ensures Arrived(c, Merged(c, there, here, Visit(c, here, root, {}).value), root)
  {
    var marked := Visit(c, here, root, {}).value;
    MarkedAreHeld(c, here, root);
    MergedHolds(c, there, here, marked);
    assert marked == VisitAll(c, here, Children(c, here, root), {} + {root.digest}).value;
    ChildrenArrive(c, here, Merged(c, there, here, marked), root);
  }

  /** In a uniform graph it brings the same for everything reachable. */
  lemma CopyArrivesEverywhere(c: Codec, there: Blobs, here: Blobs, root: Descriptor, e: Descriptor)
    requires CollisionFree(c) && Uniform(c, here, root) && Visit(c, here, root, {}).Some? && Reaches(c, here, root, e)
    ensures Arrived(c, Merged(c, there, here, Visit(c, here, root, {}).value), e)
  {
    var marked := Visit(c, here, root, {}).value;
    var after := Merged(c, there, here, marked);
    MarkedAreHeld(c, here, root);
    MergedHolds(c, there, here, marked);
    VisitProvesClosed(c, here, root);
    VisitIsReachability(c, here, root, e.digest);
    forall k | k in Children(c, here, e) ensures Holds(c, after, k.digest) {
      ReachesChild(c, here, root, e, k);
      VisitIsReachability(c, here, root, k.digest);
    }
    ChildrenArrive(c, here, after, e);
  }

  /** The sum over distinct digests of the blob lengths. */
  ghost function TotalSize(blobs: Blobs, xs: set<Digest>): nat
    requires xs <= blobs.Keys
    decreases |xs|
  {
    if xs == {} then 0
    else
      var x :| x in xs;
      |blobs[x]| + TotalSize(blobs, xs - {x})
  }

  lemma {:induction false} TotalSizeSplits(blobs: Blobs, xs: set<Digest>, x: Digest)
    requires xs <= blobs.Keys && x in xs
    ensures TotalSize(blobs, xs) == |blobs[x]| + TotalSize(blobs, xs - {x})
    decreases |xs|
  {
    var y :| y in xs && TotalSize(blobs, xs) == |blobs[y]| + TotalSize(blobs, xs - {y});
    if y != x {
      TotalSizeSplits(blobs, xs - {y}, x);
      TotalSizeSplits(blobs, xs - {x}, y);
      assert xs - {y} - {x} == xs - {x} - {y};
    }
  }

  lemma {:induction false} TotalSizeAdds(blobs: Blobs, xs: set<Digest>, ys: set<Digest>)
    requires xs <= blobs.Keys && ys <= blobs.Keys && xs !! ys
    ensures TotalSize(blobs, xs + ys) == TotalSize(blobs, xs) + TotalSize(blobs, ys)
    decreases |xs|
  {
    if xs == {} {
      assert xs + ys == ys;
    } else {
      var x :| x in xs;
      TotalSizeSplits(blobs, xs, x);
      TotalSizeSplits(blobs, xs + ys, x);
      assert xs + ys - {x} == (xs - {x}) + ys;
      TotalSizeAdds(blobs, xs - {x}, ys);
    }
  }

  // ------------------------------------------------------------------
  // Graphs on which copier and validator disagree
  // ------------------------------------------------------------------

  /** A toy codec in which every blob is its own digest. */
  function Toy(entries: seq<Descriptor>, manifest: Manifest): Codec {
    Codec.Codec(
      (d, x) => d == x,
      x => if x == "i" then Some(entries) else None,
      x => if x == "m" then Some(manifest) else None,
      d => if d == "i" then 2 else if d == "m" then 1 else 0)
  }

  function ToyDescriptor(kind: Kind, digest: Digest): Descriptor {
    Descriptor.Descriptor(
      (match kind
       case IndexKind => "application/vnd.oci.image.index.v1+json"
       case ManifestKind => "application/vnd.oci.image.manifest.v1+json"
       case LeafKind => "application/octet-stream"),
      digest, |digest|, map[], None)
  }

  lemma ToyIsSound(entries: seq<Descriptor>, manifest: Manifest)
    requires forall e | e in entries :: e.digest == "m" || e.digest == "c"
    requires forall e | e in [manifest.config] + manifest.layers :: e.digest == "c"
    ensures CollisionFree(Toy(entries, manifest)) && Acyclic(Toy(entries, manifest))
  {
  }

  /** The second descriptor of a digest is skipped, whatever it would have listed. */
  lemma LeafHidesManifest(c: Codec, here: Blobs, root: Descriptor, leaf: Descriptor, again: Descriptor)
    requires NodeOk(c, here, root) && Children(c, here, root) == [leaf, again]
    requires NodeOk(c, here, leaf) && Children(c, here, leaf) == []
    requires leaf.digest == again.digest != root.digest
    ensures Visit(c, here, root, {}) == Some({root.digest, leaf.digest})
  {
    var none: set<Digest>, first := {}, {root.digest};
    var both := {root.digest, leaf.digest};
    assert none + first == first && first + {leaf.digest} == both;
    assert VisitAll(c, here, [], both) == Some(both);
    assert Visit(c, here, leaf, first) == Some(both);
    assert Visit(c, here, again, both) == Some(both);
    assert [again][1..] == [] && [leaf, again][1..] == [again];
    assert VisitAll(c, here, [again], both) == Some(both);
    assert VisitAll(c, here, [leaf, again], first) == Some(both);
    assert Visit(c, here, root, none) == VisitAll(c, here, Children(c, here, root), none + first);
  }

  lemma MissingBelow(c: Codec, blobs: Blobs, root: Descriptor, manifest: Descriptor, config: Descriptor)
    requires Acyclic(c)
    requires KindOf(root.mediaType).IndexKind? && manifest in Children(c, blobs, root)
    requires KindOf(manifest.mediaType).ManifestKind? && config in Children(c, blobs, manifest)
    requires config.digest !in blobs
    ensures !Validated(c, blobs, root, true) && !Closed(c, blobs, root)
  {
    assert !Validated(c, blobs, config, false);
    assert !Validated(c, blobs, manifest, true);
    ReachesSelf(c, blobs, root);
    ReachesChild(c, blobs, root, root, manifest);
    ReachesChild(c, blobs, root, manifest, config);
    assert !NodeOk(c, blobs, config);
  }

  lemma ToyCopyMisses(c: Codec, here: Blobs, root: Descriptor, manifest: Descriptor, config: Descriptor)
    requires Acyclic(c)
    requires KindOf(root.mediaType).IndexKind? && manifest in Children(c, here, root)
    requires KindOf(manifest.mediaType).ManifestKind? && config in Children(c, here, manifest)
    requires config.digest != root.digest && config.digest != manifest.digest
    ensures
      var after := Merged(c, map[], here, {root.digest, manifest.digest});
      !Validated(c, after, root, true) && !Closed(c, after, root)
  {
    MissingBelow(c, Merged(c, map[], here, {root.digest, manifest.digest}), root, manifest, config);
  }

  /** The index, manifest and config of a toy image, each blob its own digest. */
  ghost predicate ToyImage(
      c: Codec, here: Blobs, root: Descriptor, leaf: Descriptor, manifest: Descriptor, config: Descriptor)
  {
    && CollisionFree(c) && Acyclic(c)
    && NodeOk(c, here, root) && KindOf(root.mediaType).IndexKind? && Children(c, here, root) == [leaf, manifest]
    && NodeOk(c, here, leaf) && KindOf(leaf.mediaType).LeafKind? && leaf.digest == manifest.digest != root.digest
    && NodeOk(c, here, manifest) && KindOf(manifest.mediaType).ManifestKind? && Children(c, here, manifest) == [config]
    && NodeOk(c, here, config) && KindOf(config.mediaType).LeafKind?
    && config.digest != root.digest && config.digest != manifest.digest
  }

  lemma ToyExists()
    returns (c: Codec, here: Blobs, root: Descriptor, leaf: Descriptor, manifest: Descriptor, config: Descriptor)
    ensures ToyImage(c, here, root, leaf, manifest, config)
  {
    leaf, manifest := ToyDescriptor(LeafKind, "m"), ToyDescriptor(ManifestKind, "m");
    config, root := ToyDescriptor(LeafKind, "c"), ToyDescriptor(IndexKind, "i");
    c := Toy([leaf, manifest], Manifest.Manifest(config, []));
    here := map["i" := "i", "m" := "m", "c" := "c"];
    ToyIsSound([leaf, manifest], Manifest.Manifest(config, []));
  }

  lemma ToyValidates(
      c: Codec, here: Blobs, root: Descriptor, leaf: Descriptor, manifest: Descriptor, config: Descriptor)
    requires ToyImage(c, here, root, leaf, manifest, config)
    ensures Validated(c, here, root, true)
  {
    assert Validated(c, here, config, false);
    assert Validated(c, here, manifest, true) && Validated(c, here, leaf, true);
  }

  /**
   `seen` holds digests only: when a manifest is listed first under an opaque media type, its own
   blobs are never copied, although the layout validates and the copy succeeds.
   */
  lemma CopierStopsShort() returns (c: Codec, here: Blobs, root: Descriptor)
    ensures CollisionFree(c) && Acyclic(c) && Validated(c, here, root, true) && Visit(c, here, root, {}).Some?
    ensures !Validated(c, Merged(c, map[], here, Visit(c, here, root, {}).value), root, true)
    ensures !Closed(c, Merged(c, map[], here, Visit(c, here, root, {}).value), root)
  {
    var leaf, manifest, config;
    c, here, root, leaf, manifest, config := ToyExists();
    ToyValidates(c, here, root, leaf, manifest, config);
    LeafHidesManifest(c, here, root, leaf, manifest);
    ToyCopyMisses(c, here, root, manifest, config);
  }

  lemma ToyManifestExists() returns (c: Codec, here: Blobs, root: Descriptor, config: Descriptor)
    ensures CollisionFree(c) && Acyclic(c) && KindOf(root.mediaType).ManifestKind?
    ensures NodeOk(c, here, root) && Children(c, here, root) == [config] && root.digest != config.digest
    ensures BlobOk(c, here, config) && !NodeOk(c, here, config)
  {
    config, root := ToyDescriptor(ManifestKind, "c"), ToyDescriptor(ManifestKind, "m");
    c := Toy([], Manifest.Manifest(config, []));
    here := map["m" := "m", "c" := "c"];
    ToyIsSound([], Manifest.Manifest(config, []));
  }

  /**
   The copier decodes a manifest's own blobs by media type, the validator does not: a layout can
   validate and still be refused by the copy.
   */
  lemma CopierIsStricter() returns (c: Codec, here: Blobs, root: Descriptor)
    ensures CollisionFree(c) && Acyclic(c) && Validated(c, here, root, true) && Visit(c, here, root, {}).None?
  {
    var config;
    c, here, root, config := ToyManifestExists();
    assert Validated(c, here, config, false);
    var none: set<Digest> := {};
    assert Visit(c, here, config, none + {root.digest}) == None;
    assert VisitAll(c, here, [config], none + {root.digest}) == None;
    assert Visit(c, here, root, none) == VisitAll(c, here, Children(c, here, root), none + {root.digest});
  }
}
