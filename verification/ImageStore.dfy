/**
 pkg/image/internal/store/store.go: the store object. `trace` records every durable state the
 object has gone through, so that a crash is a stop at any element of it. `Fault` decides where an I/O
 error or a cancelled context is met, which can be between any two writes.
 */
module ImageStore {
  import opened Prelude
  import opened ImageLayout
  import opened ImageMetadata
  import opened ImageCommits

  datatype Error = InvalidLayout | NotFound | Filesystem | Canceled

  /** A private temporary layout as a pull or build left it. */
  datatype Layout = Layout(blobs: Blobs, index: seq<Descriptor>)

  datatype Policy = IfMissing | Always

  // ------------------------------------------------------------------
  // Traces
  // ------------------------------------------------------------------

  ghost predicate BlobWriteAt(u: Setup, tmp: Blobs, trace: seq<Disk>, i: nat)
    requires 0 < i < |trace|
  {
    SomeBlobWrite(u, tmp, trace[i - 1], trace[i])
  }

  ghost predicate OnlyBlobWrites(u: Setup, tmp: Blobs, trace: seq<Disk>, start: nat) {
    forall i | 0 < start <= i < |trace| :: BlobWriteAt(u, tmp, trace, i)
  }

  ghost predicate BlobsExtend(u: Setup, tmp: Blobs, was: seq<Disk>, now: seq<Disk>) {
    was != [] && was <= now && OnlyBlobWrites(u, tmp, now, |was|)
  }

  ghost predicate OpWriteAt(u: Setup, op: Op, trace: seq<Disk>, i: nat)
    requires SetupOk(u) && 0 < i < |trace|
  {
    WriteOf(u, op, trace[i - 1], trace[i])
  }

  ghost predicate OnlyWritesOf(u: Setup, op: Op, trace: seq<Disk>, start: nat)
    requires SetupOk(u)
  {
    forall i | 0 < start <= i < |trace| :: OpWriteAt(u, op, trace, i)
  }

  /** Everything an operation wrote, in order. */
  ghost predicate Extends(u: Setup, op: Op, was: seq<Disk>, now: seq<Disk>)
    requires SetupOk(u)
  {
    was != [] && was <= now && OnlyWritesOf(u, op, now, |was|)
  }

  lemma BlobsExtendAgain(u: Setup, tmp: Blobs, a: seq<Disk>, b: seq<Disk>, c: seq<Disk>)
    requires BlobsExtend(u, tmp, a, b) && BlobsExtend(u, tmp, b, c)
    ensures BlobsExtend(u, tmp, a, c)
  {
    forall i | |a| <= i < |c| ensures BlobWriteAt(u, tmp, c, i) {
      if i < |b| {
        assert BlobWriteAt(u, tmp, b, i);
      }
    }
  }

  lemma BlobWritesAreOpWrites(u: Setup, op: Op, was: seq<Disk>, now: seq<Disk>)
    requires SetupOk(u) && op.Commit? && BlobsExtend(u, op.tmp, was, now)
    ensures Extends(u, op, was, now)
  {
    forall i | |was| <= i < |now| ensures OpWriteAt(u, op, now, i) {
      assert BlobWriteAt(u, op.tmp, now, i);
    }
  }

  lemma OneMore(u: Setup, op: Op, was: seq<Disk>, now: seq<Disk>, next: Disk)
    requires SetupOk(u) && Extends(u, op, was, now) && WriteOf(u, op, now[|now| - 1], next)
    ensures Extends(u, op, was, now + [next])
  {
    var all := now + [next];
    forall i | |was| <= i < |all| ensures OpWriteAt(u, op, all, i) {
      if i < |now| {
        assert OpWriteAt(u, op, now, i);
      }
    }
  }

  lemma ExtendsAgain(u: Setup, op: Op, a: seq<Disk>, b: seq<Disk>, c: seq<Disk>)
    requires SetupOk(u) && Extends(u, op, a, b) && Extends(u, op, b, c)
    ensures Extends(u, op, a, c)
  {
    forall i | |a| <= i < |c| ensures OpWriteAt(u, op, c, i) {
      if i < |b| {
        assert OpWriteAt(u, op, b, i);
      }
    }
  }

  /** A store validated onto itself writes nothing. */
  lemma NothingToCopy(u: Setup, was: seq<Disk>, now: seq<Disk>)
    requires was != [] && BlobsExtend(u, was[|was| - 1].blobs, was, now)
    ensures now == was
  {
    var n := |was|;
    assert |now| > n ==> BlobWriteAt(u, was[n - 1].blobs, now, n);
  }

  /** Wherever an operation stops, each state it went through is sound. */
  lemma {:induction false} TraceIsSound(u: Setup, op: Op, was: seq<Disk>, now: seq<Disk>, i: nat)
    requires SetupOk(u) && Plain(u, op) && Extends(u, op, was, now) && Sound(u, was[|was| - 1])
    requires |was| - 1 <= i < |now|
    ensures Sound(u, now[i])
  {
    if i >= |was| {
      TraceIsSound(u, op, was, now, i - 1);
      assert OpWriteAt(u, op, now, i);
      WriteKeepsSound(u, op, now[i - 1], now[i]);
    }
  }

  lemma MergedTwice(c: Codec, there: Blobs, here: Blobs, xs: set<Digest>, ys: set<Digest>)
    ensures Merged(c, Merged(c, there, here, xs), here, ys) == Merged(c, there, here, xs + ys)
  {
  }

  /** What a copy may have done when it stops: only blob writes, and no valid blob lost. */
  ghost predicate Advanced(u: Setup, src: Blobs, was: seq<Disk>, now: seq<Disk>) {
    match u
    case Setup(codec, _, _) =>
      && BlobsExtend(u, src, was, now)
      && KeepsValid(codec, was[|was| - 1].blobs, now[|now| - 1].blobs)
      && now[|now| - 1] == was[|was| - 1].(blobs := now[|now| - 1].blobs)
  }

  /** What a copy has done when it succeeds in marking `after`, starting from `before`. */
  ghost predicate Copied(
      u: Setup, src: Blobs, was: seq<Disk>, before: set<Digest>, now: seq<Disk>, after: set<Digest>, size: int)
  {
    match u
    case Setup(codec, _, _) =>
      && Advanced(u, src, was, now)
      && before <= after && after - before <= src.Keys
      && now[|now| - 1].blobs == Merged(codec, was[|was| - 1].blobs, src, after - before)
      && size == TotalSize(src, after - before)
  }

  lemma VisitUnfolds(c: Codec, src: Blobs, d: Descriptor, seen: set<Digest>)
    requires d.digest != "" && d.digest !in seen
    ensures Visit(c, src, d, seen) ==
      if NodeOk(c, src, d) then VisitAll(c, src, Children(c, src, d), seen + {d.digest}) else None
  {
  }

  lemma AdvancedAgain(u: Setup, src: Blobs, a: seq<Disk>, b: seq<Disk>, c: seq<Disk>)
    requires Advanced(u, src, a, b) && Advanced(u, src, b, c)
    ensures Advanced(u, src, a, c)
  {
    BlobsExtendAgain(u, src, a, b, c);
  }

  lemma CopiedNothing(u: Setup, src: Blobs, a: seq<Disk>, xs: set<Digest>)
    requires a != []
    ensures Copied(u, src, a, xs, a, xs, 0)
  {
    assert xs - xs == {};
    var blobs := a[|a| - 1].blobs;
    assert Merged(u.codec, blobs, src, {}) == blobs;
  }

  lemma CopiedAgain(
      u: Setup, src: Blobs, a: seq<Disk>, xs: set<Digest>, b: seq<Disk>, ys: set<Digest>, m: int, c: seq<Disk>,
      zs: set<Digest>, n: int)
    requires Copied(u, src, a, xs, b, ys, m) && Copied(u, src, b, ys, c, zs, n)
    ensures Copied(u, src, a, xs, c, zs, m + n)
  {
    AdvancedAgain(u, src, a, b, c);
    assert zs - xs == (ys - xs) + (zs - ys);
    MergedTwice(u.codec, a[|a| - 1].blobs, src, ys - xs, zs - ys);
    TotalSizeAdds(src, ys - xs, zs - ys);
  }

  lemma MergedOne(c: Codec, blobs: Blobs, src: Blobs, d: Descriptor)
    requires CollisionFree(c) && BlobOk(c, src, d)
    ensures Merged(c, blobs, src, {d.digest}) == if BlobOk(c, blobs, d) then blobs else blobs[d.digest := src[d.digest]]
    ensures BlobOk(c, blobs, d) <==> Holds(c, blobs, d.digest)
  {
    assert Holds(c, blobs, d.digest) ==> blobs[d.digest] == src[d.digest];
  }

  lemma BlobMayFollow(u: Setup, src: Blobs, was: seq<Disk>, d: Descriptor)
    requires was != [] && BlobOk(u.codec, src, d) && !Holds(u.codec, was[|was| - 1].blobs, d.digest)
    ensures
      var last := was[|was| - 1];
      Advanced(u, src, was, was + [last.(blobs := last.blobs[d.digest := src[d.digest]])])
  {
    var last := was[|was| - 1];
    var next := last.(blobs := last.blobs[d.digest := src[d.digest]]);
    assert BlobWrite(u, src, last, next, d.digest);
    assert BlobWriteAt(u, src, was + [next], |was|);
  }

  lemma CopiedOne(u: Setup, src: Blobs, a: seq<Disk>, xs: set<Digest>, d: Descriptor, b: seq<Disk>)
    requires Advanced(u, src, a, b) && BlobOk(u.codec, src, d) && d.digest !in xs
    requires b[|b| - 1].blobs == Merged(u.codec, a[|a| - 1].blobs, src, {d.digest})
    ensures Copied(u, src, a, xs, b, xs + {d.digest}, d.size)
  {
    assert xs + {d.digest} - xs == {d.digest};
    TotalSizeSplits(src, {d.digest}, d.digest);
    assert {d.digest} - {d.digest} == {};
  }

  /** After a successful copy from a fresh `seen` the image is there, with a blob for each descriptor it lists. */
  lemma CopiedArrives(
      u: Setup, src: Blobs, a: seq<Disk>, d: Descriptor, marked: set<Digest>, b: seq<Disk>, size: int)
    requires SetupOk(u) && Visit(u.codec, src, d, {}) == Some(marked) && Copied(u, src, a, {}, b, marked, size)
    ensures Arrived(u.codec, b[|b| - 1].blobs, d)
  {
    assert marked - {} == marked;
    CopyArrives(u.codec, a[|a| - 1].blobs, src, d);
  }

  // ------------------------------------------------------------------
  // The stages of a commit
  // ------------------------------------------------------------------

  /** Every blob of the selected graph is in place; index and records are still as at `base`. */
  ghost predicate Staged(u: Setup, op: Op, base: Disk, now: Disk, size: int)
    requires SetupOk(u)
  {
    match op
    case Remove(_, _) => false
    case Commit(tmp, _, _, _, _) =>
      && Marked(u, op).Some? && Marked(u, op).value <= tmp.Keys
      && size == TotalSize(tmp, Marked(u, op).value)
      && now == base.(blobs := Merged(u.codec, base.blobs, tmp, Marked(u, op).value))
      && KeepsValid(u.codec, base.blobs, now.blobs)
      && HoldsAll(u.codec, now.blobs, Marked(u, op).value)
  }

  /** The index entry is replaced as well. */
  ghost predicate Indexed(u: Setup, op: Op, base: Disk, now: Disk, size: int)
    requires SetupOk(u)
  {
    match op
    case Remove(_, _) => false
    case Commit(_, selected, reference, platform, _) =>
      && Staged(u, op, base, now.(index := base.index), size)
      && now.index == Replaced(base.index, selected, reference, platform)
  }

  lemma CopiedIsStaged(u: Setup, op: Op, was: seq<Disk>, base: Disk, now: seq<Disk>, last: Disk, size: int)
    requires was != [] && was[|was| - 1] == base && now != [] && now[|now| - 1] == last
    requires SetupOk(u) && op.Commit? && Marked(u, op).Some?
    requires Copied(u, op.tmp, was, {}, now, Marked(u, op).value, size)
    ensures Extends(u, op, was, now) && Staged(u, op, base, last, size)
  {
    var marked := Marked(u, op).value;
    BlobWritesAreOpWrites(u, op, was, now);
    assert marked - {} == marked;
    MarkedAreHeld(u.codec, op.tmp, op.selected);
    MergedHolds(u.codec, base.blobs, op.tmp, marked);
  }

  /** The contract of a copy, in the terms of a commit. */
  lemma CopyStages(u: Setup, op: Op, was: seq<Disk>, base: Disk, now: seq<Disk>, last: Disk, r: Result<int, Error>)
    requires was != [] && was[|was| - 1] == base && now != [] && now[|now| - 1] == last
    requires SetupOk(u) && op.Commit? && Advanced(u, op.tmp, was, now)
    requires r.Done? ==> Marked(u, op).Some? && Copied(u, op.tmp, was, {}, now, Marked(u, op).value, r.value)
    ensures Extends(u, op, was, now)
    ensures r.Done? ==> Staged(u, op, base, last, r.value)
  {
    BlobWritesAreOpWrites(u, op, was, now);
    if r.Done? {
      CopiedIsStaged(u, op, was, base, now, last, r.value);
    }
  }

  lemma IndexMayFollow(u: Setup, op: Op, base: Disk, size: int, was: seq<Disk>, next: Disk)
    requires SetupOk(u) && op.Commit? && was != [] && Staged(u, op, base, was[|was| - 1], size)
    requires Validated(u.codec, op.tmp, op.selected, true)
    requires next == was[|was| - 1].(index := Replaced(base.index, op.selected, op.reference, op.platform))
    ensures Extends(u, op, was, was + [next]) && Indexed(u, op, base, next, size)
  {
    assert IndexWrite(u, op, was[|was| - 1], next);
    OneMore(u, op, was, was, next);
  }

  /** The record a commit may write over `records`. */
  predicate NewRecord(u: Setup, records: map<Key, Image>, op: Op, size: int, image: Image)
    requires op.Commit?
  {
    && image.reference == op.reference && image.platform == op.platform && image.source == op.source
    && image.digest == op.selected.digest && image.size == size
    && KeepsCreated(records, KeyOf(u, op.reference, op.platform), image)
  }

  lemma RecordMayFollow(u: Setup, op: Op, base: Disk, size: int, was: seq<Disk>, image: Image, next: Disk)
    requires SetupOk(u) && op.Commit? && was != [] && Indexed(u, op, base, was[|was| - 1], size)
    requires NewRecord(u, was[|was| - 1].records, op, size, image)
    requires next == was[|was| - 1].(records := was[|was| - 1].records[KeyOf(u, op.reference, op.platform) := image])
    ensures Extends(u, op, was, was + [next]) && Completed(u, op, base, next)
  {
    WithoutDropsOwn(base.index, op.reference, op.platform);
    ExactAfterReplace(base.index, op.selected, op.reference, op.platform, op.reference, op.platform);
    assert RecordWrite(u, op, was[|was| - 1], next);
    OneMore(u, op, was, was, next);
  }

  /** The contract of writing the index, in the terms of a commit. */
  lemma IndexCompletes(u: Setup, op: Op, base: Disk, size: int, was: seq<Disk>, now: seq<Disk>, done: bool)
    requires SetupOk(u) && op.Commit? && was != [] && Staged(u, op, base, was[|was| - 1], size)
    requires Validated(u.codec, op.tmp, op.selected, true)
    requires
      || (now == was && !done)
      || now == was + [was[|was| - 1].(index := Replaced(base.index, op.selected, op.reference, op.platform))]
    ensures Extends(u, op, was, now)
    ensures done ==> Indexed(u, op, base, now[|now| - 1], size)
  {
    if now != was {
      IndexMayFollow(u, op, base, size, was, now[|now| - 1]);
    }
  }

  /** The contract of writing a record, in the terms of a commit. */
  lemma PutCompletes(
      u: Setup, op: Op, base: Disk, size: int, was: seq<Disk>, now: seq<Disk>, image: Image, done: bool)
    requires SetupOk(u) && op.Commit? && was != [] && Indexed(u, op, base, was[|was| - 1], size)
    requires NewRecord(u, was[|was| - 1].records, op, size, image)
    requires
      var last := was[|was| - 1];
      || (now == was && !done)
      || now == was + [last.(records := last.records[KeyOf(u, op.reference, op.platform) := image])]
    ensures Extends(u, op, was, now)
    ensures done ==> now != was && Completed(u, op, base, now[|now| - 1])
  {
    if now != was {
      RecordMayFollow(u, op, base, size, was, image, now[|now| - 1]);
    }
  }

  // ------------------------------------------------------------------
  // Index helpers
  // ------------------------------------------------------------------

  lemma {:induction false} ForPlatformIsListed(index: seq<Descriptor>, p: Platform, d: Descriptor)
    requires d in ForPlatform(index, p)
    ensures d in index
  {
    if d != index[|index| - 1] {
      ForPlatformIsListed(index[..|index| - 1], p, d);
    }
  }

  lemma SelectedIsListed(index: seq<Descriptor>, reference: string, p: Platform)
    requires Selected(index, reference, p).Some?
    ensures Selected(index, reference, p).value in index
  {
    var d := Selected(index, reference, p).value;
    if d in Exact(index, reference, p) {
      ExactIsListed(index, reference, p, d);
    } else if d in ForPlatform(index, p) {
      ForPlatformIsListed(index, p, d);
    }
  }

  method SelectDescriptor(
      index: seq<Descriptor>, reference: string, platform: Platform)
    returns (r: Result<Descriptor, Error>)
    ensures r ==
      match Selected(index, reference, platform)
      case Some(d) => Done(d)
      case None => Failed(InvalidLayout)
    ensures Chosen(index, reference, platform, if r.Done? then Some(r.value) else None)
  {
    SelectedIsChosen(index, reference, platform);
    var exact, platformOnly := [], [];
    for i := 0 to |index|
      invariant exact == Exact(index[..i], reference, platform) && platformOnly == ForPlatform(index[..i], platform)
    {
      assert index[..i + 1][..i] == index[..i];
      if Matches(index[i], platform) {
        platformOnly := platformOnly + [index[i]];
        if ReferenceOf(index[i]) == reference {
          exact := exact + [index[i]];
        }
      }
    }
    assert index[..|index|] == index;
    if |exact| == 1 {
      return Done(exact[0]);
    } else if |exact| > 1 {
      return Failed(InvalidLayout);
    } else if |platformOnly| == 1 {
      return Done(platformOnly[0]);
    } else if |index| == 1 {
      return Done(index[0]);
    }
    return Failed(InvalidLayout);
  }

  /** Compacts the slice in place; the kept prefix is the result. */
  method RemoveDescriptors(descriptors: array<Descriptor>, reference: string, platform: Platform) returns (kept: nat)
    modifies descriptors
    ensures kept <= descriptors.Length && descriptors[..kept] == Without(old(descriptors[..]), reference, platform)
  {
    ghost var all := descriptors[..];
    kept := 0;
    for i := 0 to descriptors.Length
      invariant kept <= i
      invariant forall k | i <= k < |all| :: descriptors[k] == all[k]
      invariant descriptors[..kept] == Without(all[..i], reference, platform)
    {
      var d := descriptors[i];
      assert all[..i + 1][..i] == all[..i];
      if !Superseded(d, reference, platform) {
        descriptors[kept] := d;
        kept := kept + 1;
      }
    }
    assert all[..|all|] == all;
  }

  class Seen {
    var digests: set<Digest>

    constructor ()
      ensures digests == {}
    {
      digests := {};
    }
  }

  class Store {
    const setup: Setup
    const reliable: bool
    var blobs: Blobs
    var index: seq<Descriptor>
    var records: map<Key, Image>
    ghost var trace: seq<Disk>

    ghost function Current(): Disk
      reads this
    {
      Disk(blobs, index, records)
    }

    ghost predicate Valid()
      reads this
    {
      SetupOk(setup) && trace != [] && trace[|trace| - 1] == Current()
    }

    /** Opens a store on whatever an earlier process left behind. */
    constructor (setup: Setup, disk: Disk, reliable: bool)
      requires SetupOk(setup)
      ensures Valid() && this.setup == setup && this.reliable == reliable && Current() == disk && trace == [disk]
    {
      this.setup, this.reliable := setup, reliable;
      blobs, index, records := disk.blobs, disk.index, disk.records;
      trace := [disk];
    }

    /** An I/O error or a cancelled context; never in a reliable store. */
    method Fault() returns (fault: bool)
      ensures reliable ==> !fault
    {
      fault := *;
      fault := fault && !reliable;
    }

    // ----------------------------------------------------------------
    // Blobs
    // ----------------------------------------------------------------

    method CopyBlobIfMissing(src: Blobs, d: Descriptor) returns (r: Result<(), Error>)
      requires Valid() && BlobOk(setup.codec, src, d)
      modifies this
      ensures Valid() && Advanced(setup, src, old(trace), trace)
      ensures r.Done? ==> blobs == Merged(setup.codec, old(blobs), src, {d.digest})
      ensures r.Done? ==>
        && d.digest in blobs && |blobs[d.digest]| == d.size && setup.codec.matches(d.digest, blobs[d.digest])
      ensures r.Failed? ==> r.error.Filesystem? && !reliable
    {
      var x := d.digest;
      CopiedNothing(setup, src, trace, {});
      MergedOne(setup.codec, blobs, src, d);
      var fault := Fault();
      if fault {
        return Failed(Filesystem);
      }
      if BlobOk(setup.codec, blobs, d) {
        return Done(());
      }
      blobs := blobs[x := src[x]];
      trace := trace + [Current()];
      BlobMayFollow(setup, src, old(trace), d);
      fault := Fault();
      if fault {
        return Failed(Filesystem);
      }
      return Done(());
    }

    /** One descriptor and everything below it, depth first; the result is the size of what was newly marked. */
    method CopyGraph(src: Blobs, d: Descriptor, seen: Seen) returns (r: Result<int, Error>)
      requires Valid()
      modifies this, seen
      decreases |src.Keys - seen.digests|, 0, 1
      ensures Valid() && Advanced(setup, src, old(trace), trace)
      ensures r.Done? ==> Visit(setup.codec, src, d, old(seen.digests)) == Some(seen.digests)
      ensures r.Done? ==> Copied(setup, src, old(trace), old(seen.digests), trace, seen.digests, r.value)
      ensures r == Failed(InvalidLayout) ==> Visit(setup.codec, src, d, old(seen.digests)).None?
      ensures reliable && r.Failed? ==> r.error.InvalidLayout?
      ensures r != Failed(NotFound)
    {
      CopiedNothing(setup, src, trace, seen.digests);
      var fault := Fault();
      if fault {
        return Failed(Canceled);
      }
      if d.digest == "" {
        return Failed(InvalidLayout);
      }
      if d.digest in seen.digests {
        return Done(0);
      }
      r := CopyUnseen(src, d, seen);
    }

    method DecodeBlob(content: Bytes, kind: Kind) returns (r: Result<seq<Descriptor>, Error>)
      ensures r.Done? ==> Listed(setup.codec, content, kind) == Some(r.value)
      ensures r == Failed(InvalidLayout) ==> Listed(setup.codec, content, kind).None?
      ensures reliable && r.Failed? ==> r.error.InvalidLayout?
      ensures r != Failed(NotFound)
    {
      var fault := Fault();
      if fault {
        return Failed(Filesystem);
      }
      var listed := Listed(setup.codec, content, kind);
      return if listed.Some? then Done(listed.value) else Failed(InvalidLayout);
    }

    /** Marks, validates and copies one blob. */
    method CopyOne(src: Blobs, d: Descriptor, seen: Seen) returns (r: Result<(), Error>)
      requires Valid() && d.digest !in seen.digests
      modifies this, seen
      ensures Valid() && Advanced(setup, src, old(trace), trace)
      ensures seen.digests == old(seen.digests) + {d.digest}
      ensures r.Done? ==>
        BlobOk(setup.codec, src, d) && Copied(setup, src, old(trace), old(seen.digests), trace, seen.digests, d.size)
      ensures r == Failed(InvalidLayout) ==> !BlobOk(setup.codec, src, d)
      ensures reliable && r.Failed? ==> r.error.InvalidLayout?
      ensures r != Failed(NotFound)
    {
      ghost var before := seen.digests;
      seen.digests := seen.digests + {d.digest};
      if !BlobOk(setup.codec, src, d) {
        CopiedNothing(setup, src, trace, before);
        return Failed(InvalidLayout);
      }
      r := CopyBlobIfMissing(src, d);
      if r.Done? {
        CopiedOne(setup, src, old(trace), before, d, trace);
      }
    }

    method CopyUnseen(src: Blobs, d: Descriptor, seen: Seen) returns (r: Result<int, Error>)
      requires Valid() && d.digest != "" && d.digest !in seen.digests
      modifies this, seen
      decreases |src.Keys - seen.digests|, 0, 0
      ensures Valid() && Advanced(setup, src, old(trace), trace)
      ensures r.Done? ==> Visit(setup.codec, src, d, old(seen.digests)) == Some(seen.digests)
      ensures r.Done? ==> Copied(setup, src, old(trace), old(seen.digests), trace, seen.digests, r.value)
      ensures r == Failed(InvalidLayout) ==> Visit(setup.codec, src, d, old(seen.digests)).None?
      ensures reliable && r.Failed? ==> r.error.InvalidLayout?
      ensures r != Failed(NotFound)
    {
      ghost var before := seen.digests;
      VisitUnfolds(setup.codec, src, d, before);
      var copied := CopyOne(src, d, seen);
      if copied.Failed? {
        return Failed(copied.error);
      }
      var children := DecodeBlob(src[d.digest], KindOf(d.mediaType));
      if children.Failed? {
        return Failed(children.error);
      }
      ghost var half, first := trace, seen.digests;
      Shrinks(src.Keys, before, first);
      assert children.value == Children(setup.codec, src, d);
      r := CopyAll(src, children.value, seen);
      AdvancedAgain(setup, src, old(trace), half, trace);
      if r.Done? {
        CopiedAgain(setup, src, old(trace), before, half, first, d.size, trace, seen.digests, r.value);
        r := Done(d.size + r.value);
      }
    }

    /** The loop over an index's entries, or over a manifest's config and layers. */
    method CopyAll(src: Blobs, ds: seq<Descriptor>, seen: Seen) returns (r: Result<int, Error>)
      requires Valid()
      modifies this, seen
      decreases |src.Keys - seen.digests|, 1, |ds|
      ensures Valid() && Advanced(setup, src, old(trace), trace)
      ensures r.Done? ==> VisitAll(setup.codec, src, ds, old(seen.digests)) == Some(seen.digests)
      ensures r.Done? ==> Copied(setup, src, old(trace), old(seen.digests), trace, seen.digests, r.value)
      ensures r == Failed(InvalidLayout) ==> VisitAll(setup.codec, src, ds, old(seen.digests)).None?
      ensures reliable && r.Failed? ==> r.error.InvalidLayout?
      ensures r != Failed(NotFound)
    {
      ghost var before := seen.digests;
      var total := 0;
      CopiedNothing(setup, src, trace, before);
      for i := 0 to |ds|
        invariant Valid()
        invariant VisitAll(setup.codec, src, ds, before) == VisitAll(setup.codec, src, ds[i..], seen.digests)
        invariant Copied(setup, src, old(trace), before, trace, seen.digests, total)
      {
        ghost var was, marked := trace, seen.digests;
        Shrinks(src.Keys, before, marked);
        assert ds[i..][0] == ds[i] && ds[i..][1..] == ds[i + 1..];
        var size := CopyGraph(src, ds[i], seen);
        AdvancedAgain(setup, src, old(trace), was, trace);
        if size.Failed? {
          return size;
        }
        CopiedAgain(setup, src, old(trace), before, was, marked, total, trace, seen.digests, size.value);
        total := total + size.value;
      }
      return Done(total);
    }

    // ----------------------------------------------------------------
    // Metadata records
    // ----------------------------------------------------------------

    method GetRecord(reference: string, platform: Platform) returns (r: Result<Image, Error>)
      ensures r.Done? ==> var key := KeyOf(setup, reference, platform); key in records && r.value == records[key]
      ensures r == Failed(NotFound) ==> KeyOf(setup, reference, platform) !in records
      ensures r != Failed(InvalidLayout) && (reliable && r.Failed? ==> r.error.NotFound?)
    {
      var fault := Fault();
      if fault {
        return Failed(Filesystem);
      }
      var key := KeyOf(setup, reference, platform);
      if key in records {
        return Done(records[key]);
      }
      return Failed(NotFound);
    }

    /** The rename is the write; an error may follow it. */
    method PutRecord(image: Image) returns (r: Result<(), Error>)
      requires Valid()
      modifies this
      ensures Valid() && blobs == old(blobs) && index == old(index)
      ensures
        || (trace == old(trace) && records == old(records) && r.Failed?)
        || (&& trace == old(trace) + [Current()]
            && records == old(records)[KeyOf(setup, image.reference, image.platform) := image])
      ensures r != Failed(InvalidLayout) && (reliable ==> r.Done?)
    {
      var fault := Fault();
      if fault {
        return Failed(Filesystem);
      }
      records := records[KeyOf(setup, image.reference, image.platform) := image];
      trace := trace + [Current()];
      fault := Fault();
      if fault {
        return Failed(Filesystem);
      }
      return Done(());
    }

    method DeleteRecord(reference: string, platform: Platform) returns (r: Result<(), Error>)
      requires Valid()
      modifies this
      ensures Valid() && blobs == old(blobs) && index == old(index)
      ensures
        || (&& trace == old(trace) && records == old(records)
            && (r.Done? ==> KeyOf(setup, reference, platform) !in records))
        || (trace == old(trace) + [Current()] && records == old(records) - {KeyOf(setup, reference, platform)})
      ensures reliable ==> r.Done?
    {
      var key := KeyOf(setup, reference, platform);
      var fault := Fault();
      if fault {
        return Failed(Filesystem);
      }
      if key in records {
        records := records - {key};
        trace := trace + [Current()];
        fault := Fault();
        if fault {
          return Failed(Filesystem);
        }
      }
      return Done(());
    }

    method WriteIndex(next: seq<Descriptor>) returns (r: Result<(), Error>)
      requires Valid()
      modifies this
      ensures Valid() && blobs == old(blobs) && records == old(records)
      ensures
        || (trace == old(trace) && index == old(index) && r.Failed?)
        || (trace == old(trace) + [Current()] && index == next)
      ensures r != Failed(InvalidLayout) && (reliable ==> r.Done?)
    {
      var fault := Fault();
      if fault {
        return Failed(Filesystem);
      }
      index := next;
      trace := trace + [Current()];
      fault := Fault();
      if fault {
        return Failed(Filesystem);
      }
      return Done(());
    }

    /** The index as read from disk, without the entries of one reference and platform. */
    method IndexWithout(reference: string, platform: Platform) returns (kept: seq<Descriptor>)
      ensures kept == Without(index, reference, platform)
    {
      var decoded := new Descriptor[|index|](i requires 0 <= i < |index| reads this => index[i]);
      assert decoded[..] == index;
      var n := RemoveDescriptors(decoded, reference, platform);
      kept := decoded[..n];
    }

    // ----------------------------------------------------------------
    // Operations
    // ----------------------------------------------------------------

    method Remove(reference: string, platform: Platform) returns (r: Result<(), Error>)
      requires Valid() && NormalizePlatform(setup.host, platform) == platform
      modifies this
      ensures Valid() && Extends(setup, Op.Remove(reference, platform), old(trace), trace)
      ensures r.Done? ==> Completed(setup, Op.Remove(reference, platform), old(Current()), Current())
      ensures reliable ==> r.Done?
    {
      ghost var op := Op.Remove(reference, platform);
      var deleted := DeleteRecord(reference, platform);
      if trace != old(trace) {
        OneMore(setup, op, old(trace), old(trace), Current());
      }
      if deleted.Failed? {
        return deleted;
      }
      var fault := Fault();
      if fault {
        return Failed(Filesystem);
      }
      ghost var half := trace;
      var kept := IndexWithout(reference, platform);
      r := WriteIndex(kept);
      if trace != half {
        OneMore(setup, op, old(trace), half, Current());
      }
    }

    method CopyReachable(src: Blobs, d: Descriptor) returns (r: Result<int, Error>)
      requires Valid()
      modifies this
      ensures Valid() && Advanced(setup, src, old(trace), trace)
      ensures r.Done? ==>
        var marked := Visit(setup.codec, src, d, {});
        marked.Some? && Copied(setup, src, old(trace), {}, trace, marked.value, r.value)
      ensures r == Failed(InvalidLayout) ==> Visit(setup.codec, src, d, {}).None?
      ensures reliable && r.Failed? ==> r.error.InvalidLayout?
      ensures r != Failed(NotFound)
    {
      var seen := new Seen();
      r := CopyGraph(src, d, seen);
    }

    /** copyReachableBlobs for a commit. */
    method StageBlobs(op: Op) returns (r: Result<int, Error>)
      requires Valid() && op.Commit?
      modifies this
      ensures Valid() && Extends(setup, op, old(trace), trace)
      ensures r.Done? ==> Staged(setup, op, old(Current()), Current(), r.value)
      ensures r == Failed(InvalidLayout) ==> Marked(setup, op).None?
      ensures reliable && r.Failed? ==> r.error.InvalidLayout?
    {
      r := CopyReachable(op.tmp, op.selected);
      CopyStages(setup, op, old(trace), old(Current()), trace, Current(), r);
    }

    method StageIndex(op: Op, ghost base: Disk, ghost size: int) returns (r: Result<(), Error>)
      requires Valid() && op.Commit? && Staged(setup, op, base, Current(), size)
      requires Validated(setup.codec, op.tmp, op.selected, true)
      modifies this
      ensures Valid() && Extends(setup, op, old(trace), trace)
      ensures r.Done? ==> Indexed(setup, op, base, Current(), size)
      ensures r != Failed(InvalidLayout) && (reliable ==> r.Done?)
    {
      var fault := Fault();
      if fault {
        return Failed(Filesystem);
      }
      var kept := IndexWithout(op.reference, op.platform);
      r := WriteIndex(kept + [ForCommit(op.selected, op.reference, op.platform)]);
      IndexCompletes(setup, op, base, size, old(trace), trace, r.Done?);
    }

    /** A record committed before keeps its creation time. */
    method CreatedAt(reference: string, platform: Platform, now: int) returns (r: Result<int, Error>)
      ensures r.Done? ==>
        var key := KeyOf(setup, reference, platform);
        r.value == if key in records && records[key].createdAt != 0 then records[key].createdAt else now
      ensures r.Failed? ==> r.error.Filesystem? && !reliable
    {
      var existing := GetRecord(reference, platform);
      if existing.Done? && existing.value.createdAt != 0 {
        return Done(existing.value.createdAt);
      } else if existing.Failed? && existing.error != NotFound {
        return Failed(Filesystem);
      }
      return Done(now);
    }

    /** The metadata half of a commit. */
    method StageRecord(op: Op, size: int, now: int, ghost base: Disk) returns (r: Result<Image, Error>)
      requires Valid() && op.Commit? && Indexed(setup, op, base, Current(), size)
      modifies this
      ensures Valid() && Extends(setup, op, old(trace), trace)
      ensures r.Done? ==>
        && trace != old(trace) && Completed(setup, op, base, Current())
        && r.value == records[KeyOf(setup, op.reference, op.platform)]
        && r.value.updatedAt == now
      ensures r != Failed(InvalidLayout) && (reliable ==> r.Done?)
    {
      var createdAt := CreatedAt(op.reference, op.platform, now);
      if createdAt.Failed? {
        return Failed(createdAt.error);
      }
      var image := Image.Image(op.reference, op.selected.digest, op.platform, op.source, size, createdAt.value, now);
      r := PutCommitted(op, size, image, base);
    }

    method PutCommitted(op: Op, ghost size: int, image: Image, ghost base: Disk) returns (r: Result<Image, Error>)
      requires Valid() && op.Commit? && Indexed(setup, op, base, Current(), size)
      requires NewRecord(setup, records, op, size, image)
      modifies this
      ensures Valid() && Extends(setup, op, old(trace), trace)
      ensures r.Done? ==>
        && trace != old(trace) && Completed(setup, op, base, Current())
        && r.value == records[KeyOf(setup, op.reference, op.platform)]
        && r.value == image
      ensures r != Failed(InvalidLayout) && (reliable ==> r.Done?)
    {
      var put := PutRecord(image);
      PutCompletes(setup, op, base, size, old(trace), trace, image, put.Done?);
      return if put.Done? then Done(image) else Failed(put.error);
    }

    /**
     Validates the temporary layout, copies the selected graph, replaces the index entry, then writes
     the record. It can stop after any write.
     */
    method Commit(tmp: Layout, reference: string, platform: Platform, source: Source, now: int)
      returns (r: Result<Image, Error>)
      requires Valid() && NormalizePlatform(setup.host, platform) == platform && now != 0
      modifies this
      ensures Valid()
      ensures !LayoutValid(setup.codec, tmp.blobs, tmp.index) || Selected(tmp.index, reference, platform).None? ==>
        r.Failed? && trace == old(trace)
      ensures LayoutValid(setup.codec, tmp.blobs, tmp.index) && Selected(tmp.index, reference, platform).Some? ==>
        var op := Op.Commit(tmp.blobs, Selected(tmp.index, reference, platform).value, reference, platform, source);
        && Extends(setup, op, old(trace), trace)
        && (r == Failed(InvalidLayout) ==> Marked(setup, op).None?)
        && (reliable ==> (r.Done? <==> Marked(setup, op).Some?))
        && (r.Done? ==>
              && Completed(setup, op, old(Current()), Current()) && trace != old(trace)
              && r.value == records[KeyOf(setup, reference, platform)])
        && (r.Done? ==>
              var key, was := KeyOf(setup, reference, platform), old(records);
              && r.value.reference == reference && r.value.platform == platform && r.value.source == source
              && r.value.digest == op.selected.digest && r.value.updatedAt == now
              && r.value.createdAt == if key in was && was[key].createdAt != 0 then was[key].createdAt else now)
    {
      var fault := Fault();
      if fault {
        return Failed(Canceled);
      }
      if !LayoutValid(setup.codec, tmp.blobs, tmp.index) {
        return Failed(InvalidLayout);
      }
      var selected := SelectDescriptor(tmp.index, reference, platform);
      if selected.Failed? {
        return Failed(selected.error);
      }
      SelectedIsListed(tmp.index, reference, platform);
      r := CommitSelected(Op.Commit(tmp.blobs, selected.value, reference, platform, source), now);
    }

    method CommitStaged(op: Op, size: int, now: int, ghost base: Disk) returns (r: Result<Image, Error>)
      requires Valid() && op.Commit? && Staged(setup, op, base, Current(), size)
      requires Validated(setup.codec, op.tmp, op.selected, true)
      modifies this
      ensures Valid() && Extends(setup, op, old(trace), trace)
      ensures r.Done? ==>
        && trace != old(trace) && Completed(setup, op, base, Current())
        && r.value == records[KeyOf(setup, op.reference, op.platform)]
        && r.value.updatedAt == now
      ensures r != Failed(InvalidLayout) && (reliable ==> r.Done?)
    {
      var indexed := StageIndex(op, base, size);
      if indexed.Failed? {
        return Failed(indexed.error);
      }
      ghost var half := trace;
      r := StageRecord(op, size, now, base);
      ExtendsAgain(setup, op, old(trace), half, trace);
    }

    method CommitSelected(op: Op, now: int) returns (r: Result<Image, Error>)
      requires Valid() && op.Commit? && Validated(setup.codec, op.tmp, op.selected, true)
      modifies this
      ensures Valid() && Extends(setup, op, old(trace), trace)
      ensures r == Failed(InvalidLayout) ==> Marked(setup, op).None?
      ensures reliable && r.Failed? ==> r.error.InvalidLayout?
      ensures r.Done? ==>
        && Completed(setup, op, old(Current()), Current()) && trace != old(trace)
        && r.value == records[KeyOf(setup, op.reference, op.platform)] && r.value.updatedAt == now
    {
      var size := StageBlobs(op);
      if size.Failed? {
        return Failed(size.error);
      }
      ghost var half := trace;
      r := CommitStaged(op, size.value, now, old(Current()));
      ExtendsAgain(setup, op, old(trace), half, trace);
    }

    /** The loop of validateStoredImage that finds the record's entry. */
    method FindBacking(image: Image) returns (found: Option<Descriptor>)
      ensures found == FirstBacking(index, image)
    {
      for i := 0 to |index|
        invariant FirstBacking(index, image) == FirstBacking(index[i..], image)
      {
        if Backs(index[i], image) {
          return Some(index[i]);
        }
      }
      return None;
    }

    /** A recorded image is reused only if its whole graph is in place; nothing is written. */
    method ExistingValidImage(reference: string, platform: Platform) returns (r: Result<Image, Error>)
      requires Valid()
      modifies this
      ensures Valid() && trace == old(trace) && Current() == old(Current())
      ensures r.Done? ==> Existing(setup, Current(), reference, platform) == Reused(r.value)
      ensures r == Failed(InvalidLayout) ==> Existing(setup, Current(), reference, platform) == Refused
      ensures r == Failed(NotFound) ==> Existing(setup, Current(), reference, platform) == Missing
      ensures reliable && r.Failed? ==> r.error.InvalidLayout? || r.error.NotFound?
    {
      r := GetRecord(reference, platform);
      if r.Failed? {
        return;
      }
      var fault := Fault();
      if fault {
        return Failed(Filesystem);
      }
      var entry := FindBacking(r.value);
      if entry.None? {
        return Failed(InvalidLayout);
      }
      var copied := CopyReachable(blobs, entry.value);
      NothingToCopy(setup, old(trace), trace);
      if copied.Failed? {
        return Failed(copied.error);
      }
    }

    /** The second locked section of Pull: the fetched layout is committed unless the image appeared meanwhile. */
    method CommitPulled(policy: Policy, tmp: Layout, reference: string, platform: Platform, now: int)
      returns (r: Result<Image, Error>)
      requires Valid() && NormalizePlatform(setup.host, platform) == platform && now != 0
      modifies this
      ensures Valid()
      ensures r.Done? && trace == old(trace) ==>
        policy.IfMissing? && Existing(setup, old(Current()), reference, platform) == Reused(r.value)
      ensures reliable && policy.IfMissing? && !Existing(setup, old(Current()), reference, platform).Missing? ==>
        trace == old(trace) && (r.Done? <==> Existing(setup, old(Current()), reference, platform).Reused?)
      ensures
        (&& reliable && (policy.Always? || Existing(setup, old(Current()), reference, platform).Missing?)
         && LayoutValid(setup.codec, tmp.blobs, tmp.index) && Selected(tmp.index, reference, platform).Some?) ==>
        var op := Op.Commit(tmp.blobs, Selected(tmp.index, reference, platform).value, reference, platform, Pulled);
        r.Done? <==> Marked(setup, op).Some?
      ensures r.Done? && trace != old(trace) ==>
        && LayoutValid(setup.codec, tmp.blobs, tmp.index) && Selected(tmp.index, reference, platform).Some?
        && var op := Op.Commit(tmp.blobs, Selected(tmp.index, reference, platform).value, reference, platform, Pulled);
           Completed(setup, op, old(Current()), Current()) && r.value == records[KeyOf(setup, reference, platform)]
      ensures trace != old(trace) ==>
        && Selected(tmp.index, reference, platform).Some?
        && var op := Op.Commit(tmp.blobs, Selected(tmp.index, reference, platform).value, reference, platform, Pulled);
           Extends(setup, op, old(trace), trace)
    {
      if policy.IfMissing? {
        r := ExistingValidImage(reference, platform);
        if r.Done? || r.error.InvalidLayout? {
          return;
        }
      }
      r := Commit(tmp, reference, platform, Pulled, now);
    }
  }
}
