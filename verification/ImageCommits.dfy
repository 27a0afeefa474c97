/**
 The durable side of the image store (pkg/image/internal/store/store.go): what is on disk, the
 single writes a commit and a removal issue, and what any sequence of such writes keeps, so that a
 crash or an error between any two of them is covered.
 */
module ImageCommits {
  import opened Prelude
  import opened ImageLayout
  import opened ImageMetadata

  const REF_NAME := "org.opencontainers.image.ref.name"

  datatype Source = Pulled | Built

  /** Times are nanoseconds; 0 is Go's zero time. */
  datatype Image = Image(
    reference: string, digest: Digest, platform: Platform, source: Source, size: int, createdAt: int, updatedAt: int)

  /** The shared layout's blobs and index, and the metadata directory. */
  datatype Disk = Disk(blobs: Blobs, index: seq<Descriptor>, records: map<Key, Image>)

  // ------------------------------------------------------------------
  // Index entries
  // ------------------------------------------------------------------

  function ReferenceOf(d: Descriptor): string {
    if REF_NAME in d.annotations then d.annotations[REF_NAME] else ""
  }

  predicate Matches(d: Descriptor, p: Platform) {
    d.platform == Some(p)
  }

  predicate Superseded(d: Descriptor, reference: string, p: Platform) {
    ReferenceOf(d) == reference && (d.platform.None? || Matches(d, p))
  }

  function ForPlatform(index: seq<Descriptor>, p: Platform): seq<Descriptor> {
    if index == [] then []
    else
      var d := index[|index| - 1];
      ForPlatform(index[..|index| - 1], p) + if Matches(d, p) then [d] else []
  }

  function Exact(index: seq<Descriptor>, reference: string, p: Platform): seq<Descriptor> {
    if index == [] then []
    else
      var d := index[|index| - 1];
      Exact(index[..|index| - 1], reference, p) + if Matches(d, p) && ReferenceOf(d) == reference then [d] else []
  }

  function Without(index: seq<Descriptor>, reference: string, p: Platform): seq<Descriptor> {
    if index == [] then []
    else
      var d := index[|index| - 1];
      Without(index[..|index| - 1], reference, p) + if Superseded(d, reference, p) then [] else [d]
  }

  function ForCommit(d: Descriptor, reference: string, p: Platform): Descriptor {
    d.(annotations := d.annotations[REF_NAME := reference], platform := Some(p))
  }

  function Replaced(index: seq<Descriptor>, selected: Descriptor, reference: string, p: Platform): seq<Descriptor> {
    Without(index, reference, p) + [ForCommit(selected, reference, p)]
  }

  // ------------------------------------------------------------------
  // Operations and their writes
  // ------------------------------------------------------------------

  /** A commit names the temporary layout's blobs and the descriptor selected from its index. */
  datatype Op =
    | Commit(tmp: Blobs, selected: Descriptor, reference: string, platform: Platform, source: Source)
    | Remove(reference: string, platform: Platform)

  function Marked(u: Setup, op: Op): Option<set<Digest>>
    requires op.Commit?
  {
    Visit(u.codec, op.tmp, op.selected, {})
  }

  ghost predicate ImageFits(u: Setup, op: Op, image: Image)
    requires op.Commit? && Marked(u, op).Some? && Marked(u, op).value <= op.tmp.Keys
  {
    && image.reference == op.reference && image.platform == op.platform && image.source == op.source
    && image.digest == op.selected.digest
    && image.size == TotalSize(op.tmp, Marked(u, op).value)
  }

  /** createdAt survives a new commit of the same reference and platform. */
  predicate KeepsCreated(was: map<Key, Image>, key: Key, image: Image) {
    image.createdAt == if key in was && was[key].createdAt != 0 then was[key].createdAt else image.updatedAt
  }

  predicate BlobWrite(u: Setup, tmp: Blobs, was: Disk, now: Disk, x: Digest) {
    && Holds(u.codec, tmp, x) && !Holds(u.codec, was.blobs, x)
    && now == was.(blobs := was.blobs[x := tmp[x]])
  }

  ghost predicate IndexWrite(u: Setup, op: Op, was: Disk, now: Disk)
    requires SetupOk(u) && op.Commit?
  {
    && Validated(u.codec, op.tmp, op.selected, true)
    && Marked(u, op).Some?
    && HoldsAll(u.codec, was.blobs, Marked(u, op).value)
    && now == was.(index := Replaced(was.index, op.selected, op.reference, op.platform))
  }

  ghost predicate RecordWrite(u: Setup, op: Op, was: Disk, now: Disk)
    requires op.Commit?
  {
    var key := KeyOf(u, op.reference, op.platform);
    && key in now.records
    && now == was.(records := was.records[key := now.records[key]])
    && KeepsCreated(was.records, key, now.records[key])
    && Exact(was.index, op.reference, op.platform) == [ForCommit(op.selected, op.reference, op.platform)]
    && Marked(u, op).Some? && Marked(u, op).value <= op.tmp.Keys
    && ImageFits(u, op, now.records[key])
  }

  ghost predicate SomeBlobWrite(u: Setup, tmp: Blobs, was: Disk, now: Disk) {
    exists x :: BlobWrite(u, tmp, was, now, x)
  }

  /** One durable write of an operation. */
  ghost predicate WriteOf(u: Setup, op: Op, was: Disk, now: Disk)
    requires SetupOk(u)
  {
    match op
    case Commit(tmp, _, _, _, _) =>
      SomeBlobWrite(u, tmp, was, now) || IndexWrite(u, op, was, now) || RecordWrite(u, op, was, now)
    case Remove(reference, platform) =>
      var key := KeyOf(u, reference, platform);
      || now == was.(records := was.records - {key})
      || (key !in was.records && now == was.(index := Without(was.index, reference, platform)))
  }

  /** The hypothesis on sources: no digest appears under two kinds or sizes in one image. */
  ghost predicate Plain(u: Setup, op: Op) {
    op.Commit? ==> Uniform(u.codec, op.tmp, op.selected)
  }

  // ------------------------------------------------------------------
  // Every state a crash can leave is sound
  // ------------------------------------------------------------------

  ghost predicate EntrySound(u: Setup, blobs: Blobs, d: Descriptor)
    requires SetupOk(u)
  {
    d.platform.Some? && Closed(u.codec, blobs, d) && Validated(u.codec, blobs, d, true)
  }

  /** Each index entry has its whole blob closure, passes the validator and names a platform. */
  ghost predicate Sound(u: Setup, disk: Disk)
    requires SetupOk(u)
  {
    forall d | d in disk.index :: EntrySound(u, disk.blobs, d)
  }

  /** An entry leaves exactly if it has this reference name and names this platform or none. */
  lemma {:induction false} WithoutKeeps(index: seq<Descriptor>, reference: string, p: Platform, d: Descriptor)
    ensures d in Without(index, reference, p) <==> d in index && !Superseded(d, reference, p)
    ensures
      var names := d.annotations;
      var name :=
        if "org.opencontainers.image.ref.name" in names then names["org.opencontainers.image.ref.name"] else "";
      d in Without(index, reference, p) <==>
        d in index && !(name == reference && (d.platform == None || d.platform == Some(p)))
  {
    if index == [] {
    } else {
      assert index == index[..|index| - 1] + [index[|index| - 1]];
      WithoutKeeps(index[..|index| - 1], reference, p, d);
    }
  }

  /** The other entries keep their order and their number. */
  lemma {:induction false} WithoutAppends(a: seq<Descriptor>, b: seq<Descriptor>, reference: string, p: Platform)
    ensures Without(a + b, reference, p) == Without(a, reference, p) + Without(b, reference, p)
    decreases |b|
  {
    if b == [] {
      assert a + b == a;
    } else {
      var init := b[..|b| - 1];
      assert (a + b)[..|a + b| - 1] == a + init;
      WithoutAppends(a, init, reference, p);
    }
  }

  lemma EntryStays(u: Setup, was: Blobs, now: Blobs, d: Descriptor)
    requires SetupOk(u) && EntrySound(u, was, d) && KeepsValid(u.codec, was, now)
    ensures EntrySound(u, now, d)
  {
    ClosedStays(u.codec, was, now, d);
    ValidatedStays(u.codec, was, now, d, true);
  }

  /**
   The entry a commit writes is sound exactly when the graph is complete over both stores and each
   digest that it reaches, or that the validator reads, was marked or already held.
   */
  lemma CommittedEntryExactly(u: Setup, op: Op, before: Blobs)
    requires SetupOk(u) && op.Commit? && Validated(u.codec, op.tmp, op.selected, true) && Marked(u, op).Some?
    ensures
      var marked, both := Marked(u, op).value, Merged(u.codec, before, op.tmp, op.tmp.Keys);
      EntrySound(u, Merged(u.codec, before, op.tmp, marked), ForCommit(op.selected, op.reference, op.platform))
      <==>
      && Closed(u.codec, both, op.selected)
      && (forall e | Reaches(u.codec, both, op.selected, e) :: e.digest in marked || Holds(u.codec, before, e.digest))
      && (forall x | x in Needs(u.codec, op.tmp, op.selected, true) :: x in marked || Holds(u.codec, before, x))
  {
    var after := Merged(u.codec, before, op.tmp, Marked(u, op).value);
    var entry := ForCommit(op.selected, op.reference, op.platform);
    CopyExactly(u.codec, before, op.tmp, op.selected);
    CopyValidatesExactly(u.codec, before, op.tmp, op.selected);
    if Closed(u.codec, after, entry) { ClosedRelabelled(u.codec, after, entry, op.selected); }
    if Closed(u.codec, after, op.selected) { ClosedRelabelled(u.codec, after, op.selected, entry); }
  }

  lemma IndexWriteIsSound(u: Setup, op: Op, was: Disk, now: Disk)
    requires SetupOk(u) && op.Commit? && Plain(u, op) && IndexWrite(u, op, was, now)
    ensures EntrySound(u, now.blobs, ForCommit(op.selected, op.reference, op.platform))
  {
    var c, entry := u.codec, ForCommit(op.selected, op.reference, op.platform);
    VisitProvesClosed(c, op.tmp, op.selected);
    forall e | Reaches(c, op.tmp, op.selected, e) ensures Holds(c, now.blobs, e.digest) {
      VisitIsReachability(c, op.tmp, op.selected, e.digest);
    }
    ClosedExactly(c, op.tmp, now.blobs, op.selected);
    ClosedRelabelled(c, now.blobs, op.selected, entry);
    NeedsAreVisited(c, op.tmp, op.selected);
    ValidatedExactly(c, op.tmp, now.blobs, op.selected, true);
  }

  lemma BlobWriteKeeps(u: Setup, tmp: Blobs, was: Disk, now: Disk)
    requires SomeBlobWrite(u, tmp, was, now)
    ensures KeepsValid(u.codec, was.blobs, now.blobs) && now == was.(blobs := now.blobs)
  {
    var x :| BlobWrite(u, tmp, was, now, x);
  }

  lemma WriteKeepsBlobs(u: Setup, op: Op, was: Disk, now: Disk)
    requires SetupOk(u) && WriteOf(u, op, was, now)
    ensures KeepsValid(u.codec, was.blobs, now.blobs)
  {
    if op.Commit? && SomeBlobWrite(u, op.tmp, was, now) {
      BlobWriteKeeps(u, op.tmp, was, now);
    }
  }

  /** The entry that an index write adds is complete and valid. */
  ghost predicate AddsSound(u: Setup, op: Op, was: Disk, now: Disk)
    requires SetupOk(u)
  {
    op.Commit? && IndexWrite(u, op, was, now) ==>
      EntrySound(u, now.blobs, ForCommit(op.selected, op.reference, op.platform))
  }

  lemma OldEntriesStaySound(u: Setup, op: Op, was: Disk, now: Disk, d: Descriptor)
    requires SetupOk(u) && WriteOf(u, op, was, now) && Sound(u, was) && d in now.index
    ensures EntrySound(u, now.blobs, d)
      || (op.Commit? && IndexWrite(u, op, was, now) && d == ForCommit(op.selected, op.reference, op.platform))
  {
    WithoutKeeps(was.index, op.reference, op.platform, d);
    if op.Commit? && SomeBlobWrite(u, op.tmp, was, now) {
      BlobWriteKeeps(u, op.tmp, was, now);
    }
    if d in was.index {
      WriteKeepsBlobs(u, op, was, now);
      EntryStays(u, was.blobs, now.blobs, d);
    }
  }

  /** Whatever its source, a single write keeps the store sound exactly when the entry it may add is sound. */
  lemma WriteKeepsSoundExactly(u: Setup, op: Op, was: Disk, now: Disk)
    requires SetupOk(u) && Sound(u, was) && WriteOf(u, op, was, now)
    ensures Sound(u, now) <==> AddsSound(u, op, was, now)
  {
    if AddsSound(u, op, was, now) {
      forall d | d in now.index ensures EntrySound(u, now.blobs, d) {
        OldEntriesStaySound(u, op, was, now, d);
      }
    }
    if Sound(u, now) && op.Commit? && IndexWrite(u, op, was, now) {
      assert now.index[|now.index| - 1] in now.index;
    }
  }

  lemma WriteKeepsSound(u: Setup, op: Op, was: Disk, now: Disk)
    requires SetupOk(u) && Plain(u, op) && Sound(u, was) && WriteOf(u, op, was, now)
    ensures Sound(u, now)
  {
    WriteKeepsSoundExactly(u, op, was, now);
    if op.Commit? && IndexWrite(u, op, was, now) {
      IndexWriteIsSound(u, op, was, now);
    }
  }

  ghost predicate WriteAt(u: Setup, ops: seq<Op>, ds: seq<Disk>, i: nat)
    requires SetupOk(u) && i < |ops| && |ds| == |ops| + 1
  {
    WriteOf(u, ops[i], ds[i], ds[i + 1])
  }

  /** Single writes of any operations, in any order, each possibly the last before a crash. */
  ghost predicate Writes(u: Setup, ops: seq<Op>, ds: seq<Disk>)
    requires SetupOk(u)
  {
    |ds| == |ops| + 1 && forall i | 0 <= i < |ops| :: WriteAt(u, ops, ds, i)
  }

  ghost predicate AllPlain(u: Setup, ops: seq<Op>) {
    forall i | 0 <= i < |ops| :: Plain(u, ops[i])
  }

  /** From a sound store, nothing that stops between two writes leaves an index entry without its blobs. */
  lemma {:induction false} EveryStateIsSound(u: Setup, ops: seq<Op>, ds: seq<Disk>, i: nat)
    requires SetupOk(u) && Writes(u, ops, ds) && AllPlain(u, ops) && Sound(u, ds[0]) && i < |ds|
    ensures Sound(u, ds[i])
  {
    if i == 0 {
    } else {
      EveryStateIsSound(u, ops, ds, i - 1);
      assert WriteAt(u, ops, ds, i - 1) && Plain(u, ops[i - 1]);
      WriteKeepsSound(u, ops[i - 1], ds[i - 1], ds[i]);
    }
  }

  lemma SoundEntryStep(u: Setup, ops: seq<Op>, ds: seq<Disk>, j: nat, d: Descriptor)
    requires SetupOk(u) && Writes(u, ops, ds) && 0 < j < |ds| && EntrySound(u, ds[j - 1].blobs, d)
    ensures EntrySound(u, ds[j].blobs, d)
  {
    assert WriteAt(u, ops, ds, j - 1);
    WriteKeepsBlobs(u, ops[j - 1], ds[j - 1], ds[j]);
    EntryStays(u, ds[j - 1].blobs, ds[j].blobs, d);
  }

  /** Whatever the sources, an entry that was ever sound stays sound through every later write. */
  lemma {:induction false} SoundEntriesStay(u: Setup, ops: seq<Op>, ds: seq<Disk>, i: nat, j: nat, d: Descriptor)
    requires SetupOk(u) && Writes(u, ops, ds) && i <= j < |ds| && EntrySound(u, ds[i].blobs, d)
    ensures EntrySound(u, ds[j].blobs, d)
    decreases j - i
  {
    if i == j {
    } else {
      SoundEntriesStay(u, ops, ds, i, j - 1, d);
      SoundEntryStep(u, ops, ds, j, d);
    }
  }

  ghost predicate SoundAt(u: Setup, ds: seq<Disk>, k: nat)
    requires SetupOk(u) && k < |ds|
  {
    Sound(u, ds[k])
  }

  ghost predicate AddsSoundAt(u: Setup, ops: seq<Op>, ds: seq<Disk>, k: nat)
    requires SetupOk(u) && 0 < k < |ds| && |ds| == |ops| + 1
  {
    AddsSound(u, ops[k - 1], ds[k - 1], ds[k])
  }

  lemma StepSoundExactly(u: Setup, ops: seq<Op>, ds: seq<Disk>, k: nat)
    requires SetupOk(u) && Writes(u, ops, ds) && 0 < k < |ds| && SoundAt(u, ds, k - 1)
    ensures SoundAt(u, ds, k) <==> AddsSoundAt(u, ops, ds, k)
  {
    assert WriteAt(u, ops, ds, k - 1);
    WriteKeepsSoundExactly(u, ops[k - 1], ds[k - 1], ds[k]);
  }

  /** The states of any writes are all sound up to `n` exactly when each index write until then added a sound entry. */
  lemma EveryStateIsSoundExactly(u: Setup, ops: seq<Op>, ds: seq<Disk>, n: nat)
    requires SetupOk(u) && Writes(u, ops, ds) && SoundAt(u, ds, 0) && n < |ds|
    ensures (forall k | 0 <= k <= n :: SoundAt(u, ds, k)) <==> forall k | 0 < k <= n :: AddsSoundAt(u, ops, ds, k)
  {
    var good := seq(|ds|, k requires 0 <= k < |ds| => SoundAt(u, ds, k));
    var step := seq(|ds|, k requires 0 <= k < |ds| => k > 0 && AddsSoundAt(u, ops, ds, k));
    forall k | 0 < k <= n && good[k - 1] ensures good[k] == step[k] {
      StepSoundExactly(u, ops, ds, k);
    }
    ThroughoutExactly(good, step, n);
    assert forall k | 0 <= k <= n :: good[k] == SoundAt(u, ds, k);
    assert forall k | 0 < k <= n :: step[k] == AddsSoundAt(u, ops, ds, k);
  }

  /** In particular the shared layout passes the full validation whenever it lists anything. */
  lemma SharedLayoutValidates(u: Setup, ops: seq<Op>, ds: seq<Disk>, i: nat)
    requires SetupOk(u) && Writes(u, ops, ds) && AllPlain(u, ops) && Sound(u, ds[0]) && i < |ds|
    ensures LayoutValid(u.codec, ds[i].blobs, ds[i].index) <==> ds[i].index != []
  {
    EveryStateIsSound(u, ops, ds, i);
    forall d | d in ds[i].index ensures Validated(u.codec, ds[i].blobs, d, true) {
      assert EntrySound(u, ds[i].blobs, d);
    }
  }

  // ------------------------------------------------------------------
  // Records and index entries
  // ------------------------------------------------------------------

  /** One record and one entry with the same digest, or neither. */
  predicate Agrees(u: Setup, disk: Disk, reference: string, p: Platform) {
    var entries, key := Exact(disk.index, reference, p), KeyOf(u, reference, p);
    if key in disk.records then
      && |entries| == 1
      && entries[0].digest == disk.records[key].digest
      && disk.records[key].reference == reference && disk.records[key].platform == p
    else entries == []
  }

  /** A key whose record no other platform can reach. */
  predicate Named(u: Setup, reference: string, p: Platform) {
    Canonical(u, reference, p) && Alone(u.host, p)
  }

  ghost predicate AllAgree(u: Setup, disk: Disk) {
    match disk
    case Disk(_, _, _) =>
      forall reference, p | Named(u, reference, p) :: Agrees(u, disk, reference, p)
  }

  /** The whole effect of an operation that returned without error. */
  ghost predicate Completed(u: Setup, op: Op, was: Disk, now: Disk) {
    match op
    case Commit(tmp, selected, reference, platform, source) =>
      && Marked(u, op).Some? && Marked(u, op).value <= tmp.Keys
      && now.blobs == Merged(u.codec, was.blobs, tmp, Marked(u, op).value)
      && KeepsValid(u.codec, was.blobs, now.blobs)
      && now.index == Replaced(was.index, selected, reference, platform)
      && HoldsAll(u.codec, now.blobs, Marked(u, op).value)
      && var key := KeyOf(u, reference, platform);
         && key in now.records && now.records == was.records[key := now.records[key]]
         && KeepsCreated(was.records, key, now.records[key]) && ImageFits(u, op, now.records[key])
    case Remove(reference, platform) =>
      && now.blobs == was.blobs
      && now.index == Without(was.index, reference, platform)
      && now.records == was.records - {KeyOf(u, reference, platform)}
  }

  /** The effect of an operation that failed or crashed before its first index or record write. */
  ghost predicate Stopped(u: Setup, was: Disk, now: Disk) {
    KeepsValid(u.codec, was.blobs, now.blobs) && now == was.(blobs := now.blobs)
  }

  /** A completed commit of a validated layout leaves a sound store sound exactly under the condition on its entry. */
  lemma CompletedIsSoundExactly(u: Setup, op: Op, was: Disk, now: Disk)
    requires SetupOk(u) && op.Commit? && Completed(u, op, was, now) && Sound(u, was)
    requires Validated(u.codec, op.tmp, op.selected, true)
    ensures
      var marked, both := Marked(u, op).value, Merged(u.codec, was.blobs, op.tmp, op.tmp.Keys);
      Sound(u, now)
      <==>
      && Closed(u.codec, both, op.selected)
      && (forall e | Reaches(u.codec, both, op.selected, e) ::
            e.digest in marked || Holds(u.codec, was.blobs, e.digest))
      && (forall x | x in Needs(u.codec, op.tmp, op.selected, true) :: x in marked || Holds(u.codec, was.blobs, x))
  {
    var entry := ForCommit(op.selected, op.reference, op.platform);
    CommittedEntryExactly(u, op, was.blobs);
    CompletedSoundWithEntry(u, op, was, now);
    assert EntrySound(u, now.blobs, entry) <==> Sound(u, now);
  }

  lemma CompletedSoundWithEntry(u: Setup, op: Op, was: Disk, now: Disk)
    requires SetupOk(u) && op.Commit? && Completed(u, op, was, now) && Sound(u, was)
    ensures Sound(u, now) <==> EntrySound(u, now.blobs, ForCommit(op.selected, op.reference, op.platform))
  {
    var entry := ForCommit(op.selected, op.reference, op.platform);
    assert now.index[|now.index| - 1] == entry && entry in now.index;
    forall d | d in now.index && d != entry ensures EntrySound(u, now.blobs, d) {
      WithoutKeeps(was.index, op.reference, op.platform, d);
      EntryStays(u, was.blobs, now.blobs, d);
    }
  }

  lemma {:induction false} WithoutDropsOwn(index: seq<Descriptor>, reference: string, p: Platform)
    ensures Exact(Without(index, reference, p), reference, p) == []
  {
    if index == [] {
    } else {
      var rest := Without(index[..|index| - 1], reference, p);
      WithoutDropsOwn(index[..|index| - 1], reference, p);
      assert rest + [] == rest && (rest + [index[|index| - 1]])[..|rest|] == rest;
    }
  }

  lemma {:induction false} WithoutKeepsOthers(
      index: seq<Descriptor>, reference: string, p: Platform, r: string, q: Platform)
    requires r != reference || q != p
    ensures Exact(Without(index, reference, p), r, q) == Exact(index, r, q)
  {
    if index == [] {
    } else {
      var d, rest := index[|index| - 1], Without(index[..|index| - 1], reference, p);
      WithoutKeepsOthers(index[..|index| - 1], reference, p, r, q);
      assert rest + [] == rest && (rest + [d])[..|rest|] == rest;
    }
  }

  lemma ExactAfterReplace(
      index: seq<Descriptor>, selected: Descriptor, reference: string, p: Platform, r: string, q: Platform)
    ensures
      var entry, rest := ForCommit(selected, reference, p), Without(index, reference, p);
      Exact(Replaced(index, selected, reference, p), r, q) ==
      Exact(rest, r, q) + if r == reference && q == p then [entry] else []
  {
    var rest, entry := Without(index, reference, p), ForCommit(selected, reference, p);
    assert (rest + [entry])[..|rest|] == rest;
  }

  /** From any state, whatever a crash left behind, a completed operation makes its own key agree. */
  lemma CompletedRestores(u: Setup, op: Op, was: Disk, now: Disk)
    requires Completed(u, op, was, now)
    ensures Agrees(u, now, op.reference, op.platform)
  {
    WithoutDropsOwn(was.index, op.reference, op.platform);
    if op.Commit? {
      ExactAfterReplace(was.index, op.selected, op.reference, op.platform, op.reference, op.platform);
    }
  }

  /**
   Another image's agreement survives a completed operation exactly when the operation used another
   record, or removed a record that was not there.
   */
  lemma CompletedSparesExactly(u: Setup, op: Op, was: Disk, now: Disk, reference: string, p: Platform)
    requires Completed(u, op, was, now) && Agrees(u, was, reference, p)
    requires reference != op.reference || p != op.platform
    ensures Agrees(u, now, reference, p) <==>
      || KeyOf(u, op.reference, op.platform) != KeyOf(u, reference, p)
      || (op.Remove? && KeyOf(u, reference, p) !in was.records)
  {
    WithoutKeepsOthers(was.index, op.reference, op.platform, reference, p);
    if op.Commit? {
      ExactAfterReplace(was.index, op.selected, op.reference, op.platform, reference, p);
    }
  }

  /** An image that has its record to itself is spared by every completed operation of another one. */
  lemma CompletedSparesOthers(u: Setup, op: Op, was: Disk, now: Disk, reference: string, p: Platform)
    requires SetupOk(u) && Completed(u, op, was, now) && Agrees(u, was, reference, p)
    requires Canonical(u, op.reference, op.platform) && Named(u, reference, p)
    requires reference != op.reference || p != op.platform
    ensures Agrees(u, now, reference, p)
  {
    AloneOwns(u, reference, p, op.reference, op.platform);
    CompletedSparesExactly(u, op, was, now, reference, p);
  }

  /** After a commit of one of the colliding platforms the other one's record and entries disagree. */
  lemma CollidingCommitBreaks(u: Setup, op: Op, was: Disk, now: Disk) returns (p: Platform, q: Platform)
    requires op.Commit? && Completed(u, op, was, now)
    ensures Normalized(u.host, p) && Normalized(u.host, q)
    ensures op.platform == p ==> !Agrees(u, now, op.reference, q)
  {
    p, q := SlashesCollide(u, op.reference);
  }

  ghost predicate CleanOutcome(u: Setup, op: Op, was: Disk, now: Disk) {
    Completed(u, op, was, now) || Stopped(u, was, now)
  }

  predicate IsFor(op: Op, reference: string, p: Platform) {
    op.reference == reference && op.platform == p
  }

  /** The operation stopped early, is for this image, uses another record, or removes a record that is not there. */
  ghost predicate Spares(u: Setup, op: Op, was: Disk, now: Disk, reference: string, p: Platform) {
    || Stopped(u, was, now)
    || IsFor(op, reference, p)
    || KeyOf(u, op.reference, op.platform) != KeyOf(u, reference, p)
    || (op.Remove? && KeyOf(u, reference, p) !in was.records)
  }

  lemma OutcomeSparesExactly(u: Setup, op: Op, was: Disk, now: Disk, reference: string, p: Platform)
    requires CleanOutcome(u, op, was, now) && Agrees(u, was, reference, p)
    ensures Agrees(u, now, reference, p) <==> Spares(u, op, was, now, reference, p)
  {
    if !Stopped(u, was, now) {
      if IsFor(op, reference, p) {
        CompletedRestores(u, op, was, now);
      } else {
        CompletedSparesExactly(u, op, was, now, reference, p);
      }
    }
  }

  ghost predicate CleanAt(u: Setup, ops: seq<Op>, ds: seq<Disk>, k: nat)
    requires 0 < k < |ds| && |ds| == |ops| + 1
  {
    CleanOutcome(u, ops[k - 1], ds[k - 1], ds[k])
  }

  /** Operations that each completed or stopped before their first index or record write. */
  ghost predicate CleanHistory(u: Setup, ops: seq<Op>, ds: seq<Disk>) {
    |ds| == |ops| + 1 && forall k | 0 < k < |ds| :: CleanAt(u, ops, ds, k)
  }

  predicate AgreesAt(u: Setup, ds: seq<Disk>, k: nat, reference: string, p: Platform)
    requires k < |ds|
  {
    Agrees(u, ds[k], reference, p)
  }

  ghost predicate SparesAt(u: Setup, ops: seq<Op>, ds: seq<Disk>, k: nat, reference: string, p: Platform)
    requires 0 < k < |ds| && |ds| == |ops| + 1
  {
    Spares(u, ops[k - 1], ds[k - 1], ds[k], reference, p)
  }

  lemma StepSparesExactly(u: Setup, ops: seq<Op>, ds: seq<Disk>, k: nat, reference: string, p: Platform)
    requires CleanHistory(u, ops, ds) && 0 < k < |ds| && AgreesAt(u, ds, k - 1, reference, p)
    ensures AgreesAt(u, ds, k, reference, p) <==> SparesAt(u, ops, ds, k, reference, p)
  {
    assert CleanAt(u, ops, ds, k);
    OutcomeSparesExactly(u, ops[k - 1], ds[k - 1], ds[k], reference, p);
  }

  /** An image agrees throughout a history exactly when no operation of another image took its record. */
  lemma AgreesThroughoutExactly(
      u: Setup, ops: seq<Op>, ds: seq<Disk>, n: nat, reference: string, p: Platform)
    requires CleanHistory(u, ops, ds) && n < |ds| && AgreesAt(u, ds, 0, reference, p)
    ensures (forall k | 0 <= k <= n :: AgreesAt(u, ds, k, reference, p))
      <==> forall k | 0 < k <= n :: SparesAt(u, ops, ds, k, reference, p)
  {
    var good := seq(|ds|, k requires 0 <= k < |ds| => AgreesAt(u, ds, k, reference, p));
    var step := seq(|ds|, k requires 0 <= k < |ds| => k > 0 && SparesAt(u, ops, ds, k, reference, p));
    forall k | 0 < k <= n && good[k - 1] ensures good[k] == step[k] {
      StepSparesExactly(u, ops, ds, k, reference, p);
    }
    ThroughoutExactly(good, step, n);
    forall k | 0 <= k <= n ensures good[k] == AgreesAt(u, ds, k, reference, p) {}
    forall k | 0 < k <= n ensures step[k] == SparesAt(u, ops, ds, k, reference, p) {}
  }

  /** The record of this image is no other image's. */
  predicate KeepsOffKey(u: Setup, op: Op, reference: string, p: Platform) {
    KeyOf(u, op.reference, op.platform) == KeyOf(u, reference, p) ==> IsFor(op, reference, p)
  }

  /** So it agrees whenever every operation of the history that uses its record is for this image. */
  lemma OwnHistoriesAgree(u: Setup, ops: seq<Op>, ds: seq<Disk>, i: nat, reference: string, p: Platform)
    requires CleanHistory(u, ops, ds) && i < |ds| && AgreesAt(u, ds, 0, reference, p)
    requires forall k | 0 <= k < |ops| :: KeepsOffKey(u, ops[k], reference, p)
    ensures AgreesAt(u, ds, i, reference, p)
  {
    forall k | 0 < k <= i ensures SparesAt(u, ops, ds, k, reference, p) {
      assert KeepsOffKey(u, ops[k - 1], reference, p);
    }
    AgreesThroughoutExactly(u, ops, ds, i, reference, p);
  }

  /** References without line breaks and platforms with their defaults applied, as the store passes them. */
  predicate AllCanonical(u: Setup, ops: seq<Op>) {
    forall k | 0 <= k < |ops| :: Canonical(u, ops[k].reference, ops[k].platform)
  }

  /** For images that have their record to themselves that is always so. */
  lemma CleanHistoriesAgree(u: Setup, ops: seq<Op>, ds: seq<Disk>, i: nat)
    requires SetupOk(u) && CleanHistory(u, ops, ds) && AllCanonical(u, ops) && AllAgree(u, ds[0]) && i < |ds|
    ensures AllAgree(u, ds[i])
  {
    forall reference, p | Named(u, reference, p) ensures Agrees(u, ds[i], reference, p) {
      assert AgreesAt(u, ds, 0, reference, p);
      forall k | 0 <= k < |ops| ensures KeepsOffKey(u, ops[k], reference, p) {
        assert Canonical(u, ops[k].reference, ops[k].platform);
        AloneOwns(u, reference, p, ops[k].reference, ops[k].platform);
      }
      OwnHistoriesAgree(u, ops, ds, i, reference, p);
      assert AgreesAt(u, ds, i, reference, p);
    }
  }

  // ------------------------------------------------------------------
  // The whole disk
  // ------------------------------------------------------------------

  /** Every entry names a platform and every record is stored under its own key. */
  ghost predicate Tidy(u: Setup, disk: Disk) {
    match disk
    case Disk(_, index, records) =>
      && (forall d | d in index :: d.platform.Some?)
      && (forall key | key in records :: key == KeyOf(u, records[key].reference, records[key].platform))
  }

  lemma WriteKeepsTidy(u: Setup, op: Op, was: Disk, now: Disk)
    requires SetupOk(u) && Tidy(u, was) && WriteOf(u, op, was, now)
    ensures Tidy(u, now)
  {
    if op.Commit? && SomeBlobWrite(u, op.tmp, was, now) {
      BlobWriteKeeps(u, op.tmp, was, now);
    }
    forall d | d in now.index ensures d.platform.Some? {
      WithoutKeeps(was.index, op.reference, op.platform, d);
    }
  }

  /** That holds in every state any writes can stop in. */
  lemma {:induction false} EveryStateIsTidy(u: Setup, ops: seq<Op>, ds: seq<Disk>, i: nat)
    requires SetupOk(u) && Writes(u, ops, ds) && Tidy(u, ds[0]) && i < |ds|
    ensures Tidy(u, ds[i])
  {
    if i == 0 {
    } else {
      EveryStateIsTidy(u, ops, ds, i - 1);
      assert WriteAt(u, ops, ds, i - 1);
      WriteKeepsTidy(u, ops[i - 1], ds[i - 1], ds[i]);
    }
  }

  lemma OutcomeKeepsTidy(u: Setup, op: Op, was: Disk, now: Disk)
    requires Tidy(u, was) && CleanOutcome(u, op, was, now)
    ensures Tidy(u, now)
  {
    if Completed(u, op, was, now) {
      forall d | d in now.index ensures d.platform.Some? {
        WithoutKeeps(was.index, op.reference, op.platform, d);
      }
    }
  }

  lemma {:induction false} CleanHistoriesStayTidy(u: Setup, ops: seq<Op>, ds: seq<Disk>, i: nat)
    requires CleanHistory(u, ops, ds) && Tidy(u, ds[0]) && i < |ds|
    ensures Tidy(u, ds[i])
  {
    if i == 0 {
    } else {
      CleanHistoriesStayTidy(u, ops, ds, i - 1);
      assert CleanAt(u, ops, ds, i);
      OutcomeKeepsTidy(u, ops[i - 1], ds[i - 1], ds[i]);
    }
  }

  /** The entry is the only one of its image, and the image's record has its digest. */
  predicate Recorded(u: Setup, disk: Disk, d: Descriptor)
    requires d.platform.Some?
  {
    var reference, p := ReferenceOf(d), d.platform.value;
    var key := KeyOf(u, reference, p);
    && Exact(disk.index, reference, p) == [d]
    && key in disk.records && disk.records[key].digest == d.digest
    && disk.records[key].reference == reference && disk.records[key].platform == p
  }

  /** The record has exactly one entry of its image in the index, with its digest. */
  predicate InIndex(u: Setup, disk: Disk, key: Key)
    requires key in disk.records
  {
    var image := disk.records[key];
    var entries := Exact(disk.index, image.reference, image.platform);
    |entries| == 1 && entries[0] in disk.index && entries[0].digest == image.digest
  }

  lemma EntryIsRecorded(u: Setup, disk: Disk, d: Descriptor)
    requires d in disk.index && d.platform.Some? && Agrees(u, disk, ReferenceOf(d), d.platform.value)
    ensures Recorded(u, disk, d)
  {
    ExactIsListed(disk.index, ReferenceOf(d), d.platform.value, d);
  }

  lemma RecordIsInIndex(u: Setup, disk: Disk, key: Key)
    requires key in disk.records
    requires
      var image := disk.records[key];
      key == KeyOf(u, image.reference, image.platform) && Agrees(u, disk, image.reference, image.platform)
    ensures InIndex(u, disk, key)
  {
    var image := disk.records[key];
    var entries := Exact(disk.index, image.reference, image.platform);
    ExactIsListed(disk.index, image.reference, image.platform, entries[0]);
  }

  /** On a tidy disk agreement is a one-to-one correspondence between the entries and the records. */
  lemma AgreementIsOneToOne(u: Setup, disk: Disk)
    requires Tidy(u, disk) && AllAgree(u, disk)
    ensures forall d | d in disk.index && Named(u, ReferenceOf(d), d.platform.value) :: Recorded(u, disk, d)
    ensures forall key | key in disk.records && Named(u, disk.records[key].reference, disk.records[key].platform) ::
      InIndex(u, disk, key)
  {
    forall d | d in disk.index && Named(u, ReferenceOf(d), d.platform.value) ensures Recorded(u, disk, d) {
      EntryIsRecorded(u, disk, d);
    }
    forall key | key in disk.records && Named(u, disk.records[key].reference, disk.records[key].platform)
      ensures InIndex(u, disk, key)
    {
      RecordIsInIndex(u, disk, key);
    }
  }

  // ------------------------------------------------------------------
  // Selecting and reusing an image
  // ------------------------------------------------------------------

  /** selectDescriptor: the exact entry, else the platform's only entry, else the only entry. */
  function Selected(index: seq<Descriptor>, reference: string, p: Platform): Option<Descriptor> {
    var exact, platformOnly := Exact(index, reference, p), ForPlatform(index, p);
    if |exact| == 1 then Some(exact[0])
    else if |exact| > 1 then None
    else if |platformOnly| == 1 then Some(platformOnly[0])
    else if |index| == 1 then Some(index[0])
    else None
  }

  /** Entry `i` is for this platform and, where one is wanted, under this reference name. */
  predicate Fits(index: seq<Descriptor>, wanted: Option<string>, p: Platform, i: nat) {
    && i < |index| && index[i].platform == Some(p)
    && (wanted.Some? ==>
          var names := index[i].annotations;
          wanted.value ==
          if "org.opencontainers.image.ref.name" in names then names["org.opencontainers.image.ref.name"] else "")
  }

  predicate OnlyFit(index: seq<Descriptor>, wanted: Option<string>, p: Platform, i: nat) {
    Fits(index, wanted, p, i) && forall j: nat | j < |index| && Fits(index, wanted, p, j) :: j == i
  }

  predicate TwoFit(index: seq<Descriptor>, wanted: Option<string>, p: Platform) {
    exists i: nat, j: nat | i < j < |index| :: Fits(index, wanted, p, i) && Fits(index, wanted, p, j)
  }

  predicate NoneFits(index: seq<Descriptor>, wanted: Option<string>, p: Platform) {
    forall i: nat | i < |index| :: !Fits(index, wanted, p, i)
  }

  /** The only entry under the name, else the platform's only entry, else a layout's single entry, else an error. */
  ghost predicate Chosen(index: seq<Descriptor>, reference: string, p: Platform, choice: Option<Descriptor>) {
    && (forall i: nat | i < |index| && OnlyFit(index, Some(reference), p, i) :: choice == Some(index[i]))
    && (TwoFit(index, Some(reference), p) ==> choice == None)
    && (NoneFits(index, Some(reference), p) ==>
          && (forall i: nat | i < |index| && OnlyFit(index, None, p, i) :: choice == Some(index[i]))
          && (TwoFit(index, None, p) || NoneFits(index, None, p) ==>
                choice == if |index| == 1 then Some(index[0]) else None))
  }

  function Fitting(index: seq<Descriptor>, wanted: Option<string>, p: Platform): seq<Descriptor> {
    if wanted.Some? then Exact(index, wanted.value, p) else ForPlatform(index, p)
  }

  /** The number of fitting entries, and the entry if it is one, found at their positions. */
  lemma {:induction false} FittingCounts(index: seq<Descriptor>, wanted: Option<string>, p: Platform)
    ensures Fitting(index, wanted, p) == [] ==> NoneFits(index, wanted, p)
    ensures |Fitting(index, wanted, p)| == 1 ==>
      exists i: nat | i < |index| :: OnlyFit(index, wanted, p, i) && Fitting(index, wanted, p) == [index[i]]
    ensures |Fitting(index, wanted, p)| > 1 ==> TwoFit(index, wanted, p)
  {
    if index == [] {
    } else {
      var n := |index| - 1;
      var before := index[..n];
      FittingCounts(before, wanted, p);
      assert forall i: nat | i < n :: Fits(index, wanted, p, i) == Fits(before, wanted, p, i);
      if |Fitting(index, wanted, p)| == 1 && !Fits(index, wanted, p, n) {
        var i: nat :| i < n && OnlyFit(before, wanted, p, i) && Fitting(before, wanted, p) == [before[i]];
        assert OnlyFit(index, wanted, p, i);
      } else if |Fitting(index, wanted, p)| == 1 {
        assert OnlyFit(index, wanted, p, n);
      } else if |Fitting(before, wanted, p)| == 1 && Fits(index, wanted, p, n) {
        var i: nat :| i < n && OnlyFit(before, wanted, p, i);
        assert Fits(index, wanted, p, i);
      }
    }
  }

  lemma SelectedIsChosen(index: seq<Descriptor>, reference: string, p: Platform)
    ensures Chosen(index, reference, p, Selected(index, reference, p))
  {
    FittingCounts(index, Some(reference), p);
    FittingCounts(index, None, p);
  }

  /** A completed commit holds the committed image, its config and all its layers, or all entries of an index. */
  lemma CommittedArrives(u: Setup, op: Op, was: Disk, now: Disk)
    requires SetupOk(u) && op.Commit? && Completed(u, op, was, now)
    ensures Arrived(u.codec, now.blobs, op.selected)
  {
    CopyArrives(u.codec, was.blobs, op.tmp, op.selected);
  }

  /** With a uniform source it holds the same for everything the image reaches. */
  lemma CommittedArrivesEverywhere(u: Setup, op: Op, was: Disk, now: Disk, e: Descriptor)
    requires SetupOk(u) && op.Commit? && Plain(u, op) && Completed(u, op, was, now)
    requires Reaches(u.codec, op.tmp, op.selected, e)
    ensures Arrived(u.codec, now.blobs, e)
  {
    CopyArrivesEverywhere(u.codec, was.blobs, op.tmp, op.selected, e);
  }

  /** The entry a commit adds is the selected one under the requested name and platform; the rest is untouched. */
  lemma CommittedEntry(u: Setup, op: Op, was: Disk, now: Disk)
    requires op.Commit? && Completed(u, op, was, now)
    ensures
      var last := |now.index| - 1;
      && 0 <= last && now.index[..last] == Without(was.index, op.reference, op.platform)
      && now.index[last].mediaType == op.selected.mediaType
      && now.index[last].digest == op.selected.digest && now.index[last].size == op.selected.size
      && now.index[last].annotations == op.selected.annotations["org.opencontainers.image.ref.name" := op.reference]
      && now.index[last].platform == Some(op.platform)
  {
  }

  /** What a commit wrote is what selection finds afterwards, with the digest of what was committed. */
  lemma CommittedIsSelected(u: Setup, op: Op, was: Disk, now: Disk)
    requires op.Commit? && Completed(u, op, was, now)
    ensures Selected(now.index, op.reference, op.platform) == Some(ForCommit(op.selected, op.reference, op.platform))
    ensures now.records[KeyOf(u, op.reference, op.platform)].digest == op.selected.digest
  {
    WithoutDropsOwn(was.index, op.reference, op.platform);
    ExactAfterReplace(was.index, op.selected, op.reference, op.platform, op.reference, op.platform);
  }

  /** A record can be reused, does not exist, or makes PullIfMissing refuse with an invalid-layout error. */
  datatype Lookup = Reused(image: Image) | Missing | Refused

  predicate Backs(d: Descriptor, image: Image) {
    d.digest == image.digest && ReferenceOf(d) == image.reference && Matches(d, image.platform)
  }

  function FirstBacking(index: seq<Descriptor>, image: Image): (first: Option<Descriptor>)
    ensures first.Some? ==> first.value in index && Backs(first.value, image)
    ensures first.None? ==> forall d | d in index :: !Backs(d, image)
  {
    if index == [] then None
    else if Backs(index[0], image) then Some(index[0])
    else FirstBacking(index[1..], image)
  }

  /** existingValidImage without I/O faults: validating the stored graph copies it onto itself. */
  function Existing(u: Setup, disk: Disk, reference: string, p: Platform): Lookup {
    var key := KeyOf(u, reference, p);
    if key !in disk.records then Missing
    else
      var entry := FirstBacking(disk.index, disk.records[key]);
      if entry.Some? && Visit(u.codec, disk.blobs, entry.value, {}).Some? then Reused(disk.records[key]) else Refused
  }

  /** A descriptor of the stored index backs the image, and its blob and all that it lists are in place. */
  ghost predicate InPlace(u: Setup, disk: Disk, image: Image, d: Descriptor) {
    && d in disk.index && d.digest == image.digest && d.platform == Some(image.platform)
    && ReferenceOf(d) == image.reference && Arrived(u.codec, disk.blobs, d)
  }

  /** Whatever a crash left behind, only an image whose index entry and blobs are in place is reused. */
  lemma ReusedIsInPlace(u: Setup, disk: Disk, reference: string, p: Platform)
    requires SetupOk(u) && Existing(u, disk, reference, p).Reused?
    ensures exists d :: InPlace(u, disk, Existing(u, disk, reference, p).image, d)
  {
    var image := disk.records[KeyOf(u, reference, p)];
    var d := FirstBacking(disk.index, image).value;
    CopyArrives(u.codec, disk.blobs, disk.blobs, d);
    var marked := Visit(u.codec, disk.blobs, d, {}).value;
    MarkedAreHeld(u.codec, disk.blobs, d);
    assert Merged(u.codec, disk.blobs, disk.blobs, marked) == disk.blobs;
    assert InPlace(u, disk, image, d);
  }

  /** In a sound store only a record whose index entry is gone or replaced is refused. */
  lemma RefusedExactly(u: Setup, disk: Disk, reference: string, p: Platform)
    requires SetupOk(u) && Sound(u, disk)
    ensures
      var key := KeyOf(u, reference, p);
      Existing(u, disk, reference, p).Refused? <==>
        key in disk.records && forall d | d in disk.index :: !Backs(d, disk.records[key])
  {
    var key := KeyOf(u, reference, p);
    if key in disk.records {
      var entry := FirstBacking(disk.index, disk.records[key]);
      if entry.Some? {
        assert EntrySound(u, disk.blobs, entry.value);
        ReachesSelf(u.codec, disk.blobs, entry.value);
        ClosedVisits(u.codec, disk.blobs, entry.value, entry.value, {});
      }
    }
  }

  lemma {:induction false} ExactIsListed(index: seq<Descriptor>, reference: string, p: Platform, d: Descriptor)
    ensures d in Exact(index, reference, p) <==> d in index && Matches(d, p) && ReferenceOf(d) == reference
  {
    if index == [] {
    } else {
      assert index == index[..|index| - 1] + [index[|index| - 1]];
      ExactIsListed(index[..|index| - 1], reference, p, d);
    }
  }

  /** Where record and index agree, PullIfMissing reuses exactly what is recorded and never refuses. */
  lemma AgreementIsReused(u: Setup, disk: Disk, reference: string, p: Platform)
    requires SetupOk(u) && Sound(u, disk) && Agrees(u, disk, reference, p)
    ensures
      var key := KeyOf(u, reference, p);
      Existing(u, disk, reference, p) == if key in disk.records then Reused(disk.records[key]) else Missing
  {
    var key := KeyOf(u, reference, p);
    if key in disk.records {
      var entry := Exact(disk.index, reference, p)[0];
      assert entry in Exact(disk.index, reference, p);
      ExactIsListed(disk.index, reference, p, entry);
      assert Backs(entry, disk.records[key]);
      RefusedExactly(u, disk, reference, p);
    }
  }

  /**
   A commit that stopped after its index write and before its record write leaves a recorded image
   refused exactly when the digest changed.
   */
  lemma InterruptedCommitRefuses(u: Setup, op: Op, was: Disk, now: Disk)
    requires SetupOk(u) && op.Commit? && Plain(u, op) && Sound(u, was) && IndexWrite(u, op, was, now)
    requires KeyOf(u, op.reference, op.platform) in was.records && Agrees(u, was, op.reference, op.platform)
    ensures
      Existing(u, now, op.reference, op.platform).Refused?
      <==> was.records[KeyOf(u, op.reference, op.platform)].digest != op.selected.digest
  {
    var image := was.records[KeyOf(u, op.reference, op.platform)];
    WriteKeepsSound(u, op, was, now);
    RefusedExactly(u, now, op.reference, op.platform);
    WithoutDropsOwn(was.index, op.reference, op.platform);
    ExactAfterReplace(was.index, op.selected, op.reference, op.platform, op.reference, op.platform);
    var entry := ForCommit(op.selected, op.reference, op.platform);
    assert Exact(now.index, op.reference, op.platform) == [entry];
    forall d | d in now.index && Backs(d, image) ensures d == entry {
      ExactIsListed(now.index, op.reference, op.platform, d);
    }
    ExactIsListed(now.index, op.reference, op.platform, entry);
  }

  /** A removal deletes the record first: wherever it stops after a write, the image is missing and never refused. */
  lemma InterruptedRemovalIsMissing(u: Setup, op: Op, was: Disk, now: Disk)
    requires SetupOk(u) && op.Remove? && WriteOf(u, op, was, now)
    ensures Existing(u, now, op.reference, op.platform).Missing?
    ensures was.index != now.index ==> KeyOf(u, op.reference, op.platform) !in was.records
  {
  }
}
