/**
 pkg/bundle/internal/directory/provisioner.go: rewriting a runtime spec for rootless use (OCI Runtime
 Specification, config.md and config-linux.md). Only the parts that the rewriting touches, and the
 root and host name as witnesses for the rest, are modelled.
 */
module RuntimeSpec {
  import opened Prelude
  import opened UserNamespace

  datatype Mount = Mount(destination: string, kind: string, source: string, options: seq<string>)

  datatype LinuxNamespace = LinuxNamespace(kind: string, path: string)

  datatype Capabilities = Capabilities(
    bounding: seq<string>, effective: seq<string>, inheritable: seq<string>, permitted: seq<string>,
    ambient: seq<string>)

  datatype User = User(uid: nat, gid: nat, additionalGids: seq<nat>)

  datatype Process = Process(
    terminal: bool, user: User, args: seq<string>, env: seq<string>, cwd: string, noNewPrivileges: bool,
    capabilities: Option<Capabilities>)

  datatype Resources = Resources(text: string)

  datatype Linux = Linux(
    uidMappings: seq<Mapping>, gidMappings: seq<Mapping>, namespaces: seq<LinuxNamespace>, cgroupsPath: string,
    resources: Option<Resources>, maskedPaths: seq<string>, readonlyPaths: seq<string>)

  datatype SpecValue = SpecValue(
    process: Option<Process>, linux: Option<Linux>, mounts: seq<Mount>, root: string, hostname: string)

  /** What the caller may override; None stands for a nil pointer or slice. */
  datatype Request = Request(
    terminal: Option<bool>, args: seq<string>, env: seq<string>, cwd: string,
    uid: Option<nat>, gid: Option<nat>, additionalGids: Option<seq<nat>>)

  datatype SpecError = NoSpec | NoProcess | UnmappedUid(id: nat) | UnmappedGid(id: nat) | UnmappedAdditionalGid(id: nat)

  // ------------------------------------------------------------------
  // Filtering
  // ------------------------------------------------------------------

  function Filter<T>(s: seq<T>, keep: T -> bool): seq<T> {
    if s == [] then []
    else Filter(s[..|s| - 1], keep) + if keep(s[|s| - 1]) then [s[|s| - 1]] else []
  }

  lemma {:induction false} FilterAppends<T>(a: seq<T>, b: seq<T>, keep: T -> bool)
    ensures Filter(a + b, keep) == Filter(a, keep) + Filter(b, keep)
    decreases |b|
  {
    if b == [] {
      assert a + b == a;
    } else {
      assert (a + b)[..|a + b| - 1] == a + b[..|b| - 1];
      FilterAppends(a, b[..|b| - 1], keep);
    }
  }

  lemma {:induction false} FilterKeeps<T>(s: seq<T>, keep: T -> bool, x: T)
    ensures x in Filter(s, keep) <==> x in s && keep(x)
  {
    if s == [] {
    } else {
      assert s == s[..|s| - 1] + [s[|s| - 1]];
      FilterKeeps(s[..|s| - 1], keep, x);
    }
  }

  lemma {:induction false} FilterSettles<T>(s: seq<T>, keep: T -> bool)
    ensures Filter(Filter(s, keep), keep) == Filter(s, keep)
  {
    if s == [] {
    } else {
      FilterSettles(s[..|s| - 1], keep);
      FilterAppends(Filter(s[..|s| - 1], keep), if keep(s[|s| - 1]) then [s[|s| - 1]] else [], keep);
      FilterOne(s[|s| - 1], keep);
    }
  }

  lemma FilterOne<T>(x: T, keep: T -> bool)
    ensures Filter([x], keep) == if keep(x) then [x] else []
    ensures Filter([], keep) == []
  {
    assert [x][..0] == [] && Filter([x][..0], keep) == [];
  }

  lemma FilterHead<T>(x: T, rest: seq<T>, keep: T -> bool)
    ensures Filter([x] + rest, keep) == (if keep(x) then [x] else []) + Filter(rest, keep)
  {
    FilterAppends([x], rest, keep);
    FilterOne(x, keep);
  }

  /** Compaction in place, as removeCgroupMounts and slices.DeleteFunc do it. */
  method Compact<T>(a: array<T>, keep: T -> bool) returns (kept: nat)
    modifies a
    ensures kept <= a.Length && a[..kept] == Filter(old(a[..]), keep)
  {
    ghost var all := a[..];
    kept := 0;
    for i := 0 to a.Length
      invariant kept <= i
      invariant forall k | i <= k < |all| :: a[k] == all[k]
      invariant a[..kept] == Filter(all[..i], keep)
    {
      var x := a[i];
      assert all[..i + 1][..i] == all[..i];
      if keep(x) {
        a[kept] := x;
        kept := kept + 1;
      }
    }
    assert all[..|all|] == all;
  }

  method Filtered<T>(s: seq<T>, keep: T -> bool) returns (r: seq<T>)
    ensures r == Filter(s, keep)
  {
    if s == [] {
      return [];
    }
    var a := new T[|s|](i requires 0 <= i < |s| => s[i]);
    assert a[..] == s;
    var kept := Compact(a, keep);
    r := a[..kept];
  }

  // ------------------------------------------------------------------
  // The parts of the rewriting
  // ------------------------------------------------------------------

  predicate HasPrefix(s: string, prefix: string) {
    prefix <= s
  }

  predicate IsProcPath(path: string) {
    path == "/proc" || HasPrefix(path, "/proc/")
  }

  predicate IsCgroupMount(m: Mount) {
    || m.kind == "cgroup" || m.kind == "cgroup2"
    || m.destination == "/sys/fs/cgroup" || HasPrefix(m.destination, "/sys/fs/cgroup/")
  }

  predicate IsUser(n: LinuxNamespace) {
    n.kind == "user"
  }

  predicate Dropped(n: LinuxNamespace) {
    n.kind == "network" || n.kind == "cgroup"
  }

  function NotProc(): string -> bool {
    path => !IsProcPath(path)
  }

  function NotCgroup(): Mount -> bool {
    m => !IsCgroupMount(m)
  }

  function Other(): LinuxNamespace -> bool {
    n => !Dropped(n) && !IsUser(n)
  }

  /** Before the first user namespace; `has` says that one was kept. */
  function Pruned(ns: seq<LinuxNamespace>, has: bool): seq<LinuxNamespace> {
    if ns == [] then if has then [] else [LinuxNamespace.LinuxNamespace("user", "")]
    else if Dropped(ns[0]) || (IsUser(ns[0]) && has) then Pruned(ns[1..], has)
    else [ns[0]] + Pruned(ns[1..], has || IsUser(ns[0]))
  }

  method PruneNamespaces(namespaces: seq<LinuxNamespace>) returns (rootless: seq<LinuxNamespace>)
    ensures rootless == Pruned(namespaces, false)
  {
    rootless := [];
    var hasUserNamespace := false;
    for i := 0 to |namespaces|
      invariant rootless + Pruned(namespaces[i..], hasUserNamespace) == Pruned(namespaces, false)
    {
      var n := namespaces[i];
      assert namespaces[i..][0] == n && namespaces[i..][1..] == namespaces[i + 1..];
      if Dropped(n) {
        continue;
      }
      if IsUser(n) {
        if hasUserNamespace {
          continue;
        }
        hasUserNamespace := true;
      }
      ghost var rest := Pruned(namespaces[i + 1..], hasUserNamespace);
      assert rootless + ([n] + rest) == rootless + [n] + rest;
      rootless := rootless + [n];
    }
    if !hasUserNamespace {
      rootless := rootless + [LinuxNamespace.LinuxNamespace("user", "")];
    }
  }

  function WithCapability(s: seq<string>, capability: string): seq<string> {
    if capability in s then s else s + [capability]
  }

  function Bounding(s: seq<string>): seq<string> {
    WithCapability(WithCapability(s, "CAP_SETUID"), "CAP_SETGID")
  }

  function RewrittenUser(user: User, request: Request): User {
    User.User(
      if request.uid.Some? then request.uid.value else user.uid,
      if request.gid.Some? then request.gid.value else user.gid,
      if request.additionalGids.Some? then request.additionalGids.value else user.additionalGids)
  }

  function RewrittenProcess(p: Process, request: Request): Process {
    var caps := if p.capabilities.Some? then p.capabilities.value else Capabilities.Capabilities([], [], [], [], []);
    Process.Process(
      if request.terminal.Some? then request.terminal.value else p.terminal,
      RewrittenUser(p.user, request),
      if request.args != [] then request.args else p.args,
      if request.env != [] then request.env else p.env,
      if request.cwd != "" then request.cwd else p.cwd,
      false,
      Some(caps.(bounding := Bounding(caps.bounding))))
  }

  function RewrittenLinux(l: Linux, maps: Namespace): Linux {
    Linux.Linux(maps.uid, maps.gid, Pruned(l.namespaces, false), "", None,
                Filter(l.maskedPaths, NotProc()), Filter(l.readonlyPaths, NotProc()))
  }

  const NO_LINUX := Linux.Linux([], [], [], "", None, [], [])

  /** The spec after the rewriting, whether or not the final check accepts it. */
  function Rewritten(v: SpecValue, maps: Namespace, request: Request, mounts: seq<Mount>): SpecValue
    requires v.process.Some?
  {
    SpecValue.SpecValue(
      Some(RewrittenProcess(v.process.value, request)),
      Some(RewrittenLinux(if v.linux.Some? then v.linux.value else NO_LINUX, maps)),
      Filter(v.mounts, NotCgroup()) + mounts, v.root, v.hostname)
  }

  /** Every ID the process runs with is mapped. */
  predicate UserMapped(user: User, maps: Namespace) {
    && HostId(maps.uid, user.uid).Some?
    && HostId(maps.gid, user.gid).Some?
    && forall i | 0 <= i < |user.additionalGids| :: HostId(maps.gid, user.additionalGids[i]).Some?
  }

  /** The error names the first ID that is not mapped. */
  method ValidateProcessUserIDsMapped(user: User, maps: Namespace) returns (r: Result<(), SpecError>)
    ensures r.Done? <==> UserMapped(user, maps)
    ensures r.Failed? ==>
      match r.error
      case UnmappedUid(id) => id == user.uid && HostId(maps.uid, id).None?
      case UnmappedGid(id) => id == user.gid && HostId(maps.gid, id).None? && HostId(maps.uid, user.uid).Some?
      case UnmappedAdditionalGid(id) =>
        && HostId(maps.uid, user.uid).Some? && HostId(maps.gid, user.gid).Some?
        && exists k | 0 <= k < |user.additionalGids| ::
             && user.additionalGids[k] == id && HostId(maps.gid, id).None?
             && forall i | 0 <= i < k :: HostId(maps.gid, user.additionalGids[i]).Some?
      case _ => false
  {
    var mapped := IsMapped(user.uid, maps.uid);
    if !mapped {
      return Failed(UnmappedUid(user.uid));
    }
    mapped := IsMapped(user.gid, maps.gid);
    if !mapped {
      return Failed(UnmappedGid(user.gid));
    }
    for i := 0 to |user.additionalGids|
      invariant forall k | 0 <= k < i :: HostId(maps.gid, user.additionalGids[k]).Some?
    {
      mapped := IsMapped(user.additionalGids[i], maps.gid);
      if !mapped {
        return Failed(UnmappedAdditionalGid(user.additionalGids[i]));
      }
    }
    return Done(());
  }

  // ------------------------------------------------------------------
  // The object
  // ------------------------------------------------------------------

  class Spec {
    var process: Option<Process>
    var linux: Option<Linux>
    var mounts: seq<Mount>
    var root: string
    var hostname: string

    constructor (v: SpecValue)
      ensures Value() == v
    {
      process, linux, mounts, root, hostname := v.process, v.linux, v.mounts, v.root, v.hostname;
    }

    function Value(): SpecValue
      reads this
    {
      SpecValue.SpecValue(process, linux, mounts, root, hostname)
    }

    static method GrantMappingCapabilities(given: seq<string>) returns (bounding: seq<string>)
      ensures bounding == Bounding(given)
    {
      bounding := given;
      for i := 0 to 2
        invariant i == 0 ==> bounding == given
        invariant i == 1 ==> bounding == WithCapability(given, "CAP_SETUID")
        invariant i == 2 ==> bounding == Bounding(given)
      {
        var capability := if i == 0 then "CAP_SETUID" else "CAP_SETGID";
        if capability !in bounding {
          bounding := bounding + [capability];
        }
      }
    }

    method RewriteProcess(request: Request)
      requires process.Some?
      modifies this`process
      ensures process == Some(RewrittenProcess(old(process.value), request))
    {
      var p := process.value;
      if p.capabilities.None? {
        p := p.(capabilities := Some(Capabilities.Capabilities([], [], [], [], [])));
      }
      var bounding := GrantMappingCapabilities(p.capabilities.value.bounding);
      p := p.(noNewPrivileges := false, capabilities := Some(p.capabilities.value.(bounding := bounding)));
      if request.terminal.Some? {
        p := p.(terminal := request.terminal.value);
      }
      if request.args != [] {
        p := p.(args := request.args);
      }
      if request.env != [] {
        p := p.(env := request.env);
      }
      if request.cwd != "" {
        p := p.(cwd := request.cwd);
      }
      if request.uid.Some? {
        p := p.(user := p.user.(uid := request.uid.value));
      }
      if request.gid.Some? {
        p := p.(user := p.user.(gid := request.gid.value));
      }
      if request.additionalGids.Some? {
        p := p.(user := p.user.(additionalGids := request.additionalGids.value));
      }
      process := Some(p);
    }

    method RewriteLinux(maps: Namespace)
      requires linux.Some?
      modifies this`linux
      ensures linux == Some(RewrittenLinux(old(linux.value), maps))
    {
      var masked := Filtered(linux.value.maskedPaths, NotProc());
      var readonly := Filtered(linux.value.readonlyPaths, NotProc());
      var namespaces := PruneNamespaces(linux.value.namespaces);
      linux := Some(Linux.Linux(maps.uid, maps.gid, namespaces, "", None, masked, readonly));
    }
  }

  /** The spec is left rewritten even when the process turns out not to be mapped. */
  method SetupRootlessRuntimeSpec(spec: Spec?, maps: Namespace, request: Request, mounts: seq<Mount>)
    returns (r: Result<(), SpecError>)
    modifies spec
    ensures spec == null ==> r == Failed(NoSpec)
    ensures spec != null && old(spec.process).None? ==> r == Failed(NoProcess) && spec.Value() == old(spec.Value())
    ensures spec != null && old(spec.process).Some? ==>
      && spec.Value() == Rewritten(old(spec.Value()), maps, request, mounts)
      && spec.process.Some?
      && (r.Done? <==> UserMapped(spec.process.value.user, maps))
  {
    if spec == null {
      return Failed(NoSpec);
    }
    if spec.process.None? {
      return Failed(NoProcess);
    }
    if spec.linux.None? {
      spec.linux := Some(NO_LINUX);
    }
    spec.RewriteProcess(request);
    spec.RewriteLinux(maps);
    var kept := Filtered(spec.mounts, NotCgroup());
    spec.mounts := kept + mounts;
    r := ValidateProcessUserIDsMapped(spec.process.value.user, maps);
  }

  // ------------------------------------------------------------------
  // What the rewriting guarantees
  // ------------------------------------------------------------------

  function Users(ns: seq<LinuxNamespace>): nat {
    if ns == [] then 0 else (if IsUser(ns[0]) then 1 else 0) + Users(ns[1..])
  }

  lemma {:induction false} PrunedShape(ns: seq<LinuxNamespace>, has: bool)
    ensures Users(Pruned(ns, has)) == if has then 0 else 1
    ensures forall n | n in Pruned(ns, has) :: !Dropped(n)
  {
    if ns == [] {
    } else {
      var next := has || IsUser(ns[0]);
      PrunedShape(ns[1..], next);
      assert ([ns[0]] + Pruned(ns[1..], next))[1..] == Pruned(ns[1..], next);
    }
  }

  lemma {:induction false} PrunedAfterUser(ns: seq<LinuxNamespace>)
    ensures Pruned(ns, true) == Filter(ns, Other())
  {
    if ns == [] {
    } else {
      PrunedAfterUser(ns[1..]);
      FilterHead(ns[0], ns[1..], Other());
      assert ns == [ns[0]] + ns[1..];
    }
  }

  lemma PrunedHead(first: LinuxNamespace, rest: seq<LinuxNamespace>)
    requires !IsUser(first)
    ensures Pruned([first] + rest, false) == (if Other()(first) then [first] else []) + Pruned(rest, false)
  {
    assert ([first] + rest)[1..] == rest;
  }

  lemma Associates<T>(a: seq<T>, b: seq<T>, c: seq<T>)
    ensures a + b + c == a + (b + c)
  {
  }

  /** What stands from the first user namespace on, or the one added when there is none. */
  function FromUser(rest: seq<LinuxNamespace>): seq<LinuxNamespace> {
    if rest == [] then [LinuxNamespace.LinuxNamespace("user", "")] else [rest[0]] + Filter(rest[1..], Other())
  }

  /** The first user namespace stays where it is; without one, a fresh one is added at the end. */
  lemma {:induction false} PrunedKeepsOrder(before: seq<LinuxNamespace>, rest: seq<LinuxNamespace>)
    requires (forall i | 0 <= i < |before| :: !IsUser(before[i])) && (rest != [] ==> IsUser(rest[0]))
    ensures Pruned(before + rest, false) == Filter(before, Other()) + FromUser(rest)
  {
    if before == [] {
      assert before + rest == rest;
      if rest != [] {
        PrunedAfterUser(rest[1..]);
      }
    } else {
      var first, more := before[0], before[1..];
      assert before + rest == [first] + (more + rest) && before == [first] + more;
      PrunedKeepsOrder(more, rest);
      PrunedHead(first, more + rest);
      FilterHead(first, more, Other());
      Associates(if Other()(first) then [first] else [], Filter(more, Other()), FromUser(rest));
    }
  }

  lemma {:induction false} PrunedUnchanged(ns: seq<LinuxNamespace>, has: bool)
    requires (forall n | n in ns :: !Dropped(n)) && Users(ns) == if has then 0 else 1
    ensures Pruned(ns, has) == ns
  {
    if ns == [] {
    } else {
      assert ns == [ns[0]] + ns[1..] && ns[0] in ns;
      PrunedUnchanged(ns[1..], has || IsUser(ns[0]));
    }
  }

  lemma {:induction false} PrunedMembers(ns: seq<LinuxNamespace>, has: bool, n: LinuxNamespace)
    requires n.kind != "user"
    ensures n in Pruned(ns, has) <==> n in ns && n.kind != "network" && n.kind != "cgroup"
  {
    if ns == [] {
    } else {
      PrunedMembers(ns[1..], has || IsUser(ns[0]), n);
      assert ns == [ns[0]] + ns[1..];
    }
  }

  /** What the request names is what runs; what it leaves open stays as it was. */
  lemma RequestIsFollowed(p: Process, request: Request)
    ensures
      var q := RewrittenProcess(p, request);
      && (match request.uid case Some(uid) => q.user.uid == uid case None => q.user.uid == p.user.uid)
      && (match request.gid case Some(gid) => q.user.gid == gid case None => q.user.gid == p.user.gid)
      && (match request.additionalGids
          case Some(gids) => q.user.additionalGids == gids
          case None => q.user.additionalGids == p.user.additionalGids)
      && (match request.terminal case Some(terminal) => q.terminal == terminal case None => q.terminal == p.terminal)
      && (if |request.args| > 0 then q.args == request.args else q.args == p.args)
      && (if |request.env| > 0 then q.env == request.env else q.env == p.env)
      && (if |request.cwd| > 0 then q.cwd == request.cwd else q.cwd == p.cwd)
      && q.noNewPrivileges == false
  {
  }

  /** The bounding set gains the two mapping capabilities and loses nothing; the other sets stay. */
  lemma CapabilitiesAreKept(p: Process, request: Request, capability: string)
    ensures
      var none: seq<string> := [];
      var was := if p.capabilities.Some? then p.capabilities.value else Capabilities(none, none, none, none, none);
      var now := RewrittenProcess(p, request).capabilities;
      && now.Some? && now.value == was.(bounding := now.value.bounding)
      && (capability in now.value.bounding <==>
            capability in was.bounding || capability == "CAP_SETUID" || capability == "CAP_SETGID")
  {
  }

  /** Masked and read-only paths go exactly when they are /proc or below it; the mappings are the namespace's. */
  lemma PathsAreKept(l: Linux, maps: Namespace, path: string)
    ensures
      var r, below := RewrittenLinux(l, maps), "/proc/";
      && (path in r.maskedPaths <==> path in l.maskedPaths && path != "/proc" && !(below <= path))
      && (path in r.readonlyPaths <==> path in l.readonlyPaths && path != "/proc" && !(below <= path))
      && r.uidMappings == maps.uid && r.gidMappings == maps.gid
  {
    FilterKeeps(l.maskedPaths, NotProc(), path);
    FilterKeeps(l.readonlyPaths, NotProc(), path);
  }

  /** Mounts go exactly when they are cgroup mounts, the extra ones follow, and root and host name stay. */
  lemma MountsAreKept(v: SpecValue, maps: Namespace, request: Request, mounts: seq<Mount>, m: Mount)
    requires v.process.Some?
    ensures
      var r, below := Rewritten(v, maps, request, mounts), "/sys/fs/cgroup/";
      var kept := |r.mounts| - |mounts|;
      && 0 <= kept && r.mounts[kept..] == mounts && r.root == v.root && r.hostname == v.hostname
      && (m in r.mounts[..kept] <==>
            && m in v.mounts && m.kind != "cgroup" && m.kind != "cgroup2"
            && m.destination != "/sys/fs/cgroup" && !(below <= m.destination))
  {
    FilterKeeps(v.mounts, NotCgroup(), m);
  }

  /** Exactly one user namespace, no network or cgroup namespace, no path below /proc, both mapping capabilities. */
  lemma RewrittenIsRootless(v: SpecValue, maps: Namespace, request: Request, mounts: seq<Mount>)
    requires v.process.Some?
    ensures
      var r := Rewritten(v, maps, request, mounts);
      var linux, process := r.linux.value, r.process.value;
      && Users(linux.namespaces) == 1
      && (forall n | n in linux.namespaces :: n.kind != "network" && n.kind != "cgroup")
      && (forall path | path in linux.maskedPaths + linux.readonlyPaths :: !IsProcPath(path))
      && {"CAP_SETUID", "CAP_SETGID"} <= (set c | c in process.capabilities.value.bounding)
      && !process.noNewPrivileges && linux.cgroupsPath == "" && linux.resources.None?
  {
    var l := if v.linux.Some? then v.linux.value else NO_LINUX;
    var r := Rewritten(v, maps, request, mounts);
    PrunedShape(l.namespaces, false);
    forall path | path in r.linux.value.maskedPaths + r.linux.value.readonlyPaths ensures !IsProcPath(path) {
      FilterKeeps(l.maskedPaths, NotProc(), path);
      FilterKeeps(l.readonlyPaths, NotProc(), path);
    }
  }

  /** No cgroup mount is left exactly when none of the extra mounts is one. */
  lemma CgroupMountsExactly(v: SpecValue, maps: Namespace, request: Request, mounts: seq<Mount>)
    requires v.process.Some?
    ensures
      (forall m | m in Rewritten(v, maps, request, mounts).mounts :: !IsCgroupMount(m))
      <==> forall m | m in mounts :: !IsCgroupMount(m)
  {
    forall m | m in Filter(v.mounts, NotCgroup()) ensures !IsCgroupMount(m) {
      FilterKeeps(v.mounts, NotCgroup(), m);
    }
    assert forall m | m in mounts :: m in Rewritten(v, maps, request, mounts).mounts;
  }

  lemma {:induction false} FilterIsEmpty<T>(s: seq<T>, keep: T -> bool)
    ensures Filter(s, keep) == [] <==> forall x | x in s :: !keep(x)
  {
    if s == [] {
    } else {
      var init, last := s[..|s| - 1], s[|s| - 1];
      FilterIsEmpty(init, keep);
      assert s == init + [last] && last in s;
      assert forall x | x in s :: x in init || x == last;
      assert forall x | x in init :: x in s;
    }
  }

  lemma BoundingSettles(s: seq<string>)
    ensures Bounding(Bounding(s)) == Bounding(s)
  {
  }

  lemma ProcessSettles(p: Process, request: Request)
    ensures RewrittenProcess(RewrittenProcess(p, request), request) == RewrittenProcess(p, request)
  {
    var caps := if p.capabilities.Some? then p.capabilities.value else Capabilities.Capabilities([], [], [], [], []);
    BoundingSettles(caps.bounding);
  }

  lemma LinuxSettles(l: Linux, maps: Namespace)
    ensures RewrittenLinux(RewrittenLinux(l, maps), maps) == RewrittenLinux(l, maps)
  {
    PrunedShape(l.namespaces, false);
    PrunedUnchanged(Pruned(l.namespaces, false), false);
    FilterSettles(l.maskedPaths, NotProc());
    FilterSettles(l.readonlyPaths, NotProc());
  }

  lemma MountsSettleExactly(given: seq<Mount>, mounts: seq<Mount>)
    ensures
      var once := Filter(given, NotCgroup()) + mounts;
      Filter(once, NotCgroup()) + mounts == once <==> forall m | m in mounts :: IsCgroupMount(m)
  {
    var kept, extra := Filter(given, NotCgroup()), Filter(mounts, NotCgroup());
    FilterAppends(kept, mounts, NotCgroup());
    FilterSettles(given, NotCgroup());
    FilterIsEmpty(mounts, NotCgroup());
    assert |kept + extra + mounts| == |kept + mounts| + |extra|;
    if extra == [] {
      assert kept + extra + mounts == kept + mounts;
    }
  }

  /** Rewriting twice is rewriting once exactly when each extra mount is a cgroup mount; so without extra mounts. */
  lemma RewritingSettlesExactly(v: SpecValue, maps: Namespace, request: Request, mounts: seq<Mount>)
    requires v.process.Some?
    ensures
      var once := Rewritten(v, maps, request, mounts);
      Rewritten(once, maps, request, mounts) == once <==> forall m | m in mounts :: IsCgroupMount(m)
  {
    var once := Rewritten(v, maps, request, mounts);
    ProcessSettles(v.process.value, request);
    LinuxSettles(if v.linux.Some? then v.linux.value else NO_LINUX, maps);
    MountsSettleExactly(v.mounts, mounts);
    assert Rewritten(once, maps, request, mounts) == once.(mounts := Filter(once.mounts, NotCgroup()) + mounts);
  }

  /** The documented rule for additional group IDs: they are replaced when the request's are not empty. */
  function DocumentedGids(given: seq<nat>, request: Request): seq<nat> {
    if request.additionalGids.Some? && request.additionalGids.value != [] then request.additionalGids.value else given
  }

  /** An empty but given list removes a process's groups, which the documented rule would keep. */
  lemma EmptyGidsReplace(user: User, request: Request)
    requires request.additionalGids == Some([]) && user.additionalGids != []
    ensures RewrittenUser(user, request).additionalGids == []
    ensures DocumentedGids(user.additionalGids, request) == user.additionalGids
  {
  }

  /** The rewriting follows the documented rule exactly when the list is not empty, or not given, or nothing is lost. */
  lemma DocumentedGidsExactly(user: User, request: Request)
    ensures RewrittenUser(user, request).additionalGids == DocumentedGids(user.additionalGids, request)
      <==> request.additionalGids != Some([]) || user.additionalGids == []
  {
  }

  /** A spec accepted for an accepted namespace runs only with IDs that reach a host ID, and 0 is the caller. */
  lemma AcceptedSpecIsMapped(ns: Namespace, uid: nat, gid: nat, user: User, i: nat)
    requires Accepted(ns, uid, gid) && uid <= MAX_ID && gid <= MAX_ID && UserMapped(user, ns)
    ensures HostId(ns.uid, user.uid).Some? && HostId(ns.uid, user.uid).value <= MAX_ID
    ensures user.uid == 0 <==> HostId(ns.uid, user.uid) == Some(uid)
    ensures user.gid == 0 <==> HostId(ns.gid, user.gid) == Some(gid)
    ensures i < |user.additionalGids| ==> user.additionalGids[i] <= if |ns.gid| == 2 then ns.gid[1].size else 0
  {
    MappingsAreInjective(ns.uid, uid, user.uid, 0);
    MappingsAreInjective(ns.gid, gid, user.gid, 0);
    if i < |user.additionalGids| {
      MappedExactly(ns.gid, gid, user.additionalGids[i]);
    }
  }
}
