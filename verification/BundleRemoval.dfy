/**
 pkg/bundle/internal/directory/provisioner.go: removing a bundle directory that a container runtime
 may have changed. The file system answers each call as `Host` says; the loop must end whatever it
 answers, as long as the errors name finitely many paths.
 */
module BundleRemoval {
  import opened Prelude

  datatype Errno = NotExist | Permission | Busy | OtherErrno

  /** An error without a path is one that is not a *os.PathError. */
  datatype Outcome = Removed | PathError(path: string, errno: Errno) | PlainError(errno: Errno)

  /** EINVAL and ENOENT count as nothing to unmount. */
  datatype Unmounted = Detached | NothingMounted | UnmountRefused

  /** Answers by call number, or by iteration for the calls made once per iteration. */
  datatype Host = Host(
    removeAll: nat -> Outcome, canceled: nat -> bool, chmod: nat -> bool, unmount: nat -> Unmounted)

  datatype RemovalError = Canceled | ChmodFailed | UnmountFailed | GaveUp(last: Outcome)

  const BUSY_RETRIES := 50

  function Count(s: seq<Outcome>, o: Outcome): nat {
    if s == [] then 0 else Count(s[..|s| - 1], o) + if s[|s| - 1] == o then 1 else 0
  }

  lemma CountAppends(s: seq<Outcome>, last: Outcome, o: Outcome)
    ensures Count(s + [last], o) == Count(s, o) + if last == o then 1 else 0
  {
    assert (s + [last])[..|s|] == s;
  }

  // ------------------------------------------------------------------
  // How many more rounds the loop can take
  // ------------------------------------------------------------------

  function Retries(busy: map<string, nat>, path: string): nat {
    if path in busy then busy[path] else 0
  }

  function Allowance(missing: set<string>, busy: map<string, nat>, path: string): int {
    (if path in missing then 0 else 1) + BUSY_RETRIES - Retries(busy, path)
  }

  ghost function Budget(paths: set<string>, missing: set<string>, busy: map<string, nat>): int
    decreases |paths|
  {
    if paths == {} then 0
    else
      var path :| path in paths;
      Allowance(missing, busy, path) + Budget(paths - {path}, missing, busy)
  }

  lemma {:induction false} BudgetSplits(paths: set<string>, missing: set<string>, busy: map<string, nat>, path: string)
    requires path in paths
    ensures Budget(paths, missing, busy) == Allowance(missing, busy, path) + Budget(paths - {path}, missing, busy)
    decreases |paths|
  {
    var first :|
      && first in paths
      && Budget(paths, missing, busy) == Allowance(missing, busy, first) + Budget(paths - {first}, missing, busy);
    if first != path {
      BudgetSplits(paths - {first}, missing, busy, path);
      BudgetSplits(paths - {path}, missing, busy, first);
      assert paths - {first} - {path} == paths - {path} - {first};
    }
  }

  lemma {:induction false} BudgetSame(
      paths: set<string>, m1: set<string>, b1: map<string, nat>, m2: set<string>, b2: map<string, nat>)
    requires forall path | path in paths :: Allowance(m1, b1, path) == Allowance(m2, b2, path)
    ensures Budget(paths, m1, b1) == Budget(paths, m2, b2)
    decreases |paths|
  {
    if paths == {} {
    } else {
      var path :| path in paths;
      BudgetSplits(paths, m1, b1, path);
      BudgetSplits(paths, m2, b2, path);
      BudgetSame(paths - {path}, m1, b1, m2, b2);
    }
  }

  lemma {:induction false} BudgetIsPositive(paths: set<string>, missing: set<string>, busy: map<string, nat>)
    requires forall path | path in paths :: Retries(busy, path) <= BUSY_RETRIES
    ensures Budget(paths, missing, busy) >= 0
    decreases |paths|
  {
    if paths == {} {
    } else {
      var path :| path in paths;
      BudgetSplits(paths, missing, busy, path);
      BudgetIsPositive(paths - {path}, missing, busy);
    }
  }

  lemma {:induction false} FullBudget(paths: set<string>)
    ensures Budget(paths, {}, map[]) == (BUSY_RETRIES + 1) * |paths|
    decreases |paths|
  {
    if paths == {} {
    } else {
      var path :| path in paths;
      BudgetSplits(paths, {}, map[], path);
      FullBudget(paths - {path});
    }
  }

  /** Each round that does not end the loop uses up one unit of one path. */
  lemma BudgetDrops(
      paths: set<string>, m1: set<string>, b1: map<string, nat>, m2: set<string>, b2: map<string, nat>, path: string)
    requires path in paths && Allowance(m2, b2, path) == Allowance(m1, b1, path) - 1
    requires forall other | other in paths && other != path :: Allowance(m2, b2, other) == Allowance(m1, b1, other)
    ensures Budget(paths, m2, b2) == Budget(paths, m1, b1) - 1
  {
    BudgetSplits(paths, m1, b1, path);
    BudgetSplits(paths, m2, b2, path);
    BudgetSame(paths - {path}, m1, b1, m2, b2);
  }

  // ------------------------------------------------------------------
  // The loop
  // ------------------------------------------------------------------

  /** What the loop remembers is what it has looked at. */
  ghost predicate Remembers(missing: set<string>, busy: map<string, nat>, looked: seq<Outcome>) {
    forall path: string ::
      && Count(looked, PathError(path, NotExist)) == (if path in missing then 1 else 0)
      && Count(looked, PathError(path, Busy)) == Retries(busy, path) <= BUSY_RETRIES
  }

  lemma RemembersMissing(missing: set<string>, busy: map<string, nat>, looked: seq<Outcome>, path: string)
    requires Remembers(missing, busy, looked) && path !in missing
    ensures Remembers(missing + {path}, busy, looked + [PathError(path, NotExist)])
  {
    forall p: string
      ensures Count(looked + [PathError(path, NotExist)], PathError(p, NotExist))
        == (if p in missing + {path} then 1 else 0)
      ensures Count(looked + [PathError(path, NotExist)], PathError(p, Busy)) == Retries(busy, p) <= BUSY_RETRIES
    {
      CountAppends(looked, PathError(path, NotExist), PathError(p, NotExist));
      CountAppends(looked, PathError(path, NotExist), PathError(p, Busy));
      assert Count(looked, PathError(p, NotExist)) == (if p in missing then 1 else 0);
    }
  }

  lemma RemembersBusy(missing: set<string>, busy: map<string, nat>, looked: seq<Outcome>, path: string)
    requires Remembers(missing, busy, looked) && Retries(busy, path) < BUSY_RETRIES
    ensures Remembers(missing, busy[path := Retries(busy, path) + 1], looked + [PathError(path, Busy)])
  {
    var busier := busy[path := Retries(busy, path) + 1];
    forall p: string
      ensures Count(looked + [PathError(path, Busy)], PathError(p, NotExist)) == (if p in missing then 1 else 0)
      ensures Count(looked + [PathError(path, Busy)], PathError(p, Busy)) == Retries(busier, p) <= BUSY_RETRIES
    {
      CountAppends(looked, PathError(path, Busy), PathError(p, NotExist));
      CountAppends(looked, PathError(path, Busy), PathError(p, Busy));
      assert Count(looked, PathError(p, Busy)) == Retries(busy, p);
    }
  }

  /** After some rounds: the memory matches what was looked at, and each round used up one unit. */
  ghost predicate Progress(
      paths: set<string>, missing: set<string>, busy: map<string, nat>, looked: seq<Outcome>, rounds: nat)
  {
    && Remembers(missing, busy, looked)
    && Budget(paths, missing, busy) >= 0
    && rounds + Budget(paths, missing, busy) == (BUSY_RETRIES + 1) * |paths|
  }

  lemma StartProgress(paths: set<string>)
    ensures Progress(paths, {}, map[], [], 0)
  {
    FullBudget(paths);
  }

  lemma MissingRound(
      paths: set<string>, missing: set<string>, busy: map<string, nat>, looked: seq<Outcome>, rounds: nat, path: string)
    requires Progress(paths, missing, busy, looked, rounds) && path in paths && path !in missing
    ensures Progress(paths, missing + {path}, busy, looked + [PathError(path, NotExist)], rounds + 1)
  {
    RemembersMissing(missing, busy, looked, path);
    BudgetDrops(paths, missing, busy, missing + {path}, busy, path);
    StillPositive(paths, missing + {path}, busy, looked + [PathError(path, NotExist)]);
  }

  lemma BusyRound(
      paths: set<string>, missing: set<string>, busy: map<string, nat>, looked: seq<Outcome>, rounds: nat, path: string)
    requires Progress(paths, missing, busy, looked, rounds) && path in paths && Retries(busy, path) != BUSY_RETRIES
    ensures
      var busier := busy[path := Retries(busy, path) + 1];
      Progress(paths, missing, busier, looked + [PathError(path, Busy)], rounds + 1)
  {
    assert Count(looked, PathError(path, Busy)) == Retries(busy, path);
    RemembersBusy(missing, busy, looked, path);
    BudgetDrops(paths, missing, busy, missing, busy[path := Retries(busy, path) + 1], path);
    StillPositive(paths, missing, busy[path := Retries(busy, path) + 1], looked + [PathError(path, Busy)]);
  }

  lemma StillPositive(paths: set<string>, missing: set<string>, busy: map<string, nat>, looked: seq<Outcome>)
    requires Remembers(missing, busy, looked)
    ensures Budget(paths, missing, busy) >= 0
  {
    forall path | path in paths ensures Retries(busy, path) <= BUSY_RETRIES {
      assert Count(looked, PathError(path, Busy)) == Retries(busy, path);
    }
    BudgetIsPositive(paths, missing, busy);
  }

  lemma RightToGiveUp(
      paths: set<string>, missing: set<string>, busy: map<string, nat>, looked: seq<Outcome>, rounds: nat,
      last: Outcome)
    requires Progress(paths, missing, busy, looked, rounds) && Hopeless(last, missing, busy)
    ensures GaveUpRightly(looked, last)
  {
    if last.PathError? {
      assert Count(looked, PathError(last.path, NotExist)) == (if last.path in missing then 1 else 0);
      assert Count(looked, PathError(last.path, Busy)) == Retries(busy, last.path);
    }
  }

  /** Giving up on a path takes the second report that it is missing or the fifty-first that it is busy. */
  ghost predicate GaveUpRightly(looked: seq<Outcome>, last: Outcome) {
    match last
    case Removed => false
    case PlainError(_) => true
    case PathError(_, errno) =>
      match errno
      case NotExist => Count(looked, last) == 1
      case Busy => Count(looked, last) == 50
      case _ => true
  }

  /** The errors are what the host answered, in the order of the calls, all before call number `to`. */
  predicate Answers(host: Host, looked: seq<Outcome>, at: seq<nat>, to: nat) {
    match host
    case Host(removeAll, _, _, _) =>
      && |at| == |looked|
      && (forall i | 0 <= i < |at| :: at[i] < to && looked[i] == removeAll(at[i]))
      && (forall i, j | 0 <= i < j < |at| :: at[i] < at[j])
  }

  lemma AnswersStay(host: Host, looked: seq<Outcome>, at: seq<nat>, to: nat, later: nat)
    requires Answers(host, looked, at, to) && to <= later
    ensures Answers(host, looked, at, later)
  {
  }

  lemma AnswersGrow(host: Host, looked: seq<Outcome>, at: seq<nat>, next: nat)
    requires Answers(host, looked, at, next)
    ensures Answers(host, looked + [host.removeAll(next)], at + [next], next + 1)
  {
  }

  predicate NoneRemoved(host: Host, from: nat, to: nat) {
    match host
    case Host(removeAll, _, _, _) => forall k: nat | from <= k < to :: !removeAll(k).Removed?
  }

  lemma NoneStay(host: Host, middle: nat, next: nat, err: Outcome)
    requires NoneRemoved(host, 0, middle) && middle < next && NoneRemoved(host, middle, next - 1)
    requires err == host.removeAll(next - 1)
    ensures NoneRemoved(host, 0, if err.Removed? then next - 1 else next)
  {
  }

  /** One attempt, repeated once after making the directories writable. */
  method Attempt(host: Host, round: nat, first: nat) returns (err: Outcome, next: nat, stuck: bool)
    ensures
      var denied := !host.removeAll(first).Removed? && host.removeAll(first).errno.Permission?;
      && next == first + (if denied && host.chmod(round) then 2 else 1)
      && (stuck <==> denied && !host.chmod(round))
    ensures err == host.removeAll(next - 1) && NoneRemoved(host, first, next - 1)
  {
    err, next, stuck := host.removeAll(first), first + 1, false;
    if !err.Removed? && err.errno.Permission? {
      if !host.chmod(round) {
        return err, next, true;
      }
      err, next := host.removeAll(next), next + 1;
    }
  }

  /** Each error has its cause, on the answer to the last call. */
  ghost predicate FailedRightly(host: Host, error: RemovalError, looked: seq<Outcome>, last: Outcome, rounds: nat) {
    match error
    case Canceled => host.canceled(rounds)
    case ChmodFailed => !host.chmod(rounds) && !last.Removed? && last.errno.Permission?
    case UnmountFailed => host.unmount(rounds).UnmountRefused? && last.PathError? && last.errno.Busy?
    case GaveUp(err) => err == last && GaveUpRightly(looked, last)
  }

  datatype Verdict = Again | Ended(result: Result<(), RemovalError>)

  /** May the loop give up on this error? */
  predicate Hopeless(err: Outcome, missing: set<string>, busy: map<string, nat>) {
    match err
    case Removed => false
    case PlainError(_) => true
    case PathError(path, errno) =>
      match errno
      case NotExist => path in missing
      case Busy => Retries(busy, path) == BUSY_RETRIES
      case _ => true
  }

  predicate Retried(err: Outcome, dir: string, missing: set<string>, busy: map<string, nat>) {
    match err
    case PathError(path, NotExist) => path !in missing && path != dir
    case PathError(path, Busy) => Retries(busy, path) != BUSY_RETRIES
    case _ => false
  }

  /** What the loop makes of an error, after unmounting a busy path. */
  method Judge(host: Host, dir: string, round: nat, err: Outcome, missing: set<string>, busy: map<string, nat>)
    returns (verdict: Verdict)
    requires !err.Removed?
    ensures verdict.Again? <==>
      Retried(err, dir, missing, busy) && !(err.errno.Busy? && host.unmount(round).UnmountRefused?)
    ensures verdict.Ended? && verdict.result.Done? ==> err == PathError(dir, NotExist)
    ensures verdict.Ended? && verdict.result.Failed? ==>
      || (verdict.result.error == GaveUp(err) && Hopeless(err, missing, busy))
      || (&& verdict.result.error == UnmountFailed
          && err.PathError? && err.errno.Busy? && host.unmount(round).UnmountRefused?)
  {
    if err.PlainError? {
      return Ended(Failed(GaveUp(err)));
    }
    if err.errno.NotExist? {
      if err.path in missing {
        return Ended(Failed(GaveUp(err)));
      }
      return if err.path == dir then Ended(Done(())) else Again;
    }
    if !err.errno.Busy? {
      return Ended(Failed(GaveUp(err)));
    }
    if host.unmount(round).UnmountRefused? {
      return Ended(Failed(UnmountFailed));
    }
    return if Retries(busy, err.path) == BUSY_RETRIES then Ended(Failed(GaveUp(err))) else Again;
  }

  function NowMissing(missing: set<string>, err: Outcome): set<string> {
    if err.PathError? && err.errno.NotExist? then missing + {err.path} else missing
  }

  function NowBusy(busy: map<string, nat>, err: Outcome): map<string, nat> {
    if err.PathError? && err.errno.Busy? then busy[err.path := Retries(busy, err.path) + 1] else busy
  }

  lemma NextRound(
      paths: set<string>, dir: string, missing: set<string>, busy: map<string, nat>, looked: seq<Outcome>,
      rounds: nat, err: Outcome)
    requires Progress(paths, missing, busy, looked, rounds) && Retried(err, dir, missing, busy) && err.path in paths
    ensures Progress(paths, NowMissing(missing, err), NowBusy(busy, err), looked + [err], rounds + 1)
  {
    if err.errno.NotExist? {
      MissingRound(paths, missing, busy, looked, rounds, err.path);
    } else {
      BusyRound(paths, missing, busy, looked, rounds, err.path);
    }
  }

  /** Between two rounds: nothing was removed yet, and the memory is that of the answers so far. */
  ghost predicate Underway(
      host: Host, dir: string, paths: set<string>, missing: set<string>, busy: map<string, nat>,
      calls: nat, rounds: nat, looked: seq<Outcome>, at: seq<nat>)
  {
    match host
    case Host(_, _, _, _) =>
      && 0 < calls <= 2 * rounds + 1 && NoneRemoved(host, 0, calls)
      && Answers(host, looked, at, calls) && |looked| == rounds
      && PathError(dir, NotExist) !in looked && dir !in missing
      && Progress(paths, missing, busy, looked, rounds)
  }

  /** What the loop's answer means. */
  ghost predicate Concluded(
      host: Host, dir: string, r: Result<(), RemovalError>, calls: nat, rounds: nat, looked: seq<Outcome>, at: seq<nat>)
  {
    match r
    case Done(_) =>
      && calls > 0 && NoneRemoved(host, 0, calls - 1) && Answers(host, looked, at, calls - 1)
      && (host.removeAll(calls - 1).Removed? || host.removeAll(calls - 1) == PathError(dir, NotExist))
    case Failed(error) =>
      && calls > 0 && NoneRemoved(host, 0, calls)
      && Answers(host, looked, at, if error.Canceled? then calls else calls - 1)
      && FailedRightly(host, error, looked, host.removeAll(calls - 1), rounds)
      && error != GaveUp(PathError(dir, NotExist))
  }

  method Round(
      host: Host, dir: string, ghost paths: set<string>, missing: set<string>, busy: map<string, nat>,
      calls: nat, before: nat, ghost looked: seq<Outcome>, ghost at: seq<nat>)
    returns (verdict: Verdict, next: nat, err: Outcome)
    requires forall k: nat :: host.removeAll(k).PathError? ==> host.removeAll(k).path in paths
    requires Underway(host, dir, paths, missing, busy, calls, before, looked, at)
    ensures calls <= next <= calls + 2
    ensures verdict.Again? ==>
      && next > 0 && err == host.removeAll(next - 1)
      && Underway(host, dir, paths, NowMissing(missing, err), NowBusy(busy, err), next, before + 1,
                  looked + [err], at + [next - 1])
    ensures verdict.Ended? ==> Concluded(host, dir, verdict.result, next, before + 1, looked, at)
  {
    var rounds := before + 1;
    if host.canceled(rounds) {
      return Ended(Failed(Canceled)), calls, host.removeAll(calls - 1);
    }
    var stuck;
    err, next, stuck := Attempt(host, rounds, calls);
    AnswersStay(host, looked, at, calls, next - 1);
    NoneStay(host, calls, next, err);
    if stuck {
      return Ended(Failed(ChmodFailed)), next, err;
    }
    if err.Removed? {
      return Ended(Done(())), next, err;
    }
    verdict := Judge(host, dir, rounds, err, missing, busy);
    if verdict.Again? {
      NextRound(paths, dir, missing, busy, looked, before, err);
      AnswersGrow(host, looked, at, next - 1);
    } else if verdict.result == Failed(GaveUp(err)) {
      RightToGiveUp(paths, missing, busy, looked, before, err);
    }
  }

  /**
   `looked` holds the errors that led to another round, `at` the calls that gave them, and `calls`
   counts RemoveAll calls. Success means the directory was removed or is itself missing, and neither is
   ever overlooked.
   */
  method RemoveRuntimeMutatedBundle(host: Host, dir: string, ghost paths: set<string>)
    returns (r: Result<(), RemovalError>, calls: nat, rounds: nat, looked: seq<Outcome>, at: seq<nat>)
    requires forall k: nat :: host.removeAll(k).PathError? ==> host.removeAll(k).path in paths
    ensures rounds <= 51 * |paths| + 1 && calls <= 2 * rounds + 1
    ensures Answers(host, looked, at, if r == Failed(Canceled) || calls == 0 then calls else calls - 1)
    ensures |looked| == if rounds > 0 then rounds - 1 else 0
    ensures PathError(dir, NotExist) !in looked
    ensures r != Failed(GaveUp(PathError(dir, NotExist)))
    ensures r.Done? ==>
      calls > 0 && (host.removeAll(calls - 1).Removed? || host.removeAll(calls - 1) == PathError(dir, NotExist))
    ensures NoneRemoved(host, 0, if r.Done? then calls - 1 else calls)
    ensures r.Failed? && calls > 0 ==> FailedRightly(host, r.error, looked, host.removeAll(calls - 1), rounds)
    ensures r.Failed? && calls == 0 ==> r.error.Canceled? && host.canceled(0)
  {
    calls, rounds, looked, at := 0, 0, [], [];
    if host.canceled(0) {
      return Failed(Canceled), calls, rounds, looked, at;
    }
    calls := 1;
    if host.removeAll(0).Removed? {
      return Done(()), calls, rounds, looked, at;
    }
    var missing: set<string>, busy: map<string, nat> := {}, map[];
    StartProgress(paths);
    while true
      invariant Underway(host, dir, paths, missing, busy, calls, rounds, looked, at)
      decreases (BUSY_RETRIES + 1) * |paths| - rounds
    {
      var verdict, next, err := Round(host, dir, paths, missing, busy, calls, rounds, looked, at);
      rounds, calls := rounds + 1, next;
      if verdict.Ended? {
        return verdict.result, calls, rounds, looked, at;
      }
      missing, busy := NowMissing(missing, err), NowBusy(busy, err);
      looked, at := looked + [err], at + [calls - 1];
    }
  }
}
