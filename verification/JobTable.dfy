/**
 The durable job table of cmd/ci: the rows, each SQL statement as one function from table to
 table, and what every sequence of statements keeps, whoever issues them.
 */
module JobTable {
  import opened Prelude
  import opened Text

  /** The sixteen digest bytes of a job ID; fixed-width lower-case hex orders as the number does. */
  type JobId = nat

  datatype State = Queued | Running | Success | Failure | Error

  predicate Terminal(state: State) {
    state.Success? || state.Failure? || state.Error?
  }

  /** finishedAt is the stored column: 0 while the job has not finished. */
  datatype Row = Row(
    repository: string, repositoryName: string, workspace: string, sha: string, ref: string,
    state: State, message: string, createdAt: int, finishedAt: int,
    reported: bool, cleaned: bool, version: nat)

  datatype Job = Job(id: JobId, row: Row)

  type Table = map<JobId, Row>

  const CLAIMED_MESSAGE := "Building and running Dockerfile.chamber"
  const INTERRUPTED_MESSAGE := "Job interrupted by CI server shutdown or restart"
  const CANCELED_MESSAGE := "CI server stopped before job started"

  /** Nanoseconds of Go's zero time, 1 January of year 1. */
  const ZERO_TIME: int := -62135596800_000_000_000

  // ------------------------------------------------------------------
  // Admission checks
  // ------------------------------------------------------------------

  predicate Alphanumeric(c: char) {
    'a' <= c <= 'z' || 'A' <= c <= 'Z' || '0' <= c <= '9'
  }

  predicate RouteName(s: string) {
    s != "" && forall i | 0 <= i < |s| :: Alphanumeric(s[i]) || s[i] == '_' || s[i] == '-'
  }

  predicate NamePart(s: string) {
    s != "" && forall i | 0 <= i < |s| :: Alphanumeric(s[i]) || s[i] == '_' || s[i] == '.' || s[i] == '-'
  }

  predicate RepositoryName(s: string) {
    exists i | 0 <= i < |s| :: s[i] == '/' && NamePart(s[..i]) && NamePart(s[i + 1..])
  }

  lemma TwoParts(owner: string, name: string)
    requires NamePart(owner) && NamePart(name)
    ensures Split(owner + ['/'] + name, '/') == [owner, name] && RepositoryName(owner + ['/'] + name)
  {
    var s, i := owner + ['/'] + name, |owner|;
    SplitHead(owner, name, '/');
    assert Split(name, '/') == [name];
    assert s[i] == '/' && s[..i] == owner && s[i + 1..] == name;
  }

  /** A repository name is two name parts around its only slash. */
  lemma RepositoryNameSplits(s: string)
    ensures RepositoryName(s) <==>
      |Split(s, '/')| == 2 && NamePart(Split(s, '/')[0]) && NamePart(Split(s, '/')[1])
  {
    if RepositoryName(s) {
      var i :| 0 <= i < |s| && s[i] == '/' && NamePart(s[..i]) && NamePart(s[i + 1..]);
      assert s == s[..i] + ['/'] + s[i + 1..];
      TwoParts(s[..i], s[i + 1..]);
    }
    if |Split(s, '/')| == 2 && NamePart(Split(s, '/')[0]) && NamePart(Split(s, '/')[1]) {
      var owner, name := Split(s, '/')[0], Split(s, '/')[1];
      SplitIsSeparation(s, '/');
      assert Split(s, '/')[1..] == [name] && s == owner + ['/'] + name;
      TwoParts(owner, name);
    }
  }

  predicate CommitSha(s: string) {
    |s| == 40 && forall i | 0 <= i < |s| :: '0' <= s[i] <= '9' || 'a' <= s[i] <= 'f'
  }

  predicate AbsolutePath(s: string) {
    s != "" && s[0] == '/'
  }

  /** jobID hashes the repository key, a NUL and the commit. */
  function JobIdOf(digest: string -> JobId, repository: string, sha: string): JobId {
    digest(repository + "\0" + sha)
  }

  predicate Admissible(digest: string -> JobId, job: Job, maxQueued: int) {
    && maxQueued >= 1
    && RouteName(job.row.repository)
    && RepositoryName(job.row.repositoryName)
    && AbsolutePath(job.row.workspace)
    && CommitSha(job.row.sha)
    && job.id == JobIdOf(digest, job.row.repository, job.row.sha)
    && job.row.state.Queued?
    && job.row.createdAt != ZERO_TIME
  }

  ghost predicate Injective(digest: string -> JobId) {
    forall a, b :: digest(a) == digest(b) ==> a == b
  }

  /** A route name holds no NUL, so the hashed text splits back into repository and commit. */
  lemma JobIdNamesOneCommit(digest: string -> JobId, r1: string, s1: string, r2: string, s2: string)
    requires Injective(digest) && RouteName(r1) && RouteName(r2)
    ensures JobIdOf(digest, r1, s1) == JobIdOf(digest, r2, s2) <==> r1 == r2 && s1 == s2
  {
    if JobIdOf(digest, r1, s1) == JobIdOf(digest, r2, s2) {
      SplitsAt(r1, s1, r2, s2, '\0');
    }
  }

  // ------------------------------------------------------------------
  // Statements
  // ------------------------------------------------------------------

  function WithState(t: Table, state: State): set<JobId> {
    set id | id in t && t[id].state == state
  }

  /** ORDER BY created_at, id. */
  predicate Before(t: Table, a: JobId, b: JobId)
    requires a in t && b in t
  {
    t[a].createdAt < t[b].createdAt || (t[a].createdAt == t[b].createdAt && a < b)
  }

  predicate Oldest(t: Table, ids: set<JobId>, id: JobId)
    requires ids <= t.Keys
  {
    id in ids && forall k | k in ids && k != id :: Before(t, id, k)
  }

  ghost predicate Claims(t: Table, maxParallel: int, id: JobId) {
    Oldest(t, WithState(t, Queued), id) && |WithState(t, Running)| < maxParallel
  }

  ghost function Claimant(t: Table, maxParallel: int): (winner: Option<JobId>)
    ensures winner.Some? ==> Claims(t, maxParallel, winner.value)
    ensures winner.None? ==> forall id :: !Claims(t, maxParallel, id)
    ensures winner.Some? ==>
      && winner.value in t && t[winner.value].state.Queued? && |WithState(t, Running)| < maxParallel
      && forall k | k in t && t[k].state.Queued? && k != winner.value ::
           || t[winner.value].createdAt < t[k].createdAt
           || (t[winner.value].createdAt == t[k].createdAt && winner.value < k)
  {
    if exists id :: Claims(t, maxParallel, id) then
      var id :| Claims(t, maxParallel, id);
      assert forall k | k in t && t[k].state.Queued? :: k in WithState(t, Queued);
      Some(id)
    else None
  }

  function Admitted(row: Row): Row {
    row.(finishedAt := 0, reported := false, cleaned := false, version := 1)
  }

  function Claimed(row: Row): Row {
    row.(state := Running, message := CLAIMED_MESSAGE, reported := false, version := row.version + 1)
  }

  function Ended(row: Row, state: State, message: string, now: int): Row {
    row.(state := state, message := message, finishedAt := now, reported := false, version := row.version + 1)
  }

  /** One UPDATE that ends every row in a given state with the error outcome. */
  function EndAll(t: Table, state: State, message: string, now: int): Table {
    map id | id in t :: if t[id].state == state then Ended(t[id], Error, message, now) else t[id]
  }

  datatype Statement =
    | Insert(job: Job, maxQueued: int)
    | Claim(maxParallel: int)
    | Finish(id: JobId, state: State, message: string, now: int)
    | Acknowledge(id: JobId, version: nat)
    | MarkCleaned(id: JobId)
    | RecoverInterrupted(now: int)
    | CancelQueued(now: int)

  /** What the callers in this package pass: queued inserts, terminal outcomes, a clock after 1970. */
  predicate Allowed(s: Statement) {
    match s
    case Insert(job, _) => job.row.state.Queued?
    case Finish(_, state, _, now) => Terminal(state) && now > 0
    case RecoverInterrupted(now) => now > 0
    case CancelQueued(now) => now > 0
    case _ => true
  }

  ghost function InsertRow(t: Table, job: Job, maxQueued: int): Table {
    if job.id !in t && |WithState(t, Queued)| < maxQueued then t[job.id := Admitted(job.row)] else t
  }

  ghost function ClaimRow(t: Table, maxParallel: int): Table {
    var winner := Claimant(t, maxParallel);
    if winner.Some? then t[winner.value := Claimed(t[winner.value])] else t
  }

  function FinishRow(t: Table, id: JobId, state: State, message: string, now: int): Table {
    if id in t && t[id].state.Running? then t[id := Ended(t[id], state, message, now)] else t
  }

  function AcknowledgeRow(t: Table, id: JobId, version: nat): Table {
    if id in t && t[id].version == version then t[id := t[id].(reported := true)] else t
  }

  function MarkCleanedRow(t: Table, id: JobId): Table {
    if id in t && Terminal(t[id].state) then t[id := t[id].(cleaned := true)] else t
  }

  function Recovered(t: Table, now: int): Table {
    EndAll(t, Running, INTERRUPTED_MESSAGE, now)
  }

  function QueueCanceled(t: Table, now: int): Table {
    EndAll(t, Queued, CANCELED_MESSAGE, now)
  }

  ghost function Apply(t: Table, s: Statement): Table {
    match s
    case Insert(job, maxQueued) => InsertRow(t, job, maxQueued)
    case Claim(maxParallel) => ClaimRow(t, maxParallel)
    case Finish(id, state, message, now) => FinishRow(t, id, state, message, now)
    case Acknowledge(id, version) => AcknowledgeRow(t, id, version)
    case MarkCleaned(id) => MarkCleanedRow(t, id)
    case RecoverInterrupted(now) => Recovered(t, now)
    case CancelQueued(now) => QueueCanceled(t, now)
  }

  /** At most one row can be claimed, so the choice inside `Claimant` is no choice. */
  lemma ClaimIsDetermined(t: Table, maxParallel: int, id: JobId)
    requires Claims(t, maxParallel, id)
    ensures Claimant(t, maxParallel) == Some(id)
  {
    forall k | Claims(t, maxParallel, k) ensures k == id {
    }
  }

  lemma OldestExists(t: Table, ids: set<JobId>) returns (id: JobId)
    requires ids <= t.Keys && ids != {}
    ensures Oldest(t, ids, id)
    decreases |ids|
  {
    id :| id in ids;
    if ids != {id} {
      var rest := OldestExists(t, ids - {id});
      if Before(t, rest, id) {
        id := rest;
      } else {
        forall k | k in ids && k != id ensures Before(t, id, k) {
          assert k == rest || Before(t, rest, k);
        }
      }
    }
  }

  // ------------------------------------------------------------------
  // What every row looks like, and how it can change
  // ------------------------------------------------------------------

  predicate RowOk(row: Row) {
    && (row.state.Queued? <==> row.version == 1)
    && (row.state.Running? ==> row.version == 2)
    && (Terminal(row.state) ==> 2 <= row.version <= 3)
    && (row.finishedAt != 0 <==> Terminal(row.state))
    && (row.cleaned ==> Terminal(row.state))
  }

  ghost predicate TableOk(t: Table) {
    forall id | id in t :: RowOk(t[id])
  }

  /** What stays true of a row from one moment to any later one. */
  ghost predicate RowLater(was: Row, now: Row) {
    && was.version <= now.version
    && (was.version == now.version ==>
          was.(reported := now.reported, cleaned := now.cleaned) == now && (was.reported ==> now.reported))
    && (Terminal(was.state) ==> was.version == now.version)
    && (was.cleaned ==> now.cleaned)
    && was.repository == now.repository && was.sha == now.sha && was.createdAt == now.createdAt
  }

  ghost predicate Later(was: Table, now: Table) {
    forall id | id in was :: id in now && RowLater(was[id], now[id])
  }

  /** Upper bound on the effective writes a row can still receive. */
  function Rank(row: Row): nat {
    match row.state
    case Queued => if row.reported then 5 else 6
    case Running => if row.reported then 3 else 4
    case _ => (if row.reported then 0 else 1) + (if row.cleaned then 0 else 1)
  }

  /** The ways one statement can rewrite one row. */
  predicate RowStep(was: Row, now: Row) {
    || now == was
    || (was.state.Queued? && now == Claimed(was))
    || (!Terminal(was.state) && Terminal(now.state) && now.finishedAt > 0
        && now == Ended(was, now.state, now.message, now.finishedAt))
    || now == was.(reported := true)
    || (Terminal(was.state) && now == was.(cleaned := true))
  }

  lemma RowStepKeeps(was: Row, now: Row)
    requires RowOk(was) && RowStep(was, now)
    ensures RowOk(now) && RowLater(was, now)
    ensures now != was ==> Rank(now) < Rank(was)
  {
  }

  lemma StatementSteps(t: Table, s: Statement)
    requires Allowed(s)
    ensures forall id | id in t :: id in Apply(t, s) && RowStep(t[id], Apply(t, s)[id])
    ensures forall id | id in Apply(t, s) && id !in t ::
      s.Insert? && id == s.job.id && Apply(t, s)[id] == Admitted(s.job.row)
  {
  }

  lemma StatementKeeps(t: Table, s: Statement)
    requires TableOk(t) && Allowed(s)
    ensures TableOk(Apply(t, s)) && Later(t, Apply(t, s))
    ensures forall id | id in t && Apply(t, s)[id] != t[id] :: Rank(Apply(t, s)[id]) < Rank(t[id])
  {
    StatementSteps(t, s);
    forall id | id in t
      ensures RowOk(Apply(t, s)[id]) && RowLater(t[id], Apply(t, s)[id])
      ensures Apply(t, s)[id] != t[id] ==> Rank(Apply(t, s)[id]) < Rank(t[id])
    {
      RowStepKeeps(t[id], Apply(t, s)[id]);
    }
  }

  lemma RowLaterTransitive(a: Row, b: Row, c: Row)
    requires RowOk(a) && RowOk(b) && RowLater(a, b) && RowLater(b, c)
    ensures RowLater(a, c)
  {
  }

  lemma LaterTransitive(a: Table, b: Table, c: Table)
    requires TableOk(a) && TableOk(b) && Later(a, b) && Later(b, c)
    ensures Later(a, c)
  {
    forall id | id in a ensures id in c && RowLater(a[id], c[id]) {
      assert id in b;
      RowLaterTransitive(a[id], b[id], c[id]);
    }
  }

  ghost predicate Next(was: Table, now: Table) {
    was == now || exists s :: Allowed(s) && now == Apply(was, s)
  }

  lemma NextKeeps(was: Table, now: Table)
    requires TableOk(was) && Next(was, now)
    ensures TableOk(now) && Later(was, now)
    ensures forall id | id in was && now[id] != was[id] :: Rank(now[id]) < Rank(was[id])
  {
    if was != now {
      var s :| Allowed(s) && now == Apply(was, s);
      StatementKeeps(was, s);
    }
  }

  // ------------------------------------------------------------------
  // Whole histories: any statements, from any number of connections
  // ------------------------------------------------------------------

  ghost predicate NextAt(ts: seq<Table>, i: nat)
    requires 0 < i < |ts|
  {
    Next(ts[i - 1], ts[i])
  }

  ghost predicate History(ts: seq<Table>) {
    && ts != []
    && ts[0] == map[]
    && forall i | 0 < i < |ts| :: NextAt(ts, i)
  }

  lemma {:induction false} HistoryOk(ts: seq<Table>, i: nat)
    requires History(ts) && i < |ts|
    ensures TableOk(ts[i])
  {
    if i == 0 {
    } else {
      HistoryOk(ts, i - 1);
      assert NextAt(ts, i);
      NextKeeps(ts[i - 1], ts[i]);
    }
  }

  lemma HistoryMoves(ts: seq<Table>, j: nat)
    requires History(ts) && 0 < j < |ts|
    ensures TableOk(ts[j - 1]) && Later(ts[j - 1], ts[j])
  {
    HistoryOk(ts, j - 1);
    assert NextAt(ts, j);
    NextKeeps(ts[j - 1], ts[j]);
  }

  /** A row read at one time and again later: nothing is lost, and a version has one outcome. */
  lemma {:induction false} HistoryLater(ts: seq<Table>, i: nat, j: nat)
    requires History(ts) && i <= j < |ts|
    ensures Later(ts[i], ts[j])
    decreases j - i
  {
    if i == j {
    } else {
      HistoryLater(ts, i, j - 1);
      HistoryOk(ts, i);
      HistoryMoves(ts, j);
      LaterTransitive(ts[i], ts[j - 1], ts[j]);
    }
  }

  ghost function WritesTo(ts: seq<Table>, id: JobId): nat {
    if |ts| < 2 then 0
    else
      var n := |ts| - 1;
      WritesTo(ts[..n], id) + (if id in ts[n - 1] && id in ts[n] && ts[n - 1][id] != ts[n][id] then 1 else 0)
  }

  /** After admission a job receives at most six effective writes, whatever the schedule. */
  lemma {:induction false} AtMostSixWrites(ts: seq<Table>, id: JobId)
    requires History(ts)
    ensures WritesTo(ts, id) <= 6
    ensures id !in ts[|ts| - 1] ==> WritesTo(ts, id) == 0
    ensures id in ts[|ts| - 1] ==> WritesTo(ts, id) + Rank(ts[|ts| - 1][id]) <= 6
  {
    if |ts| > 1 {
      var n := |ts| - 1;
      assert forall i | 0 < i < n :: NextAt(ts, i) ==> NextAt(ts[..n], i);
      AtMostSixWrites(ts[..n], id);
      HistoryOk(ts, n - 1);
      assert NextAt(ts, n);
      NextKeeps(ts[n - 1], ts[n]);
    }
  }

  ghost predicate ClaimedAt(ts: seq<Table>, i: nat, id: JobId) {
    && 0 < i < |ts| && id in ts[i - 1] && id in ts[i]
    && ts[i - 1][id].state.Queued? && ts[i][id].state.Running?
  }

  lemma NeverQueuedAgain(ts: seq<Table>, i: nat, j: nat, id: JobId)
    requires History(ts) && i <= j < |ts| && id in ts[i] && !ts[i][id].state.Queued?
    ensures id in ts[j] && !ts[j][id].state.Queued?
  {
    HistoryLater(ts, i, j);
    HistoryOk(ts, i);
    HistoryOk(ts, j);
    assert RowOk(ts[i][id]) && RowLater(ts[i][id], ts[j][id]);
  }

  /** No job is handed to an executor twice, over any history of the table. */
  lemma ClaimedOnce(ts: seq<Table>, i: nat, j: nat, id: JobId)
    requires History(ts) && ClaimedAt(ts, i, id) && ClaimedAt(ts, j, id)
    ensures i == j
  {
    if i < j {
      NeverQueuedAgain(ts, i, j - 1, id);
    } else if j < i {
      NeverQueuedAgain(ts, j, i - 1, id);
    }
  }

  /** A claim never overtakes an older queued job. */
  lemma ClaimedInOrder(ts: seq<Table>, i: nat, id: JobId, other: JobId)
    requires History(ts) && ClaimedAt(ts, i, id)
    requires other in ts[i - 1] && ts[i - 1][other].state.Queued? && other != id
    ensures
      var claimed, waiting := ts[i - 1][id], ts[i - 1][other];
      claimed.createdAt < waiting.createdAt || (claimed.createdAt == waiting.createdAt && id < other)
    ensures other in ts[i] && ts[i][other] == ts[i - 1][other]
  {
    var t := ts[i - 1];
    HistoryOk(ts, i - 1);
    assert NextAt(ts, i);
    var s :| Allowed(s) && ts[i] == Apply(t, s);
    assert s.Claim?;
    assert other in WithState(t, Queued);
  }

  // ------------------------------------------------------------------
  // Limits
  // ------------------------------------------------------------------

  /** What the server's configuration fixes for every statement. */
  datatype Setup = Setup(digest: string -> JobId, maxQueued: nat, maxParallel: nat)

  /** Statements the store's methods issue when called with the configured limits. */
  predicate Within(s: Statement, setup: Setup) {
    && Allowed(s)
    && (s.Insert? ==> s.maxQueued == setup.maxQueued && Admissible(setup.digest, s.job, s.maxQueued))
    && (s.Claim? ==> s.maxParallel == setup.maxParallel)
  }

  ghost predicate NextWithin(was: Table, now: Table, setup: Setup) {
    was == now || exists s :: Within(s, setup) && now == Apply(was, s)
  }

  ghost predicate NextWithinAt(ts: seq<Table>, i: nat, setup: Setup)
    requires 0 < i < |ts|
  {
    NextWithin(ts[i - 1], ts[i], setup)
  }

  ghost predicate LimitedHistory(ts: seq<Table>, setup: Setup) {
    && ts != []
    && ts[0] == map[]
    && forall i | 0 < i < |ts| :: NextWithinAt(ts, i, setup)
  }

  lemma RunningStays(t: Table, s: Statement)
    requires Allowed(s) && !s.Claim?
    ensures WithState(Apply(t, s), Running) <= WithState(t, Running)
  {
    StatementSteps(t, s);
    forall id | id in WithState(Apply(t, s), Running)
      ensures id in WithState(t, Running)
    {
      assert id in t && RowStep(t[id], Apply(t, s)[id]);
    }
  }

  /** Only a claim can add a running row, and only below its limit. */
  lemma RunningCounts(t: Table, s: Statement)
    requires Allowed(s)
    ensures |WithState(Apply(t, s), Running)| <= |WithState(t, Running)|
      || (s.Claim? && |WithState(Apply(t, s), Running)| <= s.maxParallel)
  {
    if s.Claim? {
      var winner := Claimant(t, s.maxParallel);
      if winner.Some? {
        assert WithState(ClaimRow(t, s.maxParallel), Running) == WithState(t, Running) + {winner.value};
      }
    } else {
      RunningStays(t, s);
      SubsetSize(WithState(Apply(t, s), Running), WithState(t, Running));
    }
  }

  lemma InsertQueues(t: Table, job: Job, maxQueued: int)
    requires job.row.state.Queued?
    ensures |WithState(InsertRow(t, job, maxQueued), Queued)| <= |WithState(t, Queued)|
      || |WithState(InsertRow(t, job, maxQueued), Queued)| <= maxQueued
  {
    var queued, now := WithState(t, Queued), WithState(InsertRow(t, job, maxQueued), Queued);
    if job.id !in t && |queued| < maxQueued {
      assert now == queued + {job.id};
    } else {
      assert now == queued;
    }
  }

  lemma QueuedStays(t: Table, s: Statement)
    requires Allowed(s) && !s.Insert?
    ensures WithState(Apply(t, s), Queued) <= WithState(t, Queued)
  {
    StatementSteps(t, s);
    forall id | id in WithState(Apply(t, s), Queued)
      ensures id in WithState(t, Queued)
    {
      assert id in t && RowStep(t[id], Apply(t, s)[id]);
    }
  }

  /** Only an insert can add a queued row, and only below its limit. */
  lemma QueuedCounts(t: Table, s: Statement)
    requires Allowed(s)
    ensures |WithState(Apply(t, s), Queued)| <= |WithState(t, Queued)|
      || (s.Insert? && |WithState(Apply(t, s), Queued)| <= s.maxQueued)
  {
    if s.Insert? {
      InsertQueues(t, s.job, s.maxQueued);
    } else {
      QueuedStays(t, s);
      SubsetSize(WithState(Apply(t, s), Queued), WithState(t, Queued));
    }
  }

  /** However many connections race, the queue and the execution slots stay within their limits. */
  lemma {:induction false} LimitsHold(ts: seq<Table>, setup: Setup, i: nat)
    requires LimitedHistory(ts, setup) && i < |ts|
    ensures |WithState(ts[i], Queued)| <= setup.maxQueued && |WithState(ts[i], Running)| <= setup.maxParallel
  {
    if i == 0 {
      assert WithState(ts[0], Queued) == {} && WithState(ts[0], Running) == {};
    } else {
      LimitsHold(ts, setup, i - 1);
      assert NextWithinAt(ts, i, setup);
      if ts[i] != ts[i - 1] {
        var s :| Within(s, setup) && ts[i] == Apply(ts[i - 1], s);
        RunningCounts(ts[i - 1], s);
        QueuedCounts(ts[i - 1], s);
      }
    }
  }

  predicate Named(digest: string -> JobId, id: JobId, row: Row) {
    RouteName(row.repository) && CommitSha(row.sha) && id == JobIdOf(digest, row.repository, row.sha)
  }

  lemma {:induction false} RowsAreNamed(ts: seq<Table>, setup: Setup, i: nat, id: JobId)
    requires LimitedHistory(ts, setup) && i < |ts| && id in ts[i]
    ensures Named(setup.digest, id, ts[i][id])
  {
    if i == 0 {
    } else {
      assert NextWithinAt(ts, i, setup);
      if id in ts[i - 1] {
        RowsAreNamed(ts, setup, i - 1, id);
      }
      if ts[i] != ts[i - 1] {
        var s :| Within(s, setup) && ts[i] == Apply(ts[i - 1], s);
        StatementSteps(ts[i - 1], s);
        assert id in ts[i - 1] ==> RowStep(ts[i - 1][id], ts[i][id]);
      }
    }
  }

  /** Push and pull-request deliveries share a row exactly when they name the same commit. */
  lemma OneRowPerCommit(ts: seq<Table>, setup: Setup, i: nat, a: JobId, b: JobId)
    requires LimitedHistory(ts, setup) && Injective(setup.digest) && i < |ts| && a in ts[i] && b in ts[i]
    ensures a == b <==> ts[i][a].repository == ts[i][b].repository && ts[i][a].sha == ts[i][b].sha
  {
    RowsAreNamed(ts, setup, i, a);
    RowsAreNamed(ts, setup, i, b);
    JobIdNamesOneCommit(setup.digest, ts[i][a].repository, ts[i][a].sha, ts[i][b].repository, ts[i][b].sha);
  }
}
