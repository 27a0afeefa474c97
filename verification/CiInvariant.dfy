/**
 The inductive invariant of the CI server and its preservation by every actor. The invariant is
 split by concern: control flow, running work, status history, and the snapshots goroutines hold.
 */
module CiInvariant {
  import opened JobTable
  import opened SqliteStore
  import opened CiServer

  // ------------------------------------------------------------------
  // Control: flags and program counters
  // ------------------------------------------------------------------

  predicate Draining(u: Update) {
    u.Polling? || Emptied(u)
  }

  /** From the observed zero running count to the end of a successful preparation. */
  predicate Emptied(u: Update) {
    u.SawNoRunning? || u.JoiningWorkers? || Handing(u)
  }

  predicate Handing(u: Update) {
    u.Flushing? || u.Flushed? || u.UpdateReady? || u.HandedOver?
  }

  predicate PastLock(m: Stage) {
    !m.Serving? && !m.Stopping?
  }

  predicate PastTasks(m: Stage) {
    m.Recovering? || m.Canceling? || m.FinalReport? || m.Returned?
  }

  predicate ForUpdate(m: Stage) {
    match m
    case Serving => false
    case Stopping(u) => u
    case ClosingHttp(u) => u
    case JoiningProcessing(u) => u
    case JoiningTasks(u) => u
    case Returned(candidate) => candidate
    case _ => false
  }

  predicate ShuttingDown(m: Stage) {
    !m.Serving? && !ForUpdate(m)
  }

  predicate Control(s: Server) {
    && (s.mutex.ByDispatcher? <==> s.dispatcher.DispHolding? || s.dispatcher.DispClaimed?)
    && (s.mutex.ByWebhook? ==> s.accepting)
    && (s.updating <==> !s.update.Idle?)
    && s.closed == (if s.update.HandedOver? then 1 else 0)
    && (s.ctxDone <==> PastLock(s.main))
    && (!s.ctxDone ==> s.accepting)
    && (PastLock(s.main) && !ForUpdate(s.main) ==> !s.accepting)
    && (Draining(s.update) ==> s.draining && s.candidate)
    && (s.draining ==> Draining(s.update) || s.update.UpdateFailed?)
    && (s.procCanceled ==> s.ctxDone || s.update.JoiningWorkers? || Handing(s.update))
    && (s.update.JoiningWorkers? || Handing(s.update) ==> s.procCanceled)
    && (Handing(s.update) ==> WorkersExited(s))
    && (s.main.JoiningTasks? || PastTasks(s.main) ==> WorkersExited(s))
    && (PastTasks(s.main) ==> s.update.Idle? || s.update.HandedOver?)
    && (ForUpdate(s.main) ==> s.update.HandedOver? && s.accepting)
    && (s.dispatcher.DispExited? ==> s.execs == map[])
  }

  // ------------------------------------------------------------------
  // Running work
  // ------------------------------------------------------------------

  predicate ExecOk(e: Exec, row: Row) {
    match e
    case Starting => row.state.Running?
    case Executing => row.state.Running?
    case Finishing(state, message) =>
      row.state.Running? || (row.state == state && row.message == message && Terminal(state))
    case Rereading(state, message) => row.state == state && row.message == message && Terminal(state)
    case Retrying(state, message) =>
      row.state.Running? || (row.state == state && row.message == message && Terminal(state))
  }

  predicate HandsOn(t: Table, s: Server, job: Job) {
    job.id in t && t[job.id].state.Running? && job.id !in s.execs
  }

  predicate NothingRuns(s: Server) {
    Emptied(s.update) || s.main.Canceling? || s.main.FinalReport? || s.main.Returned?
  }

  predicate Work(t: Table, s: Server) {
    && (forall id | id in s.execs :: id in t && ExecOk(s.execs[id], t[id]))
    && (s.dispatcher.DispClaimed? && s.dispatcher.won.Some? ==> HandsOn(t, s, s.dispatcher.won.value))
    && (s.dispatcher.DispSpawn? ==> HandsOn(t, s, s.dispatcher.job))
    && |WithState(t, Running)| <= s.setup.maxParallel
    && (NothingRuns(s) ==> WithState(t, Running) == {})
    && (s.main.FinalReport? || s.main == Returned(false) ==> WithState(t, Queued) == {})
  }

  // ------------------------------------------------------------------
  // Status history and held snapshots
  // ------------------------------------------------------------------

  /** The statuses accepted for one job, against its current row. */
  ghost predicate LogOk(row: Row, log: seq<Status>) {
    && (forall i | 0 <= i < |log| ::
          && log[i].version <= row.version
          && (log[i].version == row.version || Terminal(log[i].state) ==> log[i] == Status(row.version, row.state)))
    && (forall i, j | 0 <= i < j < |log| :: log[i].version <= log[j].version)
  }

  ghost predicate Delivered(row: Row, log: seq<Status>) {
    log != [] && log[|log| - 1] == Status(row.version, row.state)
  }

  ghost predicate Statuses(t: Table, g: Log) {
    && (forall id | id in g :: id in t && LogOk(t[id], g[id]))
    && (forall id | id in t && t[id].reported :: Delivered(t[id], Accepted(g, id)))
  }

  ghost predicate Known(t: Table, job: Job) {
    job.id in t && RowOk(job.row) && RowLater(job.row, t[job.id])
  }

  /** A snapshot still to be sent is not behind what GitHub has, and its row is unacknowledged. */
  ghost predicate Sendable(t: Table, g: Log, job: Job) {
    !job.row.reported ==>
      && job.id in t && !t[job.id].reported
      && forall k | 0 <= k < |Accepted(g, job.id)| :: Accepted(g, job.id)[k].version <= job.row.version
  }

  ghost predicate Pending(t: Table, g: Log, rest: seq<Job>) {
    && (forall i | 0 <= i < |rest| :: Known(t, rest[i]) && Sendable(t, g, rest[i]))
    && (forall i, j | 0 <= i < j < |rest| :: rest[i].id != rest[j].id)
  }

  ghost predicate PassOk(t: Table, g: Log, p: Pass) {
    match p
    case ReportNext(rest) => Pending(t, g, rest)
    case ReportInFlight(rest) => Pending(t, g, rest) && rest != [] && !rest[0].row.reported
    case ReportAccepted(rest) => Pending(t, g, rest) && Sent(g, rest)
    case ReportAck(rest) => Pending(t, g, rest) && Sent(g, rest)
    case _ => true
  }

  /** The head of the pass is the last status GitHub accepted for its job. */
  ghost predicate Sent(g: Log, rest: seq<Job>) {
    && rest != [] && !rest[0].row.reported
    && Accepted(g, rest[0].id) != []
    && Accepted(g, rest[0].id)[|Accepted(g, rest[0].id)| - 1] == StatusOf(rest[0])
  }

  ghost predicate AllKnown(t: Table, rest: seq<Job>) {
    forall i | 0 <= i < |rest| :: Known(t, rest[i])
  }

  /** Cleanup works on a job whose snapshot is terminal. */
  ghost predicate RetryOk(t: Table, g: Log, r: Retry) {
    match r
    case Reporting(p) => PassOk(t, g, p)
    case CleanNext(rest) => AllKnown(t, rest)
    case CleanBusy(rest) => AllKnown(t, rest) && rest != [] && Terminal(rest[0].row.state)
    case CleanMark(rest) => AllKnown(t, rest) && rest != [] && Terminal(rest[0].row.state)
    case _ => true
  }

  ghost predicate Snapshots(t: Table, g: Log, s: Server) {
    && RetryOk(t, g, s.retry)
    && (s.update.Flushing? ==> PassOk(t, g, s.update.pass))
    && (s.main.FinalReport? ==> PassOk(t, g, s.main.pass))
  }

  // ------------------------------------------------------------------
  // The whole invariant
  // ------------------------------------------------------------------

  ghost predicate ServerOk(w: World, s: Server) {
    && Control(s)
    && Work(w.table, s)
    && Snapshots(w.table, w.github, s)
    && (ShuttingDown(s.main) ==> w.disrupted)
    && (s.mutex.ByWebhook? ==> s.mutex.job.row.state.Queued?)
  }

  ghost predicate Persistent(w: World) {
    w.clock > 0 && TableOk(w.table) && Statuses(w.table, w.github)
  }

  ghost predicate Inv(w: World) {
    match w.process
    case Down(handover) => Persistent(w) && if handover then WithState(w.table, Running) == {} else w.disrupted
    case Up(s) => Persistent(w) && ServerOk(w, s)
  }

  // ------------------------------------------------------------------
  // Effect of statements on the history parts
  // ------------------------------------------------------------------

  /** The table moved on and no row was newly acknowledged. */
  ghost predicate Moves(t: Table, t': Table) {
    && TableOk(t) && TableOk(t') && Later(t, t')
    && forall id | id in t' && t'[id].reported :: id in t && t[id].reported && t[id].version == t'[id].version
  }

  lemma StatementMoves(t: Table, s: Statement)
    requires TableOk(t) && Allowed(s) && !s.Acknowledge?
    ensures Moves(t, Apply(t, s))
  {
    StatementKeeps(t, s);
    StatementSteps(t, s);
    forall id | id in Apply(t, s) && Apply(t, s)[id].reported
      ensures id in t && t[id].reported && t[id].version == Apply(t, s)[id].version
    {
      assert id in t && RowStep(t[id], Apply(t, s)[id]);
    }
  }

  lemma StatusesMove(t: Table, t': Table, g: Log)
    requires Moves(t, t') && Statuses(t, g)
    ensures Statuses(t', g)
  {
    forall id | id in g ensures id in t' && LogOk(t'[id], g[id]) {
      assert LogOk(t[id], g[id]) && RowLater(t[id], t'[id]);
    }
    forall id | id in t' && t'[id].reported ensures Delivered(t'[id], Accepted(g, id)) {
      assert Delivered(t[id], Accepted(g, id)) && RowLater(t[id], t'[id]);
    }
  }

  lemma KnownMoves(t: Table, t': Table, rest: seq<Job>)
    requires TableOk(t) && Later(t, t') && AllKnown(t, rest)
    ensures AllKnown(t', rest)
  {
    forall i | 0 <= i < |rest| ensures Known(t', rest[i]) {
      assert Known(t, rest[i]);
      RowLaterTransitive(rest[i].row, t[rest[i].id], t'[rest[i].id]);
    }
  }

  lemma PendingMoves(t: Table, t': Table, g: Log, rest: seq<Job>)
    requires Moves(t, t') && Pending(t, g, rest)
    ensures Pending(t', g, rest)
  {
    KnownMoves(t, t', rest);
    forall i | 0 <= i < |rest| ensures Sendable(t', g, rest[i]) {
      assert Known(t, rest[i]) && Sendable(t, g, rest[i]) && Known(t', rest[i]);
    }
  }

  lemma PassMoves(t: Table, t': Table, g: Log, p: Pass)
    requires Moves(t, t') && PassOk(t, g, p)
    ensures PassOk(t', g, p)
  {
    match p
    case ReportNext(rest) => PendingMoves(t, t', g, rest);
    case ReportInFlight(rest) => PendingMoves(t, t', g, rest);
    case ReportAccepted(rest) => PendingMoves(t, t', g, rest);
    case ReportAck(rest) => PendingMoves(t, t', g, rest);
    case _ =>
  }

  lemma SnapshotsMove(t: Table, t': Table, g: Log, s: Server)
    requires Moves(t, t') && Snapshots(t, g, s)
    ensures Snapshots(t', g, s)
  {
    match s.retry {
      case Reporting(p) => PassMoves(t, t', g, p);
      case CleanNext(rest) => KnownMoves(t, t', rest);
      case CleanBusy(rest) => KnownMoves(t, t', rest);
      case CleanMark(rest) => KnownMoves(t, t', rest);
      case _ =>
    }
    if s.update.Flushing? { PassMoves(t, t', g, s.update.pass); }
    if s.main.FinalReport? { PassMoves(t, t', g, s.main.pass); }
  }

  // ------------------------------------------------------------------
  // A reporting pass
  // ------------------------------------------------------------------

  lemma AcknowledgeDelivers(t: Table, g: Log, job: Job)
    requires Statuses(t, g) && Known(t, job)
    requires Accepted(g, job.id) != [] && Accepted(g, job.id)[|Accepted(g, job.id)| - 1] == StatusOf(job)
    ensures Statuses(AcknowledgeRow(t, job.id, job.row.version), g)
  {
    var t' := AcknowledgeRow(t, job.id, job.row.version);
    forall id | id in g ensures id in t' && LogOk(t'[id], g[id]) {
      assert LogOk(t[id], g[id]);
    }
    forall id | id in t' && t'[id].reported ensures Delivered(t'[id], Accepted(g, id)) {
      if id != job.id || t[id].reported {
        assert Delivered(t[id], Accepted(g, id));
      }
    }
  }

  lemma AcknowledgeKeepsTail(t: Table, g: Log, rest: seq<Job>)
    requires TableOk(t) && Pending(t, g, rest) && rest != []
    ensures Pending(AcknowledgeRow(t, rest[0].id, rest[0].row.version), g, rest[1..])
  {
    var t' := AcknowledgeRow(t, rest[0].id, rest[0].row.version);
    StatementKeeps(t, Acknowledge(rest[0].id, rest[0].row.version));
    TailPending(t, g, rest);
    KnownMoves(t, t', rest[1..]);
    forall i | 0 <= i < |rest[1..]| ensures Sendable(t', g, rest[1..][i]) {
      assert rest[i + 1].id != rest[0].id && Sendable(t, g, rest[1..][i]);
    }
  }

  lemma AcceptedKeepsStatuses(t: Table, g: Log, rest: seq<Job>)
    requires TableOk(t) && Statuses(t, g) && Pending(t, g, rest) && rest != [] && !rest[0].row.reported
    ensures
      var g' := g[rest[0].id := Accepted(g, rest[0].id) + [StatusOf(rest[0])]];
      Statuses(t, g') && Pending(t, g', rest) && Sent(g', rest)
  {
    var job := rest[0];
    var g' := g[job.id := Accepted(g, job.id) + [StatusOf(job)]];
    assert Known(t, job) && Sendable(t, g, job);
    forall id | id in g' ensures id in t && LogOk(t[id], g'[id]) {
      assert id in g ==> LogOk(t[id], g[id]);
    }
    forall id | id in t && t[id].reported ensures Delivered(t[id], Accepted(g', id)) {
      assert id != job.id && Accepted(g', id) == Accepted(g, id);
    }
    forall i | 0 <= i < |rest| ensures Known(t, rest[i]) && Sendable(t, g', rest[i]) {
      assert Known(t, rest[i]) && Sendable(t, g, rest[i]);
      assert i > 0 ==> Accepted(g', rest[i].id) == Accepted(g, rest[i].id);
    }
  }

  lemma FreshListing(t: Table, g: Log, jobs: seq<Job>)
    requires TableOk(t) && Statuses(t, g) && IsUnsettled(t, jobs)
    ensures Pending(t, g, jobs) && AllKnown(t, jobs)
  {
    forall i | 0 <= i < |jobs| ensures Known(t, jobs[i]) && Sendable(t, g, jobs[i]) {
      assert jobs[i].id in OpenIds(t) && jobs[i].row == t[jobs[i].id];
      assert jobs[i].id in g ==> LogOk(t[jobs[i].id], g[jobs[i].id]);
    }
  }

  lemma TailPending(t: Table, g: Log, rest: seq<Job>)
    requires Pending(t, g, rest) && rest != []
    ensures Pending(t, g, rest[1..])
  {
    forall i | 0 <= i < |rest[1..]| ensures Known(t, rest[1..][i]) && Sendable(t, g, rest[1..][i]) {
      assert Known(t, rest[i + 1]) && Sendable(t, g, rest[i + 1]);
    }
  }

  lemma PassKeeps(t: Table, g: Log, p: Pass, t': Table, g': Log, p': Pass)
    requires TableOk(t) && Statuses(t, g) && PassOk(t, g, p) && PassNext(t, g, p, t', g', p')
    ensures Statuses(t', g') && PassOk(t', g', p')
    ensures t' == t || (p.ReportAck? && p.rest != [] && t' == AcknowledgeRow(t, p.rest[0].id, p.rest[0].row.version))
  {
    match p
    case ReportList =>
      if p'.ReportNext? { FreshListing(t, g, p'.rest); }
    case ReportNext(rest) =>
      if rest != [] { TailPending(t, g, rest); }
    case ReportInFlight(rest) =>
      AcceptedKeepsStatuses(t, g, rest);
      TailPending(t, g, rest);
    case ReportAccepted(rest) => TailPending(t, g, rest);
    case ReportAck(rest) =>
      assert Known(t, rest[0]);
      AcknowledgeDelivers(t, g, rest[0]);
      AcknowledgeKeepsTail(t, g, rest);
    case ReportDone(_) =>
  }
}
