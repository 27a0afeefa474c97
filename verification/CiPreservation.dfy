/**
 Every actor's step keeps the invariant of CiInvariant, part by part: control flow needs no table,
 running work no status history, and the history no program counter.
 */
module CiPreservation {
  import opened Prelude
  import opened JobTable
  import opened CiServer
  import opened CiInvariant

  // ------------------------------------------------------------------
  // The server only ever issues the store's statements
  // ------------------------------------------------------------------

  lemma PassWrites(t: Table, g: Log, p: Pass, t': Table, g': Log, p': Pass, setup: Setup)
    requires PassNext(t, g, p, t', g', p')
    ensures NextWithin(t, t', setup)
  {
    if t' != t {
      var st := Acknowledge(p.rest[0].id, p.rest[0].row.version);
      assert Within(st, setup) && t' == Apply(t, st);
    }
  }

  lemma RetryWrites(t: Table, g: Log, s: Server, t': Table, g': Log, s': Server)
    requires RetryNext(t, g, s, t', g', s')
    ensures NextWithin(t, t', s.setup)
  {
    if s.retry.Reporting? && !s.retry.pass.ReportDone? {
      PassWrites(t, g, s.retry.pass, t', g', s'.retry.pass, s.setup);
    } else if t' != t {
      var st := MarkCleaned(s.retry.rest[0].id);
      assert Within(st, s.setup) && t' == Apply(t, st);
    }
  }

  lemma UpdateWrites(t: Table, g: Log, s: Server, t': Table, g': Log, s': Server)
    requires UpdateNext(t, g, s, t', g', s')
    ensures NextWithin(t, t', s.setup)
  {
    if s.update.Flushing? && !s.update.pass.ReportDone? {
      PassWrites(t, g, s.update.pass, t', g', s'.update.pass, s.setup);
    }
  }

  lemma DispatcherWrites(t: Table, s: Server, t': Table, s': Server)
    requires DispatcherNext(t, s, t', s')
    ensures t' == t || t' == Apply(t, Claim(s.setup.maxParallel))
  {
  }

  lemma ExecWrites(t: Table, s: Server, t': Table, s': Server, id: JobId, clock: int)
    requires ExecNext(t, s, t', s', id, clock)
    ensures
      var e := s.execs[id];
      t' == t || (e.Finishing? && Terminal(e.state) && t' == Apply(t, Finish(id, e.state, e.message, clock)))
  {
  }

  lemma WebhookWrites(t: Table, s: Server, t': Table, s': Server)
    requires WebhookNext(t, s, t', s')
    ensures t' == t ||
      (&& s.mutex.ByWebhook? && Admissible(s.setup.digest, s.mutex.job, s.setup.maxQueued)
       && t' == Apply(t, Insert(s.mutex.job, s.setup.maxQueued)))
  {
  }

  lemma MainWrites(w: World, s: Server, w': World)
    requires MainNext(w, s, w') && w.clock > 0
    ensures NextWithin(w.table, w'.table, s.setup)
  {
    if s.main.FinalReport? && !s.main.pass.ReportDone? {
      PassWrites(w.table, w.github, s.main.pass, w'.table, w'.github, w'.process.server.main.pass, s.setup);
    } else if w'.table != w.table {
      var st := if s.main.Recovering? then RecoverInterrupted(w.clock) else CancelQueued(w.clock);
      assert Within(st, s.setup) && w'.table == Apply(w.table, st);
    }
  }

  // ------------------------------------------------------------------
  // Control
  // ------------------------------------------------------------------

  lemma DispatcherControl(t: Table, s: Server, t': Table, s': Server)
    requires Control(s) && DispatcherNext(t, s, t', s')
    ensures Control(s')
  {
  }

  lemma ExecControl(t: Table, s: Server, t': Table, s': Server, id: JobId, clock: int)
    requires Control(s) && ExecNext(t, s, t', s', id, clock)
    ensures Control(s')
  {
  }

  lemma RetryControl(t: Table, g: Log, s: Server, t': Table, g': Log, s': Server)
    requires Control(s) && RetryNext(t, g, s, t', g', s')
    ensures Control(s')
  {
  }

  lemma WebhookControl(t: Table, s: Server, t': Table, s': Server)
    requires Control(s) && WebhookNext(t, s, t', s')
    ensures Control(s')
  {
  }

  lemma UpdateControl(t: Table, g: Log, s: Server, t': Table, g': Log, s': Server)
    requires Control(s) && UpdateNext(t, g, s, t', g', s')
    ensures Control(s')
  {
  }

  lemma MainControl(w: World, s: Server, w': World)
    requires Control(s) && MainNext(w, s, w')
    ensures w'.process.Up? ==> Control(w'.process.server)
  {
  }

  // ------------------------------------------------------------------
  // Work
  // ------------------------------------------------------------------

  lemma ClaimWork(t: Table, s: Server, s': Server)
    requires Control(s) && Work(t, s) && s.dispatcher.DispHolding? && !s.draining
    requires s' == s.(dispatcher := s'.dispatcher) && Claimant(t, s.setup.maxParallel).Some?
    requires
      var id := Claimant(t, s.setup.maxParallel).value;
      var t' := ClaimRow(t, s.setup.maxParallel);
      s'.dispatcher == DispClaimed(None) || s'.dispatcher == DispClaimed(Some(Job(id, t'[id])))
    ensures Work(ClaimRow(t, s.setup.maxParallel), s')
  {
    var t' := ClaimRow(t, s.setup.maxParallel);
    var id := Claimant(t, s.setup.maxParallel).value;
    assert t[id].state.Queued? && id !in s.execs by {
      assert id in s.execs ==> ExecOk(s.execs[id], t[id]);
    }
    assert WithState(t', Running) == WithState(t, Running) + {id};
  }

  lemma DispatcherWork(t: Table, s: Server, t': Table, s': Server)
    requires Control(s) && Work(t, s) && DispatcherNext(t, s, t', s')
    ensures Work(t', s')
  {
    if t' != t {
      ClaimWork(t, s, s');
    }
  }

  /** Work survives a table change that leaves state and message of every known row alone. */
  lemma WorkStays(t: Table, t': Table, s: Server)
    requires Work(t, s)
    requires forall id | id in t :: id in t' && t'[id].state == t[id].state && t'[id].message == t[id].message
    requires WithState(t', Running) == WithState(t, Running)
    requires s.main.FinalReport? || s.main == Returned(false) ==> WithState(t', Queued) == WithState(t, Queued)
    ensures Work(t', s)
  {
  }

  /** Work looks at the configuration, the dispatcher and the executors; at the rest only through two tests. */
  lemma SameWork(t: Table, s: Server, s': Server)
    requires Work(t, s)
    requires s'.setup == s.setup && s'.dispatcher == s.dispatcher && s'.execs == s.execs
    requires NothingRuns(s') ==> NothingRuns(s) || WithState(t, Running) == {}
    requires s'.main.FinalReport? || s'.main == Returned(false) ==>
      s.main.FinalReport? || s.main == Returned(false) || WithState(t, Queued) == {}
    ensures Work(t, s')
  {
  }

  lemma OthersStay(s: Server, s': Server, id: JobId)
    requires id in s.execs && s'.execs - {id} == s.execs - {id}
    ensures forall k | k in s'.execs :: k in s.execs && (k != id ==> s'.execs[k] == s.execs[k])
  {
    forall k | k in s'.execs ensures k in s.execs && (k != id ==> s'.execs[k] == s.execs[k]) {
      assert k != id ==> k in s'.execs - {id} && (s'.execs - {id})[k] == (s.execs - {id})[k];
    }
  }

  lemma FinishWork(t: Table, s: Server, t': Table, s': Server, id: JobId, row: Row)
    requires Work(t, s) && id in s.execs && id in t && t[id].state.Running? && Terminal(row.state) && t' == t[id := row]
    requires s' == s.(execs := s'.execs) && s'.execs - {id} == s.execs - {id}
    requires id in s'.execs ==> s'.execs[id] == Retrying(row.state, row.message)
    ensures Work(t', s')
  {
    assert WithState(t', Running) == WithState(t, Running) - {id};
    assert WithState(t', Queued) == WithState(t, Queued);
    OthersStay(s, s', id);
  }

  lemma ExecWork(t: Table, s: Server, t': Table, s': Server, id: JobId, clock: int)
    requires TableOk(t) && Work(t, s) && ExecNext(t, s, t', s', id, clock)
    ensures Work(t', s')
  {
    assert id in t && ExecOk(s.execs[id], t[id]);
    if t' != t {
      FinishWork(t, s, t', s', id, Ended(t[id], s.execs[id].state, s.execs[id].message, clock));
    } else {
      if s.execs[id].Finishing? && t[id].state.Running? {
        FinishShows(t, id, s.execs[id].state, s.execs[id].message, clock);
      }
      OthersStay(s, s', id);
    }
  }

  /** A finish that took effect shows. */
  lemma FinishShows(t: Table, id: JobId, state: State, message: string, now: int)
    requires id in t && t[id].state.Running? && RowOk(t[id])
    ensures Terminal(state) ==> FinishRow(t, id, state, message, now) != t
  {
    if Terminal(state) {
      assert FinishRow(t, id, state, message, now)[id].state != t[id].state;
    }
  }

  lemma AcknowledgeKeepsWork(t: Table, s: Server, id: JobId, version: nat)
    requires Work(t, s)
    ensures Work(AcknowledgeRow(t, id, version), s)
  {
    var t' := AcknowledgeRow(t, id, version);
    assert WithState(t', Running) == WithState(t, Running);
    assert WithState(t', Queued) == WithState(t, Queued);
    WorkStays(t, t', s);
  }

  lemma PassWork(t: Table, g: Log, p: Pass, t': Table, g': Log, p': Pass, s: Server)
    requires Work(t, s) && PassNext(t, g, p, t', g', p')
    ensures Work(t', s)
  {
    if t' != t {
      AcknowledgeKeepsWork(t, s, p.rest[0].id, p.rest[0].row.version);
    }
  }

  lemma RetryWork(t: Table, g: Log, s: Server, t': Table, g': Log, s': Server)
    requires Work(t, s) && RetryNext(t, g, s, t', g', s')
    ensures Work(t', s')
  {
    if s.retry.Reporting? && !s.retry.pass.ReportDone? {
      PassWork(t, g, s.retry.pass, t', g', s'.retry.pass, s);
    } else if t' != t {
      assert WithState(t', Running) == WithState(t, Running);
      assert WithState(t', Queued) == WithState(t, Queued);
      WorkStays(t, t', s);
    }
    SameWork(t', s, s');
  }

  lemma WebhookWork(t: Table, s: Server, t': Table, s': Server)
    requires Control(s) && Work(t, s) && WebhookNext(t, s, t', s')
    requires s.mutex.ByWebhook? ==> s.mutex.job.row.state.Queued?
    ensures Work(t', s')
  {
    if t' != t {
      assert WithState(t', Running) == WithState(t, Running);
      WorkStays(t, t', s);
    }
    SameWork(t', s, s');
  }

  lemma UpdateWork(t: Table, g: Log, s: Server, t': Table, g': Log, s': Server)
    requires Control(s) && Work(t, s) && UpdateNext(t, g, s, t', g', s')
    ensures Work(t', s')
  {
    if s.update.Flushing? && !s.update.pass.ReportDone? {
      PassWork(t, g, s.update.pass, t', g', s'.update.pass, s);
    }
    SameWork(t', s, s');
  }

  lemma SettleWork(t: Table, s: Server, s': Server, clock: int)
    requires TableOk(t) && Control(s) && Work(t, s) && s' == s.(main := s'.main)
    ensures s.main.Recovering? && s'.main.Canceling? ==> Work(Recovered(t, clock), s')
    ensures s.main.Canceling? && s'.main.FinalReport? ==> Work(QueueCanceled(t, clock), s')
  {
    assert WithState(Recovered(t, clock), Running) == {};
    assert WithState(QueueCanceled(t, clock), Running) == WithState(t, Running);
    assert WithState(QueueCanceled(t, clock), Queued) == {};
  }

  lemma MainWork(w: World, s: Server, w': World)
    requires TableOk(w.table) && Control(s) && Work(w.table, s) && MainNext(w, s, w') && w'.process.Up?
    ensures Work(w'.table, w'.process.server)
  {
    var s' := w'.process.server;
    if s.main.Recovering? || s.main.Canceling? {
      SettleWork(w.table, s, s', w.clock);
    } else {
      if s.main.FinalReport? && !s.main.pass.ReportDone? {
        PassWork(w.table, w.github, s.main.pass, w'.table, w'.github, s'.main.pass, s);
      }
      SameWork(w'.table, s, s');
    }
  }

  // ------------------------------------------------------------------
  // History
  // ------------------------------------------------------------------

  ghost predicate Recorded(t: Table, g: Log, s: Server) {
    TableOk(t) && Statuses(t, g) && Snapshots(t, g, s)
  }

  /** Nothing is acknowledged and the held snapshots stay. */
  lemma QuietHistory(t: Table, g: Log, s: Server, st: Statement, t': Table, s': Server)
    requires Recorded(t, g, s)
    requires t' == t || (Allowed(st) && !st.Acknowledge? && t' == Apply(t, st))
    requires s'.retry == s.retry && s'.update == s.update && s'.main == s.main
    ensures Recorded(t', g, s')
  {
    if t' != t {
      StatementMoves(t, st);
      StatusesMove(t, t', g);
      SnapshotsMove(t, t', g, s);
    }
  }

  lemma CleanHistory(t: Table, g: Log, s: Server, t': Table, s': Server)
    requires Recorded(t, g, s) && s.retry.CleanMark? && RetryNext(t, g, s, t', g, s')
    ensures Recorded(t', g, s')
  {
    var rest := s.retry.rest;
    QuietHistory(t, g, s, MarkCleaned(rest[0].id), t', s);
    assert AllKnown(t', rest[1..]) by {
      assert forall i | 0 <= i < |rest[1..]| :: rest[1..][i] == rest[i + 1];
    }
  }

  lemma PassHistory(t: Table, g: Log, p: Pass, t': Table, g': Log, p': Pass)
    requires TableOk(t) && Statuses(t, g) && PassOk(t, g, p) && PassNext(t, g, p, t', g', p')
    ensures TableOk(t') && Statuses(t', g') && PassOk(t', g', p')
  {
    PassKeeps(t, g, p, t', g', p');
    if t' != t {
      StatementKeeps(t, Acknowledge(p.rest[0].id, p.rest[0].row.version));
    }
  }

  lemma RetryHistory(t: Table, g: Log, s: Server, t': Table, g': Log, s': Server)
    requires Control(s) && Recorded(t, g, s) && RetryNext(t, g, s, t', g', s')
    ensures Recorded(t', g', s')
  {
    match s.retry
    case Reporting(p) => if !p.ReportDone? { PassHistory(t, g, p, t', g', s'.retry.pass); }
    case CleanList => if s'.retry.CleanNext? { FreshListing(t, g, s'.retry.rest); }
    case CleanNext(rest) => assert rest != [] ==> forall i | 0 <= i < |rest[1..]| :: rest[1..][i] == rest[i + 1];
    case CleanBusy(rest) => assert forall i | 0 <= i < |rest[1..]| :: rest[1..][i] == rest[i + 1];
    case CleanMark(rest) => CleanHistory(t, g, s, t', s');
    case _ =>
  }

  lemma UpdateHistory(t: Table, g: Log, s: Server, t': Table, g': Log, s': Server)
    requires Control(s) && Recorded(t, g, s) && UpdateNext(t, g, s, t', g', s')
    ensures Recorded(t', g', s')
  {
    if s.update.Flushing? && !s.update.pass.ReportDone? {
      FlushPass(t, g, s, t', g', s');
    }
  }

  lemma FlushPass(t: Table, g: Log, s: Server, t': Table, g': Log, s': Server)
    requires Recorded(t, g, s) && s.update.Flushing? && s.retry.RetryExited? && !s.main.FinalReport?
    requires s'.retry == s.retry && s'.main == s.main && s'.update.Flushing?
    requires PassNext(t, g, s.update.pass, t', g', s'.update.pass)
    ensures Recorded(t', g', s')
  {
    PassHistory(t, g, s.update.pass, t', g', s'.update.pass);
  }

  /** The history parts after a step of the main goroutine; a process that ended holds no snapshots. */
  ghost predicate MainRecorded(w: World) {
    match w.process
    case Down(_) => TableOk(w.table) && Statuses(w.table, w.github)
    case Up(s) => Recorded(w.table, w.github, s)
  }

  lemma SettleHistory(w: World, s: Server, w': World)
    requires w.clock > 0 && Recorded(w.table, w.github, s)
    requires (s.main.Recovering? || s.main.Canceling?) && MainNext(w, s, w')
    ensures MainRecorded(w')
  {
    var st := if s.main.Recovering? then RecoverInterrupted(w.clock) else CancelQueued(w.clock);
    QuietHistory(w.table, w.github, s, st, w'.table, s);
  }

  lemma FinalHistory(w: World, s: Server, w': World)
    requires Recorded(w.table, w.github, s) && s.main.FinalReport? && MainNext(w, s, w')
    requires s.retry.RetryExited? && !s.update.Flushing?
    ensures MainRecorded(w')
  {
    if s.main.pass.ReportDone? {
      assert w'.table == w.table && w'.github == w.github;
    } else {
      var s' := w'.process.server;
      assert s'.retry == s.retry && s'.update == s.update && s'.main.FinalReport?;
      FinalPass(w.table, w.github, s, w'.table, w'.github, s');
    }
  }

  lemma FinalPass(t: Table, g: Log, s: Server, t': Table, g': Log, s': Server)
    requires Recorded(t, g, s) && s.main.FinalReport? && s.retry.RetryExited? && !s.update.Flushing?
    requires s'.retry == s.retry && s'.update == s.update && s'.main.FinalReport?
    requires PassNext(t, g, s.main.pass, t', g', s'.main.pass)
    ensures Recorded(t', g', s')
  {
    PassHistory(t, g, s.main.pass, t', g', s'.main.pass);
  }

  lemma ServeHistory(w: World, s: Server, w': World)
    requires Recorded(w.table, w.github, s) && MainNext(w, s, w')
    requires !s.main.Recovering? && !s.main.Canceling? && !s.main.FinalReport?
    ensures MainRecorded(w')
  {
  }

  lemma MainHistory(w: World, s: Server, w': World)
    requires w.clock > 0 && Control(s) && Recorded(w.table, w.github, s) && MainNext(w, s, w')
    ensures MainRecorded(w')
  {
    if s.main.FinalReport? {
      FinalHistory(w, s, w');
    } else if s.main.Recovering? || s.main.Canceling? {
      SettleHistory(w, s, w');
    } else {
      ServeHistory(w, s, w');
    }
  }

  // ------------------------------------------------------------------
  // Every step, every run
  // ------------------------------------------------------------------

  lemma EnvironmentKeeps(w: World, w': World)
    requires Inv(w) && EnvironmentNext(w, w')
    ensures Inv(w')
  {
    var recovered := Recovered(w.table, w.clock);
    if w.process.Down? {
      StatementMoves(w.table, RecoverInterrupted(w.clock));
      StatusesMove(w.table, recovered, w.github);
      assert WithState(recovered, Running) == {};
      if w'.process.Up? {
        FreshOk(w'.table, w'.github, w'.process.server);
      }
    } else if w'.process.Up? {
      SameWork(w.table, w.process.server, w'.process.server);
    }
  }

  lemma FreshOk(t: Table, g: Log, s: Server)
    requires WithState(t, Running) == {} && exists setup :: s == Fresh(setup)
    ensures Control(s) && Work(t, s) && Snapshots(t, g, s) && !ShuttingDown(s.main) && !s.mutex.ByWebhook?
  {
  }

  lemma WorkerKeeps(w: World, a: Actor, w': World)
    requires Inv(w) && Step(w, a, w') && (a.Dispatch? || a.Executor?)
    ensures Inv(w')
  {
    var t, s, t', s' := w.table, w.process.server, w'.table, w'.process.server;
    match a
    case Dispatch =>
      DispatcherControl(t, s, t', s');
      DispatcherWork(t, s, t', s');
      DispatcherWrites(t, s, t', s');
      QuietHistory(t, w.github, s, Claim(s.setup.maxParallel), t', s');
    case Executor(id) =>
      ExecControl(t, s, t', s', id, w.clock);
      ExecWork(t, s, t', s', id, w.clock);
      ExecWrites(t, s, t', s', id, w.clock);
      var e := s.execs[id];
      var st := if e.Finishing? then Finish(id, e.state, e.message, w.clock) else MarkCleaned(id);
      QuietHistory(t, w.github, s, st, t', s');
  }

  lemma HandlerKeeps(w: World, a: Actor, w': World)
    requires Inv(w) && Step(w, a, w') && (a.Webhook? || a.Operator?)
    ensures Inv(w')
  {
    var t, s, t', s' := w.table, w.process.server, w'.table, w'.process.server;
    match a
    case Webhook =>
      WebhookControl(t, s, t', s');
      WebhookWork(t, s, t', s');
      WebhookWrites(t, s, t', s');
      var st := if s.mutex.ByWebhook? then Insert(s.mutex.job, s.setup.maxQueued) else MarkCleaned(0);
      QuietHistory(t, w.github, s, st, t', s');
    case Operator =>
      SameWork(t, s, s');
  }

  lemma ReporterKeeps(w: World, a: Actor, w': World)
    requires Inv(w) && Step(w, a, w') && (a.Reporter? || a.Updater?)
    ensures Inv(w')
  {
    var t, g, s, t', g', s' := w.table, w.github, w.process.server, w'.table, w'.github, w'.process.server;
    match a
    case Reporter =>
      RetryControl(t, g, s, t', g', s');
      RetryWork(t, g, s, t', g', s');
      RetryHistory(t, g, s, t', g', s');
    case Updater =>
      UpdateControl(t, g, s, t', g', s');
      UpdateWork(t, g, s, t', g', s');
      UpdateHistory(t, g, s, t', g', s');
  }

  lemma MainKeeps(w: World, w': World)
    requires Inv(w) && Step(w, Main, w')
    ensures Inv(w')
  {
    var s := w.process.server;
    MainControl(w, s, w');
    MainHistory(w, s, w');
    if w'.process.Up? {
      MainWork(w, s, w');
      MainDisrupts(w, s, w');
    } else {
      MainEnds(w, s, w');
    }
  }

  lemma MainDisrupts(w: World, s: Server, w': World)
    requires MainNext(w, s, w') && w'.process.Up? && (ShuttingDown(s.main) ==> w.disrupted)
    ensures ShuttingDown(w'.process.server.main) ==> w'.disrupted
  {
  }

  lemma MainEnds(w: World, s: Server, w': World)
    requires Control(s) && Work(w.table, s) && (ShuttingDown(s.main) ==> w.disrupted)
    requires MainNext(w, s, w') && w'.process.Down?
    ensures if w'.process.handover then WithState(w'.table, Running) == {} else w'.disrupted
  {
  }

  lemma GoroutineKeeps(w: World, a: Actor, w': World)
    requires Inv(w) && Step(w, a, w') && !a.Environment? && !a.Main?
    ensures Inv(w')
  {
    if a.Dispatch? || a.Executor? {
      WorkerKeeps(w, a, w');
    } else if a.Webhook? || a.Operator? {
      HandlerKeeps(w, a, w');
    } else {
      ReporterKeeps(w, a, w');
    }
  }

  lemma ProcessKeeps(w: World, a: Actor, w': World)
    requires Inv(w) && Step(w, a, w') && !a.Environment?
    ensures Inv(w')
  {
    if a.Main? {
      MainKeeps(w, w');
    } else {
      GoroutineKeeps(w, a, w');
    }
  }

  lemma StepKeeps(w: World, a: Actor, w': World)
    requires Inv(w) && Step(w, a, w')
    ensures Inv(w')
  {
    if a.Environment? {
      EnvironmentKeeps(w, w');
    } else {
      ProcessKeeps(w, a, w');
    }
  }

  /** The invariant holds at every point of every run. */
  lemma {:induction false} RunKeeps(ws: seq<World>, actors: seq<Actor>, i: nat)
    requires Run(ws, actors) && i < |ws|
    ensures Inv(ws[i])
  {
    if i > 0 {
      RunKeeps(ws, actors, i - 1);
      assert StepAt(ws, actors, i - 1);
      StepKeeps(ws[i - 1], actors[i - 1], ws[i]);
    } else {
      assert WithState(ws[0].table, Running) == {};
    }
  }
}
