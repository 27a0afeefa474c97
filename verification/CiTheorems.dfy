/**
 What the CI server guarantees over whole runs: any interleaving of its goroutines, lost or failed
 statements, panics, timeouts, crashes, restarts, failed and successful self-updates.
 */
module CiTheorems {
  import opened Prelude
  import opened JobTable
  import opened CiServer
  import opened CiInvariant
  import opened CiPreservation

  // ------------------------------------------------------------------
  // The table's history
  // ------------------------------------------------------------------

  lemma WorkerWrites(w: World, a: Actor, w': World)
    requires Inv(w) && Step(w, a, w') && (a.Webhook? || a.Dispatch? || a.Executor?)
    ensures NextWithin(w.table, w'.table, w.process.server.setup)
  {
    var t, s, t', s' := w.table, w.process.server, w'.table, w'.process.server;
    var st;
    match a {
      case Webhook =>
        WebhookWrites(t, s, t', s');
        st := if s.mutex.ByWebhook? then Insert(s.mutex.job, s.setup.maxQueued) else MarkCleaned(0);
      case Dispatch =>
        DispatcherWrites(t, s, t', s');
        st := Claim(s.setup.maxParallel);
      case Executor(id) =>
        ExecWrites(t, s, t', s', id, w.clock);
        var e := s.execs[id];
        st := if e.Finishing? then Finish(id, e.state, e.message, w.clock) else MarkCleaned(id);
    }
    assert t' == t || (Within(st, s.setup) && t' == Apply(t, st));
  }

  lemma ReporterWrites(w: World, a: Actor, w': World)
    requires Step(w, a, w') && (a.Reporter? || a.Updater?)
    ensures NextWithin(w.table, w'.table, w.process.server.setup)
  {
    var t, g, s, t', g', s' := w.table, w.github, w.process.server, w'.table, w'.github, w'.process.server;
    if a.Reporter? {
      RetryWrites(t, g, s, t', g', s');
    } else {
      UpdateWrites(t, g, s, t', g', s');
    }
  }

  lemma GoroutineWrites(w: World, a: Actor, w': World)
    requires Inv(w) && Step(w, a, w') && !a.Environment? && !a.Main?
    ensures NextWithin(w.table, w'.table, w.process.server.setup)
  {
    if a.Reporter? || a.Updater? {
      ReporterWrites(w, a, w');
    } else if !a.Operator? {
      WorkerWrites(w, a, w');
    }
  }

  /** Each step issues at most one statement, with the configuration of the server that is up. */
  lemma StepWrites(w: World, a: Actor, w': World, setup: Setup)
    requires Inv(w) && Step(w, a, w') && (w.process.Up? ==> w.process.server.setup == setup)
    ensures NextWithin(w.table, w'.table, setup)
  {
    if a.Environment? {
      var st := RecoverInterrupted(w.clock);
      assert w'.table == w.table || (Within(st, setup) && w'.table == Apply(w.table, st));
    } else if a.Main? {
      MainWrites(w, w.process.server, w');
    } else {
      GoroutineWrites(w, a, w');
    }
  }

  ghost function Tables(ws: seq<World>): seq<Table> {
    seq(|ws|, i requires 0 <= i < |ws| => ws[i].table)
  }

  ghost predicate RunsWith(w: World, setup: Setup) {
    w.process.Up? ==> w.process.server.setup == setup
  }

  lemma StepIsWithin(ws: seq<World>, actors: seq<Actor>, i: nat, setup: Setup)
    requires Run(ws, actors) && i < |actors| && RunsWith(ws[i], setup)
    ensures NextWithin(ws[i].table, ws[i + 1].table, setup)
  {
    RunKeeps(ws, actors, i);
    assert StepAt(ws, actors, i);
    StepWrites(ws[i], actors[i], ws[i + 1], setup);
  }

  lemma WithinIsNext(was: Table, now: Table, setup: Setup)
    requires NextWithin(was, now, setup)
    ensures Next(was, now)
  {
  }

  /** Hence every result that needs only a history of statements holds of every run, whatever its servers' limits. */
  lemma RunIsHistory(ws: seq<World>, actors: seq<Actor>)
    requires Run(ws, actors)
    ensures History(Tables(ws))
  {
    var ts := Tables(ws);
    forall i | 0 < i < |ts| ensures NextAt(ts, i) {
      var process := ws[i - 1].process;
      var setup := if process.Up? then process.server.setup else Setup.Setup(_ => 0, 0, 0);
      StepIsWithin(ws, actors, i - 1, setup);
      WithinIsNext(ts[i - 1], ts[i], setup);
    }
  }

  /** And where all servers of a run share one configuration, so do the results that need fixed limits. */
  lemma RunIsLimited(ws: seq<World>, actors: seq<Actor>, setup: Setup)
    requires Run(ws, actors) && forall i | 0 <= i < |ws| :: RunsWith(ws[i], setup)
    ensures LimitedHistory(Tables(ws), setup)
  {
    var ts := Tables(ws);
    forall i | 0 < i < |ts| ensures NextWithinAt(ts, i, setup) {
      assert RunsWith(ws[i - 1], setup);
      StepIsWithin(ws, actors, i - 1, setup);
    }
  }

  /** Then at every point the queue and the slots are within the limits, and a row stands for one commit. */
  lemma LimitsHoldInRuns(ws: seq<World>, actors: seq<Actor>, setup: Setup, i: nat, a: JobId, b: JobId)
    requires Run(ws, actors) && (forall k | 0 <= k < |ws| :: RunsWith(ws[k], setup)) && i < |ws|
    ensures |WithState(ws[i].table, Queued)| <= setup.maxQueued
    ensures |WithState(ws[i].table, Running)| <= setup.maxParallel
    ensures Injective(setup.digest) && a in ws[i].table && b in ws[i].table ==>
      (a == b <==> ws[i].table[a].repository == ws[i].table[b].repository && ws[i].table[a].sha == ws[i].table[b].sha)
  {
    RunIsLimited(ws, actors, setup);
    LimitsHold(Tables(ws), setup, i);
    assert Tables(ws)[i] == ws[i].table;
    if Injective(setup.digest) && a in ws[i].table && b in ws[i].table {
      OneRowPerCommit(Tables(ws), setup, i, a, b);
    }
  }

  /** In every run, whatever the servers before it allowed, the slots of the server that is up are not exceeded. */
  lemma SlotsHoldInRuns(ws: seq<World>, actors: seq<Actor>, i: nat)
    requires Run(ws, actors) && i < |ws| && ws[i].process.Up?
    ensures |WithState(ws[i].table, Running)| <= ws[i].process.server.setup.maxParallel
  {
    RunKeeps(ws, actors, i);
  }

  /** No accepted job is ever lost, and a version names one outcome for good. */
  lemma JobsEndure(ws: seq<World>, actors: seq<Actor>, i: nat, j: nat, id: JobId)
    requires Run(ws, actors) && i <= j < |ws| && id in ws[i].table
    ensures id in ws[j].table && RowOk(ws[j].table[id]) && RowLater(ws[i].table[id], ws[j].table[id])
  {
    RunIsHistory(ws, actors);
    HistoryLater(Tables(ws), i, j);
    HistoryOk(Tables(ws), j);
    assert Tables(ws)[i] == ws[i].table && Tables(ws)[j] == ws[j].table;
  }

  /** Over all restarts a job is started at most once, and never before an older queued one. */
  lemma StartsOnceInOrder(ws: seq<World>, actors: seq<Actor>, i: nat, j: nat, id: JobId, other: JobId)
    requires Run(ws, actors) && ClaimedAt(Tables(ws), i, id)
    ensures ClaimedAt(Tables(ws), j, id) ==> i == j
    ensures other != id && other in ws[i - 1].table && ws[i - 1].table[other].state.Queued? ==>
      var claimed, waiting := ws[i - 1].table[id], ws[i - 1].table[other];
      claimed.createdAt < waiting.createdAt || (claimed.createdAt == waiting.createdAt && id < other)
  {
    RunIsHistory(ws, actors);
    if ClaimedAt(Tables(ws), j, id) {
      ClaimedOnce(Tables(ws), i, j, id);
    }
    assert Tables(ws)[i - 1] == ws[i - 1].table;
    if other != id && other in ws[i - 1].table && ws[i - 1].table[other].state.Queued? {
      ClaimedInOrder(Tables(ws), i, id, other);
    }
  }

  // ------------------------------------------------------------------
  // Commit statuses
  // ------------------------------------------------------------------

  /** The goroutines that may be sending statuses. */
  function Reporters(s: Server): nat {
    (if s.retry.RetryExited? then 0 else 1)
    + (if s.update.Flushing? then 1 else 0)
    + (if s.main.FinalReport? then 1 else 0)
  }

  lemma OneReporter(ws: seq<World>, actors: seq<Actor>, i: nat)
    requires Run(ws, actors) && i < |ws| && ws[i].process.Up?
    ensures Reporters(ws[i].process.server) <= 1
  {
    RunKeeps(ws, actors, i);
  }

  /**
   GitHub sees a job's versions in order and nothing after its outcome but the outcome again; a row
   marked reported was last reported as it stands.
   */
  lemma StatusesInOrder(ws: seq<World>, actors: seq<Actor>, i: nat, id: JobId)
    requires Run(ws, actors) && i < |ws|
    ensures
      var log := Accepted(ws[i].github, id);
      && (forall a, b | 0 <= a < b < |log| :: log[a].version <= log[b].version)
      && (forall a, b | 0 <= a < b < |log| :: Terminal(log[a].state) ==> log[b] == log[a])
      && (id in ws[i].table && ws[i].table[id].reported ==> Delivered(ws[i].table[id], log))
  {
    RunKeeps(ws, actors, i);
    var log := Accepted(ws[i].github, id);
    if id in ws[i].github {
      assert LogOk(ws[i].table[id], log);
      forall a, b | 0 <= a < b < |log| && Terminal(log[a].state) ensures log[b] == log[a] {
        assert log[a].version <= log[b].version <= ws[i].table[id].version;
      }
    }
  }

  // ------------------------------------------------------------------
  // Executions and cleanup
  // ------------------------------------------------------------------

  function ExecutingIds(s: Server): set<JobId> {
    set id | id in s.execs && (s.execs[id].Starting? || s.execs[id].Executing?)
  }

  /** The job whose workspace is being removed. */
  function CleaningIds(s: Server): set<JobId> {
    if s.retry.CleanBusy? && s.retry.rest != [] then {s.retry.rest[0].id} else {}
  }

  /** A workspace is never removed under a running job, and executions stay within max_parallel. */
  lemma CleanupNeverMeetsExecution(ws: seq<World>, actors: seq<Actor>, i: nat)
    requires Run(ws, actors) && i < |ws| && ws[i].process.Up?
    ensures
      var s := ws[i].process.server;
      && ExecutingIds(s) <= WithState(ws[i].table, Running)
      && |ExecutingIds(s)| <= s.setup.maxParallel
      && (forall id | id in CleaningIds(s) :: id in ws[i].table && Terminal(ws[i].table[id].state))
      && ExecutingIds(s) !! CleaningIds(s)
  {
    RunKeeps(ws, actors, i);
    var w, s := ws[i], ws[i].process.server;
    assert Work(w.table, s);
    forall id | id in ExecutingIds(s) ensures id in WithState(w.table, Running) {
      assert ExecOk(s.execs[id], w.table[id]);
    }
    SubsetSize(ExecutingIds(s), WithState(w.table, Running));
    if s.retry.CleanBusy? {
      assert RetryOk(w.table, w.github, s.retry) && Known(w.table, s.retry.rest[0]);
    }
  }

  /** Saving an outcome never meets a conflicting row: the second read always finds this outcome. */
  lemma FinishNeverConflicts(ws: seq<World>, actors: seq<Actor>, i: nat, id: JobId)
    requires Run(ws, actors) && i < |ws| && ws[i].process.Up? && id in ws[i].process.server.execs
    requires ws[i].process.server.execs[id].Rereading?
    ensures
      var e := ws[i].process.server.execs[id];
      id in ws[i].table && ws[i].table[id].state == e.state && ws[i].table[id].message == e.message && Terminal(e.state)
  {
    RunKeeps(ws, actors, i);
    assert ExecOk(ws[i].process.server.execs[id], ws[i].table[id]);
  }

  /** Spawning an executor never replaces another one, so a job has one executor. */
  lemma SpawnIsNew(ws: seq<World>, actors: seq<Actor>, i: nat)
    requires Run(ws, actors) && i < |ws| && ws[i].process.Up? && ws[i].process.server.dispatcher.DispSpawn?
    ensures ws[i].process.server.dispatcher.job.id !in ws[i].process.server.execs
  {
    RunKeeps(ws, actors, i);
  }

  // ------------------------------------------------------------------
  // Self-update
  // ------------------------------------------------------------------

  /** Where serve hands over its candidate nothing runs, so the successor's recovery changes nothing. */
  lemma HandoverIsQuiet(ws: seq<World>, actors: seq<Actor>, i: nat, now: int)
    requires Run(ws, actors) && i < |ws|
    requires ws[i].process == Down(true) || (ws[i].process.Up? && ws[i].process.server.main == Returned(true))
    ensures WithState(ws[i].table, Running) == {} && Recovered(ws[i].table, now) == ws[i].table
    ensures ws[i].process.Up? ==> ws[i].process.server.candidate
  {
    RunKeeps(ws, actors, i);
    var t := ws[i].table;
    forall id | id in t ensures t[id].state != Running {
      assert id !in WithState(t, Running);
    }
    assert Recovered(t, now) == t;
  }

  ghost predicate HandingOver(w: World) {
    w.process == Down(true) ||
    (w.process.Up? && w.process.server.draining && !ShuttingDown(w.process.server.main))
  }

  /** A row keeps everything but a new acknowledgement. */
  predicate Untouched(was: Row, now: Row) {
    now == was || now == was.(reported := true)
  }

  lemma PassTouches(t: Table, g: Log, p: Pass, t': Table, g': Log, p': Pass, id: JobId)
    requires PassNext(t, g, p, t', g', p') && id in t
    ensures id in t' && Untouched(t[id], t'[id])
  {
  }

  /** Cleanup apart, the reporter only acknowledges; cleanup never touches a job that has not ended. */
  lemma RetryTouches(t: Table, g: Log, s: Server, t': Table, g': Log, s': Server, id: JobId)
    requires RetryNext(t, g, s, t', g', s') && id in t && !Terminal(t[id].state)
    ensures id in t' && Untouched(t[id], t'[id])
  {
    if s.retry.Reporting? && !s.retry.pass.ReportDone? {
      PassTouches(t, g, s.retry.pass, t', g', s'.retry.pass, id);
    }
  }

  lemma UpdateTouches(t: Table, g: Log, s: Server, t': Table, g': Log, s': Server, id: JobId)
    requires UpdateNext(t, g, s, t', g', s') && id in t
    ensures id in t' && Untouched(t[id], t'[id])
  {
    if s.update.Flushing? && !s.update.pass.ReportDone? {
      PassTouches(t, g, s.update.pass, t', g', s'.update.pass, id);
    }
  }

  lemma BootTouches(w: World, w': World)
    requires EnvironmentNext(w, w') && (w.process.Up? || WithState(w.table, Running) == {})
    ensures w'.table == w.table
  {
    if w.process.Down? {
      forall id | id in w.table ensures w.table[id].state != Running {
        assert id !in WithState(w.table, Running);
      }
      assert Recovered(w.table, w.clock) == w.table;
    }
  }

  lemma MainTouches(w: World, w': World)
    requires w.process.Up? && MainNext(w, w.process.server, w') && !ShuttingDown(w.process.server.main)
    ensures w'.table == w.table
  {
  }

  lemma HandoverStepSpares(ws: seq<World>, actors: seq<Actor>, i: nat, id: JobId)
    requires Run(ws, actors) && i < |actors| && HandingOver(ws[i])
    requires id in ws[i].table && ws[i].table[id].state.Queued?
    ensures id in ws[i + 1].table && Untouched(ws[i].table[id], ws[i + 1].table[id])
  {
    RunKeeps(ws, actors, i);
    assert StepAt(ws, actors, i);
    var w, w' := ws[i], ws[i + 1];
    match actors[i]
    case Environment => BootTouches(w, w');
    case Main => MainTouches(w, w');
    case Reporter =>
      RetryTouches(w.table, w.github, w.process.server, w'.table, w'.github, w'.process.server, id);
    case Updater =>
      UpdateTouches(w.table, w.github, w.process.server, w'.table, w'.github, w'.process.server, id);
    case _ =>
  }

  /** From the start of draining to the successor's first step, at most its acknowledgement changes a queued row. */
  lemma {:induction false} QueueSurvivesHandover(ws: seq<World>, actors: seq<Actor>, i: nat, j: nat, id: JobId)
    requires Run(ws, actors) && i <= j < |ws| && (forall k | i <= k < j :: HandingOver(ws[k]))
    requires id in ws[i].table && ws[i].table[id].state.Queued?
    ensures id in ws[j].table && Untouched(ws[i].table[id], ws[j].table[id])
    decreases j - i
  {
    if i == j {
    } else {
      QueueSurvivesHandover(ws, actors, i, j - 1, id);
      HandoverStepSpares(ws, actors, j - 1, id);
    }
  }

  /**
   An update never cancels a job: in a process that no shutdown without update has reached, the
   contexts of executions end only when nothing executes.
   */
  lemma UpdateSparesExecutions(ws: seq<World>, actors: seq<Actor>, i: nat)
    requires Run(ws, actors) && i < |ws| && ws[i].process.Up? && !ShuttingDown(ws[i].process.server.main)
    ensures ProcessingDone(ws[i].process.server) ==> ExecutingIds(ws[i].process.server) == {}
  {
    RunKeeps(ws, actors, i);
    var t, s := ws[i].table, ws[i].process.server;
    if ProcessingDone(s) {
      assert NothingRuns(s);
      forall id | id in s.execs ensures !s.execs[id].Starting? && !s.execs[id].Executing? {
        assert ExecOk(s.execs[id], t[id]) && id !in WithState(t, Running);
      }
    }
  }

  lemma ExecEnds(t: Table, s: Server, t': Table, s': Server, owner: JobId, clock: int, id: JobId)
    requires ExecNext(t, s, t', s', owner, clock)
    requires id in t && !Terminal(t[id].state) && id in t' && Terminal(t'[id].state)
    ensures owner == id && s.execs[id] == Finishing(t'[id].state, t'[id].message)
  {
  }

  lemma ClaimEndsNothing(t: Table, s: Server, t': Table, s': Server, id: JobId)
    requires DispatcherNext(t, s, t', s') || WebhookNext(t, s, t', s')
    requires id in t && !Terminal(t[id].state)
    ensures id in t' && !Terminal(t'[id].state)
  {
  }

  lemma MainEndings(w: World, w': World, id: JobId)
    requires w.process.Up? && MainNext(w, w.process.server, w') && id in w.table && !Terminal(w.table[id].state)
    requires id in w'.table && Terminal(w'.table[id].state)
    ensures w'.table[id].state.Error?
    ensures w'.table[id].message == if w.table[id].state.Running? then INTERRUPTED_MESSAGE else CANCELED_MESSAGE
  {
    var main := w.process.server.main;
    if main.FinalReport? && !main.pass.ReportDone? {
      PassTouches(w.table, w.github, main.pass, w'.table, w'.github, w'.process.server.main.pass, id);
    }
  }

  /** The step saves the outcome with which the job's own executor finished. */
  predicate SavedByItsExecutor(w: World, a: Actor, w': World, id: JobId) {
    && a == Executor(id) && w.process.Up? && id in w.process.server.execs
    && id in w'.table && w.process.server.execs[id] == Finishing(w'.table[id].state, w'.table[id].message)
  }

  /** A start after a crash, or after a process that was not handing over. */
  predicate StartsAfterCrash(w: World, a: Actor) {
    a.Environment? && w.process == Down(false)
  }

  predicate ShutsDown(w: World, a: Actor) {
    a.Main? && w.process.Up? && ShuttingDown(w.process.server.main)
  }

  /**
   Over all restarts and however many updates were tried, a job ends only by the outcome its own
   executor saved, or with an error that says how: by the recovery after a crash, or by a shutdown
   without update, which interrupts running jobs and cancels queued ones.
   */
  lemma EndedByItsExecutor(ws: seq<World>, actors: seq<Actor>, i: nat, id: JobId)
    requires Run(ws, actors) && i < |actors|
    requires id in ws[i].table && !Terminal(ws[i].table[id].state)
    requires id in ws[i + 1].table && Terminal(ws[i + 1].table[id].state)
    ensures
      || SavedByItsExecutor(ws[i], actors[i], ws[i + 1], id)
      || StartsAfterCrash(ws[i], actors[i])
      || ShutsDown(ws[i], actors[i])
    ensures !ws[i + 1].disrupted ==> SavedByItsExecutor(ws[i], actors[i], ws[i + 1], id)
    ensures !SavedByItsExecutor(ws[i], actors[i], ws[i + 1], id) ==>
      var was, now := ws[i].table[id], ws[i + 1].table[id];
      && now.state.Error?
      && now.message ==
         if was.state.Running? then "Job interrupted by CI server shutdown or restart"
         else "CI server stopped before job started"
  {
    RunKeeps(ws, actors, i);
    assert StepAt(ws, actors, i);
    var w, w' := ws[i], ws[i + 1];
    match actors[i]
    case Environment => if w.process != Down(false) { BootTouches(w, w'); }
    case Main => if ShutsDown(w, Main) { MainEndings(w, w', id); } else { MainTouches(w, w'); }
    case Reporter =>
      RetryTouches(w.table, w.github, w.process.server, w'.table, w'.github, w'.process.server, id);
    case Updater =>
      UpdateTouches(w.table, w.github, w.process.server, w'.table, w'.github, w'.process.server, id);
    case Executor(owner) => ExecEnds(w.table, w.process.server, w'.table, w'.process.server, owner, w.clock, id);
    case Operator =>
    case _ => ClaimEndsNothing(w.table, w.process.server, w'.table, w'.process.server, id);
  }

  /** One update at a time, and updateReady is closed at most once per server. */
  lemma UpdatesExclude(ws: seq<World>, actors: seq<Actor>, i: nat)
    requires Run(ws, actors) && i < |ws| && ws[i].process.Up?
    ensures
      var s := ws[i].process.server;
      && (!s.updating && s.accepting ==> s.update.Idle?)
      && (s.update.UpdateReady? ==> s.closed == 0)
      && s.closed <= 1
  {
    RunKeeps(ws, actors, i);
  }

  /** A failed update leaves a serving server accepting, claiming and reporting. */
  lemma FailedUpdateResumes(ws: seq<World>, actors: seq<Actor>, i: nat)
    requires Run(ws, actors) && i < |actors| && actors[i] == Updater
    requires ws[i].process.Up? && ws[i].process.server.update.UpdateFailed? && !ws[i].process.server.ctxDone
    ensures
      ws[i + 1].process.Up? &&
      var s := ws[i + 1].process.server;
      s.accepting && !s.updating && !s.draining && !ProcessingDone(s) && s.update.Idle?
  {
    RunKeeps(ws, actors, i);
    assert StepAt(ws, actors, i);
  }

  /** An update closes admission at no point: until the process ends its deliveries are queued for the successor. */
  lemma AdmissionStaysOpen(ws: seq<World>, actors: seq<Actor>, i: nat)
    requires Run(ws, actors) && i < |ws| && ws[i].process.Up? && !ShuttingDown(ws[i].process.server.main)
    ensures ws[i].process.server.accepting
  {
    RunKeeps(ws, actors, i);
    assert Control(ws[i].process.server);
  }

  // ------------------------------------------------------------------
  // Shutdown
  // ------------------------------------------------------------------

  predicate StoppedAdmission(s: Server) {
    PastLock(s.main) && !ForUpdate(s.main)
  }

  predicate IsUp(w: World) {
    w.process.Up?
  }

  /** One server process lives from ws[i] to ws[j]. */
  predicate UpBetween(ws: seq<World>, i: nat, j: nat)
    requires i <= j < |ws|
  {
    forall k | i <= k <= j :: IsUp(ws[k])
  }

  lemma StopGoesOn(w: World, a: Actor, w': World)
    requires Step(w, a, w') && w.process.Up? && w'.process.Up? && StoppedAdmission(w.process.server)
    ensures StoppedAdmission(w'.process.server)
  {
  }

  lemma StopStep(ws: seq<World>, actors: seq<Actor>, j: nat)
    requires Run(ws, actors) && 0 < j < |ws| && IsUp(ws[j - 1]) && IsUp(ws[j])
    requires StoppedAdmission(ws[j - 1].process.server)
    ensures StoppedAdmission(ws[j].process.server)
  {
    assert StepAt(ws, actors, j - 1);
    StopGoesOn(ws[j - 1], actors[j - 1], ws[j]);
  }

  lemma {:induction false} StopStays(ws: seq<World>, actors: seq<Actor>, i: nat, j: nat)
    requires Run(ws, actors) && i <= j < |ws|
    requires UpBetween(ws, i, j) && IsUp(ws[i]) && StoppedAdmission(ws[i].process.server)
    ensures IsUp(ws[j]) && StoppedAdmission(ws[j].process.server)
    decreases j - i
  {
    if i == j {
    } else {
      StopStays(ws, actors, i, j - 1);
      assert IsUp(ws[j]);
      StopStep(ws, actors, j);
    }
  }

  /** Once a shutdown holds the mutex, this process never admits again, whatever an update task does. */
  lemma AdmissionStaysClosed(ws: seq<World>, actors: seq<Actor>, i: nat, j: nat)
    requires Run(ws, actors) && i <= j < |ws|
    requires UpBetween(ws, i, j) && IsUp(ws[i]) && StoppedAdmission(ws[i].process.server)
    ensures IsUp(ws[j]) && !ws[j].process.server.accepting && !ws[j].process.server.mutex.ByWebhook?
  {
    StopStays(ws, actors, i, j);
    RunKeeps(ws, actors, j);
  }

  /** When stop returns without error, nothing is queued or running. */
  lemma StopSettlesEverything(ws: seq<World>, actors: seq<Actor>, i: nat, id: JobId)
    requires Run(ws, actors) && i < |ws| && ws[i].process.Up? && ws[i].process.server.main == Returned(false)
    requires id in ws[i].table
    ensures Terminal(ws[i].table[id].state)
  {
    RunKeeps(ws, actors, i);
    assert Work(ws[i].table, ws[i].process.server);
    assert id !in WithState(ws[i].table, Running) && id !in WithState(ws[i].table, Queued);
  }
}
