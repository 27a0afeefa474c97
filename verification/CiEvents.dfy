/**
 What the state of the CI server says about what was done: an outcome other than an error stands for
 an execution, a cleaned row for a removed workspace, a running row for an executor. Events are steps
 of a run, so the state machine carries no history for them.
 */
module CiEvents {
  import opened Prelude
  import opened JobTable
  import opened SqliteStore
  import opened CiServer
  import opened CiInvariant
  import opened CiPreservation
  import opened CiTheorems

  /** What one step can be seen to do for one job. */
  type Event = (World, Actor, World, JobId) -> bool

  /** Step `k` of the run is such an event. */
  ghost predicate HappensAt(event: Event, ws: seq<World>, actors: seq<Actor>, k: nat, id: JobId) {
    k < |actors| && |ws| == |actors| + 1 && event(ws[k], actors[k], ws[k + 1], id)
  }

  /** It happened before point `i`, in this process or an earlier one. */
  ghost predicate Happened(event: Event, ws: seq<World>, actors: seq<Actor>, i: nat, id: JobId) {
    exists k: nat :: k < i && HappensAt(event, ws, actors, k, id)
  }

  /** The table after one step: valid, and each row only moved forward. */
  lemma StepMoves(w: World, a: Actor, w': World)
    requires Inv(w) && Step(w, a, w')
    ensures TableOk(w.table) && TableOk(w'.table) && Later(w.table, w'.table)
  {
    var setup := if w.process.Up? then w.process.server.setup else Setup.Setup(_ => 0, 0, 0);
    StepWrites(w, a, w', setup);
    WithinIsNext(w.table, w'.table, setup);
    TableIsOk(w);
    NextKeeps(w.table, w'.table);
  }

  lemma TableIsOk(w: World)
    requires Inv(w)
    ensures TableOk(w.table)
  {
  }

  // ------------------------------------------------------------------
  // Cleanup
  // ------------------------------------------------------------------

  /** The removal of the job's workspace returns without error. */
  predicate Removes(w: World, a: Actor, w': World, id: JobId) {
    && a.Reporter? && w.process.Up? && w'.process.Up?
    && id in CleaningIds(w.process.server) && w'.process.server.retry.CleanMark?
  }

  /** The job is marked cleaned, or about to be. */
  predicate Cleaned(w: World, id: JobId) {
    || (id in w.table && w.table[id].cleaned)
    || (&& w.process.Up? && w.process.server.retry.CleanMark?
        && w.process.server.retry.rest != [] && w.process.server.retry.rest[0].id == id)
  }

  lemma RetryCleans(t: Table, g: Log, s: Server, t': Table, g': Log, s': Server, id: JobId)
    requires RetryNext(t, g, s, t', g', s')
    requires id in t' && t'[id].cleaned && !(id in t && t[id].cleaned)
    ensures s.retry.CleanMark? && s.retry.rest != [] && s.retry.rest[0].id == id
  {
  }

  /** No other actor marks a row cleaned. */
  lemma OthersCleanNothing(w: World, a: Actor, w': World, id: JobId)
    requires Step(w, a, w') && !a.Reporter? && id in w'.table && w'.table[id].cleaned
    ensures id in w.table && w.table[id].cleaned
  {
    match a
    case Dispatch => DispatcherWrites(w.table, w.process.server, w'.table, w'.process.server);
    case Executor(owner) => ExecWrites(w.table, w.process.server, w'.table, w'.process.server, owner, w.clock);
    case Webhook => WebhookWrites(w.table, w.process.server, w'.table, w'.process.server);
    case _ =>
  }

  lemma CleanedStep(w: World, a: Actor, w': World, id: JobId)
    requires Step(w, a, w') && Cleaned(w', id)
    ensures Cleaned(w, id) || Removes(w, a, w', id)
  {
    if a.Reporter? {
      if id in w'.table && w'.table[id].cleaned && !(id in w.table && w.table[id].cleaned) {
        RetryCleans(w.table, w.github, w.process.server, w'.table, w'.github, w'.process.server, id);
      }
    } else if id in w'.table && w'.table[id].cleaned {
      OthersCleanNothing(w, a, w', id);
    }
  }

  lemma CleanedAt(ws: seq<World>, actors: seq<Actor>, i: nat, id: JobId)
    requires Run(ws, actors) && 0 < i < |ws| && Cleaned(ws[i], id)
    ensures Cleaned(ws[i - 1], id) || HappensAt(Removes, ws, actors, i - 1, id)
  {
    assert StepAt(ws, actors, i - 1);
    CleanedStep(ws[i - 1], actors[i - 1], ws[i], id);
  }

  /** A row is marked cleaned only after the removal of its workspace returned without error. */
  lemma {:induction false} CleanedWasRemoved(ws: seq<World>, actors: seq<Actor>, i: nat, id: JobId)
    requires Run(ws, actors) && i < |ws| && Cleaned(ws[i], id)
    ensures Happened(Removes, ws, actors, i, id)
  {
    if i == 0 {
    } else {
      CleanedAt(ws, actors, i, id);
      if Cleaned(ws[i - 1], id) {
        CleanedWasRemoved(ws, actors, i - 1, id);
      }
    }
  }

  /** A removal finds the job ended, and the job executes at no later point, so its workspace stays away. */
  lemma RemovedForGood(ws: seq<World>, actors: seq<Actor>, k: nat, m: nat, id: JobId)
    requires Run(ws, actors) && HappensAt(Removes, ws, actors, k, id) && k <= m < |ws|
    ensures id in ws[k].table && Terminal(ws[k].table[id].state)
    ensures ws[m].process.Up? ==> id !in ExecutingIds(ws[m].process.server)
  {
    CleanupNeverMeetsExecution(ws, actors, k);
    JobsEndure(ws, actors, k, m, id);
    RunKeeps(ws, actors, k);
    TableIsOk(ws[k]);
    assert RowOk(ws[k].table[id]);
    if ws[m].process.Up? {
      CleanupNeverMeetsExecution(ws, actors, m);
    }
  }

  // ------------------------------------------------------------------
  // Executions
  // ------------------------------------------------------------------

  /** The job's executor calls execute. */
  predicate Starts(w: World, a: Actor, w': World, id: JobId) {
    && a == Executor(id) && w.process.Up? && w'.process.Up?
    && id in w.process.server.execs && w.process.server.execs[id].Starting?
    && id in w'.process.server.execs && w'.process.server.execs[id].Executing?
  }

  /** What only execute decides; the server itself ends jobs with an error. */
  type Outcome = state: State | state.Success? || state.Failure? witness Success

  /** The call of execute ends with this outcome. */
  predicate Executes(w: World, a: Actor, w': World, id: JobId, outcome: Outcome) {
    && a == Executor(id) && w.process.Up? && w'.process.Up?
    && id in w.process.server.execs && w.process.server.execs[id].Executing?
    && id in w'.process.server.execs && w'.process.server.execs[id].Finishing?
    && w'.process.server.execs[id].state == outcome
  }

  function ExecutesWith(outcome: Outcome): Event {
    (w: World, a: Actor, w': World, id: JobId) => Executes(w, a, w', id, outcome)
  }

  predicate Decided(t: Table, id: JobId, outcome: Outcome) {
    id in t && t[id].state == outcome
  }

  /** The outcome is saved, or the job's executor holds it. */
  predicate HasOutcome(w: World, id: JobId, outcome: Outcome) {
    || Decided(w.table, id, outcome)
    || (w.process.Up? && id in w.process.server.execs && Holds(w.process.server.execs[id], outcome))
  }

  predicate Holds(e: Exec, outcome: Outcome) {
    match e
    case Finishing(state, _) => state == outcome
    case Rereading(state, _) => state == outcome
    case Retrying(state, _) => state == outcome
    case _ => false
  }

  lemma ExecOutcome(t: Table, s: Server, t': Table, s': Server, owner: JobId, clock: int, id: JobId, outcome: Outcome)
    requires ExecNext(t, s, t', s', owner, clock)
    ensures id in s'.execs && Holds(s'.execs[id], outcome) ==>
      && id in s.execs
      && (|| Holds(s.execs[id], outcome)
          || (id == owner && s.execs[id].Executing? && s'.execs[id].Finishing? && s'.execs[id].state == outcome))
    ensures Decided(t', id, outcome) ==> Decided(t, id, outcome) || (id in s.execs && Holds(s.execs[id], outcome))
  {
    OthersStay(s, s', owner);
  }

  lemma PassDecidesNothing(t: Table, g: Log, p: Pass, t': Table, g': Log, p': Pass, id: JobId, outcome: Outcome)
    requires PassNext(t, g, p, t', g', p') && Decided(t', id, outcome)
    ensures Decided(t, id, outcome)
  {
  }

  lemma RetryDecidesNothing(t: Table, g: Log, s: Server, t': Table, g': Log, s': Server, id: JobId, outcome: Outcome)
    requires RetryNext(t, g, s, t', g', s') && Decided(t', id, outcome)
    ensures Decided(t, id, outcome)
  {
    if s.retry.Reporting? && !s.retry.pass.ReportDone? {
      PassDecidesNothing(t, g, s.retry.pass, t', g', s'.retry.pass, id, outcome);
    }
  }

  lemma UpdateDecidesNothing(t: Table, g: Log, s: Server, t': Table, g': Log, s': Server, id: JobId, outcome: Outcome)
    requires UpdateNext(t, g, s, t', g', s') && Decided(t', id, outcome)
    ensures Decided(t, id, outcome)
  {
    if s.update.Flushing? && !s.update.pass.ReportDone? {
      PassDecidesNothing(t, g, s.update.pass, t', g', s'.update.pass, id, outcome);
    }
  }

  lemma MainDecidesNothing(w: World, w': World, id: JobId, outcome: Outcome)
    requires w.process.Up? && MainNext(w, w.process.server, w') && Decided(w'.table, id, outcome)
    ensures Decided(w.table, id, outcome)
  {
    var main := w.process.server.main;
    if main.FinalReport? && !main.pass.ReportDone? {
      PassDecidesNothing(
        w.table, w.github, main.pass, w'.table, w'.github, w'.process.server.main.pass, id, outcome);
    }
  }

  lemma WebhookDecidesNothing(t: Table, s: Server, t': Table, s': Server, id: JobId, outcome: Outcome)
    requires WebhookNext(t, s, t', s') && (s.mutex.ByWebhook? ==> s.mutex.job.row.state.Queued?)
    requires Decided(t', id, outcome)
    ensures Decided(t, id, outcome)
  {
  }

  lemma DispatcherDecidesNothing(t: Table, s: Server, t': Table, s': Server, id: JobId, outcome: Outcome)
    requires DispatcherNext(t, s, t', s') && Decided(t', id, outcome)
    ensures Decided(t, id, outcome)
  {
  }

  lemma OthersDecideNothing(w: World, a: Actor, w': World, id: JobId, outcome: Outcome)
    requires Inv(w) && Step(w, a, w') && !a.Executor? && Decided(w'.table, id, outcome)
    ensures Decided(w.table, id, outcome)
  {
    match a
    case Environment =>
    case Main => MainDecidesNothing(w, w', id, outcome);
    case Reporter =>
      RetryDecidesNothing(w.table, w.github, w.process.server, w'.table, w'.github, w'.process.server, id, outcome);
    case Updater =>
      UpdateDecidesNothing(w.table, w.github, w.process.server, w'.table, w'.github, w'.process.server, id, outcome);
    case Operator =>
    case Webhook => WebhookDecidesNothing(w.table, w.process.server, w'.table, w'.process.server, id, outcome);
    case Dispatch => DispatcherDecidesNothing(w.table, w.process.server, w'.table, w'.process.server, id, outcome);
  }

  lemma OutcomeStep(w: World, a: Actor, w': World, id: JobId, outcome: Outcome)
    requires Inv(w) && Step(w, a, w') && HasOutcome(w', id, outcome)
    ensures HasOutcome(w, id, outcome) || Executes(w, a, w', id, outcome)
  {
    if a.Executor? {
      ExecOutcome(w.table, w.process.server, w'.table, w'.process.server, a.id, w.clock, id, outcome);
    } else if Decided(w'.table, id, outcome) {
      OthersDecideNothing(w, a, w', id, outcome);
    }
  }

  lemma OutcomeAt(ws: seq<World>, actors: seq<Actor>, i: nat, id: JobId, outcome: Outcome)
    requires Run(ws, actors) && 0 < i < |ws| && HasOutcome(ws[i], id, outcome)
    ensures HasOutcome(ws[i - 1], id, outcome) || HappensAt(ExecutesWith(outcome), ws, actors, i - 1, id)
  {
    RunKeeps(ws, actors, i - 1);
    assert StepAt(ws, actors, i - 1);
    OutcomeStep(ws[i - 1], actors[i - 1], ws[i], id, outcome);
  }

  /** No job is recorded as passed or failed unless its execution ended so. */
  lemma {:induction false} OutcomeWasExecuted(ws: seq<World>, actors: seq<Actor>, i: nat, id: JobId, outcome: Outcome)
    requires Run(ws, actors) && i < |ws| && HasOutcome(ws[i], id, outcome)
    ensures Happened(ExecutesWith(outcome), ws, actors, i, id)
  {
    if i == 0 {
    } else {
      OutcomeAt(ws, actors, i, id, outcome);
      if HasOutcome(ws[i - 1], id, outcome) {
        OutcomeWasExecuted(ws, actors, i - 1, id, outcome);
      }
    }
  }

  /** The dispatcher or a starting executor has the job. */
  predicate InHand(s: Server, id: JobId) {
    || (s.dispatcher.DispClaimed? && s.dispatcher.won.Some? && s.dispatcher.won.value.id == id)
    || (s.dispatcher.DispSpawn? && s.dispatcher.job.id == id)
    || (id in s.execs && s.execs[id].Starting?)
  }

  predicate Unstarted(w: World, id: JobId) {
    || id !in w.table
    || w.table[id].state.Queued?
    || (w.process.Up? && InHand(w.process.server, id))
  }

  lemma DispatcherHand(t: Table, s: Server, t': Table, s': Server, id: JobId)
    requires DispatcherNext(t, s, t', s') && id in t && !t[id].state.Queued? && !InHand(s, id)
    ensures !InHand(s', id)
  {
  }

  lemma ExecHand(t: Table, s: Server, t': Table, s': Server, owner: JobId, clock: int, id: JobId)
    requires ExecNext(t, s, t', s', owner, clock) && !InHand(s, id)
    ensures !InHand(s', id)
  {
    OthersStay(s, s', owner);
  }

  lemma LeftQueue(w: World, a: Actor, w': World, id: JobId)
    requires Inv(w) && Step(w, a, w') && id in w.table && !w.table[id].state.Queued?
    ensures id in w'.table && !w'.table[id].state.Queued?
  {
    StepMoves(w, a, w');
    assert RowOk(w.table[id]) && RowOk(w'.table[id]) && RowLater(w.table[id], w'.table[id]);
  }

  lemma StartedStep(w: World, a: Actor, w': World, id: JobId)
    requires Inv(w) && Step(w, a, w') && !Unstarted(w, id)
    ensures !Unstarted(w', id)
  {
    LeftQueue(w, a, w', id);
    if a.Dispatch? {
      DispatcherHand(w.table, w.process.server, w'.table, w'.process.server, id);
    } else if a.Executor? {
      ExecHand(w.table, w.process.server, w'.table, w'.process.server, a.id, w.clock, id);
    }
  }

  lemma StartedAt(ws: seq<World>, actors: seq<Actor>, j: nat, id: JobId)
    requires Run(ws, actors) && 0 < j < |ws| && !Unstarted(ws[j - 1], id)
    ensures !Unstarted(ws[j], id)
  {
    RunKeeps(ws, actors, j - 1);
    assert StepAt(ws, actors, j - 1);
    StartedStep(ws[j - 1], actors[j - 1], ws[j], id);
  }

  lemma {:induction false} StaysStarted(ws: seq<World>, actors: seq<Actor>, i: nat, j: nat, id: JobId)
    requires Run(ws, actors) && i <= j < |ws| && !Unstarted(ws[i], id)
    ensures !Unstarted(ws[j], id)
    decreases j - i
  {
    if i == j {
    } else {
      StaysStarted(ws, actors, i, j - 1, id);
      StartedAt(ws, actors, j, id);
    }
  }

  lemma StartIsFirst(w: World, a: Actor, w': World, id: JobId)
    requires Inv(w) && Inv(w') && Starts(w, a, w', id)
    ensures Unstarted(w, id) && !Unstarted(w', id)
  {
    var s' := w'.process.server;
    assert Work(w'.table, s') && ExecOk(s'.execs[id], w'.table[id]);
    assert s'.dispatcher.DispSpawn? ==> HandsOn(w'.table, s', s'.dispatcher.job);
  }

  lemma StartsAt(ws: seq<World>, actors: seq<Actor>, i: nat, id: JobId)
    requires Run(ws, actors) && HappensAt(Starts, ws, actors, i, id)
    ensures Unstarted(ws[i], id) && !Unstarted(ws[i + 1], id)
  {
    RunKeeps(ws, actors, i);
    RunKeeps(ws, actors, i + 1);
    StartIsFirst(ws[i], actors[i], ws[i + 1], id);
  }

  lemma NotStartedAgain(ws: seq<World>, actors: seq<Actor>, i: nat, j: nat, id: JobId)
    requires Run(ws, actors) && HappensAt(Starts, ws, actors, i, id) && HappensAt(Starts, ws, actors, j, id)
    ensures j <= i
  {
    StartsAt(ws, actors, i, id);
    StartsAt(ws, actors, j, id);
    if i < j {
      StaysStarted(ws, actors, i + 1, j, id);
    }
  }

  /** Over all crashes, restarts and updates a job is executed at most once. */
  lemma ExecutedAtMostOnce(ws: seq<World>, actors: seq<Actor>, i: nat, j: nat, id: JobId)
    requires Run(ws, actors) && HappensAt(Starts, ws, actors, i, id) && HappensAt(Starts, ws, actors, j, id)
    ensures i == j
  {
    NotStartedAgain(ws, actors, i, j, id);
    NotStartedAgain(ws, actors, j, i, id);
  }

  // ------------------------------------------------------------------
  // Slots
  // ------------------------------------------------------------------

  /** The job has an executor, or the dispatcher is about to give it one. */
  predicate Owned(s: Server, id: JobId) {
    || id in s.execs
    || (s.dispatcher.DispClaimed? && s.dispatcher.won.Some? && s.dispatcher.won.value.id == id)
    || (s.dispatcher.DispSpawn? && s.dispatcher.job.id == id)
  }

  /** The claim of the job commits, and the dispatcher does not learn of it. */
  predicate LosesClaim(w: World, a: Actor, w': World, id: JobId) {
    && a.Dispatch? && w.process.Up? && w'.process.Up?
    && id in w.table && w.table[id].state.Queued? && id in w'.table && w'.table[id].state.Running?
    && w'.process.server.dispatcher == DispClaimed(None)
  }

  /** A running row of a server that still processes, without an owner. */
  predicate Ownerless(w: World, id: JobId) {
    && w.process.Up? && !ProcessingDone(w.process.server) && !Owned(w.process.server, id)
    && id in w.table && w.table[id].state.Running?
  }

  lemma DispatcherOwns(t: Table, s: Server, t': Table, s': Server, id: JobId)
    requires DispatcherNext(t, s, t', s') && id in t' && t'[id].state.Running? && !Owned(s', id)
    ensures id in t && (t[id].state.Queued? || (t[id].state.Running? && !Owned(s, id)))
    ensures t[id].state.Queued? ==> s'.dispatcher == DispClaimed(None)
  {
  }

  lemma ExecOwns(t: Table, s: Server, t': Table, s': Server, owner: JobId, clock: int, id: JobId)
    requires Work(t, s) && ExecNext(t, s, t', s', owner, clock) && !ProcessingDone(s')
    requires id in t' && t'[id].state.Running? && !Owned(s', id)
    ensures id in t && t[id].state.Running? && !Owned(s, id)
  {
    OthersStay(s, s', owner);
    assert owner in t && ExecOk(s.execs[owner], t[owner]);
    assert id in s.execs && id != owner ==> id in s.execs - {owner} && id in s'.execs;
  }

  /** No other actor starts a job or takes one from its owner. */
  lemma EnvironmentOwns(w: World, w': World, id: JobId)
    requires EnvironmentNext(w, w') && Ownerless(w', id)
    ensures Ownerless(w, id)
  {
  }

  lemma MainOwns(w: World, w': World, id: JobId)
    requires w.process.Up? && MainNext(w, w.process.server, w') && Ownerless(w', id)
    ensures Ownerless(w, id)
  {
  }

  lemma WebhookOwns(t: Table, s: Server, t': Table, s': Server, id: JobId)
    requires WebhookNext(t, s, t', s') && (s.mutex.ByWebhook? ==> s.mutex.job.row.state.Queued?)
    requires id in t' && t'[id].state.Running?
    ensures id in t && t[id].state.Running?
  {
  }

  /** No other actor starts a job or takes one from its owner. */
  lemma OthersOwn(w: World, a: Actor, w': World, id: JobId)
    requires Inv(w) && Step(w, a, w') && !a.Dispatch? && !a.Executor? && Ownerless(w', id)
    ensures Ownerless(w, id)
  {
    match a
    case Environment => EnvironmentOwns(w, w', id);
    case Main => MainOwns(w, w', id);
    case Webhook => WebhookOwns(w.table, w.process.server, w'.table, w'.process.server, id);
    case _ =>
  }

  lemma OwnerStep(w: World, a: Actor, w': World, id: JobId)
    requires Inv(w) && Step(w, a, w') && Ownerless(w', id)
    ensures Ownerless(w, id) || LosesClaim(w, a, w', id)
  {
    if a.Dispatch? {
      DispatcherOwns(w.table, w.process.server, w'.table, w'.process.server, id);
    } else if a.Executor? {
      ExecOwns(w.table, w.process.server, w'.table, w'.process.server, a.id, w.clock, id);
    } else {
      OthersOwn(w, a, w', id);
    }
  }

  lemma OwnerAt(ws: seq<World>, actors: seq<Actor>, i: nat, id: JobId)
    requires Run(ws, actors) && 0 < i < |ws| && Ownerless(ws[i], id)
    ensures Ownerless(ws[i - 1], id) || HappensAt(LosesClaim, ws, actors, i - 1, id)
  {
    RunKeeps(ws, actors, i - 1);
    assert StepAt(ws, actors, i - 1);
    OwnerStep(ws[i - 1], actors[i - 1], ws[i], id);
  }

  /**
   While a server processes jobs, a running row has an executor, or will have one next, unless the
   answer to its claim was lost: no slot is occupied by a job that nothing works on.
   */
  lemma {:induction false} RunningIsOwned(ws: seq<World>, actors: seq<Actor>, i: nat, id: JobId)
    requires Run(ws, actors) && i < |ws| && ws[i].process.Up? && !ProcessingDone(ws[i].process.server)
    requires id in ws[i].table && ws[i].table[id].state.Running?
    ensures Owned(ws[i].process.server, id) || Happened(LosesClaim, ws, actors, i, id)
  {
    if i == 0 || Owned(ws[i].process.server, id) {
    } else {
      OwnerAt(ws, actors, i, id);
      if Ownerless(ws[i - 1], id) {
        RunningIsOwned(ws, actors, i - 1, id);
      }
    }
  }

  // ------------------------------------------------------------------
  // The final attempt
  // ------------------------------------------------------------------

  /** The pass leaves its head behind without having acknowledged it. */
  predicate GivesUpHead(p: Pass, p': Pass, id: JobId) {
    (p.ReportInFlight? || p.ReportAccepted?) && p.rest != [] && p.rest[0].id == id && p' == ReportNext(p.rest[1..])
  }

  /** In the final pass the status request of the job fails, or the answer to it. */
  predicate FailsLast(w: World, a: Actor, w': World, id: JobId) {
    && a.Main?
    && w.process.Up? && w.process.server.main.FinalReport?
    && w'.process.Up? && w'.process.server.main.FinalReport?
    && GivesUpHead(w.process.server.main.pass, w'.process.server.main.pass, id)
  }

  /** The pass has still to come to the job as it stands, or has failed. */
  predicate Ahead(t: Table, p: Pass, id: JobId)
    requires id in t
  {
    match p
    case ReportList => true
    case ReportNext(rest) => Job(id, t[id]) in rest
    case ReportInFlight(rest) => Job(id, t[id]) in rest
    case ReportAccepted(rest) => Job(id, t[id]) in rest
    case ReportAck(rest) => Job(id, t[id]) in rest
    case ReportDone(ok) => !ok
  }

  /** The final pass is past this job, whose status is not acknowledged. */
  predicate PassedBy(t: Table, m: Stage, id: JobId) {
    && id in t && !t[id].reported
    && (m == Returned(false) || (m.FinalReport? && !Ahead(t, m.pass, id)))
  }

  predicate LeftBehind(w: World, id: JobId) {
    w.process.Up? && PassedBy(w.table, w.process.server.main, id)
  }

  lemma InTail(rest: seq<Job>, job: Job)
    requires rest != [] && job in rest && job != rest[0]
    ensures job in rest[1..]
  {
    assert rest == [rest[0]] + rest[1..];
  }

  lemma PassPasses(t: Table, g: Log, p: Pass, t': Table, g': Log, p': Pass, id: JobId)
    requires PassNext(t, g, p, t', g', p') && id in t && Ahead(t, p, id) && id in t' && !t'[id].reported
    ensures Ahead(t', p', id) || GivesUpHead(p, p', id)
  {
    var job := Job(id, t[id]);
    match p
    case ReportList =>
      assert p'.ReportNext? ==> id in OpenIds(t);
    case ReportNext(rest) => if rest != [] && job != rest[0] { InTail(rest, job); }
    case ReportInFlight(rest) => if job != rest[0] { InTail(rest, job); }
    case ReportAccepted(rest) => if job != rest[0] { InTail(rest, job); }
    case ReportAck(rest) => if job != rest[0] { InTail(rest, job); }
    case ReportDone(_) =>
  }

  lemma PassLoses(t: Table, g: Log, p: Pass, t': Table, g': Log, p': Pass, id: JobId)
    requires PassNext(t, g, p, t', g', p') && id in t' && !t'[id].reported
    ensures id in t && !t[id].reported
  {
  }

  lemma MainLeaves(w: World, w': World, id: JobId)
    requires w.process.Up? && MainNext(w, w.process.server, w') && LeftBehind(w', id)
    ensures LeftBehind(w, id) || FailsLast(w, Main, w', id)
  {
    var m := w.process.server.main;
    if m.FinalReport? && !m.pass.ReportDone? {
      var p' := w'.process.server.main.pass;
      PassLoses(w.table, w.github, m.pass, w'.table, w'.github, p', id);
      if Ahead(w.table, m.pass, id) {
        PassPasses(w.table, w.github, m.pass, w'.table, w'.github, p', id);
      }
    }
  }

  predicate FinalStage(m: Stage) {
    m.FinalReport? || m == Returned(false)
  }

  /** Every other goroutine has ended or waits for nothing that writes. */
  predicate Quiet(s: Server) {
    && s.dispatcher.DispExited? && s.execs == map[] && s.retry.RetryExited?
    && (s.update.Idle? || s.update.HandedOver?) && !s.mutex.ByWebhook?
  }

  lemma FinalIsQuiet(w: World)
    requires Inv(w) && w.process.Up? && FinalStage(w.process.server.main)
    ensures Quiet(w.process.server)
  {
    assert Control(w.process.server);
  }

  /** Nothing else touches the table during the final pass. */
  lemma QuietRests(w: World, a: Actor, w': World)
    requires w.process.Up? && Quiet(w.process.server) && Step(w, a, w') && !a.Main? && !a.Environment?
    ensures w'.table == w.table
  {
  }

  lemma DispatcherStage(t: Table, s: Server, t': Table, s': Server)
    requires DispatcherNext(t, s, t', s')
    ensures s'.main == s.main
  {
  }

  lemma ExecStage(t: Table, s: Server, t': Table, s': Server, id: JobId, clock: int)
    requires ExecNext(t, s, t', s', id, clock)
    ensures s'.main == s.main
  {
  }

  lemma RetryStage(t: Table, g: Log, s: Server, t': Table, g': Log, s': Server)
    requires RetryNext(t, g, s, t', g', s')
    ensures s'.main == s.main
  {
  }

  lemma UpdateStage(t: Table, g: Log, s: Server, t': Table, g': Log, s': Server)
    requires UpdateNext(t, g, s, t', g', s')
    ensures s'.main == s.main
  {
  }

  lemma SameStage(w: World, a: Actor, w': World)
    requires Step(w, a, w') && !a.Main? && !a.Environment?
    ensures w'.process.server.main == w.process.server.main
  {
    var t, g, s, t', g', s' := w.table, w.github, w.process.server, w'.table, w'.github, w'.process.server;
    match a
    case Webhook => assert WebhookNext(t, s, t', s');
    case Operator => assert OperatorNext(s, s');
    case Dispatch => DispatcherStage(t, s, t', s');
    case Executor(id) => ExecStage(t, s, t', s', id, w.clock);
    case Reporter => RetryStage(t, g, s, t', g', s');
    case Updater => UpdateStage(t, g, s, t', g', s');
  }

  lemma LeaveStep(w: World, a: Actor, w': World, id: JobId)
    requires Inv(w) && Step(w, a, w') && LeftBehind(w', id)
    ensures LeftBehind(w, id) || FailsLast(w, a, w', id)
  {
    if a.Main? {
      MainLeaves(w, w', id);
    } else if !a.Environment? {
      SameStage(w, a, w');
      FinalIsQuiet(w);
      QuietRests(w, a, w');
    }
  }

  lemma LeaveAt(ws: seq<World>, actors: seq<Actor>, i: nat, id: JobId)
    requires Run(ws, actors) && 0 < i < |ws| && LeftBehind(ws[i], id)
    ensures LeftBehind(ws[i - 1], id) || HappensAt(FailsLast, ws, actors, i - 1, id)
  {
    RunKeeps(ws, actors, i - 1);
    assert StepAt(ws, actors, i - 1);
    LeaveStep(ws[i - 1], actors[i - 1], ws[i], id);
  }

  lemma {:induction false} LeftBehindFailed(ws: seq<World>, actors: seq<Actor>, i: nat, id: JobId)
    requires Run(ws, actors) && i < |ws| && LeftBehind(ws[i], id)
    ensures Happened(FailsLast, ws, actors, i, id)
  {
    if i == 0 {
    } else {
      LeaveAt(ws, actors, i, id);
      if LeftBehind(ws[i - 1], id) {
        LeftBehindFailed(ws, actors, i - 1, id);
      }
    }
  }

  /** When stop returns without error, GitHub has each job's outcome, unless its request in the final pass failed. */
  lemma StopReportsEverything(ws: seq<World>, actors: seq<Actor>, i: nat, id: JobId)
    requires Run(ws, actors) && i < |ws| && ws[i].process.Up? && ws[i].process.server.main == Returned(false)
    requires id in ws[i].table
    ensures
      || Delivered(ws[i].table[id], Accepted(ws[i].github, id))
      || Happened(FailsLast, ws, actors, i, id)
  {
    StatusesInOrder(ws, actors, i, id);
    if !ws[i].table[id].reported {
      LeftBehindFailed(ws, actors, i, id);
    }
  }
}
