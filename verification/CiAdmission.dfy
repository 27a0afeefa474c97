/**
 What a webhook delivery answered with success can rely on: the row it was answered from is durable,
 belongs to exactly the delivered commit, and outlives every restart.
 */
module CiAdmission {
  import opened JobTable
  import opened CiServer
  import opened CiInvariant
  import opened CiPreservation
  import opened CiTheorems
  import opened CiEvents

  /** The delivery passed the checks; its answer, once there, is a row of the table. */
  ghost predicate Sincere(t: Table, s: Server) {
    match s.mutex
    case ByWebhookReading(job) => Admissible(s.setup.digest, job, s.setup.maxQueued)
    case ByWebhookAdmitted(job, saved, created) =>
      && Admissible(s.setup.digest, job, s.setup.maxQueued)
      && Known(t, Job(job.id, saved))
      && (created ==> saved == job.row.(finishedAt := 0, reported := false, cleaned := false, version := 1))
    case _ => true
  }

  ghost predicate SincereIn(w: World) {
    w.process.Up? ==> Sincere(w.table, w.process.server)
  }

  lemma AnswerStep(t: Table, s: Server, t': Table, s': Server)
    requires TableOk(t') && WebhookNext(t, s, t', s') && Sincere(t, s)
    ensures Sincere(t', s')
  {
  }

  /** A known row stays known. */
  lemma KnownStays(t: Table, t': Table, job: Job)
    requires TableOk(t) && Later(t, t') && Known(t, job)
    ensures Known(t', job)
  {
    RowLaterTransitive(job.row, t[job.id], t'[job.id]);
  }

  lemma SincereStays(t: Table, s: Server, t': Table, s': Server)
    requires TableOk(t) && Later(t, t') && Sincere(t, s) && s'.setup == s.setup
    requires s'.mutex == s.mutex || s'.mutex.Free? || s'.mutex.ByDispatcher?
    ensures Sincere(t', s')
  {
    if s'.mutex.ByWebhookAdmitted? {
      KnownStays(t, t', Job(s.mutex.job.id, s.mutex.saved));
    }
  }

  lemma DispatcherMutex(t: Table, s: Server, t': Table, s': Server)
    requires DispatcherNext(t, s, t', s')
    ensures s'.setup == s.setup && (s'.mutex == s.mutex || s'.mutex.Free? || s'.mutex.ByDispatcher?)
  {
  }

  lemma ExecMutex(t: Table, s: Server, t': Table, s': Server, id: JobId, clock: int)
    requires ExecNext(t, s, t', s', id, clock)
    ensures s'.setup == s.setup && s'.mutex == s.mutex
  {
  }

  lemma RetryMutex(t: Table, g: Log, s: Server, t': Table, g': Log, s': Server)
    requires RetryNext(t, g, s, t', g', s')
    ensures s'.setup == s.setup && s'.mutex == s.mutex
  {
  }

  lemma UpdateMutex(t: Table, g: Log, s: Server, t': Table, g': Log, s': Server)
    requires UpdateNext(t, g, s, t', g', s')
    ensures s'.setup == s.setup && s'.mutex == s.mutex
  {
  }

  lemma MainMutex(w: World, w': World)
    requires w.process.Up? && MainNext(w, w.process.server, w') && w'.process.Up?
    ensures w'.process.server.setup == w.process.server.setup && w'.process.server.mutex == w.process.server.mutex
  {
  }

  /** Only a webhook's own steps give answers. */
  lemma OthersAnswerNothing(w: World, a: Actor, w': World)
    requires Step(w, a, w') && !a.Webhook? && !a.Environment? && w'.process.Up?
    ensures
      var s, s' := w.process.server, w'.process.server;
      s'.setup == s.setup && (s'.mutex == s.mutex || s'.mutex.Free? || s'.mutex.ByDispatcher?)
  {
    var t, g, s, t', g', s' := w.table, w.github, w.process.server, w'.table, w'.github, w'.process.server;
    match a
    case Main => MainMutex(w, w');
    case Operator => assert OperatorNext(s, s');
    case Dispatch => DispatcherMutex(t, s, t', s');
    case Executor(id) => ExecMutex(t, s, t', s', id, w.clock);
    case Reporter => RetryMutex(t, g, s, t', g', s');
    case Updater => UpdateMutex(t, g, s, t', g', s');
  }

  lemma EnvironmentAnswersNothing(w: World, w': World)
    requires EnvironmentNext(w, w') && SincereIn(w)
    ensures SincereIn(w')
  {
  }

  lemma SincereStep(w: World, a: Actor, w': World)
    requires Inv(w) && Step(w, a, w') && SincereIn(w)
    ensures SincereIn(w')
  {
    StepMoves(w, a, w');
    if a.Environment? {
      EnvironmentAnswersNothing(w, w');
    } else if a.Webhook? {
      AnswerStep(w.table, w.process.server, w'.table, w'.process.server);
    } else if w'.process.Up? {
      OthersAnswerNothing(w, a, w');
      SincereStays(w.table, w.process.server, w'.table, w'.process.server);
    }
  }

  lemma {:induction false} AnswersAreSincere(ws: seq<World>, actors: seq<Actor>, i: nat)
    requires Run(ws, actors) && i < |ws|
    ensures SincereIn(ws[i])
  {
    if i == 0 {
    } else {
      AnswersAreSincere(ws, actors, i - 1);
      RunKeeps(ws, actors, i - 1);
      assert StepAt(ws, actors, i - 1);
      SincereStep(ws[i - 1], actors[i - 1], ws[i]);
    }
  }

  /** Some delivery has just been answered with this row. */
  predicate Answers(w: World, job: Job, saved: Row, created: bool) {
    w.process.Up? && w.process.server.mutex == ByWebhookAdmitted(job, saved, created)
  }

  /** The row a delivery was answered from is never lost and only moves forward; a created one starts as delivered. */
  lemma AnsweredJobsEndure(
      ws: seq<World>, actors: seq<Actor>, i: nat, j: nat, job: Job, saved: Row, created: bool)
    requires Run(ws, actors) && i <= j < |ws| && Answers(ws[i], job, saved, created)
    ensures job.id in ws[j].table && RowOk(ws[j].table[job.id]) && RowLater(saved, ws[j].table[job.id])
    ensures created ==> saved == job.row.(finishedAt := 0, reported := false, cleaned := false, version := 1)
  {
    AnswersAreSincere(ws, actors, i);
    JobsEndure(ws, actors, i, j, job.id);
    RunKeeps(ws, actors, i);
    TableIsOk(ws[i]);
    RowLaterTransitive(saved, ws[i].table[job.id], ws[j].table[job.id]);
  }

  /** And it is the row of exactly the delivered commit, whether the delivery created it or found it. */
  lemma AnsweredCommit(
      ws: seq<World>, actors: seq<Actor>, setup: Setup, i: nat, job: Job, saved: Row, created: bool)
    requires Run(ws, actors) && (forall k | 0 <= k < |ws| :: RunsWith(ws[k], setup)) && Injective(setup.digest)
    requires i < |ws| && Answers(ws[i], job, saved, created)
    ensures saved.repository == job.row.repository && saved.sha == job.row.sha
  {
    AnswersAreSincere(ws, actors, i);
    RunIsLimited(ws, actors, setup);
    assert Tables(ws)[i] == ws[i].table && RunsWith(ws[i], setup);
    RowsAreNamed(Tables(ws), setup, i, job.id);
    JobIdNamesOneCommit(
      setup.digest, ws[i].table[job.id].repository, ws[i].table[job.id].sha, job.row.repository, job.row.sha);
  }
}
