/**
 The CI server of cmd/ci as a state machine: one durable table, what GitHub accepted, and at most
 one server process with a program counter per goroutine. A step is one actor's move. Reads and
 writes made under the server's mutex are one step unless an SQL statement separates them.

 Environment assumptions: a status request takes effect at GitHub before reportStatus returns, or
 never; every SQL statement is atomic and durable, but may commit and still return an error; the
 state lock admits one server process, and a dead process runs nothing.
 */
module CiServer {
  import opened Prelude
  import opened JobTable
  import opened SqliteStore

  // ------------------------------------------------------------------
  // Program counters
  // ------------------------------------------------------------------

  /** reportJobStatuses. The head of `rest` is the job being looked at. */
  datatype Pass =
    | ReportList
    | ReportNext(rest: seq<Job>)
    | ReportInFlight(rest: seq<Job>)
    | ReportAccepted(rest: seq<Job>)
    | ReportAck(rest: seq<Job>)
    | ReportDone(ok: bool)

  /** retryStatusUpdates and the cleanup half of reportJobUpdates. */
  datatype Retry =
    | Reporting(pass: Pass)
    | CleanList
    | CleanNext(rest: seq<Job>)
    | CleanBusy(rest: seq<Job>)
    | CleanMark(rest: seq<Job>)
    | RetryWait
    | RetryExited

  /** dispatchJobs; the mutex is held in DispHolding and DispClaimed. */
  datatype Dispatcher =
    | DispTop
    | DispLocking
    | DispHolding
    | DispClaimed(won: Option<Job>)
    | DispSpawn(job: Job)
    | DispWait
    | DispJoin
    | DispExited

  /** runJob. Finish and its second read are separate statements. */
  datatype Exec =
    | Starting
    | Executing
    | Finishing(state: State, message: string)
    | Rereading(state: State, message: string)
    | Retrying(state: State, message: string)

  /** The goroutine of postUpdate and prepareUpdate. */
  datatype Update =
    | Idle
    | Building
    | Built
    | Polling
    | SawNoRunning
    | JoiningWorkers
    | Flushing(pass: Pass)
    | Flushed
    | UpdateReady
    | HandedOver
    | UpdateFailed

  /** serve and stop. */
  datatype Stage =
    | Serving
    | Stopping(updating: bool)
    | ClosingHttp(updating: bool)
    | JoiningProcessing(updating: bool)
    | JoiningTasks(updating: bool)
    | Recovering
    | Canceling
    | FinalReport(pass: Pass)
    | Returned(candidate: bool)

  /** In ByWebhookAdmitted Admit has returned without error, with the row it found or inserted. */
  datatype Mutex =
    | Free
    | ByDispatcher
    | ByWebhook(job: Job)
    | ByWebhookReading(job: Job)
    | ByWebhookAdmitted(job: Job, saved: Row, created: bool)

  /** procCanceled is an explicit processingCancel; ctxDone is the cancellation of serve's context. */
  datatype Server = Server(
    setup: Setup, accepting: bool, updating: bool, draining: bool, candidate: bool, closed: nat,
    ctxDone: bool, procCanceled: bool, shutdown: bool, http: bool, serveFailed: bool, mutex: Mutex,
    dispatcher: Dispatcher, execs: map<JobId, Exec>, retry: Retry, update: Update, main: Stage)

  datatype Status = Status(version: nat, state: State)

  type Log = map<JobId, seq<Status>>

  /** Down(true) follows a process that ended, or was replaced, while handing over an update. */
  datatype Process = Down(handover: bool) | Up(server: Server)

  /**
   github and disrupted record history: the statuses GitHub accepted per job, and whether a
   crash or a shutdown without update has begun.
   */
  datatype World = World(clock: int, table: Table, github: Log, process: Process, disrupted: bool)

  datatype Actor =
    | Environment | Webhook | Operator | Dispatch | Executor(id: JobId) | Reporter | Updater | Main

  function Fresh(setup: Setup): Server {
    Server.Server(setup, true, false, false, false, 0, false, false, false, true, false, Free,
                  DispTop, map[], Reporting(ReportList), Idle, Serving)
  }

  predicate ProcessingDone(s: Server) {
    s.ctxDone || s.procCanceled
  }

  /** The `processing` wait group is at zero. */
  predicate WorkersExited(s: Server) {
    s.dispatcher.DispExited? && s.retry.RetryExited?
  }

  // ------------------------------------------------------------------
  // Status passes, shared by the retry loop, the update flush and the final attempt
  // ------------------------------------------------------------------

  function Accepted(g: Log, id: JobId): seq<Status> {
    if id in g then g[id] else []
  }

  function StatusOf(job: Job): Status {
    Status(job.row.version, job.row.state)
  }

  /** Contexts may expire at any point, so every exit on an expired context is always possible. */
  ghost predicate PassNext(t: Table, g: Log, p: Pass, t': Table, g': Log, p': Pass) {
    match p
    case ReportList =>
      t' == t && g' == g &&
      (p' == ReportDone(false) || (p'.ReportNext? && IsUnsettled(t, p'.rest)))
    case ReportNext(rest) =>
      t' == t && g' == g &&
      if rest == [] then p' == ReportDone(true)
      else if rest[0].row.reported then p' == ReportNext(rest[1..])
      else p' == ReportDone(false) || p' == ReportInFlight(rest)
    case ReportInFlight(rest) =>
      t' == t && rest != [] &&
      if p'.ReportAccepted? then
        p'.rest == rest && g' == g[rest[0].id := Accepted(g, rest[0].id) + [StatusOf(rest[0])]]
      else g' == g && (p' == ReportNext(rest[1..]) || p' == ReportDone(false))
    case ReportAccepted(rest) =>
      t' == t && g' == g && rest != [] &&
      (p' == ReportAck(rest) || p' == ReportNext(rest[1..]) || p' == ReportDone(false))
    case ReportAck(rest) =>
      rest != [] && g' == g &&
      if p' == ReportNext(rest[1..]) then t' == AcknowledgeRow(t, rest[0].id, rest[0].row.version)
      else p' == ReportDone(false) && (t' == t || t' == AcknowledgeRow(t, rest[0].id, rest[0].row.version))
    case ReportDone(_) => false
  }

  // ------------------------------------------------------------------
  // Goroutines: each relation names first the fields its actor may write
  // ------------------------------------------------------------------

  ghost predicate RetryNext(t: Table, g: Log, s: Server, t': Table, g': Log, s': Server) {
    && s' == s.(retry := s'.retry)
    && (s.retry.Reporting? || g' == g)
    && (s.retry.Reporting? || s.retry.CleanMark? || t' == t)
    && match s.retry
       case Reporting(p) =>
         if p.ReportDone? then t' == t && g' == g && s'.retry == (if p.ok then CleanList else RetryWait)
         else s'.retry.Reporting? && PassNext(t, g, p, t', g', s'.retry.pass)
       case CleanList => s'.retry == RetryWait || (s'.retry.CleanNext? && IsUnsettled(t, s'.retry.rest))
       case CleanNext(rest) =>
         if rest == [] then s'.retry == RetryWait
         else if !Terminal(rest[0].row.state) || rest[0].row.cleaned then s'.retry == CleanNext(rest[1..])
         else s'.retry == CleanBusy(rest)
       case CleanBusy(rest) => rest != [] && (s'.retry == CleanNext(rest[1..]) || s'.retry == CleanMark(rest))
       case CleanMark(rest) =>
         && rest != []
         && (t' == MarkCleanedRow(t, rest[0].id) || (t' == t && s'.retry == RetryWait))
         && (s'.retry == CleanNext(rest[1..]) || s'.retry == RetryWait)
       case RetryWait => (s'.retry == RetryExited && ProcessingDone(s)) || s'.retry == Reporting(ReportList)
       case RetryExited => false
  }

  /** Under the mutex: draining is read and the claim is one statement, which may commit and still fail. */
  ghost predicate ClaimNext(t: Table, s: Server, t': Table, d': Dispatcher) {
    var winner := Claimant(t, s.setup.maxParallel);
    if s.draining || winner.None? then t' == t && d' == DispClaimed(None)
    else
      || (t' == t && d' == DispClaimed(None))
      || (t' == ClaimRow(t, s.setup.maxParallel)
          && (|| d' == DispClaimed(None)
              || (winner.value in t' && d' == DispClaimed(Some(Job(winner.value, t'[winner.value]))))))
  }

  ghost predicate DispatcherNext(t: Table, s: Server, t': Table, s': Server) {
    && s' == s.(dispatcher := s'.dispatcher, mutex := s'.mutex, execs := s'.execs)
    && (s.dispatcher.DispHolding? || t' == t)
    && (s.dispatcher.DispLocking? || s.dispatcher.DispClaimed? || s'.mutex == s.mutex)
    && (s.dispatcher.DispSpawn? || s'.execs == s.execs)
    && match s.dispatcher
       case DispTop => s'.dispatcher == if ProcessingDone(s) then DispJoin else DispLocking
       case DispLocking => s.mutex.Free? && s'.mutex == ByDispatcher && s'.dispatcher == DispHolding
       case DispHolding => ClaimNext(t, s, t', s'.dispatcher)
       case DispClaimed(won) =>
         s'.mutex == Free && s'.dispatcher == if won.Some? then DispSpawn(won.value) else DispWait
       case DispSpawn(job) => s'.execs == s.execs[job.id := Starting] && s'.dispatcher == DispTop
       case DispWait => (s'.dispatcher == DispJoin && ProcessingDone(s)) || s'.dispatcher == DispTop
       case DispJoin => s.execs == map[] && s'.dispatcher == DispExited
       case DispExited => false
  }

  /** execute returns, panics or times out: any state and message may have to be saved. */
  ghost predicate ExecNext(t: Table, s: Server, t': Table, s': Server, id: JobId, clock: int) {
    && s' == s.(execs := s'.execs)
    && id in s.execs
    && s'.execs - {id} == s.execs - {id}
    && (s.execs[id].Finishing? || t' == t)
    && (id in s'.execs || s.execs[id].Finishing? || s.execs[id].Rereading? || s.execs[id].Retrying?)
    && match s.execs[id]
       case Starting => s'.execs[id] == Executing || (s'.execs[id].Finishing? && s'.execs[id].state.Error?)
       case Executing => s'.execs[id].Finishing?
       case Finishing(state, message) =>
         if Terminal(state) && id in t && t[id].state.Running? then
           || (&& t' == FinishRow(t, id, state, message, clock)
               && (id in s'.execs ==> s'.execs[id] == Retrying(state, message)))
           || (t' == t && id in s'.execs && s'.execs[id] == Retrying(state, message))
         else
           && t' == t && id in s'.execs
           && (|| s'.execs[id] == Retrying(state, message)
               || (Terminal(state) && s'.execs[id] == Rereading(state, message)))
       case Rereading(state, message) =>
         if id in s'.execs then s'.execs[id] == Retrying(state, message)
         else id in t && t[id].state == state && t[id].message == message
       case Retrying(state, message) =>
         if id in s'.execs then s'.execs[id] == Finishing(state, message) else ProcessingDone(s)
  }

  /** postWebhook from taking the mutex to releasing it. */
  ghost predicate WebhookNext(t: Table, s: Server, t': Table, s': Server) {
    && s' == s.(mutex := s'.mutex)
    && (s.mutex.ByWebhook? || t' == t)
    && match s.mutex
       case Free => s.accepting && s'.mutex.ByWebhook? && s'.mutex.job.row.state.Queued?
       case ByWebhook(job) =>
         if !Admissible(s.setup.digest, job, s.setup.maxQueued) then s'.mutex == Free && t' == t
         else
           var inserted := InsertRow(t, job, s.setup.maxQueued);
           || (s'.mutex == Free && (t' == t || t' == inserted))
           || (s'.mutex == ByWebhookReading(job) && t' == t == inserted)
           || (&& job.id !in t && job.id in inserted && t' == inserted
               && s'.mutex == ByWebhookAdmitted(job, inserted[job.id], true))
       case ByWebhookReading(job) =>
         s'.mutex == Free || (job.id in t && s'.mutex == ByWebhookAdmitted(job, t[job.id], false))
       case ByWebhookAdmitted(_, _, _) => s'.mutex == Free
       case ByDispatcher => false
  }

  /** An authorized postUpdate. */
  ghost predicate OperatorNext(s: Server, s': Server) {
    s.mutex.Free? && !s.updating && s.accepting && s' == s.(updating := true, update := Building)
  }

  ghost predicate UpdateNext(t: Table, g: Log, s: Server, t': Table, g': Log, s': Server) {
    && s' == s.(update := s'.update, updating := s'.updating, accepting := s'.accepting, draining := s'.draining,
                candidate := s'.candidate, procCanceled := s'.procCanceled, closed := s'.closed)
    && (s.update.Flushing? || (t' == t && g' == g))
    && (s.update.Built? || s.update.UpdateFailed? || (s'.draining == s.draining && s'.candidate == s.candidate))
    && (s.update.UpdateFailed? || (s'.updating == s.updating && s'.accepting == s.accepting))
    && (s.update.SawNoRunning? || s'.procCanceled == s.procCanceled)
    && (s.update.UpdateReady? || s'.closed == s.closed)
    && match s.update
       case Building => s'.update == Built || s'.update == UpdateFailed
       case Built =>
         s.mutex.Free? &&
         if s.ctxDone then s'.update == UpdateFailed && s'.draining == s.draining && s'.candidate == s.candidate
         else s'.update == Polling && s'.draining && s'.candidate
       case Polling => s'.update == UpdateFailed || (s'.update == SawNoRunning && WithState(t, Running) == {})
       case SawNoRunning => s'.procCanceled && s'.update == JoiningWorkers
       case JoiningWorkers =>
         (s'.update == Flushing(ReportList) && WorkersExited(s)) || (s'.update == UpdateFailed && s.ctxDone)
       case Flushing(p) =>
         if p.ReportDone? then t' == t && g' == g && s'.update == Flushed
         else s'.update.Flushing? && PassNext(t, g, p, t', g', s'.update.pass)
       case Flushed => s'.update == if s.ctxDone then UpdateFailed else UpdateReady
       case UpdateReady => s'.closed == s.closed + 1 && s'.update == HandedOver
       case UpdateFailed =>
         && s.mutex.Free? && s'.update == Idle
         && !s'.updating && s'.accepting == !s.ctxDone && !s'.draining && !s'.candidate
       case Idle => false
       case HandedOver => false
  }

  // ------------------------------------------------------------------
  // serve, stop and the process around them
  // ------------------------------------------------------------------

  /** The main goroutine reaches `m`, or the process ends. */
  predicate Reaches(w': World, m: Stage) {
    w'.process.Up? && w'.process.server.main == m
  }

  ghost predicate MainNext(w: World, s: Server, w': World) {
    && w'.clock == w.clock
    && (w'.process.Up? ==>
          var s' := w'.process.server;
          && s' == s.(main := s'.main, accepting := s'.accepting, ctxDone := s'.ctxDone, http := s'.http)
          && (s.main.Stopping? || (s'.accepting == s.accepting && s'.ctxDone == s.ctxDone))
          && (s.main.ClosingHttp? || s'.http == s.http))
    && (s.main.Serving? || w'.disrupted == w.disrupted)
    && (s.main.FinalReport? || w'.github == w.github)
    && (s.main.Recovering? || s.main.Canceling? || s.main.FinalReport? || w'.table == w.table)
    && match s.main
       case Serving =>
         || (Reaches(w', Stopping(false)) && (s.shutdown || s.serveFailed) && w'.disrupted)
         || (Reaches(w', Stopping(true)) && s.closed > 0 && !s.shutdown && w'.disrupted == w.disrupted)
       case Stopping(u) =>
         && s.mutex.Free? && Reaches(w', ClosingHttp(u))
         && w'.process.server.accepting == (u && s.accepting) && w'.process.server.ctxDone
       case ClosingHttp(u) => Reaches(w', JoiningProcessing(u)) && !w'.process.server.http
       case JoiningProcessing(u) => w'.process == Down(u) || (Reaches(w', JoiningTasks(u)) && WorkersExited(s))
       case JoiningTasks(u) =>
         || w'.process == Down(u)
         || (&& Reaches(w', if u then Returned(true) else Recovering)
             && !s.http && (s.update.Idle? || s.update.HandedOver?))
       case Recovering =>
         var recovered := Recovered(w.table, w.clock);
         || (Reaches(w', Canceling) && w'.table == recovered)
         || (w'.process == Down(false) && (w'.table == w.table || w'.table == recovered))
       case Canceling =>
         var canceled := QueueCanceled(w.table, w.clock);
         || (Reaches(w', FinalReport(ReportList)) && w'.table == canceled)
         || (w'.process == Down(false) && (w'.table == w.table || w'.table == canceled))
       case FinalReport(p) =>
         if p.ReportDone? then
           w'.table == w.table && w'.github == w.github &&
           if p.ok then Reaches(w', Returned(false)) else w'.process == Down(false)
         else
           w'.process.Up? && w'.process.server.main.FinalReport? &&
           PassNext(w.table, w.github, p, w'.table, w'.github, w'.process.server.main.pass)
       case Returned(candidate) => w'.process == Down(candidate)
  }

  /** newServer recovers before anything else runs; a failed start may still have recovered. */
  ghost predicate EnvironmentNext(w: World, w': World) {
    && w'.github == w.github
    && w'.clock > 0
    && match w.process
       case Down(handover) =>
         && w'.disrupted == w.disrupted
         && (w'.table == w.table || w'.table == Recovered(w.table, w.clock))
         && (w'.process == w.process
             || (w'.table == Recovered(w.table, w.clock) && exists setup :: w'.process == Up(Fresh(setup))))
       case Up(s) =>
         && w'.table == w.table
         && match w'.process
            case Down(handover) => !handover && w'.disrupted
            case Up(s') =>
              && w'.disrupted == w.disrupted
              && s' == s.(shutdown := s'.shutdown, http := s'.http, serveFailed := s'.serveFailed)
              && (s.shutdown ==> s'.shutdown)
              && ((s'.http == s.http && s'.serveFailed == s.serveFailed) || (s.http && !s'.http && s'.serveFailed))
  }

  ghost predicate Step(w: World, a: Actor, w': World) {
    match a
    case Environment => EnvironmentNext(w, w')
    case Main => w.process.Up? && MainNext(w, w.process.server, w')
    case _ =>
      && w.process.Up? && w'.process.Up?
      && w'.clock == w.clock && w'.disrupted == w.disrupted
      && (a.Reporter? || a.Updater? || w'.github == w.github)
      && var t, g, s, t', g', s' := w.table, w.github, w.process.server, w'.table, w'.github, w'.process.server;
         match a
         case Webhook => WebhookNext(t, s, t', s')
         case Operator => t' == t && OperatorNext(s, s')
         case Dispatch => DispatcherNext(t, s, t', s')
         case Executor(id) => ExecNext(t, s, t', s', id, w.clock)
         case Reporter => RetryNext(t, g, s, t', g', s')
         case Updater => UpdateNext(t, g, s, t', g', s')
         case _ => false
  }

  ghost predicate Initial(w: World) {
    w.clock > 0 && w.table == map[] && w.github == map[] && w.process == Down(true) && !w.disrupted
  }

  ghost predicate StepAt(ws: seq<World>, actors: seq<Actor>, i: nat)
    requires i < |actors| && |ws| == |actors| + 1
  {
    Step(ws[i], actors[i], ws[i + 1])
  }

  /** A run: worlds joined by steps; actors[i] moves from ws[i] to ws[i + 1]. */
  ghost predicate Run(ws: seq<World>, actors: seq<Actor>) {
    && |ws| == |actors| + 1
    && Initial(ws[0])
    && forall i | 0 <= i < |actors| :: StepAt(ws, actors, i)
  }
}
