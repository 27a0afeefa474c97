/**
 cmd/ci/sqlite.go: the store object. Every method issues the statements of the Go method and is
 tied to the statement functions of JobTable, so what is proved about histories holds of it.
 */
module SqliteStore {
  import opened Prelude
  import opened JobTable

  datatype StoreError = InvalidRequest | QueueFull | NotFound | StateConflict

  datatype Admission = Admission(saved: Job, created: bool)

  /** The rows of `SELECT … WHERE reported=0 OR cleaned=0`. */
  function OpenIds(t: Table): set<JobId> {
    set id | id in t && (!t[id].reported || !t[id].cleaned)
  }

  /** A complete answer of that query in `ORDER BY created_at, id`; no row appears twice. */
  ghost predicate IsUnsettled(t: Table, jobs: seq<Job>) {
    && (forall i | 0 <= i < |jobs| :: jobs[i].id in OpenIds(t) && jobs[i].row == t[jobs[i].id])
    && (forall i, j | 0 <= i < j < |jobs| :: Before(t, jobs[i].id, jobs[j].id))
    && (forall id | id in OpenIds(t) :: Job(id, t[id]) in jobs)
  }

  class Store {
    const digest: string -> JobId
    var rows: Table

    constructor (digest: string -> JobId)
      ensures rows == map[] && this.digest == digest
    {
      this.digest := digest;
      rows := map[];
    }

    method Get(id: JobId) returns (r: Result<Job, StoreError>)
      ensures r == if id in rows then Done(Job(id, rows[id])) else Failed(NotFound)
    {
      if id in rows {
        return Done(Job(id, rows[id]));
      }
      return Failed(NotFound);
    }

    /** A redelivered job is answered from its row even when the queue is full. */
    method Admit(job: Job, maxQueued: int) returns (r: Result<Admission, StoreError>)
      modifies this
      ensures !Admissible(digest, job, maxQueued) ==> r == Failed(InvalidRequest) && rows == old(rows)
      ensures Admissible(digest, job, maxQueued) ==> rows == InsertRow(old(rows), job, maxQueued)
      ensures Admissible(digest, job, maxQueued) && job.id in old(rows) ==>
        rows == old(rows) && r == Done(Admission(Job(job.id, old(rows)[job.id]), false))
      ensures Admissible(digest, job, maxQueued) && job.id !in old(rows) ==>
        if |WithState(old(rows), Queued)| < maxQueued
        then
          && rows == old(rows)[job.id := job.row.(finishedAt := 0, reported := false, cleaned := false, version := 1)]
          && RowOk(rows[job.id]) && rows[job.id].state.Queued?
          && r == Done(Admission(Job(job.id, rows[job.id]), true))
        else r == Failed(QueueFull) && rows == old(rows)
    {
      if !Admissible(digest, job, maxQueued) {
        return Failed(InvalidRequest);
      }
      if |WithState(rows, Queued)| < maxQueued && job.id !in rows {
        var saved := job.row.(finishedAt := 0, reported := false, cleaned := false, version := 1);
        rows := rows[job.id := saved];
        return Done(Admission(Job(job.id, saved), true));
      }
      var existing := Get(job.id);
      if existing.Done? {
        return Done(Admission(existing.value, false));
      }
      return Failed(QueueFull);
    }

    method Claim(maxParallel: int) returns (r: Result<Option<Job>, StoreError>)
      modifies this
      ensures maxParallel < 1 ==> r == Failed(InvalidRequest) && rows == old(rows)
      ensures maxParallel >= 1 ==> rows == ClaimRow(old(rows), maxParallel)
      ensures maxParallel >= 1 ==>
        && r.Done?
        && (r.value.None? <==>
              WithState(old(rows), Queued) == {} || |WithState(old(rows), Running)| >= maxParallel)
      ensures maxParallel >= 1 && r.Done? && r.value.Some? ==>
        (var t, id := old(rows), r.value.value.id;
         && id in t && t[id].state.Queued? && |WithState(t, Running)| < maxParallel
         && (forall k | k in t && t[k].state.Queued? && k != id ::
               t[id].createdAt < t[k].createdAt || (t[id].createdAt == t[k].createdAt && id < k))
         && rows == t[id := t[id].(state := Running, message := "Building and running Dockerfile.chamber",
                                   reported := false, version := t[id].version + 1)]
         && r.value.value == Job(id, rows[id]))
      ensures r.Done? && r.value.None? ==> rows == old(rows)
    {
      if maxParallel < 1 {
        return Failed(InvalidRequest);
      }
      var queued := WithState(rows, Queued);
      if queued == {} || |WithState(rows, Running)| >= maxParallel {
        assert forall id :: !Claims(rows, maxParallel, id);
        return Done(None);
      }
      ghost var least := OldestExists(rows, queued);
      var id :| id in queued && Oldest(rows, queued, id);
      ClaimIsDetermined(rows, maxParallel, id);
      var claimed := rows[id].(state := Running, message := CLAIMED_MESSAGE, reported := false,
                               version := rows[id].version + 1);
      rows := rows[id := claimed];
      return Done(Some(Job(id, claimed)));
    }

    /** Retrying a committed write whose acknowledgement was lost succeeds without a second effect. */
    method Finish(id: JobId, state: State, message: string, now: int) returns (r: Result<(), StoreError>)
      modifies this
      ensures !Terminal(state) ==> r == Failed(InvalidRequest) && rows == old(rows)
      ensures Terminal(state) ==> rows == FinishRow(old(rows), id, state, message, now)
      ensures Terminal(state) ==>
        (r.Done? <==> id in rows && rows[id].state == state && rows[id].message == message)
      ensures Terminal(state) && r.Failed? ==>
        rows == old(rows) && r.error == if id in rows then StateConflict else NotFound
      ensures Terminal(state) ==>
        rows ==
        if id in old(rows) && old(rows)[id].state.Running?
        then old(rows)[id := old(rows)[id].(state := state, message := message, finishedAt := now, reported := false,
                                            version := old(rows)[id].version + 1)]
        else old(rows)
    {
      if !Terminal(state) {
        return Failed(InvalidRequest);
      }
      if id in rows && rows[id].state.Running? {
        rows := rows[id := rows[id].(state := state, message := message, finishedAt := now, reported := false,
                                     version := rows[id].version + 1)];
        return Done(());
      }
      var existing := Get(id);
      if existing.Failed? {
        return Failed(existing.error);
      }
      if existing.value.row.state == state && existing.value.row.message == message {
        return Done(());
      }
      return Failed(StateConflict);
    }

    method Unsettled() returns (jobs: seq<Job>)
      ensures IsUnsettled(rows, jobs)
      ensures forall id, row :: Job(id, row) in jobs <==>
        id in rows && row == rows[id] && (!rows[id].reported || !rows[id].cleaned)
      ensures forall i, j | 0 <= i < j < |jobs| ::
        || jobs[i].row.createdAt < jobs[j].row.createdAt
        || (jobs[i].row.createdAt == jobs[j].row.createdAt && jobs[i].id < jobs[j].id)
    {
      var unread := OpenIds(rows);
      jobs := [];
      while unread != {}
        invariant unread <= OpenIds(rows)
        invariant forall i | 0 <= i < |jobs| :: jobs[i].id in OpenIds(rows) && jobs[i].row == rows[jobs[i].id]
        invariant forall i, j | 0 <= i < j < |jobs| :: Before(rows, jobs[i].id, jobs[j].id)
        invariant forall i, id | 0 <= i < |jobs| && id in unread :: Before(rows, jobs[i].id, id)
        invariant forall id | id in OpenIds(rows) :: id in unread || Job(id, rows[id]) in jobs
        decreases unread
      {
        ghost var least := OldestExists(rows, unread);
        var id :| id in unread && Oldest(rows, unread, id);
        assert Oldest(rows, unread, id);
        forall k | k in unread && k != id ensures Before(rows, id, k) {}
        unread := unread - {id};
        jobs := jobs + [Job(id, rows[id])];
      }
    }

    method Acknowledge(id: JobId, version: nat)
      modifies this
      ensures rows == AcknowledgeRow(old(rows), id, version)
      ensures rows ==
        if id in old(rows) && old(rows)[id].version == version
        then old(rows)[id := old(rows)[id].(reported := true)] else old(rows)
    {
      if id in rows && rows[id].version == version {
        rows := rows[id := rows[id].(reported := true)];
      }
    }

    method MarkCleaned(id: JobId)
      modifies this
      ensures rows == MarkCleanedRow(old(rows), id)
      ensures rows ==
        if id in old(rows) && old(rows)[id].state in {Success, Failure, Error}
        then old(rows)[id := old(rows)[id].(cleaned := true)] else old(rows)
    {
      if id in rows && Terminal(rows[id].state) {
        rows := rows[id := rows[id].(cleaned := true)];
      }
    }

    method RecoverInterrupted(now: int)
      modifies this
      ensures rows == Recovered(old(rows), now)
      ensures WithState(rows, Running) == {}
      ensures rows.Keys == old(rows).Keys
      ensures forall id | id in rows ::
        rows[id] ==
        if old(rows)[id].state.Running?
        then old(rows)[id].(state := Error, message := "Job interrupted by CI server shutdown or restart",
                            finishedAt := now, reported := false, version := old(rows)[id].version + 1)
        else old(rows)[id]
    {
      rows := map id | id in rows ::
        if rows[id].state == Running
        then rows[id].(state := Error, message := INTERRUPTED_MESSAGE, finishedAt := now, reported := false,
                       version := rows[id].version + 1)
        else rows[id];
    }

    method CancelQueued(now: int)
      modifies this
      ensures rows == QueueCanceled(old(rows), now)
      ensures WithState(rows, Queued) == {}
      ensures rows.Keys == old(rows).Keys
      ensures forall id | id in rows ::
        rows[id] ==
        if old(rows)[id].state.Queued?
        then old(rows)[id].(state := Error, message := "CI server stopped before job started",
                            finishedAt := now, reported := false, version := old(rows)[id].version + 1)
        else old(rows)[id]
    {
      rows := map id | id in rows ::
        if rows[id].state == Queued
        then rows[id].(state := Error, message := CANCELED_MESSAGE, finishedAt := now, reported := false,
                       version := rows[id].version + 1)
        else rows[id];
    }

    /** Zero exactly when a successor's recovery would change nothing, which is what an update waits for. */
    method RunningCount() returns (count: nat)
      ensures count == |WithState(rows, Running)|
      ensures count == 0 <==> forall now :: Recovered(rows, now) == rows
      ensures count == 0 ==> forall id | id in rows :: rows[id].state != Running
    {
      count := |WithState(rows, Running)|;
      if count == 0 {
        assert forall id | id in rows :: id !in WithState(rows, Running);
      } else {
        var id :| id in WithState(rows, Running);
        assert Recovered(rows, 0)[id].state == Error;
      }
    }
  }

  /** The listing exists, holds every open row once, and its snapshots are the rows themselves. */
  lemma UnsettledSnapshots(t: Table, jobs: seq<Job>)
    requires IsUnsettled(t, jobs)
    ensures forall i, j | 0 <= i < j < |jobs| :: jobs[i].id != jobs[j].id
    ensures (set job | job in jobs :: job.id) == set id | id in t && (!t[id].reported || !t[id].cleaned)
  {
    assert forall id | id in OpenIds(t) :: Job(id, t[id]) in jobs && Job(id, t[id]).id == id;
  }
}
