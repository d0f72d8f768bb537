/** Runs that show why the guards of the safety theorems are there. Each exists for every upload
    the service accepts. */
module Witnesses {
  import opened Domain
  import opened Stores
  import opened Protocol
  import opened Sequential
  import opened Refinement
  import opened Invariant
  import Reuse

  ghost predicate Reachable(cfg: Config, s: State) {
    exists run: seq<Action> :: After(cfg, INIT, run) == s
  }

  lemma ReachMore(cfg: Config, s: State, run: seq<Action>)
    requires Reachable(cfg, s)
    ensures Reachable(cfg, After(cfg, s, run))
  {
    var before: seq<Action> :| After(cfg, INIT, before) == s;
    AfterAppend(cfg, INIT, before, run);
    assert After(cfg, INIT, before + run) == After(cfg, s, run);
  }

  lemma ReachStep(cfg: Config, s: State, a: Action)
    requires Reachable(cfg, s)
    ensures Reachable(cfg, Apply(cfg, s, a))
  {
    AfterOneMore(cfg, s, [], a);
    assert [] + [a] == [a];
    ReachMore(cfg, s, [a]);
  }

  /** The id of an accepted upload is stored and has a row. */
  lemma UploadAlone(cfg: Config, s: State, pid: Pid, input: UploadInput, generated: Id, stamp: Time) returns (s': State)
    requires Reachable(cfg, s) && pid !in s.procs && CheckUpload(cfg, input, generated, stamp).Accepted?
    requires var id := CheckUpload(cfg, input, generated, stamp).row.id; id !in s.store.rows && id !in s.store.blobs
    ensures Reachable(cfg, s')
    ensures
      var row := CheckUpload(cfg, input, generated, stamp).row;
      && s'.store == s.store.(rows := s.store.rows[row.id := row], blobs := s.store.blobs[row.id := input.content])
      && pid in s'.procs && s'.procs == s.procs[pid := s'.procs[pid]]
      && s'.procs[pid].Upload? && s'.procs[pid].phase.Finished?
  {
    UploadIsARun(cfg, s, pid, input, generated, stamp, CLEAN_UPLOAD);
    s' := After(cfg, s, UploadRun(pid, input, generated, stamp, CLEAN_UPLOAD));
    ReachMore(cfg, s, UploadRun(pid, input, generated, stamp, CLEAN_UPLOAD));
  }

  /** The row of id is deleted; the delete call stops before it removes the blob. */
  lemma DeleteRowOnly(cfg: Config, s: State, pid: Pid, id: Id) returns (s': State)
    requires Reachable(cfg, s) && pid !in s.procs && id in s.store.rows
    ensures Reachable(cfg, s')
    ensures
      var user := s.store.rows[id].user;
      && s'.store == s.store.(rows := s.store.rows - {id}, tasks := s.store.tasks[id := Enqueued(s.store, user, id)])
      && s'.procs == s.procs[pid := Delete({id})]
  {
    var user := s.store.rows[id].user;
    var a := StartDelete(pid, user, One(id), true);
    s' := Apply(cfg, s, a);
    ReachStep(cfg, s, a);
    assert Matching(s.store, user, One(id)) == {id};
    assert s'.store.tasks == s.store.tasks[id := Enqueued(s.store, user, id)];
  }

  lemma BlobGoes(cfg: Config, s: State, pid: Pid, id: Id) returns (s': State)
    requires Reachable(cfg, s) && pid in s.procs && s.procs[pid] == Delete({id})
    ensures Reachable(cfg, s')
    ensures s'.store == s.store.(blobs := s.store.blobs - {id}) && s'.procs == s.procs[pid := Delete({})]
  {
    s' := Apply(cfg, s, RemoveBlob(pid, id, CleanDelete));
    ReachStep(cfg, s, RemoveBlob(pid, id, CleanDelete));
    assert {id} - {id} == {};
  }

  /** A new worker claims the only task. */
  lemma ClaimOnly(cfg: Config, s: State, pid: Pid, id: Id) returns (s': State)
    requires Reachable(cfg, s) && pid !in s.procs
    requires s.store.tasks.Keys == {id} && Ready(s.store.tasks[id], s.store.now)
    ensures Reachable(cfg, s')
    ensures s'.store == AfterClaim(s.store, id) && s'.procs == s.procs[pid := Worker(Deleting(id))]
  {
    var s1 := Apply(cfg, s, StartWorker(pid));
    ReachStep(cfg, s, StartWorker(pid));
    assert ReadyIds(s1.store, {}) == {id};
    s' := Apply(cfg, s1, ClaimTask(pid, {}, true));
    ReachStep(cfg, s1, ClaimTask(pid, {}, true));
  }

  lemma WorkerDeletes(cfg: Config, s: State, pid: Pid, id: Id) returns (s': State)
    requires Reachable(cfg, s) && WorkerIn(s, pid) && s.procs[pid].work == Deleting(id)
    ensures Reachable(cfg, s')
    ensures s'.store == s.store.(blobs := s.store.blobs - {id}) && s'.procs == s.procs[pid := Worker(Completing(id))]
  {
    s' := Apply(cfg, s, DeleteClaimed(pid, CleanDelete));
    ReachStep(cfg, s, DeleteClaimed(pid, CleanDelete));
  }

  /** An id was uploaded and deleted, blob and all, and worker 3 has claimed its task. */
  lemma DeletedAndClaimed(cfg: Config, input: UploadInput, generated: Id, stamp: Time) returns (s: State)
    requires CheckUpload(cfg, input, generated, stamp).Accepted?
    ensures Reachable(cfg, s)
    ensures
      var id := CheckUpload(cfg, input, generated, stamp).row.id;
      && s.store.rows == map[] && s.store.blobs == map[] && s.store.tasks.Keys == {id}
      && s.procs.Keys == {1, 2, 3} && s.procs[1].Upload? && s.procs[1].phase.Finished?
      && s.procs[2] == Delete({}) && s.procs[3] == Worker(Deleting(id))
  {
    var id := CheckUpload(cfg, input, generated, stamp).row.id;
    assert Reachable(cfg, INIT) by {
      assert After(cfg, INIT, []) == INIT;
    }
    var s1 := UploadAlone(cfg, INIT, 1, input, generated, stamp);
    var s2 := DeleteRowOnly(cfg, s1, 2, id);
    var s3 := BlobGoes(cfg, s2, 2, id);
    s := ClaimOnly(cfg, s3, 3, id);
  }

  /** Of an id that was uploaded, deleted, and uploaded and deleted again, a stale worker can mark
      the deletion as completed while the second bytes are stored: they are never deleted. */
  lemma StaleCompletionLeaks(cfg: Config, input: UploadInput, generated: Id, stamp: Time)
    requires CheckUpload(cfg, input, generated, stamp).Accepted?
    ensures
      var id := CheckUpload(cfg, input, generated, stamp).row.id;
      exists s :: Reachable(cfg, s)
        && id !in s.store.rows && id in s.store.blobs && id in s.store.tasks && s.store.tasks[id].status == Completed
  {
    var id := CheckUpload(cfg, input, generated, stamp).row.id;
    var s1 := DeletedAndClaimed(cfg, input, generated, stamp);
    var s2 := WorkerDeletes(cfg, s1, 3, id);
    var s3 := UploadAlone(cfg, s2, 4, input, generated, stamp);
    var s4 := DeleteRowOnly(cfg, s3, 5, id);
    var s5 := WorkerCompletes(cfg, s4, 3, id);
  }

  /** The upload has stored its bytes and not yet inserted its row. */
  lemma PutOnly(cfg: Config, s: State, pid: Pid, input: UploadInput, generated: Id, stamp: Time) returns (s': State)
    requires Reachable(cfg, s) && pid !in s.procs && CheckUpload(cfg, input, generated, stamp).Accepted?
    requires CheckUpload(cfg, input, generated, stamp).row.id !in s.store.blobs
    ensures Reachable(cfg, s')
    ensures
      var row := CheckUpload(cfg, input, generated, stamp).row;
      && s'.store == s.store.(blobs := s.store.blobs[row.id := input.content])
      && s'.procs == s.procs[pid := Upload(row, input.content, input.clientId.Some?, Inserting)]
  {
    var start := StartUpload(pid, input, generated, stamp);
    var s1 := Apply(cfg, s, start);
    ReachStep(cfg, s, start);
    s' := Apply(cfg, s1, PutBlob(pid, CleanPut));
    ReachStep(cfg, s1, PutBlob(pid, CleanPut));
  }

  lemma RowGoesIn(cfg: Config, s: State, pid: Pid) returns (s': State)
    requires Reachable(cfg, s) && UploadIn(s, pid, Inserting) && s.procs[pid].row.id !in s.store.rows
    ensures Reachable(cfg, s')
    ensures
      var row := s.procs[pid].row;
      && s'.store == s.store.(rows := s.store.rows[row.id := row])
      && s'.procs == s.procs[pid := s.procs[pid].(phase := Finished(Created(row)))]
  {
    s' := Apply(cfg, s, InsertRow(pid, true));
    ReachStep(cfg, s, InsertRow(pid, true));
    assert s' == DoInsert(s, pid, true);
  }

  /** The row of one upload is stored, and the bytes of another whose INSERT comes too late: the
      worker's delete freed the lock between their Puts. */
  lemma TwoPastPut(cfg: Config, first: UploadInput, second: UploadInput, generated: Id, stamp: Time) returns (s: State)
    requires first.clientId.Some? && second.clientId == first.clientId
    requires CheckUpload(cfg, first, generated, stamp).Accepted? && CheckUpload(cfg, second, generated, stamp).Accepted?
    ensures Reachable(cfg, s)
    ensures
      var row, row2 := CheckUpload(cfg, first, generated, stamp).row, CheckUpload(cfg, second, generated, stamp).row;
      && s.store.rows == map[row.id := row] && s.store.blobs == map[row.id := second.content] && row.id in s.store.tasks
      && s.procs.Keys == {1, 2, 3, 4, 5}
      && s.procs[1].Upload? && s.procs[1].phase.Finished? && s.procs[2] == Delete({}) && s.procs[3] == Worker(Completing(row.id))
      && s.procs[4] == Upload(row, first.content, true, Finished(Created(row)))
      && s.procs[5] == Upload(row2, second.content, true, Inserting)
  {
    var row := CheckUpload(cfg, first, generated, stamp).row;
    var s1 := DeletedAndClaimed(cfg, first, generated, stamp);
    var s2 := PutOnly(cfg, s1, 4, first, generated, stamp);
    var s3 := WorkerDeletes(cfg, s2, 3, row.id);
    var s4 := PutOnly(cfg, s3, 5, second, generated, stamp);
    s := RowGoesIn(cfg, s4, 4);
  }

  /** A row of the id does not keep a later upload from being created without its bytes: its owner
      deletes it, bytes and all, and the upload inserts its row, with no call failing. */
  lemma DeletedRowMiscreates(cfg: Config, first: UploadInput, second: UploadInput, generated: Id, stamp: Time)
    requires first.clientId.Some? && second.clientId == first.clientId
    requires CheckUpload(cfg, first, generated, stamp).Accepted? && CheckUpload(cfg, second, generated, stamp).Accepted?
    ensures
      var row, row2 := CheckUpload(cfg, first, generated, stamp).row, CheckUpload(cfg, second, generated, stamp).row;
      exists s, s' :: Reachable(cfg, s) && Reachable(cfg, s')
        && UploadIn(s, 5, Inserting) && s.store.rows == map[row.id := row]
        && UploadIn(s', 5, Finished(Created(row2))) && s'.store.rows == map[row.id := row2] && row.id !in s'.store.blobs
  {
    var row := CheckUpload(cfg, first, generated, stamp).row;
    var s := TwoPastPut(cfg, first, second, generated, stamp);
    var s1 := DeleteRowOnly(cfg, s, 6, row.id);
    var s2 := BlobGoes(cfg, s1, 6, row.id);
    var s' := RowGoesIn(cfg, s2, 5);
    assert s'.store.rows == map[row.id := s.procs[5].row];
  }

  /** An INSERT meets a conflict, and the clean-up after it is lost. */
  lemma ConflictKeepsBytes(cfg: Config, s: State, pid: Pid) returns (s': State)
    requires Reachable(cfg, s) && UploadIn(s, pid, Inserting) && s.procs[pid].clientSupplied && s.procs[pid].row.id in s.store.rows
    ensures Reachable(cfg, s')
    ensures s'.store == s.store && s'.procs == s.procs[pid := s.procs[pid].(phase := LookingUp)]
  {
    var s1 := Apply(cfg, s, InsertRow(pid, true));
    ReachStep(cfg, s, InsertRow(pid, true));
    assert s1 == SetUpload(s, pid, CleaningUp(true));
    var lost := CleanUp(pid, LostDelete(false));
    s' := Apply(cfg, s1, lost);
    ReachStep(cfg, s1, lost);
  }

  lemma WorkerCompletes(cfg: Config, s: State, pid: Pid, id: Id) returns (s': State)
    requires Reachable(cfg, s) && WorkerIn(s, pid) && s.procs[pid].work == Completing(id)
    ensures Reachable(cfg, s')
    ensures s'.store == AfterComplete(s.store, id) && s'.procs == s.procs[pid := Worker(Idle)]
  {
    s' := Apply(cfg, s, CompleteTask(pid, true));
    ReachStep(cfg, s, CompleteTask(pid, true));
  }

  /** Of an id that was deleted before, the row of one upload can be left with the bytes another
      upload put, out of any risk, so that they stay until the row is deleted (Reuse.CalmRun): the
      other upload meets the conflict and its clean-up is lost. */
  lemma ReusedRowHasOtherBytes(cfg: Config, first: UploadInput, second: UploadInput, generated: Id, stamp: Time)
    requires first.clientId.Some? && second.clientId == first.clientId
    requires CheckUpload(cfg, first, generated, stamp).Accepted? && CheckUpload(cfg, second, generated, stamp).Accepted?
    ensures
      var row := CheckUpload(cfg, first, generated, stamp).row;
      exists s :: Reachable(cfg, s)
        && row.id in s.store.rows && s.store.rows[row.id] == row
        && row.id in s.store.blobs && s.store.blobs[row.id] == second.content
        && !Reuse.AtRisk(s, row.id, {})
  {
    var row := CheckUpload(cfg, first, generated, stamp).row;
    var s1 := TwoPastPut(cfg, first, second, generated, stamp);
    var s2 := ConflictKeepsBytes(cfg, s1, 5);
    var s3 := WorkerCompletes(cfg, s2, 3, row.id);
    NobodyDangerous(s3, row.id);
  }

  /** Finished uploads, done deletes, idle workers and uploads that look up are harmless. */
  lemma NobodyDangerous(s: State, id: Id)
    requires s.procs.Keys == {1, 2, 3, 4, 5} && !Reuse.HasOpenTask(s, id)
    requires s.procs[1].Upload? && s.procs[1].phase.Finished? && s.procs[2] == Delete({}) && s.procs[3] == Worker(Idle)
    requires s.procs[4].Upload? && s.procs[4].phase.Finished? && s.procs[5].Upload? && s.procs[5].phase.LookingUp?
    ensures !Reuse.AtRisk(s, id, {})
  {
    forall p | p in Roles(s, id) ensures !Reuse.Dangerous(Roles(s, id)[p]) {
      assert p in s.procs.Keys;
    }
  }

  lemma LookUpRefuses(cfg: Config, s: State, pid: Pid, input: UploadInput, generated: Id, stamp: Time) returns (s': State)
    requires Reachable(cfg, s) && pid !in s.procs && CheckUpload(cfg, input, generated, stamp).Accepted? && input.clientId.Some?
    requires var id := CheckUpload(cfg, input, generated, stamp).row.id; id in s.store.blobs && id !in s.store.rows
    ensures Reachable(cfg, s') && s'.store == s.store
    ensures pid in s'.procs && s'.procs == s.procs[pid := s'.procs[pid]] && UploadIn(s', pid, Finished(Refused(MediaIdConflict)))
  {
    UploadIsARun(cfg, s, pid, input, generated, stamp, CLEAN_UPLOAD);
    s' := After(cfg, s, UploadRun(pid, input, generated, stamp, CLEAN_UPLOAD));
    ReachMore(cfg, s, UploadRun(pid, input, generated, stamp, CLEAN_UPLOAD));
  }

  /** An upload is retried while the first try is between its Put and its INSERT. With a single
      user, no task and no failing call, the retry is told that the id is another user's, and the
      first try then creates its row. */
  lemma OverlappingRetryConflicts(cfg: Config, input: UploadInput, generated: Id, stamp: Time)
    requires input.clientId.Some? && CheckUpload(cfg, input, generated, stamp).Accepted?
    ensures
      var row := CheckUpload(cfg, input, generated, stamp).row;
      exists s :: Reachable(cfg, s)
        && UploadIn(s, 2, Finished(Refused(MediaIdConflict))) && UploadIn(s, 1, Finished(Created(row)))
        && s.store.rows == map[row.id := row] && s.store.tasks == map[]
  {
    assert Reachable(cfg, INIT) by {
      assert After(cfg, INIT, []) == INIT;
    }
    var s1 := PutOnly(cfg, INIT, 1, input, generated, stamp);
    var s2 := LookUpRefuses(cfg, s1, 2, input, generated, stamp);
    var s := RowGoesIn(cfg, s2, 1);
    assert s.store.rows == map[CheckUpload(cfg, input, generated, stamp).row.id := CheckUpload(cfg, input, generated, stamp).row];
  }

  /** The assumption that a failed INSERT has no effect is needed: if one took effect and still
      reported an error, the clean-up would leave a row without its blob. */
  lemma InsertMustNotLie(cfg: Config, s: State, pid: Pid)
    requires UploadIn(s, pid, Inserting) && s.procs[pid].row.id !in s.store.rows
    ensures
      var row := s.procs[pid].row;
      var lied := SetUpload(s, pid, CleaningUp(false)).(store := AfterInsert(s.store, row));
      var s' := Apply(cfg, lied, CleanUp(pid, CleanDelete));
      row.id in s'.store.rows && row.id !in s'.store.blobs
  {
  }
}
