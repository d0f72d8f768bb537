/** What holds in every interleaving of uploads, deletes and workers, whichever calls fail and
    wherever processes stop. */
module Safety {
  import opened Domain
  import opened Stores
  import opened Protocol
  import opened Invariant

  // ----- Rows and their bytes -------------------------------------------------------------

  lemma CreatorIsAnUpload(p: Process, id: Id)
    requires RoleOf(p, id).Creator?
    ensures p.Upload? && p.phase == Finished(Created(RoleOf(p, id).row)) && p.content == RoleOf(p, id).content
  {
  }

  /** A row whose id has no deletion task has its blob, byte for byte what the upload that
      inserted the row put, as long as the row says. */
  lemma RowsHaveTheirBytes(cfg: Config, run: seq<Action>, id: Id)
    requires var s := After(cfg, INIT, run); id in s.store.rows && id !in s.store.tasks
    ensures
      var s := After(cfg, INIT, run);
      && id in s.inserter
      && UploadIn(s, s.inserter[id], Finished(Created(s.store.rows[id])))
      && s.procs[s.inserter[id]].row == s.store.rows[id]
      && id in s.store.blobs
      && s.store.blobs[id] == s.procs[s.inserter[id]].content
      && |s.store.blobs[id]| == s.store.rows[id].size
  {
    var s := After(cfg, INIT, run);
    IdAlways(cfg, run, id);
    var pid := s.inserter[id];
    assert pid in Roles(s, id) && Roles(s, id)[pid] == Creator(s.store.rows[id], s.store.blobs[id]);
    CreatorIsAnUpload(s.procs[pid], id);
    ProcessAlways(cfg, run, pid);
  }

  /** Every row is live, within the size limit and typed by its filename. */
  lemma RowsAreWellFormed(cfg: Config, run: seq<Action>, id: Id)
    requires id in After(cfg, INIT, run).store.rows
    ensures
      var row := After(cfg, INIT, run).store.rows[id];
      RowOk(cfg, row) && row.id == id
  {
    IdAlways(cfg, run, id);
  }

  /** Delete, whose WHERE clause omits deleted_at, misses exactly when GetByID would. */
  lemma DeleteMissesWhenGetDoes(cfg: Config, run: seq<Action>, user: User, id: Id)
    ensures
      var st := After(cfg, INIT, run).store;
      Matching(st, user, One(id)) == {} <==> FindRow(st, user, id).None?
  {
    var st := After(cfg, INIT, run).store;
    if id in st.rows {
      RowsAreWellFormed(cfg, run, id);
      assert st.rows[id].user == user <==> id in Matching(st, user, One(id));
    }
  }

  // ----- The conditional Put as a lock ----------------------------------------------------

  /** pid is past its Put and has neither inserted a row nor given up. */
  predicate PastPut(s: State, pid: Pid, id: Id) {
    && pid in s.procs && s.procs[pid].Upload? && s.procs[pid].row.id == id
    && (s.procs[pid].phase.Inserting? || s.procs[pid].phase.CleaningUp?)
  }

  /** pid has told its caller that it created id. */
  predicate ReportsCreation(s: State, pid: Pid, id: Id) {
    && pid in s.procs && s.procs[pid].Upload? && s.procs[pid].row.id == id
    && s.procs[pid].phase.Finished? && s.procs[pid].phase.result.Created?
  }

  predicate ReportsReplay(s: State, pid: Pid, id: Id) {
    && pid in s.procs && s.procs[pid].Upload? && s.procs[pid].row.id == id
    && s.procs[pid].phase.Finished? && s.procs[pid].phase.result.Existing?
  }

  /** While id has no task, at most one upload is past its Put; it finds its own bytes and no
      row, so its insert cannot conflict and its clean-up removes only what it put. */
  lemma PutIsALock(cfg: Config, run: seq<Action>, id: Id, p: Pid, q: Pid)
    requires var s := After(cfg, INIT, run); id !in s.store.tasks && PastPut(s, p, id)
    ensures
      var s := After(cfg, INIT, run);
      && (PastPut(s, q, id) ==> p == q)
      && !ReportsCreation(s, q, id)
      && id !in s.store.rows
      && id in s.store.blobs && s.store.blobs[id] == s.procs[p].content
  {
    var s := After(cfg, INIT, run);
    assert ReportsCreation(s, q, id) ==> q in Roles(s, id) && Roles(s, id)[q].Creator?;
    IdAlways(cfg, run, id);
    assert Roles(s, id)[p].Holder?;
    if PastPut(s, q, id) {
      assert Roles(s, id)[q].Holder?;
    }
  }

  /** At most one upload ever reports that it created an id without a task. */
  lemma OneCreation(cfg: Config, run: seq<Action>, id: Id, p: Pid, q: Pid)
    requires
      var s := After(cfg, INIT, run);
      id !in s.store.tasks && ReportsCreation(s, p, id) && ReportsCreation(s, q, id)
    ensures p == q
  {
    var s := After(cfg, INIT, run);
    IdAlways(cfg, run, id);
    assert Roles(s, id)[p].Creator? && Roles(s, id)[q].Creator?;
  }

  // ----- Idempotent upload ----------------------------------------------------------------

  /** A blob disappears only by a clean-up, a direct removal or a worker's delete of its id. */
  lemma BlobsChangeByRole(cfg: Config, s: State, a: Action, id: Id)
    requires id in s.store.blobs
    ensures
      var s' := Apply(cfg, s, a);
      || (id in s'.store.blobs && s'.store.blobs[id] == s.store.blobs[id])
      || (!a.Tick? && a.pid in Roles(s, id)
          && (Roles(s, id)[a.pid].Holder? || Roles(s, id)[a.pid].Remover? || Roles(s, id)[a.pid].Deleter?))
  {
  }

  /** A row changes only by a delete statement, which leaves a task. */
  lemma RowsChangeByDelete(cfg: Config, s: State, a: Action, id: Id)
    requires id in s.store.rows
    ensures
      var s' := Apply(cfg, s, a);
      || id in s'.store.tasks
      || (id in s'.store.rows && s'.store.rows[id] == s.store.rows[id] && (id in s.inserter ==> id in s'.inserter && s'.inserter[id] == s.inserter[id]))
  {
  }

  lemma StepKeepsRow(cfg: Config, s: State, a: Action, id: Id)
    requires IdInv(s, id) && id in s.store.rows && id !in Apply(cfg, s, a).store.tasks
    ensures
      var s' := Apply(cfg, s, a);
      && id in s'.store.rows && s'.store.rows[id] == s.store.rows[id]
      && id in s.store.blobs && id in s'.store.blobs && s'.store.blobs[id] == s.store.blobs[id]
      && id in s.inserter && id in s'.inserter && s'.inserter[id] == s.inserter[id]
  {
    TasksStay(cfg, s, a, id);
    BlobsChangeByRole(cfg, s, a, id);
    RowsChangeByDelete(cfg, s, a, id);
  }

  /** Between two points of a run at which id has a row and, still, no task. */
  lemma {:induction false} RowStays(cfg: Config, run: seq<Action>, k: nat, n: nat, id: Id)
    requires k <= n <= |run| && id in At(cfg, run, k).store.rows && id !in At(cfg, run, n).store.tasks
    ensures
      var s, s' := At(cfg, run, k), At(cfg, run, n);
      && id in s'.store.rows && s'.store.rows[id] == s.store.rows[id]
      && id in s.store.blobs && id in s'.store.blobs && s'.store.blobs[id] == s.store.blobs[id]
      && id in s.inserter && id in s'.inserter && s'.inserter[id] == s.inserter[id]
  {
    if k == n {
      IdAlways(cfg, run[..k], id);
    } else {
      var mid := At(cfg, run, n - 1);
      AtStep(cfg, run, n - 1);
      TasksStay(cfg, mid, run[n - 1], id);
      RowStays(cfg, run, k, n - 1, id);
      IdAlways(cfg, run[..n - 1], id);
      StepKeepsRow(cfg, mid, run[n - 1], id);
    }
  }

  /** Of an id without a task, a successful answer is its row, and only its inserter's calls it new. */
  lemma AnswersAreTheRow(cfg: Config, run: seq<Action>, id: Id, pid: Pid)
    requires id !in After(cfg, INIT, run).store.tasks
    ensures
      var s := After(cfg, INIT, run);
      && (ReportsCreation(s, pid, id) ==> id in s.inserter && s.inserter[id] == pid)
      && (ReportsCreation(s, pid, id) || ReportsReplay(s, pid, id) ==>
            id in s.store.rows && s.procs[pid].phase.result.row == s.store.rows[id])
  {
    var s := After(cfg, INIT, run);
    IdAlways(cfg, run, id);
    if ReportsCreation(s, pid, id) {
      assert Roles(s, id)[pid].Creator?;
    } else if ReportsReplay(s, pid, id) {
      assert Roles(s, id)[pid].Replayer?;
    }
  }

  /** Once id has a row and as long as it is never deleted, whatever else happens leaves its row
      and its bytes as they are; every upload of it that has succeeded by then, however many ran
      and whatever bytes and names they carried, returned that row, and all but the one that
      inserted it as already existing. */
  lemma UploadIsIdempotent(cfg: Config, run: seq<Action>, k: nat, id: Id, pid: Pid)
    requires k <= |run| && id in At(cfg, run, k).store.rows && id !in After(cfg, INIT, run).store.tasks
    ensures
      var s, s' := At(cfg, run, k), After(cfg, INIT, run);
      && id in s'.store.rows && s'.store.rows[id] == s.store.rows[id]
      && id in s.store.blobs && id in s'.store.blobs && s'.store.blobs[id] == s.store.blobs[id]
      && (ReportsCreation(s', pid, id) ==>
            s'.procs[pid].phase.result.row == s.store.rows[id] && id in s.inserter && s.inserter[id] == pid)
      && (ReportsReplay(s', pid, id) ==> s'.procs[pid].phase.result.row == s.store.rows[id])
  {
    assert run[..|run|] == run;
    RowStays(cfg, run, k, |run|, id);
    AnswersAreTheRow(cfg, run, id, pid);
  }

  /** A download reads the row and, later in the run, the object. If the id has no task by then
      and the object store does not fail the Get, it returns exactly the bytes of the upload that
      inserted the row, to its owner and to nobody else. */
  lemma DownloadReturnsTheUpload(cfg: Config, run: seq<Action>, k: nat, user: User, id: Id)
    requires k <= |run| && id in At(cfg, run, k).store.rows && id !in After(cfg, INIT, run).store.tasks
    ensures
      var s, s' := At(cfg, run, k), After(cfg, INIT, run);
      && id in s.inserter && s.inserter[id] in s.procs && s.procs[s.inserter[id]].Upload?
      && Fetch(s.store, s'.store, user, id, true)
         == if s.store.rows[id].user == user then Content(s.store.rows[id], s.procs[s.inserter[id]].content) else NoSuchMedia
  {
    assert run[..|run|] == run;
    RowStays(cfg, run, k, |run|, id);
    IdAlways(cfg, run[..k], id);
    if id in At(cfg, run, k).store.tasks {
      TasksOnlyGrow(cfg, run, k, id);
    }
    RowsHaveTheirBytes(cfg, run[..k], id);
  }

  // ----- Deletions are not lost -----------------------------------------------------------

  lemma TasksStay(cfg: Config, s: State, a: Action, id: Id)
    ensures id in s.store.tasks ==> id in Apply(cfg, s, a).store.tasks
    ensures id in s.store.rows ==> id in Apply(cfg, s, a).store.rows || id in Apply(cfg, s, a).store.tasks
  {
  }

  lemma {:induction false} TasksOnlyGrow(cfg: Config, run: seq<Action>, k: nat, id: Id)
    requires k <= |run| && id in At(cfg, run, k).store.tasks
    ensures id in After(cfg, INIT, run).store.tasks
    decreases |run|
  {
    if k == |run| {
      assert run[..k] == run;
    } else {
      var n := |run| - 1;
      assert run[..n][..k] == run[..k];
      TasksOnlyGrow(cfg, run[..n], k, id);
      TasksStay(cfg, After(cfg, INIT, run[..n]), run[n], id);
    }
  }

  lemma {:induction false} RemovedRowsHaveTasks(cfg: Config, s: State, run: seq<Action>, id: Id)
    requires id in s.store.rows || id in s.store.tasks
    ensures id in After(cfg, s, run).store.rows || id in After(cfg, s, run).store.tasks
  {
    if run != [] {
      RemovedRowsHaveTasks(cfg, s, run[..|run| - 1], id);
      TasksStay(cfg, After(cfg, s, run[..|run| - 1]), run[|run| - 1], id);
    }
  }

  /** Of an id that no Put restored after its task was created, a completed task means that the
      blob is gone, whatever stale workers recorded. */
  lemma CompletedMeansGone(cfg: Config, run: seq<Action>, id: Id)
    requires
      var s := After(cfg, INIT, run);
      id in s.store.tasks && id !in s.reput && s.store.tasks[id].status == Completed
    ensures id !in After(cfg, INIT, run).store.blobs
  {
    IdAlways(cfg, run, id);
  }

  lemma RemovedSince(cfg: Config, run: seq<Action>, k: nat, id: Id)
    requires k <= |run| && id in At(cfg, run, k).store.rows
    ensures var s := After(cfg, INIT, run); id in s.store.rows || id in s.store.tasks
  {
    assert run == run[..k] + run[k..];
    AfterAppend(cfg, INIT, run[..k], run[k..]);
    RemovedRowsHaveTasks(cfg, At(cfg, run, k), run[k..], id);
  }

  /** A row that existed at some point and is removed now has its blob gone or its task open,
      again unless a Put restored the id after its task was created. */
  lemma DeletionsAreNotLost(cfg: Config, run: seq<Action>, k: nat, id: Id)
    requires k <= |run| && id in At(cfg, run, k).store.rows
    requires var s := After(cfg, INIT, run); id !in s.store.rows && id !in s.reput
    ensures
      var s := After(cfg, INIT, run);
      id in s.store.tasks && (id !in s.store.blobs || s.store.tasks[id].Open())
  {
    RemovedSince(cfg, run, k, id);
    if After(cfg, INIT, run).store.tasks[id].status == Completed {
      CompletedMeansGone(cfg, run, id);
    }
  }

  // ----- Nothing else leaks ---------------------------------------------------------------

  /** p is an upload of id with these bytes that is past its Put, or was and gave up. */
  predicate LeftBy(p: Process, id: Id, bytes: Bytes) {
    && p.Upload? && p.row.id == id && p.content == bytes
    && (p.phase.Inserting? || p.phase.CleaningUp? || p.phase.LookingUp? || (p.phase.Finished? && p.phase.result.Refused?))
  }

  ghost predicate LeftBySome(s: State, id: Id)
    requires id in s.store.blobs
  {
    exists pid :: pid in s.procs && LeftBy(s.procs[pid], id, s.store.blobs[id])
  }

  /** id has an object and neither a row nor a task. */
  predicate Orphan(s: State, id: Id) {
    id in s.store.blobs && id !in s.store.rows && id !in s.store.tasks
  }

  /** An object is new or was an orphan before; its leaver, if it acts, still is one. */
  lemma OrphanStep(cfg: Config, s: State, a: Action, id: Id)
    requires Enabled(cfg, s, a) && !a.Tick? && Orphan(Do(cfg, s, a), id)
    ensures
      var s' := Do(cfg, s, a);
      || (Orphan(s, id) && s'.store.blobs[id] == s.store.blobs[id]
          && (a.pid in s.procs && LeftBy(s.procs[a.pid], id, s.store.blobs[id]) ==>
                a.pid in s'.procs && LeftBy(s'.procs[a.pid], id, s.store.blobs[id])))
      || (a.pid in s'.procs && LeftBy(s'.procs[a.pid], id, s'.store.blobs[id]))
  {
  }

  lemma {:induction false} OrphansAreLeft(cfg: Config, run: seq<Action>, id: Id)
    requires Orphan(After(cfg, INIT, run), id)
    ensures LeftBySome(After(cfg, INIT, run), id)
  {
    if run != [] {
      var n := |run| - 1;
      var s, a := After(cfg, INIT, run[..n]), run[n];
      var s' := After(cfg, INIT, run);
      if !Enabled(cfg, s, a) || a.Tick? {
        OrphansAreLeft(cfg, run[..n], id);
      } else {
        OrphanStep(cfg, s, a, id);
        if !(a.pid in s'.procs && LeftBy(s'.procs[a.pid], id, s'.store.blobs[id])) {
          OrphansAreLeft(cfg, run[..n], id);
          var pid :| pid in s.procs && LeftBy(s.procs[pid], id, s.store.blobs[id]);
          OnlyActorMoves(cfg, s, a, pid);
        }
      }
    }
  }

  /** In every interleaving each object has a row or an open task, or was put by an upload that is
      past its Put or returned an error, or its id was stored again after a task was created. */
  lemma ObjectsAreAccountedFor(cfg: Config, run: seq<Action>, id: Id)
    requires id in After(cfg, INIT, run).store.blobs
    ensures
      var s := After(cfg, INIT, run);
      || id in s.store.rows
      || (id in s.store.tasks && (s.store.tasks[id].Open() || id in s.reput))
      || (id !in s.store.tasks && LeftBySome(s, id))
  {
    var s := After(cfg, INIT, run);
    if Orphan(s, id) {
      OrphansAreLeft(cfg, run, id);
    } else if id !in s.store.rows && s.store.tasks[id].status == Completed && id !in s.reput {
      CompletedMeansGone(cfg, run, id);
    }
  }

  // ----- No task is stuck -----------------------------------------------------------------

  /** A processing task has a lease, besides it only a task that a delete statement enqueued again
      can have one, and an open task is claimable at any time 256 minutes or
      more after its last update: a claim then always takes some task. */
  lemma NoTaskIsStuck(cfg: Config, run: seq<Action>, id: Id, t: Time)
    requires id in After(cfg, INIT, run).store.tasks && After(cfg, INIT, run).store.tasks[id].Open()
    ensures
      var st := After(cfg, INIT, run).store;
      && (st.tasks[id].status == Processing ==> st.tasks[id].leaseUntil.Some?)
      && (st.tasks[id].status == Pending && st.tasks[id].leaseUntil.Some? ==> st.tasks[id].nextAt == st.tasks[id].updatedAt)
      && (t >= st.tasks[id].updatedAt + MAX_BACKOFF ==>
            Ready(st.tasks[id], t) && NextClaim(st.(now := t), {}).Some?)
  {
    var st := After(cfg, INIT, run).store;
    IdAlways(cfg, run, id);
    if t >= st.tasks[id].updatedAt + MAX_BACKOFF {
      assert id in ReadyIds(st.(now := t), {});
    }
  }

  // ----- Failures and history -------------------------------------------------------------

  /** A statement that fails changes no store. */
  predicate FailedStatement(a: Action) {
    (a.InsertRow? || a.LookUp? || a.StartDelete? || a.ClaimTask? || a.CompleteTask? || a.RetryTask?) && !a.ok
  }

  lemma FailuresChangeNothing(cfg: Config, s: State, a: Action)
    requires FailedStatement(a)
    ensures Apply(cfg, s, a).store == s.store
    ensures a.StartDelete? && a.pid !in s.procs ==> Apply(cfg, s, a).procs == s.procs[a.pid := Delete({})]
  {
  }

  /** Action number k of the run stores an object for id while id has a task. */
  predicate StoresAgainAt(cfg: Config, run: seq<Action>, k: nat, id: Id)
    requires k < |run|
  {
    var s, s' := At(cfg, run, k), At(cfg, run, k + 1);
    id in s.store.tasks && id !in s.store.blobs && id in s'.store.blobs
  }

  lemma ReputStep(cfg: Config, s: State, a: Action, id: Id)
    ensures
      var s' := Apply(cfg, s, a);
      id in s'.reput <==> id in s.reput || (id in s.store.tasks && id !in s.store.blobs && id in s'.store.blobs)
  {
  }

  /** The history that guards the theorems about reused ids is what it says: the ids for which an
      object was stored after their task had been created. */
  lemma {:induction false} ReputIff(cfg: Config, run: seq<Action>, n: nat, id: Id)
    requires n <= |run|
    ensures id in At(cfg, run, n).reput <==> exists k :: 0 <= k < n && StoresAgainAt(cfg, run, k, id)
  {
    if n > 0 {
      ReputIff(cfg, run, n - 1, id);
      AtStep(cfg, run, n - 1);
      ReputStep(cfg, At(cfg, run, n - 1), run[n - 1], id);
      assert (exists k :: 0 <= k < n && StoresAgainAt(cfg, run, k, id))
        <==> StoresAgainAt(cfg, run, n - 1, id) || exists k :: 0 <= k < n - 1 && StoresAgainAt(cfg, run, k, id);
    }
  }
}
