/** Every sequential run is an interleaving: the two models agree on the stores, so what holds
    in every interleaving holds of whole operations run one after the other. */
module Refinement {
  import opened Domain
  import opened Stores
  import opened Protocol
  import opened Sequential
  import Invariant
  import Safety

  /** The store calls of an upload. Those its outcome does not lead to are not enabled. */
  function UploadRun(pid: Pid, input: UploadInput, generated: Id, stamp: Time, f: UploadFates): seq<Action> {
    [StartUpload(pid, input, generated, stamp), PutBlob(pid, f.put), InsertRow(pid, f.insertOk),
     CleanUp(pid, f.cleanUp), LookUp(pid, f.lookUpOk)]
  }

  function WorkRun(pid: Pid, f: WorkFates): seq<Action> {
    [StartWorker(pid), ClaimTask(pid, {}, f.claimOk), DeleteClaimed(pid, f.fate),
     CompleteTask(pid, f.recordOk), RetryTask(pid, f.recordOk)]
  }

  /** The blob deletes of a delete call, in the given order. */
  function RemoveRun(pid: Pid, order: seq<Id>, lost: Losses): seq<Action> {
    seq(|order|, i requires 0 <= i < |order| => RemoveBlob(pid, order[i], FateOf(lost, order[i])))
  }

  lemma AfterOneMore(cfg: Config, s: State, run: seq<Action>, a: Action)
    ensures After(cfg, s, run + [a]) == Apply(cfg, After(cfg, s, run), a)
  {
    assert (run + [a])[..|run|] == run;
  }

  lemma AfterFive(cfg: Config, s: State, a: Action, b: Action, c: Action, d: Action, e: Action)
    ensures After(cfg, s, [a, b, c, d, e])
            == Apply(cfg, Apply(cfg, Apply(cfg, Apply(cfg, Apply(cfg, s, a), b), c), d), e)
  {
    AfterOneMore(cfg, s, [], a);
    AfterOneMore(cfg, s, [a], b);
    AfterOneMore(cfg, s, [a, b], c);
    AfterOneMore(cfg, s, [a, b, c], d);
    AfterOneMore(cfg, s, [a, b, c, d], e);
    assert [] + [a] == [a];
    assert [a, b, c, d, e] == [a, b, c, d] + [e];
    assert [a, b, c, d] == [a, b, c] + [d];
    assert [a, b, c] == [a, b] + [c];
    assert [a, b] == [a] + [b];
  }

  // ----- Upload ---------------------------------------------------------------------------

  /** s' is s with upload pid done. */
  ghost predicate UploadDone(s: State, s': State, pid: Pid, store: Store, result: UploadResult) {
    && s'.store == store
    && UploadIn(s', pid, Finished(result))
    && s'.procs == s.procs[pid := s'.procs[pid]]
  }

  /** The last call of an upload that has met an id conflict, or has none to make. */
  lemma AnswerIsAStep(cfg: Config, s: State, pid: Pid, ok: bool, store: Store, report: CreateReport)
    requires s.store == store && pid in s.procs && s.procs[pid].Upload?
    requires s.procs[pid].phase == match report
      case CreateDone => Finished(Created(s.procs[pid].row))
      case IdConflict => OnConflict(s.procs[pid].clientSupplied)
      case CreateFailed => Finished(Refused(StoreFailure))
    ensures
      var u := s.procs[pid];
      UploadDone(s, Apply(cfg, s, LookUp(pid, ok)), pid, store,
                 AnswerUpload(CreateOutcome(store, report), u.row, u.clientSupplied, ok))
  {
  }

  /** INSERT and clean-up, from a state past the Put. */
  lemma InsertIsTwoSteps(cfg: Config, s: State, pid: Pid, f: UploadFates)
    requires UploadIn(s, pid, Inserting)
    ensures
      var u := s.procs[pid];
      var s' := Apply(cfg, Apply(cfg, s, InsertRow(pid, f.insertOk)), CleanUp(pid, f.cleanUp));
      && pid in s'.procs
      && s'.procs == s.procs[pid := s'.procs[pid]]
      && (if f.insertOk && u.row.id !in s.store.rows then
            s'.store == AfterInsert(s.store, u.row) && s'.procs[pid] == u.(phase := Finished(Created(u.row)))
          else
            && s'.store == AfterBlobDelete(s.store, u.row.id, f.cleanUp)
            && s'.procs[pid] == u.(phase := if f.insertOk then OnConflict(u.clientSupplied) else Finished(Refused(StoreFailure))))
  {
    var s1 := Apply(cfg, s, InsertRow(pid, f.insertOk));
    assert s1 == DoInsert(s, pid, f.insertOk);
    if f.insertOk && s.procs[pid].row.id !in s.store.rows {
      assert Apply(cfg, s1, CleanUp(pid, f.cleanUp)) == s1;
    } else {
      assert Apply(cfg, s1, CleanUp(pid, f.cleanUp)) == DoCleanUp(s1, pid, f.cleanUp);
    }
  }

  lemma CreateIsThreeSteps(cfg: Config, s: State, pid: Pid, f: UploadFates)
    requires UploadIn(s, pid, Putting)
    ensures
      var u := s.procs[pid];
      var s' := Apply(cfg, Apply(cfg, Apply(cfg, s, PutBlob(pid, f.put)), InsertRow(pid, f.insertOk)), CleanUp(pid, f.cleanUp));
      var c := CreateMedia(s.store, u.row, u.content, f);
      && s'.store == c.store
      && pid in s'.procs
      && s'.procs == s.procs[pid := s'.procs[pid]]
      && s'.procs[pid] == u.(phase := match c.report
           case CreateDone => Finished(Created(u.row))
           case IdConflict => OnConflict(u.clientSupplied)
           case CreateFailed => Finished(Refused(StoreFailure)))
  {
    var s1 := Apply(cfg, s, PutBlob(pid, f.put));
    assert s1 == DoPut(s, pid, f.put);
    if ReportOfPut(s.store, s.procs[pid].row.id, f.put).Stored? {
      InsertIsTwoSteps(cfg, s1, pid, f);
    } else {
      assert Apply(cfg, s1, InsertRow(pid, f.insertOk)) == s1;
      assert Apply(cfg, s1, CleanUp(pid, f.cleanUp)) == s1;
    }
  }

  lemma UploadIsFourSteps(cfg: Config, s: State, pid: Pid, f: UploadFates)
    requires UploadIn(s, pid, Putting)
    ensures
      var u := s.procs[pid];
      var s3 := Apply(cfg, Apply(cfg, Apply(cfg, s, PutBlob(pid, f.put)), InsertRow(pid, f.insertOk)), CleanUp(pid, f.cleanUp));
      var c := CreateMedia(s.store, u.row, u.content, f);
      UploadDone(s, Apply(cfg, s3, LookUp(pid, f.lookUpOk)), pid, c.store, AnswerUpload(c, u.row, u.clientSupplied, f.lookUpOk))
  {
    CreateIsThreeSteps(cfg, s, pid, f);
    var s3 := Apply(cfg, Apply(cfg, Apply(cfg, s, PutBlob(pid, f.put)), InsertRow(pid, f.insertOk)), CleanUp(pid, f.cleanUp));
    var c := CreateMedia(s.store, s.procs[pid].row, s.procs[pid].content, f);
    AnswerIsAStep(cfg, s3, pid, f.lookUpOk, c.store, c.report);
  }

  /** The store calls of an upload, run without interruption, are UploadMedia. */
  lemma UploadIsARun(cfg: Config, s: State, pid: Pid, input: UploadInput, generated: Id, stamp: Time, f: UploadFates)
    requires pid !in s.procs && CheckUpload(cfg, input, generated, stamp).Accepted?
    ensures
      var o := UploadMedia(cfg, s.store, input, generated, stamp, f);
      UploadDone(s, After(cfg, s, UploadRun(pid, input, generated, stamp, f)), pid, o.store, o.result)
  {
    var a := StartUpload(pid, input, generated, stamp);
    AfterFive(cfg, s, a, PutBlob(pid, f.put), InsertRow(pid, f.insertOk), CleanUp(pid, f.cleanUp), LookUp(pid, f.lookUpOk));
    var s1 := Apply(cfg, s, a);
    assert s1.store == s.store && UploadIn(s1, pid, Putting);
    UploadIsFourSteps(cfg, s1, pid, f);
  }

  // ----- Worker ---------------------------------------------------------------------------

  lemma WorkIsThreeSteps(cfg: Config, s: State, pid: Pid, id: Id, f: WorkFates)
    requires WorkerIn(s, pid) && s.procs[pid].work == Deleting(id) && id in s.store.tasks
    ensures
      var s' := Apply(cfg, Apply(cfg, Apply(cfg, s, DeleteClaimed(pid, f.fate)), CompleteTask(pid, f.recordOk)), RetryTask(pid, f.recordOk));
      var dropped := AfterBlobDelete(s.store, id, f.fate);
      && s'.procs == s.procs[pid := Worker(Idle)]
      && s'.store == if !f.recordOk then dropped else if f.fate.CleanDelete? then AfterComplete(dropped, id) else AfterRetry(dropped, id)
  {
    var s1 := Apply(cfg, s, DeleteClaimed(pid, f.fate));
    assert s1 == DoDeleteClaimed(s, pid, f.fate);
    var s2 := Apply(cfg, s1, CompleteTask(pid, f.recordOk));
    if f.fate.CleanDelete? {
      assert Apply(cfg, s2, RetryTask(pid, f.recordOk)) == s2;
    } else {
      assert s2 == s1;
    }
  }

  lemma WorkIsARun(cfg: Config, s: State, pid: Pid, f: WorkFates)
    requires pid !in s.procs
    ensures
      var s' := After(cfg, s, WorkRun(pid, f));
      s'.store == RunOnce(s.store, f) && s'.procs == s.procs[pid := Worker(Idle)]
  {
    AfterFive(cfg, s, StartWorker(pid), ClaimTask(pid, {}, f.claimOk), DeleteClaimed(pid, f.fate),
              CompleteTask(pid, f.recordOk), RetryTask(pid, f.recordOk));
    var s1 := Apply(cfg, s, StartWorker(pid));
    var s2 := Apply(cfg, s1, ClaimTask(pid, {}, f.claimOk));
    assert s1 == SetWorker(s, pid, Idle) && s2 == DoClaim(s1, pid, {}, f.claimOk);
    var claim := NextClaim(s.store, {});
    if f.claimOk && claim.Some? {
      WorkIsThreeSteps(cfg, s2, pid, claim.value, f);
    } else {
      assert s2 == s1;
      assert Apply(cfg, s1, DeleteClaimed(pid, f.fate)) == s1;
    }
  }

  // ----- Delete ---------------------------------------------------------------------------

  lemma {:induction false} RemovalsAreARun(cfg: Config, s: State, pid: Pid, order: seq<Id>, lost: Losses)
    requires pid in s.procs && s.procs[pid].Delete?
    ensures
      var todo := s.procs[pid].todo;
      var s' := After(cfg, s, RemoveRun(pid, order, lost));
      && s'.store == RemoveBlobs(s.store, (set id | id in todo && id in order), lost)
      && s'.procs == s.procs[pid := Delete(set id | id in todo && id !in order)]
  {
    var todo := s.procs[pid].todo;
    if order == [] {
      assert (set id | id in todo && id in order) == {};
      assert (set id | id in todo && id !in order) == todo;
      assert RemoveBlobs(s.store, {}, lost).blobs == s.store.blobs;
    } else {
      var n := |order| - 1;
      var id, fate := order[n], FateOf(lost, order[n]);
      var run := RemoveRun(pid, order, lost);
      assert run[..n] == RemoveRun(pid, order[..n], lost);
      RemovalsAreARun(cfg, s, pid, order[..n], lost);
      RemoveOneMore(s.store, todo, order, lost);
      var s1 := After(cfg, s, run[..n]);
      var left := s1.procs[pid].todo;
      assert run[n] == RemoveBlob(pid, id, fate);
      assert After(cfg, s, run) == Apply(cfg, s1, run[n]);
      if id !in left {
        assert left - {id} == left;
      }
    }
  }

  lemma RemoveOneMore(s: Store, todo: set<Id>, order: seq<Id>, lost: Losses)
    requires order != []
    ensures
      var n := |order| - 1;
      var id := order[n];
      var left := set x | x in todo && x !in order[..n];
      var s' := RemoveBlobs(s, (set x | x in todo && x in order[..n]), lost);
      && (set x | x in todo && x !in order) == left - {id}
      && RemoveBlobs(s, (set x | x in todo && x in order), lost)
         == if id in left then AfterBlobDelete(s', id, FateOf(lost, id)) else s'
  {
    var n := |order| - 1;
    var id := order[n];
    assert order == order[..n] + [id];
    var before := set x | x in todo && x in order[..n];
    var all := set x | x in todo && x in order;
    assert all == if id in todo then before + {id} else before;
    var s' := RemoveBlobs(s, before, lost);
    assert RemoveBlobs(s, all, lost).blobs
        == if id in todo && DeleteTakes(FateOf(lost, id)) then s'.blobs - {id} else s'.blobs;
  }

  /** A delete statement and its blob deletes, run without interruption, are DeleteMatching. */
  lemma DeleteIsARun(cfg: Config, s: State, pid: Pid, user: User, target: Target, lost: Losses, order: seq<Id>)
    requires pid !in s.procs && forall id :: id in Matching(s.store, user, target) ==> id in order
    ensures
      var s' := After(cfg, s, [StartDelete(pid, user, target, true)] + RemoveRun(pid, order, lost));
      s'.store == DeleteMatching(s.store, user, target, lost) && s'.procs == s.procs[pid := Delete({})]
  {
    var a := StartDelete(pid, user, target, true);
    AfterAppend(cfg, s, [a], RemoveRun(pid, order, lost));
    AfterOneMore(cfg, s, [], a);
    assert [] + [a] == [a];
    var s1 := Apply(cfg, s, a);
    assert s1 == DoDelete(s, pid, user, target, true);
    RemovalsAreARun(cfg, s1, pid, order, lost);
    var todo := Matching(s.store, user, target);
    assert (set id | id in todo && id in order) == todo;
    assert (set id | id in todo && id !in order) == {};
  }

  // ----- Whole runs -----------------------------------------------------------------------

  ghost function Above(xs: set<int>): (b: int)
    ensures forall x :: x in xs ==> x < b
  {
    if xs == {} then 0
    else
      var x := AnyOf(xs);
      var b := Above(xs - {x});
      assert forall y :: y in xs ==> y == x || y in xs - {x};
      if x < b then b else x + 1
  }

  /** A process id that is still free. */
  ghost function FreshPid(s: State): (pid: Pid)
    ensures pid !in s.procs
  {
    Above(s.procs.Keys)
  }

  ghost function Enumeration(xs: set<Id>): (order: seq<Id>)
    ensures forall x :: x in xs ==> x in order
  {
    if xs == {} then []
    else
      var x := AnyOf(xs);
      assert forall y :: y in xs ==> y == x || y in xs - {x};
      Enumeration(xs - {x}) + [x]
  }

  ghost predicate Reaches(cfg: Config, s: State, store: Store) {
    exists run: seq<Action> :: After(cfg, s, run).store == store
  }

  lemma OperationIsARun(cfg: Config, s: State, op: Op)
    ensures Reaches(cfg, s, Perform(cfg, s.store, op))
  {
    var pid := FreshPid(s);
    assert After(cfg, s, []).store == s.store;
    match op
    case UploadOp(input, generated, stamp, f) =>
      if CheckUpload(cfg, input, generated, stamp).Accepted? {
        UploadIsARun(cfg, s, pid, input, generated, stamp, f);
      }
    case DeleteOp(user, target, ok, lost) =>
      if DeleteMedia(cfg, s.store, user, target, ok, lost).store != s.store {
        DeleteIsARun(cfg, s, pid, user, target, lost, Enumeration(Matching(s.store, user, target)));
      }
    case WorkOp(f) => WorkIsARun(cfg, s, pid, f);
    case WaitOp(to) =>
      AfterOneMore(cfg, s, [], Tick(to));
      assert [] + [Tick(to)] == [Tick(to)];
      assert After(cfg, s, [Tick(to)]).store == Perform(cfg, s.store, op);
  }

  /** Every store a sequential run can reach, some interleaving reaches. */
  lemma {:induction false} SequentialIsInterleaved(cfg: Config, ops: seq<Op>)
    ensures Reaches(cfg, INIT, PerformAll(cfg, EMPTY, ops))
  {
    if ops == [] {
      assert After(cfg, INIT, []).store == EMPTY;
    } else {
      var n := |ops| - 1;
      SequentialIsInterleaved(cfg, ops[..n]);
      var run: seq<Action> :| After(cfg, INIT, run).store == PerformAll(cfg, EMPTY, ops[..n]);
      var s := After(cfg, INIT, run);
      OperationIsARun(cfg, s, ops[n]);
      var more: seq<Action> :| After(cfg, s, more).store == Perform(cfg, s.store, ops[n]);
      AfterAppend(cfg, INIT, run, more);
      assert After(cfg, INIT, run + more).store == PerformAll(cfg, EMPTY, ops);
    }
  }

  // ----- What the interleaving theorems say of sequential runs ----------------------------

  /** Rows of sequential runs are keyed by their ids, live, within the limits and typed by their
      filenames; those whose ids have no task have their bytes, as long as they say. */
  lemma SequentialRowsAreSound(cfg: Config, ops: seq<Op>, id: Id)
    requires id in PerformAll(cfg, EMPTY, ops).rows
    ensures
      var s := PerformAll(cfg, EMPTY, ops);
      && s.rows[id].id == id && Invariant.RowOk(cfg, s.rows[id])
      && (id !in s.tasks ==> id in s.blobs && |s.blobs[id]| == s.rows[id].size)
  {
    SequentialIsInterleaved(cfg, ops);
    var run: seq<Action> :| After(cfg, INIT, run).store == PerformAll(cfg, EMPTY, ops);
    Safety.RowsAreWellFormed(cfg, run, id);
    if id !in PerformAll(cfg, EMPTY, ops).tasks {
      Safety.RowsHaveTheirBytes(cfg, run, id);
    }
  }

  /** In sequential runs too, no task is stuck, and Delete misses exactly when GetByID does. */
  lemma SequentialTasksAreNotStuck(cfg: Config, ops: seq<Op>, user: User, id: Id, t: Time)
    ensures
      var s := PerformAll(cfg, EMPTY, ops);
      && (Matching(s, user, One(id)) == {} <==> FindRow(s, user, id).None?)
      && (id in s.tasks && s.tasks[id].Open() && t >= s.tasks[id].updatedAt + MAX_BACKOFF ==> Ready(s.tasks[id], t))
  {
    SequentialIsInterleaved(cfg, ops);
    var run: seq<Action> :| After(cfg, INIT, run).store == PerformAll(cfg, EMPTY, ops);
    Safety.DeleteMissesWhenGetDoes(cfg, run, user, id);
    var s := PerformAll(cfg, EMPTY, ops);
    if id in s.tasks && s.tasks[id].Open() {
      Safety.NoTaskIsStuck(cfg, run, id, t);
    }
  }
}
