/** The invariant of the step system, stated id by id and kept by every action. */
module Invariant {
  import opened Domain
  import opened Stores
  import opened Protocol
  import ContentTypes

  // ----- What the stores and the processes hold for one id --------------------------------

  datatype Cell = Cell(row: Option<Row>, blob: Option<Bytes>, task: Option<Task>, inserter: Option<Pid>, reput: bool)

  function Get<T>(m: map<Id, T>, id: Id): Option<T> {
    if id in m then Some(m[id]) else None
  }

  function CellOf(s: State, id: Id): Cell {
    Cell(Get(s.store.rows, id), Get(s.store.blobs, id), Get(s.store.tasks, id), Get(s.inserter, id), id in s.reput)
  }

  /** What a process is to an id. A Holder has stored the bytes of the id and has neither
      inserted a row nor given up: it holds the lock that the conditional Put is. */
  datatype Role =
    | Bystander
    | Holder(content: Bytes)
    | Creator(row: Row, content: Bytes)
    | Replayer(row: Row)
    | Remover
    | Deleter
    | Finisher

  function RoleOf(p: Process, id: Id): Role {
    match p
    case Upload(row, content, _, phase) =>
      if row.id != id then Bystander else
      (match phase
       case Inserting => Holder(content)
       case CleaningUp(_) => Holder(content)
       case Finished(Created(r)) => Creator(r, content)
       case Finished(Existing(r)) => Replayer(r)
       case _ => Bystander)
    case Delete(todo) => if id in todo then Remover else Bystander
    case Worker(work) =>
      if work.Idle? || work.id != id then Bystander
      else if work.Completing? then Finisher
      else Deleter
  }

  function Roles(s: State, id: Id): map<Pid, Role> {
    map p | p in s.procs :: RoleOf(s.procs[p], id)
  }

  // ----- The invariant --------------------------------------------------------------------

  ghost predicate RowOk(cfg: Config, row: Row) {
    && row.deletedAt.None?
    && row.size <= cfg.maxUpload
    && row.status == STATUS_AVAILABLE
    && ContentTypes.TypeOfName(row.filename) == Some(row.contentType)
  }

  ghost predicate TaskOk(t: Task, now: Time) {
    && t.updatedAt <= now
    && (t.status == Pending ==> t.nextAt <= t.updatedAt + MAX_BACKOFF)
    && (t.status == Processing ==> t.leaseUntil == Some(t.updatedAt + LEASE) && t.attempts >= 1)
    && (t.leaseUntil.Some? ==> t.status == Processing || (t.status == Pending && t.nextAt == t.updatedAt))
  }

  ghost predicate ProcessOk(cfg: Config, p: Process) {
    p.Upload? ==>
      && RowOk(cfg, p.row)
      && p.row.size == |p.content|
      && (p.phase.Finished? && p.phase.result.Created? ==> p.phase.result.row == p.row)
  }

  /** An id without a task: a lock holder is alone and finds its own bytes and no row; a row has
      the bytes of the upload that inserted it; every successful answer is that row, and only
      its inserter calls it new; nobody else is about to delete the blob. */
  ghost predicate Untouched(c: Cell, role: map<Pid, Role>) {
    && !c.reput
    && (forall p :: p in role && role[p].Holder? ==> c.row.None? && c.blob == Some(role[p].content))
    && (forall p, q :: p in role && q in role && role[p].Holder? && role[q].Holder? ==> p == q)
    && (c.row.Some? ==>
          && c.inserter.Some? && c.blob.Some?
          && c.inserter.value in role && role[c.inserter.value] == Creator(c.row.value, c.blob.value))
    && (forall p :: p in role && role[p].Creator? ==> c.row == Some(role[p].row) && c.inserter == Some(p))
    && (forall p :: p in role && role[p].Replayer? ==> c.row == Some(role[p].row))
    && (forall p :: p in role ==> !role[p].Remover? && !role[p].Deleter? && !role[p].Finisher?)
  }

  /** An id with a task and no Put since: no row, no lock holder, and nobody has recorded or is
      about to record the deletion as done while the blob is there. */
  ghost predicate Settled(c: Cell, role: map<Pid, Role>)
    requires c.task.Some?
  {
    && c.row.None?
    && (forall p :: p in role ==> !role[p].Holder?)
    && (c.task.value.status == Completed ==> c.blob.None?)
    && (forall p :: p in role && role[p].Finisher? ==> c.blob.None?)
  }

  ghost predicate Tasked(c: Cell, role: map<Pid, Role>, now: Time)
    requires c.task.Some?
  {
    && TaskOk(c.task.value, now)
    && (forall p :: p in role && (role[p].Deleter? || role[p].Finisher?) ==> c.task.value.attempts >= 1)
    && (!c.reput ==> Settled(c, role))
  }

  ghost predicate IdOk(id: Id, c: Cell, role: map<Pid, Role>, now: Time) {
    && (c.row.Some? ==> c.row.value.id == id)
    && (c.task.None? ==> Untouched(c, role))
    && (c.task.Some? ==> Tasked(c, role, now))
  }

  ghost predicate IdInv(s: State, id: Id) {
    IdOk(id, CellOf(s, id), Roles(s, id), s.store.now)
  }

  ghost predicate Inv(cfg: Config, s: State) {
    && (forall pid :: pid in s.procs ==> ProcessOk(cfg, s.procs[pid]))
    && (forall id :: id in s.store.rows ==> RowOk(cfg, s.store.rows[id]))
    && (forall id :: IdInv(s, id))
  }

  // ----- Preservation at one id, whatever the processes are -------------------------------

  ghost predicate Uninvolved(role: map<Pid, Role>, pid: Pid) {
    pid in role ==> role[pid].Bystander?
  }

  lemma BlobStored(id: Id, c: Cell, role: map<Pid, Role>, now: Time, pid: Pid, content: Bytes, r: Role)
    requires IdOk(id, c, role, now)
    requires c.blob.None? && Uninvolved(role, pid) && (r.Bystander? || r == Holder(content))
    ensures IdOk(id, c.(blob := Some(content), reput := c.reput || c.task.Some?), role[pid := r], now)
  {
  }

  lemma RowInserted(id: Id, c: Cell, role: map<Pid, Role>, now: Time, pid: Pid, row: Row)
    requires IdOk(id, c, role, now)
    requires c.row.None? && row.id == id
    requires pid in role && role[pid].Holder?
    ensures IdOk(id, c.(row := Some(row), inserter := Some(pid)), role[pid := Creator(row, role[pid].content)], now)
  {
  }

  lemma BlobDropped(id: Id, c: Cell, role: map<Pid, Role>, now: Time, pid: Pid, blob: Option<Bytes>, r: Role)
    requires IdOk(id, c, role, now)
    requires blob.None? || blob == c.blob
    requires pid in role && (role[pid].Holder? || role[pid].Remover? || role[pid].Deleter?)
    requires r.Bystander? || (role[pid].Deleter? && (r.Deleter? || (r.Finisher? && blob.None?)))
    ensures IdOk(id, c.(blob := blob), role[pid := r], now)
  {
  }

  lemma RowReplayed(id: Id, c: Cell, role: map<Pid, Role>, now: Time, pid: Pid, r: Role)
    requires IdOk(id, c, role, now)
    requires Uninvolved(role, pid) && (r.Bystander? || (r.Replayer? && c.row == Some(r.row)))
    ensures IdOk(id, c, role[pid := r], now)
  {
  }

  lemma RowDeleted(id: Id, c: Cell, role: map<Pid, Role>, now: Time, pid: Pid, t: Task)
    requires IdOk(id, c, role, now)
    requires c.row.Some? && pid !in role
    requires t.status == Pending && t.nextAt == t.updatedAt == now
    requires c.task.Some? ==> t.attempts == c.task.value.attempts
    ensures IdOk(id, c.(row := None, task := Some(t)), role[pid := Remover], now)
  {
  }

  lemma TaskUpdated(id: Id, c: Cell, role: map<Pid, Role>, now: Time, pid: Pid, t: Task, r: Role)
    requires IdOk(id, c, role, now)
    requires c.task.Some? && TaskOk(t, now) && t.attempts >= c.task.value.attempts
    requires r.Bystander? || (r.Deleter? && t.attempts >= 1)
    requires t.status == Completed ==> c.task.value.status == Completed || (pid in role && role[pid].Finisher?)
    ensures IdOk(id, c.(task := Some(t)), role[pid := r], now)
  {
  }

  // ----- Preservation, action by action ---------------------------------------------------

  lemma OneRole(s: State, s': State, pid: Pid, p: Process, id: Id)
    requires s'.procs == s.procs[pid := p]
    ensures Roles(s', id) == Roles(s, id)[pid := RoleOf(p, id)]
  {
  }

  lemma FrameKeeps(s: State, s': State, pid: Pid, p: Process, id: Id)
    requires IdInv(s, id) && s'.procs == s.procs[pid := p]
    requires CellOf(s', id) == CellOf(s, id) && s'.store.now == s.store.now
    requires if pid in s.procs then RoleOf(p, id) == RoleOf(s.procs[pid], id) else RoleOf(p, id).Bystander?
    ensures IdInv(s', id)
  {
    OneRole(s, s', pid, p, id);
    if pid in s.procs {
      assert Roles(s', id) == Roles(s, id);
    } else {
      RowReplayed(id, CellOf(s, id), Roles(s, id), s.store.now, pid, Bystander);
    }
  }

  lemma PutKeeps(s: State, pid: Pid, fate: PutFate, id: Id)
    requires IdInv(s, id) && UploadIn(s, pid, Putting)
    ensures IdInv(DoPut(s, pid, fate), id)
  {
    var s' := DoPut(s, pid, fate);
    var u := s.procs[pid];
    if u.row.id == id && PutTakes(s.store, id, fate) {
      OneRole(s, s', pid, s'.procs[pid], id);
      BlobStored(id, CellOf(s, id), Roles(s, id), s.store.now, pid, u.content, RoleOf(s'.procs[pid], id));
    } else {
      FrameKeeps(s, s', pid, s'.procs[pid], id);
    }
  }

  lemma InsertKeeps(s: State, pid: Pid, ok: bool, id: Id)
    requires IdInv(s, id) && UploadIn(s, pid, Inserting)
    ensures IdInv(DoInsert(s, pid, ok), id)
  {
    var s' := DoInsert(s, pid, ok);
    var row := s.procs[pid].row;
    if row.id == id && ok && id !in s.store.rows {
      OneRole(s, s', pid, s'.procs[pid], id);
      RowInserted(id, CellOf(s, id), Roles(s, id), s.store.now, pid, row);
    } else {
      FrameKeeps(s, s', pid, s'.procs[pid], id);
    }
  }

  lemma CleanUpKeeps(s: State, pid: Pid, fate: DeleteFate, id: Id)
    requires IdInv(s, id) && pid in s.procs && s.procs[pid].Upload? && s.procs[pid].phase.CleaningUp?
    ensures IdInv(DoCleanUp(s, pid, fate), id)
  {
    var s' := DoCleanUp(s, pid, fate);
    if s.procs[pid].row.id == id {
      OneRole(s, s', pid, s'.procs[pid], id);
      BlobDropped(id, CellOf(s, id), Roles(s, id), s.store.now, pid, CellOf(s', id).blob, RoleOf(s'.procs[pid], id));
    } else {
      FrameKeeps(s, s', pid, s'.procs[pid], id);
    }
  }

  lemma RemoveBlobKeeps(cfg: Config, s: State, a: Action, id: Id)
    requires IdInv(s, id) && a.RemoveBlob? && Enabled(cfg, s, a)
    ensures IdInv(Do(cfg, s, a), id)
  {
    var s' := Do(cfg, s, a);
    if a.id == id {
      OneRole(s, s', a.pid, s'.procs[a.pid], id);
      BlobDropped(id, CellOf(s, id), Roles(s, id), s.store.now, a.pid, CellOf(s', id).blob, RoleOf(s'.procs[a.pid], id));
    } else {
      FrameKeeps(s, s', a.pid, s'.procs[a.pid], id);
    }
  }

  lemma DeleteClaimedKeeps(s: State, pid: Pid, fate: DeleteFate, id: Id)
    requires IdInv(s, id) && WorkerIn(s, pid) && s.procs[pid].work.Deleting?
    ensures IdInv(DoDeleteClaimed(s, pid, fate), id)
  {
    var s' := DoDeleteClaimed(s, pid, fate);
    if s.procs[pid].work.id == id {
      OneRole(s, s', pid, s'.procs[pid], id);
      BlobDropped(id, CellOf(s, id), Roles(s, id), s.store.now, pid, CellOf(s', id).blob, RoleOf(s'.procs[pid], id));
    } else {
      FrameKeeps(s, s', pid, s'.procs[pid], id);
    }
  }

  lemma LookUpKeeps(s: State, pid: Pid, ok: bool, id: Id)
    requires IdInv(s, id) && UploadIn(s, pid, LookingUp)
    ensures IdInv(DoLookUp(s, pid, ok), id)
  {
    var s' := DoLookUp(s, pid, ok);
    OneRole(s, s', pid, s'.procs[pid], id);
    RowReplayed(id, CellOf(s, id), Roles(s, id), s.store.now, pid, RoleOf(s'.procs[pid], id));
  }

  lemma DeleteKeeps(s: State, pid: Pid, user: User, target: Target, ok: bool, id: Id)
    requires IdInv(s, id) && pid !in s.procs
    ensures IdInv(DoDelete(s, pid, user, target, ok), id)
  {
    var s' := DoDelete(s, pid, user, target, ok);
    if ok && id in Matching(s.store, user, target) {
      OneRole(s, s', pid, s'.procs[pid], id);
      RowDeleted(id, CellOf(s, id), Roles(s, id), s.store.now, pid, Enqueued(s.store, user, id));
    } else {
      FrameKeeps(s, s', pid, s'.procs[pid], id);
    }
  }

  lemma ClaimKeeps(s: State, pid: Pid, skip: set<Id>, ok: bool, id: Id)
    requires IdInv(s, id) && WorkerIn(s, pid) && s.procs[pid].work.Idle?
    ensures IdInv(DoClaim(s, pid, skip, ok), id)
  {
    var s' := DoClaim(s, pid, skip, ok);
    if ok && NextClaim(s.store, skip) == Some(id) {
      OneRole(s, s', pid, s'.procs[pid], id);
      TaskUpdated(id, CellOf(s, id), Roles(s, id), s.store.now, pid, Claimed(s.store.tasks[id], s.store.now), Deleter);
    } else {
      FrameKeeps(s, s', pid, s'.procs[pid], id);
    }
  }

  lemma RecordKeeps(cfg: Config, s: State, a: Action, id: Id)
    requires IdInv(s, id) && (a.CompleteTask? || a.RetryTask?) && Enabled(cfg, s, a)
    ensures IdInv(Do(cfg, s, a), id)
  {
    var s' := Do(cfg, s, a);
    if s.procs[a.pid].work.id == id {
      var r := Roles(s, id)[a.pid];
      assert r.Deleter? || r.Finisher?;
      BackoffIsCappedPower(s.store.tasks[id].attempts);
      OneRole(s, s', a.pid, s'.procs[a.pid], id);
      TaskUpdated(id, CellOf(s, id), Roles(s, id), s.store.now, a.pid, s'.store.tasks[id], Bystander);
    } else {
      FrameKeeps(s, s', a.pid, s'.procs[a.pid], id);
    }
  }

  lemma StartKeeps(cfg: Config, s: State, a: Action, id: Id)
    requires IdInv(s, id) && (a.Tick? || a.StartUpload? || a.StartWorker?) && Enabled(cfg, s, a)
    ensures IdInv(Do(cfg, s, a), id)
  {
    var s' := Do(cfg, s, a);
    if a.Tick? {
      assert CellOf(s', id) == CellOf(s, id) && Roles(s', id) == Roles(s, id);
    } else {
      FrameKeeps(s, s', a.pid, s'.procs[a.pid], id);
    }
  }

  lemma DoKeepsId(cfg: Config, s: State, a: Action, id: Id)
    requires Inv(cfg, s) && Enabled(cfg, s, a)
    ensures IdInv(Do(cfg, s, a), id)
  {
    match a
    case Tick(_) => StartKeeps(cfg, s, a, id);
    case StartUpload(_, _, _, _) => StartKeeps(cfg, s, a, id);
    case PutBlob(pid, fate) => PutKeeps(s, pid, fate, id);
    case InsertRow(pid, ok) => InsertKeeps(s, pid, ok, id);
    case CleanUp(pid, fate) => CleanUpKeeps(s, pid, fate, id);
    case LookUp(pid, ok) => LookUpKeeps(s, pid, ok, id);
    case StartDelete(pid, user, target, ok) => DeleteKeeps(s, pid, user, target, ok, id);
    case RemoveBlob(_, _, _) => RemoveBlobKeeps(cfg, s, a, id);
    case StartWorker(_) => StartKeeps(cfg, s, a, id);
    case ClaimTask(pid, skip, ok) => ClaimKeeps(s, pid, skip, ok, id);
    case DeleteClaimed(pid, fate) => DeleteClaimedKeeps(s, pid, fate, id);
    case CompleteTask(_, _) => RecordKeeps(cfg, s, a, id);
    case RetryTask(_, _) => RecordKeeps(cfg, s, a, id);
  }

  /** Only the acting process changes. */
  lemma OnlyActorMoves(cfg: Config, s: State, a: Action, pid: Pid)
    requires Enabled(cfg, s, a) && (a.Tick? || pid != a.pid)
    ensures
      var s' := Do(cfg, s, a);
      (pid in s'.procs <==> pid in s.procs) && (pid in s.procs ==> s'.procs[pid] == s.procs[pid])
  {
  }

  lemma AcceptedIsOk(cfg: Config, input: UploadInput, generated: Id, stamp: Time)
    requires CheckUpload(cfg, input, generated, stamp).Accepted?
    ensures
      var row := CheckUpload(cfg, input, generated, stamp).row;
      RowOk(cfg, row) && row.size == |input.content|
  {
  }

  /** What an action makes of its process: an upload keeps what it carries. */
  lemma ActorMoves(cfg: Config, s: State, a: Action)
    requires Enabled(cfg, s, a) && !a.Tick? && !a.StartUpload?
    ensures a.pid in Do(cfg, s, a).procs
    ensures
      var p := Do(cfg, s, a).procs[a.pid];
      p.Upload? ==>
        && a.pid in s.procs && s.procs[a.pid].Upload?
        && p.row == s.procs[a.pid].row && p.content == s.procs[a.pid].content
        && (p.phase.Finished? && p.phase.result.Created? ==> p.phase.result.row == p.row)
  {
  }

  lemma ActorStaysOk(cfg: Config, s: State, a: Action)
    requires Enabled(cfg, s, a) && !a.Tick?
    requires a.pid in s.procs ==> ProcessOk(cfg, s.procs[a.pid])
    ensures a.pid in Do(cfg, s, a).procs && ProcessOk(cfg, Do(cfg, s, a).procs[a.pid])
  {
    if a.StartUpload? {
      AcceptedIsOk(cfg, a.input, a.generated, a.stamp);
    } else {
      ActorMoves(cfg, s, a);
    }
  }

  lemma DoKeepsProcess(cfg: Config, s: State, a: Action, pid: Pid)
    requires Enabled(cfg, s, a) && pid in Do(cfg, s, a).procs
    requires pid in s.procs ==> ProcessOk(cfg, s.procs[pid])
    ensures ProcessOk(cfg, Do(cfg, s, a).procs[pid])
  {
    if a.Tick? || pid != a.pid {
      OnlyActorMoves(cfg, s, a, pid);
    } else {
      ActorStaysOk(cfg, s, a);
    }
  }

  lemma DoKeepsRows(cfg: Config, s: State, a: Action)
    requires Inv(cfg, s) && Enabled(cfg, s, a)
    ensures forall id :: id in Do(cfg, s, a).store.rows ==> RowOk(cfg, Do(cfg, s, a).store.rows[id])
  {
  }

  lemma ApplyKeeps(cfg: Config, s: State, a: Action)
    requires Inv(cfg, s)
    ensures Inv(cfg, Apply(cfg, s, a))
  {
    if Enabled(cfg, s, a) {
      forall pid | pid in Do(cfg, s, a).procs ensures ProcessOk(cfg, Do(cfg, s, a).procs[pid]) {
        DoKeepsProcess(cfg, s, a, pid);
      }
      DoKeepsRows(cfg, s, a);
      forall id ensures IdInv(Do(cfg, s, a), id) {
        DoKeepsId(cfg, s, a, id);
      }
    }
  }

  lemma {:induction false} RunKeeps(cfg: Config, s: State, run: seq<Action>)
    requires Inv(cfg, s)
    ensures Inv(cfg, After(cfg, s, run))
  {
    if run != [] {
      RunKeeps(cfg, s, run[..|run| - 1]);
      ApplyKeeps(cfg, After(cfg, s, run[..|run| - 1]), run[|run| - 1]);
    }
  }

  /** Every state of every interleaving satisfies the invariant. */
  lemma ReachableInv(cfg: Config, run: seq<Action>)
    ensures Inv(cfg, After(cfg, INIT, run))
  {
    RunKeeps(cfg, INIT, run);
  }

  /** What the invariant says of one id and of one process. */
  lemma IdAlways(cfg: Config, run: seq<Action>, id: Id)
    ensures IdInv(After(cfg, INIT, run), id)
    ensures var rows := After(cfg, INIT, run).store.rows; id in rows ==> RowOk(cfg, rows[id])
  {
    ReachableInv(cfg, run);
  }

  lemma ProcessAlways(cfg: Config, run: seq<Action>, pid: Pid)
    requires pid in After(cfg, INIT, run).procs
    ensures ProcessOk(cfg, After(cfg, INIT, run).procs[pid])
  {
    ReachableInv(cfg, run);
  }
}
