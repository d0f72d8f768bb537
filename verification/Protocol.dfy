/** The service as a step system: any number of uploads, deletes and workers, interleaved at
    the granularity of single store calls, each of which may fail. A process that stops is one
    that is never scheduled again, so stopping needs no action of its own. */
module Protocol {
  import opened Domain
  import opened Stores

  type Pid = int

  datatype UploadPhase =
    | Putting
    | Inserting
    | CleaningUp(conflict: bool)
    | LookingUp
    | Finished(result: UploadResult)

  datatype WorkerPhase =
    | Idle
    | Deleting(id: Id)
    | Completing(id: Id)
    | Retrying(id: Id)

  datatype Process =
    | Upload(row: Row, content: Bytes, clientSupplied: bool, phase: UploadPhase)
    | Delete(todo: set<Id>)
    | Worker(work: WorkerPhase)

  /** inserter and reput are history that no action reads: which upload inserted the present row
      of an id, and the ids for which a Put took effect after their task had been created. */
  datatype State = State(
    store: Store,
    procs: map<Pid, Process>,
    inserter: map<Id, Pid>,
    reput: set<Id>)

  const INIT: State := State(EMPTY, map[], map[], {})

  datatype Action =
    | Tick(to: Time)
    | StartUpload(pid: Pid, input: UploadInput, generated: Id, stamp: Time)
    | PutBlob(pid: Pid, putFate: PutFate)
    | InsertRow(pid: Pid, ok: bool)
    | CleanUp(pid: Pid, fate: DeleteFate)
    | LookUp(pid: Pid, ok: bool)
    | StartDelete(pid: Pid, user: User, target: Target, ok: bool)
    | RemoveBlob(pid: Pid, id: Id, fate: DeleteFate)
    | StartWorker(pid: Pid)
    | ClaimTask(pid: Pid, skip: set<Id>, ok: bool)
    | DeleteClaimed(pid: Pid, fate: DeleteFate)
    | CompleteTask(pid: Pid, ok: bool)
    | RetryTask(pid: Pid, ok: bool)

  predicate UploadIn(s: State, pid: Pid, phase: UploadPhase) {
    pid in s.procs && s.procs[pid].Upload? && s.procs[pid].phase == phase
  }

  predicate WorkerIn(s: State, pid: Pid) {
    pid in s.procs && s.procs[pid].Worker?
  }

  /** Database time never runs backwards; process ids are never reused. */
  predicate Enabled(cfg: Config, s: State, a: Action) {
    match a
    case Tick(to) => s.store.now <= to
    case StartUpload(pid, input, generated, stamp) =>
      pid !in s.procs && CheckUpload(cfg, input, generated, stamp).Accepted?
    case PutBlob(pid, _) => UploadIn(s, pid, Putting)
    case InsertRow(pid, _) => UploadIn(s, pid, Inserting)
    case CleanUp(pid, _) => UploadIn(s, pid, CleaningUp(true)) || UploadIn(s, pid, CleaningUp(false))
    case LookUp(pid, _) => UploadIn(s, pid, LookingUp)
    case StartDelete(pid, _, _, _) => pid !in s.procs
    case RemoveBlob(pid, id, _) => pid in s.procs && s.procs[pid].Delete? && id in s.procs[pid].todo
    case StartWorker(pid) => pid !in s.procs
    case ClaimTask(pid, _, _) => WorkerIn(s, pid) && s.procs[pid].work.Idle?
    case DeleteClaimed(pid, _) => WorkerIn(s, pid) && s.procs[pid].work.Deleting?
    case CompleteTask(pid, _) => WorkerIn(s, pid) && s.procs[pid].work.Completing?
    case RetryTask(pid, _) => WorkerIn(s, pid) && s.procs[pid].work.Retrying?
  }

  function SetUpload(s: State, pid: Pid, phase: UploadPhase): State
    requires pid in s.procs && s.procs[pid].Upload?
  {
    s.(procs := s.procs[pid := s.procs[pid].(phase := phase)])
  }

  function SetWorker(s: State, pid: Pid, work: WorkerPhase): State {
    s.(procs := s.procs[pid := Worker(work)])
  }

  /** Where Upload goes on an id conflict: only a client-supplied id is looked up. */
  function OnConflict(clientSupplied: bool): UploadPhase {
    if clientSupplied then LookingUp else Finished(Refused(StoreFailure))
  }

  function DoPut(s: State, pid: Pid, fate: PutFate): State
    requires UploadIn(s, pid, Putting)
  {
    var u := s.procs[pid];
    var phase := match ReportOfPut(s.store, u.row.id, fate)
      case Stored => Inserting
      case AlreadyExists => OnConflict(u.clientSupplied)
      case PutFailed => Finished(Refused(StoreFailure));
    SetUpload(s, pid, phase).(
      store := AfterPut(s.store, u.row.id, u.content, fate),
      reput := if PutTakes(s.store, u.row.id, fate) && u.row.id in s.store.tasks then s.reput + {u.row.id} else s.reput)
  }

  function DoInsert(s: State, pid: Pid, ok: bool): State
    requires UploadIn(s, pid, Inserting)
  {
    var row := s.procs[pid].row;
    if !ok then SetUpload(s, pid, CleaningUp(false))
    else if row.id in s.store.rows then SetUpload(s, pid, CleaningUp(true))
    else SetUpload(s, pid, Finished(Created(row))).(
      store := AfterInsert(s.store, row),
      inserter := s.inserter[row.id := pid])
  }

  function DoCleanUp(s: State, pid: Pid, fate: DeleteFate): State
    requires pid in s.procs && s.procs[pid].Upload? && s.procs[pid].phase.CleaningUp?
  {
    var u := s.procs[pid];
    SetUpload(s, pid, OnConflict(u.phase.conflict && u.clientSupplied)).(
      store := AfterBlobDelete(s.store, u.row.id, fate))
  }

  function DoLookUp(s: State, pid: Pid, ok: bool): State
    requires UploadIn(s, pid, LookingUp)
  {
    var found := FindRow(s.store, s.procs[pid].row.user, s.procs[pid].row.id);
    SetUpload(s, pid, Finished(if ok && found.Some? then Existing(found.value) else Refused(MediaIdConflict)))
  }

  function DoDelete(s: State, pid: Pid, user: User, target: Target, ok: bool): State {
    if !ok then s.(procs := s.procs[pid := Delete({})])
    else s.(store := AfterDeleteRows(s.store, user, target),
            procs := s.procs[pid := Delete(Matching(s.store, user, target))])
  }

  function DoClaim(s: State, pid: Pid, skip: set<Id>, ok: bool): State {
    match NextClaim(s.store, skip)
    case None => s
    case Some(id) =>
      if ok then SetWorker(s, pid, Deleting(id)).(store := AfterClaim(s.store, id)) else s
  }

  function DoDeleteClaimed(s: State, pid: Pid, fate: DeleteFate): State
    requires WorkerIn(s, pid) && s.procs[pid].work.Deleting?
  {
    var id := s.procs[pid].work.id;
    SetWorker(s, pid, if fate.CleanDelete? then Completing(id) else Retrying(id)).(
      store := AfterBlobDelete(s.store, id, fate))
  }

  function Do(cfg: Config, s: State, a: Action): State
    requires Enabled(cfg, s, a)
  {
    match a
    case Tick(to) => s.(store := s.store.(now := to))
    case StartUpload(pid, input, generated, stamp) =>
      s.(procs := s.procs[pid := Upload(CheckUpload(cfg, input, generated, stamp).row, input.content, input.clientId.Some?, Putting)])
    case PutBlob(pid, fate) => DoPut(s, pid, fate)
    case InsertRow(pid, ok) => DoInsert(s, pid, ok)
    case CleanUp(pid, fate) => DoCleanUp(s, pid, fate)
    case LookUp(pid, ok) => DoLookUp(s, pid, ok)
    case StartDelete(pid, user, target, ok) => DoDelete(s, pid, user, target, ok)
    case RemoveBlob(pid, id, fate) =>
      s.(procs := s.procs[pid := Delete(s.procs[pid].todo - {id})], store := AfterBlobDelete(s.store, id, fate))
    case StartWorker(pid) => SetWorker(s, pid, Idle)
    case ClaimTask(pid, skip, ok) => DoClaim(s, pid, skip, ok)
    case DeleteClaimed(pid, fate) => DoDeleteClaimed(s, pid, fate)
    case CompleteTask(pid, ok) =>
      SetWorker(s, pid, Idle).(store := if ok then AfterComplete(s.store, s.procs[pid].work.id) else s.store)
    case RetryTask(pid, ok) =>
      SetWorker(s, pid, Idle).(store := if ok then AfterRetry(s.store, s.procs[pid].work.id) else s.store)
  }

  /** An action that is not enabled changes nothing, so every sequence of actions is a run. */
  function Apply(cfg: Config, s: State, a: Action): State {
    if Enabled(cfg, s, a) then Do(cfg, s, a) else s
  }

  function After(cfg: Config, s: State, run: seq<Action>): State {
    if run == [] then s else Apply(cfg, After(cfg, s, run[..|run| - 1]), run[|run| - 1])
  }

  /** The state of a run from INIT before its action number k. */
  function At(cfg: Config, run: seq<Action>, k: nat): State
    requires k <= |run|
  {
    After(cfg, INIT, run[..k])
  }

  lemma {:induction false} AfterAppend(cfg: Config, s: State, first: seq<Action>, second: seq<Action>)
    ensures After(cfg, s, first + second) == After(cfg, After(cfg, s, first), second)
  {
    if second == [] {
      assert first + second == first;
    } else {
      var n := |second| - 1;
      assert (first + second)[..|first + second| - 1] == first + second[..n];
      AfterAppend(cfg, s, first, second[..n]);
    }
  }

  lemma AtStep(cfg: Config, run: seq<Action>, k: nat)
    requires k < |run|
    ensures At(cfg, run, k + 1) == Apply(cfg, At(cfg, run, k), run[k])
  {
    assert run[..k + 1][..k] == run[..k];
  }
}
