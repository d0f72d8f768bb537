/** Whole operations run one after the other, as functions on the store: what each service and
    worker call does, given what happens to its store calls. */
module Sequential {
  import opened Domain
  import opened Stores
  import opened Listing
  import ContentTypes

  // ----- Upload ---------------------------------------------------------------------------

  /** What happens to the store calls of one upload, in the order they are made. */
  datatype UploadFates = UploadFates(put: PutFate, insertOk: bool, cleanUp: DeleteFate, lookUpOk: bool)

  datatype CreateReport = CreateDone | IdConflict | CreateFailed

  datatype CreateOutcome = CreateOutcome(store: Store, report: CreateReport)

  /** Put, then INSERT, then a compensating delete if the INSERT failed. */
  function CreateMedia(s: Store, row: Row, content: Bytes, f: UploadFates): CreateOutcome {
    var stored := AfterPut(s, row.id, content, f.put);
    match ReportOfPut(s, row.id, f.put)
    case AlreadyExists => CreateOutcome(stored, IdConflict)
    case PutFailed => CreateOutcome(stored, CreateFailed)
    case Stored =>
      if f.insertOk && row.id !in s.rows then CreateOutcome(AfterInsert(stored, row), CreateDone)
      else CreateOutcome(AfterBlobDelete(stored, row.id, f.cleanUp), if f.insertOk then IdConflict else CreateFailed)
  }

  datatype UploadOutcome = UploadOutcome(store: Store, result: UploadResult)

  function UploadMedia(cfg: Config, s: Store, input: UploadInput, generated: Id, stamp: Time, f: UploadFates): UploadOutcome {
    match CheckUpload(cfg, input, generated, stamp)
    case Rejected(error) => UploadOutcome(s, Refused(error))
    case Accepted(row) =>
      var c := CreateMedia(s, row, input.content, f);
      UploadOutcome(c.store, AnswerUpload(c, row, input.clientId.Some?, f.lookUpOk))
  }

  function AnswerUpload(c: CreateOutcome, row: Row, clientSupplied: bool, lookUpOk: bool): UploadResult {
    if c.report.CreateDone? then Created(row)
    else if c.report.IdConflict? && clientSupplied then
      var found := FindRow(c.store, row.user, row.id);
      if lookUpOk && found.Some? then Existing(found.value) else Refused(MediaIdConflict)
    else Refused(StoreFailure)
  }

  // ----- Delete ---------------------------------------------------------------------------

  /** The direct blob deletes that are lost, each with whether it took effect all the same. */
  type Losses = map<Id, bool>

  function FateOf(lost: Losses, id: Id): DeleteFate {
    if id in lost then LostDelete(lost[id]) else CleanDelete
  }

  /** Best-effort deletion of the blobs of ids. */
  function RemoveBlobs(s: Store, ids: set<Id>, lost: Losses): Store {
    s.(blobs := s.blobs - set id | id in ids && DeleteTakes(FateOf(lost, id)))
  }

  datatype DeleteResult = Deleted(count: nat) | NotFound | TooManyIds | DeleteFailed

  datatype DeleteOutcome = DeleteOutcome(store: Store, result: DeleteResult)

  /** The delete statement followed by the blob deletes, for all three kinds of call. */
  function DeleteMatching(s: Store, user: User, target: Target, lost: Losses): Store {
    DeleteSet(s, user, Matching(s, user, target), lost)
  }

  function DeleteSet(s: Store, user: User, gone: set<Id>, lost: Losses): Store {
    RemoveBlobs(WithoutRows(s, user, gone), gone, lost)
  }

  function DeleteMedia(cfg: Config, s: Store, user: User, target: Target, ok: bool, lost: Losses): DeleteOutcome {
    if target.Listed? && |Distinct(target.ids)| > cfg.maxList then DeleteOutcome(s, TooManyIds)
    else if target.Listed? && target.ids == [] then DeleteOutcome(s, Deleted(0))
    else if !ok then DeleteOutcome(s, DeleteFailed)
    else
      var gone := Matching(s, user, target);
      DeleteOutcome(DeleteMatching(s, user, target, lost),
                    if target.One? && gone == {} then NotFound else Deleted(|gone|))
  }

  // ----- Worker ---------------------------------------------------------------------------

  /** What happens to the calls of one RunOnce. */
  datatype WorkFates = WorkFates(claimOk: bool, fate: DeleteFate, recordOk: bool)

  /** After the claim: delete the blob, then Complete or Retry. */
  function WorkOn(s: Store, id: Id, f: WorkFates): Store
    requires id in s.tasks
  {
    var dropped := AfterBlobDelete(AfterClaim(s, id), id, f.fate);
    if !f.recordOk then dropped
    else if f.fate.CleanDelete? then AfterComplete(dropped, id)
    else AfterRetry(dropped, id)
  }

  /** RunOnce, with no other statement holding row locks. */
  function RunOnce(s: Store, f: WorkFates): Store {
    match NextClaim(s, {})
    case None => s
    case Some(id) => if f.claimOk then WorkOn(s, id, f) else s
  }

  // ----- Runs -----------------------------------------------------------------------------

  datatype Op =
    | UploadOp(input: UploadInput, generated: Id, stamp: Time, uploadFates: UploadFates)
    | DeleteOp(user: User, target: Target, ok: bool, lost: Losses)
    | WorkOp(workFates: WorkFates)
    | WaitOp(to: Time)

  function Perform(cfg: Config, s: Store, op: Op): Store {
    match op
    case UploadOp(input, generated, stamp, f) => UploadMedia(cfg, s, input, generated, stamp, f).store
    case DeleteOp(user, target, ok, lost) => DeleteMedia(cfg, s, user, target, ok, lost).store
    case WorkOp(f) => RunOnce(s, f)
    case WaitOp(to) => if s.now <= to then s.(now := to) else s
  }

  function PerformAll(cfg: Config, s: Store, ops: seq<Op>): Store {
    if ops == [] then s else Perform(cfg, PerformAll(cfg, s, ops[..|ops| - 1]), ops[|ops| - 1])
  }

  lemma PerformOneMore(cfg: Config, s: Store, ops: seq<Op>, op: Op)
    ensures PerformAll(cfg, s, ops + [op]) == Perform(cfg, PerformAll(cfg, s, ops), op)
  {
    assert (ops + [op])[..|ops|] == ops;
  }

  lemma {:induction false} PerformAppend(cfg: Config, s: Store, first: seq<Op>, second: seq<Op>)
    ensures PerformAll(cfg, s, first + second) == PerformAll(cfg, PerformAll(cfg, s, first), second)
  {
    if second == [] {
      assert first + second == first;
    } else {
      var n := |second| - 1;
      assert (first + second)[..|first + second| - 1] == first + second[..n];
      PerformAppend(cfg, s, first, second[..n]);
    }
  }

  /** The store of a run from the empty store before its operation number k. */
  function StoreAt(cfg: Config, ops: seq<Op>, k: nat): Store
    requires k <= |ops|
  {
    PerformAll(cfg, EMPTY, ops[..k])
  }

  lemma StoreStep(cfg: Config, ops: seq<Op>, k: nat)
    requires k < |ops|
    ensures StoreAt(cfg, ops, k + 1) == Perform(cfg, StoreAt(cfg, ops, k), ops[k])
  {
    assert ops[..k + 1][..k] == ops[..k];
  }

  // ----- What a caller can rely on --------------------------------------------------------

  ghost predicate SameExcept<T(!new)>(m: map<Id, T>, m': map<Id, T>, id: Id) {
    forall x :: x != id ==> (x in m <==> x in m') && (x in m ==> m'[x] == m[x])
  }

  /** Create reports done exactly if the Put and the INSERT go through on a free id; then row and
      bytes are what it was given, and otherwise the rows stay, as do the objects unless the Put
      or the clean-up is lost. No other id is touched. */
  lemma CreateReports(s: Store, row: Row, content: Bytes, f: UploadFates)
    ensures
      var c := CreateMedia(s, row, content, f);
      && (c.report.CreateDone? <==> f.put.CleanPut? && f.insertOk && row.id !in s.blobs && row.id !in s.rows)
      && (c.report.CreateDone? ==> c.store == s.(rows := s.rows[row.id := row], blobs := s.blobs[row.id := content]))
      && (!c.report.CreateDone? ==> c.store.rows == s.rows)
      && (!c.report.CreateDone? && f.put.CleanPut? && f.cleanUp.CleanDelete? ==> c.store.blobs == s.blobs)
      && (row.id in c.store.blobs ==> c.store.blobs[row.id] == if row.id in s.blobs then s.blobs[row.id] else content)
      && SameExcept(s.blobs, c.store.blobs, row.id) && c.store.tasks == s.tasks
  {
  }

  /** The same for an upload: a new record is exactly the checked input and can be downloaded byte
      for byte; an existing one was there before and is its caller's; and no other id is touched,
      whichever calls fail. */
  lemma UploadThenDownload(cfg: Config, s: Store, input: UploadInput, generated: Id, stamp: Time, f: UploadFates)
    ensures
      var o := UploadMedia(cfg, s, input, generated, stamp, f);
      var id := if input.clientId.Some? then input.clientId.value else generated;
      && (o.result.Created? ==>
            && |input.content| <= cfg.maxUpload
            && o.result.row.user == input.user && o.result.row.filename == input.filename && o.result.row.size == |input.content|
            && id !in s.rows && id !in s.blobs
            && ReadContent(o.store, input.user, id, true) == Content(o.result.row, input.content))
      && (o.result.Existing? ==> input.clientId.Some? && FindRow(s, input.user, id) == Some(o.result.row))
      && (!o.result.Created? ==> o.store.rows == s.rows)
      && (!o.result.Created? && f.put.CleanPut? && f.cleanUp.CleanDelete? ==> o.store.blobs == s.blobs)
      && SameExcept(s.rows, o.store.rows, id) && SameExcept(s.blobs, o.store.blobs, id) && o.store.tasks == s.tasks
  {
    match CheckUpload(cfg, input, generated, stamp)
    case Rejected(_) =>
    case Accepted(row) =>
      CreateReports(s, row, input.content, f);
      var c := CreateMedia(s, row, input.content, f);
      if !c.report.CreateDone? {
        assert FindRow(c.store, row.user, row.id) == FindRow(s, row.user, row.id);
      }
  }

  /** A delete whose statement goes through, within the cap: nobody finds what it matched any more,
      its task is due at once, and its blob is gone unless the delete of it was lost for good. */
  lemma DeleteThenGet(cfg: Config, s: Store, user: User, target: Target, lost: Losses, anyone: User, id: Id)
    requires id in Matching(s, user, target) && (target.Listed? ==> |set x | x in target.ids| <= cfg.maxList)
    ensures
      var s' := DeleteMedia(cfg, s, user, target, true, lost).store;
      && FindRow(s', anyone, id).None?
      && (forall ok :: ReadContent(s', anyone, id, ok) == NoSuchMedia)
      && (id in s'.blobs <==> id in s.blobs && id in lost && !lost[id])
      && id in s'.tasks && Ready(s'.tasks[id], s'.now)
      && s'.tasks[id] == (if id in s.tasks then s.tasks[id].(status := Pending, nextAt := s.now, updatedAt := s.now)
                          else Task(user, Pending, 0, s.now, None, s.now))
  {
    if target.Listed? {
      DistinctHasAll(target.ids);
    }
  }

  /** An upload is turned away exactly if it is too large or, failing that, of no accepted type;
      then no store is touched. */
  lemma UploadRejectsIff(cfg: Config, s: Store, input: UploadInput, generated: Id, stamp: Time, f: UploadFates)
    ensures
      var o := UploadMedia(cfg, s, input, generated, stamp, f);
      var tooLarge := |input.content| > cfg.maxUpload;
      var untyped := ContentTypes.Canonical(cfg.sniff, input.filename, input.content).None?;
      && (o.result == Refused(FileTooLarge) <==> tooLarge)
      && (o.result == Refused(UnsupportedType) <==> !tooLarge && untyped)
      && (tooLarge || untyped ==> o.store == s)
  {
  }

  /** What RunOnce makes of the task it claims. */
  lemma WorkedTask(s: Store, id: Id, f: WorkFates)
    requires id in s.tasks
    ensures
      var s', t := WorkOn(s, id, f), s.tasks[id].(attempts := s.tasks[id].attempts + 1, updatedAt := s.now);
      && s'.tasks == s.tasks[id := s'.tasks[id]]
      && s'.tasks[id] == (if !f.recordOk then t.(status := Processing, leaseUntil := Some(s.now + LEASE))
                          else if f.fate.CleanDelete? then t.(status := Completed, leaseUntil := None)
                          else t.(status := Pending, leaseUntil := None, nextAt := s.now + MINUTE * Least(Power2(t.attempts), 256)))
  {
    BackoffIsCappedPower(s.tasks[id].attempts + 1);
  }

  /** RunOnce touches at most the first claimable task and its blob. If the blob delete and its
      record succeed, the task is completed and the blob gone; a failure that is recorded defers
      the task by its backoff; an outcome that is not recorded leaves it leased, in its place. */
  lemma RunOnceOutcome(s: Store, f: WorkFates, id: Id)
    requires f.claimOk && NextClaim(s, {}) == Some(id)
    ensures
      var s', t := RunOnce(s, f), s.tasks[id].(attempts := s.tasks[id].attempts + 1, updatedAt := s.now);
      && s'.rows == s.rows && s'.now == s.now && s'.tasks.Keys == s.tasks.Keys
      && SameExcept(s.tasks, s'.tasks, id) && SameExcept(s.blobs, s'.blobs, id)
      && (id in s'.blobs <==> id in s.blobs && f.fate == LostDelete(false))
      && (f.recordOk && f.fate.CleanDelete? ==> s'.tasks[id] == t.(status := Completed, leaseUntil := None))
      && (f.recordOk && !f.fate.CleanDelete? ==>
            s'.tasks[id] == t.(status := Pending, leaseUntil := None, nextAt := s.now + MINUTE * Least(Power2(t.attempts), 256)))
      && (!f.recordOk ==> s'.tasks[id] == t.(status := Processing, leaseUntil := Some(s.now + LEASE)))
  {
    WorkedTask(s, id, f);
  }

  /** RunOnce does nothing if its claim fails or no task is claimable. */
  lemma RunOnceIdles(s: Store, f: WorkFates)
    requires !f.claimOk || forall id :: id in s.tasks ==> !Ready(s.tasks[id], s.now)
    ensures RunOnce(s, f) == s
  {
  }

  // ----- Nothing leaks silently -----------------------------------------------------------

  /** op is an upload of id that returns an error; id has no blob before it. */
  predicate FailsToUpload(cfg: Config, s: Store, op: Op, id: Id) {
    && op.UploadOp? && id !in s.blobs
    && var checked := CheckUpload(cfg, op.input, op.generated, op.stamp);
       && checked.Accepted? && checked.row.id == id
       && UploadMedia(cfg, s, op.input, op.generated, op.stamp, op.uploadFates).result.Refused?
  }

  /** After each of the operations from number j to before n, id has these bytes. */
  ghost predicate HoldsBytes(cfg: Config, ops: seq<Op>, id: Id, bytes: Bytes, j: nat, n: nat)
    requires j < n <= |ops|
    decreases n
  {
    && id in StoreAt(cfg, ops, n).blobs && StoreAt(cfg, ops, n).blobs[id] == bytes
    && (n == j + 1 || HoldsBytes(cfg, ops, id, bytes, j, n - 1))
  }

  /** Operation j is an upload of id that returned an error and left its bytes, which have been
      there unchanged up to operation number n. */
  ghost predicate LeftByFailedUpload(cfg: Config, ops: seq<Op>, id: Id, j: nat, n: nat)
    requires j < n <= |ops|
  {
    && FailsToUpload(cfg, StoreAt(cfg, ops, j), ops[j], id)
    && HoldsBytes(cfg, ops, id, ops[j].input.content, j, n)
  }

  /** A row references id or an open task names it. */
  predicate Covered(s: Store, id: Id) {
    id in s.rows || (id in s.tasks && s.tasks[id].Open())
  }

  ghost predicate Accounted(cfg: Config, ops: seq<Op>, id: Id, n: nat)
    requires n <= |ops|
  {
    || Covered(StoreAt(cfg, ops, n), id)
    || exists j :: 0 <= j < n && LeftByFailedUpload(cfg, ops, id, j, n)
  }

  /** The blob of id is what it was, and covered if it was. */
  predicate KeepsCover(s: Store, s': Store, id: Id) {
    && id in s.blobs && id in s'.blobs && s'.blobs[id] == s.blobs[id]
    && (Covered(s, id) ==> Covered(s', id))
  }

  lemma UploadLeaves(cfg: Config, s: Store, op: Op, id: Id)
    requires op.UploadOp? && id in Perform(cfg, s, op).blobs
    ensures
      || KeepsCover(s, Perform(cfg, s, op), id)
      || Covered(Perform(cfg, s, op), id)
      || (FailsToUpload(cfg, s, op, id) && Perform(cfg, s, op).blobs[id] == op.input.content)
  {
    match CheckUpload(cfg, op.input, op.generated, op.stamp)
    case Rejected(_) =>
    case Accepted(row) =>
      CreateReports(s, row, op.input.content, op.uploadFates);
      UploadThenDownload(cfg, s, op.input, op.generated, op.stamp, op.uploadFates);
  }

  lemma DeleteLeaves(cfg: Config, s: Store, user: User, target: Target, ok: bool, lost: Losses, id: Id)
    requires id in DeleteMedia(cfg, s, user, target, ok, lost).store.blobs
    ensures KeepsCover(s, DeleteMedia(cfg, s, user, target, ok, lost).store, id)
  {
  }

  lemma WorkLeaves(s: Store, f: WorkFates, id: Id)
    requires id in RunOnce(s, f).blobs
    ensures KeepsCover(s, RunOnce(s, f), id)
  {
  }

  /** What one operation does with a blob that is there after it. */
  lemma OneOperationLeaves(cfg: Config, s: Store, op: Op, id: Id)
    requires id in Perform(cfg, s, op).blobs
    ensures
      || KeepsCover(s, Perform(cfg, s, op), id)
      || Covered(Perform(cfg, s, op), id)
      || (FailsToUpload(cfg, s, op, id) && Perform(cfg, s, op).blobs[id] == op.input.content)
  {
    match op
    case UploadOp(_, _, _, _) => UploadLeaves(cfg, s, op, id);
    case DeleteOp(user, target, ok, lost) => DeleteLeaves(cfg, s, user, target, ok, lost, id);
    case WorkOp(f) => WorkLeaves(s, f, id);
    case WaitOp(_) =>
  }

  lemma StepLeaves(cfg: Config, ops: seq<Op>, n: nat, id: Id)
    requires n < |ops| && id in StoreAt(cfg, ops, n + 1).blobs
    ensures
      var s, s' := StoreAt(cfg, ops, n), StoreAt(cfg, ops, n + 1);
      KeepsCover(s, s', id) || Covered(s', id) || LeftByFailedUpload(cfg, ops, id, n, n + 1)
  {
    StoreStep(cfg, ops, n);
    OneOperationLeaves(cfg, StoreAt(cfg, ops, n), ops[n], id);
  }

  /** In every sequential run, id reuse and failing calls included, each stored blob is referenced
      by a row, covered by an open task, or was left by an upload that returned an error. */
  lemma {:induction false} NothingElseLeaks(cfg: Config, ops: seq<Op>, n: nat, id: Id)
    requires n <= |ops| && id in StoreAt(cfg, ops, n).blobs
    ensures Accounted(cfg, ops, id, n)
  {
    if n > 0 {
      StepLeaves(cfg, ops, n - 1, id);
      var s, s' := StoreAt(cfg, ops, n - 1), StoreAt(cfg, ops, n);
      if !Covered(s', id) && KeepsCover(s, s', id) {
        NothingElseLeaks(cfg, ops, n - 1, id);
        var j :| 0 <= j < n - 1 && LeftByFailedUpload(cfg, ops, id, j, n - 1);
        assert LeftByFailedUpload(cfg, ops, id, j, n);
      }
    }
  }

  // ----- Conflicts mean another user's row ------------------------------------------------

  const CLEAN_UPLOAD: UploadFates := UploadFates(CleanPut, true, CleanDelete, true)

  predicate Faultless(op: Op) {
    match op
    case UploadOp(_, _, _, f) => f == CLEAN_UPLOAD
    case DeleteOp(_, _, ok, lost) => ok && lost == map[]
    case WorkOp(f) => f.claimOk && f.fate.CleanDelete? && f.recordOk
    case WaitOp(_) => true
  }

  ghost predicate BlobsHaveRows(s: Store) {
    && (forall id :: id in s.blobs ==> id in s.rows)
    && (forall id :: id in s.rows ==> s.rows[id].id == id && s.rows[id].deletedAt.None?)
  }

  /** The calls of an upload of id meet an id conflict: the Put reports that the object exists, or
      the INSERT that the row does. */
  predicate Clashes(s: Store, id: Id, f: UploadFates) {
    match f.put
    case CleanPut => id in s.blobs || (f.insertOk && id in s.rows)
    case LostPut(_, saysExists) => saysExists
  }

  /** An upload with a client id reports a conflict exactly if its calls meet one and the look-up
      does not return a row of the caller, because there is none or because it fails. */
  lemma ConflictIff(cfg: Config, s: Store, input: UploadInput, generated: Id, stamp: Time, f: UploadFates)
    requires input.clientId.Some? && CheckUpload(cfg, input, generated, stamp).Accepted?
    ensures
      var id := input.clientId.value;
      UploadMedia(cfg, s, input, generated, stamp, f).result == Refused(MediaIdConflict)
      <==> Clashes(s, id, f) && !(f.lookUpOk && FindRow(s, input.user, id).Some?)
  {
    CreateReports(s, CheckUpload(cfg, input, generated, stamp).row, input.content, f);
  }

  predicate ForeignRow(s: Store, user: User, id: Id) {
    id in s.rows && s.rows[id].user != user
  }

  /** Among live rows, "a conflict is reported if and only if another user's row holds the id" is
      met exactly as follows: for another user's id the calls must meet the conflict; for an id of
      the caller they must not, or the look-up must succeed; for an id without a row they must not. */
  lemma ConflictIsRightIff(cfg: Config, s: Store, input: UploadInput, generated: Id, stamp: Time, f: UploadFates)
    requires input.clientId.Some? && CheckUpload(cfg, input, generated, stamp).Accepted?
    requires forall id :: id in s.rows ==> s.rows[id].deletedAt.None?
    ensures
      var id := input.clientId.value;
      var conflict := UploadMedia(cfg, s, input, generated, stamp, f).result == Refused(MediaIdConflict);
      (conflict <==> ForeignRow(s, input.user, id))
      <==> (if ForeignRow(s, input.user, id) then Clashes(s, id, f)
            else if id in s.rows then Clashes(s, id, f) ==> f.lookUpOk
            else !Clashes(s, id, f))
  {
    ConflictIff(cfg, s, input, generated, stamp, f);
  }

  /** If none of its calls fails, only an object without a row makes the report wrong. */
  lemma CleanConflictIff(cfg: Config, s: Store, input: UploadInput, generated: Id, stamp: Time)
    requires input.clientId.Some? && CheckUpload(cfg, input, generated, stamp).Accepted?
    requires forall id :: id in s.rows ==> s.rows[id].deletedAt.None?
    ensures
      var id := input.clientId.value;
      UploadMedia(cfg, s, input, generated, stamp, CLEAN_UPLOAD).result == Refused(MediaIdConflict)
      <==> ForeignRow(s, input.user, id) || (id in s.blobs && id !in s.rows)
  {
    ConflictIff(cfg, s, input, generated, stamp, CLEAN_UPLOAD);
  }

  /** Two inputs of the kind: an upload whose Put took effect and reported an error, then a clean
      retry; and a clean upload, then a retry whose look-up fails. Each retry is told that the id
      is another user's, and no other user exists. */
  lemma ConflictWithoutForeignRow(cfg: Config, input: UploadInput, generated: Id, stamp: Time)
    requires input.clientId.Some? && CheckUpload(cfg, input, generated, stamp).Accepted?
    ensures
      var lost := UploadOp(input, generated, stamp, CLEAN_UPLOAD.(put := LostPut(true, false)));
      var s := PerformAll(cfg, EMPTY, [lost]);
      s.rows == map[] && UploadMedia(cfg, s, input, generated, stamp, CLEAN_UPLOAD).result == Refused(MediaIdConflict)
    ensures
      var s := PerformAll(cfg, EMPTY, [UploadOp(input, generated, stamp, CLEAN_UPLOAD)]);
      && FindRow(s, input.user, input.clientId.value).Some?
      && UploadMedia(cfg, s, input, generated, stamp, CLEAN_UPLOAD.(lookUpOk := false)).result == Refused(MediaIdConflict)
  {
    var lost := UploadOp(input, generated, stamp, CLEAN_UPLOAD.(put := LostPut(true, false)));
    var clean := UploadOp(input, generated, stamp, CLEAN_UPLOAD);
    assert [lost] == [] + [lost] && [clean] == [] + [clean];
    PerformOneMore(cfg, EMPTY, [], lost);
    PerformOneMore(cfg, EMPTY, [], clean);
    ConflictIff(cfg, PerformAll(cfg, EMPTY, [lost]), input, generated, stamp, CLEAN_UPLOAD);
    ConflictIff(cfg, PerformAll(cfg, EMPTY, [clean]), input, generated, stamp, CLEAN_UPLOAD.(lookUpOk := false));
  }

  lemma FaultlessKeepsBlobsWithRows(cfg: Config, s: Store, op: Op)
    requires BlobsHaveRows(s) && Faultless(op)
    ensures BlobsHaveRows(Perform(cfg, s, op))
  {
  }

  lemma {:induction false} FaultlessRuns(cfg: Config, ops: seq<Op>)
    requires forall op :: op in ops ==> Faultless(op)
    ensures BlobsHaveRows(PerformAll(cfg, EMPTY, ops))
  {
    if ops != [] {
      FaultlessRuns(cfg, ops[..|ops| - 1]);
      FaultlessKeepsBlobsWithRows(cfg, PerformAll(cfg, EMPTY, ops[..|ops| - 1]), ops[|ops| - 1]);
    }
  }

  /** After any run in which no store call failed, id reuse included, an upload with a client id
      that passes the checks reports a conflict exactly if another user's row holds the id. */
  lemma ConflictMeansForeignRow(cfg: Config, ops: seq<Op>, input: UploadInput, generated: Id, stamp: Time)
    requires forall op :: op in ops ==> Faultless(op)
    requires input.clientId.Some? && CheckUpload(cfg, input, generated, stamp).Accepted?
    ensures
      var s := PerformAll(cfg, EMPTY, ops);
      var id := input.clientId.value;
      UploadMedia(cfg, s, input, generated, stamp, CLEAN_UPLOAD).result == Refused(MediaIdConflict)
      <==> ForeignRow(s, input.user, id)
  {
    FaultlessRuns(cfg, ops);
    CleanConflictIff(cfg, PerformAll(cfg, EMPTY, ops), input, generated, stamp);
  }

  // ----- Reused ids -----------------------------------------------------------------------

  lemma UploadToEmpty(cfg: Config, tasks: map<Id, Task>, input: UploadInput, generated: Id, stamp: Time)
    requires CheckUpload(cfg, input, generated, stamp).Accepted?
    ensures
      var row := CheckUpload(cfg, input, generated, stamp).row;
      Perform(cfg, Store(map[], map[], tasks, 0), UploadOp(input, generated, stamp, CLEAN_UPLOAD))
      == Store(map[row.id := row], map[row.id := input.content], tasks, 0)
  {
  }

  lemma DeleteOnlyRow(cfg: Config, row: Row, content: Bytes)
    ensures Perform(cfg, Store(map[row.id := row], map[row.id := content], map[], 0), DeleteOp(row.user, One(row.id), true, map[]))
            == Store(map[], map[], map[row.id := Task(row.user, Pending, 0, 0, None, 0)], 0)
  {
    var s := Store(map[row.id := row], map[row.id := content], map[], 0);
    assert Matching(s, row.user, One(row.id)) == {row.id};
    var s' := DeleteMatching(s, row.user, One(row.id), map[]);
    assert s'.rows == map[] && s'.blobs == map[];
    assert s'.tasks == map[row.id := Task(row.user, Pending, 0, 0, None, 0)];
  }

  const CLEAN_WORK: WorkFates := WorkFates(true, CleanDelete, true)

  lemma WorkOnOnlyTask(s: Store, id: Id)
    requires id in s.tasks && Ready(s.tasks[id], s.now) && s.tasks.Keys == {id}
    ensures RunOnce(s, CLEAN_WORK).rows == s.rows && id !in RunOnce(s, CLEAN_WORK).blobs
  {
    assert ReadyIds(s, {}) == {id};
  }

  lemma PerformFour(cfg: Config, a: Op, b: Op, c: Op, d: Op)
    ensures PerformAll(cfg, EMPTY, [a, b, c, d]) == Perform(cfg, Perform(cfg, Perform(cfg, Perform(cfg, EMPTY, a), b), c), d)
  {
    assert [a] == [] + [a];
    PerformOneMore(cfg, EMPTY, [], a);
    PerformOneMore(cfg, EMPTY, [a], b);
    PerformOneMore(cfg, EMPTY, [a] + [b], c);
    PerformOneMore(cfg, EMPTY, [a] + [b] + [c], d);
    assert [a, b, c, d] == [a] + [b] + [c] + [d];
  }

  /** Uploading, deleting and uploading the same id again, then one call of the worker, leaves the
      row of the second upload without its bytes, although no call failed. */
  lemma ReuseLosesBytes(cfg: Config, input: UploadInput, generated: Id, stamp: Time)
    requires CheckUpload(cfg, input, generated, stamp).Accepted?
    ensures
      var row := CheckUpload(cfg, input, generated, stamp).row;
      var upload := UploadOp(input, generated, stamp, CLEAN_UPLOAD);
      var s := PerformAll(cfg, EMPTY, [upload, DeleteOp(row.user, One(row.id), true, map[]), upload, WorkOp(CLEAN_WORK)]);
      s.rows == map[row.id := row] && row.id !in s.blobs
  {
    var row := CheckUpload(cfg, input, generated, stamp).row;
    var upload := UploadOp(input, generated, stamp, CLEAN_UPLOAD);
    var delete := DeleteOp(row.user, One(row.id), true, map[]);
    var t := Task(row.user, Pending, 0, 0, None, 0);
    UploadToEmpty(cfg, map[], input, generated, stamp);
    DeleteOnlyRow(cfg, row, input.content);
    UploadToEmpty(cfg, map[row.id := t], input, generated, stamp);
    WorkOnOnlyTask(Store(map[row.id := row], map[row.id := input.content], map[row.id := t], 0), row.id);
    PerformFour(cfg, upload, delete, upload, WorkOp(CLEAN_WORK));
  }
}
