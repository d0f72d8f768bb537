/** The media table, the object store and the deletion-task table as one value, and the effect
    of each single store call on it. Every SQL statement is one atomic step at the database's
    current time; a statement that fails changes nothing. */
module Stores {
  import opened Domain
  import ContentTypes

  datatype Store = Store(
    rows: map<Id, Row>,
    blobs: map<Id, Bytes>,
    tasks: map<Id, Task>,
    now: Time)

  const EMPTY: Store := Store(map[], map[], map[], 0)

  // ----- Object store ---------------------------------------------------------------------

  function ReportOfPut(s: Store, id: Id, fate: PutFate): PutReport {
    match fate
    case CleanPut => if id in s.blobs then AlreadyExists else Stored
    case LostPut(_, saysExists) => if saysExists then AlreadyExists else PutFailed
  }

  /** Put is conditional: it never replaces an object. */
  predicate PutTakes(s: Store, id: Id, fate: PutFate) {
    id !in s.blobs && (fate.CleanPut? || fate.putTook)
  }

  function AfterPut(s: Store, id: Id, content: Bytes, fate: PutFate): Store {
    if PutTakes(s, id, fate) then s.(blobs := s.blobs[id := content]) else s
  }

  predicate DeleteTakes(fate: DeleteFate) {
    fate.CleanDelete? || fate.took
  }

  function AfterBlobDelete(s: Store, id: Id, fate: DeleteFate): Store {
    if DeleteTakes(fate) then s.(blobs := s.blobs - {id}) else s
  }

  // ----- The media table ------------------------------------------------------------------

  datatype Checked = Accepted(row: Row) | Rejected(error: UploadError)

  /** The checks of Upload and the record it builds, before it touches a store. */
  function CheckUpload(cfg: Config, input: UploadInput, generated: Id, stamp: Time): Checked {
    if |input.content| > cfg.maxUpload then Rejected(FileTooLarge) else
    match ContentTypes.Canonical(cfg.sniff, input.filename, input.content)
    case None => Rejected(UnsupportedType)
    case Some(mime) =>
      var id := if input.clientId.Some? then input.clientId.value else generated;
      Accepted(Row(id, input.user, input.filename, mime, |input.content|, STATUS_AVAILABLE, stamp, stamp, None))
  }

  /** GetByID's SELECT. */
  function FindRow(s: Store, user: User, id: Id): Option<Row> {
    if id in s.rows && s.rows[id].user == user && s.rows[id].deletedAt.None? then Some(s.rows[id]) else None
  }

  datatype Download = Content(row: Row, bytes: Bytes) | NoSuchMedia | NoContent

  /** GetContent without a legacy reader: the metadata from one store, then the object from a
      later one. */
  function Fetch(s: Store, later: Store, user: User, id: Id, getOk: bool): Download {
    match FindRow(s, user, id)
    case None => NoSuchMedia
    case Some(row) => if getOk && id in later.blobs then Content(row, later.blobs[id]) else NoContent
  }

  /** GetContent with nothing happening between its two calls. */
  function ReadContent(s: Store, user: User, id: Id, getOk: bool): Download {
    Fetch(s, s, user, id, getOk)
  }

  /** INSERT INTO media: the primary key refuses a second row with the same id. */
  function AfterInsert(s: Store, row: Row): Store {
    if row.id in s.rows then s else s.(rows := s.rows[row.id := row])
  }

  /** Which rows a delete statement names, besides requiring the owner. */
  datatype Target = One(id: Id) | Listed(ids: seq<Id>) | Everything
  {
    predicate Selects(x: Id) {
      match this
      case One(id) => x == id
      case Listed(ids) => x in ids
      case Everything => true
    }
  }

  /** The rows a delete statement removes. Its WHERE clause does not mention deleted_at. */
  function Matching(s: Store, user: User, target: Target): set<Id> {
    set id | id in s.rows && s.rows[id].user == user && target.Selects(id)
  }

  /** INSERT INTO media_blob_deletion_tasks ... ON CONFLICT DO UPDATE for one id. */
  function Enqueued(s: Store, user: User, id: Id): Task {
    if id in s.tasks then s.tasks[id].(status := Pending, nextAt := s.now, updatedAt := s.now)
    else Task(user, Pending, 0, s.now, None, s.now)
  }

  /** Remove the rows of gone and enqueue their ids, atomically. */
  function WithoutRows(s: Store, user: User, gone: set<Id>): Store {
    s.(rows := s.rows - gone,
       tasks := s.tasks + map id | id in gone :: Enqueued(s, user, id))
  }

  /** The delete statement. */
  function AfterDeleteRows(s: Store, user: User, target: Target): Store {
    WithoutRows(s, user, Matching(s, user, target))
  }

  // ----- The deletion queue ---------------------------------------------------------------

  /** The WHERE clause of the claim statement. */
  predicate Ready(t: Task, now: Time) {
    || (t.status == Pending && t.nextAt <= now)
    || (t.status == Processing && t.leaseUntil.Some? && t.leaseUntil.value < now)
  }

  /** The ORDER BY clause of the claim statement. */
  predicate Before(tasks: map<Id, Task>, a: Id, b: Id)
    requires a in tasks && b in tasks
  {
    tasks[a].nextAt < tasks[b].nextAt || (tasks[a].nextAt == tasks[b].nextAt && a < b)
  }

  /** The ids a claim may take; skip holds those locked by concurrent statements. */
  function ReadyIds(s: Store, skip: set<Id>): set<Id> {
    set id | id in s.tasks && id !in skip && Ready(s.tasks[id], s.now)
  }

  predicate IsFirst(tasks: map<Id, Task>, ids: set<Id>, first: Id)
    requires ids <= tasks.Keys
  {
    first in ids && forall id :: id in ids && id != first ==> Before(tasks, first, id)
  }

  ghost function AnyOf<T>(xs: set<T>): (x: T)
    requires xs != {}
    ensures x in xs
  {
    var x :| x in xs;
    x
  }

  lemma {:induction false} FirstExists(tasks: map<Id, Task>, ids: set<Id>)
    requires ids != {} && ids <= tasks.Keys
    ensures exists first :: IsFirst(tasks, ids, first)
  {
    var x := AnyOf(ids);
    if ids == {x} {
      assert IsFirst(tasks, ids, x);
    } else {
      var rest := ids - {x};
      assert ids == rest + {x};
      FirstExists(tasks, rest);
      var f :| IsFirst(tasks, rest, f);
      var first := if Before(tasks, x, f) then x else f;
      assert forall id :: id in ids ==> id == x || id in rest;
      assert IsFirst(tasks, ids, first);
    }
  }

  /** The id the claim statement selects, if any. */
  function NextClaim(s: Store, skip: set<Id>): (r: Option<Id>)
    ensures r.None? <==> ReadyIds(s, skip) == {}
    ensures r.Some? ==> IsFirst(s.tasks, ReadyIds(s, skip), r.value)
  {
    var ids := ReadyIds(s, skip);
    if ids == {} then None
    else
      FirstExists(s.tasks, ids);
      var first :| first in ids && IsFirst(s.tasks, ids, first);
      Some(first)
  }

  /** The claim statement read declaratively: id is claimable and least by (next_attempt_at, media_id). */
  lemma ClaimIsLeast(s: Store, skip: set<Id>, id: Id)
    ensures NextClaim(s, skip) == Some(id) <==>
            && id in s.tasks && id !in skip && Ready(s.tasks[id], s.now)
            && forall other :: other in s.tasks && other !in skip && Ready(s.tasks[other], s.now) ==>
                 s.tasks[id].nextAt < s.tasks[other].nextAt || (s.tasks[id].nextAt == s.tasks[other].nextAt && id <= other)
  {
    var ids := ReadyIds(s, skip);
    if id in ids {
      var first := NextClaim(s, skip).value;
      assert first in ids && (first == id || Before(s.tasks, first, id));
      forall other | other in s.tasks && other !in skip && Ready(s.tasks[other], s.now)
        ensures first == other || Before(s.tasks, first, other)
      {
        assert other in ids;
      }
    }
  }

  function Claimed(t: Task, now: Time): Task {
    t.(status := Processing, leaseUntil := Some(now + LEASE), attempts := t.attempts + 1, updatedAt := now)
  }

  /** UPDATE media_blob_deletion_tasks ... WHERE media_id = id, with the claim's SET list. */
  function AfterClaim(s: Store, id: Id): Store
    requires id in s.tasks
  {
    s.(tasks := s.tasks[id := Claimed(s.tasks[id], s.now)])
  }

  /** Complete and Retry name the row by id only: neither its status nor who holds the lease. */
  function AfterComplete(s: Store, id: Id): Store {
    if id !in s.tasks then s else
    s.(tasks := s.tasks[id := s.tasks[id].(status := Completed, leaseUntil := None, updatedAt := s.now)])
  }

  function Power2(n: nat): nat {
    if n == 0 then 1 else 2 * Power2(n - 1)
  }

  function Least(a: int, b: int): int {
    if a <= b then a else b
  }

  /** LEAST(1 minute * POWER(2, LEAST(attempt_count, 8)), 256 minutes). */
  function Backoff(attempts: nat): Time {
    Least(MINUTE * Power2(Least(attempts, 8)), MAX_BACKOFF)
  }

  function AfterRetry(s: Store, id: Id): Store {
    if id !in s.tasks then s else
    var t := s.tasks[id];
    s.(tasks := s.tasks[id := t.(status := Pending, nextAt := s.now + Backoff(t.attempts), leaseUntil := None, updatedAt := s.now)])
  }

  // ----- Backoff arithmetic ---------------------------------------------------------------

  lemma {:induction false} Power2Monotone(a: nat, b: nat)
    requires a <= b
    ensures 1 <= Power2(a) <= Power2(b)
    decreases b
  {
    if a < b {
      Power2Monotone(a, b - 1);
    } else if 0 < b {
      Power2Monotone(a - 1, b - 1);
    }
  }

  lemma Power2Of8()
    ensures Power2(8) == 256
  {
    assert Power2(4) == 16;
    assert Power2(6) == 64;
  }

  /** Each backoff is min(2^attempts, 256) minutes; the outer LEAST never changes the value. */
  lemma BackoffIsCappedPower(attempts: nat)
    ensures Backoff(attempts) == MINUTE * Power2(Least(attempts, 8))
    ensures Backoff(attempts) == MINUTE * Least(Power2(attempts), 256)
    ensures MINUTE <= Backoff(attempts) <= MAX_BACKOFF
    ensures attempts >= 1 ==> Backoff(attempts) >= LEASE
  {
    Power2Of8();
    if attempts <= 8 {
      Power2Monotone(attempts, 8);
    } else {
      Power2Monotone(8, attempts);
    }
    if attempts >= 1 {
      Power2Monotone(1, Least(attempts, 8));
    }
  }

  /** The timetable in minutes: 1, 2, 4, 8, 16, 32, 64, 128 and from the eighth attempt on 256; the
      lease is two minutes. */
  lemma BackoffTable(attempts: nat)
    ensures LEASE == 120_000_000 && MAX_BACKOFF == 15_360_000_000
    ensures Backoff(0) == 60_000_000 && Backoff(1) == 120_000_000 && Backoff(2) == 240_000_000 && Backoff(3) == 480_000_000
    ensures Backoff(4) == 960_000_000 && Backoff(5) == 1_920_000_000 && Backoff(6) == 3_840_000_000 && Backoff(7) == 7_680_000_000
    ensures attempts >= 8 ==> Backoff(attempts) == 15_360_000_000
  {
    Power2Of8();
    assert Power2(0) == 1 && Power2(1) == 2 && Power2(2) == 4 && Power2(3) == 8;
    assert Power2(4) == 16 && Power2(5) == 32 && Power2(6) == 64 && Power2(7) == 128;
  }

  lemma BackoffMonotone(a: nat, b: nat)
    requires a <= b
    ensures Backoff(a) <= Backoff(b)
  {
    BackoffIsCappedPower(a);
    BackoffIsCappedPower(b);
    Power2Monotone(Least(a, 8), Least(b, 8));
  }
}
