/** The stores, the repository, the worker and the service as objects whose methods change them
    in place. What happens to a store call is a parameter; every method is proved against the
    operation of the same meaning on the value of the stores. */
module Service {
  import opened Domain
  import opened Stores
  import opened Listing
  import opened Sequential
  import opened Draining

  /** An arbitrary element: the order in which a query yields its rows is not known. */
  method Any<T>(xs: set<T>) returns (x: T)
    requires xs != {}
    ensures x in xs
  {
    x :| x in xs;
  }

  // ----- PostgreSQL -----------------------------------------------------------------------

  datatype ClaimReport = Claim(id: Id) | NoRows | ClaimFailed

  /** The media table is keyed by the id column. */
  type Table = rows: map<Id, Row> | forall id :: id in rows ==> rows[id].id == id

  class Database {
    var rows: Table
    var tasks: map<Id, Task>
    var now: Time

    constructor ()
      ensures rows == map[] && tasks == map[] && now == 0
    {
      rows, tasks, now := map[], map[], 0;
    }

    method Create(row: Row, ok: bool) returns (report: CreateReport)
      modifies this`rows
      ensures report == if !ok then CreateFailed else if row.id in old(rows) then IdConflict else CreateDone
      ensures rows == if report.CreateDone? then old(rows)[row.id := row] else old(rows)
    {
      if !ok {
        return CreateFailed;
      }
      if row.id in rows {
        return IdConflict;
      }
      rows := rows[row.id := row];
      report := CreateDone;
    }

    function View(): Store
      reads this
    {
      Store(rows, map[], tasks, now)
    }

    /** The result rows come in an arbitrary order. */
    method ListByIDs(user: User, ids: seq<Id>) returns (items: seq<Row>)
      ensures NoDuplicates(items)
      ensures forall row :: row in items <==> row.id in ids && FindRow(View(), user, row.id) == Some(row)
    {
      items := [];
      if ids == [] {
        return;
      }
      var left := set id | id in rows && id in ids && FindRow(View(), user, id).Some?;
      while left != {}
        invariant forall id :: id in left ==> id in ids && FindRow(View(), user, id).Some?
        invariant forall row :: row in items ==> row.id in ids && row.id !in left && FindRow(View(), user, row.id) == Some(row)
        invariant NoDuplicates(items)
        invariant forall id :: id in ids && FindRow(View(), user, id).Some? ==> id in left || FindRow(View(), user, id).value in items
        decreases |left|
      {
        var id := Any(left);
        items := items + [FindRow(View(), user, id).value];
        left := left - {id};
      }
    }

    /** The delete statement; it returns the ids of the rows it removed, in an arbitrary order. */
    method DeleteRows(user: User, target: Target) returns (deleted: seq<Id>)
      modifies this`rows, this`tasks
      ensures View() == AfterDeleteRows(old(View()), user, target)
      ensures NoDuplicates(deleted) && (forall id :: id in deleted <==> id in Matching(old(View()), user, target))
      ensures |deleted| == |Matching(old(View()), user, target)|
    {
      var left := Matching(View(), user, target);
      ghost var gone := left;
      var after := AfterDeleteRows(View(), user, target);
      rows, tasks := after.rows, after.tasks;
      assert View() == after;
      deleted := [];
      while left != {}
        invariant View() == after && left <= gone && |deleted| + |left| == |gone|
        invariant NoDuplicates(deleted) && (forall id :: id in deleted <==> id in gone && id !in left)
        decreases |left|
      {
        var id := Any(left);
        deleted := deleted + [id];
        left := left - {id};
      }
      assert forall id :: id in deleted <==> id in gone;
    }

    /** The claim statement; skip holds the tasks that other statements have locked. */
    method ClaimTask(skip: set<Id>, ok: bool) returns (report: ClaimReport)
      modifies this`tasks
      ensures report == if !ok then ClaimFailed else match NextClaim(old(View()), skip) case None => NoRows case Some(id) => Claim(id)
      ensures View() == if report.Claim? then AfterClaim(old(View()), report.id) else old(View())
    {
      if !ok {
        return ClaimFailed;
      }
      var first := NextClaim(View(), skip);
      if first.None? {
        return NoRows;
      }
      var id := first.value;
      tasks := tasks[id := Claimed(tasks[id], now)];
      report := Claim(id);
    }

    method Complete(id: Id, ok: bool)
      modifies this`tasks
      ensures View() == if ok then AfterComplete(old(View()), id) else old(View())
    {
      if ok && id in tasks {
        tasks := tasks[id := tasks[id].(status := Completed, leaseUntil := None, updatedAt := now)];
      }
    }

    method Retry(id: Id, ok: bool)
      modifies this`tasks
      ensures View() == if ok then AfterRetry(old(View()), id) else old(View())
    {
      if ok && id in tasks {
        var t := tasks[id];
        tasks := tasks[id := t.(status := Pending, nextAt := now + Backoff(t.attempts), leaseUntil := None, updatedAt := now)];
      }
    }
  }

  // ----- Object storage -------------------------------------------------------------------

  class ObjectStore {
    var objects: map<Id, Bytes>

    constructor ()
      ensures objects == map[]
    {
      objects := map[];
    }

    method Put(id: Id, content: Bytes, fate: PutFate) returns (report: PutReport)
      modifies this
      ensures id in old(objects) ==> objects == old(objects) && report != Stored
      ensures report == Stored ==> objects == old(objects)[id := content]
      ensures id !in old(objects) && fate == CleanPut ==> report == Stored
      ensures fate.LostPut? ==> report == if fate.saysExists then AlreadyExists else PutFailed
      ensures fate.LostPut? && id !in old(objects) ==> objects == if fate.putTook then old(objects)[id := content] else old(objects)
      ensures fate == CleanPut && id in old(objects) ==> report == AlreadyExists
    {
      var there := id in objects;
      if !there && (fate.CleanPut? || fate.putTook) {
        objects := objects[id := content];
      }
      match fate
      case CleanPut => report := if there then AlreadyExists else Stored;
      case LostPut(_, saysExists) => report := if saysExists then AlreadyExists else PutFailed;
    }

    /** Deleting an object that is not there succeeds. */
    method Delete(id: Id, fate: DeleteFate) returns (ok: bool)
      modifies this
      ensures ok == fate.CleanDelete?
      ensures objects == if DeleteTakes(fate) then old(objects) - {id} else old(objects)
    {
      if fate.CleanDelete? || fate.took {
        objects := objects - {id};
      }
      ok := fate.CleanDelete?;
    }
  }

  // ----- Repository -----------------------------------------------------------------------

  /** What the two stores hold. */
  function StoreOf(db: Database, blobs: ObjectStore): Store
    reads db, blobs
  {
    Store(db.rows, blobs.objects, db.tasks, db.now)
  }

  class Repository {
    const db: Database
    const blobs: ObjectStore

    constructor (db: Database, blobs: ObjectStore)
      ensures this.db == db && this.blobs == blobs
    {
      this.db, this.blobs := db, blobs;
    }

    function View(): Store
      reads db, blobs
    {
      StoreOf(db, blobs)
    }

    method Create(row: Row, content: Bytes, f: UploadFates) returns (report: CreateReport)
      modifies db`rows, blobs
      ensures CreateOutcome(View(), report) == CreateMedia(old(View()), row, content, f)
    {
      var put := blobs.Put(row.id, content, f.put);
      if put == AlreadyExists {
        return IdConflict;
      }
      if put == PutFailed {
        return CreateFailed;
      }
      report := db.Create(row, f.insertOk);
      if report != CreateDone {
        var _ := blobs.Delete(row.id, f.cleanUp);
      }
    }

    method GetContent(user: User, id: Id, getOk: bool) returns (d: Download)
      ensures d == ReadContent(View(), user, id, getOk)
    {
      var found := FindRow(db.View(), user, id);
      if found.None? {
        return NoSuchMedia;
      }
      if getOk && id in blobs.objects {
        return Content(found.value, blobs.objects[id]);
      }
      return NoContent;
    }

    /** Delete each blob, best-effort. */
    method RemoveEach(ids: seq<Id>, lost: Losses)
      modifies blobs
      ensures blobs.objects == old(blobs.objects) - set id | id in ids && DeleteTakes(FateOf(lost, id))
    {
      for i := 0 to |ids|
        invariant blobs.objects == old(blobs.objects) - set id | id in ids[..i] && DeleteTakes(FateOf(lost, id))
      {
        var _ := blobs.Delete(ids[i], FateOf(lost, ids[i]));
        assert ids[..i + 1] == ids[..i] + [ids[i]];
      }
      assert ids[..|ids|] == ids;
    }

    /** Rows first, in one statement; then their blobs. */
    method DeleteMatchingRows(user: User, target: Target, ok: bool, lost: Losses) returns (deleted: Option<nat>)
      modifies db`rows, db`tasks, blobs
      ensures View() == if ok then DeleteMatching(old(View()), user, target, lost) else old(View())
      ensures deleted == if ok then Some(|Matching(old(View()), user, target)|) else None
    {
      if !ok {
        return None;
      }
      ghost var before := View();
      ghost var gone := Matching(before, user, target);
      assert Matching(db.View(), user, target) == gone;
      RowsApart(before, user, target);
      var ids := db.DeleteRows(user, target);
      RemoveEach(ids, lost);
      assert (set id | id in ids && DeleteTakes(FateOf(lost, id))) == set id | id in gone && DeleteTakes(FateOf(lost, id));
      return Some(|ids|);
    }
  }

  /** The delete statement does not depend on the object store. */
  lemma RowsApart(s: Store, user: User, target: Target)
    ensures
      var apart := s.(blobs := map[]);
      && Matching(apart, user, target) == Matching(s, user, target)
      && AfterDeleteRows(apart, user, target) == AfterDeleteRows(s, user, target).(blobs := map[])
  {
    var apart := s.(blobs := map[]);
    assert Matching(apart, user, target) == Matching(s, user, target);
    assert forall id :: Enqueued(apart, user, id) == Enqueued(s, user, id);
  }

  // ----- Worker ---------------------------------------------------------------------------

  class DeletionWorker {
    const db: Database
    const blobs: ObjectStore

    constructor (db: Database, blobs: ObjectStore)
      ensures this.db == db && this.blobs == blobs
    {
      this.db, this.blobs := db, blobs;
    }

    /** Claim, delete the blob, then Complete or Retry. */
    method RunOnce(f: WorkFates) returns (failed: bool)
      modifies db`tasks, blobs
      ensures StoreOf(db, blobs) == Sequential.RunOnce(old(StoreOf(db, blobs)), f)
      ensures failed == (!f.claimOk || (NextClaim(old(StoreOf(db, blobs)), {}).Some? && !f.recordOk))
    {
      assert ReadyIds(db.View(), {}) == ReadyIds(StoreOf(db, blobs), {});
      var claim := db.ClaimTask({}, f.claimOk);
      if claim.NoRows? {
        return false;
      }
      if claim.ClaimFailed? {
        return true;
      }
      var deleted := blobs.Delete(claim.id, f.fate);
      if deleted {
        db.Complete(claim.id, f.recordOk);
      } else {
        db.Retry(claim.id, f.recordOk);
      }
      return !f.recordOk;
    }

    /** The polling loop: one RunOnce per turn, whatever it reports. */
    method Run(turns: seq<Turn>)
      requires Forward(db.now, turns)
      modifies db`tasks, db`now, blobs
      ensures StoreOf(db, blobs) == Serve(old(StoreOf(db, blobs)), turns)
    {
      for i := 0 to |turns|
        invariant Forward(db.now, turns[i..]) && Serve(StoreOf(db, blobs), turns[i..]) == Serve(old(StoreOf(db, blobs)), turns)
      {
        assert turns[i..][0] == turns[i] && turns[i..][1..] == turns[i + 1..];
        db.now := turns[i].at;
        var _ := RunOnce(turns[i].fates);
      }
    }
  }

  // ----- Service --------------------------------------------------------------------------

  /** dedupeIDs: the ids at their first occurrences. */
  method Dedupe(ids: seq<Id>) returns (dedup: seq<Id>)
    ensures dedup == Distinct(ids)
  {
    dedup := [];
    var seen: set<Id> := {};
    for i := 0 to |ids|
      invariant dedup == Distinct(ids[..i])
      invariant forall id :: id in seen <==> id in ids[..i]
    {
      var prefix := ids[..i + 1];
      assert prefix[..|prefix| - 1] == ids[..i] && prefix[|prefix| - 1] == ids[i];
      if ids[i] !in seen {
        seen := seen + {ids[i]};
        dedup := dedup + [ids[i]];
      }
    }
    assert ids[..|ids|] == ids;
  }

  /** Index the rows by id, then walk the ids. */
  method Reorder(ghost s: Store, ghost user: User, dedup: seq<Id>, found: seq<Row>) returns (ordered: seq<Row>)
    requires KeyedById(s) && NoDuplicates(dedup)
    requires forall row :: row in found <==> row.id in dedup && FindRow(s, user, row.id) == Some(row)
    ensures ordered == Walk(s, user, dedup)
  {
    var byId: map<Id, Row> := map[];
    for i := 0 to |found|
      invariant forall k :: 0 <= k < i ==> found[k].id in byId
      invariant forall id :: id in byId ==> byId[id] in found && byId[id].id == id
    {
      byId := byId[found[i].id := found[i]];
    }
    assert forall row :: row in found ==> row.id in byId;
    ordered := [];
    for i := 0 to |dedup|
      invariant ordered == Walk(s, user, dedup[..i])
    {
      assert dedup[..i + 1] == dedup[..i] + [dedup[i]];
      WalkOneMore(s, user, dedup[..i], dedup[i]);
      assert dedup[i] in dedup && (FindRow(s, user, dedup[i]).Some? ==> FindRow(s, user, dedup[i]).value in found);
      if dedup[i] in byId {
        ordered := ordered + [byId[dedup[i]]];
      }
    }
    assert dedup[..|dedup|] == dedup;
  }

  datatype ListResult = Listing(rows: seq<Row>) | TooMany | ListFailed

  class MediaService {
    const repo: Repository
    const cfg: Config

    constructor (repo: Repository, cfg: Config)
      ensures this.repo == repo && this.cfg == cfg
    {
      this.repo, this.cfg := repo, cfg;
    }

    method Upload(input: UploadInput, generated: Id, stamp: Time, f: UploadFates) returns (result: UploadResult)
      modifies repo.db`rows, repo.blobs
      ensures UploadOutcome(repo.View(), result) == UploadMedia(cfg, old(repo.View()), input, generated, stamp, f)
    {
      var checked := CheckUpload(cfg, input, generated, stamp);
      if checked.Rejected? {
        return Refused(checked.error);
      }
      var row := checked.row;
      var report := repo.Create(row, input.content, f);
      if report == CreateDone {
        return Created(row);
      }
      if report == IdConflict && input.clientId.Some? {
        var existing := FindRow(repo.View(), input.user, row.id);
        if f.lookUpOk && existing.Some? {
          return Existing(existing.value);
        }
        return Refused(MediaIdConflict);
      }
      return Refused(StoreFailure);
    }

    method Download(user: User, id: Id, getOk: bool) returns (d: Download)
      ensures d == ReadContent(repo.View(), user, id, getOk)
    {
      d := repo.GetContent(user, id, getOk);
    }

    /** Whatever order the rows come in, the result is in request order. */
    method List(user: User, ids: seq<Id>, ok: bool) returns (result: ListResult)
      ensures result == if |Distinct(ids)| > cfg.maxList then TooMany
                        else if ids == [] then Listing([])
                        else if ok then Listing(Walk(repo.View(), user, ids))
                        else ListFailed
    {
      var dedup := Dedupe(ids);
      DistinctHasAll(ids);
      if |dedup| == 0 {
        return Listing([]);
      }
      if |dedup| > cfg.maxList {
        return TooMany;
      }
      if !ok {
        return ListFailed;
      }
      var found := repo.db.ListByIDs(user, dedup);
      var ordered := Reorder(repo.View(), user, dedup, found);
      WalkOfDistinct(repo.View(), user, ids);
      return Listing(ordered);
    }

    method Delete(user: User, id: Id, ok: bool, lost: Losses) returns (result: DeleteResult)
      modifies repo.db`rows, repo.db`tasks, repo.blobs
      ensures DeleteOutcome(repo.View(), result) == DeleteMedia(cfg, old(repo.View()), user, One(id), ok, lost)
    {
      var count := repo.DeleteMatchingRows(user, One(id), ok, lost);
      if count.None? {
        return DeleteFailed;
      }
      result := if count.value == 0 then NotFound else Deleted(count.value);
    }

    method DeleteByIDs(user: User, ids: seq<Id>, ok: bool, lost: Losses) returns (result: DeleteResult)
      modifies repo.db`rows, repo.db`tasks, repo.blobs
      ensures DeleteOutcome(repo.View(), result) == DeleteMedia(cfg, old(repo.View()), user, Listed(ids), ok, lost)
    {
      var dedup := Dedupe(ids);
      DistinctHasAll(ids);
      if |dedup| == 0 {
        return Deleted(0);
      }
      if |dedup| > cfg.maxList {
        return TooManyIds;
      }
      assert Matching(repo.View(), user, Listed(dedup)) == Matching(repo.View(), user, Listed(ids));
      var count := repo.DeleteMatchingRows(user, Listed(dedup), ok, lost);
      if count.None? {
        return DeleteFailed;
      }
      result := Deleted(count.value);
    }

    method DeleteAllMine(user: User, ok: bool, lost: Losses) returns (result: DeleteResult)
      modifies repo.db`rows, repo.db`tasks, repo.blobs
      ensures DeleteOutcome(repo.View(), result) == DeleteMedia(cfg, old(repo.View()), user, Everything, ok, lost)
    {
      var count := repo.DeleteMatchingRows(user, Everything, ok, lost);
      if count.None? {
        return DeleteFailed;
      }
      result := Deleted(count.value);
    }
  }
}
