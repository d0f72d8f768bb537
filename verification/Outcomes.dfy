/** What each operation answers and leaves behind, for every store, every input and whatever happens
    to its store calls, told by what was there before. */
module Outcomes {
  import opened Domain
  import opened Stores
  import opened Listing
  import opened Sequential
  import ContentTypes

  // ----- Upload ---------------------------------------------------------------------------

  function UploadId(input: UploadInput, generated: Id): Id {
    match input.clientId
    case Some(id) => id
    case None => generated
  }

  /** The record of an accepted file. */
  lemma AcceptedRecord(cfg: Config, input: UploadInput, generated: Id, stamp: Time)
    requires CheckUpload(cfg, input, generated, stamp).Accepted?
    ensures
      var row := CheckUpload(cfg, input, generated, stamp).row;
      && row.id == UploadId(input, generated) && row.user == input.user
      && row.filename == input.filename && row.size == |input.content|
      && Some(row.contentType) == ContentTypes.TypeOfName(input.filename)
      && row.status == "AVAILABLE"
      && row.createdAt == stamp && row.updatedAt == stamp && row.deletedAt == None
  {
  }

  /** The id is free and both writes go through. */
  predicate Creates(s: Store, id: Id, f: UploadFates) {
    f.put == CleanPut && f.insertOk && id !in s.blobs && id !in s.rows
  }

  /** The caller's own live row holds the id. */
  predicate OwnRow(s: Store, user: User, id: Id) {
    id in s.rows && s.rows[id].user == user && s.rows[id].deletedAt == None
  }

  /** Every answer of an accepted upload. */
  lemma UploadAnswers(cfg: Config, s: Store, input: UploadInput, generated: Id, stamp: Time, f: UploadFates)
    requires CheckUpload(cfg, input, generated, stamp).Accepted?
    ensures
      var id, result := UploadId(input, generated), UploadMedia(cfg, s, input, generated, stamp, f).result;
      var clash := input.clientId.Some? && Clashes(s, id, f);
      && (result == Created(CheckUpload(cfg, input, generated, stamp).row) <==> Creates(s, id, f))
      && (forall row :: result == Existing(row) <==> clash && f.lookUpOk && OwnRow(s, input.user, id) && row == s.rows[id])
      && (result == Refused(MediaIdConflict) <==> clash && !(f.lookUpOk && OwnRow(s, input.user, id)))
      && (result == Refused(StoreFailure) <==> !clash && !Creates(s, id, f))
  {
    CreateReports(s, CheckUpload(cfg, input, generated, stamp).row, input.content, f);
  }

  /** A retry of the caller's own upload, with any accepted file and none of its calls failing,
      returns the record as it is and changes nothing. */
  lemma RetryReturnsTheRecord(cfg: Config, s: Store, input: UploadInput, generated: Id, stamp: Time)
    requires CheckUpload(cfg, input, generated, stamp).Accepted? && input.clientId.Some?
    requires OwnRow(s, input.user, input.clientId.value)
    ensures UploadMedia(cfg, s, input, generated, stamp, CLEAN_UPLOAD) == UploadOutcome(s, Existing(s.rows[input.clientId.value]))
  {
    var row := CheckUpload(cfg, input, generated, stamp).row;
    CreateReports(s, row, input.content, CLEAN_UPLOAD);
    UploadAnswers(cfg, s, input, generated, stamp, CLEAN_UPLOAD);
  }

  /** The object of the id was not there before and is after the upload. */
  predicate LeavesObject(s: Store, id: Id, f: UploadFates) {
    && id !in s.blobs
    && match f.put
       case CleanPut => Creates(s, id, f) || f.cleanUp == LostDelete(false)
       case LostPut(took, _) => took
  }

  /** Everything an accepted upload leaves in the stores. */
  lemma UploadLeavesBehind(cfg: Config, s: Store, input: UploadInput, generated: Id, stamp: Time, f: UploadFates)
    requires CheckUpload(cfg, input, generated, stamp).Accepted?
    ensures
      var id, s' := UploadId(input, generated), UploadMedia(cfg, s, input, generated, stamp, f).store;
      && s'.rows == (if Creates(s, id, f) then s.rows[id := CheckUpload(cfg, input, generated, stamp).row] else s.rows)
      && s'.blobs == (if LeavesObject(s, id, f) then s.blobs[id := input.content] else s.blobs)
      && s'.tasks == s.tasks && s'.now == s.now
  {
    var row := CheckUpload(cfg, input, generated, stamp).row;
    CreateLeavesBehind(s, row, input.content, f);
  }

  lemma CreateLeavesBehind(s: Store, row: Row, content: Bytes, f: UploadFates)
    ensures
      var s' := CreateMedia(s, row, content, f).store;
      && s'.rows == (if Creates(s, row.id, f) then s.rows[row.id := row] else s.rows)
      && s'.blobs == (if LeavesObject(s, row.id, f) then s.blobs[row.id := content] else s.blobs)
      && s'.tasks == s.tasks && s'.now == s.now
  {
    if row.id !in s.blobs {
      assert s.blobs[row.id := content] - {row.id} == s.blobs;
    }
  }

  // ----- Download -------------------------------------------------------------------------

  /** Not found is for everybody but the owner of a live row; the owner gets the content, and an
      error of another kind if the object is missing or cannot be read. */
  lemma DownloadAnswers(s: Store, later: Store, user: User, id: Id, getOk: bool)
    ensures
      var d := Fetch(s, later, user, id, getOk);
      && (d == NoSuchMedia <==> !OwnRow(s, user, id))
      && (d == NoContent <==> OwnRow(s, user, id) && !(getOk && id in later.blobs))
      && (forall row, bytes :: d == Content(row, bytes) <==>
            OwnRow(s, user, id) && getOk && id in later.blobs && row == s.rows[id] && bytes == later.blobs[id])
    ensures
      var d := ReadContent(s, user, id, getOk);
      && (d == NoSuchMedia <==> !OwnRow(s, user, id))
      && (d == NoContent <==> OwnRow(s, user, id) && !(getOk && id in s.blobs))
      && (OwnRow(s, user, id) && getOk && id in s.blobs ==> d == Content(s.rows[id], s.blobs[id]))
  {
  }

  // ----- Delete ---------------------------------------------------------------------------

  /** The user's rows among ids. */
  function OwnedBy(s: Store, user: User, ids: set<Id>): set<Id> {
    set id | id in ids && id in s.rows && s.rows[id].user == user
  }

  /** The answers of Delete. */
  lemma DeleteOneAnswers(cfg: Config, s: Store, user: User, id: Id, ok: bool, lost: Losses)
    ensures
      DeleteMedia(cfg, s, user, One(id), ok, lost).result ==
      if !ok then DeleteFailed
      else if id in s.rows && s.rows[id].user == user then Deleted(1)
      else NotFound
  {
    assert Matching(s, user, One(id)) == if id in s.rows && s.rows[id].user == user then {id} else {};
  }

  /** The answers of DeleteByIDs, the cap on distinct ids first. */
  lemma DeleteByIdsAnswers(cfg: Config, s: Store, user: User, ids: seq<Id>, ok: bool, lost: Losses)
    ensures
      var wanted := set id | id in ids;
      DeleteMedia(cfg, s, user, Listed(ids), ok, lost).result ==
      if |wanted| > cfg.maxList then TooManyIds
      else if wanted == {} then Deleted(0)
      else if !ok then DeleteFailed
      else Deleted(|OwnedBy(s, user, wanted)|)
  {
    DistinctHasAll(ids);
    var wanted := set id | id in ids;
    assert ids != [] ==> ids[0] in wanted;
    assert Matching(s, user, Listed(ids)) == OwnedBy(s, user, wanted);
  }

  /** The answers of DeleteAllMine, which has no cap. */
  lemma DeleteAllAnswers(cfg: Config, s: Store, user: User, ok: bool, lost: Losses)
    ensures DeleteMedia(cfg, s, user, Everything, ok, lost).result
            == if !ok then DeleteFailed else Deleted(|OwnedBy(s, user, s.rows.Keys)|)
  {
    assert Matching(s, user, Everything) == OwnedBy(s, user, s.rows.Keys);
  }

  /** A delete call gets as far as its statement, which goes through. */
  predicate Executes(cfg: Config, target: Target, ok: bool) {
    ok && (target.Listed? ==> |set id | id in target.ids| <= cfg.maxList)
  }

  predicate Wanted(target: Target, id: Id) {
    match target
    case One(x) => id == x
    case Listed(ids) => exists i :: 0 <= i < |ids| && ids[i] == id
    case Everything => true
  }

  /** What a delete call leaves of each id: all as it was unless the call executes and the id is one
      of the wanted rows of the user; then no row, a task that is due, and the object only if its
      delete was lost for good. */
  lemma DeleteLeavesBehind(cfg: Config, s: Store, user: User, target: Target, ok: bool, lost: Losses, id: Id)
    ensures
      var s' := DeleteMedia(cfg, s, user, target, ok, lost).store;
      var hit := Executes(cfg, target, ok) && Wanted(target, id) && id in s.rows && s.rows[id].user == user;
      && s'.now == s.now
      && (if hit then
            && id !in s'.rows
            && (id in s'.blobs <==> id in s.blobs && id in lost && !lost[id])
            && id in s'.tasks
            && s'.tasks[id] == (if id in s.tasks then s.tasks[id].(status := Pending, nextAt := s.now, updatedAt := s.now)
                                else Task(user, Pending, 0, s.now, None, s.now))
          else
            && (id in s'.rows <==> id in s.rows) && (id in s.rows ==> s'.rows[id] == s.rows[id])
            && (id in s'.blobs <==> id in s.blobs)
            && (id in s'.tasks <==> id in s.tasks) && (id in s.tasks ==> s'.tasks[id] == s.tasks[id]))
      && (id in s'.blobs ==> s'.blobs[id] == s.blobs[id])
  {
    if target.Listed? {
      DistinctHasAll(target.ids);
    }
    assert Wanted(target, id) <==> target.Selects(id);
  }
}
