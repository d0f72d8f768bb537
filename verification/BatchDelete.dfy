/** A batch delete refines single deletes. */
module BatchDelete {
  import opened Domain
  import opened Stores
  import opened Listing
  import opened Sequential

  /** Single deletes of ids one after the other, at one instant and with the same blob outcomes. */
  function DeleteEach(s: Store, user: User, ids: seq<Id>, lost: Losses): Store {
    if ids == [] then s else
    DeleteMatching(DeleteEach(s, user, ids[..|ids| - 1], lost), user, One(ids[|ids| - 1]), lost)
  }

  /** How many of those single deletes succeed. */
  function DeletedEach(cfg: Config, s: Store, user: User, ids: seq<Id>, lost: Losses): nat {
    if ids == [] then 0 else
    var n := |ids| - 1;
    var last := DeleteMedia(cfg, DeleteEach(s, user, ids[..n], lost), user, One(ids[n]), true, lost);
    DeletedEach(cfg, s, user, ids[..n], lost) + if last.result == Deleted(1) then 1 else 0
  }

  /** A delete touches nothing of an id that it does not match. */
  lemma DeleteTouchesOnlyMatching(s: Store, user: User, target: Target, lost: Losses, id: Id)
    requires id !in Matching(s, user, target)
    ensures
      var s' := DeleteMatching(s, user, target, lost);
      && (id in s'.rows <==> id in s.rows) && (id in s.rows ==> s'.rows[id] == s.rows[id])
      && (id in s'.blobs <==> id in s.blobs) && (id in s.blobs ==> s'.blobs[id] == s.blobs[id])
      && (id in s'.tasks <==> id in s.tasks) && (id in s.tasks ==> s'.tasks[id] == s.tasks[id])
      && s'.now == s.now
  {
  }

  lemma DeleteNone(s: Store, user: User, lost: Losses)
    ensures DeleteSet(s, user, {}, lost) == s
  {
    var s' := DeleteSet(s, user, {}, lost);
    assert s'.rows == s.rows && s'.blobs == s.blobs && s'.tasks == s.tasks;
  }

  lemma TasksOfBoth(s: Store, s1: Store, user: User, a: set<Id>, b: set<Id>)
    requires a !! b && s1.now == s.now
    requires s1.tasks == s.tasks + map id | id in a :: Enqueued(s, user, id)
    ensures s1.tasks + (map id | id in b :: Enqueued(s1, user, id))
            == s.tasks + map id | id in a + b :: Enqueued(s, user, id)
  {
    forall id | id in b ensures Enqueued(s1, user, id) == Enqueued(s, user, id) {
      assert id !in a;
    }
  }

  lemma BlobsOfBoth(blobs: map<Id, Bytes>, a: set<Id>, b: set<Id>, lost: Losses)
    ensures blobs - (set id | id in a && DeleteTakes(FateOf(lost, id))) - (set id | id in b && DeleteTakes(FateOf(lost, id)))
            == blobs - set id | id in a + b && DeleteTakes(FateOf(lost, id))
  {
  }

  /** Deleting one set of rows and then another is deleting both. */
  lemma SetThenSet(s: Store, user: User, a: set<Id>, b: set<Id>, lost: Losses)
    requires a !! b
    ensures DeleteSet(DeleteSet(s, user, a, lost), user, b, lost) == DeleteSet(s, user, a + b, lost)
  {
    TasksOfBoth(s, DeleteSet(s, user, a, lost), user, a, b);
    BlobsOfBoth(s.blobs, a, b, lost);
    assert s.rows - a - b == s.rows - (a + b);
  }

  lemma MatchOneMore(s: Store, user: User, ids: seq<Id>, id: Id, lost: Losses)
    ensures
      var s1 := DeleteMatching(s, user, Listed(ids), lost);
      var rest := Matching(s1, user, One(id));
      && (rest == {} || rest == {id})
      && rest !! Matching(s, user, Listed(ids))
      && Matching(s, user, Listed(ids + [id])) == Matching(s, user, Listed(ids)) + rest
  {
  }

  lemma SingleSucceedsIff(cfg: Config, s: Store, user: User, id: Id, lost: Losses)
    ensures DeleteMedia(cfg, s, user, One(id), true, lost).result == Deleted(1) <==> Matching(s, user, One(id)) != {}
    ensures Matching(s, user, One(id)) == {} || Matching(s, user, One(id)) == {id}
  {
    assert Matching(s, user, One(id)) == if id in s.rows && s.rows[id].user == user then {id} else {};
  }

  lemma {:induction false} SinglesMakeABatch(cfg: Config, s: Store, user: User, ids: seq<Id>, lost: Losses)
    ensures DeleteEach(s, user, ids, lost) == DeleteMatching(s, user, Listed(ids), lost)
    ensures DeletedEach(cfg, s, user, ids, lost) == |Matching(s, user, Listed(ids))|
  {
    if ids == [] {
      assert Matching(s, user, Listed(ids)) == {};
    } else {
      var n := |ids| - 1;
      assert ids == ids[..n] + [ids[n]];
      SinglesMakeABatch(cfg, s, user, ids[..n], lost);
      MatchOneMore(s, user, ids[..n], ids[n], lost);
      var s1 := DeleteMatching(s, user, Listed(ids[..n]), lost);
      SingleSucceedsIff(cfg, s1, user, ids[n], lost);
      SetThenSet(s, user, Matching(s, user, Listed(ids[..n])), Matching(s1, user, One(ids[n])), lost);
    }
  }

  /** DeleteByIDs within the cap ends in the same rows, blobs and tasks as single deletes of the
      requested ids in any order, repeated or not, and counts those that succeed. */
  lemma BatchRefinesSingles(cfg: Config, s: Store, user: User, ids: seq<Id>, order: seq<Id>, lost: Losses)
    requires |set id | id in ids| <= cfg.maxList
    requires forall id :: id in order <==> id in ids
    ensures DeleteMedia(cfg, s, user, Listed(ids), true, lost)
            == DeleteOutcome(DeleteEach(s, user, order, lost), Deleted(DeletedEach(cfg, s, user, order, lost)))
  {
    DistinctHasAll(ids);
    SinglesMakeABatch(cfg, s, user, order, lost);
    assert Matching(s, user, Listed(ids)) == Matching(s, user, Listed(order));
    DeleteNone(s, user, lost);
  }

  /** DeleteAllMine is the batch over all the user's ids, without the cap. */
  lemma SweepRefinesSingles(cfg: Config, s: Store, user: User, order: seq<Id>, lost: Losses)
    requires forall id :: id in order <==> id in s.rows && s.rows[id].user == user
    ensures DeleteMedia(cfg, s, user, Everything, true, lost)
            == DeleteOutcome(DeleteEach(s, user, order, lost), Deleted(DeletedEach(cfg, s, user, order, lost)))
  {
    SinglesMakeABatch(cfg, s, user, order, lost);
    assert Matching(s, user, Everything) == Matching(s, user, Listed(order));
  }
}
