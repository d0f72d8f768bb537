/** The specifications of de-duplication and listing. */
module Listing {
  import opened Domain
  import opened Stores

  /** The elements of ids at their first occurrences. */
  function Distinct(ids: seq<Id>): seq<Id> {
    if ids == [] then [] else
    var n := |ids| - 1;
    if ids[n] in ids[..n] then Distinct(ids[..n]) else Distinct(ids[..n]) + [ids[n]]
  }

  /** Walk the request, keep first occurrences, keep those the user owns. */
  function Walk(s: Store, user: User, ids: seq<Id>): seq<Row> {
    if ids == [] then [] else
    var n := |ids| - 1;
    var found := FindRow(s, user, ids[n]);
    if ids[n] !in ids[..n] && found.Some? then Walk(s, user, ids[..n]) + [found.value]
    else Walk(s, user, ids[..n])
  }

  /** Where id first occurs in ids. */
  function FirstIndex(ids: seq<Id>, id: Id): (i: nat)
    requires id in ids
    ensures i < |ids| && ids[i] == id && id !in ids[..i]
  {
    if id in ids[..|ids| - 1] then
      var i := FirstIndex(ids[..|ids| - 1], id);
      assert ids[..|ids| - 1][..i] == ids[..i];
      i
    else
      |ids| - 1
  }

  lemma FirstIndexOfPrefix(ids: seq<Id>, id: Id)
    requires ids != [] && id in ids[..|ids| - 1]
    ensures id in ids && FirstIndex(ids, id) == FirstIndex(ids[..|ids| - 1], id)
  {
  }

  ghost predicate NoDuplicates<T(!new)>(xs: seq<T>) {
    forall i, j :: 0 <= i < j < |xs| ==> xs[i] != xs[j]
  }

  lemma {:induction false} DistinctHasAll(ids: seq<Id>)
    ensures NoDuplicates(Distinct(ids))
    ensures forall id :: id in Distinct(ids) <==> id in ids
    ensures |Distinct(ids)| == |set id | id in ids|
    ensures Distinct(ids) == [] <==> ids == []
  {
    if ids != [] {
      var n := |ids| - 1;
      DistinctHasAll(ids[..n]);
      assert ids == ids[..n] + [ids[n]];
      var before := set id | id in ids[..n];
      var all := set id | id in ids;
      assert all == before + {ids[n]};
      if ids[n] in ids[..n] {
        assert all == before;
      } else {
        assert ids[n] !in before;
      }
    }
  }

  /** The distinct ids are in the order in which the request first names them. */
  lemma {:induction false} DistinctInOrder(ids: seq<Id>, i: nat, j: nat)
    requires i < j < |Distinct(ids)|
    ensures Distinct(ids)[i] in ids && Distinct(ids)[j] in ids
    ensures FirstIndex(ids, Distinct(ids)[i]) < FirstIndex(ids, Distinct(ids)[j])
  {
    var n := |ids| - 1;
    var d := Distinct(ids[..n]);
    DistinctHasAll(ids[..n]);
    assert d[i] in d;
    FirstIndexOfPrefix(ids, d[i]);
    if j < |d| {
      DistinctInOrder(ids[..n], i, j);
      FirstIndexOfPrefix(ids, d[j]);
    }
  }

  /** Listing the distinct ids is listing the request. */
  lemma {:induction false} WalkOfDistinct(s: Store, user: User, ids: seq<Id>)
    ensures Walk(s, user, Distinct(ids)) == Walk(s, user, ids)
  {
    if ids != [] {
      var n := |ids| - 1;
      WalkOfDistinct(s, user, ids[..n]);
      DistinctHasAll(ids[..n]);
      if ids[n] !in ids[..n] {
        WalkOneMore(s, user, Distinct(ids[..n]), ids[n]);
      }
    }
  }

  lemma WalkOneMore(s: Store, user: User, ids: seq<Id>, id: Id)
    requires id !in ids
    ensures
      var found := FindRow(s, user, id);
      Walk(s, user, ids + [id]) == Walk(s, user, ids) + if found.Some? then [found.value] else []
  {
    assert (ids + [id])[..|ids|] == ids;
  }

  ghost predicate InRequestOrder(ids: seq<Id>, rows: seq<Row>) {
    && (forall i :: 0 <= i < |rows| ==> rows[i].id in ids)
    && (forall i, j :: 0 <= i < j < |rows| ==> FirstIndex(ids, rows[i].id) < FirstIndex(ids, rows[j].id))
  }

  ghost predicate KeyedById(s: Store) {
    forall id :: id in s.rows ==> s.rows[id].id == id
  }

  /** The walk returns exactly the requested rows of the user, each once, in request order. */
  lemma {:induction false} WalkIsExact(s: Store, user: User, ids: seq<Id>)
    requires KeyedById(s)
    ensures forall row :: row in Walk(s, user, ids) <==> row.id in ids && FindRow(s, user, row.id) == Some(row)
    ensures InRequestOrder(ids, Walk(s, user, ids))
  {
    if ids != [] {
      var n := |ids| - 1;
      var prefix := ids[..n];
      WalkIsExact(s, user, prefix);
      assert ids == prefix + [ids[n]];
      var w := Walk(s, user, prefix);
      forall i | 0 <= i < |w| ensures w[i].id in ids && FirstIndex(ids, w[i].id) == FirstIndex(prefix, w[i].id) {
        FirstIndexOfPrefix(ids, w[i].id);
      }
      forall row ensures row in Walk(s, user, ids) <==> row.id in ids && FindRow(s, user, row.id) == Some(row) {
        assert row in w <==> row.id in prefix && FindRow(s, user, row.id) == Some(row);
      }
    }
  }
}
