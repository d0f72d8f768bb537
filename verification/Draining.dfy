/** What a sequence of RunOnce calls gets done. */
module Draining {
  import opened Domain
  import opened Stores
  import opened Sequential

  /** One RunOnce: when it happens and what happens to its calls. */
  datatype Turn = Turn(at: Time, fates: WorkFates)

  /** The turns happen one after the other, none before now. */
  predicate Forward(now: Time, turns: seq<Turn>) {
    && (forall i :: 0 <= i < |turns| ==> now <= turns[i].at)
    && (forall i, j :: 0 <= i < j < |turns| ==> turns[i].at <= turns[j].at)
  }

  /** The store after the turns, and the ids claimed by them, in order. */
  function Serve(s: Store, turns: seq<Turn>): Store
    requires Forward(s.now, turns)
    decreases |turns|
  {
    if turns == [] then s else
    Serve(RunOnce(s.(now := turns[0].at), turns[0].fates), turns[1..])
  }

  function Served(s: Store, turns: seq<Turn>): seq<Id>
    requires Forward(s.now, turns)
    decreases |turns|
  {
    if turns == [] then [] else
    var here := s.(now := turns[0].at);
    var rest := Served(RunOnce(here, turns[0].fates), turns[1..]);
    match NextClaim(here, {})
    case None => rest
    case Some(id) => if turns[0].fates.claimOk then [id] + rest else rest
  }

  // ----- The polling loop as a sequential run ---------------------------------------------

  function Ops(turns: seq<Turn>): seq<Op> {
    if turns == [] then [] else [WaitOp(turns[0].at), WorkOp(turns[0].fates)] + Ops(turns[1..])
  }

  /** Serving turns is waiting for each and calling RunOnce, whatever the calls before reported. */
  lemma {:induction false} ServeIsARun(cfg: Config, s: Store, turns: seq<Turn>)
    requires Forward(s.now, turns)
    ensures Serve(s, turns) == PerformAll(cfg, s, Ops(turns))
    decreases |turns|
  {
    if turns != [] {
      var wait, work := WaitOp(turns[0].at), WorkOp(turns[0].fates);
      var s1 := RunOnce(s.(now := turns[0].at), turns[0].fates);
      assert [wait, work] == [] + [wait] + [work];
      PerformOneMore(cfg, s, [], wait);
      PerformOneMore(cfg, s, [] + [wait], work);
      PerformAppend(cfg, s, [wait, work], Ops(turns[1..]));
      ServeIsARun(cfg, s1, turns[1..]);
    }
  }

  /** A turn whose claim fails, or finds nothing, costs its time and nothing else: the turns after it
      are served all the same. */
  lemma IdleTurnPasses(s: Store, turns: seq<Turn>)
    requires turns != [] && Forward(s.now, turns)
    requires !turns[0].fates.claimOk || ReadyIds(s.(now := turns[0].at), {}) == {}
    ensures
      var here := s.(now := turns[0].at);
      && Forward(here.now, turns[1..])
      && Serve(s, turns) == Serve(here, turns[1..]) && Served(s, turns) == Served(here, turns[1..])
  {
  }

  // ----- What the turns get done ----------------------------------------------------------

  /** The turns happen in order between from and last. */
  ghost predicate Chronological(turns: seq<Turn>, from: Time, last: Time) {
    Forward(from, turns) && forall i :: 0 <= i < |turns| ==> turns[i].at <= last
  }

  /** How many of the turns' claim statements go through. */
  function GoThrough(turns: seq<Turn>): nat {
    if turns == [] then 0 else (if turns[0].fates.claimOk then 1 else 0) + GoThrough(turns[1..])
  }

  predicate Succeeds(f: WorkFates) {
    f.claimOk && f.fate.CleanDelete? && f.recordOk
  }

  /** A turn after which its task is not claimable again up to last: it completes the task, or
      less than a lease is left, or it claims none. */
  predicate Settles(turn: Turn, last: Time) {
    !turn.fates.claimOk || Succeeds(turn.fates) || last < turn.at + LEASE
  }

  /** The tasks of ready can be claimed from now on, and no other task up to last. */
  ghost predicate ReadyExactly(s: Store, ready: set<Id>, from: Time, last: Time) {
    && ready <= s.tasks.Keys
    && (forall id :: id in ready ==> Ready(s.tasks[id], from))
    && (forall id :: id in s.tasks && id !in ready ==> !Ready(s.tasks[id], last))
  }

  ghost predicate InQueueOrder(tasks: map<Id, Task>, ids: seq<Id>) {
    && (forall i :: 0 <= i < |ids| ==> ids[i] in tasks)
    && (forall i, j :: 0 <= i < j < |ids| ==> Before(tasks, ids[i], ids[j]))
  }

  /** What a turn leaves of the task it claimed. */
  ghost predicate Attempted(s: Store, s': Store, id: Id, completed: bool)
    requires id in s.tasks && id in s'.tasks
  {
    && s'.tasks[id].attempts == s.tasks[id].attempts + 1
    && (completed ==> s'.tasks[id].status == Completed && id !in s'.blobs)
  }

  /** From s, one turn claims first and leaves its task unclaimable up to last. */
  ghost predicate OneServed(s: Store, s': Store, first: Id, last: Time, completed: bool) {
    && first in s.tasks && s'.tasks.Keys == s.tasks.Keys
    && (forall id :: id in s.tasks && id != first ==> s'.tasks[id] == s.tasks[id])
    && (forall id :: id in s'.blobs ==> id in s.blobs)
    && !Ready(s'.tasks[first], last)
    && Attempted(s, s', first, completed)
  }

  /** From s, ids were served: each task of ready once, in queue order, and no other; none of
      the tasks is claimable up to last any more. */
  ghost predicate AllServed(s: Store, s': Store, ids: seq<Id>, ready: set<Id>, last: Time, completed: bool) {
    && ready <= s.tasks.Keys && s'.tasks.Keys == s.tasks.Keys
    && |ids| == |ready| && (forall id :: id in ids <==> id in ready)
    && InQueueOrder(s.tasks, ids)
    && (forall id :: id in s'.blobs ==> id in s.blobs)
    && (forall id :: id in s.tasks && id !in ready ==> s'.tasks[id] == s.tasks[id])
    && (forall id :: id in ready ==> Attempted(s, s', id, completed))
    && (forall id :: id in s'.tasks ==> !Ready(s'.tasks[id], last))
  }

  lemma ReadyStays(t: Task, now: Time, later: Time)
    requires now <= later && Ready(t, now)
    ensures Ready(t, later)
  {
  }

  lemma ReadyNow(s: Store, ready: set<Id>, now: Time, last: Time)
    requires ReadyExactly(s, ready, now, last) && now <= last
    ensures ReadyIds(s.(now := now), {}) == ready
  {
    var here := s.(now := now);
    forall id ensures id in ReadyIds(here, {}) <==> id in ready {
      if id in s.tasks && Ready(s.tasks[id], now) {
        ReadyStays(s.tasks[id], now, last);
      }
    }
  }

  /** A claim finds nothing while no task is ready. */
  lemma NothingReady(s: Store, now: Time, last: Time, f: WorkFates)
    requires now <= last && forall id :: id in s.tasks ==> !Ready(s.tasks[id], last)
    ensures RunOnce(s.(now := now), f) == s.(now := now)
  {
    ReadyNow(s, {}, now, last);
  }

  lemma WorkServes(s: Store, id: Id, f: WorkFates, last: Time)
    requires id in s.tasks && s.now <= last && f.claimOk && Settles(Turn(s.now, f), last)
    ensures OneServed(s, WorkOn(s, id, f), id, last, Succeeds(f))
  {
    BackoffIsCappedPower(s.tasks[id].attempts + 1);
  }

  lemma FirstTurn(s: Store, turn: Turn, ready: set<Id>, last: Time)
    requires ready != {} && ReadyExactly(s, ready, turn.at, last)
    requires turn.at <= last && turn.fates.claimOk && Settles(turn, last)
    ensures
      var here := s.(now := turn.at);
      var claim := NextClaim(here, {});
      && claim.Some? && IsFirst(s.tasks, ready, claim.value)
      && OneServed(s, RunOnce(here, turn.fates), claim.value, last, Succeeds(turn.fates))
  {
    var here := s.(now := turn.at);
    ReadyNow(s, ready, turn.at, last);
    WorkServes(here, NextClaim(here, {}).value, turn.fates, last);
  }

  lemma OneMoreInOrder(tasks: map<Id, Task>, tasks': map<Id, Task>, first: Id, ids: seq<Id>, ready: set<Id>)
    requires ready <= tasks.Keys && IsFirst(tasks, ready, first) && tasks'.Keys == tasks.Keys
    requires forall id :: id in tasks && id != first ==> tasks'[id] == tasks[id]
    requires forall id :: id in ids <==> id in ready - {first}
    requires InQueueOrder(tasks', ids)
    ensures InQueueOrder(tasks, [first] + ids)
  {
    assert forall i :: 0 <= i < |ids| ==> ids[i] in ids;
  }

  lemma ServeOneMore(s: Store, s1: Store, s': Store, first: Id, ids: seq<Id>, ready: set<Id>, last: Time, one: bool, rest: bool, all: bool)
    requires ready <= s.tasks.Keys && IsFirst(s.tasks, ready, first)
    requires OneServed(s, s1, first, last, one) && (all ==> one && rest)
    requires AllServed(s1, s', ids, ready - {first}, last, rest)
    ensures AllServed(s, s', [first] + ids, ready, last, all)
  {
    OneMoreInOrder(s.tasks, s1.tasks, first, ids, ready);
    assert first !in ready - {first};
    assert |ready| == |ready - {first}| + 1;
    forall id ensures id in [first] + ids <==> id in ready {
      assert id in ids <==> id in ready - {first};
    }
  }

  lemma ReadyAfterOne(s: Store, s1: Store, first: Id, ready: set<Id>, from: Time, last: Time, one: bool)
    requires ReadyExactly(s, ready, from, last) && first in ready && OneServed(s, s1, first, last, one)
    ensures ReadyExactly(s1, ready - {first}, from, last)
  {
  }

  /** Every turn whose claim goes through succeeds. */
  predicate AllSucceed(turns: seq<Turn>) {
    forall i :: 0 <= i < |turns| && turns[i].fates.claimOk ==> Succeeds(turns[i].fates)
  }

  /** The turns happen in order between from and last, and settle the tasks they claim. */
  ghost predicate Settling(turns: seq<Turn>, from: Time, last: Time) {
    Chronological(turns, from, last) && forall i :: 0 <= i < |turns| ==> Settles(turns[i], last)
  }

  lemma SettlingTail(turns: seq<Turn>, from: Time, last: Time)
    requires Settling(turns, from, last) && turns != []
    ensures Settling(turns[1..], turns[0].at, last)
    ensures AllSucceed(turns) ==> (turns[0].fates.claimOk ==> Succeeds(turns[0].fates)) && AllSucceed(turns[1..])
  {
  }

  lemma ReadyFromLater(s: Store, ready: set<Id>, from: Time, later: Time, last: Time)
    requires ReadyExactly(s, ready, from, last) && from <= later
    ensures ReadyExactly(s, ready, later, last)
  {
  }

  lemma ServeFirst(s: Store, turns: seq<Turn>)
    requires turns != [] && Forward(s.now, turns) && turns[0].fates.claimOk && NextClaim(s.(now := turns[0].at), {}).Some?
    ensures
      var here := s.(now := turns[0].at);
      var s1 := RunOnce(here, turns[0].fates);
      && s1.now == turns[0].at && Forward(s1.now, turns[1..])
      && Serve(s, turns) == Serve(s1, turns[1..])
      && Served(s, turns) == [NextClaim(here, {}).value] + Served(s1, turns[1..])
  {
  }

  /** The first of the turns serves the first ready task; the others have the rest before them. */
  lemma TurnServes(s: Store, turns: seq<Turn>, ready: set<Id>, from: Time, last: Time) returns (first: Id, s1: Store)
    requires turns != [] && turns[0].fates.claimOk && ready != {}
    requires s.now <= from && Settling(turns, from, last) && ReadyExactly(s, ready, from, last)
    ensures IsFirst(s.tasks, ready, first) && OneServed(s, s1, first, last, Succeeds(turns[0].fates))
    ensures s1.now == turns[0].at && ReadyExactly(s1, ready - {first}, s1.now, last) && Settling(turns[1..], s1.now, last)
    ensures Serve(s, turns) == Serve(s1, turns[1..]) && Served(s, turns) == [first] + Served(s1, turns[1..])
  {
    var turn := turns[0];
    ReadyFromLater(s, ready, from, turn.at, last);
    FirstTurn(s, turn, ready, last);
    var here := s.(now := turn.at);
    first, s1 := NextClaim(here, {}).value, RunOnce(here, turn.fates);
    ServeFirst(s, turns);
    ReadyAfterOne(s, s1, first, ready, turn.at, last, Succeeds(turn.fates));
    SettlingTail(turns, from, last);
  }

  lemma ServeNoneMore(s: Store, here: Store, s': Store, ids: seq<Id>, ready: set<Id>, last: Time, rest: bool, all: bool)
    requires here.tasks == s.tasks && here.blobs == s.blobs
    requires AllServed(here, s', ids, ready, last, rest) && (all ==> rest)
    ensures AllServed(s, s', ids, ready, last, all)
  {
  }

  /** A turn that claims nothing leaves the ready tasks to the others. */
  lemma TurnIdles(s: Store, turns: seq<Turn>, ready: set<Id>, from: Time, last: Time) returns (here: Store)
    requires turns != [] && (!turns[0].fates.claimOk || ready == {})
    requires s.now <= from && Settling(turns, from, last) && ReadyExactly(s, ready, from, last)
    ensures here == s.(now := turns[0].at) && ReadyExactly(here, ready, here.now, last) && Settling(turns[1..], here.now, last)
    ensures Serve(s, turns) == Serve(here, turns[1..]) && Served(s, turns) == Served(here, turns[1..])
  {
    here := s.(now := turns[0].at);
    ReadyFromLater(s, ready, from, turns[0].at, last);
    if ready == {} {
      ReadyNow(s, ready, turns[0].at, last);
    }
    IdleTurnPasses(s, turns);
    SettlingTail(turns, from, last);
  }

  /** Turns that settle their tasks, of which at least as many go through as there are ready tasks,
      serve all of these. */
  lemma {:induction false} ServeInOrder(s: Store, turns: seq<Turn>, ready: set<Id>, from: Time, last: Time)
    requires s.now <= from && GoThrough(turns) >= |ready| && Settling(turns, from, last) && ReadyExactly(s, ready, from, last)
    ensures AllServed(s, Serve(s, turns), Served(s, turns), ready, last, AllSucceed(turns))
    decreases |turns|
  {
    if turns == [] {
      assert ready == {};
    } else if !turns[0].fates.claimOk || ready == {} {
      var here := TurnIdles(s, turns, ready, from, last);
      ServeInOrder(here, turns[1..], ready, here.now, last);
      SettlingTail(turns, from, last);
      ServeNoneMore(s, here, Serve(here, turns[1..]), Served(here, turns[1..]), ready, last, AllSucceed(turns[1..]), AllSucceed(turns));
    } else {
      var first, s1 := TurnServes(s, turns, ready, from, last);
      assert |ready - {first}| == |ready| - 1;
      ServeInOrder(s1, turns[1..], ready - {first}, s1.now, last);
      SettlingTail(turns, from, last);
      ServeOneMore(s, s1, Serve(s1, turns[1..]), first, Served(s1, turns[1..]), ready, last,
                   Succeeds(turns[0].fates), AllSucceed(turns[1..]), AllSucceed(turns));
    }
  }

  function OpenIds(s: Store): set<Id> {
    set id | id in s.tasks && s.tasks[id].Open()
  }

  /** A call that succeeds closes exactly one task if any is ready, and none otherwise. */
  lemma EachTurnClosesOne(s: Store, f: WorkFates)
    requires Succeeds(f)
    ensures |OpenIds(RunOnce(s, f))| == |OpenIds(s)| - if ReadyIds(s, {}) == {} then 0 else 1
  {
    var claim := NextClaim(s, {});
    if claim.Some? {
      assert claim.value in OpenIds(s);
      assert OpenIds(RunOnce(s, f)) == OpenIds(s) - {claim.value};
    }
  }

  /** With the clock past every readiness time, k open tasks are all completed and their blobs gone
      after k calls whose claims go through and which then succeed, served in queue order; claims
      that fail in between cost nothing, and a further call at any time finds nothing. */
  lemma DrainCompletesAll(s: Store, turns: seq<Turn>, first: Time, last: Time)
    requires GoThrough(turns) >= |OpenIds(s)| && s.now <= first <= last && Chronological(turns, first, last) && AllSucceed(turns)
    requires forall id :: id in s.tasks && s.tasks[id].Open() ==> Ready(s.tasks[id], first)
    ensures
      var ids, s' := Served(s, turns), Serve(s, turns);
      && |ids| == |OpenIds(s)| && (forall id :: id in ids <==> id in OpenIds(s)) && InQueueOrder(s.tasks, ids)
      && (forall id :: id in s'.tasks ==> !s'.tasks[id].Open())
      && (forall id :: id in OpenIds(s) ==> id !in s'.blobs)
      && (forall t, f :: RunOnce(s'.(now := t), f) == s'.(now := t))
  {
    ServeInOrder(s, turns, OpenIds(s), first, last);
    var s' := Serve(s, turns);
    forall id | id in s'.tasks ensures !s'.tasks[id].Open() {
      if id in OpenIds(s) {
        assert Attempted(s, s', id, true);
      }
    }
    forall t, f ensures RunOnce(s'.(now := t), f) == s'.(now := t) {
      NothingReady(s', t, t, f);
    }
  }

  /** In a window shorter than a lease in which no further task becomes ready, calls of which at
      least m claims go through attempt each of m ready tasks exactly once, in queue order, whichever
      other claims, blob deletes, Retry or Complete calls fail; another call in the window finds
      nothing. */
  lemma NoStarvation(s: Store, turns: seq<Turn>, ready: set<Id>, first: Time, last: Time)
    requires s.now <= first <= last < first + LEASE
    requires ReadyExactly(s, ready, first, last)
    requires GoThrough(turns) >= |ready| && Chronological(turns, first, last)
    ensures
      var ids, s' := Served(s, turns), Serve(s, turns);
      && |ids| == |ready| && (forall id :: id in ids <==> id in ready) && InQueueOrder(s.tasks, ids)
      && s'.tasks.Keys == s.tasks.Keys
      && (forall id :: id in s.tasks ==>
            s'.tasks[id].attempts == s.tasks[id].attempts + if id in ready then 1 else 0)
      && (forall t, f :: t <= last ==> RunOnce(s'.(now := t), f) == s'.(now := t))
  {
    ServeInOrder(s, turns, ready, first, last);
    var s' := Serve(s, turns);
    forall t, f | t <= last ensures RunOnce(s'.(now := t), f) == s'.(now := t) {
      NothingReady(s', t, last, f);
    }
  }
}
