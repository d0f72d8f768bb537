/** Several workers on one queue, interleaved with everything else and with time passing between
    their calls: within a lease they attempt the ready tasks once each, in queue order. */
module Fairness {
  import opened Domain
  import opened Stores
  import opened Protocol
  import opened Invariant
  import opened Draining
  import ClaimTiming

  /** A claim statement that goes through, whether or not it finds a task. */
  predicate GoesThrough(cfg: Config, s: State, a: Action) {
    Enabled(cfg, s, a) && a.ClaimTask? && a.ok
  }

  function Found(cfg: Config, s: State, a: Action): seq<Id> {
    if !GoesThrough(cfg, s, a) then [] else
    match NextClaim(s.store, a.skip)
    case None => []
    case Some(id) => [id]
  }

  /** The ids claimed by a run, in order, and how many claim statements it makes. */
  function ClaimedIds(cfg: Config, s: State, run: seq<Action>): seq<Id> {
    if run == [] then [] else
    var n := |run| - 1;
    ClaimedIds(cfg, s, run[..n]) + Found(cfg, After(cfg, s, run[..n]), run[n])
  }

  function Tries(cfg: Config, s: State, run: seq<Action>): nat {
    if run == [] then 0 else
    var n := |run| - 1;
    Tries(cfg, s, run[..n]) + if GoesThrough(cfg, After(cfg, s, run[..n]), run[n]) then 1 else 0
  }

  /** An action that ends no later than last, deletes no row, claims without meeting row locks and
      is not one of a stopped process. */
  predicate Ordinary(cfg: Config, s: State, a: Action, stopped: set<Pid>, last: Time) {
    && Apply(cfg, s, a).store.now <= last
    && (a.StartDelete? && a.ok ==> Matching(s.store, a.user, a.target) == {})
    && (a.ClaimTask? ==> a.skip == {})
    && (a.Tick? || a.pid !in stopped)
  }

  ghost predicate Window(cfg: Config, s: State, run: seq<Action>, stopped: set<Pid>, last: Time) {
    run == [] ||
    (var n := |run| - 1;
     Window(cfg, s, run[..n], stopped, last) && Ordinary(cfg, After(cfg, s, run[..n]), run[n], stopped, last))
  }

  predicate Attending(r: Role) {
    r.Deleter? || r.Finisher?
  }

  /** No process that is still running has claimed id. */
  ghost predicate Unattended(s: State, id: Id, stopped: set<Pid>) {
    forall p :: p in s.procs && p !in stopped ==> !Attending(RoleOf(s.procs[p], id))
  }

  // ----- One task -------------------------------------------------------------------------

  /** A waiting task is as it was; any other is not claimable up to last and was attempted n times. */
  ghost predicate TaskAt(s0: Store, s: State, id: Id, waiting: bool, n: nat, stopped: set<Pid>, last: Time)
    requires id in s0.tasks && id in s.store.tasks
  {
    if waiting then s.store.tasks[id] == s0.tasks[id] && Unattended(s, id, stopped)
    else !Ready(s.store.tasks[id], last) && s.store.tasks[id].attempts == s0.tasks[id].attempts + n
  }

  lemma UnattendedActor(cfg: Config, s: State, a: Action, id: Id)
    requires Enabled(cfg, s, a) && !a.Tick? && Found(cfg, s, a) != [id]
    requires a.pid in s.procs ==> !Attending(RoleOf(s.procs[a.pid], id))
    ensures a.pid in Do(cfg, s, a).procs ==> !Attending(RoleOf(Do(cfg, s, a).procs[a.pid], id))
  {
  }

  lemma UnattendedTask(cfg: Config, s: State, a: Action, id: Id)
    requires Enabled(cfg, s, a) && id in s.store.tasks && !a.StartDelete? && Found(cfg, s, a) != [id]
    requires !a.Tick? && a.pid in s.procs ==> !Attending(RoleOf(s.procs[a.pid], id))
    ensures id in Do(cfg, s, a).store.tasks && Do(cfg, s, a).store.tasks[id] == s.store.tasks[id]
  {
  }

  lemma UnattendedStays(cfg: Config, s: State, a: Action, id: Id, stopped: set<Pid>)
    requires Enabled(cfg, s, a) && Unattended(s, id, stopped) && Found(cfg, s, a) != [id]
    requires a.Tick? || a.pid !in stopped
    ensures Unattended(Do(cfg, s, a), id, stopped)
  {
    var s' := Do(cfg, s, a);
    forall p | p in s'.procs && p !in stopped ensures !Attending(RoleOf(s'.procs[p], id)) {
      if a.Tick? || p != a.pid {
        OnlyActorMoves(cfg, s, a, p);
      } else {
        UnattendedActor(cfg, s, a, id);
      }
    }
  }

  /** Whatever does not claim a waiting task leaves it alone. */
  lemma WaitingStays(cfg: Config, s0: Store, s: State, a: Action, id: Id, stopped: set<Pid>, last: Time)
    requires id in s0.tasks && id in s.store.tasks && TaskAt(s0, s, id, true, 0, stopped, last)
    requires Ordinary(cfg, s, a, stopped, last) && Found(cfg, s, a) != [id]
    ensures id in Apply(cfg, s, a).store.tasks && TaskAt(s0, Apply(cfg, s, a), id, true, 0, stopped, last)
  {
    if Enabled(cfg, s, a) {
      UnattendedStays(cfg, s, a, id, stopped);
      if !a.StartDelete? {
        UnattendedTask(cfg, s, a, id);
      }
    }
  }

  /** A stale Complete or Retry does not make a task claimable before last. */
  lemma HandledStays(cfg: Config, s0: Store, s: State, a: Action, id: Id, n: nat, stopped: set<Pid>, last: Time)
    requires IdInv(s, id) && id in s0.tasks && id in s.store.tasks && TaskAt(s0, s, id, false, n, stopped, last)
    requires Ordinary(cfg, s, a, stopped, last) && s0.now <= s.store.now && last < s0.now + LEASE && Found(cfg, s, a) != [id]
    ensures id in Apply(cfg, s, a).store.tasks && TaskAt(s0, Apply(cfg, s, a), id, false, n, stopped, last)
  {
    ClaimTiming.TaskStep(cfg, s, a, id);
    BackoffIsCappedPower(s.store.tasks[id].attempts);
  }

  lemma ClaimedIsHandled(cfg: Config, s0: Store, s: State, a: Action, id: Id, stopped: set<Pid>, last: Time)
    requires id in s0.tasks && id in s.store.tasks && TaskAt(s0, s, id, true, 0, stopped, last)
    requires Found(cfg, s, a) == [id] && s0.now <= s.store.now && last < s0.now + LEASE
    ensures id in Apply(cfg, s, a).store.tasks && TaskAt(s0, Apply(cfg, s, a), id, false, 1, stopped, last)
  {
  }

  // ----- The queue ------------------------------------------------------------------------

  function Elements(ids: seq<Id>): set<Id> {
    set id | id in ids
  }

  function Count(ids: seq<Id>, id: Id): nat {
    if id in ids then 1 else 0
  }

  /** The ids claimed so far came first among ready, in queue order; the rest of ready waits. */
  ghost predicate Progress(s0: Store, s: State, ids: seq<Id>, ready: set<Id>, stopped: set<Pid>, last: Time) {
    && s.store.tasks.Keys == s0.tasks.Keys && ready <= s0.tasks.Keys
    && Elements(ids) <= ready && |ids| + |ready - Elements(ids)| == |ready|
    && InQueueOrder(s0.tasks, ids)
    && (forall c, id :: c in ids && id in ready - Elements(ids) ==> Before(s0.tasks, c, id))
    && (forall id :: id in s0.tasks ==> TaskAt(s0, s, id, id in ready - Elements(ids), Count(ids, id), stopped, last))
  }

  /** What is left of ready is what can be claimed. */
  lemma LeftIsReady(s0: Store, s: State, ids: seq<Id>, ready: set<Id>, stopped: set<Pid>, last: Time)
    requires Progress(s0, s, ids, ready, stopped, last) && s0.now <= s.store.now <= last
    requires forall id :: id in ready ==> Ready(s0.tasks[id], s0.now)
    ensures ReadyIds(s.store, {}) == ready - Elements(ids)
  {
    forall id ensures id in ReadyIds(s.store, {}) <==> id in ready - Elements(ids) {
      if id in s0.tasks {
        assert TaskAt(s0, s, id, id in ready - Elements(ids), Count(ids, id), stopped, last);
        if id in ready - Elements(ids) {
          ReadyStays(s0.tasks[id], s0.now, s.store.now);
        } else if Ready(s.store.tasks[id], s.store.now) {
          ReadyStays(s.store.tasks[id], s.store.now, last);
        }
      }
    }
  }

  lemma KeysStay(cfg: Config, s: State, a: Action, stopped: set<Pid>, last: Time)
    requires Ordinary(cfg, s, a, stopped, last)
    ensures Apply(cfg, s, a).store.tasks.Keys == s.store.tasks.Keys
    ensures s.store.now <= Apply(cfg, s, a).store.now
  {
  }

  lemma NoClaimStep(cfg: Config, s0: Store, s: State, a: Action, ids: seq<Id>, ready: set<Id>, stopped: set<Pid>, last: Time)
    requires Progress(s0, s, ids, ready, stopped, last) && (forall id :: IdInv(s, id))
    requires Ordinary(cfg, s, a, stopped, last) && Found(cfg, s, a) == [] && s0.now <= s.store.now && last < s0.now + LEASE
    ensures Progress(s0, Apply(cfg, s, a), ids, ready, stopped, last)
  {
    var s' := Apply(cfg, s, a);
    KeysStay(cfg, s, a, stopped, last);
    forall id | id in s0.tasks ensures TaskAt(s0, s', id, id in ready - Elements(ids), Count(ids, id), stopped, last) {
      if id in ready - Elements(ids) {
        WaitingStays(cfg, s0, s, a, id, stopped, last);
      } else {
        HandledStays(cfg, s0, s, a, id, Count(ids, id), stopped, last);
      }
    }
  }

  /** The tasks after a claim of first. */
  lemma ClaimStepTasks(cfg: Config, s0: Store, s: State, a: Action, ids: seq<Id>, first: Id, ready: set<Id>, stopped: set<Pid>, last: Time, id: Id)
    requires Progress(s0, s, ids, ready, stopped, last) && IdInv(s, id) && first in ready - Elements(ids)
    requires Ordinary(cfg, s, a, stopped, last) && Found(cfg, s, a) == [first] && s0.now <= s.store.now && last < s0.now + LEASE
    requires id in s0.tasks
    ensures
      var s', ids' := Apply(cfg, s, a), ids + [first];
      id in s'.store.tasks && TaskAt(s0, s', id, id in ready - Elements(ids'), Count(ids', id), stopped, last)
  {
    assert TaskAt(s0, s, id, id in ready - Elements(ids), Count(ids, id), stopped, last);
    if id == first {
      ClaimedIsHandled(cfg, s0, s, a, id, stopped, last);
    } else if id in ready - Elements(ids) {
      WaitingStays(cfg, s0, s, a, id, stopped, last);
    } else {
      HandledStays(cfg, s0, s, a, id, Count(ids, id), stopped, last);
    }
  }

  lemma OrderGrows(tasks: map<Id, Task>, ids: seq<Id>, first: Id)
    requires InQueueOrder(tasks, ids) && first in tasks && forall c :: c in ids && c in tasks ==> Before(tasks, c, first)
    ensures InQueueOrder(tasks, ids + [first])
  {
    assert forall i :: 0 <= i < |ids| ==> ids[i] in ids;
  }

  /** The order after a claim of first. */
  lemma ClaimStepOrder(s0: Store, s: State, ids: seq<Id>, first: Id, ready: set<Id>, stopped: set<Pid>, last: Time)
    requires Progress(s0, s, ids, ready, stopped, last)
    requires IsFirst(s.store.tasks, ready - Elements(ids), first)
    ensures
      var ids' := ids + [first];
      && Elements(ids') <= ready && |ids'| + |ready - Elements(ids')| == |ready|
      && InQueueOrder(s0.tasks, ids')
      && (forall c, id :: c in ids' && id in ready - Elements(ids') ==> Before(s0.tasks, c, id))
  {
    var ids', left := ids + [first], ready - Elements(ids);
    assert Elements(ids') == Elements(ids) + {first};
    assert ready - Elements(ids') == left - {first};
    forall id | id in left ensures s.store.tasks[id] == s0.tasks[id] {
      assert TaskAt(s0, s, id, true, Count(ids, id), stopped, last);
    }
    OrderGrows(s0.tasks, ids, first);
    forall c, id | c in ids' && id in left - {first} ensures Before(s0.tasks, c, id) {
      if c == first {
        assert Before(s.store.tasks, first, id);
      }
    }
  }

  lemma ClaimStep(cfg: Config, s0: Store, s: State, a: Action, ids: seq<Id>, ready: set<Id>, stopped: set<Pid>, last: Time)
    requires Progress(s0, s, ids, ready, stopped, last) && (forall id :: IdInv(s, id))
    requires forall id :: id in ready ==> Ready(s0.tasks[id], s0.now)
    requires Ordinary(cfg, s, a, stopped, last) && Found(cfg, s, a) != [] && s0.now <= s.store.now <= last < s0.now + LEASE
    ensures Progress(s0, Apply(cfg, s, a), ids + Found(cfg, s, a), ready, stopped, last)
  {
    LeftIsReady(s0, s, ids, ready, stopped, last);
    var first := NextClaim(s.store, {}).value;
    KeysStay(cfg, s, a, stopped, last);
    ClaimStepOrder(s0, s, ids, first, ready, stopped, last);
    forall id | id in s0.tasks
      ensures TaskAt(s0, Apply(cfg, s, a), id, id in ready - Elements(ids + [first]), Count(ids + [first], id), stopped, last)
    {
      ClaimStepTasks(cfg, s0, s, a, ids, first, ready, stopped, last, id);
    }
  }

  // ----- The window -----------------------------------------------------------------------

  /** One action of the window: what it finds is claimed, and it finds something if it can. */
  lemma ProgressStep(cfg: Config, s0: Store, s: State, a: Action, ids: seq<Id>, ready: set<Id>, stopped: set<Pid>, last: Time)
    requires Progress(s0, s, ids, ready, stopped, last) && (forall id :: IdInv(s, id))
    requires forall id :: id in ready ==> Ready(s0.tasks[id], s0.now)
    requires Ordinary(cfg, s, a, stopped, last) && s0.now <= s.store.now <= last < s0.now + LEASE
    ensures Progress(s0, Apply(cfg, s, a), ids + Found(cfg, s, a), ready, stopped, last)
    ensures |Found(cfg, s, a)| == if GoesThrough(cfg, s, a) && |ids| < |ready| then 1 else 0
  {
    LeftIsReady(s0, s, ids, ready, stopped, last);
    if Found(cfg, s, a) == [] {
      NoClaimStep(cfg, s0, s, a, ids, ready, stopped, last);
      assert ids + [] == ids;
    } else {
      ClaimStep(cfg, s0, s, a, ids, ready, stopped, last);
    }
  }

  lemma {:induction false} ProgressAlong(cfg: Config, s: State, run: seq<Action>, ready: set<Id>, stopped: set<Pid>, last: Time)
    requires Inv(cfg, s) && s.store.now <= last < s.store.now + LEASE
    requires ReadyExactly(s.store, ready, s.store.now, last) && forall id :: id in ready ==> Unattended(s, id, stopped)
    requires Window(cfg, s, run, stopped, last)
    ensures
      var s', ids := After(cfg, s, run), ClaimedIds(cfg, s, run);
      && s.store.now <= s'.store.now <= last
      && Progress(s.store, s', ids, ready, stopped, last)
      && |ids| == Least(Tries(cfg, s, run), |ready|)
  {
    if run == [] {
      assert ready - Elements([]) == ready;
    } else {
      var n := |run| - 1;
      var mid, a, ids := After(cfg, s, run[..n]), run[n], ClaimedIds(cfg, s, run[..n]);
      ProgressAlong(cfg, s, run[..n], ready, stopped, last);
      RunKeeps(cfg, s, run[..n]);
      KeysStay(cfg, mid, a, stopped, last);
      ProgressStep(cfg, s.store, mid, a, ids, ready, stopped, last);
    }
  }

  /** In every interleaving, in a window shorter than a lease in which nothing is deleted and no
      further task becomes ready, the k-th claim statement, of whichever worker, takes the k-th of
      the ready tasks in queue order, whatever happens to blob deletes, Retry and Complete calls.
      After as many statements as there are ready tasks each has been attempted exactly once, and
      further ones find nothing. Workers that had claimed a ready task before are stopped. */
  lemma WorkersShareTheQueue(cfg: Config, before: seq<Action>, run: seq<Action>, ready: set<Id>, stopped: set<Pid>, last: Time)
    requires
      var s := After(cfg, INIT, before);
      && s.store.now <= last < s.store.now + LEASE
      && ReadyExactly(s.store, ready, s.store.now, last) && (forall id :: id in ready ==> Unattended(s, id, stopped))
      && Window(cfg, s, run, stopped, last)
    ensures
      var s := After(cfg, INIT, before);
      var s', ids := After(cfg, s, run), ClaimedIds(cfg, s, run);
      && |ids| == Least(Tries(cfg, s, run), |ready|)
      && InQueueOrder(s.store.tasks, ids) && (forall id :: id in ids ==> id in ready)
      && (forall c, id :: c in ids && id in ready && id !in ids ==> Before(s.store.tasks, c, id))
      && s'.store.tasks.Keys == s.store.tasks.Keys
      && (forall id :: id in s.store.tasks ==>
            s'.store.tasks[id].attempts == s.store.tasks[id].attempts + if id in ids then 1 else 0)
      && (Tries(cfg, s, run) >= |ready| ==> (forall id :: id in ready ==> id in ids) && NextClaim(s'.store, {}).None?)
  {
    var s := After(cfg, INIT, before);
    var s', ids := After(cfg, s, run), ClaimedIds(cfg, s, run);
    ReachableInv(cfg, before);
    ProgressAlong(cfg, s, run, ready, stopped, last);
    LeftIsReady(s.store, s', ids, ready, stopped, last);
    forall id | id in s.store.tasks
      ensures s'.store.tasks[id].attempts == s.store.tasks[id].attempts + if id in ids then 1 else 0
    {
      assert TaskAt(s.store, s', id, id in ready - Elements(ids), Count(ids, id), stopped, last);
    }
    forall c, id | c in ids && id in ready && id !in ids ensures Before(s.store.tasks, c, id) {
      assert id in ready - Elements(ids);
    }
    if Tries(cfg, s, run) >= |ready| {
      assert ready - Elements(ids) == {};
      forall id | id in ready ensures id in ids {
        assert id !in ready - Elements(ids);
      }
    }
  }

  // ----- Completion -----------------------------------------------------------------------

  /** A blob delete and a completion succeed, and no id of ready is stored again. */
  predicate Clean(s: State, a: Action, ready: set<Id>) {
    && (a.DeleteClaimed? ==> a.fate.CleanDelete?)
    && (a.CompleteTask? ==> a.ok)
    && (a.PutBlob? && a.pid in s.procs && s.procs[a.pid].Upload? ==> s.procs[a.pid].row.id !in ready)
  }

  ghost predicate CleanRun(cfg: Config, s: State, run: seq<Action>, ready: set<Id>) {
    run == [] ||
    (CleanRun(cfg, s, run[..|run| - 1], ready) && Clean(After(cfg, s, run[..|run| - 1]), run[|run| - 1], ready))
  }

  /** A claimed task is completed or still has its worker, which does not give up; by the time the
      worker completes it, the blob is gone. */
  ghost predicate InHand(s: State, id: Id, stopped: set<Pid>)
    requires id in s.store.tasks
  {
    && (s.store.tasks[id].status == Completed || !Unattended(s, id, stopped))
    && (s.store.tasks[id].status == Completed ==> id !in s.store.blobs)
    && (forall p :: p in s.procs && p !in stopped ==>
          s.procs[p] != Worker(Retrying(id)) && (s.procs[p] == Worker(Completing(id)) ==> id !in s.store.blobs))
  }

  lemma BlobStaysGone(cfg: Config, s: State, a: Action, id: Id, ready: set<Id>)
    requires Enabled(cfg, s, a) && Clean(s, a, ready) && id in ready && id !in s.store.blobs
    ensures id !in Do(cfg, s, a).store.blobs
  {
  }

  /** A worker on id goes on to complete it, and has it completed. */
  lemma WorkerMoves(cfg: Config, s: State, a: Action, id: Id, ready: set<Id>)
    requires Enabled(cfg, s, a) && !a.Tick? && Clean(s, a, ready) && id in s.store.tasks
    requires a.pid in s.procs ==> s.procs[a.pid] != Worker(Retrying(id))
    ensures
      var s' := Do(cfg, s, a);
      && a.pid in s'.procs && s'.procs[a.pid] != Worker(Retrying(id))
      && (s'.procs[a.pid] == Worker(Completing(id)) ==> id !in s'.store.blobs)
      && (a.pid in s.procs && Attending(RoleOf(s.procs[a.pid], id)) ==>
            Attending(RoleOf(s'.procs[a.pid], id)) || (id in s'.store.tasks && s'.store.tasks[id].status == Completed))
  {
  }

  /** A task is completed only by its worker, and stays so unless it is claimed or retried. */
  lemma CompletionStep(cfg: Config, s: State, a: Action, id: Id)
    requires Enabled(cfg, s, a) && id in s.store.tasks && Found(cfg, s, a) != [id]
    requires a.StartDelete? && a.ok ==> Matching(s.store, a.user, a.target) == {}
    requires !a.Tick? && a.pid in s.procs ==> s.procs[a.pid] != Worker(Retrying(id))
    ensures
      var s' := Do(cfg, s, a);
      && id in s'.store.tasks
      && (s.store.tasks[id].status == Completed ==> s'.store.tasks[id].status == Completed)
      && (s'.store.tasks[id].status == Completed ==>
            || s.store.tasks[id].status == Completed
            || (!a.Tick? && a.pid in s.procs && s.procs[a.pid] == Worker(Completing(id))))
  {
  }

  lemma ProcessInHand(cfg: Config, s: State, a: Action, id: Id, ready: set<Id>, stopped: set<Pid>, last: Time, p: Pid)
    requires Enabled(cfg, s, a) && Ordinary(cfg, s, a, stopped, last) && Clean(s, a, ready) && id in ready
    requires id in s.store.tasks && InHand(s, id, stopped) && p in Do(cfg, s, a).procs && p !in stopped
    ensures
      var s' := Do(cfg, s, a);
      s'.procs[p] != Worker(Retrying(id)) && (s'.procs[p] == Worker(Completing(id)) ==> id !in s'.store.blobs)
  {
    if a.Tick? || p != a.pid {
      OnlyActorMoves(cfg, s, a, p);
      if id !in s.store.blobs {
        BlobStaysGone(cfg, s, a, id, ready);
      }
    } else {
      WorkerMoves(cfg, s, a, id, ready);
    }
  }

  lemma WorkerRemains(cfg: Config, s: State, a: Action, id: Id, ready: set<Id>, stopped: set<Pid>, last: Time)
    requires Enabled(cfg, s, a) && Ordinary(cfg, s, a, stopped, last) && Clean(s, a, ready)
    requires id in s.store.tasks && InHand(s, id, stopped) && !Unattended(s, id, stopped)
    ensures
      var s' := Do(cfg, s, a);
      !Unattended(s', id, stopped) || (id in s'.store.tasks && s'.store.tasks[id].status == Completed)
  {
    var p :| p in s.procs && p !in stopped && Attending(RoleOf(s.procs[p], id));
    if a.Tick? || p != a.pid {
      OnlyActorMoves(cfg, s, a, p);
    } else {
      WorkerMoves(cfg, s, a, id, ready);
    }
  }

  lemma InHandStep(cfg: Config, s: State, a: Action, id: Id, ready: set<Id>, stopped: set<Pid>, last: Time)
    requires Ordinary(cfg, s, a, stopped, last) && Clean(s, a, ready) && id in ready
    requires id in s.store.tasks && InHand(s, id, stopped) && Found(cfg, s, a) != [id]
    ensures id in Apply(cfg, s, a).store.tasks && InHand(Apply(cfg, s, a), id, stopped)
  {
    if Enabled(cfg, s, a) {
      var s' := Do(cfg, s, a);
      CompletionStep(cfg, s, a, id);
      if !Unattended(s, id, stopped) {
        WorkerRemains(cfg, s, a, id, ready, stopped, last);
      }
      if id !in s.store.blobs {
        BlobStaysGone(cfg, s, a, id, ready);
      }
      forall p | p in s'.procs && p !in stopped
        ensures s'.procs[p] != Worker(Retrying(id)) && (s'.procs[p] == Worker(Completing(id)) ==> id !in s'.store.blobs)
      {
        ProcessInHand(cfg, s, a, id, ready, stopped, last, p);
      }
    }
  }

  lemma ClaimPutsInHand(cfg: Config, s: State, a: Action, id: Id, stopped: set<Pid>)
    requires Found(cfg, s, a) == [id] && Unattended(s, id, stopped) && a.pid !in stopped
    ensures id in Apply(cfg, s, a).store.tasks && InHand(Apply(cfg, s, a), id, stopped)
  {
    var s' := Apply(cfg, s, a);
    assert s'.procs == s.procs[a.pid := Worker(Deleting(id))];
    assert Attending(RoleOf(s'.procs[a.pid], id));
    forall p | p in s'.procs && p !in stopped && p != a.pid
      ensures s'.procs[p] != Worker(Retrying(id)) && s'.procs[p] != Worker(Completing(id))
    {
      assert !Attending(RoleOf(s.procs[p], id));
    }
  }

  lemma {:induction false} InHandAlong(cfg: Config, s: State, run: seq<Action>, ready: set<Id>, stopped: set<Pid>, last: Time, id: Id)
    requires Inv(cfg, s) && s.store.now <= last < s.store.now + LEASE
    requires ReadyExactly(s.store, ready, s.store.now, last) && forall id :: id in ready ==> Unattended(s, id, stopped)
    requires Window(cfg, s, run, stopped, last) && CleanRun(cfg, s, run, ready) && id in ClaimedIds(cfg, s, run)
    ensures id in ready && id in After(cfg, s, run).store.tasks && InHand(After(cfg, s, run), id, stopped)
  {
    var n := |run| - 1;
    var mid, a, ids := After(cfg, s, run[..n]), run[n], ClaimedIds(cfg, s, run[..n]);
    ProgressAlong(cfg, s, run[..n], ready, stopped, last);
    LeftIsReady(s.store, mid, ids, ready, stopped, last);
    if id in ids {
      InHandAlong(cfg, s, run[..n], ready, stopped, last, id);
      assert id !in ReadyIds(mid.store, {});
      InHandStep(cfg, mid, a, id, ready, stopped, last);
    } else {
      assert id in ready - Elements(ids);
      assert TaskAt(s.store, mid, id, true, Count(ids, id), stopped, last);
      ClaimPutsInHand(cfg, mid, a, id, stopped);
    }
  }

  /** If, besides, blob deletes and completions succeed and no ready id is stored again, then every
      claimed task whose worker has finished is completed and its blob gone: with as many claim
      statements as ready tasks, and all their workers finished, the queue is drained. */
  lemma WorkersDrainTheQueue(cfg: Config, before: seq<Action>, run: seq<Action>, ready: set<Id>, stopped: set<Pid>, last: Time, id: Id)
    requires
      var s := After(cfg, INIT, before);
      && s.store.now <= last < s.store.now + LEASE
      && ReadyExactly(s.store, ready, s.store.now, last) && (forall id :: id in ready ==> Unattended(s, id, stopped))
      && Window(cfg, s, run, stopped, last) && CleanRun(cfg, s, run, ready)
    requires
      var s := After(cfg, INIT, before);
      && (id in ClaimedIds(cfg, s, run) || (id in ready && Tries(cfg, s, run) >= |ready|))
      && Unattended(After(cfg, s, run), id, stopped)
    ensures
      var s' := After(cfg, After(cfg, INIT, before), run);
      id in s'.store.tasks && s'.store.tasks[id].status == Completed && id !in s'.store.blobs
  {
    WorkersShareTheQueue(cfg, before, run, ready, stopped, last);
    ReachableInv(cfg, before);
    InHandAlong(cfg, After(cfg, INIT, before), run, ready, stopped, last, id);
  }
}
