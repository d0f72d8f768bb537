/** How far apart the claims of one task are, in every interleaving: no status or lease holder
    guards Complete and Retry, so this rests on the arithmetic of lease and backoff. */
module ClaimTiming {
  import opened Domain
  import opened Stores
  import opened Protocol
  import opened Invariant

  /** When a task can be claimed (again): after a claim that nobody follows up, once its lease has
      run out; after a retry, once min(2^attempts, 256) minutes have passed; after a completion
      never; after a delete statement from then on. */
  lemma ClaimableAgain(s: Store, user: User, id: Id, later: Time)
    requires id in s.tasks && s.now <= later
    ensures Ready(AfterClaim(s, id).tasks[id], later) <==> later > s.now + LEASE
    ensures Ready(AfterRetry(s, id).tasks[id], later) <==> later >= s.now + MINUTE * Least(Power2(s.tasks[id].attempts), 256)
    ensures !Ready(AfterComplete(s, id).tasks[id], later)
    ensures Ready(Enqueued(s, user, id), later)
  {
    BackoffIsCappedPower(s.tasks[id].attempts);
  }

  /** Action number k of the run claims id. */
  predicate ClaimsAt(cfg: Config, run: seq<Action>, k: nat, id: Id)
    requires k < |run|
  {
    var s := At(cfg, run, k);
    Enabled(cfg, s, run[k]) && run[k].ClaimTask? && run[k].ok && NextClaim(s.store, run[k].skip) == Some(id)
  }

  /** Action number k of the run is a delete statement that enqueues id. */
  predicate RequeuesAt(cfg: Config, run: seq<Action>, k: nat, id: Id)
    requires k < |run|
  {
    var s := At(cfg, run, k);
    && Enabled(cfg, s, run[k]) && run[k].StartDelete? && run[k].ok
    && id in Matching(s.store, run[k].user, run[k].target)
  }

  function TimeAt(cfg: Config, run: seq<Action>, k: nat): Time
    requires k <= |run|
  {
    At(cfg, run, k).store.now
  }

  /** The task has been attempted n times and may not be claimed within a lease of since, nor,
      if it is pending, within the backoff of its n-th attempt. */
  ghost predicate HeldOff(t: Task, since: Time, n: nat) {
    && t.attempts >= n
    && (t.status == Pending ==> since + Backoff(n) <= t.nextAt)
    && (t.status == Processing ==> t.leaseUntil.Some? && since + LEASE <= t.leaseUntil.value)
  }

  /** The only ways a task changes, with the resulting task: a claim, a completion, a retry by a
      worker, before which there must have been a claim, or a delete statement. */
  lemma TaskStep(cfg: Config, s: State, a: Action, id: Id)
    requires IdInv(s, id) && id in s.store.tasks
    ensures
      var s', t := Apply(cfg, s, a), s.store.tasks[id];
      && s.store.now <= s'.store.now
      && id in s'.store.tasks
      && var t' := s'.store.tasks[id];
         || t' == t
         || (a.ClaimTask? && NextClaim(s.store, a.skip) == Some(id) && t' == Claimed(t, s.store.now))
         || (a.CompleteTask? && t' == t.(status := Completed, leaseUntil := None, updatedAt := s.store.now))
         || (a.RetryTask? && t.attempts >= 1
             && t' == t.(status := Pending, nextAt := s.store.now + Backoff(t.attempts), leaseUntil := None, updatedAt := s.store.now))
         || (Enabled(cfg, s, a) && a.StartDelete? && a.ok && id in Matching(s.store, a.user, a.target)
             && t' == t.(status := Pending, nextAt := s.store.now, updatedAt := s.store.now))
  {
    if Enabled(cfg, s, a) && a.RetryTask? && s.procs[a.pid].work.id == id {
      assert Roles(s, id)[a.pid].Deleter?;
    }
  }

  lemma ClaimHoldsOff(cfg: Config, s: State, a: Action, id: Id)
    requires Enabled(cfg, s, a) && a.ClaimTask? && a.ok && NextClaim(s.store, a.skip) == Some(id)
    ensures
      var s' := Apply(cfg, s, a);
      && s'.store.now == s.store.now
      && id in s.store.tasks && id in s'.store.tasks
      && HeldOff(s'.store.tasks[id], s.store.now, s.store.tasks[id].attempts + 1)
  {
  }

  lemma HeldOffStep(cfg: Config, s: State, a: Action, id: Id, since: Time, n: nat)
    requires IdInv(s, id) && id in s.store.tasks && since <= s.store.now
    requires n >= 1 && HeldOff(s.store.tasks[id], since, n)
    requires !(Enabled(cfg, s, a) && a.StartDelete? && a.ok && id in Matching(s.store, a.user, a.target))
    ensures
      var s' := Apply(cfg, s, a);
      s.store.now <= s'.store.now && id in s'.store.tasks && HeldOff(s'.store.tasks[id], since, n)
  {
    TaskStep(cfg, s, a, id);
    BackoffMonotone(n, s.store.tasks[id].attempts);
  }

  lemma {:induction false} HeldOffAlong(cfg: Config, run: seq<Action>, i: nat, k: nat, id: Id)
    requires i < k <= |run| && ClaimsAt(cfg, run, i, id)
    requires forall j :: i < j < k ==> !RequeuesAt(cfg, run, j, id)
    ensures
      && id in At(cfg, run, i).store.tasks && id in At(cfg, run, k).store.tasks
      && TimeAt(cfg, run, i) <= TimeAt(cfg, run, k)
      && HeldOff(At(cfg, run, k).store.tasks[id], TimeAt(cfg, run, i), At(cfg, run, i).store.tasks[id].attempts + 1)
  {
    AtStep(cfg, run, k - 1);
    if k == i + 1 {
      ClaimHoldsOff(cfg, At(cfg, run, i), run[i], id);
    } else {
      HeldOffAlong(cfg, run, i, k - 1, id);
      IdAlways(cfg, run[..k - 1], id);
      assert !RequeuesAt(cfg, run, k - 1, id);
      HeldOffStep(cfg, At(cfg, run, k - 1), run[k - 1], id, TimeAt(cfg, run, i), At(cfg, run, i).store.tasks[id].attempts + 1);
    }
  }

  /** Any two claims of the same task are at least a lease apart unless a delete statement
      enqueued it again in between, even if a stale worker's Retry overwrote a newer lease. */
  lemma ClaimsAreALeaseApart(cfg: Config, run: seq<Action>, i: nat, k: nat, id: Id)
    requires i < k < |run| && ClaimsAt(cfg, run, i, id) && ClaimsAt(cfg, run, k, id)
    requires forall j :: i < j < k ==> !RequeuesAt(cfg, run, j, id)
    ensures TimeAt(cfg, run, k) - TimeAt(cfg, run, i) >= LEASE
  {
    HeldOffAlong(cfg, run, i, k, id);
    BackoffIsCappedPower(At(cfg, run, i).store.tasks[id].attempts + 1);
  }

  /** The exception is real: a delete statement makes a task claimable at once, under whatever
      lease or backoff it is. */
  lemma RequeueCancelsLease(s: Store, user: User, target: Target, id: Id)
    requires id in Matching(s, user, target)
    ensures id in ReadyIds(AfterDeleteRows(s, user, target), {})
  {
    assert AfterDeleteRows(s, user, target).tasks[id] == Enqueued(s, user, id);
  }

  // ----- The retry timetable --------------------------------------------------------------

  /** 2^(n+1) - 2 minutes up to the eighth retry, 256 minutes more for each further one. */
  function MinDelay(n: nat): Time {
    if n <= 8 then MINUTE * (Power2(n + 1) - 2) else MINUTE * (510 + 256 * (n - 8))
  }

  lemma MinDelayStep(n: nat)
    requires n >= 1
    ensures MinDelay(n) == MinDelay(n - 1) + Backoff(n)
  {
    Power2Of8();
    BackoffIsCappedPower(n);
  }

  /** pos lists claims of id in run order. */
  ghost predicate Claims(cfg: Config, run: seq<Action>, id: Id, pos: seq<nat>) {
    && (forall j :: 0 <= j < |pos| ==> pos[j] < |run| && ClaimsAt(cfg, run, pos[j], id))
    && (forall j, k :: 0 <= j < k < |pos| ==> pos[j] < pos[k])
  }

  /** After position first no delete statement enqueues id, and every claim finds the task
      pending: the attempt before it was recorded by Retry, not ended by its lease. */
  ghost predicate RetriedOnly(cfg: Config, run: seq<Action>, id: Id, first: nat) {
    forall k :: first < k < |run| ==>
      && !RequeuesAt(cfg, run, k, id)
      && (ClaimsAt(cfg, run, k, id) ==> At(cfg, run, k).store.tasks[id].status == Pending)
  }

  /** If every failed attempt is recorded by Retry, the n-th claim after the first one comes no
      earlier than MinDelay(n) after it. */
  lemma {:induction false} RetryTimetable(cfg: Config, run: seq<Action>, id: Id, pos: seq<nat>, n: nat)
    requires n < |pos| && Claims(cfg, run, id, pos) && RetriedOnly(cfg, run, id, pos[0])
    ensures id in At(cfg, run, pos[n]).store.tasks && At(cfg, run, pos[n]).store.tasks[id].attempts >= n
    ensures TimeAt(cfg, run, pos[n]) >= TimeAt(cfg, run, pos[0]) + MinDelay(n)
  {
    if n > 0 {
      RetryTimetable(cfg, run, id, pos, n - 1);
      HeldOffAlong(cfg, run, pos[n - 1], pos[n], id);
      BackoffMonotone(n, At(cfg, run, pos[n - 1]).store.tasks[id].attempts + 1);
      MinDelayStep(n);
    }
  }
}
