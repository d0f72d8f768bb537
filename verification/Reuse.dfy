/** Deleted ids may be uploaded again, while the deletion of their earlier bytes may still be
    under way. When exactly can a row lose its bytes, be created without them, or bytes be left
    behind? */
module Reuse {
  import opened Domain
  import opened Stores
  import opened Protocol
  import opened Invariant
  import opened Refinement
  import opened Continuations
  import Safety
  import Sequential

  // ----- Out of risk, the bytes stay ------------------------------------------------------

  /** A process that is about to delete the blob of an id, or may have it deleted. */
  predicate Dangerous(r: Role) {
    r.Holder? || r.Remover? || r.Deleter?
  }

  predicate HasOpenTask(s: State, id: Id) {
    id in s.store.tasks && s.store.tasks[id].Open()
  }

  /** id has an open task, or a process besides those of but is dangerous to it. */
  ghost predicate AtRisk(s: State, id: Id, but: set<Pid>) {
    HasOpenTask(s, id) || exists pid :: pid in Roles(s, id) && pid !in but && Dangerous(Roles(s, id)[pid])
  }

  lemma RoleOfActor(cfg: Config, s: State, a: Action, id: Id)
    requires Enabled(cfg, s, a) && !a.Tick? && !Breaks(cfg, s, a, Deletions(id)) && id in s.store.blobs
    requires !HasOpenTask(s, id)
    requires a.pid in s.procs ==> !Dangerous(RoleOf(s.procs[a.pid], id))
    ensures a.pid in Do(cfg, s, a).procs ==> !Dangerous(RoleOf(Do(cfg, s, a).procs[a.pid], id))
  {
  }

  lemma TaskStaysClosed(cfg: Config, s: State, a: Action, id: Id)
    requires Enabled(cfg, s, a) && !Breaks(cfg, s, a, Deletions(id)) && !HasOpenTask(s, id)
    requires !a.Tick? && a.pid in s.procs ==> !Dangerous(RoleOf(s.procs[a.pid], id))
    ensures !HasOpenTask(Do(cfg, s, a), id)
  {
  }

  lemma OtherRoles(cfg: Config, s: State, a: Action, id: Id, p: Pid)
    requires Enabled(cfg, s, a) && (a.Tick? || p != a.pid)
    ensures p in Roles(Do(cfg, s, a), id) ==> p in Roles(s, id) && Roles(Do(cfg, s, a), id)[p] == Roles(s, id)[p]
  {
    OnlyActorMoves(cfg, s, a, p);
  }

  lemma RowSpared(cfg: Config, s: State, a: Action, id: Id)
    requires id in s.store.rows && !Breaks(cfg, s, a, Deletions(id))
    ensures var s' := Apply(cfg, s, a); id in s'.store.rows && s'.store.rows[id] == s.store.rows[id]
  {
  }

  lemma CalmStep(cfg: Config, s: State, a: Action, id: Id, but: set<Pid>)
    requires id in s.store.blobs && !AtRisk(s, id, but) && !Breaks(cfg, s, a, Deletions(id))
    requires a.Tick? || a.pid !in but
    ensures
      var s' := Apply(cfg, s, a);
      && id in s'.store.blobs && s'.store.blobs[id] == s.store.blobs[id]
      && !AtRisk(s', id, but)
  {
    Safety.BlobsChangeByRole(cfg, s, a, id);
    if Enabled(cfg, s, a) {
      assert !a.Tick? && a.pid in s.procs ==> Roles(s, id)[a.pid] == RoleOf(s.procs[a.pid], id);
      var s' := Do(cfg, s, a);
      forall p | p in Roles(s', id) && p !in but ensures !Dangerous(Roles(s', id)[p]) {
        if a.Tick? || p != a.pid {
          OtherRoles(cfg, s, a, id, p);
        } else {
          RoleOfActor(cfg, s, a, id);
        }
      }
      TaskStaysClosed(cfg, s, a, id);
    }
  }

  lemma {:induction false} CalmRun(cfg: Config, s: State, run: seq<Action>, id: Id)
    requires id in s.store.rows && id in s.store.blobs && !AtRisk(s, id, {}) && Avoids(cfg, s, run, Deletions(id))
    ensures
      var s' := After(cfg, s, run);
      && id in s'.store.rows && s'.store.rows[id] == s.store.rows[id]
      && id in s'.store.blobs && s'.store.blobs[id] == s.store.blobs[id]
      && !AtRisk(s', id, {})
  {
    if run != [] {
      CalmRun(cfg, s, run[..|run| - 1], id);
      RowSpared(cfg, After(cfg, s, run[..|run| - 1]), run[|run| - 1], id);
      CalmStep(cfg, After(cfg, s, run[..|run| - 1]), run[|run| - 1], id, {});
    }
  }

  // ----- At risk, they can be dropped -----------------------------------------------------

  predicate Keeps(s: State, s': State, who: set<Pid>) {
    forall p :: p in who && p in s.procs ==> p in s'.procs && s'.procs[p] == s.procs[p]
  }

  /** The blob of id is gone; its row, or that it has none, and the processes of who stay. */
  predicate Dropped(s: State, s': State, id: Id, who: set<Pid>) {
    id !in s'.store.blobs && Get(s'.store.rows, id) == Get(s.store.rows, id) && Keeps(s, s', who)
  }

  lemma RemoverDrops(cfg: Config, s: State, pid: Pid, id: Id, who: set<Pid>) returns (s': State)
    requires pid in Roles(s, id) && Roles(s, id)[pid].Remover? && pid !in who
    ensures Leads(cfg, s, s', Deletions(id)) && Dropped(s, s', id, who)
  {
    var a := RemoveBlob(pid, id, CleanDelete);
    s' := Apply(cfg, s, a);
    LeadsStep(cfg, s, a, Deletions(id));
  }

  lemma DeletingDrops(cfg: Config, s: State, pid: Pid, id: Id, who: set<Pid>) returns (s': State)
    requires WorkerIn(s, pid) && s.procs[pid].work == Deleting(id) && pid !in who
    ensures Leads(cfg, s, s', Deletions(id)) && Dropped(s, s', id, who)
  {
    var a := DeleteClaimed(pid, CleanDelete);
    s' := Apply(cfg, s, a);
    LeadsStep(cfg, s, a, Deletions(id));
  }

  lemma CleanUpDrops(cfg: Config, s: State, pid: Pid, id: Id, who: set<Pid>) returns (s': State)
    requires pid in s.procs && s.procs[pid].Upload? && s.procs[pid].row.id == id && s.procs[pid].phase.CleaningUp? && pid !in who
    ensures Leads(cfg, s, s', Deletions(id)) && Dropped(s, s', id, who)
  {
    var a := CleanUp(pid, CleanDelete);
    s' := Apply(cfg, s, a);
    LeadsStep(cfg, s, a, Deletions(id));
  }

  lemma HolderDrops(cfg: Config, s: State, pid: Pid, id: Id, who: set<Pid>) returns (s': State)
    requires pid in Roles(s, id) && Roles(s, id)[pid].Holder? && pid !in who
    ensures Leads(cfg, s, s', Deletions(id)) && Dropped(s, s', id, who)
  {
    if s.procs[pid].phase.Inserting? {
      var a := InsertRow(pid, false);
      var s1 := Apply(cfg, s, a);
      LeadsStep(cfg, s, a, Deletions(id));
      s' := CleanUpDrops(cfg, s1, pid, id, who);
      LeadsFurther(cfg, s, s1, s', Deletions(id));
    } else {
      s' := CleanUpDrops(cfg, s, pid, id, who);
    }
  }

  /** From s, a new worker w has claimed the task of id; nothing else of id has changed. */
  predicate Assigned(s: State, s': State, w: Pid, id: Id) {
    && w !in s.procs && w in s'.procs && s'.procs[w] == Worker(Deleting(id))
    && Keeps(s, s', s.procs.Keys)
    && s'.store.rows == s.store.rows && s'.store.blobs == s.store.blobs
    && HasOpenTask(s', id)
  }

  lemma NewWorkerClaims(cfg: Config, s: State, id: Id, bar: Barred) returns (s': State, w: Pid)
    requires NextClaim(s.store, {}) == Some(id)
    ensures Leads(cfg, s, s', bar) && Assigned(s, s', w, id) && s'.store == AfterClaim(s.store, id)
  {
    w := FreshPid(s);
    var s1 := Apply(cfg, s, StartWorker(w));
    LeadsStep(cfg, s, StartWorker(w), bar);
    s' := Apply(cfg, s1, ClaimTask(w, {}, true));
    LeadsOn(cfg, s, s1, ClaimTask(w, {}, true), bar);
  }

  lemma OneFewerReady(s: Store, first: Id)
    requires NextClaim(s, {}) == Some(first)
    ensures ReadyIds(AfterClaim(s, first), {}) == ReadyIds(s, {}) - {first}
    ensures |ReadyIds(AfterClaim(s, first), {})| < |ReadyIds(s, {})|
  {
    assert ReadyIds(AfterClaim(s, first), {}) == ReadyIds(s, {}) - {first};
  }

  /** A task that is ready gets its worker, after others have claimed the tasks before it. */
  lemma {:induction false} ReadyTaskIsClaimed(cfg: Config, s: State, id: Id, bar: Barred) returns (s': State, w: Pid)
    requires id in ReadyIds(s.store, {})
    ensures Leads(cfg, s, s', bar) && Assigned(s, s', w, id)
    decreases |ReadyIds(s.store, {})|
  {
    var first := NextClaim(s.store, {}).value;
    s', w := NewWorkerClaims(cfg, s, first, bar);
    if first != id {
      OneFewerReady(s.store, first);
      var s1 := s';
      s', w := ReadyTaskIsClaimed(cfg, s1, id, bar);
      LeadsFurther(cfg, s, s1, s', bar);
    }
  }

  /** An open task, however young, gets its worker if nobody else gets in the way. */
  lemma OpenTaskIsClaimed(cfg: Config, s: State, id: Id, bar: Barred) returns (s': State, w: Pid)
    requires IdInv(s, id) && HasOpenTask(s, id)
    ensures Leads(cfg, s, s', bar) && Assigned(s, s', w, id)
  {
    var due := s.store.tasks[id].updatedAt + MAX_BACKOFF;
    var later := Tick(if s.store.now < due then due else s.store.now);
    var s1 := Apply(cfg, s, later);
    LeadsStep(cfg, s, later, bar);
    s', w := ReadyTaskIsClaimed(cfg, s1, id, bar);
    LeadsFurther(cfg, s, s1, s', bar);
  }

  lemma OpenTaskDrops(cfg: Config, s: State, id: Id, who: set<Pid>) returns (s': State)
    requires IdInv(s, id) && HasOpenTask(s, id) && who <= s.procs.Keys
    ensures Leads(cfg, s, s', Deletions(id)) && Dropped(s, s', id, who)
  {
    var s1, w := OpenTaskIsClaimed(cfg, s, id, Deletions(id));
    s' := DeletingDrops(cfg, s1, w, id, who);
    LeadsFurther(cfg, s, s1, s', Deletions(id));
  }

  lemma DeleterDrops(cfg: Config, s: State, pid: Pid, id: Id, who: set<Pid>) returns (s': State)
    requires IdInv(s, id) && pid in Roles(s, id) && Roles(s, id)[pid].Deleter? && pid !in who && who <= s.procs.Keys
    ensures Leads(cfg, s, s', Deletions(id)) && Dropped(s, s', id, who)
  {
    if s.procs[pid].work.Deleting? {
      s' := DeletingDrops(cfg, s, pid, id, who);
    } else {
      var a := RetryTask(pid, true);
      var s1 := Apply(cfg, s, a);
      RecordKeeps(cfg, s, a, id);
      LeadsStep(cfg, s, a, Deletions(id));
      s' := OpenTaskDrops(cfg, s1, id, who);
      LeadsFurther(cfg, s, s1, s', Deletions(id));
    }
  }

  lemma RiskDrops(cfg: Config, s: State, id: Id, who: set<Pid>) returns (s': State)
    requires IdInv(s, id) && AtRisk(s, id, who) && who <= s.procs.Keys
    ensures Leads(cfg, s, s', Deletions(id)) && Dropped(s, s', id, who)
  {
    if HasOpenTask(s, id) {
      s' := OpenTaskDrops(cfg, s, id, who);
    } else {
      var pid :| pid in Roles(s, id) && pid !in who && Dangerous(Roles(s, id)[pid]);
      match Roles(s, id)[pid] {
        case Remover => s' := RemoverDrops(cfg, s, pid, id, who);
        case Holder(_) => s' := HolderDrops(cfg, s, pid, id, who);
        case Deleter => s' := DeleterDrops(cfg, s, pid, id, who);
      }
    }
  }

  /** The owner deletes the row of id, if there is one, and stops before the blob. */
  lemma RowGoes(cfg: Config, s: State, id: Id, bar: Barred) returns (s': State)
    requires IdInv(s, id) && (bar.Nothing? || bar.NewUploads?)
    ensures Leads(cfg, s, s', bar) && IdInv(s', id) && Keeps(s, s', s.procs.Keys)
    ensures id !in s'.store.rows && s'.store.blobs == s.store.blobs && (id in s.store.rows ==> HasOpenTask(s', id))
  {
    if id in s.store.rows {
      var w := FreshPid(s);
      var user := s.store.rows[id].user;
      var a := StartDelete(w, user, One(id), true);
      s' := Apply(cfg, s, a);
      LeadsStep(cfg, s, a, bar);
      DeleteKeeps(s, w, user, One(id), true, id);
      assert id in Matching(s.store, user, One(id));
    } else {
      s' := s;
      LeadsHere(cfg, s, bar);
    }
  }

  // ----- When a row can lose its bytes ----------------------------------------------------

  /** Some continuation that does not delete the row of id ends without these bytes. */
  ghost predicate CanLose(cfg: Config, s: State, id: Id, bytes: Bytes) {
    exists s' :: Leads(cfg, s, s', Deletions(id)) && id in s'.store.rows && Get(s'.store.blobs, id) != Some(bytes)
  }

  /** In every reachable state a row can be without given bytes, its own for one, and without being
      deleted, exactly if it is already, its id has an open task, or a worker, a delete call or an
      upload is in the middle of the id. */
  lemma LosesItsBytesIff(cfg: Config, run: seq<Action>, id: Id, bytes: Bytes)
    requires id in After(cfg, INIT, run).store.rows
    ensures
      var s := After(cfg, INIT, run);
      CanLose(cfg, s, id, bytes) <==> Get(s.store.blobs, id) != Some(bytes) || AtRisk(s, id, {})
  {
    var s := After(cfg, INIT, run);
    IdAlways(cfg, run, id);
    if Get(s.store.blobs, id) != Some(bytes) {
      LeadsHere(cfg, s, Deletions(id));
    } else if AtRisk(s, id, {}) {
      var s' := RiskDrops(cfg, s, id, {});
      assert id in s'.store.rows && Get(s'.store.blobs, id) == None;
    } else if CanLose(cfg, s, id, bytes) {
      var s' :| Leads(cfg, s, s', Deletions(id)) && id in s'.store.rows && Get(s'.store.blobs, id) != Some(bytes);
      var more: seq<Action> :| Avoids(cfg, s, more, Deletions(id)) && After(cfg, s, more) == s';
      CalmRun(cfg, s, more, id);
    }
  }

  // ----- When a row can be created without its bytes --------------------------------------

  /** Some continuation that does not delete the row of id ends with upload pid having reported a
      creation while its bytes are gone or others are in their place. */
  ghost predicate GoesWrong(cfg: Config, s: State, pid: Pid, id: Id, content: Bytes) {
    exists s' ::
      Leads(cfg, s, s', Deletions(id)) && Safety.ReportsCreation(s', pid, id) && Get(s'.store.blobs, id) != Some(content)
  }

  /** Whatever happens before the INSERT of upload pid, deletes of an earlier row of id included, and
      with no delete of the row it creates: pid can report a creation without its bytes. */
  ghost predicate CanMiscreate(cfg: Config, s: State, pid: Pid, id: Id, content: Bytes) {
    exists s1 :: Leads(cfg, s, s1, Nothing) && UploadIn(s1, pid, Inserting) && GoesWrong(cfg, s1, pid, id, content)
  }

  /** The bytes of upload pid are in place, and nobody else can touch them. */
  ghost predicate Sound(s: State, pid: Pid, id: Id, content: Bytes) {
    Get(s.store.blobs, id) == Some(content) && !AtRisk(s, id, {pid})
  }

  /** Upload pid has created a row whose bytes are safe, is about to, or never will. */
  ghost predicate OnCourse(s: State, pid: Pid, id: Id, content: Bytes) {
    && pid in s.procs && s.procs[pid].Upload? && s.procs[pid].row.id == id && !s.procs[pid].phase.Putting?
    && (s.procs[pid].phase.Inserting? ==> id in s.store.rows || Sound(s, pid, id, content))
    && (Safety.ReportsCreation(s, pid, id) ==> Sound(s, pid, id, content))
  }

  /** The INSERT of pid changes neither blobs nor tasks nor other processes. */
  lemma InsertIsSound(cfg: Config, s: State, pid: Pid, ok: bool, id: Id, content: Bytes)
    requires UploadIn(s, pid, Inserting) && Sound(s, pid, id, content)
    ensures Sound(DoInsert(s, pid, ok), pid, id, content)
  {
    var s' := DoInsert(s, pid, ok);
    forall p | p in Roles(s', id) && p !in {pid} ensures !Dangerous(Roles(s', id)[p]) {
      assert Roles(s', id)[p] == Roles(s, id)[p];
    }
  }

  lemma OwnStep(cfg: Config, s: State, a: Action, pid: Pid, id: Id, content: Bytes)
    requires OnCourse(s, pid, id, content) && Enabled(cfg, s, a) && !a.Tick? && a.pid == pid
    ensures OnCourse(Do(cfg, s, a), pid, id, content)
  {
    if a.InsertRow? {
      if id !in s.store.rows {
        InsertIsSound(cfg, s, pid, a.ok, id, content);
      }
    } else {
      assert a.CleanUp? || a.LookUp?;
    }
  }

  lemma OtherStep(cfg: Config, s: State, a: Action, pid: Pid, id: Id, content: Bytes)
    requires OnCourse(s, pid, id, content) && Enabled(cfg, s, a) && (a.Tick? || a.pid != pid) && !Breaks(cfg, s, a, Deletions(id))
    ensures OnCourse(Do(cfg, s, a), pid, id, content)
  {
    OnlyActorMoves(cfg, s, a, pid);
    if Sound(s, pid, id, content) {
      CalmStep(cfg, s, a, id, {pid});
    }
    if id in s.store.rows {
      RowSpared(cfg, s, a, id);
    }
  }

  lemma {:induction false} OnCourseRun(cfg: Config, s: State, run: seq<Action>, pid: Pid, id: Id, content: Bytes)
    requires OnCourse(s, pid, id, content) && Avoids(cfg, s, run, Deletions(id))
    ensures OnCourse(After(cfg, s, run), pid, id, content)
  {
    if run != [] {
      OnCourseRun(cfg, s, run[..|run| - 1], pid, id, content);
      var s1, a := After(cfg, s, run[..|run| - 1]), run[|run| - 1];
      if Enabled(cfg, s1, a) {
        if a.Tick? || a.pid != pid {
          OtherStep(cfg, s1, a, pid, id, content);
        } else {
          OwnStep(cfg, s1, a, pid, id, content);
        }
      }
    }
  }

  /** An upload that still has to insert its row finds no row and its bytes safe, or has moved on. */
  ghost predicate Steady(s: State, pid: Pid, id: Id, content: Bytes) {
    && pid in s.procs && s.procs[pid].Upload? && s.procs[pid].row.id == id && !s.procs[pid].phase.Putting?
    && (s.procs[pid].phase.Inserting? ==> id !in s.store.rows && Sound(s, pid, id, content))
  }

  /** Only a process that has stored the bytes of id inserts a row for it. */
  lemma RowsAppearByHolder(cfg: Config, s: State, a: Action, id: Id)
    requires Enabled(cfg, s, a) && id !in s.store.rows && id in Do(cfg, s, a).store.rows
    ensures !a.Tick? && a.pid in Roles(s, id) && Roles(s, id)[a.pid].Holder?
  {
  }

  lemma SteadyStep(cfg: Config, s: State, a: Action, pid: Pid, id: Id, content: Bytes)
    requires Steady(s, pid, id, content) && Enabled(cfg, s, a)
    ensures Steady(Do(cfg, s, a), pid, id, content)
  {
    if a.Tick? || a.pid != pid {
      OnlyActorMoves(cfg, s, a, pid);
      if s.procs[pid].phase.Inserting? {
        CalmStep(cfg, s, a, id, {pid});
        if id in Do(cfg, s, a).store.rows {
          RowsAppearByHolder(cfg, s, a, id);
        }
      }
    } else {
      OwnPhase(cfg, s, a);
    }
  }

  /** Past its Put, an upload never comes back to its INSERT. */
  lemma OwnPhase(cfg: Config, s: State, a: Action)
    requires Enabled(cfg, s, a) && !a.Tick? && a.pid in s.procs && s.procs[a.pid].Upload? && !s.procs[a.pid].phase.Putting?
    ensures
      var s' := Do(cfg, s, a);
      && a.pid in s'.procs && s'.procs[a.pid].Upload? && s'.procs[a.pid].row == s.procs[a.pid].row
      && !s'.procs[a.pid].phase.Putting? && !s'.procs[a.pid].phase.Inserting?
  {
  }

  lemma {:induction false} SteadyRun(cfg: Config, s: State, run: seq<Action>, pid: Pid, id: Id, content: Bytes)
    requires Steady(s, pid, id, content)
    ensures Steady(After(cfg, s, run), pid, id, content)
  {
    if run != [] {
      SteadyRun(cfg, s, run[..|run| - 1], pid, id, content);
      var s1, a := After(cfg, s, run[..|run| - 1]), run[|run| - 1];
      if Enabled(cfg, s1, a) {
        SteadyStep(cfg, s1, a, pid, id, content);
      }
    }
  }

  /** The INSERT comes while the bytes are not in place. */
  lemma InsertsWrong(cfg: Config, s: State, s1: State, pid: Pid, id: Id, content: Bytes)
    requires Leads(cfg, s, s1, Nothing) && UploadIn(s1, pid, Inserting) && s1.procs[pid].row.id == id
    requires id !in s1.store.rows && Get(s1.store.blobs, id) != Some(content)
    ensures CanMiscreate(cfg, s, pid, id, content)
  {
    var a := InsertRow(pid, true);
    var s' := Apply(cfg, s1, a);
    LeadsStep(cfg, s1, a, Deletions(id));
    assert s' == DoInsert(s1, pid, true);
    assert Safety.ReportsCreation(s', pid, id) && Get(s'.store.blobs, id) != Some(content);
    assert GoesWrong(cfg, s1, pid, id, content);
  }

  lemma RiskMiscreates(cfg: Config, s: State, s1: State, pid: Pid, id: Id, content: Bytes)
    requires Leads(cfg, s, s1, Nothing) && IdInv(s1, id) && AtRisk(s1, id, {pid})
    requires UploadIn(s1, pid, Inserting) && s1.procs[pid].row.id == id && id !in s1.store.rows
    ensures CanMiscreate(cfg, s, pid, id, content)
  {
    var s2 := RiskDrops(cfg, s1, id, {pid});
    LeadsFreely(cfg, s1, s2, Deletions(id));
    LeadsFurther(cfg, s, s1, s2, Nothing);
    assert Get(s1.store.rows, id) == None && Get(s2.store.blobs, id) == None;
    InsertsWrong(cfg, s, s2, pid, id, content);
  }

  /** In every reachable state, an upload that is about to insert its row can end as a creation
      without its bytes exactly if the id has a row, which its owner may delete first, the bytes are
      gone or replaced already, the id has an open task, or another process is in the middle of it. */
  lemma MiscreatesIff(cfg: Config, run: seq<Action>, pid: Pid)
    requires UploadIn(After(cfg, INIT, run), pid, Inserting)
    ensures
      var s := After(cfg, INIT, run);
      var id, content := s.procs[pid].row.id, s.procs[pid].content;
      CanMiscreate(cfg, s, pid, id, content)
      <==> id in s.store.rows || Get(s.store.blobs, id) != Some(content) || AtRisk(s, id, {pid})
  {
    var s := After(cfg, INIT, run);
    var id, content := s.procs[pid].row.id, s.procs[pid].content;
    IdAlways(cfg, run, id);
    LeadsHere(cfg, s, Nothing);
    if id in s.store.rows {
      var s1 := RowGoes(cfg, s, id, Nothing);
      RiskMiscreates(cfg, s, s1, pid, id, content);
    } else if Get(s.store.blobs, id) != Some(content) {
      InsertsWrong(cfg, s, s, pid, id, content);
    } else if AtRisk(s, id, {pid}) {
      RiskMiscreates(cfg, s, s, pid, id, content);
    } else if CanMiscreate(cfg, s, pid, id, content) {
      var s1 :| Leads(cfg, s, s1, Nothing) && UploadIn(s1, pid, Inserting) && GoesWrong(cfg, s1, pid, id, content);
      SteadyNeverWrong(cfg, s, s1, pid, id, content);
    }
  }

  lemma SteadyNeverWrong(cfg: Config, s: State, s1: State, pid: Pid, id: Id, content: Bytes)
    requires Steady(s, pid, id, content) && Leads(cfg, s, s1, Nothing) && UploadIn(s1, pid, Inserting)
    ensures !GoesWrong(cfg, s1, pid, id, content)
  {
    var run: seq<Action> :| Avoids(cfg, s, run, Nothing) && After(cfg, s, run) == s1;
    SteadyRun(cfg, s, run, pid, id, content);
    if GoesWrong(cfg, s1, pid, id, content) {
      var s' :| Leads(cfg, s1, s', Deletions(id)) && Safety.ReportsCreation(s', pid, id) && Get(s'.store.blobs, id) != Some(content);
      var more: seq<Action> :| Avoids(cfg, s1, more, Deletions(id)) && After(cfg, s1, more) == s';
      OnCourseRun(cfg, s1, more, pid, id, content);
    }
  }

  // ----- When bytes can be left behind ----------------------------------------------------

  /** The blob of id is stored, and neither a row nor an open task refers to it. */
  predicate Leaked(s: State, id: Id) {
    id in s.store.blobs && !Sequential.Covered(s.store, id)
  }

  /** Some continuation, without another upload of id, ends with its blob leaked. */
  ghost predicate CanLeak(cfg: Config, s: State, id: Id) {
    exists s' :: Leads(cfg, s, s', NewUploads(id)) && Leaked(s', id)
  }

  /** An upload of id that has yet to store its bytes. */
  predicate Storing(p: Process, id: Id) {
    p.Upload? && p.row.id == id && p.phase.Putting?
  }

  predicate AboutToPut(s: State, id: Id) {
    exists pid :: pid in s.procs && Storing(s.procs[pid], id)
  }

  /** A worker has deleted the blob of id and is about to record it. */
  ghost predicate StaleCompletion(s: State, id: Id) {
    exists pid :: pid in Roles(s, id) && Roles(s, id)[pid].Finisher?
  }

  /** As long as there is a blob it is covered and nobody is about to complete its task. */
  ghost predicate Watched(s: State, id: Id) {
    && !AboutToPut(s, id)
    && (id in s.store.blobs ==> Sequential.Covered(s.store, id) && !StaleCompletion(s, id))
  }

  lemma StoringActor(cfg: Config, s: State, a: Action, id: Id)
    requires Enabled(cfg, s, a) && !a.Tick? && !Breaks(cfg, s, a, NewUploads(id))
    requires a.pid in s.procs ==> !Storing(s.procs[a.pid], id)
    ensures
      var s' := Do(cfg, s, a);
      && (a.pid in s'.procs ==> !Storing(s'.procs[a.pid], id))
      && (id in s'.store.blobs ==> id in s.store.blobs)
  {
  }

  lemma FinisherOfActor(cfg: Config, s: State, a: Action, id: Id)
    requires Enabled(cfg, s, a) && !a.Tick? && id in Do(cfg, s, a).store.blobs
    requires a.pid in Roles(s, id) ==> !Roles(s, id)[a.pid].Finisher?
    ensures a.pid in Roles(Do(cfg, s, a), id) ==> !Roles(Do(cfg, s, a), id)[a.pid].Finisher?
  {
  }

  lemma CoverStays(cfg: Config, s: State, a: Action, id: Id)
    requires Enabled(cfg, s, a) && Sequential.Covered(s.store, id)
    requires !a.Tick? && a.pid in Roles(s, id) ==> !Roles(s, id)[a.pid].Finisher?
    ensures Sequential.Covered(Do(cfg, s, a).store, id)
  {
  }

  lemma NobodyStores(cfg: Config, s: State, a: Action, id: Id)
    requires Enabled(cfg, s, a) && !AboutToPut(s, id) && !Breaks(cfg, s, a, NewUploads(id))
    ensures !AboutToPut(Do(cfg, s, a), id)
    ensures id in Do(cfg, s, a).store.blobs ==> id in s.store.blobs
  {
    var s' := Do(cfg, s, a);
    forall p | p in s'.procs ensures !Storing(s'.procs[p], id) {
      if a.Tick? || p != a.pid {
        OnlyActorMoves(cfg, s, a, p);
      } else {
        StoringActor(cfg, s, a, id);
      }
    }
    if !a.Tick? {
      StoringActor(cfg, s, a, id);
    }
  }

  lemma WatchedStep(cfg: Config, s: State, a: Action, id: Id)
    requires Watched(s, id) && !Breaks(cfg, s, a, NewUploads(id))
    ensures Watched(Apply(cfg, s, a), id)
  {
    if Enabled(cfg, s, a) {
      var s' := Do(cfg, s, a);
      NobodyStores(cfg, s, a, id);
      if id in s'.store.blobs {
        CoverStays(cfg, s, a, id);
        forall p | p in Roles(s', id) ensures !Roles(s', id)[p].Finisher? {
          if a.Tick? || p != a.pid {
            OtherRoles(cfg, s, a, id, p);
          } else {
            FinisherOfActor(cfg, s, a, id);
          }
        }
      }
    }
  }

  lemma {:induction false} WatchedRun(cfg: Config, s: State, run: seq<Action>, id: Id)
    requires Watched(s, id) && Avoids(cfg, s, run, NewUploads(id))
    ensures Watched(After(cfg, s, run), id)
  {
    if run != [] {
      WatchedRun(cfg, s, run[..|run| - 1], id);
      WatchedStep(cfg, After(cfg, s, run[..|run| - 1]), run[|run| - 1], id);
    }
  }

  /** A completion of a deletion recorded while the blob is stored leaks it. */
  lemma CompletionLeaks(cfg: Config, s: State, s': State, pid: Pid, id: Id)
    requires Leads(cfg, s, s', NewUploads(id)) && WorkerIn(s', pid) && s'.procs[pid].work == Completing(id)
    requires id in s'.store.blobs && id !in s'.store.rows
    ensures CanLeak(cfg, s, id)
  {
    var a := CompleteTask(pid, true);
    LeadsOn(cfg, s, s', a, NewUploads(id));
    assert Leaked(Apply(cfg, s', a), id);
  }

  /** An upload that has yet to store its bytes can do so between a worker's delete of the blob
      and its record of it. */
  lemma StoringLeaks(cfg: Config, s: State, s1: State, pid: Pid, id: Id)
    requires Leads(cfg, s, s1, NewUploads(id)) && IdInv(s1, id) && id !in s1.store.rows
    requires pid in s1.procs && Storing(s1.procs[pid], id)
    ensures CanLeak(cfg, s, id)
  {
    var put := PutBlob(pid, CleanPut);
    if HasOpenTask(s1, id) {
      var s2, w := OpenTaskIsClaimed(cfg, s1, id, NewUploads(id));
      LeadsFurther(cfg, s, s1, s2, NewUploads(id));
      var s3 := Apply(cfg, s2, DeleteClaimed(w, CleanDelete));
      LeadsOn(cfg, s, s2, DeleteClaimed(w, CleanDelete), NewUploads(id));
      var s4 := Apply(cfg, s3, put);
      LeadsOn(cfg, s, s3, put, NewUploads(id));
      CompletionLeaks(cfg, s, s4, w, id);
    } else if id !in s1.store.blobs {
      LeadsOn(cfg, s, s1, put, NewUploads(id));
      assert Leaked(Apply(cfg, s1, put), id);
    } else {
      assert Leaked(s1, id);
    }
  }

  /** In every reachable state, the blob of id can be left without a row and an open task, with
      no further upload of id, exactly if it is already, an upload has yet to store its bytes, or
      there is a blob and a worker that deleted earlier bytes has yet to record it. */
  lemma LeaksIff(cfg: Config, run: seq<Action>, id: Id)
    ensures
      var s := After(cfg, INIT, run);
      CanLeak(cfg, s, id) <==> Leaked(s, id) || AboutToPut(s, id) || (id in s.store.blobs && StaleCompletion(s, id))
  {
    var s := After(cfg, INIT, run);
    IdAlways(cfg, run, id);
    if Watched(s, id) {
      if CanLeak(cfg, s, id) {
        var s' :| Leads(cfg, s, s', NewUploads(id)) && Leaked(s', id);
        var more: seq<Action> :| Avoids(cfg, s, more, NewUploads(id)) && After(cfg, s, more) == s';
        WatchedRun(cfg, s, more, id);
      }
    } else if Leaked(s, id) {
      LeadsHere(cfg, s, NewUploads(id));
    } else {
      var s1 := RowGoes(cfg, s, id, NewUploads(id));
      if AboutToPut(s, id) {
        var pid :| pid in s.procs && Storing(s.procs[pid], id);
        StoringLeaks(cfg, s, s1, pid, id);
      } else {
        var pid :| pid in Roles(s, id) && Roles(s, id)[pid].Finisher?;
        CompletionLeaks(cfg, s, s1, pid, id);
      }
    }
  }
}
