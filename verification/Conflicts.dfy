/** What an upload of an id that is taken is told, with uploads overlapping: the caller's own record
    if the row is there, and sometimes, between the Put and the INSERT of another upload, that the id
    is another user's although it is not. */
module Conflicts {
  import opened Domain
  import opened Stores
  import opened Protocol
  import opened Invariant
  import opened Continuations
  import Refinement
  import Reuse
  import Sequential

  /** Upload pid was refused because of a conflict, and no other user's row holds its id. */
  predicate Misreports(s: State, pid: Pid) {
    && UploadIn(s, pid, Finished(Refused(MediaIdConflict)))
    && !Sequential.ForeignRow(s.store, s.procs[pid].row.user, s.procs[pid].row.id)
  }

  /** A continuation without interference ends with the upload misreporting. */
  ghost predicate CanMisreport(cfg: Config, s: State, bar: Barred)
    requires bar.Interference?
  {
    exists s' :: Leads(cfg, s, s', bar) && Misreports(s', bar.pid)
  }

  /** Another upload of id has yet to store its bytes. */
  predicate OthersStore(s: State, pid: Pid, id: Id) {
    exists q :: q in s.procs && q != pid && Reuse.Storing(s.procs[q], id)
  }

  /** An upload of id has yet to insert its row. */
  predicate Inserts(p: Process, id: Id) {
    p.Upload? && p.row.id == id && p.phase.Inserting?
  }

  predicate OthersInsert(s: State, pid: Pid, id: Id) {
    exists q :: q in s.procs && q != pid && Inserts(s.procs[q], id)
  }

  /** pid is an upload of user with the client-supplied id. */
  predicate IsUpload(s: State, pid: Pid, id: Id, user: User) {
    && pid in s.procs && s.procs[pid].Upload? && s.procs[pid].row.id == id && s.procs[pid].row.user == user
    && s.procs[pid].clientSupplied
  }

  // ----- When it cannot happen ------------------------------------------------------------

  predicate RefusedForConflict(p: Process) {
    p.Upload? && p.phase == Finished(Refused(MediaIdConflict))
  }

  /** id has a live row, and if it is the user's own, pid was not refused for it. */
  predicate HasRow(s: State, pid: Pid, id: Id, user: User)
    requires pid in s.procs
  {
    && id in s.store.rows && s.store.rows[id].deletedAt.None?
    && (s.store.rows[id].user == user ==> !RefusedForConflict(s.procs[pid]))
  }

  /** pid is the next to store id, has stored it, or has ended without a conflict. */
  predicate Ahead(s: State, pid: Pid, id: Id)
    requires pid in s.procs && s.procs[pid].Upload?
  {
    var phase := s.procs[pid].phase;
    || (phase.Putting? && id !in s.store.blobs)
    || phase.Inserting?
    || phase == CleaningUp(false)
    || (phase.Finished? && phase.result != Refused(MediaIdConflict))
  }

  /** What keeps the report right if rows are not deleted: a row, or no way for another upload to
      get ahead. */
  ghost predicate Right(s: State, pid: Pid, id: Id, user: User) {
    && IsUpload(s, pid, id, user)
    && (if id in s.store.rows then HasRow(s, pid, id, user) else Ahead(s, pid, id) && !OthersStore(s, pid, id))
  }

  /** What keeps it right even if they are: no other upload that may store or insert, and no row
      before that of pid. */
  ghost predicate Alone(s: State, pid: Pid, id: Id, user: User) {
    && IsUpload(s, pid, id, user) && Ahead(s, pid, id)
    && !OthersStore(s, pid, id) && !OthersInsert(s, pid, id)
    && (s.procs[pid].phase.Putting? || s.procs[pid].phase.Inserting? ==> id !in s.store.rows)
  }

  /** The records of uploads are live. */
  ghost predicate LiveRecords(s: State) {
    forall p :: p in s.procs && s.procs[p].Upload? ==> s.procs[p].row.deletedAt.None?
  }

  lemma InvIsLive(cfg: Config, s: State)
    requires Inv(cfg, s)
    ensures LiveRecords(s)
  {
    forall p | p in s.procs && s.procs[p].Upload? ensures s.procs[p].row.deletedAt.None? {
      assert ProcessOk(cfg, s.procs[p]);
    }
  }

  lemma OwnStepWithRow(cfg: Config, s: State, a: Action, pid: Pid, id: Id, user: User)
    requires IsUpload(s, pid, id, user) && HasRow(s, pid, id, user)
    requires Enabled(cfg, s, a) && !a.Tick? && a.pid == pid && !Fails(a, pid)
    ensures IsUpload(Do(cfg, s, a), pid, id, user) && HasRow(Do(cfg, s, a), pid, id, user)
  {
  }

  lemma OwnStepAhead(cfg: Config, s: State, a: Action, pid: Pid, id: Id, user: User)
    requires IsUpload(s, pid, id, user) && Ahead(s, pid, id) && s.procs[pid].row.deletedAt.None?
    requires s.procs[pid].phase.Putting? || s.procs[pid].phase.Inserting? ==> id !in s.store.rows
    requires Enabled(cfg, s, a) && !a.Tick? && a.pid == pid && !Fails(a, pid)
    ensures
      var s' := Do(cfg, s, a);
      && IsUpload(s', pid, id, user) && Ahead(s', pid, id)
      && (s'.procs[pid].phase.Putting? || s'.procs[pid].phase.Inserting? ==> id !in s'.store.rows)
      && (id !in s.store.rows && id in s'.store.rows ==> s'.store.rows[id].deletedAt.None?)
  {
  }

  /** What others do to the row of id. */
  lemma OthersRow(cfg: Config, s: State, a: Action, pid: Pid, id: Id)
    requires Enabled(cfg, s, a) && (a.Tick? || a.pid != pid) && LiveRecords(s)
    ensures
      var s' := Do(cfg, s, a);
      && (id in s.store.rows && !Deletes(cfg, s, a, id) ==> id in s'.store.rows && s'.store.rows[id] == s.store.rows[id])
      && (id !in s.store.rows && id in s'.store.rows ==> s'.store.rows[id].deletedAt.None? && OthersInsert(s, pid, id))
  {
  }

  /** What others do to the blob of id. */
  lemma OthersBlob(cfg: Config, s: State, a: Action, pid: Pid, id: Id)
    requires Enabled(cfg, s, a) && (a.Tick? || a.pid != pid) && id !in s.store.blobs
    ensures id in Do(cfg, s, a).store.blobs ==> OthersStore(s, pid, id)
  {
  }

  lemma InsertingActor(cfg: Config, s: State, a: Action, id: Id)
    requires Enabled(cfg, s, a) && !a.Tick? && a.pid in Do(cfg, s, a).procs && Inserts(Do(cfg, s, a).procs[a.pid], id)
    ensures a.pid in s.procs && Reuse.Storing(s.procs[a.pid], id)
  {
  }

  lemma NobodyElseComes(cfg: Config, s: State, a: Action, pid: Pid, id: Id)
    requires Enabled(cfg, s, a) && !OthersStore(s, pid, id) && !Uploads(cfg, s, a, id)
    ensures !OthersStore(Do(cfg, s, a), pid, id)
    ensures !OthersInsert(s, pid, id) ==> !OthersInsert(Do(cfg, s, a), pid, id)
  {
    var s' := Do(cfg, s, a);
    forall q | q in s'.procs && q != pid
      ensures !Reuse.Storing(s'.procs[q], id)
      ensures Inserts(s'.procs[q], id) ==> q in s.procs && Inserts(s.procs[q], id)
    {
      if a.Tick? || q != a.pid {
        OnlyActorMoves(cfg, s, a, q);
      } else {
        Reuse.StoringActor(cfg, s, a, id);
        if Inserts(s'.procs[q], id) {
          InsertingActor(cfg, s, a, id);
        }
      }
    }
  }

  lemma RowKeepsItRight(cfg: Config, s: State, a: Action, pid: Pid, id: Id, user: User)
    requires IsUpload(s, pid, id, user) && HasRow(s, pid, id, user) && LiveRecords(s)
    requires Enabled(cfg, s, a) && !Fails(a, pid) && !Deletes(cfg, s, a, id)
    ensures IsUpload(Do(cfg, s, a), pid, id, user) && HasRow(Do(cfg, s, a), pid, id, user)
  {
    if a.Tick? || a.pid != pid {
      OnlyActorMoves(cfg, s, a, pid);
      OthersRow(cfg, s, a, pid, id);
    } else {
      OwnStepWithRow(cfg, s, a, pid, id, user);
    }
  }

  lemma RightStep(cfg: Config, s: State, a: Action, pid: Pid, id: Id, user: User)
    requires Right(s, pid, id, user) && LiveRecords(s) && Enabled(cfg, s, a)
    requires !Fails(a, pid) && !Deletes(cfg, s, a, id)
    requires id in s.store.rows || !Uploads(cfg, s, a, id)
    ensures Right(Do(cfg, s, a), pid, id, user)
  {
    if id in s.store.rows {
      RowKeepsItRight(cfg, s, a, pid, id, user);
    } else {
      NobodyElseComes(cfg, s, a, pid, id);
      if a.Tick? || a.pid != pid {
        OnlyActorMoves(cfg, s, a, pid);
        OthersRow(cfg, s, a, pid, id);
        if id !in s.store.blobs {
          OthersBlob(cfg, s, a, pid, id);
        }
      } else {
        OwnStepAhead(cfg, s, a, pid, id, user);
      }
    }
  }

  lemma AloneStep(cfg: Config, s: State, a: Action, pid: Pid, id: Id, user: User)
    requires Alone(s, pid, id, user) && LiveRecords(s) && Enabled(cfg, s, a) && !Fails(a, pid) && !Uploads(cfg, s, a, id)
    ensures Alone(Do(cfg, s, a), pid, id, user)
  {
    NobodyElseComes(cfg, s, a, pid, id);
    if a.Tick? || a.pid != pid {
      OnlyActorMoves(cfg, s, a, pid);
      OthersRow(cfg, s, a, pid, id);
      if id !in s.store.blobs {
        OthersBlob(cfg, s, a, pid, id);
      }
    } else {
      OwnStepAhead(cfg, s, a, pid, id, user);
    }
  }

  /** What the flags of the bar leave to hold along a continuation. */
  ghost predicate Safe(s: State, bar: Barred, user: User)
    requires bar.Interference?
  {
    if bar.deletes then Right(s, bar.pid, bar.id, user) && (bar.uploads || bar.id in s.store.rows)
    else bar.uploads && Alone(s, bar.pid, bar.id, user)
  }

  lemma {:induction false} SafeRun(cfg: Config, s: State, run: seq<Action>, bar: Barred, user: User)
    requires bar.Interference? && Inv(cfg, s) && Safe(s, bar, user) && Avoids(cfg, s, run, bar)
    ensures Safe(After(cfg, s, run), bar, user)
  {
    if run != [] {
      var s1, a := After(cfg, s, run[..|run| - 1]), run[|run| - 1];
      SafeRun(cfg, s, run[..|run| - 1], bar, user);
      RunKeeps(cfg, s, run[..|run| - 1]);
      InvIsLive(cfg, s1);
      if Enabled(cfg, s1, a) {
        if !bar.deletes {
          AloneStep(cfg, s1, a, bar.pid, bar.id, user);
        } else {
          RightStep(cfg, s1, a, bar.pid, bar.id, user);
          if bar.id in s1.store.rows {
            RowKeepsItRight(cfg, s1, a, bar.pid, bar.id, user);
          }
        }
      }
    }
  }

  lemma SafeNeverMisreports(cfg: Config, s: State, bar: Barred, user: User)
    requires bar.Interference? && Inv(cfg, s) && Safe(s, bar, user)
    ensures !CanMisreport(cfg, s, bar)
  {
    if CanMisreport(cfg, s, bar) {
      var s' :| Leads(cfg, s, s', bar) && Misreports(s', bar.pid);
      var run: seq<Action> :| Avoids(cfg, s, run, bar) && After(cfg, s, run) == s';
      SafeRun(cfg, s, run, bar, user);
    }
  }

  // ----- When it can ----------------------------------------------------------------------

  /** pid looks up its id and finds no row. */
  lemma FindsNoRow(cfg: Config, s: State, s1: State, bar: Barred)
    requires bar.Interference? && Leads(cfg, s, s1, bar) && UploadIn(s1, bar.pid, LookingUp)
    requires s1.procs[bar.pid].row.id == bar.id && bar.id !in s1.store.rows
    ensures CanMisreport(cfg, s, bar)
  {
    LeadsOn(cfg, s, s1, LookUp(bar.pid, true), bar);
    assert Misreports(Apply(cfg, s1, LookUp(bar.pid, true)), bar.pid);
  }

  /** pid finds the object and no row. */
  lemma FindsOnlyTheObject(cfg: Config, s: State, s1: State, bar: Barred, user: User)
    requires bar.Interference? && Leads(cfg, s, s1, bar) && IsUpload(s1, bar.pid, bar.id, user) && s1.procs[bar.pid].phase.Putting?
    requires bar.id in s1.store.blobs && bar.id !in s1.store.rows
    ensures CanMisreport(cfg, s, bar)
  {
    var put := PutBlob(bar.pid, CleanPut);
    var s2 := Apply(cfg, s1, put);
    LeadsOn(cfg, s, s1, put, bar);
    assert s2 == DoPut(s1, bar.pid, CleanPut);
    FindsNoRow(cfg, s, s2, bar);
  }

  /** Another upload stores its bytes first. */
  lemma Overtaken(cfg: Config, s: State, s1: State, bar: Barred, user: User)
    requires bar.Interference? && Leads(cfg, s, s1, bar) && IsUpload(s1, bar.pid, bar.id, user) && s1.procs[bar.pid].phase.Putting?
    requires bar.id !in s1.store.blobs && bar.id !in s1.store.rows && OthersStore(s1, bar.pid, bar.id)
    ensures CanMisreport(cfg, s, bar)
  {
    var q :| q in s1.procs && q != bar.pid && Reuse.Storing(s1.procs[q], bar.id);
    var put := PutBlob(q, CleanPut);
    var s2 := Apply(cfg, s1, put);
    LeadsOn(cfg, s, s1, put, bar);
    assert s2 == DoPut(s1, q, CleanPut);
    FindsOnlyTheObject(cfg, s, s2, bar, user);
  }

  /** The owner deletes the row of id. */
  lemma RowDeleted(cfg: Config, s: State, s1: State, bar: Barred) returns (s2: State)
    requires bar.Interference? && !bar.deletes && Leads(cfg, s, s1, bar) && bar.id in s1.store.rows
    ensures Leads(cfg, s, s2, bar) && Reuse.Keeps(s1, s2, s1.procs.Keys)
    ensures bar.id !in s2.store.rows && s2.store.blobs == s1.store.blobs
  {
    var w, user := Refinement.FreshPid(s1), s1.store.rows[bar.id].user;
    var a := StartDelete(w, user, One(bar.id), true);
    s2 := Apply(cfg, s1, a);
    LeadsOn(cfg, s, s1, a, bar);
    assert bar.id in Matching(s1.store, user, One(bar.id));
  }

  /** With a row and no object, pid stores its bytes, meets the row and cleans up. */
  lemma MeetsTheRow(cfg: Config, s: State, s1: State, bar: Barred, user: User) returns (s4: State)
    requires bar.Interference? && Leads(cfg, s, s1, bar) && IsUpload(s1, bar.pid, bar.id, user) && s1.procs[bar.pid].phase.Putting?
    requires bar.id !in s1.store.blobs && bar.id in s1.store.rows
    ensures Leads(cfg, s, s4, bar) && UploadIn(s4, bar.pid, LookingUp) && s4.procs[bar.pid].row.id == bar.id
    ensures bar.id in s4.store.rows
  {
    var put, insert, clean := PutBlob(bar.pid, CleanPut), InsertRow(bar.pid, true), CleanUp(bar.pid, CleanDelete);
    var s2 := Apply(cfg, s1, put);
    LeadsOn(cfg, s, s1, put, bar);
    assert s2 == DoPut(s1, bar.pid, CleanPut);
    var s3 := Apply(cfg, s2, insert);
    LeadsOn(cfg, s, s2, insert, bar);
    assert s3 == SetUpload(s2, bar.pid, CleaningUp(true));
    s4 := Apply(cfg, s3, clean);
    LeadsOn(cfg, s, s3, clean, bar);
    assert s4 == DoCleanUp(s3, bar.pid, CleanDelete);
  }

  /** The row that pid meets, or that goes with the object it meets, is deleted before it looks. */
  lemma RowGoesFirst(cfg: Config, s: State, s1: State, bar: Barred, user: User)
    requires bar.Interference? && !bar.deletes && Leads(cfg, s, s1, bar) && IsUpload(s1, bar.pid, bar.id, user)
    requires s1.procs[bar.pid].phase.Putting? && bar.id in s1.store.rows
    ensures CanMisreport(cfg, s, bar)
  {
    if bar.id in s1.store.blobs {
      var s2 := RowDeleted(cfg, s, s1, bar);
      FindsOnlyTheObject(cfg, s, s2, bar, user);
    } else {
      var s2 := MeetsTheRow(cfg, s, s1, bar, user);
      var s3 := RowDeleted(cfg, s, s2, bar);
      FindsNoRow(cfg, s, s3, bar);
    }
  }

  lemma OtherInsertsFirst(cfg: Config, s: State, bar: Barred, user: User)
    requires bar.Interference? && !bar.deletes && IsUpload(s, bar.pid, bar.id, user)
    requires s.procs[bar.pid].phase.Putting? && bar.id !in s.store.rows && OthersInsert(s, bar.pid, bar.id)
    ensures CanMisreport(cfg, s, bar)
  {
    var q :| q in s.procs && q != bar.pid && Inserts(s.procs[q], bar.id);
    var insert := InsertRow(q, true);
    LeadsStep(cfg, s, insert, bar);
    var s1 := Apply(cfg, s, insert);
    assert s1 == DoInsert(s, q, true);
    RowGoesFirst(cfg, s, s1, bar, user);
  }

  lemma AnotherComes(cfg: Config, s: State, bar: Barred, user: User, input: UploadInput, generated: Id, stamp: Time)
    requires bar.Interference? && !bar.uploads && IsUpload(s, bar.pid, bar.id, user)
    requires s.procs[bar.pid].phase.Putting? && bar.id !in s.store.rows && bar.id !in s.store.blobs
    requires var c := CheckUpload(cfg, input, generated, stamp); c.Accepted? && c.row.id == bar.id
    ensures CanMisreport(cfg, s, bar)
  {
    var q := Refinement.FreshPid(s);
    var start := StartUpload(q, input, generated, stamp);
    LeadsStep(cfg, s, start, bar);
    var s1 := Apply(cfg, s, start);
    assert q in s1.procs && q != bar.pid && Reuse.Storing(s1.procs[q], bar.id);
    Overtaken(cfg, s, s1, bar, user);
  }

  /** When pid, which has yet to store its bytes, can misreport. */
  predicate Misreportable(s: State, bar: Barred)
    requires bar.Interference?
  {
    if bar.deletes then
      bar.id !in s.store.rows && (!bar.uploads || bar.id in s.store.blobs || OthersStore(s, bar.pid, bar.id))
    else
      || !bar.uploads
      || bar.id in s.store.rows || bar.id in s.store.blobs
      || OthersStore(s, bar.pid, bar.id) || OthersInsert(s, bar.pid, bar.id)
  }

  lemma CanHappen(cfg: Config, s: State, bar: Barred, user: User, input: UploadInput, generated: Id, stamp: Time)
    requires bar.Interference? && IsUpload(s, bar.pid, bar.id, user) && s.procs[bar.pid].phase.Putting? && Misreportable(s, bar)
    requires !bar.uploads ==> var c := CheckUpload(cfg, input, generated, stamp); c.Accepted? && c.row.id == bar.id
    ensures CanMisreport(cfg, s, bar)
  {
    LeadsHere(cfg, s, bar);
    if bar.id in s.store.rows {
      RowGoesFirst(cfg, s, s, bar, user);
    } else if bar.id in s.store.blobs {
      FindsOnlyTheObject(cfg, s, s, bar, user);
    } else if OthersStore(s, bar.pid, bar.id) {
      Overtaken(cfg, s, s, bar, user);
    } else if !bar.uploads {
      AnotherComes(cfg, s, bar, user, input, generated, stamp);
    } else {
      OtherInsertsFirst(cfg, s, bar, user);
    }
  }

  /** In every reachable state, consider an upload with a client id that has yet to store its bytes,
      and whose Put and look-up succeed. It can be told that the id is another user's when no other
      user's row holds it exactly as follows.
      If nobody deletes the id: if it has no row, and its object is there, or another upload of it
      is under way or may be started that stores its bytes first.
      If it may be deleted: if its row or its object is there, or another upload of it is under way
      or may be started that stores its bytes or inserts its row first.
      The input stands for an upload that may be started; it is not needed if none may be. */
  lemma MisreportsIff(cfg: Config, run: seq<Action>, bar: Barred, input: UploadInput, generated: Id, stamp: Time)
    requires
      var s := After(cfg, INIT, run);
      && bar.Interference? && UploadIn(s, bar.pid, Putting) && s.procs[bar.pid].clientSupplied && s.procs[bar.pid].row.id == bar.id
    requires !bar.uploads ==> var c := CheckUpload(cfg, input, generated, stamp); c.Accepted? && c.row.id == bar.id
    ensures CanMisreport(cfg, After(cfg, INIT, run), bar) <==> Misreportable(After(cfg, INIT, run), bar)
  {
    var s := After(cfg, INIT, run);
    var user := s.procs[bar.pid].row.user;
    if Misreportable(s, bar) {
      CanHappen(cfg, s, bar, user, input, generated, stamp);
    } else {
      IdAlways(cfg, run, bar.id);
      ReachableInv(cfg, run);
      SafeNeverMisreports(cfg, s, bar, user);
    }
  }

  // ----- A retry of one's own upload ------------------------------------------------------

  /** The answer of the look-up: the caller's own live row, or the conflict. */
  lemma LookUpAnswers(cfg: Config, s: State, pid: Pid, ok: bool)
    requires UploadIn(s, pid, LookingUp)
    ensures
      var id, user, s' := s.procs[pid].row.id, s.procs[pid].row.user, Apply(cfg, s, LookUp(pid, ok));
      && s'.store == s.store
      && UploadIn(s', pid, Finished(
           if ok && id in s.store.rows && s.store.rows[id].user == user && s.store.rows[id].deletedAt.None?
           then Existing(s.store.rows[id])
           else Refused(MediaIdConflict)))
  {
  }

  /** The caller's row is there and pid is on its way to return it, or has. */
  predicate Replaying(s: State, pid: Pid, id: Id, row: Row) {
    && IsUpload(s, pid, id, row.user)
    && id in s.store.rows && s.store.rows[id] == row && row.deletedAt.None?
    && var phase := s.procs[pid].phase;
       phase in {Putting, Inserting, CleaningUp(true), LookingUp, Finished(Existing(row))}
  }

  lemma OwnReplayStep(cfg: Config, s: State, a: Action, pid: Pid, id: Id, row: Row)
    requires Replaying(s, pid, id, row) && Enabled(cfg, s, a) && !a.Tick? && a.pid == pid
    requires !Fails(a, pid) && a != InsertRow(pid, false)
    ensures Replaying(Do(cfg, s, a), pid, id, row)
  {
  }

  lemma {:induction false} ReplayRun(cfg: Config, s: State, run: seq<Action>, pid: Pid, id: Id, row: Row)
    requires Replaying(s, pid, id, row) && Avoids(cfg, s, run, Setbacks(id, pid))
    ensures Replaying(After(cfg, s, run), pid, id, row)
  {
    if run != [] {
      var s1, a := After(cfg, s, run[..|run| - 1]), run[|run| - 1];
      ReplayRun(cfg, s, run[..|run| - 1], pid, id, row);
      if Enabled(cfg, s1, a) {
        if a.Tick? || a.pid != pid {
          OnlyActorMoves(cfg, s1, a, pid);
          Reuse.RowSpared(cfg, s1, a, id);
        } else {
          OwnReplayStep(cfg, s1, a, pid, id, row);
        }
      }
    }
  }

  /** From every state in which the user's own row holds the id, reused or not, an upload of it with
      whatever file that has yet to store its bytes: along every continuation without setbacks, the
      only answer it can give is that row as existing, and the row stays. */
  lemma RetriesSucceed(cfg: Config, s: State, s': State, pid: Pid, result: UploadResult)
    requires UploadIn(s, pid, Putting) && s.procs[pid].clientSupplied
    requires FindRow(s.store, s.procs[pid].row.user, s.procs[pid].row.id).Some?
    requires Leads(cfg, s, s', Setbacks(s.procs[pid].row.id, pid)) && UploadIn(s', pid, Finished(result))
    ensures
      var id := s.procs[pid].row.id;
      && result == Existing(s.store.rows[id])
      && id in s'.store.rows && s'.store.rows[id] == s.store.rows[id]
  {
    var id := s.procs[pid].row.id;
    var run: seq<Action> :| Avoids(cfg, s, run, Setbacks(id, pid)) && After(cfg, s, run) == s';
    ReplayRun(cfg, s, run, pid, id, s.store.rows[id]);
  }

  lemma CleanRetryAnswers(s: Store, row: Row, content: Bytes)
    requires FindRow(s, row.user, row.id).Some?
    ensures Sequential.AnswerUpload(Sequential.CreateMedia(s, row, content, Sequential.CLEAN_UPLOAD), row, true, true)
            == Existing(s.rows[row.id])
  {
    Sequential.CreateReports(s, row, content, Sequential.CLEAN_UPLOAD);
  }

  /** And its own calls lead there. */
  lemma RetriesFinish(cfg: Config, s: State, pid: Pid)
    requires UploadIn(s, pid, Putting) && s.procs[pid].clientSupplied
    requires FindRow(s.store, s.procs[pid].row.user, s.procs[pid].row.id).Some?
    ensures
      var id := s.procs[pid].row.id;
      exists s' :: Leads(cfg, s, s', Setbacks(id, pid)) && UploadIn(s', pid, Finished(Existing(s.store.rows[id])))
  {
    var bar := Setbacks(s.procs[pid].row.id, pid);
    var put, insert, clean := PutBlob(pid, CleanPut), InsertRow(pid, true), CleanUp(pid, CleanDelete);
    var s1 := Apply(cfg, s, put);
    var s2 := Apply(cfg, s1, insert);
    var s3 := Apply(cfg, s2, clean);
    LeadsStep(cfg, s, put, bar);
    LeadsOn(cfg, s, s1, insert, bar);
    LeadsOn(cfg, s, s2, clean, bar);
    LeadsOn(cfg, s, s3, LookUp(pid, true), bar);
    Refinement.UploadIsFourSteps(cfg, s, pid, Sequential.CLEAN_UPLOAD);
    CleanRetryAnswers(s.store, s.procs[pid].row, s.procs[pid].content);
  }
}
