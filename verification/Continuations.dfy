/** Where the service can get from a state, by a continuation that avoids given actions. */
module Continuations {
  import opened Domain
  import opened Stores
  import opened Protocol
  import Refinement

  /** What a continuation is not to do. Interference with upload pid of an id is a Put or look-up of
      pid that fails and, as far as the flags say, a delete of the row and a new upload of the id;
      a setback is a delete of the row or any of the calls of pid that decide its answer failing. */
  datatype Barred =
    | Nothing
    | Deletions(id: Id)
    | NewUploads(id: Id)
    | Interference(id: Id, pid: Pid, deletes: bool, uploads: bool)
    | Setbacks(id: Id, pid: Pid)

  predicate Deletes(cfg: Config, s: State, a: Action, id: Id) {
    Enabled(cfg, s, a) && a.StartDelete? && a.ok && id in Matching(s.store, a.user, a.target)
  }

  predicate Uploads(cfg: Config, s: State, a: Action, id: Id) {
    Enabled(cfg, s, a) && a.StartUpload? && CheckUpload(cfg, a.input, a.generated, a.stamp).row.id == id
  }

  predicate Fails(a: Action, pid: Pid) {
    (a.PutBlob? && a.pid == pid && !a.putFate.CleanPut?) || a == LookUp(pid, false)
  }

  predicate Breaks(cfg: Config, s: State, a: Action, bar: Barred) {
    match bar
    case Nothing => false
    case Deletions(id) => Deletes(cfg, s, a, id)
    case NewUploads(id) => Uploads(cfg, s, a, id)
    case Interference(id, pid, deletes, uploads) =>
      Fails(a, pid) || (deletes && Deletes(cfg, s, a, id)) || (uploads && Uploads(cfg, s, a, id))
    case Setbacks(id, pid) => Fails(a, pid) || a == InsertRow(pid, false) || Deletes(cfg, s, a, id)
  }

  ghost predicate Avoids(cfg: Config, s: State, run: seq<Action>, bar: Barred) {
    run == [] ||
    (Avoids(cfg, s, run[..|run| - 1], bar) && !Breaks(cfg, After(cfg, s, run[..|run| - 1]), run[|run| - 1], bar))
  }

  /** Some continuation of s that avoids what is barred ends in s'. */
  ghost predicate Leads(cfg: Config, s: State, s': State, bar: Barred) {
    exists run: seq<Action> :: Avoids(cfg, s, run, bar) && After(cfg, s, run) == s'
  }

  lemma LeadsHere(cfg: Config, s: State, bar: Barred)
    ensures Leads(cfg, s, s, bar)
  {
    assert Avoids(cfg, s, [], bar) && After(cfg, s, []) == s;
  }

  lemma LeadsOn(cfg: Config, s: State, s': State, a: Action, bar: Barred)
    requires Leads(cfg, s, s', bar) && !Breaks(cfg, s', a, bar)
    ensures Leads(cfg, s, Apply(cfg, s', a), bar)
  {
    var run: seq<Action> :| Avoids(cfg, s, run, bar) && After(cfg, s, run) == s';
    Refinement.AfterOneMore(cfg, s, run, a);
    assert (run + [a])[..|run|] == run;
    assert Avoids(cfg, s, run + [a], bar);
  }

  lemma LeadsStep(cfg: Config, s: State, a: Action, bar: Barred)
    requires !Breaks(cfg, s, a, bar)
    ensures Leads(cfg, s, Apply(cfg, s, a), bar)
  {
    LeadsHere(cfg, s, bar);
    LeadsOn(cfg, s, s, a, bar);
  }

  lemma {:induction false} LeadsAlong(cfg: Config, s: State, mid: State, run: seq<Action>, bar: Barred)
    requires Leads(cfg, s, mid, bar) && Avoids(cfg, mid, run, bar)
    ensures Leads(cfg, s, After(cfg, mid, run), bar)
  {
    if run != [] {
      LeadsAlong(cfg, s, mid, run[..|run| - 1], bar);
      LeadsOn(cfg, s, After(cfg, mid, run[..|run| - 1]), run[|run| - 1], bar);
    }
  }

  lemma LeadsFurther(cfg: Config, s: State, mid: State, s': State, bar: Barred)
    requires Leads(cfg, s, mid, bar) && Leads(cfg, mid, s', bar)
    ensures Leads(cfg, s, s', bar)
  {
    var run: seq<Action> :| Avoids(cfg, mid, run, bar) && After(cfg, mid, run) == s';
    LeadsAlong(cfg, s, mid, run, bar);
  }

  lemma {:induction false} AvoidsNothing(cfg: Config, s: State, run: seq<Action>)
    ensures Avoids(cfg, s, run, Nothing)
  {
    if run != [] {
      AvoidsNothing(cfg, s, run[..|run| - 1]);
    }
  }

  lemma LeadsFreely(cfg: Config, s: State, s': State, bar: Barred)
    requires Leads(cfg, s, s', bar)
    ensures Leads(cfg, s, s', Nothing)
  {
    var run: seq<Action> :| Avoids(cfg, s, run, bar) && After(cfg, s, run) == s';
    AvoidsNothing(cfg, s, run);
  }
}
