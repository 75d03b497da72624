/**
 * The single-writer lease of a data directory: every candidate process creates a file of its own, whose
 * name carries its pid, and then scans the directory; a live rival makes it give up, a dead one is deleted.
 *
 * Every file operation is one step, steps of any number of processes interleave, and a process can crash
 * between any two of them. Pids are reused after a crash; the random part of a file name is not.
 */
module BackendLease {
  import opened Wrappers

  type ProcId = nat

  /** A directory entry: a well-formed lease name, or anything else. */
  datatype Name = LeaseName(pid: nat, uuid: nat) | Unrecognised(text: string)

  datatype Phase =
    | Outside
    | Created
    | Scanning(todo: set<Name>)
    | Deleting(stale: Name, todo: set<Name>)
    | Holding
    | Quitting

  datatype Proc = Proc(pid: nat, alive: bool, phase: Phase, file: Option<Name>)

  datatype State = State(procs: map<ProcId, Proc>, files: set<Name>, used: set<nat>)

  datatype Event =
    | Start(p: ProcId, pid: nat)
    | CreateFile(p: ProcId, uuid: nat)
    | WriteFails(p: ProcId)
    | ReadDirectory(p: ProcId)
    | Check(p: ProcId, name: Name)
    | DeleteStale(p: ProcId)
    | DirectoryFails(p: ProcId)
    | Acquire(p: ProcId)
    | Release(p: ProcId)
    | RemoveOwn(p: ProcId)
    | Crash(p: ProcId)

  predicate Running(st: State, p: ProcId) {
    p in st.procs && st.procs[p].alive
  }

  predicate PidAlive(st: State, pid: nat) {
    exists p :: p in st.procs && st.procs[p].alive && st.procs[p].pid == pid
  }

  predicate Enabled(st: State, e: Event) {
    match e
    case Start(p, pid) => p !in st.procs && !PidAlive(st, pid)
    case CreateFile(p, uuid) => Running(st, p) && st.procs[p].phase.Outside? && uuid !in st.used
    case WriteFails(p) => Running(st, p) && st.procs[p].phase.Created?
    case ReadDirectory(p) => Running(st, p) && st.procs[p].phase.Created?
    case Check(p, name) => Running(st, p) && st.procs[p].phase.Scanning? && name in st.procs[p].phase.todo
    case DeleteStale(p) => Running(st, p) && st.procs[p].phase.Deleting?
    case DirectoryFails(p) => Running(st, p) && (st.procs[p].phase.Created? || st.procs[p].phase.Deleting?)
    case Acquire(p) => Running(st, p) && st.procs[p].phase == Scanning({})
    case Release(p) => Running(st, p) && st.procs[p].phase.Holding?
    case RemoveOwn(p) => Running(st, p) && st.procs[p].phase.Quitting? && st.procs[p].file.Some?
    case Crash(p) => Running(st, p)
  }

  function Become(st: State, p: ProcId, phase: Phase): State
    requires p in st.procs
  {
    st.(procs := st.procs[p := st.procs[p].(phase := phase)])
  }

  function Step(st: State, e: Event): State
    requires Enabled(st, e)
  {
    match e
    case Start(p, pid) => st.(procs := st.procs[p := Proc(pid, true, Outside, None)])
    case CreateFile(p, uuid) =>
      var name := LeaseName(st.procs[p].pid, uuid);
      State(st.procs[p := st.procs[p].(phase := Created, file := Some(name))], st.files + {name}, st.used + {uuid})
    case WriteFails(p) => Become(st, p, Quitting)
    case ReadDirectory(p) => Become(st, p, Scanning(set n | n in st.files && Some(n) != st.procs[p].file))
    case Check(p, name) =>
      if name.Unrecognised? || PidAlive(st, name.pid) then Become(st, p, Quitting)
      else Become(st, p, Deleting(name, st.procs[p].phase.todo - {name}))
    case DeleteStale(p) => Become(st, p, Scanning(st.procs[p].phase.todo)).(files := st.files - {st.procs[p].phase.stale})
    case DirectoryFails(p) => Become(st, p, Quitting)
    case Acquire(p) => Become(st, p, Holding)
    case Release(p) => Become(st, p, Quitting)
    case RemoveOwn(p) =>
      st.(procs := st.procs[p := st.procs[p].(phase := Outside, file := None)], files := st.files - {st.procs[p].file.value})
    case Crash(p) => st.(procs := st.procs[p := st.procs[p].(alive := false)])
  }

  ghost predicate Possible(st: State, run: seq<Event>)
    decreases |run|
  {
    run == [] || (Enabled(st, run[0]) && Possible(Step(st, run[0]), run[1..]))
  }

  function Run(st: State, run: seq<Event>): State
    requires Possible(st, run)
    decreases |run|
  {
    if run == [] then st else Run(Step(st, run[0]), run[1..])
  }

  // ---- mutual exclusion ----

  /** A live process between the creation of its file and its decision to give up or release. */
  predicate Candidate(st: State, p: ProcId) {
    Running(st, p) && !st.procs[p].phase.Outside? && !st.procs[p].phase.Quitting?
  }

  function Todo(ph: Phase): set<Name> {
    match ph
    case Scanning(todo) => todo
    case Deleting(_, todo) => todo
    case _ => {}
  }

  /** `p` has read the directory and has nothing left to do about the file of `q`. */
  predicate Passed(st: State, p: ProcId, q: ProcId) {
    && Candidate(st, p) && !st.procs[p].phase.Created?
    && Candidate(st, q) && st.procs[q].file.Some? && st.procs[q].file.value !in Todo(st.procs[p].phase)
  }

  ghost predicate PidsUnique(st: State) {
    forall p, q :: p != q && Running(st, p) && Running(st, q) ==> st.procs[p].pid != st.procs[q].pid
  }

  /** A live process outside its idle phase has its own file, under its own pid, in the directory. */
  ghost predicate OwnsFile(st: State, p: ProcId)
    requires p in st.procs
  {
    st.procs[p].phase.Outside? ||
    (&& st.procs[p].file.Some? && st.procs[p].file.value.LeaseName?
     && st.procs[p].file.value.pid == st.procs[p].pid && st.procs[p].file.value.uuid in st.used
     && st.procs[p].file.value in st.files)
  }

  /** What a live process is about to delete is no live process's file, now or later. */
  ghost predicate DeletesDead(st: State, p: ProcId)
    requires p in st.procs
  {
    st.procs[p].phase.Deleting? ==>
      && st.procs[p].phase.stale.LeaseName? && st.procs[p].phase.stale.uuid in st.used
      && forall q :: Running(st, q) && !st.procs[q].phase.Outside? ==> st.procs[q].file != Some(st.procs[p].phase.stale)
  }

  ghost predicate NamesUsed(st: State) {
    && (forall n :: n in st.files && n.LeaseName? ==> n.uuid in st.used)
    && (forall p, n :: p in st.procs && n in Todo(st.procs[p].phase) && n.LeaseName? ==> n.uuid in st.used)
  }

  /** Of any two candidates at most one has scanned past the other. */
  ghost predicate OnePasses(st: State) {
    forall p, q :: p != q && Passed(st, p, q) ==> !Passed(st, q, p)
  }

  ghost predicate Inv(st: State) {
    && PidsUnique(st)
    && NamesUsed(st)
    && (forall p :: Running(st, p) ==> OwnsFile(st, p) && DeletesDead(st, p))
    && OnePasses(st)
  }

  lemma StepKeepsPids(st: State, e: Event)
    requires Inv(st) && Enabled(st, e)
    ensures PidsUnique(Step(st, e))
  {
  }

  lemma StepKeepsNames(st: State, e: Event)
    requires Inv(st) && Enabled(st, e)
    ensures NamesUsed(Step(st, e))
  {
  }

  lemma StepKeepsOwnFile(st: State, e: Event, p: ProcId)
    requires Inv(st) && Enabled(st, e) && Running(Step(st, e), p)
    ensures OwnsFile(Step(st, e), p)
  {
    assert p in st.procs ==> Running(st, p) && OwnsFile(st, p);
    if e.DeleteStale? {
      assert DeletesDead(st, e.p);
    } else if e.RemoveOwn? && p != e.p && !st.procs[p].phase.Outside? {
      assert OwnsFile(st, e.p);
    }
  }

  lemma StepDeletesDead(st: State, e: Event, p: ProcId)
    requires Inv(st) && Enabled(st, e) && Running(Step(st, e), p)
    ensures DeletesDead(Step(st, e), p)
  {
    var st' := Step(st, e);
    if st'.procs[p].phase.Deleting? {
      if e.Check? && e.p == p {
        assert e.name in Todo(st.procs[p].phase);
      } else {
        assert Running(st, p) && DeletesDead(st, p);
      }
      var stale := st'.procs[p].phase.stale;
      forall q | Running(st', q) && !st'.procs[q].phase.Outside?
        ensures st'.procs[q].file != Some(stale)
      {
        assert Running(st, q);
        if e.Check? && e.p == p {
          assert OwnsFile(st, q);
        } else {
          assert DeletesDead(st, p);
        }
      }
    }
  }

  lemma StepKeepsOnePasses(st: State, e: Event)
    requires Inv(st) && Enabled(st, e)
    ensures OnePasses(Step(st, e))
  {
    var st' := Step(st, e);
    forall p, q | p != q && Passed(st', p, q)
      ensures !Passed(st', q, p)
    {
      if Passed(st', q, p) {
        assert OwnsFile(st, p) && OwnsFile(st, q);
        assert Passed(st, p, q) && Passed(st, q, p) by {
          assert Candidate(st, p) && Candidate(st, q);
        }
        assert false;
      }
    }
  }

  lemma StepKeepsInv(st: State, e: Event)
    requires Inv(st) && Enabled(st, e)
    ensures Inv(Step(st, e))
  {
    StepKeepsPids(st, e);
    StepKeepsNames(st, e);
    forall p | Running(Step(st, e), p)
      ensures OwnsFile(Step(st, e), p) && DeletesDead(Step(st, e), p)
    {
      StepKeepsOwnFile(st, e, p);
      StepDeletesDead(st, e, p);
    }
    StepKeepsOnePasses(st, e);
  }

  /** A directory left behind by earlier boots, with no process running. */
  ghost predicate Boot(st: State) {
    st.procs == map[] && forall n :: n in st.files && n.LeaseName? ==> n.uuid in st.used
  }

  predicate Holds(st: State, p: ProcId) {
    Running(st, p) && st.procs[p].phase.Holding?
  }

  /** Mutual exclusion: over all interleavings of any number of candidates, with crashes anywhere,
      releases, stale-file removal and pid reuse, no two live processes both hold the lease, and the
      holder's file is never deleted by another. */
  lemma {:induction false} AtMostOneHolder(st: State, run: seq<Event>)
    requires Inv(st) && Possible(st, run)
    ensures Inv(Run(st, run))
    ensures forall p, q :: Holds(Run(st, run), p) && Holds(Run(st, run), q) ==> p == q
    ensures forall p :: Holds(Run(st, run), p) ==>
              Run(st, run).procs[p].file.Some? && Run(st, run).procs[p].file.value in Run(st, run).files
    decreases |run|
  {
    if run == [] {
      forall p, q | Holds(st, p) && Holds(st, q)
        ensures p == q
      {
        assert OwnsFile(st, p) && OwnsFile(st, q);
        assert p != q ==> Passed(st, p, q) && Passed(st, q, p);
      }
      forall p | Holds(st, p)
        ensures st.procs[p].file.Some? && st.procs[p].file.value in st.files
      {
        assert OwnsFile(st, p);
      }
    } else {
      StepKeepsInv(st, run[0]);
      AtMostOneHolder(Step(st, run[0]), run[1..]);
    }
  }

  /** Hence from every boot on, whatever files earlier boots left behind. */
  lemma OneHolderSinceBoot(st: State, run: seq<Event>, p: ProcId, q: ProcId)
    requires Boot(st) && Possible(st, run) && Holds(Run(st, run), p)
    ensures Holds(Run(st, run), q) ==> p == q
    ensures Run(st, run).procs[p].file.Some? && Run(st, run).procs[p].file.value in Run(st, run).files
  {
    AtMostOneHolder(st, run);
  }

  /** What a check decides: an entry that is no lease, or whose process is alive, turns the candidate away; any
      other is deleted, and it alone. */
  lemma CheckDecides(st: State, p: ProcId, name: Name)
    requires Enabled(st, Check(p, name))
    ensures var s := Step(st, Check(p, name));
            && s.files == st.files
            && (s.procs[p].phase.Quitting? <==> name.Unrecognised? || exists q :: q in st.procs && st.procs[q].alive && st.procs[q].pid == name.pid)
            && (!s.procs[p].phase.Quitting? ==> Enabled(s, DeleteStale(p)) && Step(s, DeleteStale(p)).files == st.files - {name})
  {
  }

  /** Who was turned away, failed or releases leaves nothing behind: it can remove its own file, and only that one
      goes. A crash leaves the file to the next candidate. */
  lemma QuittingLeavesNothing(st: State, e: Event, p: ProcId)
    requires Inv(st) && Enabled(st, e) && (e == Release(p) || e == WriteFails(p) || e == DirectoryFails(p))
    ensures var own, s := st.procs[p].file, Step(st, e);
            && own.Some? && own.value in st.files && s.files == st.files && !Holds(s, p)
            && Enabled(s, RemoveOwn(p)) && Step(s, RemoveOwn(p)).files == st.files - {own.value}
            && Step(s, RemoveOwn(p)).procs[p].phase.Outside?
    ensures Step(st, Crash(p)).files == st.files && !Running(Step(st, Crash(p)), p)
  {
    assert OwnsFile(st, p);
  }

  // ---- progress ----

  /** No other live process stands behind any entry still to be checked. */
  ghost predicate OnlyStale(st: State, names: set<Name>) {
    forall n :: n in names ==> n.LeaseName? && !PidAlive(st, n.pid)
  }

  /** A candidate that is alone gets the lease: its own steps delete every stale entry and acquire. */
  lemma {:induction false} LoneCandidateAcquires(st: State, p: ProcId, todo: set<Name>) returns (run: seq<Event>)
    requires Running(st, p) && st.procs[p].phase == Scanning(todo) && OnlyStale(st, todo)
    ensures Possible(st, run)
    ensures Run(st, run) == Become(st, p, Holding).(files := st.files - todo)
    decreases |todo|
  {
    if todo == {} {
      run := [Acquire(p)];
      assert Possible(Step(st, run[0]), []);
      assert st.files - todo == st.files;
    } else {
      var n :| n in todo;
      var s1 := Step(st, Check(p, n));
      var s2 := Step(s1, DeleteStale(p));
      forall m | m in todo - {n}
        ensures m.LeaseName? && !PidAlive(s2, m.pid)
      {
        assert !PidAlive(st, m.pid);
      }
      var rest := LoneCandidateAcquires(s2, p, todo - {n});
      var tail := [DeleteStale(p)] + rest;
      run := [Check(p, n)] + tail;
      assert run[1..] == tail && tail[1..] == rest;
      assert s2.files - (todo - {n}) == st.files - todo;
      assert Become(s2, p, Holding).procs == Become(st, p, Holding).procs;
    }
  }

  /** A step of the candidate itself that does not fail. */
  predicate Own(e: Event, p: ProcId) {
    e == ReadDirectory(p) || (e.Check? && e.p == p) || e == DeleteStale(p) || e == Acquire(p)
  }

  /** The candidate has nothing left to do. */
  ghost predicate Completed(st: State, p: ProcId) {
    forall e :: Own(e, p) ==> !Enabled(st, e)
  }

  /** On its way alone: apart from its own file only stale files are left, and it still has them on its list. */
  ghost predicate Alone(st: State, p: ProcId, own: Name) {
    && Running(st, p) && st.procs[p].file == Some(own)
    && match st.procs[p].phase
       case Created => own in st.files && OnlyStale(st, st.files - {own})
       case Scanning(todo) => own !in todo && OnlyStale(st, todo) && st.files == todo + {own}
       case Deleting(stale, todo) => own !in todo && stale != own && stale !in todo && OnlyStale(st, todo) && st.files == todo + {own, stale}
       case Holding => st.files == {own}
       case _ => false
  }

  lemma StaleStays(st: State, st': State, names: set<Name>)
    requires OnlyStale(st, names) && forall q :: Running(st', q) ==> Running(st, q) && st'.procs[q].pid == st.procs[q].pid
    ensures OnlyStale(st', names)
  {
    forall n | n in names
      ensures n.LeaseName? && !PidAlive(st', n.pid)
    {
      assert !PidAlive(st, n.pid);
    }
  }

  lemma OwnStepStaysAlone(st: State, e: Event, p: ProcId, own: Name)
    requires Alone(st, p, own) && Own(e, p) && Enabled(st, e)
    ensures Alone(Step(st, e), p, own)
  {
    var st' := Step(st, e);
    match st.procs[p].phase
    case Created =>
      StaleStays(st, st', st.files - {own});
      assert (set n | n in st.files && Some(n) != Some(own)) == st.files - {own};
    case Scanning(todo) =>
      StaleStays(st, st', todo);
      if e.Check? {
        assert st.files == (todo - {e.name}) + {own, e.name};
      }
    case Deleting(stale, todo) =>
      StaleStays(st, st', todo);
      assert st.files - {stale} == todo + {own};
    case _ =>
  }

  lemma AloneGoesOn(st: State, p: ProcId, own: Name)
    requires Alone(st, p, own) && Completed(st, p)
    ensures st.procs[p].phase.Holding?
  {
    assert Own(ReadDirectory(p), p) && Own(DeleteStale(p), p) && Own(Acquire(p), p);
    if st.procs[p].phase.Scanning? && st.procs[p].phase.todo != {} {
      var n :| n in st.procs[p].phase.todo;
      assert Own(Check(p, n), p);
    }
  }

  lemma {:induction false} AloneToTheEnd(st: State, p: ProcId, own: Name, run: seq<Event>)
    requires Alone(st, p, own) && Possible(st, run) && forall i :: 0 <= i < |run| ==> Own(run[i], p)
    ensures Alone(Run(st, run), p, own)
    decreases |run|
  {
    if run != [] {
      OwnStepStaysAlone(st, run[0], p, own);
      AloneToTheEnd(Step(st, run[0]), p, own, run[1..]);
    }
  }

  /** Every undisturbed candidate gets the lease. From the creation of its file among stale ones only, each of
      its runs, in whatever order it checks them, stays on the way; and when it has nothing left to do it holds
      the lease and its file is the only one. */
  lemma LoneRunAcquires(st: State, p: ProcId, uuid: nat, run: seq<Event>)
    requires Enabled(st, CreateFile(p, uuid)) && OnlyStale(st, st.files)
    requires LeaseName(st.procs[p].pid, uuid) !in st.files
    requires Possible(Step(st, CreateFile(p, uuid)), run) && forall i :: 0 <= i < |run| ==> Own(run[i], p)
    ensures var own := LeaseName(st.procs[p].pid, uuid);
            var t := Run(Step(st, CreateFile(p, uuid)), run);
            && Alone(t, p, own)
            && (Completed(t, p) ==> t.procs[p].phase.Holding? && t.files == {own})
  {
    var own := LeaseName(st.procs[p].pid, uuid);
    var s := Step(st, CreateFile(p, uuid));
    StaleStays(st, s, st.files);
    assert s.files - {own} == st.files;
    AloneToTheEnd(s, p, own, run);
    if Completed(Run(s, run), p) {
      AloneGoesOn(Run(s, run), p, own);
    }
  }

  // ---- one candidate's code ----

  /** The lease directory as one process works on it while the others stand still. */
  class LeaseDirectory {
    var files: set<Name>

    /** Creates the caller's file, then walks the listing; `alive` answers the signal-0 probe. On success
        only the caller's file is left; on failure it is gone again and every entry it could not prove
        stale is untouched. */
    method AcquireLease(own: Name, listing: seq<Name>, alive: nat -> bool, legacyPresent: bool) returns (ok: bool)
      requires own !in files && (forall n :: n in listing <==> n in files + {own})
      modifies this
      ensures ok <==> !legacyPresent && forall n :: n in old(files) ==> n.LeaseName? && !alive(n.pid)
      ensures ok ==> files == {own}
      ensures !ok ==> own !in files && files <= old(files)
      ensures forall n :: n in old(files) && (n.Unrecognised? || alive(n.pid)) ==> n in files
    {
      if legacyPresent {
        return false;
      }
      files := files + {own};
      for i := 0 to |listing|
        invariant own in files && files <= old(files) + {own}
        invariant forall j :: 0 <= j < i && listing[j] != own ==>
                    listing[j].LeaseName? && !alive(listing[j].pid) && listing[j] !in files
        invariant forall n :: n in old(files) && (n.Unrecognised? || alive(n.pid)) ==> n in files
      {
        var candidate := listing[i];
        if candidate != own {
          if candidate.Unrecognised? || alive(candidate.pid) {
            files := files - {own};
            return false;
          }
          files := files - {candidate};
        }
      }
      return true;
    }
  }
}
