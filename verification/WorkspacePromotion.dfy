/**
 * Promotion of an isolated checkout back onto its target workspace.
 *
 * A workspace is a flat map from relative path to (content hash, mode). Backups carry the promotion's
 * fresh id in their name, so they are kept in a map of their own, keyed by the path they back up.
 * Other writers ("rivals") act at named windows between two file operations, and at most one operation
 * of the promotion fails with an I/O error; both are inputs, so every lemma speaks about all of them.
 */
module WorkspacePromotion {
  import opened Wrappers

  type Path = string

  datatype Entry = Entry(hash: string, mode: int)

  type Tree = map<Path, Entry>

  function At(t: Tree, p: Path): Option<Entry> {
    if p in t then Some(t[p]) else None
  }

  /** A tree is determined by what it holds at every path. */
  lemma TreesEqual(a: Tree, b: Tree)
    requires forall p :: At(a, p) == At(b, p)
    ensures a == b
  {
    forall p | p in a.Keys + b.Keys
      ensures p in a && p in b && a[p] == b[p]
    {
      assert At(a, p) == At(b, p);
    }
  }

  // ---- change sets ----

  ghost predicate Changed(before: Tree, after: Tree, p: Path) {
    At(before, p) != At(after, p)
  }

  /** `paths` lists every path on which the trees differ, once each. */
  ghost predicate ListsChanges(paths: seq<Path>, before: Tree, after: Tree) {
    && (forall i, j :: 0 <= i < j < |paths| ==> paths[i] != paths[j])
    && (forall p :: p in paths <==> Changed(before, after, p))
  }

  /** `before` with the entries of `after` on the paths in `done`. */
  function Overlay(before: Tree, after: Tree, done: set<Path>): (r: Tree)
    ensures forall p :: At(r, p) == if p in done then At(after, p) else At(before, p)
  {
    map p | p in before.Keys + after.Keys && (if p in done then p in after else p in before) ::
      if p in done then after[p] else before[p]
  }

  /** Installing exactly the changed paths turns the baseline into the captured output. */
  lemma ChangesRebuildOutput(before: Tree, after: Tree, paths: seq<Path>)
    requires ListsChanges(paths, before, after)
    ensures Overlay(before, after, set p | p in paths) == after
  {
    var done := set p | p in paths;
    forall p
      ensures At(Overlay(before, after, done), p) == At(after, p)
    {
      assert p in done <==> Changed(before, after, p);
    }
    TreesEqual(Overlay(before, after, done), after);
  }

  // ---- the disk and its other writers ----

  /** `rival` is a history variable: the last value another writer gave each path it touched. */
  datatype Disk = Disk(files: Tree, backups: Tree, head: string, rival: map<Path, Option<Entry>>)

  /** What other writers do in one window: put or delete entries, or move HEAD. */
  datatype Edit = Edit(writes: map<Path, Option<Entry>>, head: Option<string>)

  function Write(t: Tree, w: map<Path, Option<Entry>>): (r: Tree)
    ensures forall p :: At(r, p) == if p in w then w[p] else At(t, p)
  {
    map p | p in t.Keys + w.Keys && (if p in w then w[p].Some? else p in t) ::
      if p in w then w[p].value else t[p]
  }

  function Interfere(d: Disk, e: Edit): Disk {
    d.(files := Write(d.files, e.writes),
       head := if e.head.Some? then e.head.value else d.head,
       rival := d.rival + e.writes)
  }

  predicate Idle(e: Edit) {
    e.writes == map[] && e.head == None
  }

  lemma IdleChangesNothing(d: Disk, e: Edit)
    requires Idle(e)
    ensures Interfere(d, e) == d
  {
    TreesEqual(Write(d.files, e.writes), d.files);
    assert d.rival + e.writes == d.rival;
  }

  /** The windows around one installation: before it, after the baseline check, after the backup. */
  datatype Windows = Windows(before: Edit, checked: Edit, displaced: Edit)

  // ---- installing one path ----

  datatype Failure = PromotionConflict | OtherFailure

  /** Where one installation can fail. `CopyLeaves` is the final exclusive copy and chmod: it may leave
      a partial entry at the target. */
  datatype Site =
    | Precheck
    | Rename
    | MovedRead
    | Hook
    | Staging(why: Failure)
    | CopyLeaves(left: Option<Entry>)

  datatype Step = Step(path: Path, backedUp: bool, fin: Option<Entry>)

  datatype Installed =
    | Done(d: Disk, step: Step)
    | Stopped(d: Disk, why: Failure)

  function Displace(d: Disk, p: Path): Disk
    requires p in d.files
  {
    d.(files := d.files - {p}, backups := d.backups[p := d.files[p]])
  }

  /** The catch branch of an installation: the backup goes home unless the target is occupied. */
  function GiveBack(d: Disk, p: Path, backedUp: bool): Disk {
    if backedUp && p in d.backups && p !in d.files
    then d.(files := d.files[p := d.backups[p]], backups := d.backups - {p})
    else d
  }

  function Create(d: Disk, p: Path, backedUp: bool, fin: Option<Entry>, fault: Option<Site>): Installed {
    if fin.None? then
      Done(d, Step(p, backedUp, None))
    else if fault.Some? && fault.value.Staging? then
      Stopped(GiveBack(d, p, backedUp), fault.value.why)
    else if p in d.files then
      Stopped(d, PromotionConflict)
    else if fault.Some? && fault.value.CopyLeaves? then
      var left := match fault.value.left
        case Some(e) => d.(files := d.files[p := e])
        case None => d;
      Stopped(GiveBack(left, p, backedUp), PromotionConflict)
    else
      Done(d.(files := d.files[p := fin.value]), Step(p, backedUp, fin))
  }

  function Install(d: Disk, p: Path, base: Option<Entry>, fin: Option<Entry>, w: Windows, fault: Option<Site>): Installed {
    var d1 := Interfere(d, w.before);
    if fault == Some(Precheck) then Stopped(d1, OtherFailure)
    else if At(d1.files, p) != base then Stopped(d1, PromotionConflict)
    else
      var d2 := Interfere(d1, w.checked);
      if base.None? then Create(d2, p, false, fin, fault) else Exchange(d2, p, base.value, fin, w.displaced, fault)
  }

  /** Installs over a baseline entry: it moves to its backup first, and back when something is wrong. */
  function Exchange(d: Disk, p: Path, base: Entry, fin: Option<Entry>, displaced: Edit, fault: Option<Site>): Installed {
    if fault == Some(Rename) || p !in d.files then Stopped(d, PromotionConflict)
    else
      var moved := Displace(d, p);
      if fault == Some(MovedRead) || moved.backups[p] != base then
        Stopped(GiveBack(moved, p, true), PromotionConflict)
      else
        var d' := Interfere(moved, displaced);
        if fault == Some(Hook) then Stopped(GiveBack(d', p, true), PromotionConflict)
        else Create(d', p, true, fin, fault)
  }

  // ---- rollback and cleanup ----

  function Undo(d: Disk, s: Step): Disk {
    if At(d.files, s.path) != s.fin then d
    else if s.backedUp && s.path in d.backups then
      d.(files := d.files[s.path := d.backups[s.path]], backups := d.backups - {s.path})
    else
      d.(files := d.files - {s.path})
  }

  function Rollback(d: Disk, steps: seq<Step>): Disk
    decreases |steps|
  {
    if steps == [] then d
    else Rollback(Undo(d, steps[|steps| - 1]), steps[..|steps| - 1])
  }

  /** Deletes the backups in order. `budget` is how many operations succeed before one fails; the last
      operation after the deletions is the state write. */
  datatype Finished = Finished(d: Disk, ok: bool)

  function Finish(d: Disk, steps: seq<Step>, budget: Option<nat>): Finished
    decreases |steps|
  {
    if steps == [] then Finished(d, budget != Some(0))
    else if !steps[0].backedUp then Finish(d, steps[1..], budget)
    else if budget == Some(0) then Finished(d, false)
    else Finish(d.(backups := d.backups - {steps[0].path}), steps[1..],
                if budget.Some? then Some(budget.value - 1) else None)
  }

  // ---- the whole promotion ----

  datatype ScopeState = ScopeActive | ScopeFenced | ScopePromoted | ScopeReleased

  datatype PromotionState = NotRequired | Pending | Applied | Conflict | Failed

  datatype ChangeSet = ChangeSet(paths: seq<Path>, output: Tree, state: PromotionState)

  datatype Request = Request(
    scope: ScopeState,
    tokenMatches: bool,
    isolated: bool,
    leaseOverlaps: bool,
    lockFree: bool,
    change: Option<ChangeSet>,
    baseline: Tree,
    baselineHead: string)

  datatype Fault =
    | NoFault
    | AtInstall(index: nat, site: Site)
    | AtFingerprint
    | AtFinish(op: nat)

  /** Everything the promotion meets while it runs: two reads of the checkout, other writers, a fault. */
  datatype Surroundings = Surroundings(
    checkoutNow: Tree,
    checkoutLater: Tree,
    checkpoint: Edit,
    windows: nat -> Windows,
    last: Edit,
    fault: Fault)

  datatype Refusal = ScopeNotFound | LeaseConflict | InvalidPolicy | LockHeld | ScopeIsFenced

  datatype Verdict = Refused(why: Refusal) | Returned | Raised

  datatype Outcome = Outcome(d: Disk, verdict: Verdict, scope: ScopeState, state: PromotionState)

  function SiteAt(f: Fault, i: nat): Option<Site> {
    if f.AtInstall? && f.index == i then Some(f.site) else None
  }

  datatype Progress = Progress(d: Disk, applied: seq<Step>, stopped: Option<Failure>)

  function InstallFrom(d: Disk, applied: seq<Step>, i: nat, paths: seq<Path>, base: Tree, s: Surroundings): Progress
    requires i <= |paths|
    decreases |paths| - i
  {
    if i == |paths| then Progress(d, applied, None)
    else
      match Install(d, paths[i], At(base, paths[i]), At(s.checkoutLater, paths[i]), s.windows(i), SiteAt(s.fault, i))
      case Done(d', step) => InstallFrom(d', applied + [step], i + 1, paths, base, s)
      case Stopped(d', why) => Progress(d', applied, Some(why))
  }

  function Abort(d: Disk, applied: seq<Step>, why: Failure): Outcome {
    var d' := Rollback(d, applied);
    if why == PromotionConflict then Outcome(d', Returned, ScopeFenced, Conflict)
    else Outcome(d', Raised, ScopeFenced, Failed)
  }

  predicate Occupied(d: Disk, paths: seq<Path>, base: Tree, final: Tree) {
    exists p :: p in paths && p !in base && p in final && p in d.files
  }

  /** Everything after the install loop: final fingerprint, backup removal, commit. */
  function Commit(g: Progress, output: Tree, head: string, s: Surroundings): Outcome {
    if g.stopped.Some? then Abort(g.d, g.applied, g.stopped.value)
    else
      var d := Interfere(g.d, s.last);
      if s.fault.AtFingerprint? then Abort(d, g.applied, OtherFailure)
      else if d.files != output || d.head != head then Abort(d, g.applied, PromotionConflict)
      else
        var f := Finish(d, g.applied, if s.fault.AtFinish? then Some(s.fault.op) else None);
        if f.ok then Outcome(f.d, Returned, ScopePromoted, Applied)
        else Abort(f.d, g.applied, OtherFailure)
  }

  function Promote(q: Request, s: Surroundings, d: Disk): Outcome {
    var state := if q.change.Some? then q.change.value.state else NotRequired;
    if q.scope.ScopeReleased? then Outcome(d, Refused(ScopeNotFound), q.scope, state)
    else if !q.tokenMatches then Outcome(d, Refused(LeaseConflict), q.scope, state)
    else if !q.isolated then Outcome(d, Refused(InvalidPolicy), q.scope, state)
    else if q.leaseOverlaps then Outcome(d, Refused(LeaseConflict), q.scope, state)
    else if !q.lockFree then Outcome(d, Refused(LockHeld), q.scope, state)
    else if q.change.None? then Outcome(d, Refused(ScopeNotFound), q.scope, state)
    else if state.Applied? || state.Conflict? || state.Failed? then Outcome(d, Returned, q.scope, state)
    else if q.scope.ScopeFenced? then Outcome(d, Refused(ScopeIsFenced), q.scope, state)
    else
      var c := q.change.value;
      if s.checkoutNow != c.output then Outcome(d, Returned, ScopeFenced, Failed)
      else if d.files != q.baseline || d.head != q.baselineHead then Outcome(d, Returned, ScopeFenced, Conflict)
      else
        var d1 := Interfere(d, s.checkpoint);
        if Occupied(d1, c.paths, q.baseline, s.checkoutLater) then Outcome(d1, Returned, ScopeFenced, Conflict)
        else Commit(InstallFrom(d1, [], 0, c.paths, q.baseline, s), c.output, q.baselineHead, s)
  }

  // ---- rivals: no other writer's entry is ever destroyed ----

  ghost predicate Foreign(d: Disk, p: Path, base: Tree, final: Tree) {
    && p in d.rival && d.rival[p].Some?
    && d.rival[p] != At(base, p) && d.rival[p] != At(final, p)
  }

  ghost predicate RivalsKept(d: Disk, base: Tree, final: Tree) {
    forall p :: Foreign(d, p, base, final) ==> At(d.files, p) == d.rival[p]
  }

  /** Each baseline entry is at its path or in its named backup, or its path holds what a rival put there. */
  ghost predicate BaselineKept(d: Disk, base: Tree) {
    forall p :: p in base ==>
      || At(d.files, p) == Some(base[p])
      || At(d.backups, p) == Some(base[p])
      || (p in d.rival && At(d.files, p) == d.rival[p])
  }

  ghost predicate StepsFit(steps: seq<Step>, base: Tree, final: Tree) {
    && (forall j :: 0 <= j < |steps| ==>
          steps[j].fin == At(final, steps[j].path) && (steps[j].backedUp <==> steps[j].path in base))
    && (forall i, j :: 0 <= i < j < |steps| ==> steps[i].path != steps[j].path)
  }

  ghost predicate Distinct(paths: seq<Path>) {
    forall i, j :: 0 <= i < j < |paths| ==> paths[i] != paths[j]
  }

  /** The paths handled by the first `i` installations. */
  ghost function Before(paths: seq<Path>, i: nat): set<Path>
    requires i <= |paths|
  {
    set j | 0 <= j < i :: paths[j]
  }

  lemma BeforeGrows(paths: seq<Path>, i: nat)
    requires i < |paths| && Distinct(paths)
    ensures Before(paths, i + 1) == Before(paths, i) + {paths[i]}
    ensures paths[i] !in Before(paths, i)
  {
  }

  /** A path no installation has reached holds what the baseline or the last rival put there. */
  ghost predicate Untouched(d: Disk, base: Tree, done: set<Path>) {
    forall p :: p !in done ==> At(d.files, p) == if p in d.rival then d.rival[p] else At(base, p)
  }

  /** Exactly the baseline entries of `moved` are in their backups. */
  ghost predicate BackupsHold(d: Disk, base: Tree, moved: set<Path>) {
    && (forall p :: p in d.backups <==> p in base && p in moved)
    && (forall p :: p in d.backups ==> d.backups[p] == base[p])
  }

  ghost predicate StepsFollow(steps: seq<Step>, i: nat, paths: seq<Path>) {
    && |steps| == i <= |paths|
    && (forall j :: 0 <= j < i ==> steps[j].path == paths[j])
  }

  /** The state after `i` installations. */
  ghost predicate InstallInv(d: Disk, steps: seq<Step>, i: nat, paths: seq<Path>, base: Tree, final: Tree) {
    && StepsFollow(steps, i, paths)
    && StepsFit(steps, base, final)
    && RivalsKept(d, base, final)
    && BackupsHold(d, base, Before(paths, i))
    && Untouched(d, base, Before(paths, i))
  }

  /** The state between the checks on `paths[i]` and its replacement. */
  ghost predicate MidInv(d: Disk, steps: seq<Step>, i: nat, paths: seq<Path>, base: Tree, final: Tree) {
    && i < |paths|
    && StepsFollow(steps, i, paths)
    && StepsFit(steps, base, final)
    && RivalsKept(d, base, final)
    && BackupsHold(d, base, Before(paths, i + 1))
    && Untouched(d, base, Before(paths, i + 1))
    && (paths[i] !in base ==> Untouched(d, base, Before(paths, i)))
  }

  /** What holds once the loop has stopped, wherever it stopped. */
  ghost predicate StopInv(d: Disk, steps: seq<Step>, base: Tree, final: Tree) {
    && StepsFit(steps, base, final)
    && RivalsKept(d, base, final)
    && (forall p :: p in d.backups ==> p in base && d.backups[p] == base[p])
    && (forall j :: 0 <= j < |steps| && steps[j].backedUp ==> steps[j].path in d.backups)
    && BaselineKept(d, base)
  }

  predicate HarmlessSite(site: Option<Site>) {
    !(site.Some? && site.value.CopyLeaves? && site.value.left.Some?)
  }

  lemma InterfereKeepsRivals(d: Disk, e: Edit, base: Tree, final: Tree)
    requires RivalsKept(d, base, final)
    ensures RivalsKept(Interfere(d, e), base, final)
  {
    var d' := Interfere(d, e);
    forall p | Foreign(d', p, base, final)
      ensures At(d'.files, p) == d'.rival[p]
    {
      assert p !in e.writes ==> Foreign(d, p, base, final);
    }
  }

  lemma InterfereKeepsUntouched(d: Disk, e: Edit, base: Tree, done: set<Path>)
    requires Untouched(d, base, done)
    ensures Untouched(Interfere(d, e), base, done)
  {
  }

  lemma InterfereKeepsInstallInv(d: Disk, e: Edit, steps: seq<Step>, i: nat, paths: seq<Path>, base: Tree, final: Tree)
    requires InstallInv(d, steps, i, paths, base, final)
    ensures InstallInv(Interfere(d, e), steps, i, paths, base, final)
  {
    InterfereKeepsRivals(d, e, base, final);
    InterfereKeepsUntouched(d, e, base, Before(paths, i));
  }

  lemma StoppedEarly(d: Disk, steps: seq<Step>, i: nat, paths: seq<Path>, base: Tree, final: Tree)
    requires InstallInv(d, steps, i, paths, base, final)
    ensures StopInv(d, steps, base, final)
  {
    assert BaselineKept(d, base);
    forall j | 0 <= j < |steps| && steps[j].backedUp
      ensures steps[j].path in d.backups
    {
      assert paths[j] in Before(paths, i);
    }
  }

  /** Before `paths[i]` is displaced nothing of it is lost; a path without baseline needs no backup. */
  lemma MidFromInstall(d: Disk, steps: seq<Step>, i: nat, paths: seq<Path>, base: Tree, final: Tree)
    requires InstallInv(d, steps, i, paths, base, final)
    requires i < |paths| && Distinct(paths) && paths[i] !in base
    ensures MidInv(d, steps, i, paths, base, final)
  {
    BeforeGrows(paths, i);
  }

  lemma MidFromDisplaced(d: Disk, steps: seq<Step>, i: nat, paths: seq<Path>, base: Tree, final: Tree, e: Edit)
    requires InstallInv(d, steps, i, paths, base, final)
    requires i < |paths| && Distinct(paths) && paths[i] in base && At(d.files, paths[i]) == Some(base[paths[i]])
    ensures MidInv(Interfere(Displace(d, paths[i]), e), steps, i, paths, base, final)
  {
    var p := paths[i];
    BeforeGrows(paths, i);
    var d3 := Displace(d, p);
    forall x | Foreign(d3, x, base, final)
      ensures At(d3.files, x) == d3.rival[x]
    {
      assert Foreign(d, x, base, final);
    }
    assert Untouched(d3, base, Before(paths, i + 1));
    InterfereKeepsRivals(d3, e, base, final);
    InterfereKeepsUntouched(d3, e, base, Before(paths, i + 1));
  }

  lemma MidSteps(d: Disk, steps: seq<Step>, i: nat, paths: seq<Path>, base: Tree, final: Tree)
    requires MidInv(d, steps, i, paths, base, final) && Distinct(paths)
    ensures forall j :: 0 <= j < |steps| ==> steps[j].path != paths[i]
    ensures forall j :: 0 <= j < |steps| && steps[j].backedUp ==> steps[j].path in d.backups
    ensures BaselineKept(d, base)
  {
    forall j | 0 <= j < |steps|
      ensures steps[j].path in Before(paths, i + 1)
    {
      assert steps[j].path == paths[j];
    }
  }

  /** Stopping between displacement and replacement, with the backup given back. */
  lemma MidStops(d: Disk, steps: seq<Step>, i: nat, paths: seq<Path>, base: Tree, final: Tree)
    requires MidInv(d, steps, i, paths, base, final) && Distinct(paths)
    ensures StopInv(d, steps, base, final)
    ensures StopInv(GiveBack(d, paths[i], paths[i] in base), steps, base, final)
  {
    MidSteps(d, steps, i, paths, base, final);
    var p := paths[i];
    var g := GiveBack(d, p, p in base);
    forall x | Foreign(g, x, base, final)
      ensures At(g.files, x) == g.rival[x]
    {
      assert Foreign(d, x, base, final);
    }
  }

  /** A failed final copy: whatever it leaves at the target, the baseline entry is back or in its backup. */
  lemma CopyStops(d: Disk, steps: seq<Step>, i: nat, paths: seq<Path>, base: Tree, final: Tree, left: Option<Entry>)
    requires MidInv(d, steps, i, paths, base, final) && Distinct(paths) && paths[i] !in d.files
    ensures var p := paths[i];
            var l := if left.Some? then d.(files := d.files[p := left.value]) else d;
            StopInv(GiveBack(l, p, p in base), steps, base, final)
  {
    MidStops(d, steps, i, paths, base, final);
    if left.Some? {
      MidSteps(d, steps, i, paths, base, final);
      var l := d.(files := d.files[paths[i] := left.value]);
      forall x | Foreign(l, x, base, final)
        ensures At(l.files, x) == l.rival[x]
      {
        assert Foreign(d, x, base, final);
      }
      PartialCopyKeepsBaseline(d, i, paths, base, left.value);
    }
  }

  /** A partial copy at the target hides no baseline entry: its own one was moved to the backup before. */
  lemma PartialCopyKeepsBaseline(d: Disk, i: nat, paths: seq<Path>, base: Tree, left: Entry)
    requires i < |paths| && BaselineKept(d, base) && BackupsHold(d, base, Before(paths, i + 1))
    ensures BaselineKept(d.(files := d.files[paths[i] := left]), base)
  {
    assert paths[i] in Before(paths, i + 1);
    assert paths[i] in base ==> At(d.backups, paths[i]) == Some(base[paths[i]]);
  }

  lemma StepAppended(steps: seq<Step>, i: nat, paths: seq<Path>, base: Tree, final: Tree)
    requires StepsFollow(steps, i, paths) && StepsFit(steps, base, final)
    requires i < |paths| && Distinct(paths)
    ensures var steps' := steps + [Step(paths[i], paths[i] in base, At(final, paths[i]))];
            StepsFollow(steps', i + 1, paths) && StepsFit(steps', base, final)
  {
  }

  lemma MidCompletes(d: Disk, steps: seq<Step>, i: nat, paths: seq<Path>, base: Tree, final: Tree)
    requires MidInv(d, steps, i, paths, base, final) && Distinct(paths)
    requires paths[i] in final ==> paths[i] !in d.files
    ensures var p := paths[i];
            var d' := if p in final then d.(files := d.files[p := final[p]]) else d;
            InstallInv(d', steps + [Step(p, p in base, At(final, p))], i + 1, paths, base, final)
  {
    var p := paths[i];
    StepAppended(steps, i, paths, base, final);
    BeforeGrows(paths, i);
    if p in final {
      var d' := d.(files := d.files[p := final[p]]);
      forall x | Foreign(d', x, base, final)
        ensures At(d'.files, x) == d'.rival[x]
      {
        assert Foreign(d, x, base, final);
      }
    }
  }

  lemma CreateKeepsInv(d: Disk, steps: seq<Step>, i: nat, paths: seq<Path>, base: Tree, final: Tree, fault: Option<Site>)
    requires MidInv(d, steps, i, paths, base, final) && Distinct(paths)
    ensures match Create(d, paths[i], paths[i] in base, At(final, paths[i]), fault)
            case Done(d', step) => InstallInv(d', steps + [step], i + 1, paths, base, final)
            case Stopped(d', _) => StopInv(d', steps, base, final)
  {
    var p := paths[i];
    if p !in final {
      MidCompletes(d, steps, i, paths, base, final);
    } else if fault.Some? && fault.value.Staging? {
      MidStops(d, steps, i, paths, base, final);
    } else if p in d.files {
      MidStops(d, steps, i, paths, base, final);
    } else if fault.Some? && fault.value.CopyLeaves? {
      CopyStops(d, steps, i, paths, base, final, fault.value.left);
    } else {
      MidCompletes(d, steps, i, paths, base, final);
    }
  }

  lemma DisplacedReturns(d: Disk, p: Path)
    requires p in d.files && p !in d.backups
    ensures GiveBack(Displace(d, p), p, true) == d
  {
    var g := GiveBack(Displace(d, p), p, true);
    TreesEqual(g.files, d.files);
    TreesEqual(g.backups, d.backups);
  }

  lemma ExchangeKeepsInv(d: Disk, steps: seq<Step>, i: nat, paths: seq<Path>, base: Tree, final: Tree, e: Edit, fault: Option<Site>)
    requires InstallInv(d, steps, i, paths, base, final) && StopInv(d, steps, base, final)
    requires i < |paths| && Distinct(paths) && paths[i] in base && paths[i] !in d.backups
    ensures match Exchange(d, paths[i], base[paths[i]], At(final, paths[i]), e, fault)
            case Done(d', step) => InstallInv(d', steps + [step], i + 1, paths, base, final)
            case Stopped(d', _) => StopInv(d', steps, base, final)
  {
    var p := paths[i];
    if fault != Some(Rename) && p in d.files {
      DisplacedReturns(d, p);
      if fault != Some(MovedRead) && d.files[p] == base[p] {
        var d' := Interfere(Displace(d, p), e);
        MidFromDisplaced(d, steps, i, paths, base, final, e);
        MidStops(d', steps, i, paths, base, final);
        CreateKeepsInv(d', steps, i, paths, base, final, fault);
      }
    }
  }

  /** One installation keeps the loop invariant, or stops in a state from which rollback is safe. */
  lemma InstallKeepsInv(d: Disk, steps: seq<Step>, i: nat, paths: seq<Path>, base: Tree, final: Tree, w: Windows, fault: Option<Site>)
    requires InstallInv(d, steps, i, paths, base, final)
    requires i < |paths| && Distinct(paths)
    ensures match Install(d, paths[i], At(base, paths[i]), At(final, paths[i]), w, fault)
            case Done(d', step) => InstallInv(d', steps + [step], i + 1, paths, base, final)
            case Stopped(d', _) => StopInv(d', steps, base, final)
  {
    var p := paths[i];
    BeforeGrows(paths, i);
    var d1 := Interfere(d, w.before);
    InterfereKeepsInstallInv(d, w.before, steps, i, paths, base, final);
    StoppedEarly(d1, steps, i, paths, base, final);
    if fault != Some(Precheck) && At(d1.files, p) == At(base, p) {
      var d2 := Interfere(d1, w.checked);
      InterfereKeepsInstallInv(d1, w.checked, steps, i, paths, base, final);
      StoppedEarly(d2, steps, i, paths, base, final);
      if p !in base {
        MidFromInstall(d2, steps, i, paths, base, final);
        CreateKeepsInv(d2, steps, i, paths, base, final, fault);
      } else {
        ExchangeKeepsInv(d2, steps, i, paths, base, final, w.displaced, fault);
      }
    }
  }

  lemma InstallFromKeepsInv(d: Disk, steps: seq<Step>, i: nat, paths: seq<Path>, base: Tree, s: Surroundings)
    requires InstallInv(d, steps, i, paths, base, s.checkoutLater) && Distinct(paths)
    ensures var g := InstallFrom(d, steps, i, paths, base, s);
            StopInv(g.d, g.applied, base, s.checkoutLater)
    ensures var g := InstallFrom(d, steps, i, paths, base, s);
            g.stopped.None? ==> InstallInv(g.d, g.applied, |paths|, paths, base, s.checkoutLater)
    decreases |paths| - i
  {
    if i == |paths| {
      StoppedEarly(d, steps, i, paths, base, s.checkoutLater);
    } else {
      var p := paths[i];
      InstallKeepsInv(d, steps, i, paths, base, s.checkoutLater, s.windows(i), SiteAt(s.fault, i));
      match Install(d, p, At(base, p), At(s.checkoutLater, p), s.windows(i), SiteAt(s.fault, i))
      case Done(d', step) => InstallFromKeepsInv(d', steps + [step], i + 1, paths, base, s);
      case Stopped(d', why) =>
    }
  }

  /** A fault that leaves the promotion all-or-nothing: no partial copy at a target, no backup deleted before
      a failure. */
  predicate Harmless(f: Fault) {
    && (f.AtInstall? ==> HarmlessSite(Some(f.site)))
    && (f.AtFinish? ==> f.op == 0)
  }

  lemma RollbackKeepsRivals(d: Disk, steps: seq<Step>, base: Tree, final: Tree)
    requires StepsFit(steps, base, final) && RivalsKept(d, base, final)
    ensures RivalsKept(Rollback(d, steps), base, final)
    ensures Rollback(d, steps).rival == d.rival && Rollback(d, steps).head == d.head
    decreases |steps|
  {
    if steps != [] {
      var last := steps[|steps| - 1];
      var d' := Undo(d, last);
      forall p | Foreign(d', p, base, final)
        ensures At(d'.files, p) == d'.rival[p]
      {
        assert Foreign(d, p, base, final);
      }
      RollbackKeepsRivals(d', steps[..|steps| - 1], base, final);
    }
  }

  lemma RollbackKeepsBaseline(d: Disk, steps: seq<Step>, base: Tree, final: Tree)
    requires StopInv(d, steps, base, final)
    ensures BaselineKept(Rollback(d, steps), base)
    decreases |steps|
  {
    if steps != [] {
      UndoKeepsStopInv(d, steps, base, final);
      RollbackKeepsBaseline(Undo(d, steps[|steps| - 1]), steps[..|steps| - 1], base, final);
    }
  }

  /** The rollback with other writers at work before each of its steps. */
  function RollbackAmid(d: Disk, steps: seq<Step>, edits: nat -> Edit): Disk
    decreases |steps|
  {
    if steps == [] then d
    else
      var n := |steps| - 1;
      RollbackAmid(Undo(Interfere(d, edits(n)), steps[n]), steps[..n], edits)
  }

  /** Rivals that write between two steps of the rollback keep what they wrote, and cost no baseline entry. */
  lemma RollbackAmidRivals(d: Disk, steps: seq<Step>, edits: nat -> Edit, base: Tree, final: Tree)
    requires StopInv(d, steps, base, final)
    ensures RivalsKept(RollbackAmid(d, steps, edits), base, final)
    ensures BaselineKept(RollbackAmid(d, steps, edits), base)
    decreases |steps|
  {
    if steps != [] {
      var n := |steps| - 1;
      InterfereKeepsStopInv(d, edits(n), steps, base, final);
      UndoKeepsStopInv(Interfere(d, edits(n)), steps, base, final);
      RollbackAmidRivals(Undo(Interfere(d, edits(n)), steps[n]), steps[..n], edits, base, final);
    }
  }

  lemma InterfereKeepsStopInv(d: Disk, e: Edit, steps: seq<Step>, base: Tree, final: Tree)
    requires StopInv(d, steps, base, final)
    ensures StopInv(Interfere(d, e), steps, base, final)
  {
    InterfereKeepsRivals(d, e, base, final);
  }

  lemma UndoKeepsRivals(d: Disk, step: Step, base: Tree, final: Tree)
    requires RivalsKept(d, base, final) && step.fin == At(final, step.path)
    ensures RivalsKept(Undo(d, step), base, final)
  {
    var d' := Undo(d, step);
    forall p | Foreign(d', p, base, final)
      ensures At(d'.files, p) == d'.rival[p]
    {
      assert Foreign(d, p, base, final);
    }
  }

  lemma UndoKeepsStopInv(d: Disk, steps: seq<Step>, base: Tree, final: Tree)
    requires StopInv(d, steps, base, final) && steps != []
    ensures StopInv(Undo(d, steps[|steps| - 1]), steps[..|steps| - 1], base, final)
  {
    UndoKeepsRivals(d, steps[|steps| - 1], base, final);
  }

  lemma FinishKeepsFiles(d: Disk, steps: seq<Step>, budget: Option<nat>)
    ensures var f := Finish(d, steps, budget);
            && f.d == d.(backups := f.d.backups)
            && (budget == Some(0) ==> f == Finished(d, false))
            && (forall p :: p in f.d.backups ==> p in d.backups && f.d.backups[p] == d.backups[p])
    decreases |steps|
  {
    if steps != [] {
      if !steps[0].backedUp {
        FinishKeepsFiles(d, steps[1..], budget);
      } else if budget != Some(0) {
        FinishKeepsFiles(d.(backups := d.backups - {steps[0].path}), steps[1..],
                         if budget.Some? then Some(budget.value - 1) else None);
      }
    }
  }

  /** This call committed the change set. */
  predicate JustApplied(o: Outcome) {
    o.verdict.Returned? && o.scope.ScopePromoted? && o.state.Applied?
  }

  lemma AbortKeeps(d: Disk, steps: seq<Step>, why: Failure, base: Tree, final: Tree)
    requires StopInv(d, steps, base, final)
    ensures var o := Abort(d, steps, why);
            && RivalsKept(o.d, base, final)
            && BaselineKept(o.d, base)
            && o.state != Applied
  {
    RollbackKeepsRivals(d, steps, base, final);
    RollbackKeepsBaseline(d, steps, base, final);
  }

  lemma FinishKeepsRivals(d: Disk, steps: seq<Step>, base: Tree, final: Tree, budget: Option<nat>)
    requires StopInv(d, steps, base, final)
    ensures RivalsKept(Finish(d, steps, budget).d, base, final)
    ensures RivalsKept(Abort(Finish(d, steps, budget).d, steps, OtherFailure).d, base, final)
    ensures budget == Some(0) ==> BaselineKept(Abort(Finish(d, steps, budget).d, steps, OtherFailure).d, base)
  {
    FinishKeepsFiles(d, steps, budget);
    var f := Finish(d, steps, budget);
    forall p | Foreign(f.d, p, base, final)
      ensures At(f.d.files, p) == f.d.rival[p]
    {
      assert Foreign(d, p, base, final);
    }
    RollbackKeepsRivals(f.d, steps, base, final);
    if budget == Some(0) { RollbackKeepsBaseline(d, steps, base, final); }
  }

  ghost predicate CommitKeeps(o: Outcome, base: Tree, output: Tree, head: string, s: Surroundings) {
    && RivalsKept(o.d, base, s.checkoutLater)
    && (o.state == Applied ==> JustApplied(o) && o.d.files == output && o.d.head == head)
    && (!LateFailure(s.fault) && o.state != Applied ==> BaselineKept(o.d, base))
  }

  lemma CommitKeepsRivals(g: Progress, base: Tree, output: Tree, head: string, s: Surroundings)
    requires StopInv(g.d, g.applied, base, s.checkoutLater)
    ensures CommitKeeps(Commit(g, output, head, s), base, output, head, s)
  {
    if g.stopped.Some? {
      AbortKeeps(g.d, g.applied, g.stopped.value, base, s.checkoutLater);
    } else {
      InterfereKeepsStopInv(g.d, s.last, g.applied, base, s.checkoutLater);
      CompletedKeepsRivals(g, base, output, head, s);
    }
  }

  lemma CompletedKeepsRivals(g: Progress, base: Tree, output: Tree, head: string, s: Surroundings)
    requires g.stopped.None? && StopInv(Interfere(g.d, s.last), g.applied, base, s.checkoutLater)
    ensures CommitKeeps(Commit(g, output, head, s), base, output, head, s)
  {
    var d := Interfere(g.d, s.last);
    if s.fault.AtFingerprint? {
      AbortKeeps(d, g.applied, OtherFailure, base, s.checkoutLater);
    } else if d.files != output || d.head != head {
      AbortKeeps(d, g.applied, PromotionConflict, base, s.checkoutLater);
    } else {
      FinishOrAbort(d, g.applied, base, s.checkoutLater, if s.fault.AtFinish? then Some(s.fault.op) else None);
    }
  }

  /** After the final check: the clean-up, and the rollback when it fails. */
  lemma FinishOrAbort(d: Disk, steps: seq<Step>, base: Tree, final: Tree, budget: Option<nat>)
    requires StopInv(d, steps, base, final)
    ensures var f := Finish(d, steps, budget);
            && RivalsKept(f.d, base, final) && f.d.files == d.files && f.d.head == d.head
            && RivalsKept(Abort(f.d, steps, OtherFailure).d, base, final)
            && (budget == Some(0) ==> BaselineKept(Abort(f.d, steps, OtherFailure).d, base))
            && (!f.ok ==> budget.Some?)
  {
    FinishKeepsFiles(d, steps, budget);
    FinishKeepsRivals(d, steps, base, final, budget);
    FinishFails(d, steps, budget);
  }

  lemma FinishFails(d: Disk, steps: seq<Step>, budget: Option<nat>)
    ensures !Finish(d, steps, budget).ok ==> budget.Some?
    decreases |steps|
  {
    if steps != [] {
      if !steps[0].backedUp {
        FinishFails(d, steps[1..], budget);
      } else if budget != Some(0) {
        FinishFails(d.(backups := d.backups - {steps[0].path}), steps[1..],
                    if budget.Some? then Some(budget.value - 1) else None);
      }
    }
  }

  /** An operation after the final check fails when at least one backup may already be deleted. */
  predicate LateFailure(f: Fault) {
    f.AtFinish? && f.op > 0
  }

  /**
   * Promotion never destroys a rival's edit. Whatever other writers do in the modelled windows (at the
   * checkpoint, before each installation, after its baseline check, after its backup, before the final
   * check) and wherever an operation fails: an entry put by another writer and different from baseline and
   * final is still at its path; if it also differs from the captured output the change set is not applied.
   * Unless clean-up or state write fails after a backup was deleted, a change set that is not applied costs
   * no baseline entry: each is at its path or in its backup, or a rival replaced it.
   */
  lemma PromotionNeverDestroysRivals(q: Request, s: Surroundings, d: Disk)
    requires d.backups == map[] && d.rival == map[]
    requires q.change.Some? ==> Distinct(q.change.value.paths)
    ensures var o := Promote(q, s, d);
            RivalsKept(o.d, d.files, s.checkoutLater)
    ensures var o := Promote(q, s, d);
            JustApplied(o) ==>
              forall p :: Foreign(o.d, p, d.files, s.checkoutLater) ==> o.d.rival[p] == At(q.change.value.output, p)
    ensures var o := Promote(q, s, d);
            !LateFailure(s.fault) && !JustApplied(o) ==> BaselineKept(o.d, d.files)
  {
    if Proceeds(q, s, d) {
      var c := q.change.value;
      var d1 := Interfere(d, s.checkpoint);
      assert InstallInv(d, [], 0, c.paths, d.files, s.checkoutLater);
      InterfereKeepsInstallInv(d, s.checkpoint, [], 0, c.paths, d.files, s.checkoutLater);
      StoppedEarly(d1, [], 0, c.paths, d.files, s.checkoutLater);
      if !Occupied(d1, c.paths, q.baseline, s.checkoutLater) {
        InstallFromKeepsInv(d1, [], 0, c.paths, d.files, s);
        CommitKeepsRivals(InstallFrom(d1, [], 0, c.paths, d.files, s), d.files, c.output, q.baselineHead, s);
      }
    }
  }

  /** Every guard in front of the first file operation passes. */
  predicate Proceeds(q: Request, s: Surroundings, d: Disk) {
    && !q.scope.ScopeReleased? && !q.scope.ScopeFenced?
    && q.tokenMatches && q.isolated && !q.leaseOverlaps && q.lockFree
    && q.change.Some? && (q.change.value.state.Pending? || q.change.value.state.NotRequired?)
    && s.checkoutNow == q.change.value.output
    && d.files == q.baseline && d.head == q.baselineHead
  }

  // ---- no rivals: all or nothing ----

  ghost predicate Quiet(s: Surroundings) {
    && Idle(s.checkpoint) && Idle(s.last)
    && forall i: nat :: Idle(s.windows(i).before) && Idle(s.windows(i).checked) && Idle(s.windows(i).displaced)
  }

  /** The disk after installing `done` undisturbed. */
  ghost function Halfway(d: Disk, final: Tree, done: set<Path>): Disk {
    Disk(Overlay(d.files, final, done), map p | p in d.files && p in done :: d.files[p], d.head, d.rival)
  }

  lemma HalfwayNone(d: Disk, final: Tree)
    requires d.backups == map[]
    ensures Halfway(d, final, {}) == d
  {
    TreesEqual(Overlay(d.files, final, {}), d.files);
  }

  lemma HalfwayExtends(d: Disk, final: Tree, done: set<Path>, p: Path)
    requires p !in done
    ensures var h, h' := Halfway(d, final, done), Halfway(d, final, done + {p});
            && h'.files == (if p in final then h.files[p := final[p]] else h.files - {p})
            && h'.backups == (if p in d.files then h.backups[p := d.files[p]] else h.backups)
            && h.files == (if p in d.files then h'.files[p := d.files[p]] else h'.files - {p})
            && h.backups == h'.backups - {p}
            && At(h.files, p) == At(d.files, p)
  {
    HalfwayFiles(d, final, done, p);
    HalfwayBackups(d, final, done, p);
  }

  lemma HalfwayFiles(d: Disk, final: Tree, done: set<Path>, p: Path)
    requires p !in done
    ensures var h, h' := Halfway(d, final, done), Halfway(d, final, done + {p});
            && h'.files == (if p in final then h.files[p := final[p]] else h.files - {p})
            && h.files == (if p in d.files then h'.files[p := d.files[p]] else h'.files - {p})
            && At(h.files, p) == At(d.files, p)
  {
    var h, h' := Halfway(d, final, done), Halfway(d, final, done + {p});
    TreesEqual(h'.files, if p in final then h.files[p := final[p]] else h.files - {p});
    TreesEqual(h.files, if p in d.files then h'.files[p := d.files[p]] else h'.files - {p});
    assert At(h.files, p) == At(d.files, p);
  }

  lemma HalfwayBackups(d: Disk, final: Tree, done: set<Path>, p: Path)
    requires p !in done
    ensures var h, h' := Halfway(d, final, done), Halfway(d, final, done + {p});
            && h'.backups == (if p in d.files then h.backups[p := d.files[p]] else h.backups)
            && h.backups == h'.backups - {p}
  {
    var h, h' := Halfway(d, final, done), Halfway(d, final, done + {p});
    TreesEqual(h'.backups, if p in d.files then h.backups[p := d.files[p]] else h.backups);
    TreesEqual(h.backups, h'.backups - {p});
  }

  /** The site of a fault is on the route of an installation. */
  predicate Reached(site: Site, base: Option<Entry>, fin: Option<Entry>) {
    match site
    case Precheck => true
    case Rename => base.Some?
    case MovedRead => base.Some?
    case Hook => base.Some?
    case Staging(_) => fin.Some?
    case CopyLeaves(_) => fin.Some?
  }

  /** Only a failing check, or staging that fails so, is reported as another failure than a conflict. */
  predicate FailsOtherwise(site: Site) {
    site.Precheck? || site == Staging(OtherFailure)
  }

  /** Undisturbed, an installation extends the overlay, or a reached fault stops it with nothing changed,
      save for what a failed copy leaves at the target. */
  ghost predicate InstallsQuietly(d: Disk, final: Tree, done: set<Path>, p: Path, r: Installed, fault: Option<Site>) {
    var h, h' := Halfway(d, final, done), Halfway(d, final, done + {p});
    if fault.Some? && Reached(fault.value, At(d.files, p), At(final, p)) then
      && r.Stopped? && (r.why.OtherFailure? <==> FailsOtherwise(fault.value))
      && (HarmlessSite(fault) ==> r.d == h)
      && (!HarmlessSite(fault) ==> r.d == h'.(files := h.files[p := fault.value.left.value]))
    else
      r == Done(h', Step(p, p in d.files, At(final, p)))
  }

  lemma QuietDisplaced(d: Disk, final: Tree, done: set<Path>, p: Path, fault: Option<Site>)
    requires p !in done && p in d.files
    requires fault.Some? ==> fault.value.Staging? || fault.value.CopyLeaves?
    ensures var h := Halfway(d, final, done);
            p in h.files && InstallsQuietly(d, final, done, p, Create(Displace(h, p), p, true, At(final, p), fault), fault)
  {
    var h := Halfway(d, final, done);
    HalfwayExtends(d, final, done, p);
    DisplacedReturns(h, p);
    if fault.Some? && fault.value.CopyLeaves? && fault.value.left.Some? {
      assert (h.files - {p})[p := fault.value.left.value] == h.files[p := fault.value.left.value];
    }
    if p in final {
      assert (h.files - {p})[p := final[p]] == h.files[p := final[p]];
    }
  }

  lemma QuietExchange(d: Disk, final: Tree, done: set<Path>, p: Path, e: Edit, fault: Option<Site>)
    requires p !in done && p in d.files && fault != Some(Precheck) && Idle(e)
    ensures InstallsQuietly(d, final, done, p, Exchange(Halfway(d, final, done), p, d.files[p], At(final, p), e, fault), fault)
  {
    var h := Halfway(d, final, done);
    HalfwayExtends(d, final, done, p);
    IdleChangesNothing(Displace(h, p), e);
    DisplacedReturns(h, p);
    if fault.None? || fault.value.Staging? || fault.value.CopyLeaves? {
      QuietDisplaced(d, final, done, p, fault);
    }
  }

  lemma QuietInstall(d: Disk, final: Tree, done: set<Path>, p: Path, w: Windows, fault: Option<Site>)
    requires p !in done
    requires Idle(w.before) && Idle(w.checked) && Idle(w.displaced)
    ensures InstallsQuietly(d, final, done, p,
                            Install(Halfway(d, final, done), p, At(d.files, p), At(final, p), w, fault), fault)
  {
    var h := Halfway(d, final, done);
    HalfwayExtends(d, final, done, p);
    IdleChangesNothing(h, w.before);
    IdleChangesNothing(h, w.checked);
    if p in d.files {
      if fault != Some(Precheck) {
        QuietExchange(d, final, done, p, w.displaced, fault);
      }
    } else if p !in final {
      assert h.files - {p} == h.files;
    }
  }

  ghost predicate StepsInstalled(steps: seq<Step>, i: nat, paths: seq<Path>, d: Disk, final: Tree) {
    && |steps| == i <= |paths|
    && forall j :: 0 <= j < i ==> steps[j] == Step(paths[j], paths[j] in d.files, At(final, paths[j]))
  }

  /** Rolling back an undisturbed half-way state gives the starting disk back, entry for entry. */
  lemma RollbackRestores(d: Disk, steps: seq<Step>, paths: seq<Path>, final: Tree)
    requires d.backups == map[] && Distinct(paths)
    requires StepsInstalled(steps, |steps|, paths, d, final)
    ensures Rollback(Halfway(d, final, Before(paths, |steps|)), steps) == d
    decreases |steps|
  {
    if steps == [] {
      assert Before(paths, 0) == {};
      HalfwayNone(d, final);
    } else {
      var n := |steps| - 1;
      BeforeGrows(paths, n);
      HalfwayExtends(d, final, Before(paths, n), paths[n]);
      var h := Halfway(d, final, Before(paths, n));
      var h' := Halfway(d, final, Before(paths, n + 1));
      assert At(h'.files, paths[n]) == At(final, paths[n]);
      assert paths[n] !in d.files ==> h'.backups - {paths[n]} == h'.backups;
      assert Undo(h', steps[n]) == h;
      RollbackRestores(d, steps[..n], paths, final);
    }
  }

  /** The fault of `s` strikes inside the install loop. */
  ghost predicate StopsInstall(s: Surroundings, paths: seq<Path>, base: Tree) {
    && s.fault.AtInstall? && s.fault.index < |paths|
    && Reached(s.fault.site, At(base, paths[s.fault.index]), At(s.checkoutLater, paths[s.fault.index]))
  }

  /** Where the install loop of an undisturbed run ends. */
  ghost predicate InstalledQuietly(g: Progress, s: Surroundings, d: Disk, paths: seq<Path>) {
    var n := if StopsInstall(s, paths, d.files) then s.fault.index else |paths|;
    && StepsInstalled(g.applied, n, paths, d, s.checkoutLater)
    && g.stopped.Some? == StopsInstall(s, paths, d.files)
    && (g.stopped.Some? ==> (g.stopped.value.OtherFailure? <==> FailsOtherwise(s.fault.site)))
    && (Harmless(s.fault) || g.stopped.None? ==> g.d == Halfway(d, s.checkoutLater, Before(paths, n)))
    && (g.stopped.Some? && !Harmless(s.fault) ==>
          && g.d.files == Halfway(d, s.checkoutLater, Before(paths, n)).files[paths[n] := s.fault.site.left.value]
          && g.d.backups == Halfway(d, s.checkoutLater, Before(paths, n + 1)).backups)
  }

  /** The fault strikes at path i. */
  ghost predicate StopsAt(s: Surroundings, paths: seq<Path>, base: Tree, i: nat) {
    StopsInstall(s, paths, base) && s.fault.index == i
  }

  lemma QuietStep(d: Disk, steps: seq<Step>, i: nat, paths: seq<Path>, s: Surroundings)
    requires Quiet(s) && Distinct(paths) && i < |paths| && !StopsAt(s, paths, d.files, i)
    ensures var step := Step(paths[i], paths[i] in d.files, At(s.checkoutLater, paths[i]));
            InstallFrom(Halfway(d, s.checkoutLater, Before(paths, i)), steps, i, paths, d.files, s)
            == InstallFrom(Halfway(d, s.checkoutLater, Before(paths, i + 1)), steps + [step], i + 1, paths, d.files, s)
  {
    BeforeGrows(paths, i);
    QuietInstall(d, s.checkoutLater, Before(paths, i), paths[i], s.windows(i), SiteAt(s.fault, i));
  }

  lemma QuietStop(d: Disk, steps: seq<Step>, i: nat, paths: seq<Path>, s: Surroundings)
    requires Quiet(s) && Distinct(paths) && i < |paths| && StopsAt(s, paths, d.files, i)
    requires StepsInstalled(steps, i, paths, d, s.checkoutLater)
    ensures InstalledQuietly(InstallFrom(Halfway(d, s.checkoutLater, Before(paths, i)), steps, i, paths, d.files, s), s, d, paths)
  {
    BeforeGrows(paths, i);
    QuietInstall(d, s.checkoutLater, Before(paths, i), paths[i], s.windows(i), SiteAt(s.fault, i));
  }

  lemma QuietInstallFrom(d: Disk, steps: seq<Step>, i: nat, paths: seq<Path>, s: Surroundings)
    requires Quiet(s) && d.backups == map[] && Distinct(paths)
    requires StepsInstalled(steps, i, paths, d, s.checkoutLater)
    requires StopsInstall(s, paths, d.files) ==> i <= s.fault.index
    ensures InstalledQuietly(InstallFrom(Halfway(d, s.checkoutLater, Before(paths, i)), steps, i, paths, d.files, s), s, d, paths)
    decreases |paths| - i
  {
    if i < |paths| {
      if StopsAt(s, paths, d.files, i) {
        QuietStop(d, steps, i, paths, s);
      } else {
        QuietStep(d, steps, i, paths, s);
        QuietInstallFrom(d, steps + [Step(paths[i], paths[i] in d.files, At(s.checkoutLater, paths[i]))], i + 1, paths, s);
      }
    }
  }

  /** The fault strikes and leaves the target neither old nor new: a partial copy at a path, or a failure after
      the first backup was deleted. */
  ghost predicate Harms(s: Surroundings, paths: seq<Path>, base: Tree) {
    || (StopsInstall(s, paths, base) && !HarmlessSite(Some(s.fault.site)))
    || (s.fault.AtFinish? && 0 < s.fault.op <= |set p | p in paths && p in base|)
  }

  ghost predicate AllOrNothing(o: Outcome, d: Disk, output: Tree) {
    if JustApplied(o) then o.d == d.(files := output) else o.d == d
  }

  /** The paths whose backups the cleanup deletes. */
  function BackedPaths(steps: seq<Step>): set<Path> {
    if steps == [] then {}
    else BackedPaths(steps[1..]) + if steps[0].backedUp then {steps[0].path} else {}
  }

  function Spend(budget: Option<nat>): Option<nat> {
    match budget
    case Some(n) => if n == 0 then Some(0) else Some(n - 1)
    case None => None
  }

  ghost predicate DistinctSteps(steps: seq<Step>) {
    forall i, j :: 0 <= i < j < |steps| ==> steps[i].path != steps[j].path
  }

  lemma BackedPathsGrow(steps: seq<Step>)
    requires steps != [] && DistinctSteps(steps) && steps[0].backedUp
    ensures DistinctSteps(steps[1..]) && steps[0].path !in BackedPaths(steps[1..])
    ensures |BackedPaths(steps)| == |BackedPaths(steps[1..])| + 1
  {
    BackedPathsSound(steps[1..]);
  }

  /** The cleanup succeeds exactly when none of its operations fails. */
  lemma FinishSucceeds(d: Disk, steps: seq<Step>, budget: Option<nat>)
    requires DistinctSteps(steps)
    ensures Finish(d, steps, budget).ok <==> !(budget.Some? && budget.value <= |BackedPaths(steps)|)
    decreases |steps|
  {
    if steps != [] {
      if !steps[0].backedUp {
        FinishSucceeds(d, steps[1..], budget);
      } else {
        BackedPathsGrow(steps);
        if budget != Some(0) {
          FinishSucceeds(d.(backups := d.backups - {steps[0].path}), steps[1..], Spend(budget));
        }
      }
    }
  }

  /** A successful cleanup leaves no backup of its steps. */
  lemma FinishClears(d: Disk, steps: seq<Step>, budget: Option<nat>)
    requires Finish(d, steps, budget).ok
    ensures Finish(d, steps, budget).d.backups.Keys == d.backups.Keys - BackedPaths(steps)
    decreases |steps|
  {
    if steps != [] {
      if !steps[0].backedUp {
        FinishClears(d, steps[1..], budget);
      } else {
        FinishClears(d.(backups := d.backups - {steps[0].path}), steps[1..], Spend(budget));
      }
    }
  }

  /** A cleanup that fails after its first operation has deleted a backup for good. */
  lemma FinishLoses(d: Disk, steps: seq<Step>, budget: Option<nat>)
    requires !Finish(d, steps, budget).ok && budget.Some? && budget.value > 0
    requires BackedPaths(steps) != {}
    ensures exists p :: p in BackedPaths(steps) && p !in Finish(d, steps, budget).d.backups
    decreases |steps|
  {
    if !steps[0].backedUp {
      FinishLoses(d, steps[1..], budget);
    } else {
      var d' := d.(backups := d.backups - {steps[0].path});
      FinishKeepsFiles(d', steps[1..], Spend(budget));
      assert steps[0].path in BackedPaths(steps);
      assert steps[0].path !in Finish(d', steps[1..], Spend(budget)).d.backups;
    }
  }

  ghost predicate BacksUp(steps: seq<Step>, p: Path) {
    exists j :: 0 <= j < |steps| && steps[j].path == p && steps[j].backedUp
  }

  lemma BackedPathsSound(steps: seq<Step>)
    ensures forall p :: p in BackedPaths(steps) <==> exists j :: 0 <= j < |steps| && steps[j].path == p && steps[j].backedUp
  {
    if steps != [] {
      BackedPathsSound(steps[1..]);
      forall p
        ensures p in BackedPaths(steps) <==> exists j :: 0 <= j < |steps| && steps[j].path == p && steps[j].backedUp
      {
        assert p in BackedPaths(steps[1..]) <==> BacksUp(steps[1..], p);
        BacksUpFirst(steps, p);
      }
    }
  }

  lemma BacksUpFirst(steps: seq<Step>, p: Path)
    requires steps != []
    ensures BacksUp(steps, p) <==> (steps[0].path == p && steps[0].backedUp) || BacksUp(steps[1..], p)
  {
    if BacksUp(steps[1..], p) {
      var j :| 0 <= j < |steps[1..]| && steps[1..][j].path == p && steps[1..][j].backedUp;
      assert steps[j + 1].path == p && steps[j + 1].backedUp;
    }
    if BacksUp(steps, p) {
      var j :| 0 <= j < |steps| && steps[j].path == p && steps[j].backedUp;
      assert j > 0 ==> steps[1..][j - 1].path == p && steps[1..][j - 1].backedUp;
    }
  }

  lemma InstalledBackups(steps: seq<Step>, paths: seq<Path>, d: Disk, final: Tree)
    requires StepsInstalled(steps, |paths|, paths, d, final)
    ensures BackedPaths(steps) == set p | p in paths && p in d.files
  {
    BackedPathsSound(steps);
    forall p | p in paths && p in d.files
      ensures p in BackedPaths(steps)
    {
      var j :| 0 <= j < |paths| && paths[j] == p;
      assert steps[j].path == p && steps[j].backedUp;
    }
  }

  /** Rollback touches only the paths of its steps. */
  lemma RollbackFrame(d: Disk, steps: seq<Step>, p: Path)
    requires forall j :: 0 <= j < |steps| ==> steps[j].path != p
    ensures At(Rollback(d, steps).files, p) == At(d.files, p)
    ensures At(Rollback(d, steps).backups, p) == At(d.backups, p)
    decreases |steps|
  {
    if steps != [] {
      RollbackFrame(Undo(d, steps[|steps| - 1]), steps[..|steps| - 1], p);
    }
  }

  /** An installed path whose backup is gone comes out of the rollback empty. */
  lemma RollbackLoses(d: Disk, steps: seq<Step>, j: nat)
    requires j < |steps| && (forall a, b :: 0 <= a < b < |steps| ==> steps[a].path != steps[b].path)
    requires steps[j].path !in d.backups && At(d.files, steps[j].path) == steps[j].fin
    ensures steps[j].path !in Rollback(d, steps).files
    decreases |steps|
  {
    var n := |steps| - 1;
    var d' := Undo(d, steps[n]);
    if j < n {
      RollbackLoses(d', steps[..n], j);
    } else {
      RollbackFrame(d', steps[..n], steps[n].path);
    }
  }

  /** The guards pass and the checkout still holds what was captured. */
  ghost predicate Ready(q: Request, s: Surroundings, d: Disk) {
    && Proceeds(q, s, d)
    && s.checkoutLater == q.change.value.output
    && ListsChanges(q.change.value.paths, q.baseline, q.change.value.output)
  }

  lemma QuietLoop(s: Surroundings, d: Disk, paths: seq<Path>)
    requires Quiet(s) && d.backups == map[] && Distinct(paths)
    ensures InstalledQuietly(InstallFrom(d, [], 0, paths, d.files, s), s, d, paths)
  {
    assert Before(paths, 0) == {};
    HalfwayNone(d, s.checkoutLater);
    QuietInstallFrom(d, [], 0, paths, s);
  }

  /** How an undisturbed run reaches its commit. */
  lemma QuietReachesCommit(q: Request, s: Surroundings, d: Disk)
    requires Quiet(s) && d.backups == map[] && Proceeds(q, s, d) && Distinct(q.change.value.paths)
    ensures var g := InstallFrom(d, [], 0, q.change.value.paths, q.baseline, s);
            && Promote(q, s, d) == Commit(g, q.change.value.output, q.baselineHead, s)
            && InstalledQuietly(g, s, d, q.change.value.paths)
            && Interfere(g.d, s.last) == g.d
  {
    IdleChangesNothing(d, s.checkpoint);
    QuietLoop(s, d, q.change.value.paths);
    IdleChangesNothing(InstallFrom(d, [], 0, q.change.value.paths, q.baseline, s).d, s.last);
  }

  /** The end of an undisturbed run whose install loop completed and whose fingerprint matched. */
  lemma QuietFinish(d: Disk, steps: seq<Step>, paths: seq<Path>, final: Tree, budget: Option<nat>)
    requires d.backups == map[] && Distinct(paths) && StepsInstalled(steps, |paths|, paths, d, final)
    requires budget.Some? ==> budget.value == 0 || budget.value > |set p | p in paths && p in d.files|
    ensures var h := Halfway(d, final, Before(paths, |paths|));
            var f := Finish(h, steps, budget);
            && (f.ok <==> budget != Some(0))
            && (if f.ok then f.d == h.(backups := map[]) else Rollback(f.d, steps) == d)
  {
    var h := Halfway(d, final, Before(paths, |paths|));
    InstalledBackups(steps, paths, d, final);
    FinishSucceeds(h, steps, budget);
    FinishKeepsFiles(h, steps, budget);
    if Finish(h, steps, budget).ok {
      FinishClears(h, steps, budget);
      assert Finish(h, steps, budget).d.backups.Keys == {};
      assert Finish(h, steps, budget).d.backups == map[];
    } else {
      RollbackRestores(d, steps, paths, final);
    }
  }

  lemma QuietCommit(q: Request, s: Surroundings, d: Disk)
    requires Quiet(s) && d.backups == map[] && Proceeds(q, s, d) && Distinct(q.change.value.paths)
    requires !Harms(s, q.change.value.paths, q.baseline)
    ensures AllOrNothing(Promote(q, s, d), d, q.change.value.output)
    ensures JustApplied(Promote(q, s, d)) <==>
              && !StopsInstall(s, q.change.value.paths, q.baseline) && !s.fault.AtFingerprint?
              && Overlay(q.baseline, s.checkoutLater, Before(q.change.value.paths, |q.change.value.paths|)) == q.change.value.output
              && !(s.fault.AtFinish? && s.fault.op == 0)
  {
    QuietReachesCommit(q, s, d);
    var c, paths := q.change.value, q.change.value.paths;
    var g := InstallFrom(d, [], 0, paths, q.baseline, s);
    if g.stopped.Some? || s.fault.AtFingerprint? || g.d.files != c.output {
      RollbackRestores(d, g.applied, paths, s.checkoutLater);
    } else {
      QuietFinish(d, g.applied, paths, s.checkoutLater, if s.fault.AtFinish? then Some(s.fault.op) else None);
    }
  }

  /** Promotion is all-or-nothing: without other writers, and with a fault anywhere but in the two harmful
      windows, the target is the captured output or is untouched, and no backup is left. */
  lemma PromotionIsAllOrNothing(q: Request, s: Surroundings, d: Disk)
    requires Quiet(s) && d.backups == map[]
    requires q.change.Some? ==> Distinct(q.change.value.paths) && !Harms(s, q.change.value.paths, q.baseline)
    ensures q.change.None? || !Proceeds(q, s, d) ==> Promote(q, s, d).d == d
    ensures q.change.Some? && Proceeds(q, s, d) ==> AllOrNothing(Promote(q, s, d), d, q.change.value.output)
  {
    if Proceeds(q, s, d) {
      QuietCommit(q, s, d);
    }
  }

  lemma PartialCopyHarms(q: Request, s: Surroundings, d: Disk)
    requires Quiet(s) && d.backups == map[] && Ready(q, s, d) && Harms(s, q.change.value.paths, q.baseline)
    requires StopsInstall(s, q.change.value.paths, q.baseline)
    ensures !AllOrNothing(Promote(q, s, d), d, q.change.value.output)
  {
    QuietReachesCommit(q, s, d);
    var paths := q.change.value.paths;
    var g := InstallFrom(d, [], 0, paths, q.baseline, s);
    BeforeGrows(paths, s.fault.index);
    PartialCopyStays(d, g, paths, s.checkoutLater, s.fault.index, s.fault.site.left.value);
  }

  lemma LateCleanupHarms(q: Request, s: Surroundings, d: Disk)
    requires Quiet(s) && d.backups == map[] && Ready(q, s, d) && Harms(s, q.change.value.paths, q.baseline)
    requires !StopsInstall(s, q.change.value.paths, q.baseline)
    ensures !AllOrNothing(Promote(q, s, d), d, q.change.value.output)
  {
    QuietReachesCommit(q, s, d);
    var c, paths := q.change.value, q.change.value.paths;
    ChangesRebuildOutput(q.baseline, c.output, paths);
    assert Before(paths, |paths|) == set p | p in paths;
    LateCommitHarms(InstallFrom(d, [], 0, paths, q.baseline, s), d, paths, c.output, q.baselineHead, s);
  }

  lemma LateCommitHarms(g: Progress, d: Disk, paths: seq<Path>, output: Tree, head: string, s: Surroundings)
    requires Distinct(paths) && StepsInstalled(g.applied, |paths|, paths, d, output) && g.stopped.None?
    requires g.d == Halfway(d, output, Before(paths, |paths|)) && Interfere(g.d, s.last) == g.d
    requires s.fault.AtFinish? && 0 < s.fault.op <= |set p | p in paths && p in d.files|
    requires g.d.files == output && d.head == head
    ensures !JustApplied(Commit(g, output, head, s)) && Commit(g, output, head, s).d != d
  {
    LateCleanupLoses(d, g.applied, paths, output, s.fault.op);
  }

  /** A run struck by a harmful fault is not all-or-nothing. */
  lemma HarmIsReal(q: Request, s: Surroundings, d: Disk)
    requires Quiet(s) && d.backups == map[] && Ready(q, s, d)
    requires Harms(s, q.change.value.paths, q.baseline)
    ensures !AllOrNothing(Promote(q, s, d), d, q.change.value.output)
  {
    if StopsInstall(s, q.change.value.paths, q.baseline) {
      PartialCopyHarms(q, s, d);
    } else {
      LateCleanupHarms(q, s, d);
    }
  }

  /** A partial copy stays at its target, with the displaced entry still in its backup. */
  lemma PartialCopyStays(d: Disk, g: Progress, paths: seq<Path>, final: Tree, i: nat, left: Entry)
    requires Distinct(paths) && i < |paths| && StepsInstalled(g.applied, i, paths, d, final)
    requires At(g.d.files, paths[i]) == Some(left)
    requires paths[i] in d.files ==> paths[i] in g.d.backups
    ensures d.backups == map[] ==> Rollback(g.d, g.applied) != d
  {
    RollbackFrame(g.d, g.applied, paths[i]);
    assert At(Rollback(g.d, g.applied).files, paths[i]) == Some(left);
    assert paths[i] in d.files ==> At(Rollback(g.d, g.applied).backups, paths[i]).Some?;
  }

  /** Cleanup that fails after its first deletion has deleted the backup of some step. */
  lemma CleanupDropsOne(h: Disk, steps: seq<Step>, op: nat) returns (j: nat)
    requires DistinctSteps(steps) && 0 < op <= |BackedPaths(steps)|
    ensures j < |steps| && steps[j].backedUp && steps[j].path !in Finish(h, steps, Some(op)).d.backups
  {
    FinishSucceeds(h, steps, Some(op));
    FinishLoses(h, steps, Some(op));
    BackedPathsSound(steps);
    var p :| p in BackedPaths(steps) && p !in Finish(h, steps, Some(op)).d.backups;
    j :| 0 <= j < |steps| && steps[j].path == p && steps[j].backedUp;
  }

  /** A failure after a backup was deleted: rollback cannot bring that baseline entry back. */
  lemma LateCleanupLoses(d: Disk, steps: seq<Step>, paths: seq<Path>, final: Tree, op: nat)
    requires Distinct(paths) && StepsInstalled(steps, |paths|, paths, d, final)
    requires 0 < op <= |set p | p in paths && p in d.files|
    ensures var f := Finish(Halfway(d, final, Before(paths, |paths|)), steps, Some(op));
            !f.ok && Rollback(f.d, steps).files != d.files
  {
    var h := Halfway(d, final, Before(paths, |paths|));
    InstalledBackups(steps, paths, d, final);
    FinishSucceeds(h, steps, Some(op));
    FinishKeepsFiles(h, steps, Some(op));
    var j := CleanupDropsOne(h, steps, op);
    RollbackLoses(Finish(h, steps, Some(op)).d, steps, j);
  }

  /** Exactly when an undisturbed promotion is all-or-nothing. */
  lemma AllOrNothingExactly(q: Request, s: Surroundings, d: Disk)
    requires Quiet(s) && d.backups == map[] && Ready(q, s, d)
    ensures AllOrNothing(Promote(q, s, d), d, q.change.value.output) <==> !Harms(s, q.change.value.paths, q.baseline)
  {
    if Harms(s, q.change.value.paths, q.baseline) {
      HarmIsReal(q, s, d);
    } else {
      QuietCommit(q, s, d);
    }
  }

  /** Promotion succeeds when it should: undisturbed and without a fault the final fingerprint check cannot
      fail, and the target is the captured output. */
  lemma PromotionSucceeds(q: Request, s: Surroundings, d: Disk)
    requires Quiet(s) && d.backups == map[] && Ready(q, s, d) && s.fault.NoFault?
    ensures Promote(q, s, d) == Outcome(d.(files := q.change.value.output), Returned, ScopePromoted, Applied)
  {
    var c, paths := q.change.value, q.change.value.paths;
    ChangesRebuildOutput(q.baseline, c.output, paths);
    assert Before(paths, |paths|) == set p | p in paths;
    QuietCommit(q, s, d);
  }

  // ---- what the caller is told ----

  /** The request may be promoted at all, or has been settled before. */
  predicate Admissible(q: Request) {
    && !q.scope.ScopeReleased? && q.tokenMatches && q.isolated && !q.leaseOverlaps && q.lockFree && q.change.Some?
  }

  predicate SettledBefore(q: Request) {
    q.change.Some? && (q.change.value.state.Applied? || q.change.value.state.Conflict? || q.change.value.state.Failed?)
  }

  /** A call is refused exactly when the request is not admissible or its scope is fenced with the change set
      still open; a refusal, and a change set that was settled before, leave everything as it was. A checkout
      that changed fails the change set and a target that drifted is a conflict, before any file is touched;
      both fence the scope. */
  lemma UnpromotedAnswers(q: Request, s: Surroundings, d: Disk)
    ensures var o := Promote(q, s, d);
            && (o.verdict.Refused? <==> !Admissible(q) || (q.scope.ScopeFenced? && !SettledBefore(q)))
            && (o.verdict.Refused? || SettledBefore(q) ==>
                  o.d == d && o.scope == q.scope && (q.change.Some? ==> o.state == q.change.value.state))
            && (Admissible(q) && SettledBefore(q) ==> o.verdict.Returned?)
            && (Admissible(q) && !SettledBefore(q) && !q.scope.ScopeFenced? && !Proceeds(q, s, d) ==>
                  o == Outcome(d, Returned, ScopeFenced, if s.checkoutNow != q.change.value.output then Failed else Conflict))
  {
  }

  /** Which refusal: each names a condition of the request that does not hold. */
  lemma RefusalsNameTheCause(q: Request, s: Surroundings, d: Disk)
    ensures match Promote(q, s, d).verdict
            case Refused(ScopeNotFound) => q.scope.ScopeReleased? || q.change.None?
            case Refused(LeaseConflict) => !q.tokenMatches || q.leaseOverlaps
            case Refused(InvalidPolicy) => !q.isolated
            case Refused(LockHeld) => !q.lockFree
            case Refused(ScopeIsFenced) => q.scope.ScopeFenced?
            case _ => Admissible(q)
  {
  }

  /** What an installation reports: without a failing operation it can only meet a conflict, and it does when
      the path no longer holds the baseline; only a failing check or staging is another failure. */
  lemma InstallReports(d: Disk, p: Path, base: Option<Entry>, fin: Option<Entry>, w: Windows, fault: Option<Site>)
    ensures var r := Install(d, p, base, fin, w, fault);
            && (r.Stopped? && r.why.OtherFailure? ==> fault.Some? && FailsOtherwise(fault.value))
            && (fault == Some(Precheck) ==> r.Stopped? && r.why.OtherFailure?)
            && (fault != Some(Precheck) && At(Interfere(d, w.before).files, p) != base ==> r.Stopped? && r.why.PromotionConflict?)
  {
  }

  lemma InstallFromReports(d: Disk, applied: seq<Step>, i: nat, paths: seq<Path>, base: Tree, s: Surroundings)
    requires i <= |paths|
    ensures InstallFrom(d, applied, i, paths, base, s).stopped == Some(OtherFailure) ==> s.fault.AtInstall? && FailsOtherwise(s.fault.site)
    decreases |paths| - i
  {
    if i < |paths| {
      InstallReports(d, paths[i], At(base, paths[i]), At(s.checkoutLater, paths[i]), s.windows(i), SiteAt(s.fault, i));
      match Install(d, paths[i], At(base, paths[i]), At(s.checkoutLater, paths[i]), s.windows(i), SiteAt(s.fault, i))
      case Done(d', step) => InstallFromReports(d', applied + [step], i + 1, paths, base, s);
      case Stopped(_, _) =>
    }
  }

  /** How a promotion that proceeds is answered. It is applied, with the scope promoted; or the scope is fenced
      and the change set settled, as a conflict that the call returns or as a failure that it raises. A failure
      needs a failing operation: of the check or staging of an installation, the final fingerprint, or the end. */
  lemma PromotionIsSettled(q: Request, s: Surroundings, d: Disk)
    requires Proceeds(q, s, d)
    ensures var o := Promote(q, s, d);
            && (o.state.Applied? || o.state.Conflict? || o.state.Failed?)
            && (o.state.Applied? <==> o.scope.ScopePromoted?) && (!o.state.Applied? <==> o.scope.ScopeFenced?)
            && (o.verdict.Raised? <==> o.state.Failed?) && (o.verdict.Returned? <==> !o.state.Failed?)
            && (o.state.Failed? ==> (s.fault.AtInstall? && FailsOtherwise(s.fault.site)) || s.fault.AtFingerprint? || s.fault.AtFinish?)
  {
    var c := q.change.value;
    var d1 := Interfere(d, s.checkpoint);
    InstallFromReports(d1, [], 0, c.paths, q.baseline, s);
    CommitIsSettled(InstallFrom(d1, [], 0, c.paths, q.baseline, s), c.output, q.baselineHead, s);
  }

  lemma CommitIsSettled(g: Progress, output: Tree, head: string, s: Surroundings)
    ensures var o := Commit(g, output, head, s);
            && (o.state.Applied? || o.state.Conflict? || o.state.Failed?)
            && (o.state.Applied? <==> o.scope.ScopePromoted?) && (!o.state.Applied? <==> o.scope.ScopeFenced?)
            && (o.verdict.Raised? <==> o.state.Failed?) && (o.verdict.Returned? <==> !o.state.Failed?)
            && (o.state.Failed? ==> g.stopped == Some(OtherFailure) || s.fault.AtFingerprint? || s.fault.AtFinish?)
            && (o.state.Conflict? <==>
                  || g.stopped == Some(PromotionConflict)
                  || (g.stopped.None? && !s.fault.AtFingerprint? &&
                      (Interfere(g.d, s.last).files != output || Interfere(g.d, s.last).head != head)))
  {
    FinishFails(Interfere(g.d, s.last), g.applied, if s.fault.AtFinish? then Some(s.fault.op) else None);
  }

  /** Which cause makes it a conflict: a path that the output creates is taken, an installation met one, or the
      target does not have the captured fingerprint at the end. */
  lemma ConflictsExactly(q: Request, s: Surroundings, d: Disk)
    requires Proceeds(q, s, d)
    ensures var c := q.change.value;
            var d1 := Interfere(d, s.checkpoint);
            var g := InstallFrom(d1, [], 0, c.paths, q.baseline, s);
            var last := Interfere(g.d, s.last);
            Promote(q, s, d).state.Conflict? <==>
              || (exists p :: p in c.paths && p !in q.baseline && p in s.checkoutLater && p in d1.files)
              || g.stopped == Some(PromotionConflict)
              || (g.stopped.None? && !s.fault.AtFingerprint? && (last.files != c.output || last.head != q.baselineHead))
  {
    var d1 := Interfere(d, s.checkpoint);
    if !Occupied(d1, q.change.value.paths, q.baseline, s.checkoutLater) {
      var g := InstallFrom(d1, [], 0, q.change.value.paths, q.baseline, s);
      assert Promote(q, s, d) == Commit(g, q.change.value.output, q.baselineHead, s);
      CommitIsSettled(g, q.change.value.output, q.baselineHead, s);
    }
  }

  /** The answer of an undisturbed promotion, from its inputs alone. */
  lemma QuietAnswer(q: Request, s: Surroundings, d: Disk)
    requires Quiet(s) && d.backups == map[] && Ready(q, s, d)
    ensures var paths := q.change.value.paths;
            var steps := |set p | p in paths && p in q.baseline|;
            Promote(q, s, d).state ==
              if StopsInstall(s, paths, q.baseline) then (if FailsOtherwise(s.fault.site) then Failed else Conflict)
              else if s.fault.AtFingerprint? || (s.fault.AtFinish? && s.fault.op <= steps) then Failed
              else Applied
  {
    QuietReachesCommit(q, s, d);
    var c, paths := q.change.value, q.change.value.paths;
    ChangesRebuildOutput(q.baseline, c.output, paths);
    assert Before(paths, |paths|) == set p | p in paths;
    var g := InstallFrom(d, [], 0, paths, q.baseline, s);
    if g.stopped.None? {
      InstalledBackups(g.applied, paths, d, s.checkoutLater);
      FinishSucceeds(g.d, g.applied, if s.fault.AtFinish? then Some(s.fault.op) else None);
    }
  }

  // ---- the code, against the functions above ----

  /** The target workspace as the promotion changes it: files, named backups, HEAD. */
  class TargetWorkspace {
    var files: Tree
    var backups: Tree
    var head: string
    ghost var rival: map<Path, Option<Entry>>

    ghost function View(): Disk
      reads this
    {
      Disk(files, backups, head, rival)
    }

    /** A window in which other writers act. */
    method LetOthersWrite(e: Edit)
      modifies this
      ensures View() == Interfere(old(View()), e)
    {
      files := Write(files, e.writes);
      if e.head.Some? {
        head := e.head.value;
      }
      rival := rival + e.writes;
    }

    /** The catch branch: never overwrite a path another writer created after the displacement. */
    method RestoreBackup(p: Path, backedUp: bool)
      modifies this
      ensures View() == GiveBack(old(View()), p, backedUp)
    {
      if backedUp && p in backups && p !in files {
        files := files[p := backups[p]];
        backups := backups - {p};
      }
    }

    method InstallExact(p: Path, base: Option<Entry>, fin: Option<Entry>, w: Windows, fault: Option<Site>)
      returns (r: Result<Step, Failure>)
      modifies this
      ensures match r
              case Ok(step) => Install(old(View()), p, base, fin, w, fault) == Done(View(), step)
              case Err(why) => Install(old(View()), p, base, fin, w, fault) == Stopped(View(), why)
    {
      LetOthersWrite(w.before);
      if fault == Some(Precheck) {
        return Err(OtherFailure);
      }
      if At(files, p) != base {
        return Err(PromotionConflict);
      }
      LetOthersWrite(w.checked);
      var backedUp := false;
      if base.Some? {
        if fault == Some(Rename) || p !in files {
          return Err(PromotionConflict);
        }
        files, backups := files - {p}, backups[p := files[p]];
        backedUp := true;
        if fault == Some(MovedRead) || backups[p] != base.value {
          RestoreBackup(p, true);
          return Err(PromotionConflict);
        }
        LetOthersWrite(w.displaced);
        if fault == Some(Hook) {
          RestoreBackup(p, true);
          return Err(PromotionConflict);
        }
      }
      if fin.None? {
        return Ok(Step(p, backedUp, None));
      }
      if fault.Some? && fault.value.Staging? {
        RestoreBackup(p, backedUp);
        return Err(fault.value.why);
      }
      if p in files {
        RestoreBackup(p, backedUp);
        return Err(PromotionConflict);
      }
      if fault.Some? && fault.value.CopyLeaves? {
        if fault.value.left.Some? {
          files := files[p := fault.value.left.value];
        }
        RestoreBackup(p, backedUp);
        return Err(PromotionConflict);
      }
      files := files[p := fin.value];
      return Ok(Step(p, backedUp, fin));
    }

    /** Undoes the applied steps, last first, leaving alone every path that no longer holds what was installed. */
    method RollbackPromotion(steps: seq<Step>)
      modifies this
      ensures View() == Rollback(old(View()), steps)
    {
      var n := |steps|;
      assert steps[..n] == steps;
      while n > 0
        invariant 0 <= n <= |steps|
        invariant Rollback(View(), steps[..n]) == Rollback(old(View()), steps)
      {
        n := n - 1;
        var s := steps[n];
        assert steps[..n + 1][..n] == steps[..n];
        if At(files, s.path) == s.fin {
          var cleared := files - {s.path};
          if s.backedUp && s.path in backups {
            assert cleared[s.path := backups[s.path]] == files[s.path := backups[s.path]];
            files := cleared[s.path := backups[s.path]];
            backups := backups - {s.path};
          } else {
            files := cleared;
          }
        }
      }
    }

    /** Deletes the backups; `ok` says that the state write after them landed too. */
    method DeleteBackups(steps: seq<Step>, budget: Option<nat>) returns (ok: bool)
      modifies this
      ensures Finish(old(View()), steps, budget) == Finished(View(), ok)
    {
      var left := budget;
      for n := 0 to |steps|
        invariant Finish(View(), steps[n..], left) == Finish(old(View()), steps, budget)
      {
        if steps[n].backedUp {
          if left == Some(0) {
            return false;
          }
          backups := backups - {steps[n].path};
          left := Spend(left);
        }
        assert steps[n..][1..] == steps[n + 1..];
      }
      return left != Some(0);
    }

    method Settle(steps: seq<Step>, why: Failure) returns (verdict: Verdict, scope: ScopeState, state: PromotionState)
      modifies this
      ensures Outcome(View(), verdict, scope, state) == Abort(old(View()), steps, why)
    {
      RollbackPromotion(steps);
      scope := ScopeFenced;
      if why == PromotionConflict {
        verdict, state := Returned, Conflict;
      } else {
        verdict, state := Raised, Failed;
      }
    }

    /** A path the baseline lacks and the output creates already exists in the target. */
    method FindOccupied(paths: seq<Path>, base: Tree, final: Tree) returns (found: bool)
      ensures found <==> Occupied(View(), paths, base, final)
    {
      for n := 0 to |paths|
        invariant forall j :: 0 <= j < n ==> !(paths[j] !in base && paths[j] in final && paths[j] in files)
      {
        if paths[n] !in base && paths[n] in final && paths[n] in files {
          return true;
        }
      }
      return false;
    }

    method InstallAll(paths: seq<Path>, base: Tree, s: Surroundings) returns (applied: seq<Step>, stopped: Option<Failure>)
      modifies this
      ensures Progress(View(), applied, stopped) == InstallFrom(old(View()), [], 0, paths, base, s)
    {
      applied := [];
      for n := 0 to |paths|
        invariant InstallFrom(View(), applied, n, paths, base, s) == InstallFrom(old(View()), [], 0, paths, base, s)
      {
        var p := paths[n];
        var r := InstallExact(p, At(base, p), At(s.checkoutLater, p), s.windows(n), SiteAt(s.fault, n));
        if r.Err? {
          return applied, Some(r.error);
        }
        applied := applied + [r.value];
      }
      return applied, None;
    }

    method CommitOrRollBack(applied: seq<Step>, stopped: Option<Failure>, output: Tree, expectedHead: string, s: Surroundings)
      returns (verdict: Verdict, scope: ScopeState, state: PromotionState)
      modifies this
      ensures Outcome(View(), verdict, scope, state) == Commit(Progress(old(View()), applied, stopped), output, expectedHead, s)
    {
      if stopped.Some? {
        verdict, scope, state := Settle(applied, stopped.value);
        return;
      }
      LetOthersWrite(s.last);
      if s.fault.AtFingerprint? {
        verdict, scope, state := Settle(applied, OtherFailure);
        return;
      }
      if files != output || head != expectedHead {
        verdict, scope, state := Settle(applied, PromotionConflict);
        return;
      }
      var ok := DeleteBackups(applied, if s.fault.AtFinish? then Some(s.fault.op) else None);
      if !ok {
        verdict, scope, state := Settle(applied, OtherFailure);
        return;
      }
      return Returned, ScopePromoted, Applied;
    }

    /** Promotes one change set; the outcome, on disk and in the scope and change-set states, is `Promote`'s. */
    method PromoteChangeSet(q: Request, s: Surroundings)
      returns (verdict: Verdict, scope: ScopeState, state: PromotionState)
      modifies this
      ensures Outcome(View(), verdict, scope, state) == Promote(q, s, old(View()))
    {
      scope := q.scope;
      state := if q.change.Some? then q.change.value.state else NotRequired;
      if q.scope.ScopeReleased? { verdict := Refused(ScopeNotFound); return; }
      if !q.tokenMatches { verdict := Refused(LeaseConflict); return; }
      if !q.isolated { verdict := Refused(InvalidPolicy); return; }
      if q.leaseOverlaps { verdict := Refused(LeaseConflict); return; }
      if !q.lockFree { verdict := Refused(LockHeld); return; }
      if q.change.None? { verdict := Refused(ScopeNotFound); return; }
      if state.Applied? || state.Conflict? || state.Failed? { verdict := Returned; return; }
      if q.scope.ScopeFenced? { verdict := Refused(ScopeIsFenced); return; }
      var c := q.change.value;
      if s.checkoutNow != c.output {
        return Returned, ScopeFenced, Failed;
      }
      if files != q.baseline || head != q.baselineHead {
        return Returned, ScopeFenced, Conflict;
      }
      LetOthersWrite(s.checkpoint);
      var occupied := FindOccupied(c.paths, q.baseline, s.checkoutLater);
      if occupied {
        return Returned, ScopeFenced, Conflict;
      }
      var applied, stopped := InstallAll(c.paths, q.baseline, s);
      verdict, scope, state := CommitOrRollBack(applied, stopped, c.output, q.baselineHead, s);
    }
  }
}
