/**
 * The life of one delegated run: the store's compare-and-set updates, the two-phase seal of a terminal
 * outcome (journal first, then outcome and receipt in one write), and startup recovery.
 *
 * The fields that identify the run and its contract, which the source lists one by one as immutable, are
 * one value here. A patch names the keys it carries: `None` is an absent key.
 */
module DelegationLifecycle {
  import opened Wrappers

  datatype ExecutionState =
    | Admitted
    | WaitingAdmission
    | Running
    | WaitingInput
    | ReportedCompleted
    | ReportedFailed
    | CancelRequested
    | Reconciling
    | Cancelled
    | ObservationLost

  predicate Terminal(s: ExecutionState) {
    s.ReportedCompleted? || s.ReportedFailed? || s.Cancelled?
  }

  datatype Outcome = Outcome(state: ExecutionState, result: string)

  datatype Record = Record(
    state: ExecutionState,
    result: Option<string>,
    receipt: Option<string>,
    operationId: string,
    contract: string,
    handles: string,
    workerStarted: bool,
    pending: Option<Outcome>,
    revision: nat)

  datatype Patch = Patch(
    state: Option<ExecutionState>,
    result: Option<Option<string>>,
    receipt: Option<Option<string>>,
    contract: Option<string>,
    handles: Option<string>,
    workerStarted: Option<bool>,
    pending: Option<Option<Outcome>>,
    revision: Option<nat>)

  const NoChange := Patch(None, None, None, None, None, None, None, None)

  function Or<T>(patch: Option<T>, current: T): T {
    match patch
    case Some(v) => v
    case None => current
  }

  function Merge(r: Record, p: Patch): Record {
    Record(Or(p.state, r.state), Or(p.result, r.result), Or(p.receipt, r.receipt), r.operationId, Or(p.contract, r.contract),
           Or(p.handles, r.handles), Or(p.workerStarted, r.workerStarted), Or(p.pending, r.pending), Or(p.revision, r.revision))
  }

  /** A sealed record refuses every patch that would change a sealed field. */
  predicate BreaksSeal(r: Record, p: Patch) {
    && r.receipt.Some?
    && (|| Or(p.state, r.state) != r.state || Or(p.result, r.result) != r.result || Or(p.receipt, r.receipt) != r.receipt
        || Or(p.contract, r.contract) != r.contract || Or(p.handles, r.handles) != r.handles
        || Or(p.workerStarted, r.workerStarted) != r.workerStarted)
  }

  /** A terminal state must arrive together with a receipt. */
  predicate LacksReceipt(r: Record, p: Patch) {
    && p.state.Some? && Terminal(p.state.value)
    && !(p.receipt.Some? && p.receipt.value.Some?) && r.receipt.None?
  }

  datatype Reply =
    | Applied(record: Record)
    | Conflict(current: Record)
    | Rejected

  function Update(r: Record, p: Patch): Reply {
    if BreaksSeal(r, p) || LacksReceipt(r, p) then Rejected else Applied(Merge(r, p))
  }

  function Transition(r: Record, allowed: set<ExecutionState>, p: Patch): Reply
    requires p.state.Some?
  {
    if r.state !in allowed then Conflict(r) else Update(r, p)
  }

  function After(r: Record, reply: Reply): Record {
    if reply.Applied? then reply.record else r
  }

  // ---- the store ----

  function Admission(operationId: string, contract: string, handles: string): Record {
    Record(Admitted, None, None, operationId, contract, handles, false, None, 0)
  }

  /** No operation id names two delegations. */
  ghost predicate OperationsOnce(all: map<string, Record>) {
    forall i, j :: i in all && j in all && all[i].operationId == all[j].operationId && all[i].operationId != "" ==> i == j
  }

  class DelegationStore {
    var delegations: map<string, Record>

    constructor ()
      ensures delegations == map[]
    {
      delegations := map[];
    }

    /** `id` is fresh. An operation id, when there is one, is used once. */
    method CreateDelegation(id: string, operationId: string, contract: string, handles: string) returns (accepted: bool)
      requires id !in delegations
      modifies this
      ensures accepted <==> operationId == "" || forall other :: other in old(delegations) ==> old(delegations)[other].operationId != operationId
      ensures delegations == if accepted then old(delegations)[id := Admission(operationId, contract, handles)] else old(delegations)
      ensures OperationsOnce(old(delegations)) ==> OperationsOnce(delegations)
    {
      if operationId != "" && exists other :: other in delegations && delegations[other].operationId == operationId {
        return false;
      }
      delegations := delegations[id := Admission(operationId, contract, handles)];
      return true;
    }

    method UpdateDelegation(id: string, p: Patch) returns (reply: Option<Reply>)
      modifies this
      ensures if id in old(delegations)
              then reply == Some(Update(old(delegations)[id], p)) && delegations == old(delegations)[id := After(old(delegations)[id], reply.value)]
              else reply == None && delegations == old(delegations)
    {
      if id !in delegations {
        return None;
      }
      var record := delegations[id];
      if BreaksSeal(record, p) {
        return Some(Rejected);
      }
      if LacksReceipt(record, p) {
        return Some(Rejected);
      }
      var next := Merge(record, p);
      delegations := delegations[id := next];
      return Some(Applied(next));
    }

    method TransitionDelegation(id: string, allowed: set<ExecutionState>, p: Patch) returns (reply: Option<Reply>)
      requires p.state.Some?
      modifies this
      ensures if id in old(delegations)
              then reply == Some(Transition(old(delegations)[id], allowed, p)) && delegations == old(delegations)[id := After(old(delegations)[id], reply.value)]
              else reply == None && delegations == old(delegations)
    {
      if id !in delegations {
        return None;
      }
      if delegations[id].state !in allowed {
        return Some(Conflict(delegations[id]));
      }
      reply := UpdateDelegation(id, p);
    }

    /** Journals the outcome unless the caller's copy already carries a journal, then seals outcome and
        receipt in one write. `snapshot` is the caller's copy, which may be stale. */
    method SealTerminal(id: string, snapshot: Record, allowed: set<ExecutionState>, o: Outcome, receipt: string, handles: Option<string>)
      returns (reply: Option<Reply>)
      requires Terminal(o.state)
      modifies this
      ensures if id in old(delegations)
              then var (r, rep) := Seal(old(delegations)[id], snapshot, allowed, o, receipt, handles);
                   reply == Some(rep) && delegations == old(delegations)[id := r]
              else delegations == old(delegations)
    {
      var working := snapshot;
      if snapshot.pending.None? {
        var journaled := TransitionDelegation(id, allowed, JournalPatch(snapshot, o));
        if journaled.None? || !journaled.value.Applied? {
          return journaled;
        }
        working := journaled.value.record;
      }
      reply := TransitionDelegation(id, {working.state}, SealPatch(working, o, receipt, handles));
    }
  }

  // ---- the two writes of a seal ----

  function JournalPatch(snapshot: Record, o: Outcome): Patch {
    NoChange.(state := Some(snapshot.state), pending := Some(Some(o)), revision := Some(snapshot.revision + 1))
  }

  function SealPatch(working: Record, o: Outcome, receipt: string, handles: Option<string>): Patch {
    NoChange.(state := Some(o.state), pending := Some(None), result := Some(Some(o.result)), receipt := Some(Some(receipt)),
              handles := handles, revision := Some(working.revision + 1))
  }

  function Journal(r: Record, snapshot: Record, allowed: set<ExecutionState>, o: Outcome): Reply {
    Transition(r, allowed, JournalPatch(snapshot, o))
  }

  function Commit(r: Record, working: Record, o: Outcome, receipt: string, handles: Option<string>): Reply {
    Transition(r, {working.state}, SealPatch(working, o, receipt, handles))
  }

  function Seal(r: Record, snapshot: Record, allowed: set<ExecutionState>, o: Outcome, receipt: string, handles: Option<string>): (Record, Reply) {
    if snapshot.pending.Some? then
      var reply := Commit(r, snapshot, o, receipt, handles);
      (After(r, reply), reply)
    else
      var journaled := Journal(r, snapshot, allowed, o);
      if !journaled.Applied? then (r, journaled)
      else
        var reply := Commit(journaled.record, journaled.record, o, receipt, handles);
        (After(journaled.record, reply), reply)
  }

  // ---- the first terminal outcome wins ----

  /** A terminal record is sealed: it has a receipt and no journal. */
  predicate Coherent(r: Record) {
    Terminal(r.state) ==> r.receipt.Some? && r.pending.None?
  }

  /** One write of the runtime, by any caller, with any copy of the record the caller read before. */
  datatype Write =
    | WriteJournal(snapshot: Record, allowed: set<ExecutionState>, o: Outcome)
    | WriteSeal(working: Record, o: Outcome, receipt: string, handles: Option<string>)
    | WriteState(allowed: set<ExecutionState>, to: ExecutionState, p: Patch)
    | WriteFields(p: Patch)

  /** What every call site respects: compare-and-set lists name no terminal state, a seal follows a journal,
      and the writes that only move the run carry no receipt, outcome or journal. */
  predicate ByRuntime(w: Write) {
    match w
    case WriteJournal(snapshot, allowed, o) =>
      Terminal(o.state) && forall s :: s in allowed ==> !Terminal(s)
    case WriteSeal(working, o, _, _) => Terminal(o.state) && !Terminal(working.state)
    case WriteState(allowed, to, p) =>
      && !Terminal(to) && (forall s :: s in allowed ==> !Terminal(s))
      && p.receipt.None? && p.pending.None?
    case WriteFields(p) => p.state.None? && p.receipt.None? && p.pending.None?
  }

  function Perform(r: Record, w: Write): Reply {
    match w
    case WriteJournal(snapshot, allowed, o) => Journal(r, snapshot, allowed, o)
    case WriteSeal(working, o, receipt, handles) => Commit(r, working, o, receipt, handles)
    case WriteState(allowed, to, p) => Transition(r, allowed, p.(state := Some(to)))
    case WriteFields(p) => Update(r, p)
  }

  function Play(r: Record, run: seq<Write>): Record
    decreases |run|
  {
    if run == [] then r else Play(After(r, Perform(r, run[0])), run[1..])
  }

  /** How many seals of a run were applied. */
  function Seals(r: Record, run: seq<Write>): nat
    decreases |run|
  {
    if run == [] then 0
    else (if run[0].WriteSeal? && Perform(r, run[0]).Applied? then 1 else 0) + Seals(After(r, Perform(r, run[0])), run[1..])
  }

  predicate Same(r: Record, s: Record) {
    && s.state == r.state && s.result == r.result && s.receipt == r.receipt
    && s.contract == r.contract && s.handles == r.handles && s.workerStarted == r.workerStarted
  }

  /** Whatever is asked of it, a sealed record keeps every sealed field. */
  lemma SealedStays(r: Record, p: Patch, allowed: set<ExecutionState>)
    requires r.receipt.Some?
    ensures Same(r, After(r, Update(r, p)))
    ensures p.state.Some? ==> Same(r, After(r, Transition(r, allowed, p)))
  {
  }

  lemma WriteKeepsCoherent(r: Record, w: Write)
    requires Coherent(r) && ByRuntime(w) && (r.receipt.Some? ==> Terminal(r.state))
    ensures var s := After(r, Perform(r, w));
            && Coherent(s) && (s.receipt.Some? ==> Terminal(s.state))
            && (Terminal(r.state) ==> Same(r, s) && !(w.WriteSeal? && Perform(r, w).Applied?))
            && (!Terminal(r.state) && Terminal(s.state) ==>
                  w.WriteSeal? && s.state == w.o.state && s.result == Some(w.o.result) && s.receipt == Some(w.receipt))
  {
  }

  /** The first terminal outcome wins: over every interleaving of the runtime's writes at most one seal is
      applied, every terminal record carries a receipt, and from then on no sealed field changes. */
  lemma {:induction false} FirstTerminalWins(r: Record, run: seq<Write>)
    requires Coherent(r) && (r.receipt.Some? ==> Terminal(r.state))
    requires forall i :: 0 <= i < |run| ==> ByRuntime(run[i])
    ensures Coherent(Play(r, run)) && (Terminal(Play(r, run).state) <==> Play(r, run).receipt.Some?)
    ensures Terminal(r.state) ==> Same(r, Play(r, run)) && Seals(r, run) == 0
    ensures Seals(r, run) <= 1 && (!Terminal(r.state) ==> (Seals(r, run) == 1 <==> Terminal(Play(r, run).state)))
    decreases |run|
  {
    if run != [] {
      WriteKeepsCoherent(r, run[0]);
      FirstTerminalWins(After(r, Perform(r, run[0])), run[1..]);
    }
  }

  // ---- when a seal replaces a journaled outcome ----

  predicate SealedAs(r: Record, o: Outcome) {
    r.state == o.state && r.result == Some(o.result) && r.receipt.Some? && r.pending.None? && Terminal(o.state)
  }

  /** The guard of a seal: with a copy that carries no journal, its list of states; otherwise the copy's state. */
  predicate SealPasses(r: Record, snapshot: Record, allowed: set<ExecutionState>) {
    if snapshot.pending.None? then r.state in allowed else r.state == snapshot.state
  }

  /** A seal with another outcome than the journaled one replaces it exactly when its guard passes; otherwise
      the record stays as it is. Nothing compares the two outcomes. */
  lemma SealReplacesExactly(r: Record, snapshot: Record, allowed: set<ExecutionState>, e: Outcome, receipt: string)
    requires r.receipt.None? && r.pending.Some? && r.pending != Some(e)
    requires !Terminal(r.state) && !Terminal(snapshot.state) && Terminal(e.state)
    ensures SealedAs(Seal(r, snapshot, allowed, e, receipt, None).0, e) <==> SealPasses(r, snapshot, allowed)
    ensures !SealPasses(r, snapshot, allowed) ==> Seal(r, snapshot, allowed, e, receipt, None).0 == r
  {
  }

  // ---- what the store writes ----

  /** A patch is refused exactly when it would change a field of a sealed record, or would make a record
      terminal without a receipt. Applied, it sets the fields it names and leaves the others. */
  lemma UpdateExactly(r: Record, p: Patch)
    ensures var changes := || (p.state.Some? && p.state.value != r.state) || (p.result.Some? && p.result.value != r.result)
                           || (p.receipt.Some? && p.receipt.value != r.receipt) || (p.contract.Some? && p.contract.value != r.contract)
                           || (p.handles.Some? && p.handles.value != r.handles)
                           || (p.workerStarted.Some? && p.workerStarted.value != r.workerStarted);
            var unreceipted := && p.state.Some? && p.state.value in {ReportedCompleted, ReportedFailed, Cancelled}
                               && r.receipt.None? && (p.receipt.None? || p.receipt.value.None?);
            && (Update(r, p).Rejected? <==> (r.receipt.Some? && changes) || unreceipted)
            && (Update(r, p).Applied? <==> !Update(r, p).Rejected?)
    ensures var s := After(r, Update(r, p));
            Update(r, p).Applied? ==>
              && (p.state.Some? ==> s.state == p.state.value) && (p.state.None? ==> s.state == r.state)
              && (p.result.Some? ==> s.result == p.result.value) && (p.result.None? ==> s.result == r.result)
              && (p.receipt.Some? ==> s.receipt == p.receipt.value) && (p.receipt.None? ==> s.receipt == r.receipt)
              && (p.contract.Some? ==> s.contract == p.contract.value) && (p.contract.None? ==> s.contract == r.contract)
              && (p.handles.Some? ==> s.handles == p.handles.value) && (p.handles.None? ==> s.handles == r.handles)
              && (p.workerStarted.Some? ==> s.workerStarted == p.workerStarted.value) && (p.workerStarted.None? ==> s.workerStarted == r.workerStarted)
              && (p.pending.Some? ==> s.pending == p.pending.value) && (p.pending.None? ==> s.pending == r.pending)
              && (p.revision.Some? ==> s.revision == p.revision.value) && (p.revision.None? ==> s.revision == r.revision)
              && s.operationId == r.operationId
  {
  }

  /** A transition is tried exactly in the states it names; elsewhere the caller is shown the record as it is. */
  lemma TransitionExactly(r: Record, allowed: set<ExecutionState>, p: Patch)
    requires p.state.Some?
    ensures r.state !in allowed ==> Transition(r, allowed, p) == Conflict(r)
    ensures r.state in allowed ==> Transition(r, allowed, p) == Update(r, p) && !Transition(r, allowed, p).Conflict?
  {
  }

  /** The journal of an outcome: the record goes to the state of the caller's copy, holds the outcome as pending
      and counts on from the copy's revision; nothing else changes, and nothing at all where the state is not allowed. */
  lemma JournalExactly(r: Record, copy: Record, allowed: set<ExecutionState>, o: Outcome)
    requires r.receipt.None? && !Terminal(copy.state)
    ensures After(r, Journal(r, copy, allowed, o)) ==
              if r.state in allowed then r.(state := copy.state, pending := Some(o), revision := copy.revision + 1) else r
    ensures Journal(r, copy, allowed, o).Applied? <==> r.state in allowed
  {
  }

  /** The whole seal of an open record, in one piece: it is applied exactly when its guard passes, and the record
      then has the outcome, the receipt, the new handles if there are any, and no journal. */
  lemma SealExactly(r: Record, copy: Record, allowed: set<ExecutionState>, o: Outcome, receipt: string, handles: Option<string>)
    requires r.receipt.None? && !Terminal(copy.state) && Terminal(o.state)
    ensures var (s, reply) := Seal(r, copy, allowed, o, receipt, handles);
            && (reply.Applied? <==> SealPasses(r, copy, allowed))
            && (!SealPasses(r, copy, allowed) ==> s == r)
            && (SealPasses(r, copy, allowed) ==>
                  s == Record(o.state, Some(o.result), Some(receipt), r.operationId, r.contract, if handles.Some? then handles.value else r.handles,
                              r.workerStarted, None, copy.revision + if copy.pending.Some? then 1 else 2))
  {
  }

  // ---- crashes and exceptions while sealing ----

  const ServerRestart := Outcome(ReportedFailed, "server_restart")

  /** Who seals. An exception in the delegate or the respond call reaches its error path, which seals an
      outcome of its own; from anywhere else (cancel, recovery, an error path itself) it just propagates. */
  datatype Path = DelegateCall | RespondCall | Elsewhere

  function ErrorAllowed(path: Path): set<ExecutionState> {
    if path.RespondCall? then {Running, WaitingInput, CancelRequested} else {Running, CancelRequested}
  }

  /** The process that owns a local run: its progress through one seal, or its recovery after a restart. */
  datatype Pc =
    | Serving
    | Sealing(working: Record, o: Outcome, path: Path)
    | Collected(working: Record, o: Outcome, path: Path)
    | Raised(path: Path)
    | Down
    | Recovering

  /** `journaled`, `crashed` and `stranded` are history: the first journal that landed; whether a crash that
      startup recovery answers for came before it; and whether a seal was left unfinished with nobody to resume
      it. `raised` says that an exception has ended the call that runs the delegation. */
  datatype System = System(record: Record, pc: Pc, driverRuns: nat, journaled: Option<Outcome>, crashed: bool, raised: bool, stranded: bool)

  datatype Event =
    | DriverStarts
    | Moves(to: ExecutionState)
    | Finishes(o: Outcome, copy: Record, allowed: set<ExecutionState>, path: Path)
    | CollectsEvidence
    | EvidenceFails
    | ErrorSeals(o: Outcome, copy: Record)
    | GivesUp
    | SealsRecord(receipt: string)
    | Crashes
    | Restarts
    | Reconciles
    | MarksStarted

  predicate Orphan(s: ExecutionState) {
    s in {Admitted, Running, WaitingInput, CancelRequested, Reconciling}
  }

  /** Not terminal. Startup recovery takes care of an orphan, but not of a run whose observation was lost: that
      one waits for a person to confirm that it has stopped. */
  predicate Open(s: ExecutionState) {
    Orphan(s) || s.ObservationLost?
  }

  /** A journaled success whose record does not say that the worker started: recovery marks it first. */
  predicate UnmarkedSuccess(r: Record) {
    && Orphan(r.state) && !r.workerStarted
    && r.pending.Some? && r.pending.value.state.ReportedCompleted?
  }

  /** A caller's copy is any earlier version of the record that was not sealed: its state and journal may be
      out of date, but a journal it carries was written. */
  predicate PossibleCopy(s: System, copy: Record) {
    Open(copy.state) && (copy.pending.Some? ==> s.journaled.Some?)
  }

  /** A cancellation that nobody confirms moves the record to ObservationLost; a late event of the worker takes it
      back. Only a person who has seen that state may have it sealed. */
  predicate Enabled(s: System, e: Event) {
    match e
    case DriverStarts => s.pc.Serving? && s.record.state.Admitted? && !s.raised
    case Moves(to) =>
      && (s.pc.Serving? || s.pc.Raised?)
      && s.record.state in {Admitted, Running, WaitingInput, CancelRequested, ObservationLost}
      && to in {Running, WaitingInput, CancelRequested, ObservationLost}
      && (s.record.state.Admitted? ==> to.CancelRequested?)
    case Finishes(o, copy, allowed, _) =>
      && s.pc.Serving? && PossibleCopy(s, copy) && Terminal(o.state) && (forall x :: x in allowed ==> Open(x))
      && (ObservationLost in allowed ==> copy.state.ObservationLost?)
    case CollectsEvidence => s.pc.Sealing?
    case EvidenceFails => s.pc.Sealing? || s.pc.Collected?
    case ErrorSeals(o, copy) => s.pc.Raised? && PossibleCopy(s, copy) && Terminal(o.state)
    case GivesUp => s.pc.Raised? && s.record.state.CancelRequested?
    case SealsRecord(_) => s.pc.Collected?
    case Crashes => !s.pc.Down?
    case Restarts => s.pc.Down?
    case Reconciles => s.pc.Recovering? && !UnmarkedSuccess(s.record)
    case MarksStarted => s.pc.Recovering? && UnmarkedSuccess(s.record)
  }

  /** The first half of a seal: the journal write, skipped when the caller's copy already carries a journal. */
  function StartsSeal(s: System, o: Outcome, copy: Record, allowed: set<ExecutionState>, path: Path): System {
    if copy.pending.Some? then s.(pc := Sealing(copy, o, path))
    else
      var reply := Journal(s.record, copy, allowed, o);
      if !reply.Applied? then s.(pc := Serving)
      else s.(record := reply.record, pc := Sealing(reply.record, o, path),
              journaled := if s.journaled.Some? then s.journaled else Some(o))
  }

  /** The event leaves a journaled outcome behind: an exception during the seal, or a recovery that passes over
      a run whose observation was lost. */
  predicate Strands(s: System, e: Event) {
    e.EvidenceFails? || (e.Reconciles? && s.record.state.ObservationLost? && s.record.pending.Some?)
  }

  function Next(s: System, e: Event): System
    requires Enabled(s, e)
  {
    match e
    case DriverStarts =>
      s.(record := s.record.(state := Running, workerStarted := true, revision := s.record.revision + 1), driverRuns := s.driverRuns + 1)
    case Moves(to) =>
      s.(record := After(s.record, Transition(s.record, {s.record.state}, NoChange.(state := Some(to), revision := Some(s.record.revision + 1)))))
    case Finishes(o, copy, allowed, path) => StartsSeal(s, o, copy, allowed, path)
    case CollectsEvidence => s.(pc := Collected(s.pc.working, s.pc.o, s.pc.path))
    case EvidenceFails => s.(pc := if s.pc.path.Elsewhere? then Serving else Raised(s.pc.path), raised := true, stranded := true)
    case ErrorSeals(o, copy) => StartsSeal(s, o, copy, ErrorAllowed(s.pc.path), Elsewhere)
    case GivesUp => s.(pc := Serving)
    case SealsRecord(receipt) =>
      s.(record := After(s.record, Commit(s.record, s.pc.working, s.pc.o, receipt, None)), pc := Serving)
    case Crashes => s.(pc := Down, crashed := s.crashed || (s.journaled.None? && Orphan(s.record.state)))
    case Restarts => s.(pc := Recovering)
    case Reconciles =>
      if !Orphan(s.record.state) then s.(pc := Serving, stranded := s.stranded || Strands(s, e))
      else StartsSeal(s, if s.record.pending.Some? then s.record.pending.value else ServerRestart, s.record, {s.record.state}, Elsewhere)
    case MarksStarted =>
      s.(record := After(s.record, Transition(s.record, {s.record.state},
           NoChange.(state := Some(s.record.state), workerStarted := Some(true), revision := Some(s.record.revision + 1)))))
  }

  ghost predicate Possible(s: System, run: seq<Event>)
    decreases |run|
  {
    run == [] || (Enabled(s, run[0]) && Possible(Next(s, run[0]), run[1..]))
  }

  function Run(s: System, run: seq<Event>): System
    requires Possible(s, run)
    decreases |run|
  {
    if run == [] then s else Run(Next(s, run[0]), run[1..])
  }

  // ---- the outcome a record holds ----

  predicate Unsealed(r: Record) {
    Open(r.state) && r.receipt.None?
  }

  /** The outcome the record is going to have, or has: the journaled one, or the sealed one. */
  function Held(r: Record): Option<Outcome> {
    if Terminal(r.state) && r.result.Some? then Some(Outcome(r.state, r.result.value)) else r.pending
  }

  /** Sealed with an outcome, or still to be sealed with the journaled one. */
  predicate Settling(r: Record) {
    || (Terminal(r.state) && r.receipt.Some? && r.result.Some? && r.pending.None?)
    || (Unsealed(r) && r.pending.Some? && Terminal(r.pending.value.state))
  }

  /** A seal in progress: of what was journaled, or with a copy that carries a journal. */
  ghost predicate SealOk(s: System, working: Record, o: Outcome) {
    && s.journaled.Some? && Open(working.state) && Terminal(o.state)
    && ((Unsealed(s.record) && working == s.record && s.record.pending == Some(o))
        || (working.pending.Some? && (s.stranded || Terminal(s.record.state))))
  }

  /** The process is sealing the record, or will after its restart. */
  predicate BeingSealed(s: System) {
    match s.pc
    case Sealing(working, _, _) => working == s.record
    case Collected(working, _, _) => working == s.record
    case Down => true
    case Recovering => true
    case _ => false
  }

  ghost predicate Inv(s: System) {
    && (s.journaled.None? ==> Unsealed(s.record) && s.record.pending.None?)
    && (s.journaled.Some? ==> Settling(s.record))
    && (s.journaled.Some? && !s.stranded ==> Held(s.record) == s.journaled)
    && (s.pc.Sealing? ==> SealOk(s, s.pc.working, s.pc.o))
    && (s.pc.Collected? ==> SealOk(s, s.pc.working, s.pc.o))
    && (s.pc.Raised? ==> s.raised)
    && (s.raised ==> s.stranded)
    && (s.stranded ==> s.journaled.Some?)
    && (s.pc.Serving? && s.journaled.Some? && !s.stranded ==> Terminal(s.record.state))
    && (s.crashed ==> s.journaled in {None, Some(ServerRestart)})
    && (s.crashed && s.journaled.None? ==> Orphan(s.record.state) && (s.pc.Down? || s.pc.Recovering?))
    && (s.journaled.None? && s.record.state.Admitted? ==> s.driverRuns == 0)
    && (s.journaled.Some? && s.record.state.Admitted? && !s.raised ==> BeingSealed(s))
    && s.driverRuns <= 1
  }

  /** The event writes another outcome over the one the record holds: a seal that starts from a copy without a
      journal and passes its list of states, or a commit that finds its copy's state. */
  predicate Overrides(s: System, e: Event)
    requires Enabled(s, e)
  {
    match e
    case Finishes(o, copy, allowed, _) => copy.pending.None? && s.record.state in allowed && Held(s.record) != Some(o)
    case ErrorSeals(o, copy) => copy.pending.None? && s.record.state in ErrorAllowed(s.pc.path) && Held(s.record) != Some(o)
    case SealsRecord(_) => s.record.state == s.pc.working.state && Held(s.record) != Some(s.pc.o)
    case _ => false
  }

  lemma StartsSealKeepsInv(s: System, o: Outcome, copy: Record, allowed: set<ExecutionState>, path: Path)
    requires Inv(s) && PossibleCopy(s, copy) && Terminal(o.state) && (forall x :: x in allowed ==> Open(x))
    requires ObservationLost in allowed ==> copy.state.ObservationLost?
    requires s.pc.Serving? || s.pc.Raised? || (s.pc.Recovering? && copy == s.record && allowed == {s.record.state} &&
               o == if s.record.pending.Some? then s.record.pending.value else ServerRestart)
    ensures Inv(StartsSeal(s, o, copy, allowed, path))
  {
  }

  lemma MoveKeepsInv(s: System, to: ExecutionState)
    requires Inv(s) && Enabled(s, Moves(to))
    ensures Inv(Next(s, Moves(to)))
  {
  }

  lemma CommitKeepsInv(s: System, receipt: string)
    requires Inv(s) && Enabled(s, SealsRecord(receipt))
    ensures Inv(Next(s, SealsRecord(receipt)))
  {
  }

  lemma ReconcileKeepsInv(s: System)
    requires Inv(s) && Enabled(s, Reconciles)
    ensures Inv(Next(s, Reconciles))
  {
    if Orphan(s.record.state) {
      StartsSealKeepsInv(s, if s.record.pending.Some? then s.record.pending.value else ServerRestart, s.record, {s.record.state}, Elsewhere);
    }
  }

  lemma NextKeepsInv(s: System, e: Event)
    requires Inv(s) && Enabled(s, e)
    ensures Inv(Next(s, e))
  {
    match e
    case Finishes(o, copy, allowed, path) => StartsSealKeepsInv(s, o, copy, allowed, path);
    case ErrorSeals(o, copy) => StartsSealKeepsInv(s, o, copy, ErrorAllowed(s.pc.path), Elsewhere);
    case Reconciles => ReconcileKeepsInv(s);
    case Moves(to) => MoveKeepsInv(s, to);
    case SealsRecord(receipt) => CommitKeepsInv(s, receipt);
    case _ =>
  }

  /** What an event does to the history, and when it starts the Driver. */
  lemma NextKeepsHistory(s: System, e: Event)
    requires Inv(s) && Enabled(s, e)
    ensures s.journaled.Some? ==> Next(s, e).journaled == s.journaled
    ensures s.journaled.Some? || s.crashed ==> Next(s, e).driverRuns == s.driverRuns
    ensures s.crashed ==> Next(s, e).crashed
    ensures !s.record.state.Admitted? ==> Next(s, e).driverRuns == s.driverRuns && (Next(s, e).record.state.Admitted? ==> Next(s, e).journaled.Some?)
    ensures Next(s, e).stranded <==> s.stranded || Strands(s, e)
  {
  }

  /** Once an outcome is journaled, an event changes the outcome that the record holds exactly when it overrides it. */
  lemma HeldChangesExactly(s: System, e: Event)
    requires Inv(s) && Enabled(s, e) && s.journaled.Some?
    ensures Held(Next(s, e).record) != Held(s.record) <==> Overrides(s, e)
  {
  }

  /** Some event of the run leaves a journaled outcome behind. */
  ghost predicate LeavesSeal(s: System, run: seq<Event>)
    requires Possible(s, run)
    decreases |run|
  {
    run != [] && (Strands(s, run[0]) || LeavesSeal(Next(s, run[0]), run[1..]))
  }

  /** A new local run. */
  predicate Fresh(s: System) {
    && s.record.state.Admitted? && s.record.receipt.None? && s.record.pending.None?
    && s.pc.Serving? && s.driverRuns == 0 && s.journaled.None? && !s.crashed && !s.raised && !s.stranded
  }

  /** What the store creates is the start of such a run. */
  lemma CreatedIsFresh(operationId: string, contract: string, handles: string)
    ensures var r := Admission(operationId, contract, handles);
            && Fresh(System(r, Serving, 0, None, false, false, false))
            && r.operationId == operationId && r.contract == contract && r.handles == handles
            && !r.workerStarted && r.result.None? && r.revision == 0
  {
  }

  lemma {:induction false} RunKeepsInv(s: System, run: seq<Event>)
    requires Inv(s) && Possible(s, run)
    ensures var t := Run(s, run);
            && Inv(t)
            && (s.journaled.Some? ==> t.journaled == s.journaled)
            && (s.crashed ==> t.crashed)
            && (s.journaled.Some? || s.crashed || !s.record.state.Admitted? ==> t.driverRuns == s.driverRuns)
            && (t.stranded <==> s.stranded || LeavesSeal(s, run))
    decreases |run|
  {
    if run != [] {
      NextKeepsInv(s, run[0]);
      NextKeepsHistory(s, run[0]);
      RunKeepsInv(Next(s, run[0]), run[1..]);
    }
  }

  /** Crash-safe sealing. In every run of a new delegation, whatever crashes and restarts, the Driver runs at
      most once, and there is one first journal. If no seal is left behind, a terminal record holds exactly the
      journaled outcome. If a crash came before any journal landed, what is journaled can only be the server
      restart, unless the observation of the run was lost before; and once the run is no longer just admitted,
      after a journal or after such a crash, the Driver is not run again. */
  lemma SealIsCrashSafe(s: System, before: seq<Event>, after: seq<Event>)
    requires Fresh(s) && Possible(s, before) && Possible(Run(s, before), after)
    ensures var m := Run(s, before);
            var t := Run(m, after);
            && t.driverRuns <= 1
            && (Terminal(t.record.state) ==> t.journaled.Some? && t.record.receipt.Some? && t.record.pending.None?)
            && (Terminal(t.record.state) && !LeavesSeal(s, before) && !LeavesSeal(m, after) ==> SealedAs(t.record, t.journaled.value))
            && (m.journaled.Some? ==> t.journaled == m.journaled && t.driverRuns == m.driverRuns)
            && (!m.record.state.Admitted? ==> t.driverRuns == m.driverRuns)
            && (m.crashed ==> t.journaled in {None, Some(ServerRestart)} && t.driverRuns == m.driverRuns)
  {
    RunKeepsInv(s, before);
    RunKeepsInv(Run(s, before), after);
  }

  // ---- exactly when the journaled outcome survives ----

  ghost predicate HoldsThroughout(s: System, run: seq<Event>, o: Outcome)
    requires Possible(s, run)
    decreases |run|
  {
    Held(s.record) == Some(o) && (run == [] || HoldsThroughout(Next(s, run[0]), run[1..], o))
  }

  ghost predicate Overridden(s: System, run: seq<Event>)
    requires Possible(s, run)
    decreases |run|
  {
    run != [] && (Overrides(s, run[0]) || Overridden(Next(s, run[0]), run[1..]))
  }

  /** The journaled outcome survives a run, with crashes, restarts, exceptions and seals from any stale copy,
      if and only if no event of the run overrides it. */
  lemma {:induction false} JournalSurvivesExactly(s: System, run: seq<Event>, o: Outcome)
    requires Inv(s) && Possible(s, run) && s.journaled.Some? && Held(s.record) == Some(o)
    ensures HoldsThroughout(s, run, o) <==> !Overridden(s, run)
    decreases |run|
  {
    if run != [] {
      NextKeepsInv(s, run[0]);
      NextKeepsHistory(s, run[0]);
      HeldChangesExactly(s, run[0]);
      if !Overrides(s, run[0]) {
        JournalSurvivesExactly(Next(s, run[0]), run[1..], o);
      }
    }
  }

  /** From the first journal on: if nothing overrides it, the record is sealed with it or still holds it; and
      as long as no seal is left behind nothing does. */
  lemma {:induction false} FirstJournalWins(s: System, run: seq<Event>)
    requires Inv(s) && Possible(s, run) && s.journaled.Some? && Held(s.record) == s.journaled
    ensures !Overridden(s, run) ==> Held(Run(s, run).record) == s.journaled
    ensures !s.stranded && !LeavesSeal(s, run) ==> !Overridden(s, run)
    decreases |run|
  {
    if run != [] {
      NextKeepsInv(s, run[0]);
      NextKeepsHistory(s, run[0]);
      HeldChangesExactly(s, run[0]);
      RunKeepsInv(Next(s, run[0]), run[1..]);
      if !Overrides(s, run[0]) {
        FirstJournalWins(Next(s, run[0]), run[1..]);
      }
    }
  }

  // ---- recovery ----

  lemma Prepend(s: System, e: Event, rest: seq<Event>)
    requires Enabled(s, e) && Possible(Next(s, e), rest)
    ensures Possible(s, [e] + rest) && Run(s, [e] + rest) == Run(Next(s, e), rest)
  {
    assert ([e] + rest)[1..] == rest;
  }

  /** The uninterrupted end of a seal: collect the evidence, commit. */
  lemma SealTail(s: System, receipt: string) returns (run: seq<Event>)
    requires s.pc.Sealing? && s.record.receipt.None? && s.pc.working.state == s.record.state && !Terminal(s.record.state) && Terminal(s.pc.o.state)
    ensures Possible(s, run) && (forall i :: 0 <= i < |run| ==> !run[i].EvidenceFails?)
    ensures SealedAs(Run(s, run).record, s.pc.o) && Run(s, run).pc.Serving?
    ensures Run(s, run).driverRuns == s.driverRuns && Run(s, run).journaled == s.journaled
  {
    var s1 := Next(s, CollectsEvidence);
    var s2 := Next(s1, SealsRecord(receipt));
    assert Possible(s2, []) && Run(s2, []) == s2;
    Prepend(s1, SealsRecord(receipt), []);
    Prepend(s, CollectsEvidence, [SealsRecord(receipt)] + []);
    run := [CollectsEvidence] + ([SealsRecord(receipt)] + []);
  }

  /** The uninterrupted end of a recovery: resume or journal, collect the evidence, seal. */
  lemma RecoveryTail(s: System, receipt: string) returns (run: seq<Event>)
    requires Inv(s) && Enabled(s, Reconciles) && Orphan(s.record.state)
    ensures Possible(s, run)
    ensures SealedAs(Run(s, run).record, if s.journaled.Some? then s.record.pending.value else ServerRestart)
    ensures Run(s, run).pc.Serving? && Run(s, run).driverRuns == s.driverRuns
  {
    run := SealTail(Next(s, Reconciles), receipt);
    Prepend(s, Reconciles, run);
    run := [Reconciles] + run;
  }

  /** Recovery completes: after any crash, a restart that is not interrupted seals the outcome the record
      holds, or the server restart when nothing was journaled. */
  lemma RecoverySeals(s: System, receipt: string) returns (run: seq<Event>)
    requires Inv(s) && s.pc.Down? && Orphan(s.record.state)
    ensures Possible(s, run)
    ensures SealedAs(Run(s, run).record, if s.journaled.Some? then s.record.pending.value else ServerRestart)
    ensures Run(s, run).pc.Serving? && Run(s, run).driverRuns == s.driverRuns
  {
    var s1 := Next(s, Restarts);
    if Enabled(s1, MarksStarted) {
      run := RecoveryTail(Next(s1, MarksStarted), receipt);
      Prepend(s1, MarksStarted, run);
      run := [MarksStarted] + run;
    } else {
      run := RecoveryTail(s1, receipt);
    }
    Prepend(s, Restarts, run);
    run := [Restarts] + run;
  }

  /** What a crash cannot do, an exception can: when evidence collection throws after the journal landed, the
      delegate call's error path seals its own outcome from its copy of the record, which carries no journal. */
  lemma FailedEvidenceReplacesJournal(s: System, o: Outcome, e: Outcome, receipt: string) returns (run: seq<Event>)
    requires Inv(s) && s.pc.Serving? && s.journaled.None? && s.record.state.Running? && Terminal(o.state) && Terminal(e.state)
    ensures Possible(s, run) && Run(s, run).journaled == Some(o) && SealedAs(Run(s, run).record, e)
  {
    var finishes := Finishes(o, s.record, {Running, CancelRequested, Reconciling}, DelegateCall);
    var s1 := Next(s, finishes);
    var s2 := Next(s1, EvidenceFails);
    var s3 := Next(s2, ErrorSeals(e, s.record));
    run := SealTail(s3, receipt);
    Prepend(s2, ErrorSeals(e, s.record), run);
    run := [ErrorSeals(e, s.record)] + run;
    Prepend(s1, EvidenceFails, run);
    run := [EvidenceFails] + run;
    Prepend(s, finishes, run);
    run := [finishes] + run;
  }

  /** A person's confirmation, with the outcome `e`, of a run that already carries a journal. */
  lemma ConfirmationSeals(s: System, e: Outcome, receipt: string) returns (run: seq<Event>)
    requires Inv(s) && s.pc.Serving? && s.record.state.ObservationLost? && s.record.pending.Some? && Terminal(e.state)
    ensures Possible(s, run) && (forall i :: 0 <= i < |run| ==> !run[i].EvidenceFails?)
    ensures Run(s, run).journaled == s.journaled && SealedAs(Run(s, run).record, e)
  {
    var confirms := Finishes(e, s.record, {ObservationLost}, Elsewhere);
    run := SealTail(Next(s, confirms), receipt);
    Prepend(s, confirms, run);
    run := [confirms] + run;
  }

  /** A run whose observation was lost is sealed by a person's confirmation. Recovery passes over it, journal or
      not: after a crash within the seal a second confirmation replaces the journaled outcome. */
  lemma SecondConfirmationReplacesJournal(s: System, o: Outcome, e: Outcome, receipt: string) returns (run: seq<Event>)
    requires Inv(s) && s.pc.Serving? && s.journaled.None? && s.record.state.ObservationLost? && Terminal(o.state) && Terminal(e.state)
    ensures Possible(s, run) && (forall i :: 0 <= i < |run| ==> !run[i].EvidenceFails?)
    ensures Run(s, run).journaled == Some(o) && SealedAs(Run(s, run).record, e)
  {
    var confirms := Finishes(o, s.record, {ObservationLost}, Elsewhere);
    var s1 := Next(s, confirms);
    var s2 := Next(s1, Crashes);
    var s3 := Next(s2, Restarts);
    var s4 := Next(s3, Reconciles);
    NextKeepsInv(s, confirms);
    NextKeepsInv(s1, Crashes);
    NextKeepsInv(s2, Restarts);
    NextKeepsInv(s3, Reconciles);
    run := ConfirmationSeals(s4, e, receipt);
    Prepend(s3, Reconciles, run);
    run := [Reconciles] + run;
    Prepend(s2, Restarts, run);
    run := [Restarts] + run;
    Prepend(s1, Crashes, run);
    run := [Crashes] + run;
    Prepend(s, confirms, run);
    run := [confirms] + run;
  }
}
