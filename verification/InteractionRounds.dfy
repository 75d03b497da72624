/**
 * Approval rounds: how a submission is checked and consumed, how a run that asks again reopens the same
 * interaction, and what any interleaving of concurrent respond calls keeps.
 *
 * The hash of the normalised answers is the answers themselves, up to order. Expiry is not modelled.
 */
module InteractionRounds {
  import opened Wrappers

  datatype Status = Pending | Approved | Rejected | Failed

  datatype Request = Request(id: string, options: seq<string>)

  /** An empty scope is an absent one. */
  datatype Response = Response(id: string, action: string, scope: string)

  datatype Submission = Submission(requestId: string, revision: int, responses: seq<Response>)

  datatype Consumed = Consumed(requestId: string, revision: int, answers: multiset<Response>)

  datatype Interaction = Interaction(status: Status, revision: int, requests: seq<Request>, consumed: Option<Consumed>)

  datatype Error = NotFound | NotPending | StaleRevision | IncompleteResponses | InvalidScope | IdempotencyConflict

  datatype Verdict = Replayed | Refused(error: Error) | Accepted(decision: Status)

  function Payload(i: Submission): Consumed {
    Consumed(i.requestId, i.revision, multiset(i.responses))
  }

  // ---- the checks of one submission ----

  function Wanted(requests: seq<Request>): set<string> {
    set r | r in requests :: r.id
  }

  function Ids(responses: seq<Response>): seq<string> {
    if responses == [] then [] else Ids(responses[..|responses| - 1]) + [responses[|responses| - 1].id]
  }

  /** The responses answer each request exactly once. */
  predicate Covers(requests: seq<Request>, responses: seq<Response>) {
    multiset(Ids(responses)) == multiset(Wanted(requests))
  }

  /** The options of a request; of two requests with one id the later counts. */
  function OptionsOf(requests: seq<Request>, id: string): seq<string> {
    if requests == [] then []
    else
      var last := requests[|requests| - 1];
      if last.id == id then last.options else OptionsOf(requests[..|requests| - 1], id)
  }

  predicate KnownAction(action: string) {
    action in {"approve", "reject", "answer", "confirm"}
  }

  function Fault(requests: seq<Request>, r: Response): Option<Error> {
    if !KnownAction(r.action) then Some(IncompleteResponses)
    else if r.action != "reject" && r.scope != "" && r.scope !in OptionsOf(requests, r.id) then Some(InvalidScope)
    else None
  }

  function FirstFault(requests: seq<Request>, responses: seq<Response>): Option<Error> {
    if responses == [] then None
    else
      var before := FirstFault(requests, responses[..|responses| - 1]);
      if before.Some? then before else Fault(requests, responses[|responses| - 1])
  }

  predicate AnyReject(responses: seq<Response>) {
    exists i :: 0 <= i < |responses| && responses[i].action == "reject"
  }

  /** What the broker makes of a submission, from the copy of the interaction it read. */
  function Check(i: Interaction, input: Submission): Verdict {
    if i.consumed.Some? && i.consumed.value.requestId == input.requestId then
      if i.consumed.value != Payload(input) then Refused(IdempotencyConflict) else Replayed
    else if !i.status.Pending? then Refused(NotPending)
    else if i.revision != input.revision then Refused(StaleRevision)
    else if !Covers(i.requests, input.responses) then Refused(IncompleteResponses)
    else if FirstFault(i.requests, input.responses).Some? then Refused(FirstFault(i.requests, input.responses).value)
    else Accepted(if AnyReject(input.responses) then Rejected else Approved)
  }

  /** Compare-and-set on revision and status. */
  function Consume(i: Interaction, copy: Interaction, input: Submission, decision: Status): (Interaction, Verdict) {
    if i.revision == copy.revision && i.status.Pending? then
      (i.(status := decision, revision := copy.revision + 1, consumed := Some(Payload(input))), Accepted(decision))
    else if i.consumed == Some(Payload(input)) then (i, Replayed)
    else (i, Refused(NotPending))
  }

  /** The run asked again: the same interaction is pending once more. The new revision is counted from
      `outer`, the copy that the respond call read at its very start. */
  function Reopen(i: Interaction, outer: Interaction, requests: seq<Request>): Interaction {
    Interaction(Pending, outer.revision + 1, requests, None)
  }

  predicate NoRepeat(ids: seq<string>) {
    forall i, j :: 0 <= i < j < |ids| ==> ids[i] != ids[j]
  }

  function Named(ids: seq<string>): set<string> {
    set id | id in ids
  }

  lemma {:induction false} NoRepeatIsSet(ids: seq<string>)
    ensures NoRepeat(ids) <==> multiset(ids) == multiset(Named(ids))
    decreases |ids|
  {
    if ids != [] {
      var n := |ids| - 1;
      NoRepeatIsSet(ids[..n]);
      assert ids == ids[..n] + [ids[n]];
      if ids[n] in ids[..n] {
        assert multiset(ids)[ids[n]] == multiset(ids[..n])[ids[n]] + 1 >= 2;
      } else {
        NewIdGrows(ids[..n], ids[n]);
      }
    }
  }

  lemma NewIdGrows(ids: seq<string>, id: string)
    requires id !in ids
    ensures NoRepeat(ids + [id]) <==> NoRepeat(ids)
    ensures multiset(ids + [id]) == multiset(Named(ids + [id])) <==> multiset(ids) == multiset(Named(ids))
  {
    assert Named(ids + [id]) == Named(ids) + {id};
    InsertNew(Named(ids), id);
    assert multiset(ids + [id]) == multiset(ids) + multiset{id};
    assert multiset(ids) == multiset(ids + [id]) - multiset{id};
    assert multiset(Named(ids)) == multiset(Named(ids) + {id}) - multiset{id};
    if NoRepeat(ids + [id]) {
      forall i, j | 0 <= i < j < |ids| ensures ids[i] != ids[j] { assert (ids + [id])[i] != (ids + [id])[j]; }
    }
  }

  lemma InsertNew(s: set<string>, x: string)
    requires x !in s
    ensures multiset(s + {x}) == multiset(s) + multiset{x}
  {
  }

  /** Covering is: nothing missing, nothing extra, nothing twice. */
  lemma CoversExactlyOnce(requests: seq<Request>, responses: seq<Response>)
    ensures Covers(requests, responses) <==> Named(Ids(responses)) == Wanted(requests) && NoRepeat(Ids(responses))
  {
    var ids := Ids(responses);
    NoRepeatIsSet(ids);
    if Covers(requests, responses) {
      forall id
        ensures id in Named(ids) <==> id in Wanted(requests)
      {
        assert id in multiset(ids) <==> id in multiset(Wanted(requests));
      }
    }
  }

  // ---- what a submission is answered ----

  /** The request an answer is for: of those with its id, the last. */
  ghost predicate Asks(requests: seq<Request>, id: string, n: nat) {
    n < |requests| && requests[n].id == id && forall m :: n < m < |requests| ==> requests[m].id != id
  }

  lemma {:induction false} OptionsOfAsked(requests: seq<Request>, id: string, n: nat)
    requires Asks(requests, id, n)
    ensures OptionsOf(requests, id) == requests[n].options
    decreases |requests|
  {
    if n < |requests| - 1 {
      OptionsOfAsked(requests[..|requests| - 1], id, n);
    }
  }

  /** The answer is in order: a known action, and a scope that its request offers, unless it rejects. */
  ghost predicate InOrder(requests: seq<Request>, r: Response) {
    && (r.action == "approve" || r.action == "reject" || r.action == "answer" || r.action == "confirm")
    && (r.action == "reject" || r.scope == "" || forall n: nat :: Asks(requests, r.id, n) ==> r.scope in requests[n].options)
  }

  lemma {:induction false} FirstFaultExactly(requests: seq<Request>, responses: seq<Response>)
    ensures FirstFault(requests, responses).None? <==> forall k :: 0 <= k < |responses| ==> Fault(requests, responses[k]).None?
    decreases |responses|
  {
    if responses != [] {
      FirstFaultExactly(requests, responses[..|responses| - 1]);
    }
  }

  lemma FaultExactly(requests: seq<Request>, r: Response)
    requires exists n: nat :: Asks(requests, r.id, n)
    ensures Fault(requests, r).None? <==> InOrder(requests, r)
    ensures Fault(requests, r) == Some(InvalidScope) ==> r.action != "reject" && r.scope != ""
  {
    var n: nat :| Asks(requests, r.id, n);
    OptionsOfAsked(requests, r.id, n);
  }

  lemma {:induction false} AskedSomewhere(requests: seq<Request>, id: string) returns (n: nat)
    requires id in Wanted(requests)
    ensures Asks(requests, id, n)
    decreases |requests|
  {
    var m := |requests| - 1;
    if requests[m].id == id {
      n := m;
    } else {
      assert requests == requests[..m] + [requests[m]];
      n := AskedSomewhere(requests[..m], id);
    }
  }

  lemma {:induction false} ResponseIds(responses: seq<Response>)
    ensures |Ids(responses)| == |responses| && forall k :: 0 <= k < |responses| ==> Ids(responses)[k] == responses[k].id
    decreases |responses|
  {
    if responses != [] {
      ResponseIds(responses[..|responses| - 1]);
    }
  }

  /** A submission is accepted exactly when it is not an earlier one sent again, the interaction is pending at
      its revision, each request is answered exactly once, and every answer is in order. One rejection rejects
      the round; otherwise it is approved. */
  lemma AcceptedExactly(i: Interaction, input: Submission)
    ensures Check(i, input).Accepted? <==>
              && !(i.consumed.Some? && i.consumed.value.requestId == input.requestId)
              && i.status.Pending? && i.revision == input.revision && Covers(i.requests, input.responses)
              && forall k :: 0 <= k < |input.responses| ==> InOrder(i.requests, input.responses[k])
    ensures Check(i, input).Accepted? ==>
              Check(i, input).decision == if exists k :: 0 <= k < |input.responses| && input.responses[k].action == "reject" then Rejected else Approved
  {
    FirstFaultExactly(i.requests, input.responses);
    if Covers(i.requests, input.responses) {
      CoversExactlyOnce(i.requests, input.responses);
      ResponseIds(input.responses);
      forall k | 0 <= k < |input.responses|
        ensures Fault(i.requests, input.responses[k]).None? <==> InOrder(i.requests, input.responses[k])
      {
        assert Ids(input.responses)[k] in Named(Ids(input.responses));
        var n := AskedSomewhere(i.requests, input.responses[k].id);
        FaultExactly(i.requests, input.responses[k]);
      }
    }
  }

  /** Which refusal names which cause. */
  lemma RefusalsNameTheCause(i: Interaction, input: Submission)
    ensures match Check(i, input)
            case Replayed => i.consumed == Some(Payload(input))
            case Refused(IdempotencyConflict) => i.consumed.Some? && i.consumed.value.requestId == input.requestId && i.consumed.value != Payload(input)
            case Refused(NotPending) => !i.status.Pending?
            case Refused(StaleRevision) => i.status.Pending? && i.revision != input.revision
            case Refused(IncompleteResponses) =>
              !Covers(i.requests, input.responses) || exists k :: 0 <= k < |input.responses| && !KnownAction(input.responses[k].action)
            case Refused(InvalidScope) => exists k :: 0 <= k < |input.responses| && input.responses[k].action != "reject" && input.responses[k].scope != ""
            case Refused(_) => false
            case Accepted(_) => true
  {
    if FirstFault(i.requests, input.responses).Some? {
      var k := FaultyOne(i.requests, input.responses);
    }
  }

  lemma {:induction false} FaultyOne(requests: seq<Request>, responses: seq<Response>) returns (k: nat)
    requires FirstFault(requests, responses).Some?
    ensures k < |responses| && Fault(requests, responses[k]) == FirstFault(requests, responses)
    decreases |responses|
  {
    var n := |responses| - 1;
    if FirstFault(requests, responses[..n]).Some? {
      k := FaultyOne(requests, responses[..n]);
    } else {
      k := n;
    }
  }

  /** A checked submission is consumed exactly if the interaction is still at the revision of the copy, and
      pending. It then holds the decision and the submission, one revision on, with the same requests. A race
      lost to the same submission replays; any other is refused, and nothing changes. */
  lemma ConsumedExactly(i: Interaction, copy: Interaction, input: Submission, decision: Status)
    requires !decision.Pending?
    ensures var (j, v) := Consume(i, copy, input, decision);
            && (v.Accepted? <==> i.revision == copy.revision && i.status.Pending?)
            && (v.Accepted? ==>
                  && v.decision == j.status == decision && j.revision == i.revision + 1 && j.requests == i.requests
                  && j.consumed == Some(Consumed(input.requestId, input.revision, multiset(input.responses))))
            && (!v.Accepted? ==> j == i && (v.Replayed? <==> i.consumed == Some(Payload(input))) && (!v.Replayed? ==> v == Refused(NotPending)))
  {
  }

  // ---- concurrent respond calls ----

  datatype Phase =
    | Opened(outer: Interaction)
    | Admitted(outer: Interaction)
    | Checked(outer: Interaction, copy: Interaction, decision: Status)
    | Decided(outer: Interaction)
    | Driving(outer: Interaction)
    | Over

  datatype Call = Call(input: Submission, phase: Phase)

  /** `rounds` and `accepted` are history variables: the revision and the requests each round opened with,
      and the accepted submissions with the number of their round. */
  datatype State = State(
    record: Interaction,
    calls: map<nat, Call>,
    responding: bool,
    rounds: seq<Round>,
    accepted: seq<Acceptance>)

  datatype Round = Round(revision: int, requests: seq<Request>)

  datatype Acceptance = Acceptance(round: int, input: Submission)

  datatype Event =
    | Open(call: nat, input: Submission)
    | Admit(call: nat)
    | CheckCopy(call: nat)
    | Commit(call: nat)
    | Resume(call: nat, applied: bool)
    | AskAgain(call: nat, requests: seq<Request>)
    | Finish(call: nat, status: Status)
    | Close(status: Status)

  predicate Enabled(s: State, e: Event) {
    match e
    case Open(c, _) => c !in s.calls
    case Admit(c) => c in s.calls && s.calls[c].phase.Opened?
    case CheckCopy(c) => c in s.calls && s.calls[c].phase.Admitted?
    case Commit(c) => c in s.calls && s.calls[c].phase.Checked?
    case Resume(c, _) => c in s.calls && s.calls[c].phase.Decided?
    case AskAgain(c, _) => c in s.calls && s.calls[c].phase.Driving?
    case Finish(c, status) => c in s.calls && s.calls[c].phase.Driving? && !status.Pending?
    case Close(status) => !status.Pending?
  }

  function To(s: State, c: nat, phase: Phase): map<nat, Call>
    requires c in s.calls
  {
    s.calls[c := s.calls[c].(phase := phase)]
  }

  function Next(s: State, e: Event): State
    requires Enabled(s, e)
  {
    match e
    case Open(c, input) => s.(calls := s.calls[c := Call(input, Opened(s.record))])
    case Admit(c) => s.(calls := To(s, c, if s.responding then Over else Admitted(s.calls[c].phase.outer)))
    case CheckCopy(c) =>
      var v := Check(s.record, s.calls[c].input);
      s.(calls := To(s, c, if v.Accepted? then Checked(s.calls[c].phase.outer, s.record, v.decision) else Over))
    case Commit(c) => CommitCall(s, c)
    case Resume(c, applied) =>
      if applied then s.(calls := To(s, c, Driving(s.calls[c].phase.outer)), responding := true) else s.(calls := To(s, c, Over))
    case AskAgain(c, requests) =>
      var record := Reopen(s.record, s.calls[c].phase.outer, requests);
      s.(record := record, calls := To(s, c, Over), responding := false, rounds := s.rounds + [Round(record.revision, requests)])
    case Finish(c, status) => s.(record := s.record.(status := status), calls := To(s, c, Over), responding := false)
    case Close(status) => s.(record := s.record.(status := status))
  }

  function CommitCall(s: State, c: nat): State
    requires c in s.calls && s.calls[c].phase.Checked?
  {
    var call := s.calls[c];
    var (record, v) := Consume(s.record, call.phase.copy, call.input, call.phase.decision);
    var phase := if v == Accepted(Approved) then Decided(call.phase.outer) else Over;
    s.(record := record, calls := To(s, c, phase),
       accepted := if v.Accepted? then s.accepted + [Acceptance(|s.rounds| - 1, call.input)] else s.accepted)
  }

  /** A reopening is not ahead of its time: the call that asks again had a submission that named no revision
      which the interaction did not have yet when the call began. Any other step may be by any call. */
  predicate Timely(s: State, e: Event)
    requires Enabled(s, e)
  {
    e.AskAgain? ==> s.calls[e.call].input.revision <= s.calls[e.call].phase.outer.revision
  }

  ghost predicate Possible(s: State, run: seq<Event>)
    decreases |run|
  {
    run == [] || (Enabled(s, run[0]) && Possible(Next(s, run[0]), run[1..]))
  }

  ghost predicate AllTimely(s: State, run: seq<Event>)
    requires Possible(s, run)
    decreases |run|
  {
    run == [] || (Timely(s, run[0]) && AllTimely(Next(s, run[0]), run[1..]))
  }

  function Run(s: State, run: seq<Event>): State
    requires Possible(s, run)
    decreases |run|
  {
    if run == [] then s else Run(Next(s, run[0]), run[1..])
  }

  function Start(requests: seq<Request>): State {
    State(Interaction(Pending, 0, requests, None), map[], false, [Round(0, requests)], [])
  }

  // ---- what every run keeps ----

  ghost predicate Increasing(rounds: seq<Round>) {
    forall i, j :: 0 <= i < j < |rounds| ==> rounds[i].revision < rounds[j].revision
  }

  /** Where the interaction is: waiting in its current round, consumed, or closed without being consumed. */
  ghost predicate RecordOk(s: State) {
    && s.rounds != []
    && var current := s.rounds[|s.rounds| - 1];
       && s.record.requests == current.requests
       && current.revision <= s.record.revision <= current.revision + 1
       && (s.record.status.Pending? ==> s.record.revision == current.revision)
       && if s.record.revision == current.revision then s.record.consumed == None
          else s.record.consumed.Some? && s.record.consumed.value.revision == current.revision
  }

  /** What a call that was accepted, or is about to be, knows. */
  ghost predicate CallOk(s: State, call: Call)
    requires s.rounds != []
  {
    match call.phase
    case Checked(_, copy, decision) => Check(copy, call.input) == Accepted(decision)
    case Decided(_) => Answers(s, call.input)
    case Driving(_) => Answers(s, call.input)
    case _ => true
  }

  /** The submission was accepted for the current round, and the run has not asked again. */
  ghost predicate Answers(s: State, input: Submission)
    requires s.rounds != []
  {
    var current := s.rounds[|s.rounds| - 1];
    input.revision == current.revision && s.record.revision == current.revision + 1
  }

  predicate InDriver(call: Call) {
    call.phase.Decided? || call.phase.Driving?
  }

  /** Only one call may reopen the interaction. */
  ghost predicate OneDriver(s: State) {
    forall a, b :: a in s.calls && b in s.calls && InDriver(s.calls[a]) && InDriver(s.calls[b]) ==> a == b
  }

  /** Each accepted submission names the revision of its round, and no round has two; the current round has
      none as long as it can still be answered. */
  ghost predicate AcceptedOnce(s: State)
    requires s.rounds != []
  {
    && (forall k :: 0 <= k < |s.accepted| ==> NamesItsRound(s, s.accepted[k]))
    && (forall j, k :: 0 <= j < k < |s.accepted| ==> s.accepted[j].round < s.accepted[k].round)
    && (s.record.revision == s.rounds[|s.rounds| - 1].revision ==>
          forall k :: 0 <= k < |s.accepted| ==> s.accepted[k].round < |s.rounds| - 1)
  }

  predicate NamesItsRound(s: State, a: Acceptance) {
    0 <= a.round < |s.rounds| && a.input.revision == s.rounds[a.round].revision
  }

  /** The flag is up exactly while a call drives the worker. */
  ghost predicate FlagOk(s: State) {
    s.responding <==> exists c :: c in s.calls && s.calls[c].phase.Driving?
  }

  /** What every run keeps. */
  ghost predicate Inv(s: State) {
    && RecordOk(s) && OneDriver(s) && AcceptedOnce(s) && FlagOk(s)
    && (forall c :: c in s.calls ==> CallOk(s, s.calls[c]))
  }

  lemma CheckAccepts(i: Interaction, input: Submission)
    requires Check(i, input).Accepted?
    ensures i.status.Pending? && i.revision == input.revision && Covers(i.requests, input.responses)
  {
  }

  ghost predicate Lands(s: State, c: nat) {
    && c in s.calls && s.calls[c].phase.Checked?
    && s.record.revision == s.calls[c].phase.copy.revision && s.record.status.Pending?
  }

  /** What a commit does: it lands, or it only ends the call. */
  lemma CommitIs(s: State, c: nat)
    requires Inv(s) && c in s.calls && s.calls[c].phase.Checked?
    ensures var t := CommitCall(s, c);
            && t.rounds == s.rounds && t.responding == s.responding && t.calls == s.calls[c := t.calls[c]] && c in t.calls
            && (if Lands(s, c)
                then t.accepted == s.accepted + [Acceptance(|s.rounds| - 1, s.calls[c].input)] && t.record.revision == s.record.revision + 1
                else t == s.(calls := To(s, c, Over)))
            && !t.calls[c].phase.Driving? && !t.calls[c].phase.Checked?
  {
    assert CallOk(s, s.calls[c]);
    CheckAccepts(s.calls[c].phase.copy, s.calls[c].input);
  }

  lemma CommitKeepsCall(s: State, c: nat, x: nat)
    requires Inv(s) && c in s.calls && s.calls[c].phase.Checked? && x in s.calls
    ensures var t := CommitCall(s, c);
            t.rounds != [] && x in t.calls && CallOk(t, t.calls[x]) && (Lands(s, c) && InDriver(t.calls[x]) ==> x == c)
  {
    assert CallOk(s, s.calls[c]) && CallOk(s, s.calls[x]);
    CheckAccepts(s.calls[c].phase.copy, s.calls[c].input);
  }

  /** An acceptance closes its round: nobody else is in the driver, and the round has no other one. */
  lemma CommitKeepsInv(s: State, c: nat)
    requires Inv(s) && c in s.calls && s.calls[c].phase.Checked?
    ensures Inv(CommitCall(s, c))
    ensures Lands(s, c) ==> CommitCall(s, c).accepted == s.accepted + [Acceptance(|s.rounds| - 1, s.calls[c].input)]
    ensures !Lands(s, c) ==> CommitCall(s, c) == s.(calls := To(s, c, Over))
  {
    var t := CommitCall(s, c);
    CommitIs(s, c);
    CommitKeepsAccepted(s, c);
    forall x | x in t.calls
      ensures CallOk(t, t.calls[x]) && (Lands(s, c) && InDriver(t.calls[x]) ==> x == c)
    {
      CommitKeepsCall(s, c, x);
    }
    FlagFollows(s, t, c);
  }

  lemma CommitKeepsAccepted(s: State, c: nat)
    requires Inv(s) && c in s.calls && s.calls[c].phase.Checked?
    ensures RecordOk(CommitCall(s, c)) && AcceptedOnce(CommitCall(s, c))
  {
    var t := CommitCall(s, c);
    CommitIs(s, c);
    assert CallOk(s, s.calls[c]);
    CheckAccepts(s.calls[c].phase.copy, s.calls[c].input);
    forall k | 0 <= k < |t.accepted|
      ensures NamesItsRound(t, t.accepted[k])
    {
      assert k < |s.accepted| ==> NamesItsRound(s, s.accepted[k]);
    }
  }

  lemma NextKeepsCalls(s: State, e: Event, x: nat)
    requires Inv(s) && Enabled(s, e) && !e.Commit? && x in Next(s, e).calls
    ensures var t := Next(s, e);
            && t.rounds != [] && CallOk(t, t.calls[x])
            && (InDriver(t.calls[x]) ==> x in s.calls && InDriver(s.calls[x]) && !e.AskAgain?)
  {
    assert x in s.calls ==> CallOk(s, s.calls[x]);
    assert e.AskAgain? ==> CallOk(s, s.calls[e.call]);
  }

  lemma NextKeepsAccepted(s: State, e: Event)
    requires Inv(s) && Enabled(s, e) && !e.Commit?
    ensures RecordOk(Next(s, e)) && AcceptedOnce(Next(s, e))
  {
    var t := Next(s, e);
    assert e.Finish? || e.AskAgain? ==> CallOk(s, s.calls[e.call]);
    forall k | 0 <= k < |t.accepted|
      ensures NamesItsRound(t, t.accepted[k])
    {
      assert NamesItsRound(s, s.accepted[k]);
    }
  }

  /** A step that moves one call keeps the flag right when it sets it for a driver and clears it after one. */
  lemma FlagFollows(s: State, t: State, c: nat)
    requires Inv(s) && c in t.calls && t.calls == s.calls[c := t.calls[c]]
    requires t.responding == (t.calls[c].phase.Driving? || (s.responding && !(c in s.calls && s.calls[c].phase.Driving?)))
    requires t.calls[c].phase.Driving? ==> c in s.calls && InDriver(s.calls[c])
    ensures FlagOk(t)
  {
    if s.responding {
      var d :| d in s.calls && s.calls[d].phase.Driving?;
      assert d in t.calls && (d != c ==> t.calls[d] == s.calls[d]);
    }
    if t.calls[c].phase.Driving? {
      assert t.responding;
    }
  }

  lemma NextKeepsFlag(s: State, e: Event)
    requires Inv(s) && Enabled(s, e) && !e.Commit?
    ensures FlagOk(Next(s, e))
  {
    if !e.Close? {
      FlagFollows(s, Next(s, e), e.call);
    }
  }

  lemma NextKeepsInv(s: State, e: Event)
    requires Inv(s) && Enabled(s, e)
    ensures Inv(Next(s, e))
  {
    if e.Commit? {
      CommitKeepsInv(s, e.call);
    } else {
      NextKeepsFlag(s, e);
      NextKeepsAccepted(s, e);
      forall x | x in Next(s, e).calls
        ensures CallOk(Next(s, e), Next(s, e).calls[x])
        ensures InDriver(Next(s, e).calls[x]) ==> x in s.calls && InDriver(s.calls[x])
      {
        NextKeepsCalls(s, e, x);
      }
    }
  }

  lemma {:induction false} RunKeepsInv(s: State, run: seq<Event>)
    requires Inv(s) && Possible(s, run)
    ensures Inv(Run(s, run))
    decreases |run|
  {
    if run != [] {
      NextKeepsInv(s, run[0]);
      RunKeepsInv(Next(s, run[0]), run[1..]);
    }
  }

  // ---- exactly when a new round has a new revision ----

  /** Which single step makes a revision repeat, or go back: a reopening that is ahead of its time. */
  lemma ReopenAdvancesExactly(s: State, e: Event)
    requires Inv(s) && Enabled(s, e)
    ensures Increasing(Next(s, e).rounds) <==> Increasing(s.rounds) && Timely(s, e)
  {
    if e.AskAgain? {
      var n := |s.rounds|;
      var rounds := Next(s, e).rounds;
      assert CallOk(s, s.calls[e.call]);
      assert forall i :: 0 <= i < n ==> rounds[i] == s.rounds[i];
      assert rounds[n].revision > rounds[n - 1].revision <==> Timely(s, e);
    }
  }

  lemma {:induction false} RevisionsIncreaseExactly(s: State, run: seq<Event>)
    requires Inv(s) && Possible(s, run)
    ensures Increasing(Run(s, run).rounds) <==> Increasing(s.rounds) && AllTimely(s, run)
    decreases |run|
  {
    if run != [] {
      NextKeepsInv(s, run[0]);
      ReopenAdvancesExactly(s, run[0]);
      RevisionsIncreaseExactly(Next(s, run[0]), run[1..]);
    }
  }

  // ---- isolation of rounds ----

  /** A copy is of the past, and a copy with the revision of the current round has its requests. */
  ghost predicate CopyOk(s: State, call: Call)
    requires s.rounds != []
  {
    var current := s.rounds[|s.rounds| - 1];
    match call.phase
    case Opened(outer) => outer.revision <= s.record.revision
    case Admitted(outer) => outer.revision <= s.record.revision
    case Checked(outer, copy, _) =>
      outer.revision <= copy.revision <= current.revision && (copy.revision == current.revision ==> copy.requests == current.requests)
    case Decided(outer) => outer.revision <= current.revision
    case Driving(outer) => outer.revision <= current.revision
    case Over => true
  }

  /** An accepted submission is for its round: it names the round's revision and answers its requests. */
  predicate AcceptanceOk(s: State, a: Acceptance) {
    && 0 <= a.round < |s.rounds|
    && a.input.revision == s.rounds[a.round].revision
    && Covers(s.rounds[a.round].requests, a.input.responses)
  }

  /** What a run keeps as long as every reopening is timely. */
  ghost predicate Isolated(s: State)
    requires s.rounds != []
  {
    && Increasing(s.rounds)
    && (forall c :: c in s.calls ==> CopyOk(s, s.calls[c]))
    && (forall k :: 0 <= k < |s.accepted| ==> AcceptanceOk(s, s.accepted[k]))
  }

  lemma CommitKeepsCopies(s: State, c: nat, x: nat)
    requires Inv(s) && Isolated(s) && c in s.calls && s.calls[c].phase.Checked? && x in s.calls
    ensures var t := CommitCall(s, c); t.rounds == s.rounds && x in t.calls && CopyOk(t, t.calls[x])
  {
    assert CopyOk(s, s.calls[x]) && CallOk(s, s.calls[c]) && CopyOk(s, s.calls[c]);
  }

  lemma CommitAcceptsForRound(s: State, c: nat)
    requires Inv(s) && Isolated(s) && Lands(s, c)
    ensures AcceptanceOk(s, Acceptance(|s.rounds| - 1, s.calls[c].input))
  {
    assert CallOk(s, s.calls[c]) && CopyOk(s, s.calls[c]);
    CheckAccepts(s.calls[c].phase.copy, s.calls[c].input);
  }

  lemma SameAcceptances(s: State, t: State)
    requires s.rounds <= t.rounds && forall k :: 0 <= k < |s.accepted| ==> AcceptanceOk(s, s.accepted[k])
    requires t.accepted == s.accepted || (|t.accepted| == |s.accepted| + 1 && t.accepted[..|s.accepted|] == s.accepted && AcceptanceOk(t, t.accepted[|s.accepted|]))
    ensures forall k :: 0 <= k < |t.accepted| ==> AcceptanceOk(t, t.accepted[k])
  {
    forall k | 0 <= k < |s.accepted|
      ensures AcceptanceOk(t, t.accepted[k])
    {
      assert AcceptanceOk(s, s.accepted[k]);
    }
  }

  lemma CommitKeepsIsolated(s: State, c: nat)
    requires Inv(s) && Isolated(s) && c in s.calls && s.calls[c].phase.Checked?
    ensures Isolated(CommitCall(s, c))
  {
    var t := CommitCall(s, c);
    forall x | x in t.calls
      ensures CopyOk(t, t.calls[x])
    {
      CommitKeepsCopies(s, c, x);
    }
    CommitKeepsInv(s, c);
    if Lands(s, c) {
      CommitAcceptsForRound(s, c);
    }
    SameAcceptances(s, t);
  }

  lemma AskAgainKeepsCopies(s: State, c: nat, requests: seq<Request>, x: nat)
    requires Inv(s) && Isolated(s) && Enabled(s, AskAgain(c, requests)) && Timely(s, AskAgain(c, requests)) && x in s.calls
    ensures var t := Next(s, AskAgain(c, requests)); t.rounds != [] && x in t.calls && CopyOk(t, t.calls[x])
  {
    assert CallOk(s, s.calls[c]) && CopyOk(s, s.calls[c]) && CallOk(s, s.calls[x]) && CopyOk(s, s.calls[x]);
  }

  lemma CheckKeepsCopies(s: State, c: nat, x: nat)
    requires Inv(s) && Isolated(s) && Enabled(s, CheckCopy(c)) && x in s.calls
    ensures var t := Next(s, CheckCopy(c)); t.rounds != [] && x in t.calls && CopyOk(t, t.calls[x])
  {
    assert CopyOk(s, s.calls[c]) && CopyOk(s, s.calls[x]);
    if Check(s.record, s.calls[c].input).Accepted? {
      CheckAccepts(s.record, s.calls[c].input);
    }
  }

  lemma NextKeepsCopies(s: State, e: Event, x: nat)
    requires Inv(s) && Isolated(s) && Enabled(s, e) && Timely(s, e) && !e.Commit? && x in Next(s, e).calls
    ensures Next(s, e).rounds != [] && CopyOk(Next(s, e), Next(s, e).calls[x])
  {
    if e.AskAgain? {
      AskAgainKeepsCopies(s, e.call, e.requests, x);
    } else if e.CheckCopy? {
      CheckKeepsCopies(s, e.call, x);
    } else {
      assert x in s.calls ==> CopyOk(s, s.calls[x]);
      QuietStep(s, e);
      SameCopies(s, Next(s, e), Next(s, e).calls[x]);
    }
  }

  lemma QuietStep(s: State, e: Event)
    requires Enabled(s, e) && !e.Commit? && !e.AskAgain?
    ensures Next(s, e).rounds == s.rounds && Next(s, e).record.revision == s.record.revision
  {
  }

  lemma SameCopies(s: State, t: State, call: Call)
    requires s.rounds != [] && t.rounds == s.rounds && t.record.revision == s.record.revision
    ensures CopyOk(t, call) <==> CopyOk(s, call)
  {
  }

  lemma NextKeepsIsolated(s: State, e: Event)
    requires Inv(s) && Isolated(s) && Enabled(s, e) && Timely(s, e)
    ensures Next(s, e).rounds != [] && Isolated(Next(s, e))
  {
    var t := Next(s, e);
    if e.Commit? {
      CommitKeepsIsolated(s, e.call);
    } else {
      ReopenAdvancesExactly(s, e);
      forall x | x in t.calls
        ensures CopyOk(t, t.calls[x])
      {
        NextKeepsCopies(s, e, x);
      }
      SameAcceptances(s, t);
    }
  }

  lemma {:induction false} RunKeepsIsolated(s: State, run: seq<Event>)
    requires Inv(s) && Isolated(s) && Possible(s, run) && AllTimely(s, run)
    ensures Run(s, run).rounds != [] && Isolated(Run(s, run))
    decreases |run|
  {
    if run != [] {
      NextKeepsInv(s, run[0]);
      NextKeepsIsolated(s, run[0]);
      RunKeepsIsolated(Next(s, run[0]), run[1..]);
    }
  }

  /** Approval rounds. Under every interleaving of respond calls each round consumes at most one submission,
      and that one names the round's revision. The revisions of the rounds strictly increase if and only if
      every reopening is timely; and then each accepted submission answers each request of its round exactly
      once. */
  lemma RoundsAreIsolated(requests: seq<Request>, run: seq<Event>)
    requires Possible(Start(requests), run)
    ensures var t := Run(Start(requests), run);
            && (forall k :: 0 <= k < |t.accepted| ==> NamesItsRound(t, t.accepted[k]))
            && (forall j, k :: 0 <= j < k < |t.accepted| ==> t.accepted[j].round < t.accepted[k].round)
            && (Increasing(t.rounds) <==> AllTimely(Start(requests), run))
            && (Increasing(t.rounds) ==> forall k :: 0 <= k < |t.accepted| ==> AcceptanceOk(t, t.accepted[k]))
  {
    RunKeepsInv(Start(requests), run);
    RevisionsIncreaseExactly(Start(requests), run);
    if AllTimely(Start(requests), run) {
      RunKeepsIsolated(Start(requests), run);
    }
  }

  /** One call drives the worker at a time: in every reachable state, while a call drives it, every call that
      arrives is turned away with nothing changed, and no other call drives it. */
  lemma OneCallDrives(requests: seq<Request>, run: seq<Event>, c: nat, d: nat)
    requires Possible(Start(requests), run)
    requires c in Run(Start(requests), run).calls && Run(Start(requests), run).calls[c].phase.Driving?
    ensures var t := Run(Start(requests), run);
            && (d in t.calls && t.calls[d].phase.Driving? ==> d == c)
            && (Enabled(t, Admit(d)) ==> Next(t, Admit(d)) == t.(calls := t.calls[d := t.calls[d].(phase := Over)]))
  {
    RunKeepsInv(Start(requests), run);
  }

  /** The end of a run, or of the whole interaction, sets its status and touches neither round nor submission. */
  lemma EndSetsStatus(s: State, e: Event)
    requires Enabled(s, e) && (e.Finish? || e.Close?)
    ensures var t := Next(s, e);
            && t.record.status == e.status && !t.record.status.Pending?
            && t.record.revision == s.record.revision && t.record.requests == s.record.requests && t.record.consumed == s.record.consumed
            && t.rounds == s.rounds && t.accepted == s.accepted
  {
  }

  // ---- retries ----

  /** Until the run asks again, an accepted submission sent again replays, the same operation with other
      answers is a conflict, and every other submission is refused. */
  lemma {:induction false} RetryReplays(s: State, run: seq<Event>, accepted: Submission, other: Submission)
    requires Possible(s, run) && forall i :: 0 <= i < |run| ==> !run[i].AskAgain?
    requires !s.record.status.Pending? && s.record.consumed == Some(Payload(accepted))
    ensures var record := Run(s, run).record;
            && Check(record, accepted) == Replayed
            && (other.requestId == accepted.requestId && Payload(other) != Payload(accepted) ==> Check(record, other) == Refused(IdempotencyConflict))
            && (other.requestId != accepted.requestId ==> Check(record, other) == Refused(NotPending))
    decreases |run|
  {
    if run != [] {
      RetryReplays(Next(s, run[0]), run[1..], accepted, other);
    }
  }

  /** A retry that comes after a later round opened is refused: its revision is of the past. */
  lemma LateRetryIsStale(requests: seq<Request>, run: seq<Event>, k: nat)
    requires Possible(Start(requests), run) && AllTimely(Start(requests), run)
    ensures var t := Run(Start(requests), run);
            k < |t.accepted| && t.record.status.Pending? ==> Check(t.record, t.accepted[k].input) == Refused(StaleRevision)
  {
    RoundsAreIsolated(requests, run);
    RunKeepsInv(Start(requests), run);
  }

  // ---- a run in which an answer crosses rounds ----

  const Ask := [[Request("a", [])], [Request("b", [])], [Request("c", [])]]

  function Answer(requestId: string, revision: int, id: string): Submission {
    Submission(requestId, revision, [Response(id, "approve", "")])
  }

  lemma AnswerChecks(requestId: string, revision: int, id: string)
    ensures Check(Interaction(Pending, revision, [Request(id, [])], None), Answer(requestId, revision, id)) == Accepted(Approved)
  {
    var requests, responses := [Request(id, [])], Answer(requestId, revision, id).responses;
    assert responses[..0] == [] && Ids(responses) == [] + [id];
    assert Wanted(requests) == {id} by { assert requests[0] in requests; }
    assert requests[..0] == [];
    assert FirstFault(requests, responses[..0]) == None;
    assert Fault(requests, responses[0]) == None;
  }


  lemma {:induction false} Then(s: State, run: seq<Event>, e: Event)
    requires Possible(s, run) && Enabled(Run(s, run), e)
    ensures Possible(s, run + [e]) && Run(s, run + [e]) == Next(Run(s, run), e)
    decreases |run|
  {
    if run == [] {
      assert run + [e] == [e];
      assert [e][1..] == [];
    } else {
      assert (run + [e])[1..] == run[1..] + [e];
      Then(Next(s, run[0]), run[1..], e);
    }
  }

  const FirstRound := Interaction(Pending, 0, Ask[0], None)

  const SecondRound := Interaction(Pending, 1, Ask[1], None)

  /** The second round is open; the second call, which names revision 1, still holds its copy of the first. */
  const Halfway := State(SecondRound,
                         map[1 := Call(Answer("x", 0, "a"), Over), 2 := Call(Answer("y", 1, "b"), Admitted(FirstRound))],
                         false, [Round(0, Ask[0]), Round(1, Ask[1])], [Acceptance(0, Answer("x", 0, "a"))])

  lemma ReachHalfway() returns (run: seq<Event>)
    ensures Possible(Start(Ask[0]), run) && Run(Start(Ask[0]), run) == Halfway
  {
    AnswerChecks("x", 0, "a");
    var s := Start(Ask[0]);
    run := [];
    Then(s, run, Open(1, Answer("x", 0, "a")));
    run := run + [Open(1, Answer("x", 0, "a"))];
    Then(s, run, Open(2, Answer("y", 1, "b")));
    run := run + [Open(2, Answer("y", 1, "b"))];
    Then(s, run, Admit(1));
    run := run + [Admit(1)];
    Then(s, run, Admit(2));
    run := run + [Admit(2)];
    Then(s, run, CheckCopy(1));
    run := run + [CheckCopy(1)];
    Then(s, run, Commit(1));
    run := run + [Commit(1)];
    Then(s, run, Resume(1, true));
    run := run + [Resume(1, true)];
    Then(s, run, AskAgain(1, Ask[1]));
    run := run + [AskAgain(1, Ask[1])];
    assert Run(s, run) == Halfway;
  }

  /** Why timeliness matters. The second call names revision 1 while the interaction is still at revision 0.
      When it has been accepted, the third round opens with revision 1 again, and an answer that was checked
      against the requests of the second round is accepted for the third, which it does not answer. */
  lemma UntimelyCrossesRounds() returns (run: seq<Event>)
    ensures Possible(Start(Ask[0]), run)
    ensures var t := Run(Start(Ask[0]), run);
            && |t.rounds| == 3 && t.rounds[1].revision == t.rounds[2].revision
            && |t.accepted| == 3 && t.accepted[2] == Acceptance(2, Answer("z", 1, "b"))
            && !Covers(t.rounds[2].requests, t.accepted[2].input.responses)
  {
    AnswerChecks("y", 1, "b");
    AnswerChecks("z", 1, "b");
    var s := Start(Ask[0]);
    run := ReachHalfway();
    Then(s, run, Open(3, Answer("z", 1, "b")));
    run := run + [Open(3, Answer("z", 1, "b"))];
    Then(s, run, Admit(3));
    run := run + [Admit(3)];
    Then(s, run, CheckCopy(2));
    run := run + [CheckCopy(2)];
    Then(s, run, CheckCopy(3));
    run := run + [CheckCopy(3)];
    Then(s, run, Commit(2));
    run := run + [Commit(2)];
    Then(s, run, Resume(2, true));
    run := run + [Resume(2, true)];
    Then(s, run, AskAgain(2, Ask[2]));
    run := run + [AskAgain(2, Ask[2])];
    Then(s, run, Commit(3));
    run := run + [Commit(3)];
    OtherAnswer("z", 1);
  }

  lemma OtherAnswer(requestId: string, revision: int)
    ensures !Covers(Ask[2], Answer(requestId, revision, "b").responses)
  {
    var responses := Answer(requestId, revision, "b").responses;
    assert responses[..0] == [] && Ids(responses) == [] + ["b"];
    assert "b" in multiset(Ids(responses)) && "b" !in Wanted(Ask[2]);
  }

  // ---- the code, against the functions above ----

  class InteractionStore {
    var interactions: map<string, Interaction>

    constructor ()
      ensures interactions == map[]
    {
      interactions := map[];
    }

    method CreateInteraction(id: string, requests: seq<Request>)
      requires id !in interactions
      modifies this
      ensures interactions == old(interactions)[id := Start(requests).record]
    {
      interactions := interactions[id := Interaction(Pending, 0, requests, None)];
    }

    /** Compare-and-set of one decision. */
    method TransitionInteraction(id: string, expected: int, status: Status, consumed: Consumed) returns (applied: bool, record: Option<Interaction>)
      modifies this
      ensures applied <==> id in old(interactions) && old(interactions)[id].revision == expected && old(interactions)[id].status.Pending?
      ensures interactions == if applied then old(interactions)[id := old(interactions)[id].(status := status, revision := expected + 1, consumed := Some(consumed))]
                              else old(interactions)
      ensures record == if id in interactions then Some(interactions[id]) else None
    {
      if id !in interactions {
        return false, None;
      }
      var rec := interactions[id];
      if rec.revision != expected || !rec.status.Pending? {
        return false, Some(rec);
      }
      var next := rec.(status := status, revision := expected + 1, consumed := Some(consumed));
      interactions := interactions[id := next];
      return true, Some(next);
    }

    /** The unconditional write with which a run that asks again reopens its interaction. */
    method ReopenInteraction(id: string, outer: Interaction, requests: seq<Request>)
      requires id in interactions
      modifies this
      ensures interactions == old(interactions)[id := Reopen(old(interactions)[id], outer, requests)]
    {
      interactions := interactions[id := interactions[id].(status := Pending, revision := outer.revision + 1, requests := requests, consumed := None)];
    }
  }

  class InteractionBroker {
    const store: InteractionStore

    constructor (store: InteractionStore)
      ensures this.store == store
    {
      this.store := store;
    }

    method IdsWanted(requests: seq<Request>) returns (want: set<string>)
      ensures want == Wanted(requests)
    {
      want := {};
      for i := 0 to |requests|
        invariant want == Wanted(requests[..i])
      {
        assert requests[..i + 1] == requests[..i] + [requests[i]];
        want := want + {requests[i].id};
      }
      assert requests[..|requests|] == requests;
    }

    /** Nothing missing, nothing extra, nothing twice. */
    method CoversAll(requests: seq<Request>, responses: seq<Response>) returns (ok: bool)
      ensures ok <==> Covers(requests, responses)
    {
      CoversExactlyOnce(requests, responses);
      var want := IdsWanted(requests);
      var got: set<string> := {};
      var twice := false;
      assert responses[..0] == [];
      for i := 0 to |responses|
        invariant got == Named(Ids(responses[..i]))
        invariant !twice <==> NoRepeat(Ids(responses[..i]))
      {
        var id := responses[i].id;
        assert responses[..i + 1][..i] == responses[..i];
        ghost var ids := Ids(responses[..i]);
        assert Ids(responses[..i + 1]) == ids + [id];
        AppendedId(ids, id);
        twice := twice || id in got;
        got := got + {id};
      }
      assert responses[..|responses|] == responses;
      return got == want && !twice;
    }

    /** The action and the scope of each answer, in order. */
    method FirstFaulty(requests: seq<Request>, responses: seq<Response>) returns (fault: Option<Error>)
      ensures fault == FirstFault(requests, responses)
    {
      fault := None;
      assert responses[..0] == [];
      for i := 0 to |responses|
        invariant fault == FirstFault(requests, responses[..i]) == None
      {
        var r := responses[i];
        assert responses[..i + 1][..i] == responses[..i];
        if !KnownAction(r.action) {
          FaultStays(requests, responses, i + 1);
          return Some(IncompleteResponses);
        }
        if r.action != "reject" && r.scope != "" && r.scope !in OptionsOf(requests, r.id) {
          FaultStays(requests, responses, i + 1);
          return Some(InvalidScope);
        }
      }
      assert responses[..|responses|] == responses;
    }

    /** Checks a submission against the copy that was read before, and consumes it if the interaction is
        still what was checked. */
    method Submit(id: string, read: Option<Interaction>, input: Submission) returns (v: Verdict)
      modifies store
      ensures read.None? ==> v == Refused(NotFound) && store.interactions == old(store.interactions)
      ensures read.Some? ==>
                var checked := Check(read.value, input);
                if checked.Accepted? && id in old(store.interactions) then
                  var (record, verdict) := Consume(old(store.interactions)[id], read.value, input, checked.decision);
                  v == verdict && store.interactions == old(store.interactions)[id := record]
                else v == (if checked.Accepted? then Refused(NotPending) else checked) && store.interactions == old(store.interactions)
    {
      if read.None? {
        return Refused(NotFound);
      }
      var copy := read.value;
      if copy.consumed.Some? && copy.consumed.value.requestId == input.requestId {
        return if copy.consumed.value != Payload(input) then Refused(IdempotencyConflict) else Replayed;
      }
      if !copy.status.Pending? {
        return Refused(NotPending);
      }
      if copy.revision != input.revision {
        return Refused(StaleRevision);
      }
      var covers := CoversAll(copy.requests, input.responses);
      if !covers {
        return Refused(IncompleteResponses);
      }
      var fault := FirstFaulty(copy.requests, input.responses);
      if fault.Some? {
        return Refused(fault.value);
      }
      var decision := if exists i :: 0 <= i < |input.responses| && input.responses[i].action == "reject" then Rejected else Approved;
      var applied, record := store.TransitionInteraction(id, copy.revision, decision, Payload(input));
      if applied {
        return Accepted(decision);
      }
      return if record.Some? && record.value.consumed == Some(Payload(input)) then Replayed else Refused(NotPending);
    }
  }

  lemma AppendedId(ids: seq<string>, id: string)
    ensures NoRepeat(ids + [id]) <==> NoRepeat(ids) && id !in Named(ids)
    ensures Named(ids + [id]) == Named(ids) + {id}
  {
    if NoRepeat(ids + [id]) {
      forall i, j | 0 <= i < j < |ids|
        ensures ids[i] != ids[j]
      {
        assert (ids + [id])[i] != (ids + [id])[j];
      }
      forall i | 0 <= i < |ids|
        ensures ids[i] != id
      {
        assert (ids + [id])[i] != (ids + [id])[|ids|];
      }
    }
  }

  lemma {:induction false} FaultStays(requests: seq<Request>, responses: seq<Response>, n: nat)
    requires n <= |responses| && FirstFault(requests, responses[..n]).Some?
    ensures FirstFault(requests, responses) == FirstFault(requests, responses[..n])
    decreases |responses| - n
  {
    if n == |responses| {
      assert responses[..n] == responses;
    } else {
      assert responses[..n + 1][..n] == responses[..n];
      FaultStays(requests, responses, n + 1);
    }
  }
}
