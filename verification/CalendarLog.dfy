/**
 * The calendar store: events and, in the same atomic file, one receipt per accepted operation.
 *
 * The fingerprint of a request is the request's own content, for the hash over its canonical form is taken to
 * be injective. `input` is what normalising the request's input gave; `None` is input that was refused.
 */
module CalendarLog {
  import opened Wrappers

  type Content = string

  datatype Status = Confirmed | Done | Cancelled

  datatype Event = Event(id: string, content: Content, status: Status, noteRefs: seq<string>, revision: int, operationId: string)

  datatype Action = Create | Update | Cancel | SetStatus(status: Status)

  datatype Request = Request(owner: string, action: Action, id: Option<string>, operationId: string, expected: int, input: Option<Content>)

  datatype Fingerprint = Fingerprint(action: Action, id: Option<string>, expected: int, input: Option<Content>)

  datatype Stored = Stored(owner: string, event: Event)

  datatype Receipt = Receipt(fingerprint: Fingerprint, result: Event)

  datatype Key = Key(owner: string, operationId: string)

  /** `history` is a history variable: the operations of each event, oldest first. */
  datatype File = File(events: map<string, Stored>, operations: map<Key, Receipt>, history: map<string, seq<Key>>)

  datatype Error = InvalidInput | NotFound | RevisionConflict | OperationConflict | NotWritten

  /** How the end of an operation goes: its guard may refuse, its write may fail without landing. */
  datatype Fate = Committed | GuardRefused | WriteFailed

  const MaxSafe := 0x1F_FFFF_FFFF_FFFF

  const Empty := File(map[], map[], map[])

  predicate OperationChar(c: char) {
    'a' <= c <= 'z' || 'A' <= c <= 'Z' || '0' <= c <= '9' || c == '_' || c == '-'
  }

  predicate NeedsInput(a: Action) {
    a.Create? || a.Update?
  }

  predicate WellFormedRequest(q: Request) {
    && 1 <= |q.operationId| <= 128 && (forall i :: 0 <= i < |q.operationId| ==> OperationChar(q.operationId[i]))
    && 0 <= q.expected <= MaxSafe
    && (NeedsInput(q.action) ==> q.input.Some?)
  }

  function FingerprintOf(q: Request): Fingerprint {
    Fingerprint(q.action, q.id, q.expected, if NeedsInput(q.action) then q.input else None)
  }

  function KeyOf(q: Request): Key {
    Key(q.owner, q.operationId)
  }

  /** The event an accepted request leaves behind, from the event it found. */
  function Evolve(e: Event, p: Fingerprint, operationId: string): Event {
    var next := e.(revision := e.revision + 1, operationId := operationId);
    match p.action
    case Update => next.(content := if p.input.Some? then p.input.value else e.content, status := Confirmed)
    case Cancel => next.(status := Cancelled)
    case SetStatus(status) => next.(status := status)
    case Create => next
  }

  function Created(id: string, p: Fingerprint, operationId: string): Event {
    Event(id, if p.input.Some? then p.input.value else "", Confirmed, [], 1, operationId)
  }

  /** What the store answers a new operation with; `newId` is the id a creation draws. */
  function Outcome(f: File, q: Request, newId: string): Result<Event, Error> {
    if q.action.Create? then
      if q.expected != 0 then Err(RevisionConflict) else Ok(Created(newId, FingerprintOf(q), q.operationId))
    else if q.id.None? || q.id.value !in f.events || f.events[q.id.value].owner != q.owner then Err(NotFound)
    else
      var e := f.events[q.id.value].event;
      if e.revision != q.expected || (!q.action.SetStatus? && !e.status.Confirmed?) then Err(RevisionConflict)
      else Ok(Evolve(e, FingerprintOf(q), q.operationId))
  }

  function Commit(f: File, q: Request, e: Event): File {
    File(f.events[e.id := Stored(q.owner, e)], f.operations[KeyOf(q) := Receipt(FingerprintOf(q), e)],
         f.history[e.id := (if e.id in f.history then f.history[e.id] else []) + [KeyOf(q)]])
  }

  /** The whole handling of a request: a known operation is answered from its receipt. */
  function Handle(f: File, q: Request, newId: string, fate: Fate): (File, Result<Event, Error>) {
    if !WellFormedRequest(q) then (f, Err(InvalidInput))
    else if KeyOf(q) in f.operations then
      (f, if f.operations[KeyOf(q)].fingerprint != FingerprintOf(q) then Err(OperationConflict) else Ok(f.operations[KeyOf(q)].result))
    else
      var r := Outcome(f, q, newId);
      if r.Err? then (f, r)
      else if !fate.Committed? then (f, Err(NotWritten))
      else (Commit(f, q, r.value), r)
  }

  // ---- every run ----

  datatype Call = Call(request: Request, newId: string, fate: Fate)

  /** Drawn ids are fresh when they are drawn. */
  ghost predicate Fresh(f: File, calls: seq<Call>)
    decreases |calls|
  {
    calls == [] ||
    (calls[0].newId !in f.events && Fresh(Handle(f, calls[0].request, calls[0].newId, calls[0].fate).0, calls[1..]))
  }

  function Run(f: File, calls: seq<Call>): File
    decreases |calls|
  {
    if calls == [] then f else Run(Handle(f, calls[0].request, calls[0].newId, calls[0].fate).0, calls[1..])
  }

  // ---- the log is linear ----

  /** Step n of an event's history: the receipt of revision n + 1, made from the receipt before it. */
  ghost predicate Link(f: File, id: string, n: nat)
    requires id in f.history && n < |f.history[id]|
  {
    var k := f.history[id][n];
    && id in f.events && k in f.operations && k.owner == f.events[id].owner
    && var r := f.operations[k];
       && r.result.id == id && r.result.revision == n + 1 && r.fingerprint.expected == n
       && if n == 0 then r.fingerprint.action.Create? && r.result == Created(id, r.fingerprint, k.operationId)
          else
            && !r.fingerprint.action.Create? && r.fingerprint.id == Some(id)
            && f.history[id][n - 1] in f.operations
            && r.result == Evolve(f.operations[f.history[id][n - 1]].result, r.fingerprint, k.operationId)
  }

  ghost predicate Linear(f: File, id: string)
    requires id in f.history && id in f.events
  {
    var h := f.history[id];
    && h != [] && f.events[id].event.revision == |h|
    && (forall n {:trigger Link(f, id, n)} :: 0 <= n < |h| ==> Link(f, id, n))
    && h[|h| - 1] in f.operations && f.operations[h[|h| - 1]].result == f.events[id].event
  }

  /** A receipt stands at its place in the history of its event. */
  ghost predicate Placed(f: File, k: Key)
    requires k in f.operations
  {
    var e := f.operations[k].result;
    e.id in f.history && 1 <= e.revision <= |f.history[e.id]| && f.history[e.id][e.revision - 1] == k
  }

  ghost predicate Inv(f: File) {
    && f.history.Keys == f.events.Keys
    && (forall id {:trigger Linear(f, id)} :: id in f.events ==> Linear(f, id))
    && (forall k {:trigger Placed(f, k)} :: k in f.operations ==> Placed(f, k))
  }

  /** Where a commit adds to the history. */
  ghost predicate Extends(f: File, q: Request, e: Event) {
    && KeyOf(q) !in f.operations
    && if q.action.Create? then e.id !in f.events && q.expected == 0 && e == Created(e.id, FingerprintOf(q), q.operationId)
       else
         && e.id in f.events && q.id == Some(e.id) && f.events[e.id].owner == q.owner
         && f.events[e.id].event.revision == q.expected
         && e == Evolve(f.events[e.id].event, FingerprintOf(q), q.operationId)
  }

  lemma OtherLinksStay(f: File, q: Request, e: Event, id: string, n: nat)
    requires Inv(f) && Extends(f, q, e) && id in f.events && n < |f.history[id]|
    ensures var g := Commit(f, q, e);
            id in g.history && n < |g.history[id]| && g.history[id][n] == f.history[id][n] && Link(g, id, n)
  {
    assert Linear(f, id) && Link(f, id, n);
    if n > 0 {
      assert Link(f, id, n - 1);
    }
  }

  lemma NewLink(f: File, q: Request, e: Event)
    requires Inv(f) && Extends(f, q, e)
    ensures var g := Commit(f, q, e);
            e.id in g.history && e.id in g.events && Linear(g, e.id)
  {
    var g := Commit(f, q, e);
    if e.id in f.events {
      assert Linear(f, e.id);
      var m := |f.history[e.id]|;
      assert Link(f, e.id, m - 1);
      forall n | 0 <= n < m
        ensures Link(g, e.id, n)
      {
        OtherLinksStay(f, q, e, e.id, n);
      }
      assert Link(g, e.id, m);
    } else {
      assert g.history[e.id] == [KeyOf(q)];
      assert Link(g, e.id, 0);
    }
  }

  lemma CommitKeepsInv(f: File, q: Request, e: Event)
    requires Inv(f) && Extends(f, q, e)
    ensures Inv(Commit(f, q, e))
  {
    var g := Commit(f, q, e);
    NewLink(f, q, e);
    forall id | id in g.events && id != e.id
      ensures Linear(g, id)
    {
      assert Linear(f, id);
      forall n | 0 <= n < |f.history[id]|
        ensures Link(g, id, n)
      {
        OtherLinksStay(f, q, e, id, n);
      }
    }
    forall k | k in g.operations
      ensures Placed(g, k)
    {
      if k != KeyOf(q) {
        assert Placed(f, k);
      } else if e.id in f.events {
        assert Linear(f, e.id);
      }
    }
  }

  lemma EventKeepsId(f: File, id: string)
    requires Inv(f) && id in f.events
    ensures f.events[id].event.id == id && 1 <= f.events[id].event.revision
  {
    assert Linear(f, id) && Link(f, id, |f.history[id]| - 1);
  }

  lemma HandleKeepsInv(f: File, c: Call)
    requires Inv(f) && c.newId !in f.events
    ensures Inv(Handle(f, c.request, c.newId, c.fate).0)
  {
    var q := c.request;
    if WellFormedRequest(q) && KeyOf(q) !in f.operations && c.fate.Committed? {
      var r := Outcome(f, q, c.newId);
      if r.Ok? {
        if !q.action.Create? {
          EventKeepsId(f, q.id.value);
        }
        CommitKeepsInv(f, q, r.value);
      }
    }
  }

  lemma {:induction false} RunKeepsInv(f: File, calls: seq<Call>)
    requires Inv(f) && Fresh(f, calls)
    ensures Inv(Run(f, calls))
    decreases |calls|
  {
    if calls != [] {
      HandleKeepsInv(f, calls[0]);
      RunKeepsInv(Handle(f, calls[0].request, calls[0].newId, calls[0].fate).0, calls[1..]);
    }
  }

  /** The receipts of one revision of one event. */
  function ReceiptsOf(f: File, id: string, revision: int): set<Key> {
    set k | k in f.operations && f.operations[k].result.id == id && f.operations[k].result.revision == revision
  }

  /** In every reachable store each revision of an event, from 1 to the current one, has exactly one receipt,
      given to the event's owner; there are no receipts of other revisions; and the last is the event. */
  lemma OneReceiptPerRevision(calls: seq<Call>, id: string, revision: int)
    requires Fresh(Empty, calls) && id in Run(Empty, calls).events
    ensures var f := Run(Empty, calls);
            var current := f.events[id].event;
            && (|ReceiptsOf(f, id, revision)| == 1 <==> 1 <= revision <= current.revision)
            && (ReceiptsOf(f, id, revision) == {} <==> !(1 <= revision <= current.revision))
            && (forall k :: k in ReceiptsOf(f, id, revision) ==>
                  && k.owner == f.events[id].owner && f.operations[k].fingerprint.expected == revision - 1
                  && (revision == current.revision ==> f.operations[k].result == current))
  {
    RunKeepsInv(Empty, calls);
    var f := Run(Empty, calls);
    var h := f.history[id];
    assert Linear(f, id);
    forall k | k in ReceiptsOf(f, id, revision)
      ensures 1 <= revision <= |h| && k == h[revision - 1]
    {
      assert Placed(f, k);
    }
    if 1 <= revision <= |h| {
      assert Link(f, id, revision - 1);
      assert h[revision - 1] in ReceiptsOf(f, id, revision);
      assert ReceiptsOf(f, id, revision) == {h[revision - 1]};
    } else {
      assert ReceiptsOf(f, id, revision) == {};
    }
  }

  /** The event rebuilt from the requests of its first n receipts. */
  function Rebuilt(f: File, id: string, n: nat): Event
    requires id in f.history && 0 < n <= |f.history[id]| && forall i :: 0 <= i < n ==> f.history[id][i] in f.operations
  {
    var k := f.history[id][n - 1];
    if n == 1 then Created(id, f.operations[k].fingerprint, k.operationId)
    else Evolve(Rebuilt(f, id, n - 1), f.operations[k].fingerprint, k.operationId)
  }

  /** The current event is what its accepted requests, played in the order of their revisions, make of it. */
  lemma {:induction false} HistoryMakesEvent(f: File, id: string, n: nat)
    requires Inv(f) && id in f.events && 0 < n <= |f.history[id]|
    ensures forall i :: 0 <= i < n ==> f.history[id][i] in f.operations
    ensures Rebuilt(f, id, n) == f.operations[f.history[id][n - 1]].result
    ensures n == |f.history[id]| ==> Rebuilt(f, id, n) == f.events[id].event
    decreases n
  {
    assert Linear(f, id) && Link(f, id, n - 1);
    if n > 1 {
      HistoryMakesEvent(f, id, n - 1);
    }
  }

  // ---- exactly once ----

  lemma {:induction false} ReceiptsStay(f: File, calls: seq<Call>, k: Key)
    requires k in f.operations
    ensures k in Run(f, calls).operations && Run(f, calls).operations[k] == f.operations[k]
    decreases |calls|
  {
    if calls != [] {
      ReceiptsStay(Handle(f, calls[0].request, calls[0].newId, calls[0].fate).0, calls[1..], k);
    }
  }

  /** An accepted request sent again, any time later and whatever happened since, changes nothing and gets
      its original answer. */
  lemma ResendingChangesNothing(f: File, c: Call, later: seq<Call>, newId: string, fate: Fate)
    requires Handle(f, c.request, c.newId, c.fate).1.Ok?
    ensures var (g, answer) := Handle(f, c.request, c.newId, c.fate);
            var t := Run(g, later);
            Handle(t, c.request, newId, fate) == (t, answer)
  {
    var g := Handle(f, c.request, c.newId, c.fate).0;
    ReceiptsStay(g, later, KeyOf(c.request));
  }

  /** The requests ask for the same: action, event, expected revision, and content where the action needs it. */
  predicate AskSame(q: Request, r: Request) {
    && q.action == r.action && q.id == r.id && q.expected == r.expected
    && (q.action.Create? || q.action.Update? ==> q.input == r.input)
  }

  /** An operation id stands for one request: once it was accepted, a request of the same owner under it gets the
      original answer if it asks for the same, and is refused as a conflict if it does not; nothing changes. */
  lemma OperationNamesOneRequest(f: File, c: Call, later: seq<Call>, q: Request, newId: string, fate: Fate)
    requires KeyOf(c.request) !in f.operations && Handle(f, c.request, c.newId, c.fate).1.Ok?
    requires q.owner == c.request.owner && q.operationId == c.request.operationId && WellFormedRequest(q)
    ensures var (g, answer) := Handle(f, c.request, c.newId, c.fate);
            var t := Run(g, later);
            Handle(t, q, newId, fate) == (t, if AskSame(c.request, q) then answer else Err(OperationConflict))
  {
    var g := Handle(f, c.request, c.newId, c.fate).0;
    ReceiptsStay(g, later, KeyOf(c.request));
  }

  /** Of the requests that expect the same revision of an event, one is accepted. */
  lemma OneRequestPerRevision(f: File, j: Key, k: Key)
    requires Inv(f) && j in f.operations && k in f.operations
    requires f.operations[j].result.id == f.operations[k].result.id
    requires f.operations[j].fingerprint.expected == f.operations[k].fingerprint.expected
    ensures j == k
  {
    assert Placed(f, j) && Placed(f, k);
    var id := f.operations[j].result.id;
    assert Linear(f, id);
    assert Link(f, id, f.operations[j].result.revision - 1) && Link(f, id, f.operations[k].result.revision - 1);
  }

  /** Nobody's request changes somebody else's events. */
  lemma OwnersApart(f: File, c: Call, id: string)
    requires Inv(f) && c.newId !in f.events && id in f.events && f.events[id].owner != c.request.owner
    ensures var g := Handle(f, c.request, c.newId, c.fate).0;
            id in g.events && g.events[id] == f.events[id]
  {
    var q := c.request;
    if q.id.Some? && q.id.value in f.events {
      EventKeepsId(f, q.id.value);
    }
  }

  // ---- what each request does to an event ----

  /** The request names an event of its owner. */
  predicate Names(f: File, q: Request) {
    q.id.Some? && q.id.value in f.events && f.events[q.id.value].owner == q.owner
  }

  /** An operation id of 1 to 128 letters, digits, underscores and hyphens, an expected revision that is a safe
      integer, and content where the action needs it. */
  predicate InOrder(q: Request) {
    && 0 < |q.operationId| < 129 && 0 <= q.expected < 0x20_0000_0000_0000
    && (forall i :: 0 <= i < |q.operationId| ==>
          var c := q.operationId[i]; c == '_' || c == '-' || '0' <= c <= '9' || 'A' <= c <= 'Z' || 'a' <= c <= 'z')
    && (q.action.Create? || q.action.Update? ==> q.input.Some?)
  }

  /** A new operation is accepted exactly when it is well formed, meets the state it expects, and its write is
      committed: a creation expects revision 0; any other request names an event of its owner at the revision it
      expects, and an update or a cancellation also a confirmed one. A refusal changes nothing. */
  lemma {:induction false} AcceptedExactly(f: File, q: Request, newId: string, fate: Fate)
    requires KeyOf(q) !in f.operations
    ensures var (g, r) := Handle(f, q, newId, fate);
            && (r.Ok? <==>
                  && InOrder(q) && fate.Committed?
                  && if q.action.Create? then q.expected == 0
                     else
                       && Names(f, q) && f.events[q.id.value].event.revision == q.expected
                       && (q.action.SetStatus? || f.events[q.id.value].event.status.Confirmed?))
            && (r.Err? ==> g == f)
            && (r.Err? && r.error.NotFound? ==> !q.action.Create? && !Names(f, q))
            && (r.Err? && r.error.RevisionConflict? ==>
                  if q.action.Create? then q.expected != 0
                  else Names(f, q) && (f.events[q.id.value].event.revision != q.expected || !f.events[q.id.value].event.status.Confirmed?))
            && (r.Err? && r.error.InvalidInput? ==> !InOrder(q))
            && (r.Err? && r.error.NotWritten? ==> !fate.Committed?)
            && !(r.Err? && r.error.OperationConflict?)
  {
    assert WellFormedRequest(q) <==> InOrder(q);
  }

  /** What an accepted request makes of its event, field by field. A creation gives the content under the drawn
      id, confirmed, at revision 1; an update replaces the content and nothing else; a cancellation and a status
      change touch the status alone. Every change counts the revision up by one and bears the operation's id, and
      no other event changes. */
  lemma {:induction false} AcceptedMakes(f: File, q: Request, newId: string, fate: Fate)
    requires Inv(f) && KeyOf(q) !in f.operations && Handle(f, q, newId, fate).1.Ok?
    ensures var (g, r) := Handle(f, q, newId, fate);
            var e := r.value;
            && g.events == f.events[e.id := Stored(q.owner, e)] && e.operationId == q.operationId
            && match q.action
               case Create => e.id == newId && e.content == q.input.value && e.status.Confirmed? && e.noteRefs == [] && e.revision == 1
               case Update =>
                 var was := f.events[q.id.value].event;
                 && e.id == q.id.value && e.revision == was.revision + 1 && e.noteRefs == was.noteRefs
                 && e.content == q.input.value && was.status.Confirmed? && e.status.Confirmed?
               case Cancel =>
                 var was := f.events[q.id.value].event;
                 && e.id == q.id.value && e.revision == was.revision + 1 && e.noteRefs == was.noteRefs
                 && e.content == was.content && was.status.Confirmed? && e.status.Cancelled?
               case SetStatus(status) =>
                 var was := f.events[q.id.value].event;
                 && e.id == q.id.value && e.revision == was.revision + 1 && e.noteRefs == was.noteRefs
                 && e.content == was.content && e.status == status
  {
    if q.id.Some? && q.id.value in f.events {
      EventKeepsId(f, q.id.value);
    }
  }

  /** The request would confirm the event again. */
  predicate Confirms(q: Request, id: string) {
    q.action == SetStatus(Confirmed) && q.id == Some(id)
  }

  lemma {:induction false} CallKeepsClosed(f: File, c: Call, id: string)
    requires Inv(f) && c.newId !in f.events && id in f.events && !f.events[id].event.status.Confirmed? && !Confirms(c.request, id)
    ensures var g := Handle(f, c.request, c.newId, c.fate).0; id in g.events && !g.events[id].event.status.Confirmed?
  {
    if KeyOf(c.request) !in f.operations && Handle(f, c.request, c.newId, c.fate).1.Ok? {
      AcceptedMakes(f, c.request, c.newId, c.fate);
    }
  }

  lemma {:induction false} RunKeepsClosed(f: File, calls: seq<Call>, id: string)
    requires Inv(f) && Fresh(f, calls) && id in f.events && !f.events[id].event.status.Confirmed?
    requires forall i :: 0 <= i < |calls| ==> !Confirms(calls[i].request, id)
    ensures var t := Run(f, calls); id in t.events && !t.events[id].event.status.Confirmed?
    decreases |calls|
  {
    if calls != [] {
      CallKeepsClosed(f, calls[0], id);
      HandleKeepsInv(f, calls[0]);
      RunKeepsClosed(Handle(f, calls[0].request, calls[0].newId, calls[0].fate).0, calls[1..], id);
    }
  }

  /** After an accepted cancellation, and whatever happens then, every new update or cancellation of the event is
      refused and changes nothing, until a request confirms the event again. */
  lemma {:induction false} CancelledIsClosed(f: File, c: Call, later: seq<Call>, d: Call)
    requires Inv(f) && c.newId !in f.events && c.request.action.Cancel? && KeyOf(c.request) !in f.operations
    requires Handle(f, c.request, c.newId, c.fate).1.Ok?
    requires var g := Handle(f, c.request, c.newId, c.fate).0;
             Fresh(g, later) && forall i :: 0 <= i < |later| ==> !Confirms(later[i].request, c.request.id.value)
    requires (d.request.action.Update? || d.request.action.Cancel?) && d.request.id == c.request.id
    ensures var t := Run(Handle(f, c.request, c.newId, c.fate).0, later);
            KeyOf(d.request) !in t.operations ==>
              Handle(t, d.request, d.newId, d.fate).0 == t && Handle(t, d.request, d.newId, d.fate).1.Err?
  {
    var g := Handle(f, c.request, c.newId, c.fate).0;
    AcceptedMakes(f, c.request, c.newId, c.fate);
    HandleKeepsInv(f, c);
    RunKeepsClosed(g, later, c.request.id.value);
  }

  // ---- the store ----

  class CalendarStore {
    var events: map<string, Stored>
    var operations: map<Key, Receipt>
    ghost var history: map<string, seq<Key>>

    ghost function View(): File
      reads this
    {
      File(events, operations, history)
    }

    ghost predicate Valid()
      reads this
    {
      Inv(View())
    }

    constructor ()
      ensures Valid() && View() == Empty
    {
      events, operations, history := map[], map[], map[];
    }

    method Get(owner: string, id: string) returns (r: Result<Event, Error>)
      ensures r == if id in events && events[id].owner == owner then Ok(events[id].event) else Err(NotFound)
    {
      if id !in events || events[id].owner != owner {
        return Err(NotFound);
      }
      return Ok(events[id].event);
    }

    /** The receipt of a request that was already accepted; nothing when its operation is new. */
    method Replay(q: Request) returns (r: Result<Option<Event>, Error>)
      requires Valid() && !q.action.SetStatus?
      ensures r.Ok? && r.value.Some? <==> WellFormedRequest(q) && KeyOf(q) in operations && operations[KeyOf(q)].fingerprint == FingerprintOf(q)
      ensures r.Ok? && r.value.Some? ==> forall newId, fate :: Handle(View(), q, newId, fate) == (View(), Ok(r.value.value))
      ensures r.Ok? && r.value.None? <==> WellFormedRequest(q) && KeyOf(q) !in operations
      ensures r.Err? ==> forall newId, fate :: Handle(View(), q, newId, fate) == (View(), Err(r.error))
    {
      if !WellFormedRequest(q) {
        return Err(InvalidInput);
      }
      if KeyOf(q) !in operations {
        return Ok(None);
      }
      if operations[KeyOf(q)].fingerprint != FingerprintOf(q) {
        return Err(OperationConflict);
      }
      return Ok(Some(operations[KeyOf(q)].result));
    }

    /** Event and receipt land in one write, after the guard. */
    method Write(q: Request, e: Event, fate: Fate) returns (r: Result<Event, Error>)
      modifies this
      ensures View() == if fate.Committed? then Commit(old(View()), q, e) else old(View())
      ensures r == if fate.Committed? then Ok(e) else Err(NotWritten)
    {
      if !fate.Committed? {
        return Err(NotWritten);
      }
      events := events[e.id := Stored(q.owner, e)];
      operations := operations[KeyOf(q) := Receipt(FingerprintOf(q), e)];
      history := history[e.id := (if e.id in history then history[e.id] else []) + [KeyOf(q)]];
      return Ok(e);
    }

    method SetStatus(q: Request, fate: Fate, ghost newId: string) returns (r: Result<Event, Error>)
      requires Valid() && q.action.SetStatus? && q.id.Some? && newId !in events
      modifies this
      ensures (View(), r) == Handle(old(View()), q, newId, fate) && Valid()
    {
      HandleKeepsInv(View(), Call(q, newId, fate));
      if !WellFormedRequest(q) {
        return Err(InvalidInput);
      }
      if KeyOf(q) in operations {
        if operations[KeyOf(q)].fingerprint != FingerprintOf(q) {
          return Err(OperationConflict);
        }
        return Ok(operations[KeyOf(q)].result);
      }
      if q.id.value !in events || events[q.id.value].owner != q.owner {
        return Err(NotFound);
      }
      var e := events[q.id.value].event;
      if e.revision != q.expected {
        return Err(RevisionConflict);
      }
      r := Write(q, e.(status := q.action.status, revision := e.revision + 1, operationId := q.operationId), fate);
    }

    /** `newId` is fresh. */
    method Mutate(q: Request, newId: string, fate: Fate) returns (r: Result<Event, Error>)
      requires Valid() && !q.action.SetStatus? && newId !in events
      modifies this
      ensures (View(), r) == Handle(old(View()), q, newId, fate) && Valid()
    {
      HandleKeepsInv(View(), Call(q, newId, fate));
      if !WellFormedRequest(q) {
        return Err(InvalidInput);
      }
      if KeyOf(q) in operations {
        if operations[KeyOf(q)].fingerprint != FingerprintOf(q) {
          return Err(OperationConflict);
        }
        return Ok(operations[KeyOf(q)].result);
      }
      var e;
      if q.action.Create? {
        if q.expected != 0 {
          return Err(RevisionConflict);
        }
        e := Event(newId, q.input.value, Confirmed, [], 1, q.operationId);
      } else {
        if q.id.None? || q.id.value !in events || events[q.id.value].owner != q.owner {
          return Err(NotFound);
        }
        var found := events[q.id.value].event;
        if found.revision != q.expected || !found.status.Confirmed? {
          return Err(RevisionConflict);
        }
        EventKeepsId(View(), q.id.value);
        if q.action.Cancel? {
          e := found.(status := Cancelled, revision := found.revision + 1, operationId := q.operationId);
        } else {
          e := Event(found.id, q.input.value, Confirmed, found.noteRefs, found.revision + 1, q.operationId);
        }
      }
      r := Write(q, e, fate);
    }
  }
}
