/**
 * The activity timeline of one delegation: an append-only file, and subscriptions that get what is stored
 * and then what is appended. The queue runs every operation alone; a restart loses all but the file.
 */
module DelegationTimeline {
  import opened Wrappers

  datatype Event = Event(number: int, activity: string)

  /** What a subscriber was given: the stored events, then one callback per append. `base` and `from` are
      history variables: the sequence counter and the length of the file when it subscribed. */
  datatype Subscription = Subscription(after: int, base: int, from: nat, history: seq<Event>, live: seq<Event>)

  datatype Timeline = Timeline(file: seq<Event>, counter: Option<int>, listeners: map<nat, Subscription>)

  const Empty := Timeline([], None, map[])

  /** The stored events after a sequence number. */
  function Select(events: seq<Event>, after: int): seq<Event> {
    if events == [] then []
    else
      var last := events[|events| - 1];
      Select(events[..|events| - 1], after) + if last.number > after then [last] else []
  }

  function LastSeq(t: Timeline): int {
    if t.counter.Some? then t.counter.value else if t.file == [] then 0 else t.file[|t.file| - 1].number
  }

  function Deliver(listeners: map<nat, Subscription>, e: Event): map<nat, Subscription> {
    map id | id in listeners :: listeners[id].(live := listeners[id].live + [e])
  }

  /** The sequence number is taken before the write; a write that fails keeps it taken. */
  function Append(t: Timeline, activity: string, written: bool): Timeline {
    var e := Event(LastSeq(t) + 1, activity);
    if written then Timeline(t.file + [e], Some(e.number), Deliver(t.listeners, e)) else t.(counter := Some(e.number))
  }

  function Subscribe(t: Timeline, id: nat, after: int): Timeline {
    t.(listeners := t.listeners[id := Subscription(after, LastSeq(t), |t.file|, Select(t.file, after), [])])
  }

  function Restarted(t: Timeline): Timeline {
    Timeline(t.file, None, map[])
  }

  datatype Op = DoAppend(activity: string, written: bool) | DoSubscribe(id: nat, after: int) | DoUnsubscribe(id: nat) | DoRestart

  function Apply(t: Timeline, op: Op): Timeline {
    match op
    case DoAppend(activity, written) => Append(t, activity, written)
    case DoSubscribe(id, after) => Subscribe(t, id, after)
    case DoUnsubscribe(id) => t.(listeners := t.listeners - {id})
    case DoRestart => Restarted(t)
  }

  function Run(t: Timeline, ops: seq<Op>): Timeline
    decreases |ops|
  {
    if ops == [] then t else Run(Apply(t, ops[0]), ops[1..])
  }

  // ---- what every run keeps ----

  ghost predicate Ordered(events: seq<Event>) {
    forall i, j :: 0 <= i < j < |events| ==> events[i].number < events[j].number
  }

  /** A subscriber got the file: what was there when it subscribed, selected, and all that came later. */
  ghost predicate Follows(t: Timeline, s: Subscription) {
    && s.from <= |t.file| && s.base <= LastSeq(t)
    && s.history == Select(t.file[..s.from], s.after) && s.live == t.file[s.from..]
    && (forall i :: 0 <= i < s.from ==> t.file[i].number <= s.base)
    && (forall i :: s.from <= i < |t.file| ==> s.base < t.file[i].number)
  }

  ghost predicate FileOk(t: Timeline) {
    && Ordered(t.file)
    && (forall i :: 0 <= i < |t.file| ==> 0 < t.file[i].number <= LastSeq(t))
    && 0 <= LastSeq(t)
  }

  ghost predicate ListenerOk(t: Timeline, id: nat) {
    id in t.listeners ==> Follows(t, t.listeners[id])
  }

  ghost predicate Inv(t: Timeline) {
    FileOk(t) && forall id {:trigger ListenerOk(t, id)} :: ListenerOk(t, id)
  }

  lemma AppendFollows(t: Timeline, activity: string, s: Subscription)
    requires Follows(t, s)
    ensures var t' := Append(t, activity, true); Follows(t', s.(live := s.live + [Event(LastSeq(t) + 1, activity)]))
  {
    var e := Event(LastSeq(t) + 1, activity);
    assert (t.file + [e])[..s.from] == t.file[..s.from];
    assert (t.file + [e])[s.from..] == t.file[s.from..] + [e];
  }

  /** A subscriber that got nothing new still follows a timeline whose file is the same. */
  lemma StillFollows(t: Timeline, t': Timeline, s: Subscription)
    requires Follows(t, s) && t'.file == t.file && LastSeq(t) <= LastSeq(t')
    ensures Follows(t', s)
  {
  }

  lemma StepKeepsFile(t: Timeline, op: Op)
    requires FileOk(t)
    ensures FileOk(Apply(t, op))
  {
  }

  lemma StepKeepsListener(t: Timeline, op: Op, id: nat)
    requires FileOk(t) && ListenerOk(t, id)
    ensures ListenerOk(Apply(t, op), id)
  {
    var t' := Apply(t, op);
    if id in t'.listeners {
      match op
      case DoAppend(activity, written) =>
        if written {
          AppendFollows(t, activity, t.listeners[id]);
        } else {
          StillFollows(t, t', t.listeners[id]);
        }
      case DoSubscribe(subscriber, after) =>
        if id == subscriber {
          assert t.file[..|t.file|] == t.file && t.file[|t.file|..] == [];
        } else {
          StillFollows(t, t', t.listeners[id]);
        }
      case DoUnsubscribe(_) => StillFollows(t, t', t.listeners[id]);
      case DoRestart =>
    }
  }

  lemma StepKeepsInv(t: Timeline, op: Op)
    requires Inv(t)
    ensures Inv(Apply(t, op))
  {
    StepKeepsFile(t, op);
    forall id
      ensures ListenerOk(Apply(t, op), id)
    {
      assert ListenerOk(t, id);
      StepKeepsListener(t, op, id);
    }
  }

  lemma {:induction false} RunKeepsInv(t: Timeline, ops: seq<Op>)
    requires Inv(t)
    ensures Inv(Run(t, ops))
    decreases |ops|
  {
    if ops != [] {
      StepKeepsInv(t, ops[0]);
      RunKeepsInv(Apply(t, ops[0]), ops[1..]);
    }
  }

  lemma {:induction false} SelectConcat(a: seq<Event>, b: seq<Event>, after: int)
    ensures Select(a + b, after) == Select(a, after) + Select(b, after)
    decreases |b|
  {
    if b == [] {
      assert a + b == a;
    } else {
      var n := |b| - 1;
      assert (a + b)[..|a + b| - 1] == a + b[..n];
      SelectConcat(a, b[..n], after);
    }
  }

  lemma {:induction false} SelectIsShorter(events: seq<Event>, after: int)
    ensures |Select(events, after)| <= |events|
    decreases |events|
  {
    if events != [] {
      SelectIsShorter(events[..|events| - 1], after);
    }
  }

  /** Selecting from an ordered list keeps it exactly when its first event comes after. */
  lemma {:induction false} SelectAll(events: seq<Event>, after: int)
    requires Ordered(events)
    ensures Select(events, after) == events <==> events == [] || after < events[0].number
    decreases |events|
  {
    if events != [] {
      var n := |events| - 1;
      SelectAll(events[..n], after);
      SelectIsShorter(events[..n], after);
      SelectGrows(events[..n], events[n], after);
      assert events == events[..n] + [events[n]];
    }
  }

  lemma SelectGrows(events: seq<Event>, last: Event, after: int)
    requires |Select(events, after)| <= |events|
    ensures Select(events + [last], after) == events + [last] <==> Select(events, after) == events && last.number > after
  {
    assert (events + [last])[..|events|] == events;
    if Select(events + [last], after) == events + [last] {
      assert |Select(events + [last], after)| == |events| + 1;
      assert Select(events, after) == (events + [last])[..|events|];
    }
  }

  lemma FollowerIsExact(t: Timeline, s: Subscription)
    requires Ordered(t.file) && Follows(t, s)
    ensures s.history + s.live == Select(t.file, s.after) <==> s.after <= s.base || s.live == [] || s.after < s.live[0].number
  {
    assert t.file == t.file[..s.from] + s.live;
    SelectConcat(t.file[..s.from], s.live, s.after);
    SelectAll(s.live, s.after);
    assert s.live != [] ==> s.live[0] == t.file[s.from];
    assert (s.history + s.live)[|s.history|..] == s.live;
    assert (s.history + Select(s.live, s.after))[|s.history|..] == Select(s.live, s.after);
  }

  /** No gap and no duplicate. In every run, what a subscriber was given, history and then callbacks, is
      exactly the stored events after its sequence number, in order, if and only if that number was not
      beyond the counter when it subscribed, or nothing up to it has been appended since. */
  lemma SubscriptionIsExact(ops: seq<Op>, id: nat)
    requires id in Run(Empty, ops).listeners
    ensures var t := Run(Empty, ops);
            var s := t.listeners[id];
            s.history + s.live == Select(t.file, s.after) <==> s.after <= s.base || s.live == [] || s.after < s.live[0].number
  {
    RunKeepsInv(Empty, ops);
    assert ListenerOk(Run(Empty, ops), id);
    FollowerIsExact(Run(Empty, ops), Run(Empty, ops).listeners[id]);
  }

  /** The stored events are numbered 1, 2, 3, … */
  ghost predicate Numbered(file: seq<Event>) {
    forall i :: 0 <= i < |file| ==> file[i].number == i + 1
  }

  /** No write succeeds while a number is lost: a failed write loses its number, and only a restart, which
      counts from the file again, makes up for it. */
  predicate GapFree(ops: seq<Op>, lost: bool)
    decreases |ops|
  {
    ops == [] ||
    match ops[0]
    case DoAppend(_, written) => if written then !lost && GapFree(ops[1..], false) else GapFree(ops[1..], true)
    case DoRestart => GapFree(ops[1..], false)
    case _ => GapFree(ops[1..], lost)
  }

  /** Events once stored stay where they are. */
  lemma {:induction false} FileGrows(t: Timeline, ops: seq<Op>)
    ensures t.file <= Run(t, ops).file
    decreases |ops|
  {
    if ops != [] {
      FileGrows(Apply(t, ops[0]), ops[1..]);
    }
  }

  /** One operation: it keeps the numbering unless it stores an event while a number is lost, and it leaves a
      number lost exactly when it is a failed write, or nothing that makes up for an earlier one. */
  lemma StepNumbers(t: Timeline, op: Op)
    requires Numbered(t.file) && |t.file| <= LastSeq(t)
    ensures var t' := Apply(t, op);
            var lost := |t.file| < LastSeq(t);
            && (Numbered(t'.file) <==> !(op.DoAppend? && op.written && lost))
            && |t'.file| <= LastSeq(t')
            && (Numbered(t'.file) ==>
                  (|t'.file| < LastSeq(t') <==> (op.DoAppend? && !op.written) || (lost && !op.DoAppend? && !op.DoRestart?)))
  {
    if op.DoAppend? && op.written {
      var t' := Apply(t, op);
      assert t'.file[|t.file|].number == LastSeq(t) + 1;
    }
  }

  /** The stored events are numbered without a gap, across restarts, if and only if no event was stored while
      a number was lost: a failed write leaves a gap unless a restart comes before the next stored event. */
  lemma {:induction false} NumberedExactly(t: Timeline, ops: seq<Op>)
    requires Numbered(t.file) && |t.file| <= LastSeq(t)
    ensures Numbered(Run(t, ops).file) <==> GapFree(ops, |t.file| < LastSeq(t))
    decreases |ops|
  {
    if ops != [] {
      var t' := Apply(t, ops[0]);
      StepNumbers(t, ops[0]);
      if Numbered(t'.file) {
        NumberedExactly(t', ops[1..]);
      } else {
        var i :| 0 <= i < |t'.file| && t'.file[i].number != i + 1;
        FileGrows(t', ops[1..]);
        assert Run(t', ops[1..]).file[i] == t'.file[i];
      }
    }
  }

  /** An append takes the number after the last. Written, the event stands at the end of the file and has gone to
      every subscriber; not written, nobody sees anything. */
  lemma AppendExactly(t: Timeline, activity: string, written: bool)
    ensures var t' := Apply(t, DoAppend(activity, written));
            var e := Event(LastSeq(t) + 1, activity);
            && LastSeq(t') == e.number && t'.listeners.Keys == t.listeners.Keys
            && t'.file == (if written then t.file + [e] else t.file)
            && forall id :: id in t.listeners ==>
                 t'.listeners[id] == if written then t.listeners[id].(live := t.listeners[id].live + [e]) else t.listeners[id]
  {
  }

  /** Who unsubscribes gets nothing more; the others go on; and so does a subscriber that joins. */
  lemma SubscriptionsAreApart(t: Timeline, id: nat, after: int, other: nat)
    requires other != id
    ensures id !in Apply(t, DoUnsubscribe(id)).listeners && id in Apply(t, DoSubscribe(id, after)).listeners
    ensures Apply(t, DoSubscribe(id, after)).listeners[id].after == after
    ensures Apply(t, DoUnsubscribe(id)).file == Apply(t, DoSubscribe(id, after)).file == t.file
    ensures LastSeq(Apply(t, DoUnsubscribe(id))) == LastSeq(Apply(t, DoSubscribe(id, after))) == LastSeq(t)
    ensures other in t.listeners ==>
              && other in Apply(t, DoUnsubscribe(id)).listeners && Apply(t, DoUnsubscribe(id)).listeners[other] == t.listeners[other]
              && other in Apply(t, DoSubscribe(id, after)).listeners && Apply(t, DoSubscribe(id, after)).listeners[other] == t.listeners[other]
  {
  }

  // ---- the store ----

  class DelegationTimelineStore {
    var file: seq<Event>
    var nextSeq: Option<int>
    var listeners: map<nat, Subscription>

    ghost function View(): Timeline
      reads this
    {
      Timeline(file, nextSeq, listeners)
    }

    ghost predicate Valid()
      reads this
    {
      Inv(View())
    }

    constructor ()
      ensures Valid() && View() == Empty
    {
      file, nextSeq, listeners := [], None, map[];
    }

    /** The stored events after a sequence number; the file is in order, so sorting changes nothing. */
    method ReadUnlocked(after: int) returns (events: seq<Event>)
      ensures events == Select(file, after)
    {
      events := [];
      assert file[..0] == [];
      for i := 0 to |file|
        invariant events == Select(file[..i], after)
      {
        assert file[..i + 1][..i] == file[..i];
        if file[i].number > after {
          events := events + [file[i]];
        }
      }
      assert file[..|file|] == file;
    }

    method DeliverAll(e: Event)
      modifies `listeners
      ensures listeners == Deliver(old(listeners), e)
    {
      var left := listeners.Keys;
      while left != {}
        invariant left <= old(listeners).Keys == listeners.Keys
        invariant forall id :: id in left ==> listeners[id] == old(listeners)[id]
        invariant forall id :: id in listeners && id !in left ==> listeners[id] == old(listeners)[id].(live := old(listeners)[id].live + [e])
        decreases |left|
      {
        var id :| id in left;
        left := left - {id};
        listeners := listeners[id := listeners[id].(live := listeners[id].live + [e])];
      }
    }

    /** The last number: remembered, or that of the last stored event. */
    method LastNumber() returns (last: int)
      requires Valid()
      ensures last == LastSeq(View())
    {
      if nextSeq.Some? {
        return nextSeq.value;
      }
      var existing := ReadUnlocked(0);
      SelectAll(file, 0);
      return if existing == [] then 0 else existing[|existing| - 1].number;
    }

    /** `written` is whether the line reaches the file. */
    method AppendActivity(activity: string, written: bool) returns (e: Option<Event>)
      requires Valid()
      modifies this
      ensures View() == Append(old(View()), activity, written) && Valid()
      ensures e == if written then Some(Event(LastSeq(old(View())) + 1, activity)) else None
    {
      StepKeepsInv(View(), DoAppend(activity, written));
      var last := LastNumber();
      nextSeq := Some(last + 1);
      if !written {
        return None;
      }
      var event := Event(last + 1, activity);
      file := file + [event];
      DeliverAll(event);
      return Some(event);
    }

    /** Stored events and the live feed, with nothing appended in between. */
    method SubscribeFrom(id: nat, after: int) returns (events: seq<Event>)
      requires Valid()
      modifies this
      ensures View() == Subscribe(old(View()), id, after) && Valid()
      ensures events == Select(file, after)
    {
      StepKeepsInv(View(), DoSubscribe(id, after));
      events := ReadUnlocked(after);
      var reached := if nextSeq.Some? then nextSeq.value else if file == [] then 0 else file[|file| - 1].number;
      listeners := listeners[id := Subscription(after, reached, |file|, events, [])];
    }

    method Unsubscribe(id: nat)
      requires Valid()
      modifies this
      ensures View() == Apply(old(View()), DoUnsubscribe(id)) && Valid()
    {
      StepKeepsInv(View(), DoUnsubscribe(id));
      listeners := listeners - {id};
    }
  }
}
