/**
 * The activity observer of the PuddingClaw driver: token events are collected into batches, and every other
 * event ends the batch and passes through.
 *
 * An event is what projecting a line gave. An empty item id or content is an absent one; a line without a
 * projection is a boundary.
 */
module TokenBatching {
  import opened Wrappers

  datatype Input =
    | Token(content: string, itemId: string, sourceSeq: Option<int>)
    | Activity(activity: string)
    | Boundary

  datatype Output =
    | Batch(content: string, itemId: string, count: nat, first: Option<int>, last: Option<int>)
    | Passed(activity: string)

  const Limit := 16_000

  /** Longer text is cut and marked. */
  function Truncate(s: string): string {
    if |s| > Limit then s[..Limit] + "…" else s
  }

  /** Text within the limit stays whole; longer text keeps its first part, and a mark says so. */
  lemma TruncateExactly(s: string)
    ensures |s| <= 16_000 ==> Truncate(s) == s
    ensures |s| > 16_000 ==> |Truncate(s)| == 16_001 && Truncate(s)[..16_000] == s[..16_000] && Truncate(s)[16_000] == '…'
  {
  }

  // ---- the observer ----

  datatype Observer = Observer(content: string, count: nat, itemId: string, first: Option<int>, last: Option<int>, out: seq<Output>)

  const Fresh := Observer("", 0, "", None, None, [])

  function Flush(o: Observer): Observer {
    if o.count == 0 then o else Fresh.(out := o.out + [Batch(o.content, o.itemId, o.count, o.first, o.last)])
  }

  function Push(o: Observer, i: Input): Observer {
    match i
    case Token(content, itemId, sourceSeq) =>
      var p := if o.count > 0 && o.itemId != "" && itemId != "" && o.itemId != itemId then Flush(o) else o;
      Observer(Truncate(p.content + content), p.count + 1, if p.itemId == "" then itemId else p.itemId,
               if p.first.None? then sourceSeq else p.first, if sourceSeq.Some? then sourceSeq else p.last, p.out)
    case Activity(activity) =>
      var p := Flush(o);
      p.(out := p.out + [Passed(activity)])
    case Boundary => Flush(o)
  }

  function Feed(o: Observer, inputs: seq<Input>): Observer {
    if inputs == [] then o else Push(Feed(o, inputs[..|inputs| - 1]), inputs[|inputs| - 1])
  }

  /** The output for a whole stream ended by a flush. */
  function Observe(inputs: seq<Input>): seq<Output> {
    Flush(Feed(Fresh, inputs)).out
  }

  // ---- the reference: how a stream falls into segments ----

  datatype Segment = TokenRun(tokens: seq<Input>) | Single(input: Input)

  function Flatten(segments: seq<Segment>): seq<Input> {
    if segments == [] then []
    else Flatten(segments[..|segments| - 1]) + Inputs(segments[|segments| - 1])
  }

  function Inputs(s: Segment): seq<Input> {
    match s
    case TokenRun(tokens) => tokens
    case Single(input) => [input]
  }

  function Text(tokens: seq<Input>): string
    requires forall i :: 0 <= i < |tokens| ==> tokens[i].Token?
  {
    if tokens == [] then "" else Text(tokens[..|tokens| - 1]) + tokens[|tokens| - 1].content
  }

  /** The item id of a run: that of its first token that has one. */
  function ItemOf(tokens: seq<Input>): string
    requires forall i :: 0 <= i < |tokens| ==> tokens[i].Token?
  {
    if tokens == [] then ""
    else
      var before := ItemOf(tokens[..|tokens| - 1]);
      if before == "" then tokens[|tokens| - 1].itemId else before
  }

  function FirstSeq(tokens: seq<Input>): Option<int>
    requires forall i :: 0 <= i < |tokens| ==> tokens[i].Token?
  {
    if tokens == [] then None
    else
      var before := FirstSeq(tokens[..|tokens| - 1]);
      if before.None? then tokens[|tokens| - 1].sourceSeq else before
  }

  function LastSeq(tokens: seq<Input>): Option<int>
    requires forall i :: 0 <= i < |tokens| ==> tokens[i].Token?
  {
    if tokens == [] then None
    else if tokens[|tokens| - 1].sourceSeq.Some? then tokens[|tokens| - 1].sourceSeq
    else LastSeq(tokens[..|tokens| - 1])
  }

  predicate Tokens(inputs: seq<Input>) {
    forall i :: 0 <= i < |inputs| ==> inputs[i].Token?
  }

  /** A segment is one event that is not a token, or tokens of one item. */
  predicate Proper(s: Segment) {
    match s
    case TokenRun(tokens) =>
      tokens != [] && Tokens(tokens) && forall i :: 0 <= i < |tokens| ==> tokens[i].itemId in {"", ItemOf(tokens)}
    case Single(input) => !input.Token?
  }

  /** Two runs stand side by side only where the item changes. */
  predicate Separate(a: Segment, b: Segment) {
    a.TokenRun? && b.TokenRun? && a.tokens != [] && b.tokens != [] && Tokens(a.tokens) && b.tokens[0].Token? ==>
      ItemOf(a.tokens) != "" && b.tokens[0].itemId != "" && ItemOf(a.tokens) != b.tokens[0].itemId
  }

  ghost predicate Segments(segments: seq<Segment>) {
    && (forall i :: 0 <= i < |segments| ==> Proper(segments[i]))
    && (forall i :: 0 <= i < |segments| - 1 ==> Separate(segments[i], segments[i + 1]))
  }

  /** A run becomes one batch; an activity passes; a boundary leaves nothing. */
  function Rendered(s: Segment): seq<Output>
    requires Proper(s)
  {
    match s
    case TokenRun(tokens) => [Batch(Truncate(Text(tokens)), ItemOf(tokens), |tokens|, FirstSeq(tokens), LastSeq(tokens))]
    case Single(input) => if input.Activity? then [Passed(input.activity)] else []
  }

  function Render(segments: seq<Segment>): seq<Output>
    requires forall i :: 0 <= i < |segments| ==> Proper(segments[i])
  {
    if segments == [] then [] else Render(segments[..|segments| - 1]) + Rendered(segments[|segments| - 1])
  }

  // ---- the observer renders the segments ----

  /** Cutting early and then going on cuts the same text. */
  lemma {:induction false} TruncateAbsorbs(a: string, b: string)
    ensures Truncate(Truncate(a) + b) == Truncate(a + b)
  {
    if |a| > Limit {
      assert (Truncate(a) + b)[..Limit] == a[..Limit] == (a + b)[..Limit];
    }
  }

  /** What the observer holds after `segments` and the unfinished run `open`. */
  ghost predicate Holds(o: Observer, segments: seq<Segment>, open: seq<Input>) {
    && Segments(segments) && (open == [] || Segments(segments + [TokenRun(open)]))
    && Tokens(open)
    && o == Observer(Truncate(Text(open)), |open|, ItemOf(open), FirstSeq(open), LastSeq(open), Render(segments))
  }

  lemma Extend(segments: seq<Segment>, s: Segment)
    requires Segments(segments) && Proper(s) && (segments != [] ==> Separate(segments[|segments| - 1], s))
    ensures Segments(segments + [s])
  {
    var more := segments + [s];
    forall i | 0 <= i < |more|
      ensures Proper(more[i])
    {
      assert i < |segments| ==> more[i] == segments[i];
    }
    forall i | 0 <= i < |more| - 1
      ensures Separate(more[i], more[i + 1])
    {
      assert i < |segments| - 1 ==> more[i + 1] == segments[i + 1];
    }
  }

  lemma RenderMore(segments: seq<Segment>, s: Segment)
    requires Segments(segments) && Proper(s) && Segments(segments + [s])
    ensures Render(segments + [s]) == Render(segments) + Rendered(s)
    ensures Flatten(segments + [s]) == Flatten(segments) + Inputs(s)
  {
    assert (segments + [s])[..|segments|] == segments;
  }

  function Closed(segments: seq<Segment>, open: seq<Input>): seq<Segment> {
    if open == [] then segments else segments + [TokenRun(open)]
  }

  lemma FlushHolds(o: Observer, segments: seq<Segment>, open: seq<Input>)
    requires Holds(o, segments, open)
    ensures Holds(Flush(o), Closed(segments, open), []) && Flatten(Closed(segments, open)) == Flatten(segments) + open
  {
    if open != [] {
      var more := segments + [TokenRun(open)];
      assert Proper(more[|segments|]);
      RenderMore(segments, TokenRun(open));
    }
  }

  lemma AddToken(open: seq<Input>, t: Input)
    requires Tokens(open) && t.Token?
    ensures Tokens(open + [t])
    ensures Text(open + [t]) == Text(open) + t.content
    ensures ItemOf(open + [t]) == if ItemOf(open) == "" then t.itemId else ItemOf(open)
    ensures FirstSeq(open + [t]) == if FirstSeq(open).None? then t.sourceSeq else FirstSeq(open)
    ensures LastSeq(open + [t]) == if t.sourceSeq.Some? then t.sourceSeq else LastSeq(open)
  {
    assert (open + [t])[..|open|] == open;
  }

  /** A token of the same item, or of none, joins the run. */
  lemma JoinRun(segments: seq<Segment>, open: seq<Input>, t: Input)
    requires Segments(segments) && Tokens(open) && t.Token?
    requires open == [] ==> segments == [] || !segments[|segments| - 1].TokenRun? || Separate(segments[|segments| - 1], TokenRun([t]))
    requires open != [] ==> Segments(segments + [TokenRun(open)])
    requires ItemOf(open) == "" || t.itemId == "" || ItemOf(open) == t.itemId
    ensures Segments(segments + [TokenRun(open + [t])])
  {
    var run := open + [t];
    AddToken(open, t);
    if open != [] {
      var more := segments + [TokenRun(open)];
      assert Proper(more[|segments|]) && more[|segments|] == TokenRun(open);
      assert segments != [] ==> Separate(more[|segments| - 1], more[|segments|]);
      assert run[0] == open[0];
    }
    forall i | 0 <= i < |run|
      ensures run[i].itemId in {"", ItemOf(run)}
    {
      assert i < |open| ==> run[i] == open[i];
    }
    Extend(segments, TokenRun(run));
  }

  /** Where the stream stands after some of it: the finished segments and the unfinished run. The run that
      was just closed can only be followed by a token of another item. */
  datatype Stand = Stand(segments: seq<Segment>, open: seq<Input>)

  function Advance(s: Stand, i: Input): Stand {
    match i
    case Token(_, itemId, _) =>
      if s.open != [] && Tokens(s.open) && ItemOf(s.open) != "" && itemId != "" && ItemOf(s.open) != itemId
      then Stand(Closed(s.segments, s.open), [i]) else s.(open := s.open + [i])
    case Activity(_) => Stand(Closed(s.segments, s.open) + [Single(i)], [])
    case Boundary => Stand(Closed(s.segments, s.open) + [Single(i)], [])
  }

  function Parse(inputs: seq<Input>): Stand {
    if inputs == [] then Stand([], []) else Advance(Parse(inputs[..|inputs| - 1]), inputs[|inputs| - 1])
  }

  /** Between runs only a change of item, so a stand without an open run ends in a single event. */
  predicate Settled(s: Stand) {
    s.open == [] && s.segments != [] ==> s.segments[|s.segments| - 1].Single?
  }

  /** The observer and the stand agree on what was consumed. */
  ghost predicate Agrees(o: Observer, s: Stand, consumed: seq<Input>) {
    Holds(o, s.segments, s.open) && Settled(s) && Flatten(s.segments) + s.open == consumed
  }

  lemma EventAgrees(o: Observer, s: Stand, i: Input, consumed: seq<Input>)
    requires Agrees(o, s, consumed) && !i.Token?
    ensures Agrees(Push(o, i), Advance(s, i), consumed + [i])
  {
    FlushHolds(o, s.segments, s.open);
    var closed := Closed(s.segments, s.open);
    Extend(closed, Single(i));
    RenderMore(closed, Single(i));
  }

  predicate ChangesItem(s: Stand, i: Input) {
    i.Token? && s.open != [] && Tokens(s.open) && ItemOf(s.open) != "" && i.itemId != "" && ItemOf(s.open) != i.itemId
  }

  lemma ChangeAgrees(o: Observer, s: Stand, i: Input, consumed: seq<Input>)
    requires Agrees(o, s, consumed) && ChangesItem(s, i)
    ensures Agrees(Push(o, i), Advance(s, i), consumed + [i])
  {
    FlushHolds(o, s.segments, s.open);
    var closed := Closed(s.segments, s.open);
    assert closed[|closed| - 1] == TokenRun(s.open);
    AddToken([], i);
    assert [] + [i] == [i];
    JoinRun(closed, [], i);
    TruncateAbsorbs("", i.content);
  }

  lemma TokenAgrees(o: Observer, s: Stand, i: Input, consumed: seq<Input>)
    requires Agrees(o, s, consumed) && i.Token? && !ChangesItem(s, i)
    ensures Agrees(Push(o, i), Advance(s, i), consumed + [i])
  {
    TruncateAbsorbs(Text(s.open), i.content);
    AddToken(s.open, i);
    JoinRun(s.segments, s.open, i);
    assert Flatten(s.segments) + (s.open + [i]) == consumed + [i];
  }

  lemma AdvanceAgrees(o: Observer, s: Stand, i: Input, consumed: seq<Input>)
    requires Agrees(o, s, consumed)
    ensures Agrees(Push(o, i), Advance(s, i), consumed + [i])
  {
    if !i.Token? {
      EventAgrees(o, s, i, consumed);
    } else if ChangesItem(s, i) {
      ChangeAgrees(o, s, i, consumed);
    } else {
      TokenAgrees(o, s, i, consumed);
    }
  }

  /** What holds of the empty stream and of one more event holds of every stream. */
  lemma {:induction false} ByGrowing(holds: seq<Input> -> bool, inputs: seq<Input>)
    requires holds([]) && forall some, i :: holds(some) ==> holds(some + [i])
    ensures holds(inputs)
    decreases |inputs|
  {
    if inputs != [] {
      ByGrowing(holds, inputs[..|inputs| - 1]);
      assert inputs == inputs[..|inputs| - 1] + [inputs[|inputs| - 1]];
    }
  }

  lemma ParseAgrees(inputs: seq<Input>)
    ensures Agrees(Feed(Fresh, inputs), Parse(inputs), inputs)
  {
    ghost var holds := (some: seq<Input>) => Agrees(Feed(Fresh, some), Parse(some), some);
    NothingAgrees();
    forall some, i | holds(some)
      ensures holds(some + [i])
    {
      OneMoreAgrees(some, i);
    }
    ByGrowing(holds, inputs);
  }

  lemma OneMoreAgrees(inputs: seq<Input>, i: Input)
    requires Agrees(Feed(Fresh, inputs), Parse(inputs), inputs)
    ensures Agrees(Feed(Fresh, inputs + [i]), Parse(inputs + [i]), inputs + [i])
  {
    AdvanceAgrees(Feed(Fresh, inputs), Parse(inputs), i, inputs);
    OneMore(inputs, i);
  }

  lemma OneMore(inputs: seq<Input>, i: Input)
    ensures Feed(Fresh, inputs + [i]) == Push(Feed(Fresh, inputs), i)
    ensures Parse(inputs + [i]) == Advance(Parse(inputs), i)
  {
    assert (inputs + [i])[..|inputs|] == inputs;
  }

  lemma NothingAgrees()
    ensures Agrees(Fresh, Stand([], []), [])
  {
  }

  /** The segments of a stream. */
  function Cut(inputs: seq<Input>): seq<Segment> {
    Closed(Parse(inputs).segments, Parse(inputs).open)
  }

  /** Batching conserves the stream. The output is the rendering of a cut of the stream into its single events
      and its token runs: nothing is lost, nothing changes place, no run crosses another event or a change of
      item, and each run becomes one batch with its count and its whole text, cut at the limit. */
  lemma BatchingRendersSegments(inputs: seq<Input>)
    ensures Segments(Cut(inputs)) && Flatten(Cut(inputs)) == inputs
    ensures Observe(inputs) == Render(Cut(inputs))
  {
    ParseAgrees(inputs);
    FlushHolds(Feed(Fresh, inputs), Parse(inputs).segments, Parse(inputs).open);
  }

  // ---- there is one such cut ----

  /** Where a stream stands that ends with these segments. */
  function StandAfter(segments: seq<Segment>): Stand {
    if segments != [] && segments[|segments| - 1].TokenRun?
    then Stand(segments[..|segments| - 1], segments[|segments| - 1].tokens) else Stand(segments, [])
  }

  lemma {:induction false} RunParses(before: seq<Input>, segments: seq<Segment>, tokens: seq<Input>, k: nat)
    requires Proper(TokenRun(tokens)) && 1 <= k <= |tokens|
    requires Parse(before + tokens[..1]) == Stand(segments, tokens[..1])
    ensures Parse(before + tokens[..k]) == Stand(segments, tokens[..k])
    decreases k
  {
    if k > 1 {
      RunParses(before, segments, tokens, k - 1);
      RunGoesOn(before + tokens[..k - 1], segments, tokens, k - 1);
      assert before + tokens[..k] == before + tokens[..k - 1] + [tokens[k - 1]];
    }
  }

  lemma RunStarts(before: seq<Input>, segments: seq<Segment>, tokens: seq<Input>)
    requires Segments(segments) && Proper(TokenRun(tokens)) && Parse(before) == StandAfter(segments)
    requires segments != [] ==> Separate(segments[|segments| - 1], TokenRun(tokens))
    ensures Parse(before + tokens[..1]) == Stand(segments, tokens[..1])
  {
    assert tokens[..1] == [tokens[0]];
    OneMore(before, tokens[0]);
    ClosedStand(segments);
    FirstOfRun(segments, tokens);
  }

  lemma RunGoesOn(before: seq<Input>, segments: seq<Segment>, tokens: seq<Input>, k: nat)
    requires Proper(TokenRun(tokens)) && 1 <= k < |tokens|
    requires Parse(before) == Stand(segments, tokens[..k])
    ensures Parse(before + [tokens[k]]) == Stand(segments, tokens[..k + 1])
  {
    OneMore(before, tokens[k]);
    ItemOfPrefix(tokens, k);
    assert tokens[..k + 1] == tokens[..k] + [tokens[k]];
  }

  lemma FirstOfRun(segments: seq<Segment>, tokens: seq<Input>)
    requires Segments(segments) && Proper(TokenRun(tokens))
    requires segments != [] ==> Separate(segments[|segments| - 1], TokenRun(tokens))
    requires Closed(StandAfter(segments).segments, StandAfter(segments).open) == segments
    ensures Advance(StandAfter(segments), tokens[0]) == Stand(segments, tokens[..1])
  {
    assert tokens[..1] == [] + [tokens[0]];
    assert segments != [] ==> Proper(segments[|segments| - 1]);
  }

  lemma {:induction false} ItemOfPrefix(tokens: seq<Input>, k: nat)
    requires Tokens(tokens) && k <= |tokens|
    ensures ItemOf(tokens[..k]) in {"", ItemOf(tokens)}
    decreases |tokens| - k
  {
    if k == |tokens| {
      assert tokens[..k] == tokens;
    } else {
      ItemOfPrefix(tokens, k + 1);
      assert tokens[..k + 1][..k] == tokens[..k];
    }
  }

  lemma SingleParses(before: seq<Input>, segments: seq<Segment>, input: Input)
    requires Segments(segments) && !input.Token? && Parse(before) == StandAfter(segments)
    ensures Parse(before + [input]) == Stand(segments + [Single(input)], [])
  {
    var all := before + [input];
    assert all[..|all| - 1] == before && all[|all| - 1] == input;
    ClosedStand(segments);
  }

  lemma ClosedStand(segments: seq<Segment>)
    requires Segments(segments)
    ensures Closed(StandAfter(segments).segments, StandAfter(segments).open) == segments
  {
    if segments != [] && segments[|segments| - 1].TokenRun? {
      assert Proper(segments[|segments| - 1]);
      assert segments == segments[..|segments| - 1] + [segments[|segments| - 1]];
    }
  }

  lemma {:induction false} SegmentsParse(segments: seq<Segment>)
    requires Segments(segments)
    ensures Parse(Flatten(segments)) == StandAfter(segments)
    decreases |segments|
  {
    if segments == [] {
      assert Parse([]) == Stand([], []);
    } else {
      var init := segments[..|segments| - 1];
      FrontIsCut(segments);
      SegmentsParse(init);
      LastParses(init, segments[|segments| - 1]);
    }
  }

  lemma FrontIsCut(segments: seq<Segment>)
    requires Segments(segments) && segments != []
    ensures Segments(segments[..|segments| - 1])
    ensures segments == segments[..|segments| - 1] + [segments[|segments| - 1]]
  {
    var init := segments[..|segments| - 1];
    forall i | 0 <= i < |init| - 1
      ensures Separate(init[i], init[i + 1])
    {
      assert Separate(segments[i], segments[i + 1]);
    }
  }

  lemma LastParses(init: seq<Segment>, last: Segment)
    requires Segments(init + [last]) && Segments(init) && Parse(Flatten(init)) == StandAfter(init)
    ensures Parse(Flatten(init + [last])) == StandAfter(init + [last])
  {
    var segments := init + [last];
    assert segments[|init|] == last && Proper(segments[|init|]) && segments[..|init|] == init;
    assert init != [] ==> Separate(segments[|init| - 1], segments[|init|]) && segments[|init| - 1] == init[|init| - 1];
    if last.TokenRun? {
      RunStarts(Flatten(init), init, last.tokens);
      RunParses(Flatten(init), init, last.tokens, |last.tokens|);
      assert last.tokens[..|last.tokens|] == last.tokens;
    } else {
      SingleParses(Flatten(init), init, last.input);
    }
  }

  /** A stream has exactly one cut into proper, separate segments. */
  lemma CutIsUnique(segments: seq<Segment>)
    requires Segments(segments)
    ensures segments == Cut(Flatten(segments))
  {
    SegmentsParse(segments);
    ClosedStand(segments);
  }

  // ---- what is conserved ----

  function TokenCount(inputs: seq<Input>): nat {
    if inputs == [] then 0 else TokenCount(inputs[..|inputs| - 1]) + if inputs[|inputs| - 1].Token? then 1 else 0
  }

  function Activities(inputs: seq<Input>): seq<string> {
    if inputs == [] then []
    else Activities(inputs[..|inputs| - 1]) + if inputs[|inputs| - 1].Activity? then [inputs[|inputs| - 1].activity] else []
  }

  function BatchedCount(out: seq<Output>): nat {
    if out == [] then 0 else BatchedCount(out[..|out| - 1]) + if out[|out| - 1].Batch? then out[|out| - 1].count else 0
  }

  function PassedOn(out: seq<Output>): seq<string> {
    if out == [] then []
    else PassedOn(out[..|out| - 1]) + if out[|out| - 1].Passed? then [out[|out| - 1].activity] else []
  }

  lemma {:induction false} CountConcat(a: seq<Input>, b: seq<Input>)
    ensures TokenCount(a + b) == TokenCount(a) + TokenCount(b) && Activities(a + b) == Activities(a) + Activities(b)
    decreases |b|
  {
    if b == [] {
      assert a + b == a;
    } else {
      var n := |b| - 1;
      assert (a + b)[..|a + b| - 1] == a + b[..n];
      CountConcat(a, b[..n]);
    }
  }

  lemma {:induction false} CountRun(tokens: seq<Input>)
    requires Tokens(tokens)
    ensures TokenCount(tokens) == |tokens| && Activities(tokens) == []
    decreases |tokens|
  {
    if tokens != [] {
      CountRun(tokens[..|tokens| - 1]);
    }
  }

  lemma CountOne(out: seq<Output>, s: Segment)
    requires Proper(s)
    ensures BatchedCount(out + Rendered(s)) == BatchedCount(out) + TokenCount(Inputs(s))
    ensures PassedOn(out + Rendered(s)) == PassedOn(out) + Activities(Inputs(s))
  {
    if s.TokenRun? {
      CountRun(s.tokens);
    } else {
      assert [s.input][..0] == [];
    }
    if Rendered(s) == [] {
      assert out + Rendered(s) == out;
    } else {
      assert (out + Rendered(s))[..|out|] == out;
    }
  }

  lemma {:induction false} RenderConserves(segments: seq<Segment>)
    requires forall i :: 0 <= i < |segments| ==> Proper(segments[i])
    ensures BatchedCount(Render(segments)) == TokenCount(Flatten(segments))
    ensures PassedOn(Render(segments)) == Activities(Flatten(segments))
    decreases |segments|
  {
    if segments != [] {
      var n := |segments| - 1;
      var init, last := segments[..n], segments[n];
      RenderConserves(init);
      CountOne(Render(init), last);
      CountConcat(Flatten(init), Inputs(last));
      LastSegment(segments);
    }
  }

  lemma LastSegment(segments: seq<Segment>)
    requires segments != [] && forall i :: 0 <= i < |segments| ==> Proper(segments[i])
    ensures var n := |segments| - 1;
            && Render(segments) == Render(segments[..n]) + Rendered(segments[n])
            && Flatten(segments) == Flatten(segments[..n]) + Inputs(segments[n])
  {
  }

  /** The counts of the batches add up to the token events, and the other activities come out unchanged and in
      their order. */
  lemma {:induction false} CountsAddUp(inputs: seq<Input>)
    ensures BatchedCount(Observe(inputs)) == TokenCount(inputs)
    ensures PassedOn(Observe(inputs)) == Activities(inputs)
  {
    BatchingRendersSegments(inputs);
    RenderConserves(Cut(inputs));
  }

  function AllText(inputs: seq<Input>): string {
    if inputs == [] then "" else AllText(inputs[..|inputs| - 1]) + if inputs[|inputs| - 1].Token? then inputs[|inputs| - 1].content else ""
  }

  function BatchedText(out: seq<Output>): string {
    if out == [] then "" else BatchedText(out[..|out| - 1]) + if out[|out| - 1].Batch? then out[|out| - 1].content else ""
  }

  lemma {:induction false} TextConcat(a: seq<Input>, b: seq<Input>)
    ensures AllText(a + b) == AllText(a) + AllText(b)
    decreases |b|
  {
    if b == [] {
      assert a + b == a;
    } else {
      var n := |b| - 1;
      assert (a + b)[..|a + b| - 1] == a + b[..n];
      TextConcat(a, b[..n]);
    }
  }

  lemma {:induction false} TextOfRun(tokens: seq<Input>)
    requires Tokens(tokens)
    ensures AllText(tokens) == Text(tokens)
    decreases |tokens|
  {
    if tokens != [] {
      TextOfRun(tokens[..|tokens| - 1]);
    }
  }

  lemma TextOfOne(out: seq<Output>, s: Segment)
    requires Proper(s) && |AllText(Inputs(s))| <= Limit
    ensures BatchedText(out + Rendered(s)) == BatchedText(out) + AllText(Inputs(s))
  {
    if s.TokenRun? {
      TextOfRun(s.tokens);
    } else {
      assert [s.input][..0] == [];
    }
    if Rendered(s) == [] {
      assert out + Rendered(s) == out;
    } else {
      assert (out + Rendered(s))[..|out|] == out;
    }
  }

  lemma {:induction false} RenderKeepsText(segments: seq<Segment>)
    requires forall i :: 0 <= i < |segments| ==> Proper(segments[i])
    requires forall i :: 0 <= i < |segments| ==> |AllText(Inputs(segments[i]))| <= Limit
    ensures BatchedText(Render(segments)) == AllText(Flatten(segments))
    decreases |segments|
  {
    if segments != [] {
      var n := |segments| - 1;
      RenderKeepsText(segments[..n]);
      TextOfOne(Render(segments[..n]), segments[n]);
      TextConcat(Flatten(segments[..n]), Inputs(segments[n]));
    }
  }

  /** The contents of the batches concatenate to the contents of the tokens, as long as no run is too long. */
  lemma ContentsConcatenate(inputs: seq<Input>)
    requires forall i :: 0 <= i < |Cut(inputs)| ==> |AllText(Inputs(Cut(inputs)[i]))| <= Limit
    ensures BatchedText(Observe(inputs)) == AllText(inputs)
  {
    BatchingRendersSegments(inputs);
    RenderKeepsText(Cut(inputs));
  }

  // ---- the observer ----

  class ActivityObserver {
    var tokenContent: string
    var tokenCount: nat
    var tokenItemId: string
    var sourceSeqStart: Option<int>
    var sourceSeqEnd: Option<int>
    var emitted: seq<Output>

    ghost function View(): Observer
      reads this
    {
      Observer(tokenContent, tokenCount, tokenItemId, sourceSeqStart, sourceSeqEnd, emitted)
    }

    constructor ()
      ensures View() == Fresh
    {
      tokenContent, tokenCount, tokenItemId, sourceSeqStart, sourceSeqEnd, emitted := "", 0, "", None, None, [];
    }

    method FlushTokens()
      modifies this
      ensures View() == Flush(old(View()))
    {
      if tokenCount == 0 {
        return;
      }
      emitted := emitted + [Batch(tokenContent, tokenItemId, tokenCount, sourceSeqStart, sourceSeqEnd)];
      tokenContent, tokenCount, tokenItemId, sourceSeqStart, sourceSeqEnd := "", 0, "", None, None;
    }

    method PushEvent(i: Input)
      modifies this
      ensures View() == Push(old(View()), i)
    {
      if i.Token? {
        if tokenCount > 0 && tokenItemId != "" && i.itemId != "" && tokenItemId != i.itemId {
          FlushTokens();
        }
        tokenContent := Truncate(tokenContent + i.content);
        tokenCount := tokenCount + 1;
        if tokenItemId == "" {
          tokenItemId := i.itemId;
        }
        if sourceSeqStart.None? {
          sourceSeqStart := i.sourceSeq;
        }
        if i.sourceSeq.Some? {
          sourceSeqEnd := i.sourceSeq;
        }
        return;
      }
      FlushTokens();
      if i.Activity? {
        emitted := emitted + [Passed(i.activity)];
      }
    }

    /** A whole stream, ended by a flush. */
    method ObserveStream(inputs: seq<Input>)
      requires View() == Fresh
      modifies this
      ensures Segments(Cut(inputs)) && emitted == Render(Cut(inputs))
    {
      assert inputs[..0] == [];
      for i := 0 to |inputs|
        invariant View() == Feed(Fresh, inputs[..i])
      {
        assert inputs[..i + 1][..i] == inputs[..i];
        PushEvent(inputs[i]);
      }
      assert inputs[..|inputs|] == inputs;
      FlushTokens();
      BatchingRendersSegments(inputs);
    }
  }
}
