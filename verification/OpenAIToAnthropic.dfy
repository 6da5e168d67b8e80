/** ReverseSSEStream (internal/translate/stream_anthropic.go): OpenAI chunks in,
  * Anthropic events out.
  */
module OpenAIToAnthropic {
  import opened Options
  import opened Sequences
  import opened StreamTypes
  import Strings

  datatype ToolCallState = ToolCallState(id: string, name: string, blockIndex: nat)

  // What the translator knows between two lines: the block index of the text block and
  // of the thinking block, each tool call by the chunk's own tool index, and the tool
  // blocks in the order they were opened.
  datatype State = State(sentMessageStart: bool, messageID: string, finishReason: string,
                         tools: map<int, ToolCallState>, order: seq<nat>, next: nat,
                         text: Option<nat>, thinking: Option<nat>, thinkingClosed: bool)

  const Init := State(false, "", "end_turn", map[], [], 0, None, None, false)

  // A new state and the events written on the way to it.
  datatype Out = Out(s: State, events: seq<Event>)

  function Begin(s: State, id: string): Out {
    var messageID := if id != "" && s.messageID == "" then Strings.TrimPrefix(id, "chatcmpl-") else s.messageID;
    Out(s.(messageID := messageID, sentMessageStart := true),
        if s.sentMessageStart then [] else [MessageStart(messageID)])
  }

  function OnFinish(s: State, finish: Option<string>): State {
    if finish.Some? && finish.value != "" then s.(finishReason := finish.value) else s
  }

  function OnReasoning(s: State, text: string): Out {
    if text == "" || s.thinkingClosed then Out(s, [])
    else if s.thinking.None? then
      Out(s.(thinking := Some(s.next), next := s.next + 1),
          [BlockStart(s.next, ThinkingHead), Delta(s.next, ThinkingDelta(text))])
    else Out(s, [Delta(s.thinking.value, ThinkingDelta(text))])
  }

  function CloseThinking(s: State): Out {
    if s.thinking.Some? && !s.thinkingClosed
    then Out(s.(thinkingClosed := true), [BlockStop(s.thinking.value)])
    else Out(s, [])
  }

  function AddText(s: State, text: string): Out {
    if s.text.None? then
      Out(s.(text := Some(s.next), next := s.next + 1),
          [BlockStart(s.next, TextHead), Delta(s.next, TextDelta(text))])
    else Out(s, [Delta(s.text.value, TextDelta(text))])
  }

  function OnText(s: State, text: string): Out {
    if text == "" then Out(s, [])
    else
      var c := CloseThinking(s);
      var t := AddText(c.s, text);
      Out(t.s, c.events + t.events)
  }

  function OnRefusal(s: State, text: string): Out {
    if text == "" then Out(s, []) else AddText(s, text)
  }

  function OpenTool(s: State, d: ToolDelta): Out
    requires d.index.Some?
  {
    if d.index.value in s.tools then Out(s, [])
    else Out(s.(tools := s.tools[d.index.value := ToolCallState(d.id, d.name, s.next)], order := s.order + [s.next], next := s.next + 1),
             [BlockStart(s.next, ToolHead(d.id, d.name))])
  }

  function OnTool(s: State, d: ToolDelta): Out {
    if d.index.None? then Out(s, [])
    else
      var o := OpenTool(s, d);
      Out(o.s, o.events + if d.args == "" then [] else [Delta(o.s.tools[d.index.value].blockIndex, JsonDelta(d.args))])
  }

  function OnTools(s: State, ds: seq<ToolDelta>): Out
    decreases |ds|
  {
    if ds == [] then Out(s, [])
    else
      var a := OnTool(s, ds[0]);
      var b := OnTools(a.s, ds[1..]);
      Out(b.s, a.events + b.events)
  }

  function OnDelta(s: State, d: ChatDelta): Out {
    var a := OnReasoning(s, ReasoningText(d));
    var b := OnText(a.s, ContentText(d.content));
    var c := OnRefusal(b.s, d.refusal);
    var t := OnTools(c.s, d.toolCalls);
    Out(t.s, a.events + b.events + c.events + t.events)
  }

  function StopEvents(blocks: seq<nat>): (r: seq<Event>)
    ensures |r| == |blocks|
  {
    seq(|blocks|, k requires 0 <= k < |blocks| => BlockStop(blocks[k]))
  }

  lemma StopsJoin(a: seq<nat>, b: seq<nat>)
    ensures StopEvents(a + b) == StopEvents(a) + StopEvents(b)
  {
  }

  lemma StopsMore(blocks: seq<nat>, n: nat)
    requires n < |blocks|
    ensures StopEvents(blocks[..n + 1]) == StopEvents(blocks[..n]) + [BlockStop(blocks[n])]
  {
  }

  // The blocks still open when [DONE] arrives, in the order they are closed.
  function OpenHeads(s: State): seq<nat> {
    (if s.thinking.Some? && !s.thinkingClosed then [s.thinking.value] else [])
    + (if s.text.Some? then [s.text.value] else [])
  }

  function OpenBlocks(s: State): seq<nat> {
    OpenHeads(s) + s.order
  }

  function StopReason(s: State): string {
    if s.finishReason == "tool_calls" then "tool_use" else "end_turn"
  }

  function OnDone(s: State): seq<Event> {
    StopEvents(OpenBlocks(s)) + [MessageDelta(Some(StopReason(s))), MessageStop]
  }

  function OnChoice(s: State, choice: Option<Choice>): Out {
    if choice.None? || choice.value.delta.None? then Out(s, [])
    else OnDelta(OnFinish(s, choice.value.finish), choice.value.delta.value)
  }

  function OnLine(s: State, line: Line): Out {
    match line
    case Done => Out(s, OnDone(s))
    case Unparsed => Out(s, [])
    case Chunk(id, choice) =>
      var b := Begin(s, id);
      var d := OnChoice(b.s, choice);
      Out(d.s, b.events + d.events)
  }

  function Run(s: State, lines: seq<Line>): seq<Event>
    decreases |lines|
  {
    if lines == [] then []
    else
      var o := OnLine(s, lines[0]);
      o.events + Run(o.s, lines[1..])
  }

  function After(s: State, lines: seq<Line>): State
    decreases |lines|
  {
    if lines == [] then s else After(OnLine(s, lines[0]).s, lines[1..])
  }

  function Translate(lines: seq<Line>): seq<Event> {
    Run(Init, lines)
  }

  lemma {:induction false} RunAppend(s: State, a: seq<Line>, b: seq<Line>)
    ensures Run(s, a + b) == Run(s, a) + Run(After(s, a), b)
    ensures After(s, a + b) == After(After(s, a), b)
    decreases |a|
  {
    if a == [] {
      assert a + b == b;
    } else {
      assert (a + b)[1..] == a[1..] + b;
      var o := OnLine(s, a[0]);
      RunAppend(o.s, a[1..], b);
      Assoc(o.events, Run(o.s, a[1..]), Run(After(s, a), b));
    }
  }

  // Part of the lines is done: what is captured and what the rest writes make up the whole.
  ghost predicate Pending(all: seq<Event>, captured: seq<Event>, s: State, lines: seq<Line>) {
    all == captured + Run(s, lines)
  }

  lemma PendingStep(all: seq<Event>, captured: seq<Event>, s: State, lines: seq<Line>, n: nat)
    requires n < |lines| && Pending(all, captured, s, lines[n..])
    ensures var o := OnLine(s, lines[n]); Pending(all, captured + o.events, o.s, lines[n + 1..])
  {
    assert lines[n..][1..] == lines[n + 1..];
    var o := OnLine(s, lines[n]);
    assert captured + (o.events + Run(o.s, lines[n + 1..])) == (captured + o.events) + Run(o.s, lines[n + 1..]);
  }

  /* ---------- Sorting the tool blocks at [DONE] ---------- */

  ghost predicate Ascending(s: seq<nat>) {
    forall j, k :: 0 <= j < k < |s| ==> s[j] < s[k]
  }

  lemma HasMember(s: seq<nat>)
    requires s != []
    ensures exists x :: x in s
  {
    assert s[0] in s;
  }

  lemma {:induction false} AscendingUnique(a: seq<nat>, b: seq<nat>)
    requires Ascending(a) && Ascending(b) && (forall x :: x in a <==> x in b)
    ensures a == b
  {
    if a == [] || b == [] {
      if a != [] { HasMember(a); }
      if b != [] { HasMember(b); }
    } else {
      assert a[0] in b && b[0] in a;
      assert a[0] == b[0];
      forall x
        ensures x in a[1..] <==> x in b[1..]
      {
        if x in a[1..] { assert x in a; }
        if x in b[1..] { assert x in b; }
      }
      AscendingUnique(a[1..], b[1..]);
    }
  }

  // Inserts into an ascending list, as a step of sorting.
  method Insert(sorted: seq<nat>, x: nat) returns (r: seq<nat>)
    requires Ascending(sorted) && x !in sorted
    ensures Ascending(r) && forall y :: y in r <==> y == x || y in sorted
  {
    var k := 0;
    while k < |sorted| && sorted[k] < x
      invariant 0 <= k <= |sorted|
      invariant forall j :: 0 <= j < k ==> sorted[j] < x
    {
      k := k + 1;
    }
    r := sorted[..k] + [x] + sorted[k..];
    assert forall y :: y in sorted <==> y in sorted[..k] || y in sorted[k..];
  }

  // The tool calls in the order they were opened, with their block indices.
  ghost predicate OpenedInOrder(m: map<int, ToolCallState>, states: seq<ToolCallState>, order: seq<nat>, next: nat) {
    && Ascending(order) && (forall k :: 0 <= k < |order| ==> order[k] < next)
    && |states| == |order| && (forall k :: 0 <= k < |states| ==> states[k].blockIndex == order[k])
    && (forall t :: t in m.Values <==> t in states)
  }

  lemma OpenedOneMore(m: map<int, ToolCallState>, states: seq<ToolCallState>, order: seq<nat>, next: nat, i: int, t: ToolCallState)
    requires OpenedInOrder(m, states, order, next) && i !in m && t.blockIndex == next
    ensures OpenedInOrder(m[i := t], states + [t], order + [next], next + 1)
  {
    ValuesOfUpdate(m, i, t);
  }

  lemma ValuesOfUpdate(m: map<int, ToolCallState>, i: int, t: ToolCallState)
    requires i !in m
    ensures m[i := t].Values == m.Values + {t}
  {
    var m' := m[i := t];
    assert i in m' && m'[i] == t;
    assert forall j :: j in m ==> j in m' && m'[j] == m[j];
  }

  // The block indices of the tool calls in ascending order.
  method SortedBlocks(m: map<int, ToolCallState>, ghost states: seq<ToolCallState>, ghost order: seq<nat>, ghost next: nat)
      returns (blocks: seq<nat>)
    requires OpenedInOrder(m, states, order, next)
    ensures blocks == order
  {
    blocks := [];
    var todo := m.Values;
    while todo != {}
      invariant todo <= m.Values && Ascending(blocks)
      invariant forall b :: b in blocks ==> b in order
      invariant forall k :: 0 <= k < |states| ==> (states[k] in todo <==> order[k] !in blocks)
      decreases |todo|
    {
      var t :| t in todo;
      ghost var k :| 0 <= k < |states| && states[k] == t;
      todo := todo - {t};
      blocks := Insert(blocks, t.blockIndex);
    }
    forall k | 0 <= k < |order|
      ensures order[k] in blocks
    {
      assert states[k] !in todo;
    }
    AscendingUnique(blocks, order);
  }

  // Part of the tool deltas is done: what is written so far and what the rest writes
  // make up the whole.
  ghost predicate Rest(all: Out, before: seq<Event>, s: State, captured: seq<Event>, ds: seq<ToolDelta>) {
    var rest := OnTools(s, ds);
    all.s == rest.s && before + all.events == captured + rest.events
  }

  lemma RestStep(all: Out, before: seq<Event>, s: State, captured: seq<Event>, ds: seq<ToolDelta>, n: nat)
    requires n < |ds| && Rest(all, before, s, captured, ds[n..])
    ensures var a := OnTool(s, ds[n]); Rest(all, before, a.s, captured + a.events, ds[n + 1..])
  {
    assert ds[n..][1..] == ds[n + 1..];
    var a := OnTool(s, ds[n]);
    var b := OnTools(a.s, ds[n + 1..]);
    assert captured + (a.events + b.events) == (captured + a.events) + b.events;
  }

  lemma FourPieces(c: seq<Event>, e1: seq<Event>, e2: seq<Event>, e3: seq<Event>, e4: seq<Event>)
    ensures (((c + e1) + e2) + e3) + e4 == c + (((e1 + e2) + e3) + e4)
  {
  }

  /** The local variables of the reverse streaming loop. */
  class ReverseSSEStream {
    var captured: seq<Event>
    var sentMessageStart: bool
    var messageID: string
    var finishReason: string
    var toolCalls: map<int, ToolCallState>
    ghost var states: seq<ToolCallState>
    ghost var order: seq<nat>
    var nextBlockIndex: nat
    var textBlockIndex: int
    var thinkingBlockIndex: int
    var thinkingBlockClosed: bool

    ghost predicate Valid() reads this {
      OpenedInOrder(toolCalls, states, order, nextBlockIndex)
    }

    ghost function Abs(): State reads this {
      State(sentMessageStart, messageID, finishReason, toolCalls, order, nextBlockIndex,
            if textBlockIndex < 0 then None else Some(textBlockIndex),
            if thinkingBlockIndex < 0 then None else Some(thinkingBlockIndex), thinkingBlockClosed)
    }

    // One step of the translation: the state and what is written.
    twostate predicate Did(o: Out) reads this {
      Valid() && Abs() == o.s && captured == old(captured) + o.events
    }

    constructor ()
      ensures Valid() && Abs() == Init && captured == []
    {
      captured, states, order, nextBlockIndex := [], [], [], 0;
      sentMessageStart, messageID, finishReason := false, "", "end_turn";
      toolCalls := map[];
      textBlockIndex, thinkingBlockIndex, thinkingBlockClosed := -1, -1, false;
    }

    method DoBegin(id: string)
      requires Valid()
      modifies this`messageID, this`sentMessageStart, this`captured
      ensures Did(Begin(old(Abs()), id))
    {
      if id != "" && messageID == "" {
        messageID := Strings.TrimPrefix(id, "chatcmpl-");
      }
      if !sentMessageStart {
        captured := captured + [MessageStart(messageID)];
        sentMessageStart := true;
      }
    }

    method DoReasoning(text: string)
      requires Valid()
      modifies this`thinkingBlockIndex, this`nextBlockIndex, this`captured
      ensures Did(OnReasoning(old(Abs()), text))
    {
      if text != "" && !thinkingBlockClosed {
        if thinkingBlockIndex < 0 {
          thinkingBlockIndex := nextBlockIndex;
          nextBlockIndex := nextBlockIndex + 1;
          captured := captured + [BlockStart(thinkingBlockIndex, ThinkingHead)];
        }
        captured := captured + [Delta(thinkingBlockIndex, ThinkingDelta(text))];
      }
    }

    method DoAddText(text: string)
      requires Valid()
      modifies this`textBlockIndex, this`nextBlockIndex, this`captured
      ensures Did(AddText(old(Abs()), text))
    {
      if textBlockIndex < 0 {
        textBlockIndex := nextBlockIndex;
        nextBlockIndex := nextBlockIndex + 1;
        captured := captured + [BlockStart(textBlockIndex, TextHead)];
      }
      captured := captured + [Delta(textBlockIndex, TextDelta(text))];
    }

    method DoText(text: string)
      requires Valid()
      modifies this`textBlockIndex, this`nextBlockIndex, this`captured, this`thinkingBlockClosed
      ensures Did(OnText(old(Abs()), text))
    {
      if text != "" {
        if thinkingBlockIndex >= 0 && !thinkingBlockClosed {
          captured := captured + [BlockStop(thinkingBlockIndex)];
          thinkingBlockClosed := true;
        }
        DoAddText(text);
      }
    }

    method DoOpenTool(d: ToolDelta)
      requires Valid() && d.index.Some?
      modifies this`toolCalls, this`states, this`order, this`nextBlockIndex, this`captured
      ensures Did(OpenTool(old(Abs()), d)) && d.index.value in toolCalls
    {
      if d.index.value !in toolCalls {
        var state := ToolCallState(d.id, d.name, nextBlockIndex);
        OpenedOneMore(toolCalls, states, order, nextBlockIndex, d.index.value, state);
        toolCalls := toolCalls[d.index.value := state];
        states, order := states + [state], order + [nextBlockIndex];
        captured := captured + [BlockStart(nextBlockIndex, ToolHead(d.id, d.name))];
        nextBlockIndex := nextBlockIndex + 1;
      }
    }

    method DoTool(d: ToolDelta)
      requires Valid()
      modifies this`toolCalls, this`states, this`order, this`nextBlockIndex, this`captured
      ensures Did(OnTool(old(Abs()), d))
    {
      if d.index.Some? {
        DoOpenTool(d);
        if d.args != "" {
          captured := captured + [Delta(toolCalls[d.index.value].blockIndex, JsonDelta(d.args))];
        }
      }
    }

    method DoTools(ds: seq<ToolDelta>)
      requires Valid()
      modifies this`toolCalls, this`states, this`order, this`nextBlockIndex, this`captured
      ensures Did(OnTools(old(Abs()), ds))
    {
      ghost var all := OnTools(Abs(), ds);
      assert ds[0..] == ds;
      for n := 0 to |ds|
        invariant Valid()
        invariant Rest(all, old(captured), Abs(), captured, ds[n..])
      {
        RestStep(all, old(captured), Abs(), captured, ds, n);
        DoTool(ds[n]);
      }
    }

    method DoDelta(d: ChatDelta)
      requires Valid()
      modifies this`toolCalls, this`states, this`order, this`nextBlockIndex, this`captured,
               this`thinkingBlockIndex, this`textBlockIndex, this`thinkingBlockClosed
      ensures Did(OnDelta(old(Abs()), d))
    {
      ghost var a := OnReasoning(Abs(), ReasoningText(d));
      ghost var b := OnText(a.s, ContentText(d.content));
      ghost var c := OnRefusal(b.s, d.refusal);
      ghost var t := OnTools(c.s, d.toolCalls);
      DoReasoning(ReasoningText(d));
      DoText(ContentText(d.content));
      DoRefusal(d.refusal);
      DoTools(d.toolCalls);
      FourPieces(old(captured), a.events, b.events, c.events, t.events);
    }

    method DoRefusal(text: string)
      requires Valid()
      modifies this`textBlockIndex, this`nextBlockIndex, this`captured
      ensures Did(OnRefusal(old(Abs()), text))
    {
      if text != "" {
        DoAddText(text);
      }
    }

    method WriteStops(blocks: seq<nat>)
      modifies this`captured
      ensures captured == old(captured) + StopEvents(blocks)
    {
      for n := 0 to |blocks|
        invariant captured == old(captured) + StopEvents(blocks[..n])
      {
        StopsMore(blocks, n);
        Assoc(old(captured), StopEvents(blocks[..n]), [BlockStop(blocks[n])]);
        captured := captured + [BlockStop(blocks[n])];
      }
      assert blocks[..|blocks|] == blocks;
    }

    method DoStops()
      requires Valid()
      modifies this`captured
      ensures captured == old(captured) + StopEvents(OpenBlocks(Abs()))
    {
      WriteHeads();
      var blocks := SortedBlocks(toolCalls, states, order, nextBlockIndex);
      WriteStops(blocks);
      StopsJoin(OpenHeads(Abs()), blocks);
      Assoc(old(captured), StopEvents(OpenHeads(Abs())), StopEvents(blocks));
    }

    method WriteHeads()
      requires Valid()
      modifies this`captured
      ensures captured == old(captured) + StopEvents(OpenHeads(Abs()))
    {
      if thinkingBlockIndex >= 0 && !thinkingBlockClosed {
        captured := captured + [BlockStop(thinkingBlockIndex)];
      }
      if textBlockIndex >= 0 {
        captured := captured + [BlockStop(textBlockIndex)];
      }
    }

    method DoDone()
      requires Valid()
      modifies this`captured
      ensures captured == old(captured) + OnDone(Abs())
    {
      DoStops();
      var stopReason := "end_turn";
      if finishReason == "tool_calls" {
        stopReason := "tool_use";
      }
      captured := captured + [MessageDelta(Some(stopReason))];
      captured := captured + [MessageStop];
    }

    method DoChoice(choice: Option<Choice>)
      requires Valid()
      modifies this`toolCalls, this`states, this`order, this`nextBlockIndex, this`captured,
               this`thinkingBlockIndex, this`textBlockIndex, this`thinkingBlockClosed, this`finishReason
      ensures Did(OnChoice(old(Abs()), choice))
    {
      if choice.None? || choice.value.delta.None? {
        return;
      }
      if choice.value.finish.Some? && choice.value.finish.value != "" {
        finishReason := choice.value.finish.value;
      }
      assert Abs() == OnFinish(old(Abs()), choice.value.finish);
      DoDelta(choice.value.delta.value);
    }

    method DoLine(line: Line)
      requires Valid()
      modifies this
      ensures Did(OnLine(old(Abs()), line))
    {
      match line {
        case Done =>
          DoDone();
        case Unparsed =>
        case Chunk(id, choice) =>
          DoChunk(id, choice);
      }
    }

    method DoChunk(id: string, choice: Option<Choice>)
      requires Valid()
      modifies this
      ensures Did(OnLine(old(Abs()), Chunk(id, choice)))
    {
      ghost var b := Begin(Abs(), id);
      ghost var d := OnChoice(b.s, choice);
      DoBegin(id);
      DoChoice(choice);
      Assoc(old(captured), b.events, d.events);
    }

    method Scan(lines: seq<Line>)
      requires Valid() && captured == []
      modifies this
      ensures Valid() && captured == Run(old(Abs()), lines)
    {
      ghost var all := Run(Abs(), lines);
      assert lines[0..] == lines;
      for n := 0 to |lines|
        invariant Valid()
        invariant Pending(all, captured, Abs(), lines[n..])
      {
        PendingStep(all, captured, Abs(), lines, n);
        DoLine(lines[n]);
      }
    }

    /** The streaming loop: what is captured is the translation of the whole stream. */
    static method Stream(lines: seq<Line>) returns (captured: seq<Event>)
      ensures captured == Translate(lines)
    {
      var t := new ReverseSSEStream();
      t.Scan(lines);
      captured := t.captured;
    }
  }
}
