/** The loops of GeminiSSEToAnthropicSSE and GeminiSSEToOpenAISSE
  * (internal/translate/stream_gemini.go), proved to write the streams of module Gemini.
  */
module GeminiTranslators {
  import opened Options
  import opened Sequences
  import opened StreamTypes
  import opened Gemini
  import R = OpenAIToAnthropic

  /* ---------- Gemini to Anthropic ---------- */

  // The function names in the order of their first call, with the blocks they opened.
  ghost predicate OpenedInOrder(m: map<string, ToolState>, names: seq<string>, order: seq<nat>, next: nat) {
    && R.Ascending(order) && (forall k :: 0 <= k < |order| ==> order[k] < next)
    && |names| == |order| && (forall k :: 0 <= k < |names| ==> names[k] in m && m[names[k]].index == order[k])
    && (forall n :: n in m ==> n in names)
  }

  // The functions not collected yet are those whose blocks are not.
  ghost predicate ToCollect(todo: set<string>, entries: seq<nat>, names: seq<string>, order: seq<nat>)
    requires |names| == |order|
  {
    (forall e :: e in entries ==> e in order) && forall k :: 0 <= k < |names| ==> (names[k] in todo <==> order[k] !in entries)
  }

  lemma CollectOne(m: map<string, ToolState>, names: seq<string>, order: seq<nat>, next: nat, todo: set<string>,
                   entries: seq<nat>, n: string, more: seq<nat>)
    requires OpenedInOrder(m, names, order, next) && n in todo && n in m && ToCollect(todo, entries, names, order)
    requires forall y :: y in more <==> y == m[n].index || y in entries
    ensures ToCollect(todo - {n}, more, names, order)
  {
    forall k | 0 <= k < |names|
      ensures names[k] in todo - {n} <==> order[k] !in more
    {
      assert names[k] == n ==> order[k] == m[n].index;
      var j :| 0 <= j < |names| && names[j] == n;
      assert order[j] == m[n].index;
    }
  }

  lemma AllCollected(names: seq<string>, order: seq<nat>, entries: seq<nat>)
    requires |names| == |order| && R.Ascending(order) && R.Ascending(entries) && ToCollect({}, entries, names, order)
    ensures entries == order
  {
    forall k | 0 <= k < |order|
      ensures order[k] in entries
    {
      assert names[k] !in {};
    }
    R.AscendingUnique(entries, order);
  }

  // The block indices of the tools, collected from the map and sorted.
  method SortedEntries(m: map<string, ToolState>, ghost names: seq<string>, ghost order: seq<nat>, ghost next: nat)
      returns (entries: seq<nat>)
    requires OpenedInOrder(m, names, order, next)
    ensures entries == order
  {
    entries := [];
    var todo := m.Keys;
    while todo != {}
      invariant todo <= m.Keys && R.Ascending(entries)
      invariant ToCollect(todo, entries, names, order)
      decreases |todo|
    {
      var n :| n in todo;
      ghost var k :| 0 <= k < |names| && names[k] == n;
      assert order[k] == m[n].index && m[n].index !in entries;
      var more := R.Insert(entries, m[n].index);
      CollectOne(m, names, order, next, todo, entries, n, more);
      todo, entries := todo - {n}, more;
    }
    AllCollected(names, order, entries);
  }

  // Part of the parts is done: what is captured and what the rest writes make up the whole.
  ghost predicate Rest(encode: Encode, all: Out, before: seq<Event>, s: State, captured: seq<Event>, ps: seq<Part>) {
    var rest := OnParts(encode, s, ps);
    all.s == rest.s && before + all.events == captured + rest.events
  }

  lemma RestStep(encode: Encode, all: Out, before: seq<Event>, s: State, captured: seq<Event>, ps: seq<Part>, n: nat)
    requires n < |ps| && Rest(encode, all, before, s, captured, ps[n..])
    ensures var a := OnPart(encode, s, ps[n]); Rest(encode, all, before, a.s, captured + a.events, ps[n + 1..])
  {
    assert ps[n..][1..] == ps[n + 1..];
    var a := OnPart(encode, s, ps[n]);
    var b := OnParts(encode, a.s, ps[n + 1..]);
    assert captured + (a.events + b.events) == (captured + a.events) + b.events;
  }

  ghost predicate Pending(encode: Encode, all: Out, s: State, captured: seq<Event>, lines: seq<GemLine>) {
    var rest := Run(encode, s, lines);
    all.s == rest.s && all.events == captured + rest.events
  }

  lemma PendingStep(encode: Encode, all: Out, s: State, captured: seq<Event>, lines: seq<GemLine>, n: nat)
    requires n < |lines| && Pending(encode, all, s, captured, lines[n..])
    ensures var a := OnLine(encode, s, lines[n]); Pending(encode, all, a.s, captured + a.events, lines[n + 1..])
  {
    assert lines[n..][1..] == lines[n + 1..];
    var a := OnLine(encode, s, lines[n]);
    var b := Run(encode, a.s, lines[n + 1..]);
    assert captured + (a.events + b.events) == (captured + a.events) + b.events;
  }

  lemma ClosedBy(before: seq<Event>, stops: seq<Event>, a: Event, b: Event)
    ensures (before + stops) + [a] + [b] == before + (stops + [a, b])
  {
  }

  class ToAnthropicStream {
    var captured: seq<Event>
    var sentMessageStart: bool
    var textBlockIndex: int
    var nextBlockIndex: nat
    var finishReason: string
    var toolCalls: map<string, ToolState>
    var toolUseIdx: nat
    ghost var names: seq<string>
    ghost var order: seq<nat>

    ghost predicate Valid() reads this {
      OpenedInOrder(toolCalls, names, order, nextBlockIndex) && toolUseIdx == |order|
    }

    ghost function Abs(): State reads this {
      State(sentMessageStart, if textBlockIndex < 0 then None else Some(textBlockIndex), nextBlockIndex,
            finishReason, toolCalls, order)
    }

    // One step of the translation: the state and what is written.
    twostate predicate Did(o: Out) reads this {
      Valid() && Abs() == o.s && captured == old(captured) + o.events
    }

    constructor ()
      ensures Valid() && Abs() == Init && captured == []
    {
      captured, names, order := [], [], [];
      sentMessageStart, textBlockIndex, nextBlockIndex := false, -1, 0;
      finishReason, toolCalls, toolUseIdx := "end_turn", map[], 0;
    }

    method DoFinish(reason: string)
      requires Valid()
      modifies this`finishReason
      ensures Valid() && Abs() == OnFinish(old(Abs()), reason)
    {
      if reason != "" {
        var hasToolUse := |toolCalls| > 0;
        if reason == "MAX_TOKENS" {
          finishReason := "max_tokens";
        } else if reason == "STOP" {
          finishReason := if hasToolUse then "tool_use" else "end_turn";
        } else {
          finishReason := "end_turn";
        }
      }
    }

    method DoText(text: string)
      requires Valid()
      modifies this`textBlockIndex, this`nextBlockIndex, this`captured
      ensures Did(AddText(old(Abs()), text))
    {
      if textBlockIndex < 0 {
        textBlockIndex := nextBlockIndex;
        nextBlockIndex := nextBlockIndex + 1;
        captured := captured + [BlockStart(textBlockIndex, TextHead)];
      }
      captured := captured + [Delta(textBlockIndex, TextDelta(text))];
    }

    method DoOpenTool(encode: Encode, name: string, signature: string)
      requires Valid()
      modifies this`toolCalls, this`toolUseIdx, this`names, this`order, this`nextBlockIndex, this`captured
      ensures Did(OpenTool(encode, old(Abs()), name, signature)) && name in toolCalls
    {
      if name !in toolCalls {
        var toolID := encode("toolu_" + SixDigits(toolUseIdx), signature);
        toolUseIdx := toolUseIdx + 1;
        var state := ToolState(toolID, nextBlockIndex);
        toolCalls := toolCalls[name := state];
        names, order := names + [name], order + [nextBlockIndex];
        nextBlockIndex := nextBlockIndex + 1;
        captured := captured + [BlockStart(state.index, ToolHead(state.id, name))];
      }
    }

    method DoCall(encode: Encode, call: FunctionCall, signature: string)
      requires Valid()
      modifies this`toolCalls, this`toolUseIdx, this`names, this`order, this`nextBlockIndex, this`captured
      ensures Did(OnCall(encode, old(Abs()), call, signature))
    {
      DoOpenTool(encode, call.name, signature);
      if call.args.Some? {
        captured := captured + [Delta(toolCalls[call.name].index, JsonDelta(call.args.value))];
      }
    }

    method DoPart(encode: Encode, part: Part)
      requires Valid()
      modifies this`textBlockIndex, this`toolCalls, this`toolUseIdx, this`names, this`order, this`nextBlockIndex, this`captured
      ensures Did(OnPart(encode, old(Abs()), part))
    {
      if part.text != "" {
        DoText(part.text);
      } else if part.call.Some? {
        DoCall(encode, part.call.value, part.signature);
      }
    }

    method DoParts(encode: Encode, parts: seq<Part>)
      requires Valid()
      modifies this`textBlockIndex, this`toolCalls, this`toolUseIdx, this`names, this`order, this`nextBlockIndex, this`captured
      ensures Did(OnParts(encode, old(Abs()), parts))
    {
      ghost var all := OnParts(encode, Abs(), parts);
      assert parts[0..] == parts;
      for n := 0 to |parts|
        invariant Valid()
        invariant Rest(encode, all, old(captured), Abs(), captured, parts[n..])
      {
        RestStep(encode, all, old(captured), Abs(), captured, parts, n);
        DoPart(encode, parts[n]);
      }
    }

    method DoCandidate(encode: Encode, candidate: Option<Candidate>)
      requires Valid()
      modifies this`textBlockIndex, this`toolCalls, this`toolUseIdx, this`names, this`order, this`nextBlockIndex,
               this`captured, this`finishReason
      ensures Did(OnCandidate(encode, old(Abs()), candidate))
    {
      if candidate.None? {
        return;
      }
      DoFinish(candidate.value.finish);
      if candidate.value.content.Some? {
        DoParts(encode, candidate.value.content.value);
      }
    }

    method DoLine(encode: Encode, line: GemLine)
      requires Valid()
      modifies this
      ensures Did(OnLine(encode, old(Abs()), line))
    {
      if line.Unparsed? {
        return;
      }
      DoStart();
      ghost var start, o := if old(sentMessageStart) then [] else [MessageStart("msg_gemini")], OnCandidate(encode, Abs(), line.candidate);
      DoCandidate(encode, line.candidate);
      assert (old(captured) + start) + o.events == old(captured) + (start + o.events);
    }

    method DoStart()
      requires Valid()
      modifies this`captured, this`sentMessageStart
      ensures Did(Out(old(Abs()).(sentMessageStart := true), if old(sentMessageStart) then [] else [MessageStart("msg_gemini")]))
    {
      if !sentMessageStart {
        captured := captured + [MessageStart("msg_gemini")];
        sentMessageStart := true;
      }
    }

    method DoStops()
      requires Valid()
      modifies this`captured
      ensures captured == old(captured) + R.StopEvents(Blocks(Abs()))
    {
      ghost var head := if textBlockIndex >= 0 then [textBlockIndex as nat] else [];
      if textBlockIndex >= 0 {
        captured := captured + [BlockStop(textBlockIndex)];
      }
      assert captured == old(captured) + R.StopEvents(head);
      var entries := SortedEntries(toolCalls, names, order, nextBlockIndex);
      WriteStops(entries);
      R.StopsJoin(head, entries);
      Assoc(old(captured), R.StopEvents(head), R.StopEvents(entries));
    }

    method WriteStops(entries: seq<nat>)
      modifies this`captured
      ensures captured == old(captured) + R.StopEvents(entries)
    {
      for n := 0 to |entries|
        invariant captured == old(captured) + R.StopEvents(entries[..n])
      {
        R.StopsMore(entries, n);
        Assoc(old(captured), R.StopEvents(entries[..n]), [BlockStop(entries[n])]);
        captured := captured + [BlockStop(entries[n])];
      }
      assert entries[..|entries|] == entries;
    }

    method DoEnd()
      requires Valid()
      modifies this`captured, this`finishReason
      ensures captured == old(captured) + OnEnd(old(Abs()))
    {
      if sentMessageStart {
        ghost var stops := R.StopEvents(Blocks(Abs()));
        DoStops();
        if |toolCalls| > 0 && finishReason == "end_turn" {
          finishReason := "tool_use";
        }
        captured := captured + [MessageDelta(Some(finishReason))];
        captured := captured + [MessageStop];
        ClosedBy(old(captured), stops, MessageDelta(Some(finishReason)), MessageStop);
      }
    }

    method Scan(encode: Encode, lines: seq<GemLine>)
      requires Valid() && captured == []
      modifies this
      ensures Valid() && Out(Abs(), captured) == Run(encode, old(Abs()), lines)
    {
      ghost var all := Run(encode, Abs(), lines);
      assert lines[0..] == lines;
      for n := 0 to |lines|
        invariant Valid()
        invariant Pending(encode, all, Abs(), captured, lines[n..])
      {
        PendingStep(encode, all, Abs(), captured, lines, n);
        DoLine(encode, lines[n]);
      }
    }

    static method Stream(encode: Encode, lines: seq<GemLine>) returns (captured: seq<Event>)
      ensures captured == ToAnthropic(encode, lines)
    {
      var t := new ToAnthropicStream();
      t.Scan(encode, lines);
      t.DoEnd();
      captured := t.captured;
    }
  }

  /* ---------- Gemini to OpenAI ---------- */

  ghost predicate ChunkRest(encode: Encode, all: ChunkOut, before: seq<Line>, s: ChunkState, captured: seq<Line>, ps: seq<Part>) {
    var rest := ChunkParts(encode, "call_", s, ps);
    all.s == rest.s && before + all.lines == captured + rest.lines
  }

  lemma ChunkRestStep(encode: Encode, all: ChunkOut, before: seq<Line>, s: ChunkState, captured: seq<Line>, ps: seq<Part>, n: nat)
    requires n < |ps| && ChunkRest(encode, all, before, s, captured, ps[n..])
    ensures var a := ChunkPart(encode, "call_", s, ps[n]); ChunkRest(encode, all, before, a.s, captured + a.lines, ps[n + 1..])
  {
    assert ps[n..][1..] == ps[n + 1..];
    var a := ChunkPart(encode, "call_", s, ps[n]);
    var b := ChunkParts(encode, "call_", a.s, ps[n + 1..]);
    assert captured + (a.lines + b.lines) == (captured + a.lines) + b.lines;
  }

  ghost predicate ChunkPending(encode: Encode, all: ChunkOut, s: ChunkState, captured: seq<Line>, lines: seq<GemLine>) {
    var rest := ChunkRun(encode, "call_", s, lines);
    all.s == rest.s && all.lines == captured + rest.lines
  }

  lemma ChunkPendingStep(encode: Encode, all: ChunkOut, s: ChunkState, captured: seq<Line>, lines: seq<GemLine>, n: nat)
    requires n < |lines| && ChunkPending(encode, all, s, captured, lines[n..])
    ensures var a := ChunksOf(encode, "call_", s, lines[n]); ChunkPending(encode, all, a.s, captured + a.lines, lines[n + 1..])
  {
    assert lines[n..][1..] == lines[n + 1..];
    var a := ChunksOf(encode, "call_", s, lines[n]);
    var b := ChunkRun(encode, "call_", a.s, lines[n + 1..]);
    assert captured + (a.lines + b.lines) == (captured + a.lines) + b.lines;
  }

  class ToOpenAIStream {
    var captured: seq<Line>
    var sentInitial: bool
    var finishReason: string
    var toolUseIdx: nat
    var toolIndexByName: map<string, nat>

    ghost predicate Valid() reads this {
      toolUseIdx == |toolIndexByName|
    }

    ghost function Abs(): ChunkState reads this {
      ChunkState(sentInitial, finishReason, toolIndexByName)
    }

    twostate predicate Did(o: ChunkOut) reads this {
      Valid() && Abs() == o.s && captured == old(captured) + o.lines
    }

    constructor ()
      ensures Valid() && Abs() == ChunkInit && captured == []
    {
      captured, sentInitial, finishReason, toolUseIdx, toolIndexByName := [], false, "stop", 0, map[];
    }

    method DoFinish(reason: string)
      requires Valid()
      modifies this`finishReason
      ensures Valid() && Abs() == ChunkFinish(old(Abs()), reason)
    {
      if reason != "" {
        var hasTC := |toolIndexByName| > 0;
        if reason == "MAX_TOKENS" {
          finishReason := "length";
        } else if reason == "STOP" {
          finishReason := if hasTC then "tool_calls" else "stop";
        } else {
          finishReason := "stop";
        }
      }
    }

    method IndexOf(name: string) returns (tcIdx: nat)
      requires Valid()
      modifies this`toolUseIdx, this`toolIndexByName
      ensures Valid() && tcIdx == ChunkIndex(old(Abs()), name)
      ensures toolIndexByName == old(toolIndexByName)[name := tcIdx]
    {
      if name in toolIndexByName {
        tcIdx := toolIndexByName[name];
        assert toolIndexByName[name := tcIdx] == toolIndexByName;
      } else {
        tcIdx := toolUseIdx;
        toolIndexByName := toolIndexByName[name := tcIdx];
        toolUseIdx := toolUseIdx + 1;
        assert toolIndexByName.Keys == old(toolIndexByName).Keys + {name};
        assert |toolIndexByName| == |toolIndexByName.Keys|;
      }
    }

    method DoPart(encode: Encode, part: Part)
      requires Valid()
      modifies this`captured, this`toolUseIdx, this`toolIndexByName
      ensures Did(ChunkPart(encode, "call_", old(Abs()), part))
    {
      if part.text != "" {
        captured := captured + [ChunkLine(EmptyDelta.(content := Plain(part.text)), None)];
      } else if part.call.Some? {
        var tcIdx := IndexOf(part.call.value.name);
        var argsStr := "";
        if part.call.value.args.Some? {
          argsStr := part.call.value.args.value;
        }
        var callID := encode("call_" + SixDigits(tcIdx), part.signature);
        captured := captured
          + [ChunkLine(EmptyDelta.(toolCalls := [ToolDelta(Some(tcIdx), callID, part.call.value.name, argsStr)]), None)];
      }
    }

    method DoParts(encode: Encode, parts: seq<Part>)
      requires Valid()
      modifies this`captured, this`toolUseIdx, this`toolIndexByName
      ensures Did(ChunkParts(encode, "call_", old(Abs()), parts))
    {
      ghost var all := ChunkParts(encode, "call_", Abs(), parts);
      assert parts[0..] == parts;
      for n := 0 to |parts|
        invariant Valid()
        invariant ChunkRest(encode, all, old(captured), Abs(), captured, parts[n..])
      {
        ChunkRestStep(encode, all, old(captured), Abs(), captured, parts, n);
        DoPart(encode, parts[n]);
      }
    }

    method DoCandidate(encode: Encode, candidate: Option<Candidate>)
      requires Valid()
      modifies this`captured, this`toolUseIdx, this`toolIndexByName, this`finishReason
      ensures Did(ChunkCandidate(encode, "call_", old(Abs()), candidate))
    {
      if candidate.None? {
        return;
      }
      DoFinish(candidate.value.finish);
      if candidate.value.content.Some? {
        DoParts(encode, candidate.value.content.value);
      }
    }

    method DoLine(encode: Encode, line: GemLine)
      requires Valid()
      modifies this
      ensures Did(ChunksOf(encode, "call_", old(Abs()), line))
    {
      if line.Unparsed? {
        return;
      }
      DoStart();
      ghost var o := ChunkCandidate(encode, "call_", Abs(), line.candidate);
      DoCandidate(encode, line.candidate);
      Assoc(old(captured), Opening(old(Abs())), o.lines);
    }

    method DoStart()
      requires Valid()
      modifies this`captured, this`sentInitial
      ensures Did(ChunkOut(old(Abs()).(sentInitial := true), Opening(old(Abs()))))
    {
      if !sentInitial {
        captured := captured + [RoleChunk];
        sentInitial := true;
      }
    }

    static method Stream(encode: Encode, lines: seq<GemLine>) returns (captured: seq<Line>)
      ensures captured == ToOpenAI(encode, "call_", lines)
    {
      var t := new ToOpenAIStream();
      ghost var all := ChunkRun(encode, "call_", ChunkInit, lines);
      assert lines[0..] == lines;
      for n := 0 to |lines|
        invariant t.Valid() && fresh(t)
        invariant ChunkPending(encode, all, t.Abs(), t.captured, lines[n..])
      {
        ChunkPendingStep(encode, all, t.Abs(), t.captured, lines, n);
        t.DoLine(encode, lines[n]);
      }
      if t.sentInitial {
        if |t.toolIndexByName| > 0 && t.finishReason == "stop" {
          t.finishReason := "tool_calls";
        }
        t.captured := t.captured + [ChunkLine(EmptyDelta, Some(t.finishReason))];
        t.captured := t.captured + [Done];
      }
      captured := t.captured;
    }
  }
}
