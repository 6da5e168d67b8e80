/** What a Gemini stream says, independently of both translators, and that both say it. */
module GeminiMeaning {
  import opened Options
  import opened Sequences
  import opened StreamTypes
  import opened Gemini
  import opened GeminiAgreement
  import R = OpenAIToAnthropic
  import RT = StreamRoundTrip

  /* ---------- The contents of a Gemini stream ---------- */

  predicate HasResponse(lines: seq<GemLine>) {
    exists k :: 0 <= k < |lines| && lines[k].Response?
  }

  function PartsText(ps: seq<Part>): string {
    if ps == [] then "" else ps[0].text + PartsText(ps[1..])
  }

  datatype CallRec = CallRec(name: string, args: string, signature: string)

  // A part with text is a text part, whatever else it holds.
  function PartCalls(p: Part): seq<CallRec> {
    if p.text == "" && p.call.Some? then [CallRec(p.call.value.name, ArgsOf(p.call.value), p.signature)] else []
  }

  function PartsCalls(ps: seq<Part>): seq<CallRec> {
    if ps == [] then [] else PartCalls(ps[0]) + PartsCalls(ps[1..])
  }

  function PartsOf(line: GemLine): seq<Part> {
    if line.Response? && line.candidate.Some? && line.candidate.value.content.Some?
    then line.candidate.value.content.value else []
  }

  function GemText(lines: seq<GemLine>): string {
    if lines == [] then "" else PartsText(PartsOf(lines[0])) + GemText(lines[1..])
  }

  function Calls(lines: seq<GemLine>): seq<CallRec> {
    if lines == [] then [] else PartsCalls(PartsOf(lines[0])) + Calls(lines[1..])
  }

  function LineFinishOf(line: GemLine): string {
    if line.Response? && line.candidate.Some? then line.candidate.value.finish else ""
  }

  // The last non-empty finish reason, or `before` if there is none.
  function LastFinish(before: string, lines: seq<GemLine>): string
    decreases |lines|
  {
    if lines == [] then before
    else LastFinish(if LineFinishOf(lines[0]) == "" then before else LineFinishOf(lines[0]), lines[1..])
  }

  // Calls of one function are one tool call: the first signature, all arguments.
  function FindName(ms: seq<CallRec>, name: string): (k: nat)
    ensures k <= |ms|
    ensures k < |ms| ==> ms[k].name == name
    ensures forall j :: 0 <= j < k ==> ms[j].name != name
  {
    if ms == [] || ms[0].name == name then 0 else 1 + FindName(ms[1..], name)
  }

  function AddCall(ms: seq<CallRec>, c: CallRec): seq<CallRec> {
    var k := FindName(ms, c.name);
    if k < |ms| then ms[k := ms[k].(args := ms[k].args + c.args)] else ms + [c]
  }

  function Merge(ms: seq<CallRec>, calls: seq<CallRec>): seq<CallRec>
    decreases |calls|
  {
    if calls == [] then ms else Merge(AddCall(ms, calls[0]), calls[1..])
  }

  // The merged calls as tools, numbered in order of first appearance.
  function Named(encode: Encode, prefix: string, ms: seq<CallRec>): (r: seq<Tool>)
    ensures |r| == |ms|
  {
    seq(|ms|, k requires 0 <= k < |ms| => Tool(k, encode(prefix + SixDigits(k), ms[k].signature), ms[k].name, ms[k].args))
  }

  lemma {:induction false} MergeAppend(ms: seq<CallRec>, a: seq<CallRec>, b: seq<CallRec>)
    ensures Merge(ms, a + b) == Merge(Merge(ms, a), b)
    decreases |a|
  {
    if a == [] {
      assert a + b == b;
    } else {
      assert (a + b)[1..] == a[1..] + b;
      MergeAppend(AddCall(ms, a[0]), a[1..], b);
    }
  }

  /* ---------- The chunks say it ---------- */

  // The translator's numbering is that of the merged calls.
  ghost predicate Numbers(o: ChunkState, ms: seq<CallRec>) {
    |o.toolIndex| == |ms| && Places(o.toolIndex, ms) && Back(o.toolIndex, ms)
  }

  predicate Places(index: map<string, nat>, ms: seq<CallRec>) {
    forall k :: 0 <= k < |ms| ==> ms[k].name in index && index[ms[k].name] == k
  }

  predicate Back(index: map<string, nat>, ms: seq<CallRec>) {
    forall n :: n in index ==> index[n] < |ms| && ms[index[n]].name == n
  }

  ghost predicate Conveys(encode: Encode, prefix: string, lines: seq<Line>, text: string, ms: seq<CallRec>, ms': seq<CallRec>) {
    && Text(lines) == text && Reasoning(lines) == "" && Finish(lines) == None && RT.AllIDs(lines, MsgID)
    && ToolsFrom(Named(encode, prefix, ms), lines) == Named(encode, prefix, ms')
  }

  lemma ConveysAppend(encode: Encode, prefix: string, a: seq<Line>, b: seq<Line>, t: string, u: string,
                      x: seq<CallRec>, y: seq<CallRec>, z: seq<CallRec>)
    requires Conveys(encode, prefix, a, t, x, y) && Conveys(encode, prefix, b, u, y, z)
    ensures Conveys(encode, prefix, a + b, t + u, x, z)
  {
    TextAppend(a, b);
    ReasoningAppend(a, b);
    FinishAppend(a, b);
    ToolsAppend(Named(encode, prefix, x), a, b);
  }

  lemma NumbersCall(encode: Encode, prefix: string, o: ChunkState, ms: seq<CallRec>, c: FunctionCall, signature: string)
    requires Numbers(o, ms)
    ensures ChunkIndex(o, c.name) == FindName(ms, c.name)
    ensures Numbers(ChunkCall(encode, prefix, o, c, signature).s, AddCall(ms, CallRec(c.name, ArgsOf(c), signature)))
  {
    IndexIsPlace(o, ms, c.name);
    var r := CallRec(c.name, ArgsOf(c), signature);
    if c.name in o.toolIndex {
      assert o.toolIndex[c.name := o.toolIndex[c.name]] == o.toolIndex;
      KnownNumbers(o, ms, r);
    } else {
      NewNumbers(o, ms, r);
    }
  }

  lemma KnownNumbers(o: ChunkState, ms: seq<CallRec>, r: CallRec)
    requires Numbers(o, ms) && FindName(ms, r.name) < |ms|
    ensures Numbers(o, AddCall(ms, r))
  {
    KnownPlaces(o.toolIndex, ms, FindName(ms, r.name), r.args);
  }

  lemma KnownPlaces(index: map<string, nat>, ms: seq<CallRec>, k: nat, more: string)
    requires Places(index, ms) && Back(index, ms) && k < |ms|
    ensures var ms' := ms[k := ms[k].(args := ms[k].args + more)]; Places(index, ms') && Back(index, ms')
  {
    var ms' := ms[k := ms[k].(args := ms[k].args + more)];
    assert forall j :: 0 <= j < |ms| ==> ms'[j].name == ms[j].name;
  }

  lemma NewNumbers(o: ChunkState, ms: seq<CallRec>, r: CallRec)
    requires Numbers(o, ms) && r.name !in o.toolIndex && FindName(ms, r.name) == |ms|
    ensures Numbers(o.(toolIndex := o.toolIndex[r.name := |o.toolIndex|]), AddCall(ms, r))
  {
    OneMoreKey(o.toolIndex, r.name, |o.toolIndex|);
    NewPlaces(o.toolIndex, ms, r);
    NewBack(o.toolIndex, ms, r);
  }

  lemma NewPlaces(index: map<string, nat>, ms: seq<CallRec>, r: CallRec)
    requires Places(index, ms) && r.name !in index
    ensures Places(index[r.name := |ms|], ms + [r])
  {
  }

  lemma NewBack(index: map<string, nat>, ms: seq<CallRec>, r: CallRec)
    requires Back(index, ms) && r.name !in index
    ensures Back(index[r.name := |ms|], ms + [r])
  {
  }

  lemma IndexIsPlace(o: ChunkState, ms: seq<CallRec>, name: string)
    requires Numbers(o, ms)
    ensures ChunkIndex(o, name) == FindName(ms, name) && (FindName(ms, name) < |ms| <==> name in o.toolIndex)
  {
    var k := FindName(ms, name);
    if name in o.toolIndex {
      assert ms[o.toolIndex[name]].name == name;
    }
  }

  lemma CallConveyed(encode: Encode, prefix: string, o: ChunkState, ms: seq<CallRec>, c: FunctionCall, signature: string)
    requires Numbers(o, ms)
    ensures Conveys(encode, prefix, ChunkCall(encode, prefix, o, c, signature).lines, "", ms,
                    AddCall(ms, CallRec(c.name, ArgsOf(c), signature)))
  {
    var r := CallRec(c.name, ArgsOf(c), signature);
    NumbersCall(encode, prefix, o, ms, c, signature);
    var k := FindName(ms, c.name);
    var t := ToolDelta(Some(k), encode(prefix + SixDigits(k), signature), c.name, ArgsOf(c));
    var ts := Named(encode, prefix, ms);
    var line := ChunkLine(EmptyDelta.(toolCalls := [t]), None);
    RT.OneLine(line, ts);
    RT.OneTool(ts, t);
    AddNamed(encode, prefix, ms, r);
  }

  lemma AddNamed(encode: Encode, prefix: string, ms: seq<CallRec>, r: CallRec)
    ensures var k := FindName(ms, r.name);
            AddTool(Named(encode, prefix, ms), ToolDelta(Some(k), encode(prefix + SixDigits(k), r.signature), r.name, r.args))
            == Named(encode, prefix, AddCall(ms, r))
  {
    FindNumbered(Named(encode, prefix, ms), FindName(ms, r.name));
  }

  lemma TextConveyed(encode: Encode, prefix: string, ms: seq<CallRec>, text: string)
    ensures Conveys(encode, prefix, [ChunkLine(EmptyDelta.(content := Plain(text)), None)], text, ms, ms)
  {
    RT.OneLine(ChunkLine(EmptyDelta.(content := Plain(text)), None), Named(encode, prefix, ms));
  }

  lemma MergeOne(ms: seq<CallRec>, c: CallRec)
    ensures Merge(ms, [c]) == AddCall(ms, c)
  {
    assert [c][1..] == [];
  }

  lemma PartConveyed(encode: Encode, prefix: string, o: ChunkState, ms: seq<CallRec>, p: Part)
    requires Numbers(o, ms)
    ensures var b := ChunkPart(encode, prefix, o, p);
            Conveys(encode, prefix, b.lines, p.text, ms, Merge(ms, PartCalls(p))) && Numbers(b.s, Merge(ms, PartCalls(p)))
  {
    if p.text != "" {
      TextConveyed(encode, prefix, ms, p.text);
    } else if p.call.Some? {
      CallConveyed(encode, prefix, o, ms, p.call.value, p.signature);
      NumbersCall(encode, prefix, o, ms, p.call.value, p.signature);
      MergeOne(ms, PartCalls(p)[0]);
    }
  }

  lemma {:induction false} PartsConveyed(encode: Encode, prefix: string, o: ChunkState, ms: seq<CallRec>, ps: seq<Part>)
    requires Numbers(o, ms)
    ensures var b := ChunkParts(encode, prefix, o, ps); var ms' := Merge(ms, PartsCalls(ps));
            Conveys(encode, prefix, b.lines, PartsText(ps), ms, ms') && Numbers(b.s, ms')
    decreases |ps|
  {
    if ps != [] {
      var b := ChunkPart(encode, prefix, o, ps[0]);
      var ms' := Merge(ms, PartCalls(ps[0]));
      PartConveyed(encode, prefix, o, ms, ps[0]);
      PartsConveyed(encode, prefix, b.s, ms', ps[1..]);
      MergeAppend(ms, PartCalls(ps[0]), PartsCalls(ps[1..]));
      ConveysAppend(encode, prefix, b.lines, ChunkParts(encode, prefix, b.s, ps[1..]).lines,
                    ps[0].text, PartsText(ps[1..]), ms, ms', Merge(ms', PartsCalls(ps[1..])));
    }
  }

  lemma LineConveyed(encode: Encode, prefix: string, o: ChunkState, ms: seq<CallRec>, line: GemLine)
    requires Numbers(o, ms) && o.sentInitial
    ensures var b := ChunksOf(encode, prefix, o, line); var ms' := Merge(ms, PartsCalls(PartsOf(line)));
            Conveys(encode, prefix, b.lines, PartsText(PartsOf(line)), ms, ms') && Numbers(b.s, ms')
  {
    if line.Response? && line.candidate.Some? {
      assert o.(sentInitial := true) == o;
      var f := ChunkFinish(o, line.candidate.value.finish);
      PartsConveyed(encode, prefix, f, ms, PartsOf(line));
      var b := ChunkParts(encode, prefix, f, PartsOf(line));
      assert [] + b.lines == b.lines;
    }
  }

  lemma {:induction false} RunConveyed(encode: Encode, prefix: string, o: ChunkState, ms: seq<CallRec>, lines: seq<GemLine>)
    requires Numbers(o, ms) && o.sentInitial
    ensures var b := ChunkRun(encode, prefix, o, lines); var ms' := Merge(ms, Calls(lines));
            Conveys(encode, prefix, b.lines, GemText(lines), ms, ms') && Numbers(b.s, ms') && b.s.sentInitial
    decreases |lines|
  {
    if lines != [] {
      var b := ChunksOf(encode, prefix, o, lines[0]);
      var here := PartsCalls(PartsOf(lines[0]));
      LineConveyed(encode, prefix, o, ms, lines[0]);
      LineKeepsSent(encode, prefix, o, lines[0]);
      RunConveyed(encode, prefix, b.s, Merge(ms, here), lines[1..]);
      MergeAppend(ms, here, Calls(lines[1..]));
      ConveysAppend(encode, prefix, b.lines, ChunkRun(encode, prefix, b.s, lines[1..]).lines,
                    PartsText(PartsOf(lines[0])), GemText(lines[1..]), ms, Merge(ms, here), Merge(ms, Calls(lines)));
    }
  }

  lemma {:induction false} PartsKeep(encode: Encode, prefix: string, o: ChunkState, ps: seq<Part>)
    ensures var b := ChunkParts(encode, prefix, o, ps).s;
            b.sentInitial == o.sentInitial && b.finishReason == o.finishReason && |b.toolIndex| >= |o.toolIndex|
    decreases |ps|
  {
    if ps != [] {
      var b := ChunkPart(encode, prefix, o, ps[0]).s;
      if ps[0].text == "" && ps[0].call.Some? {
        var n := ps[0].call.value.name;
        assert b.toolIndex.Keys == o.toolIndex.Keys + {n};
        assert |b.toolIndex| == |b.toolIndex.Keys|;
      }
      PartsKeep(encode, prefix, b, ps[1..]);
    }
  }

  lemma LineKeepsSent(encode: Encode, prefix: string, o: ChunkState, line: GemLine)
    requires o.sentInitial
    ensures ChunksOf(encode, prefix, o, line).s.sentInitial
  {
    if line.Response? && line.candidate.Some? {
      PartsKeep(encode, prefix, ChunkFinish(o.(sentInitial := true), line.candidate.value.finish), PartsOf(line));
    }
  }

  /* ---------- The stop reason ---------- */

  function StopOf(last: string, anyCall: bool): string {
    if last == "MAX_TOKENS" then "max_tokens" else if anyCall then "tool_use" else "end_turn"
  }

  // The translators' finish variables, as the last finish reason of the stream leaves them.
  ghost predicate FinishKnown(last: string, g: State, o: ChunkState) {
    if last == "MAX_TOKENS" then g.finishReason == "max_tokens" && o.finishReason == "length"
    else
      || (g.finishReason == "end_turn" && o.finishReason == "stop")
      || (g.finishReason == "tool_use" && o.finishReason == "tool_calls" && |o.toolIndex| > 0 && |g.tools| > 0)
  }

  lemma {:induction false} PartsKeepTools(encode: Encode, g: State, ps: seq<Part>)
    ensures |OnParts(encode, g, ps).s.tools| >= |g.tools|
    decreases |ps|
  {
    if ps != [] {
      var a := OnPart(encode, g, ps[0]).s;
      if ps[0].text == "" && ps[0].call.Some? {
        var n := ps[0].call.value.name;
        assert a.tools.Keys == g.tools.Keys + {n};
        assert |a.tools| == |a.tools.Keys|;
      }
      PartsKeepTools(encode, a, ps[1..]);
    }
  }

  lemma FinishSeen(g: State, o: ChunkState, last: string, finish: string)
    requires |g.tools| == |o.toolIndex| && FinishKnown(last, g, o)
    ensures FinishKnown(if finish == "" then last else finish, OnFinish(g, finish), ChunkFinish(o, finish))
  {
  }

  lemma FinishKept(last: string, g: State, o: ChunkState, g': State, o': ChunkState)
    requires FinishKnown(last, g, o) && g'.finishReason == g.finishReason && o'.finishReason == o.finishReason
    requires |g'.tools| >= |g.tools| && |o'.toolIndex| >= |o.toolIndex|
    ensures FinishKnown(last, g', o')
  {
  }

  lemma LineFinishKnown(encode: Encode, g: State, o: ChunkState, r: R.State, last: string, line: GemLine)
    requires Aligned(g, o, r) && FinishKnown(last, g, o)
    ensures FinishKnown(if LineFinishOf(line) == "" then last else LineFinishOf(line),
                        OnLine(encode, g, line).s, ChunksOf(encode, Prefix, o, line).s)
  {
    if line.Response? && line.candidate.Some? {
      var g', o' := OnFinish(g.(sentMessageStart := true), line.candidate.value.finish), ChunkFinish(o.(sentInitial := true), line.candidate.value.finish);
      FinishSeen(g.(sentMessageStart := true), o.(sentInitial := true), last, line.candidate.value.finish);
      PartsKeepSent(encode, g', o', PartsOf(line));
      PartsKeep(encode, Prefix, o', PartsOf(line));
      PartsKeepTools(encode, g', PartsOf(line));
      FinishKept(if LineFinishOf(line) == "" then last else LineFinishOf(line), g', o',
                 OnParts(encode, g', PartsOf(line)).s, ChunkParts(encode, Prefix, o', PartsOf(line)).s);
    }
  }

  lemma {:induction false} RunFinishKnown(encode: Encode, g: State, o: ChunkState, r: R.State, last: string, lines: seq<GemLine>)
    requires Aligned(g, o, r) && r.messageID == "gemini" && g.sentMessageStart && o.sentInitial && FinishKnown(last, g, o)
    ensures FinishKnown(LastFinish(last, lines), Run(encode, g, lines).s, ChunkRun(encode, Prefix, o, lines).s)
    decreases |lines|
  {
    if lines != [] {
      LineFollows(encode, g, o, r, lines[0]);
      LineFinishKnown(encode, g, o, r, last, lines[0]);
      var a, b := OnLine(encode, g, lines[0]), ChunksOf(encode, Prefix, o, lines[0]);
      RunFinishKnown(encode, a.s, b.s, R.After(r, b.lines), if LineFinishOf(lines[0]) == "" then last else LineFinishOf(lines[0]), lines[1..]);
    }
  }

  /* ---------- Whole streams ---------- */

  const G0 := Init.(sentMessageStart := true)
  const O0 := ChunkInit.(sentInitial := true)
  const R0 := R.Begin(R.Init, MsgID).s

  lemma StartAligned()
    ensures Aligned(G0, O0, R0) && R0.messageID == "gemini" && FinishKnown("", G0, O0) && Numbers(O0, [])
    ensures RT.Settled(R0)
  {
    assert MsgID == "chatcmpl-" + "gemini";
  }

  lemma FirstEvents(encode: Encode, line: GemLine)
    requires line.Response?
    ensures OnLine(encode, Init, line).s == OnLine(encode, G0, line).s
    ensures OnLine(encode, Init, line).events == [MessageStart("msg_gemini")] + OnLine(encode, G0, line).events
  {
    assert Init.(sentMessageStart := true) == G0 && G0.(sentMessageStart := true) == G0;
    var e := OnCandidate(encode, G0, line.candidate).events;
    assert [] + e == e;
  }

  lemma FirstChunks(encode: Encode, prefix: string, line: GemLine)
    requires line.Response?
    ensures ChunksOf(encode, prefix, ChunkInit, line).s == ChunksOf(encode, prefix, O0, line).s
    ensures ChunksOf(encode, prefix, ChunkInit, line).lines == [RoleChunk] + ChunksOf(encode, prefix, O0, line).lines
  {
    assert ChunkInit.(sentInitial := true) == O0 && O0.(sentInitial := true) == O0;
    var c := ChunkCandidate(encode, prefix, O0, line.candidate).lines;
    assert [] + c == c;
  }

  lemma NothingFirst<T>(s: seq<T>)
    ensures [] + s == s
  {
  }

  // The first parsed line opens the stream of events, and the stream of chunks.
  lemma {:induction false} EventsFromStart(encode: Encode, lines: seq<GemLine>)
    requires HasResponse(lines)
    ensures var a := Run(encode, G0, lines); Run(encode, Init, lines) == Out(a.s, [MessageStart("msg_gemini")] + a.events)
    decreases |lines|
  {
    var a, a' := OnLine(encode, Init, lines[0]), OnLine(encode, G0, lines[0]);
    var e := Run(encode, a'.s, lines[1..]).events;
    if lines[0].Response? {
      FirstEvents(encode, lines[0]);
      Assoc([MessageStart("msg_gemini")], a'.events, e);
    } else {
      EventsFromStart(encode, lines[1..]);
      NothingFirst(e);
      NothingFirst([MessageStart("msg_gemini")] + e);
    }
  }

  lemma {:induction false} ChunksFromStart(encode: Encode, prefix: string, lines: seq<GemLine>)
    requires HasResponse(lines)
    ensures var b := ChunkRun(encode, prefix, O0, lines); ChunkRun(encode, prefix, ChunkInit, lines) == ChunkOut(b.s, [RoleChunk] + b.lines)
    decreases |lines|
  {
    var b, b' := ChunksOf(encode, prefix, ChunkInit, lines[0]), ChunksOf(encode, prefix, O0, lines[0]);
    var c := ChunkRun(encode, prefix, b'.s, lines[1..]).lines;
    if lines[0].Response? {
      FirstChunks(encode, prefix, lines[0]);
      Assoc([RoleChunk], b'.lines, c);
    } else {
      ChunksFromStart(encode, prefix, lines[1..]);
      NothingFirst(c);
      NothingFirst([RoleChunk] + c);
    }
  }

  lemma {:induction false} NothingParsed(encode: Encode, prefix: string, lines: seq<GemLine>)
    requires !HasResponse(lines)
    ensures Run(encode, Init, lines) == Out(Init, []) && ChunkRun(encode, prefix, ChunkInit, lines) == ChunkOut(ChunkInit, [])
  {
    if lines != [] {
      assert forall k :: 0 < k < |lines| ==> lines[k] == lines[1..][k - 1];
      NothingParsed(encode, prefix, lines[1..]);
    }
  }

  function MiddleChunks(encode: Encode, prefix: string, lines: seq<GemLine>): seq<Line> {
    ChunkRun(encode, prefix, O0, lines).lines
  }

  function LastState(encode: Encode, prefix: string, lines: seq<GemLine>): ChunkState {
    ChunkRun(encode, prefix, O0, lines).s
  }

  // The events between message_start and message_delta.
  function MiddleEvents(encode: Encode, lines: seq<GemLine>): seq<Event> {
    var a := Run(encode, G0, lines);
    a.events + R.StopEvents(Blocks(a.s))
  }

  lemma AnyCall(encode: Encode, lines: seq<GemLine>)
    ensures var a, b := Run(encode, G0, lines).s, LastState(encode, Prefix, lines);
            && |a.tools| == |b.toolIndex| == |Merge([], Calls(lines))| && a.sentMessageStart && b.sentInitial
            && FinishKnown(LastFinish("", lines), a, b)
  {
    StartAligned();
    RunFollows(encode, G0, O0, R0, lines);
    RunFinishKnown(encode, G0, O0, R0, "", lines);
    RunConveyed(encode, Prefix, O0, [], lines);
  }

  lemma {:induction false} MergeEmpty(ms: seq<CallRec>, calls: seq<CallRec>)
    ensures Merge(ms, calls) == [] <==> ms == [] && calls == []
    decreases |calls|
  {
    if calls != [] {
      MergeEmpty(AddCall(ms, calls[0]), calls[1..]);
    }
  }

  lemma Regroup(m: Event, e: seq<Event>, stops: seq<Event>, end: seq<Event>)
    ensures ([m] + e) + (stops + end) == [m] + ((e + stops) + end)
  {
  }

  /** What the Anthropic translator writes: nothing for a stream without a parsed line;
    * otherwise message_start, the blocks, and a stop reason that depends only on the last
    * non-empty finish reason and on whether any function was called. */
  lemma AnthropicStream(encode: Encode, lines: seq<GemLine>)
    ensures ToAnthropic(encode, lines)
            == if !HasResponse(lines) then []
               else [MessageStart("msg_gemini")]
                    + (MiddleEvents(encode, lines) + [MessageDelta(Some(StopOf(LastFinish("", lines), Calls(lines) != []))), MessageStop])
  {
    if HasResponse(lines) {
      EventsFromStart(encode, lines);
      AnyCall(encode, lines);
      MergeEmpty([], Calls(lines));
      var a := Run(encode, G0, lines);
      Regroup(MessageStart("msg_gemini"), a.events, R.StopEvents(Blocks(a.s)),
              [MessageDelta(Some(StopOf(LastFinish("", lines), Calls(lines) != []))), MessageStop]);
    } else {
      NothingParsed(encode, Prefix, lines);
    }
  }

  // The same stop reason in OpenAI's words.
  function FinishOf(last: string, anyCall: bool): string {
    if last == "MAX_TOKENS" then "length" else if anyCall then "tool_calls" else "stop"
  }

  lemma {:induction false} PrefixDoesNotMatter(encode: Encode, prefix: string, o: ChunkState, lines: seq<GemLine>)
    ensures ChunkRun(encode, prefix, o, lines).s == ChunkRun(encode, Prefix, o, lines).s
    decreases |lines|
  {
    if lines != [] {
      if lines[0].Response? && lines[0].candidate.Some? {
        PartsPrefix(encode, prefix, ChunkFinish(o.(sentInitial := true), lines[0].candidate.value.finish), PartsOf(lines[0]));
      }
      PrefixDoesNotMatter(encode, prefix, ChunksOf(encode, prefix, o, lines[0]).s, lines[1..]);
    }
  }

  lemma {:induction false} PartsPrefix(encode: Encode, prefix: string, o: ChunkState, ps: seq<Part>)
    ensures ChunkParts(encode, prefix, o, ps).s == ChunkParts(encode, Prefix, o, ps).s
    decreases |ps|
  {
    if ps != [] {
      PartsPrefix(encode, prefix, ChunkPart(encode, prefix, o, ps[0]).s, ps[1..]);
    }
  }

  lemma OpenAIStream(encode: Encode, prefix: string, lines: seq<GemLine>)
    requires HasResponse(lines)
    ensures ToOpenAI(encode, prefix, lines)
            == [RoleChunk] + (MiddleChunks(encode, prefix, lines)
                              + [ChunkLine(EmptyDelta, Some(FinishOf(LastFinish("", lines), Calls(lines) != []))), Done])
  {
    ChunksFromStart(encode, prefix, lines);
    PrefixDoesNotMatter(encode, prefix, O0, lines);
    AnyCall(encode, lines);
    MergeEmpty([], Calls(lines));
  }
}
