/** The two Gemini translators against each other: the Anthropic events are those that
  * ReverseSSEStream makes of the OpenAI chunks, up to ids and the stop reason. Bracketing
  * and the contents of the stream follow.
  */
module GeminiAgreement {
  import opened Options
  import opened StreamTypes
  import opened Gemini
  import R = OpenAIToAnthropic
  import RB = ReverseBracketing

  // The three translators have opened the same blocks: the tool called `name` has number
  // o.toolIndex[name] in the chunks and one block index in both event streams.
  ghost predicate Aligned(g: State, o: ChunkState, r: R.State) {
    && r.sentMessageStart
    && r.text == g.text && r.thinking == None && !r.thinkingClosed
    && r.next == g.next && r.order == g.order
    && |g.order| == |o.toolIndex| == |g.tools|
    && g.tools.Keys == o.toolIndex.Keys
    && SameBlocks(g.tools, o.toolIndex, r.tools)
    && (forall i :: i in r.tools ==> 0 <= i < |o.toolIndex|)
  }

  predicate SameBlocks(tools: map<string, ToolState>, index: map<string, nat>, numbered: map<int, R.ToolCallState>)
    requires tools.Keys == index.Keys
  {
    forall n :: n in tools ==> index[n] in numbered && numbered[index[n]].blockIndex == tools[n].index
  }

  // What ReverseSSEStream does with chunks that carry no finish reason.
  ghost predicate Follows(g: State, e: seq<Event>, o: ChunkState, r: R.State, lines: seq<Line>) {
    && R.Run(r, lines) == e
    && Aligned(g, o, R.After(r, lines))
    && R.After(r, lines).finishReason == r.finishReason && R.After(r, lines).messageID == r.messageID
    && RB.NoDone(lines)
  }

  lemma OneLine(r: R.State, line: Line)
    ensures R.Run(r, [line]) == R.OnLine(r, line).events && R.After(r, [line]) == R.OnLine(r, line).s
  {
    assert [line][1..] == [];
    var o := R.OnLine(r, line);
    assert o.events + R.Run(o.s, []) == o.events;
  }

  lemma FollowsAppend(g: State, e: seq<Event>, o: ChunkState, r: R.State, lines: seq<Line>,
                      g': State, e': seq<Event>, o': ChunkState, lines': seq<Line>)
    requires Follows(g, e, o, r, lines) && Follows(g', e', o', R.After(r, lines), lines')
    ensures Follows(g', e + e', o', r, lines + lines')
  {
    R.RunAppend(r, lines, lines');
  }

  // A chunk with only a text, or only one tool delta, once message_start is out.
  lemma PlainChunk(r: R.State, d: ChatDelta)
    requires r.sentMessageStart && r.messageID == "gemini"
    ensures R.OnLine(r, ChunkLine(d, None)) == R.OnDelta(r, d)
  {
    var o := R.OnDelta(r, d);
    assert R.Begin(r, MsgID) == R.Out(r, []);
    assert [] + o.events == o.events;
  }

  lemma TextPart(g: State, o: ChunkState, r: R.State, text: string)
    requires Aligned(g, o, r) && r.messageID == "gemini" && text != ""
    ensures Follows(AddText(g, text).s, AddText(g, text).events, o, r, [ChunkLine(EmptyDelta.(content := Plain(text)), None)])
  {
    var d := EmptyDelta.(content := Plain(text));
    OneLine(r, ChunkLine(d, None));
    PlainChunk(r, d);
    TextOnly(r, text);
  }

  lemma TextOnly(r: R.State, text: string)
    requires r.thinking.None? && text != ""
    ensures R.OnDelta(r, EmptyDelta.(content := Plain(text))) == R.AddText(r, text)
  {
    var b := R.AddText(r, text);
    assert R.CloseThinking(r) == R.Out(r, []);
    assert ((([] + ([] + b.events)) + []) + []) == b.events;
  }

  lemma ToolOnly(r: R.State, t: ToolDelta)
    ensures R.OnDelta(r, EmptyDelta.(toolCalls := [t])) == R.OnTool(r, t)
  {
    var b := R.OnTool(r, t);
    assert [t][1..] == [];
    assert R.OnTools(r, [t]) == R.Out(b.s, b.events + []);
    assert ((([] + []) + []) + (b.events + [])) == b.events;
  }

  const Prefix := "toolu_"

  lemma KnownCall(encode: Encode, g: State, o: ChunkState, r: R.State, c: FunctionCall, signature: string)
    requires Aligned(g, o, r) && c.name in g.tools
    ensures var t := ToolDelta(Some(o.toolIndex[c.name]), encode(Prefix + SixDigits(o.toolIndex[c.name]), signature), c.name, ArgsOf(c));
            var a := OnCall(encode, g, c, signature);
            && R.OnTool(r, t) == R.Out(r, a.events) && a.s == g
            && ChunkCall(encode, Prefix, o, c, signature).s == o
  {
    assert o.toolIndex[c.name := o.toolIndex[c.name]] == o.toolIndex;
  }

  lemma NewCall(encode: Encode, g: State, o: ChunkState, r: R.State, c: FunctionCall, signature: string)
    requires Aligned(g, o, r) && c.name !in g.tools
    ensures var t := ToolDelta(Some(|o.toolIndex|), encode(Prefix + SixDigits(|o.toolIndex|), signature), c.name, ArgsOf(c));
            var a := OnCall(encode, g, c, signature);
            && R.OnTool(r, t).events == a.events
            && Aligned(a.s, ChunkCall(encode, Prefix, o, c, signature).s, R.OnTool(r, t).s)
            && R.OnTool(r, t).s.finishReason == r.finishReason && R.OnTool(r, t).s.messageID == r.messageID
  {
    var t := ToolDelta(Some(|o.toolIndex|), encode(Prefix + SixDigits(|o.toolIndex|), signature), c.name, ArgsOf(c));
    var g' := OnCall(encode, g, c, signature).s;
    NewCallStates(encode, g, o, r, c, signature);
    NewAligned(g, o, r, c.name, g'.tools[c.name], R.OnTool(r, t).s.tools[|o.toolIndex|]);
  }

  // Each of the three opens one more tool, in its next block.
  lemma NewCallStates(encode: Encode, g: State, o: ChunkState, r: R.State, c: FunctionCall, signature: string)
    requires Aligned(g, o, r) && c.name !in g.tools
    ensures var t := ToolDelta(Some(|o.toolIndex|), encode(Prefix + SixDigits(|o.toolIndex|), signature), c.name, ArgsOf(c));
            var g', r' := OnCall(encode, g, c, signature).s, R.OnTool(r, t).s;
            && c.name in g'.tools && g'.tools[c.name].index == g.next && g' == g.(tools := g.tools[c.name := g'.tools[c.name]], order := g.order + [g.next], next := g.next + 1)
            && |o.toolIndex| in r'.tools && r'.tools[|o.toolIndex|].blockIndex == g.next
            && r' == r.(tools := r.tools[|o.toolIndex| := r'.tools[|o.toolIndex|]], order := r.order + [r.next], next := r.next + 1)
            && ChunkCall(encode, Prefix, o, c, signature).s == o.(toolIndex := o.toolIndex[c.name := |o.toolIndex|])
  {
  }

  lemma NewAligned(g: State, o: ChunkState, r: R.State, name: string, t: ToolState, u: R.ToolCallState)
    requires Aligned(g, o, r) && name !in g.tools && t.index == g.next == u.blockIndex
    ensures Aligned(g.(tools := g.tools[name := t], order := g.order + [g.next], next := g.next + 1),
                    o.(toolIndex := o.toolIndex[name := |o.toolIndex|]),
                    r.(tools := r.tools[|o.toolIndex| := u], order := r.order + [r.next], next := r.next + 1))
  {
    OneMoreKey(o.toolIndex, name, |o.toolIndex|);
    OneMoreKey(g.tools, name, t);
    OneMoreBlock(g.tools, o.toolIndex, r.tools, name, t, |o.toolIndex|, u);
  }

  lemma OneMoreBlock(tools: map<string, ToolState>, index: map<string, nat>, numbered: map<int, R.ToolCallState>,
                     name: string, t: ToolState, i: nat, u: R.ToolCallState)
    requires tools.Keys == index.Keys && SameBlocks(tools, index, numbered) && name !in tools && i !in numbered && t.index == u.blockIndex
    ensures tools[name := t].Keys == index[name := i].Keys && SameBlocks(tools[name := t], index[name := i], numbered[i := u])
  {
  }

  lemma OneMoreKey<V>(m: map<string, V>, key: string, value: V)
    requires key !in m
    ensures |m[key := value]| == |m| + 1 && m[key := value].Keys == m.Keys + {key}
  {
    assert m[key := value].Keys == m.Keys + {key};
    assert |m[key := value]| == |m[key := value].Keys|;
  }

  lemma CallPart(encode: Encode, g: State, o: ChunkState, r: R.State, c: FunctionCall, signature: string)
    requires Aligned(g, o, r) && r.messageID == "gemini"
    ensures var a, b := OnCall(encode, g, c, signature), ChunkCall(encode, Prefix, o, c, signature);
            Follows(a.s, a.events, b.s, r, b.lines)
  {
    var i := ChunkIndex(o, c.name);
    var t := ToolDelta(Some(i), encode(Prefix + SixDigits(i), signature), c.name, ArgsOf(c));
    var d := EmptyDelta.(toolCalls := [t]);
    OneLine(r, ChunkLine(d, None));
    PlainChunk(r, d);
    ToolOnly(r, t);
    if c.name in g.tools {
      KnownCall(encode, g, o, r, c, signature);
    } else {
      NewCall(encode, g, o, r, c, signature);
    }
  }

  lemma {:induction false} PartsFollow(encode: Encode, g: State, o: ChunkState, r: R.State, ps: seq<Part>)
    requires Aligned(g, o, r) && r.messageID == "gemini"
    ensures var a, b := OnParts(encode, g, ps), ChunkParts(encode, Prefix, o, ps);
            Follows(a.s, a.events, b.s, r, b.lines)
    decreases |ps|
  {
    if ps != [] {
      var a, b := OnPart(encode, g, ps[0]), ChunkPart(encode, Prefix, o, ps[0]);
      if ps[0].text != "" {
        TextPart(g, o, r, ps[0].text);
      } else if ps[0].call.Some? {
        CallPart(encode, g, o, r, ps[0].call.value, ps[0].signature);
      }
      var r' := R.After(r, b.lines);
      PartsFollow(encode, a.s, b.s, r', ps[1..]);
      var a', b' := OnParts(encode, a.s, ps[1..]), ChunkParts(encode, Prefix, b.s, ps[1..]);
      FollowsAppend(a.s, a.events, b.s, r, b.lines, a'.s, a'.events, b'.s, b'.lines);
    }
  }

  // Once message_start is out on all three sides.
  lemma {:induction false} RunFollows(encode: Encode, g: State, o: ChunkState, r: R.State, lines: seq<GemLine>)
    requires Aligned(g, o, r) && r.messageID == "gemini" && g.sentMessageStart && o.sentInitial
    ensures var a, b := Run(encode, g, lines), ChunkRun(encode, Prefix, o, lines);
            && Follows(a.s, a.events, b.s, r, b.lines) && a.s.sentMessageStart && b.s.sentInitial
    decreases |lines|
  {
    if lines != [] {
      LineFollows(encode, g, o, r, lines[0]);
      var a, b := OnLine(encode, g, lines[0]), ChunksOf(encode, Prefix, o, lines[0]);
      RunFollows(encode, a.s, b.s, R.After(r, b.lines), lines[1..]);
      var a', b' := Run(encode, a.s, lines[1..]), ChunkRun(encode, Prefix, b.s, lines[1..]);
      FollowsAppend(a.s, a.events, b.s, r, b.lines, a'.s, a'.events, b'.s, b'.lines);
    }
  }

  lemma {:induction false} PartsKeepSent(encode: Encode, g: State, o: ChunkState, ps: seq<Part>)
    ensures OnParts(encode, g, ps).s.sentMessageStart == g.sentMessageStart
    ensures OnParts(encode, g, ps).s.finishReason == g.finishReason
    ensures ChunkParts(encode, Prefix, o, ps).s.sentInitial == o.sentInitial
    ensures ChunkParts(encode, Prefix, o, ps).s.finishReason == o.finishReason
    decreases |ps|
  {
    if ps != [] {
      PartsKeepSent(encode, OnPart(encode, g, ps[0]).s, ChunkPart(encode, Prefix, o, ps[0]).s, ps[1..]);
    }
  }

  lemma LineFollows(encode: Encode, g: State, o: ChunkState, r: R.State, line: GemLine)
    requires Aligned(g, o, r) && r.messageID == "gemini" && g.sentMessageStart && o.sentInitial
    ensures var a, b := OnLine(encode, g, line), ChunksOf(encode, Prefix, o, line);
            && Follows(a.s, a.events, b.s, r, b.lines) && a.s.sentMessageStart && b.s.sentInitial
  {
    if line.Response? {
      assert g.(sentMessageStart := true) == g && o.(sentInitial := true) == o;
      CandidateFollows(encode, g, o, r, line.candidate);
      var a, b := OnCandidate(encode, g, line.candidate), ChunkCandidate(encode, Prefix, o, line.candidate);
      assert [] + a.events == a.events && [] + b.lines == b.lines;
    }
  }

  lemma CandidateFollows(encode: Encode, g: State, o: ChunkState, r: R.State, c: Option<Candidate>)
    requires Aligned(g, o, r) && r.messageID == "gemini" && g.sentMessageStart && o.sentInitial
    ensures var a, b := OnCandidate(encode, g, c), ChunkCandidate(encode, Prefix, o, c);
            && Follows(a.s, a.events, b.s, r, b.lines) && a.s.sentMessageStart && b.s.sentInitial
  {
    if c.Some? {
      var g', o' := OnFinish(g, c.value.finish), ChunkFinish(o, c.value.finish);
      assert Aligned(g', o', r);
      if c.value.content.Some? {
        PartsFollow(encode, g', o', r, c.value.content.value);
        PartsKeepSent(encode, g', o', c.value.content.value);
      }
    }
  }
}
