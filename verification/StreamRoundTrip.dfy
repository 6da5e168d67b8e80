/** ReverseSSEStream followed by SSEStream: a chunk stream translated to Anthropic events
  * and back means the same to its receiver.
  */
module StreamRoundTrip {
  import opened Options
  import opened Sequences
  import opened StreamTypes
  import opened ReverseBracketing
  import S = AnthropicToOpenAI
  import R = OpenAIToAnthropic
  import Strings

  /* ---------- Pieces of a translated stream ---------- */

  ghost predicate AllIDs(lines: seq<Line>, id: string) {
    forall k :: 0 <= k < |lines| && lines[k].Chunk? ==> lines[k].id == id
  }

  // Feeding the events to SSEStream in state s yields chunks with this text, this
  // reasoning, no finish reason, and takes a receiver's tools from a to b.
  ghost predicate Delivers(s: S.State, events: seq<Event>, text: string, reasoning: string, a: seq<Tool>, b: seq<Tool>) {
    var out := S.Run(s, events);
    && Text(out) == text
    && Reasoning(out) == reasoning
    && Finish(out) == None
    && ToolsFrom(Renumber(a), out) == Renumber(b)
    && AllIDs(out, s.messageID)
    && S.After(s, events).messageID == s.messageID
    && S.After(s, events).sentInitial == s.sentInitial
  }

  lemma DeliversAppend(s: S.State, e: seq<Event>, f: seq<Event>, t: string, u: string, p: string, q: string,
                       a: seq<Tool>, b: seq<Tool>, c: seq<Tool>)
    requires Delivers(s, e, t, p, a, b)
    requires Delivers(S.After(s, e), f, u, q, b, c)
    ensures Delivers(s, e + f, t + u, p + q, a, c)
    ensures S.After(s, e + f) == S.After(S.After(s, e), f)
  {
    S.RunAppend(s, e, f);
    var x, y := S.Run(s, e), S.Run(S.After(s, e), f);
    TextAppend(x, y);
    ReasoningAppend(x, y);
    FinishAppend(x, y);
    ToolsAppend(Renumber(a), x, y);
  }

  lemma OneEvent(s: S.State, e: Event)
    ensures S.Run(s, [e]) == S.Emit(s, e) && S.After(s, [e]) == S.Next(s, e)
  {
    assert [e][1..] == [];
  }

  lemma OneLine(line: Line, a: seq<Tool>)
    ensures Text([line]) == LineText(line) && Reasoning([line]) == LineReasoning(line)
    ensures Finish([line]) == LineFinish(line) && ToolsFrom(a, [line]) == LineTools(a, line)
  {
    assert [line][1..] == [];
  }

  /* ---------- The relation between the two translators ---------- */

  // Both have seen the same blocks, and the n-th distinct tool index of the chunks (a)
  // is the n-th tool block of the events and has number n in the second translation.
  ghost predicate Related(r: R.State, s: S.State, a: seq<Tool>) {
    && r.sentMessageStart && s.sentInitial
    && Shape(r)
    && s.thinking == (if r.thinking.Some? then {r.thinking.value as int} else {})
    && s.textSeen == r.text.Some?
    && s.toolCount == |a|
    && SameTools(r.tools, r.order, s.toolIndex, a)
  }

  ghost predicate SameTools(tools: map<int, R.ToolCallState>, order: seq<nat>, toolIndex: map<int, nat>, a: seq<Tool>) {
    && |a| == |order|
    && (forall k :: 0 <= k < |a| ==> a[k].index in tools && tools[a[k].index].blockIndex == order[k])
    && (forall k :: 0 <= k < |a| ==> order[k] in toolIndex && toolIndex[order[k]] == k)
    && (forall i :: i in tools ==> Find(a, i) < |a|)
  }

  // A block start that writes no chunk.
  lemma SilentStart(s: S.State, i: int, h: BlockHead, a: seq<Tool>)
    requires h.ThinkingHead? || h.TextHead?
    ensures S.After(s, [BlockStart(i, h)]) == S.Next(s, BlockStart(i, h))
    ensures Delivers(s, [BlockStart(i, h)], "", "", a, a)
  {
    OneEvent(s, BlockStart(i, h));
  }

  // A delta that writes one chunk without tool calls, or nothing.
  lemma PlainDelta(s: S.State, i: int, d: BlockDelta, a: seq<Tool>)
    requires d.ThinkingDelta? <==> i in s.thinking
    requires !d.JsonDelta?
    ensures S.After(s, [Delta(i, d)]) == s
    ensures Delivers(s, [Delta(i, d)], if d.TextDelta? then d.text else "",
                     if d.ThinkingDelta? && !s.textSeen then d.thinking else "", a, a)
  {
    OneEvent(s, Delta(i, d));
    var out := S.Emit(s, Delta(i, d));
    if out != [] {
      OneLine(out[0], Renumber(a));
    }
  }

  lemma ReasoningDelivered(r: R.State, s: S.State, a: seq<Tool>, text: string)
    requires Related(r, s, a)
    ensures var o := R.OnReasoning(r, text);
            && Related(o.s, S.After(s, o.events), a)
            && Delivers(s, o.events, "", if s.textSeen || r.thinkingClosed then "" else text, a, a)
  {
    if text != "" && !r.thinkingClosed {
      var kept := if s.textSeen then "" else text;
      if r.thinking.None? {
        var start := BlockStart(r.next, ThinkingHead);
        var s1 := S.Next(s, start);
        SilentStart(s, r.next, ThinkingHead, a);
        PlainDelta(s1, r.next, ThinkingDelta(text), a);
        DeliversAppend(s, [start], [Delta(r.next, ThinkingDelta(text))], "", "", "", kept, a, a, a);
      } else {
        PlainDelta(s, r.thinking.value, ThinkingDelta(text), a);
      }
    }
  }

  lemma CloseDelivered(r: R.State, s: S.State, a: seq<Tool>)
    requires Related(r, s, a)
    ensures var o := R.CloseThinking(r);
            && Related(o.s, S.After(s, o.events), a)
            && Delivers(s, o.events, "", "", a, a)
  {
    if r.thinking.Some? {
      OneEvent(s, BlockStop(r.thinking.value));
    }
  }

  lemma TextDelivered(r: R.State, s: S.State, a: seq<Tool>, text: string)
    requires Related(r, s, a)
    ensures var o := R.AddText(r, text);
            && Related(o.s, S.After(s, o.events), a)
            && Delivers(s, o.events, text, "", a, a)
  {
    if r.text.None? {
      var start := BlockStart(r.next, TextHead);
      var s1 := S.Next(s, start);
      SilentStart(s, r.next, TextHead, a);
      PlainDelta(s1, r.next, TextDelta(text), a);
      DeliversAppend(s, [start], [Delta(r.next, TextDelta(text))], "", text, "", "", a, a, a);
    } else {
      PlainDelta(s, r.text.value, TextDelta(text), a);
    }
  }

  lemma ContentDelivered(r: R.State, s: S.State, a: seq<Tool>, text: string)
    requires Related(r, s, a)
    ensures var o := R.OnText(r, text);
            && Related(o.s, S.After(s, o.events), a)
            && Delivers(s, o.events, text, "", a, a)
  {
    if text != "" {
      var c := R.CloseThinking(r);
      CloseDelivered(r, s, a);
      var s1 := S.After(s, c.events);
      TextDelivered(c.s, s1, a, text);
      DeliversAppend(s, c.events, R.AddText(c.s, text).events, "", text, "", "", a, a, a);
    }
  }

  /* ---------- Tool calls ---------- */

  lemma FindRenumbered(a: seq<Tool>, k: nat)
    requires k <= |a|
    ensures Find(Renumber(a), k) == k
  {
    var j := Find(Renumber(a), k);
    assert k < |a| ==> Renumber(a)[k].index == k;
  }

  // A known tool: more arguments.
  lemma ArgsDelivered(r: R.State, s: S.State, a: seq<Tool>, d: ToolDelta)
    requires Related(r, s, a) && d.index.Some? && d.index.value in r.tools && d.args != ""
    ensures var e := [Delta(r.tools[d.index.value].blockIndex, JsonDelta(d.args))];
            && S.After(s, e) == s
            && Delivers(s, e, "", "", a, AddTool(a, d))
  {
    var k := Find(a, d.index.value);
    var block := r.tools[d.index.value].blockIndex;
    assert block == r.order[k];
    var e := Delta(block, JsonDelta(d.args));
    OneEvent(s, e);
    var line := S.ToolChunk(s.messageID, k, "", "", d.args);
    assert S.Emit(s, e) == [line];
    OneLine(line, Renumber(a));
    FindRenumbered(a, k);
    OneTool(Renumber(a), ToolDelta(Some(k), "", "", d.args));
    assert Renumber(AddTool(a, d)) == AddTool(Renumber(a), ToolDelta(Some(k), "", "", d.args));
  }

  lemma OneTool(a: seq<Tool>, d: ToolDelta)
    ensures AddTools(a, [d]) == AddTool(a, d)
  {
    assert [d][1..] == [];
  }

  // A new tool: its block is opened, with no arguments yet.
  lemma OpenDelivered(r: R.State, s: S.State, a: seq<Tool>, d: ToolDelta)
    requires Related(r, s, a) && d.index.Some? && d.index.value !in r.tools
    ensures var o := R.OpenTool(r, d); var b := AddTool(a, d.(args := ""));
            && Related(o.s, S.After(s, o.events), b)
            && Delivers(s, o.events, "", "", a, b)
  {
    var e := BlockStart(r.next, ToolHead(d.id, d.name));
    OneEvent(s, e);
    NewTool(r.tools, r.order, s.toolIndex, a, d);
    OpenWrites(s, a, r.next, Tool(d.index.value, d.id, d.name, ""));
    OpenRelated(r, s, a, d);
  }

  // The chunk of a block start announces the tool under the next number.
  lemma OpenWrites(s: S.State, a: seq<Tool>, block: nat, t: Tool)
    requires s.toolCount == |a| && t.args == ""
    ensures Delivers(s, [BlockStart(block, ToolHead(t.id, t.name))], "", "", a, a + [t])
  {
    OneEvent(s, BlockStart(block, ToolHead(t.id, t.name)));
    OneLine(S.ToolChunk(s.messageID, |a|, t.id, t.name, ""), Renumber(a));
    FindRenumbered(a, |a|);
    OneTool(Renumber(a), ToolDelta(Some(|a|), t.id, t.name, ""));
    RenumberMore(a, t);
  }

  lemma RenumberMore(a: seq<Tool>, t: Tool)
    ensures Renumber(a + [t]) == Renumber(a) + [t.(index := |a|)]
  {
  }

  lemma NewTool(tools: map<int, R.ToolCallState>, order: seq<nat>, toolIndex: map<int, nat>, a: seq<Tool>, d: ToolDelta)
    requires SameTools(tools, order, toolIndex, a) && d.index.Some? && d.index.value !in tools
    ensures AddTool(a, d.(args := "")) == a + [Tool(d.index.value, d.id, d.name, "")]
  {
    assert forall k :: 0 <= k < |a| ==> a[k].index in tools && a[k].index != d.index.value;
  }

  lemma {:induction false} FindInLonger(a: seq<Tool>, t: Tool, i: int)
    ensures Find(a + [t], i) == if Find(a, i) < |a| then Find(a, i) else if t.index == i then |a| else |a| + 1
  {
    if a == [] {
      assert a + [t] == [t] && [t][1..] == [];
    } else {
      assert (a + [t])[1..] == a[1..] + [t];
      FindInLonger(a[1..], t, i);
    }
  }

  lemma SameToolsOpened(tools: map<int, R.ToolCallState>, order: seq<nat>, toolIndex: map<int, nat>, a: seq<Tool>, t: Tool,
                        block: R.ToolCallState)
    requires SameTools(tools, order, toolIndex, a) && t.index !in tools
    requires forall k :: 0 <= k < |order| ==> order[k] != block.blockIndex
    ensures SameTools(tools[t.index := block], order + [block.blockIndex], toolIndex[block.blockIndex := |a|], a + [t])
  {
    forall i | i in tools[t.index := block]
      ensures Find(a + [t], i) < |a| + 1
    {
      FindInLonger(a, t, i);
    }
  }

  lemma OpenRelated(r: R.State, s: S.State, a: seq<Tool>, d: ToolDelta)
    requires Related(r, s, a) && d.index.Some? && d.index.value !in r.tools
    ensures Related(R.OpenTool(r, d).s, S.Next(s, BlockStart(r.next, ToolHead(d.id, d.name))), AddTool(a, d.(args := "")))
  {
    var t, block := Tool(d.index.value, d.id, d.name, ""), R.ToolCallState(d.id, d.name, r.next);
    var r1, s1 := R.OpenTool(r, d).s, S.Next(s, BlockStart(r.next, ToolHead(d.id, d.name)));
    NewTool(r.tools, r.order, s.toolIndex, a, d);
    BlocksBelow(r);
    SameToolsOpened(r.tools, r.order, s.toolIndex, a, t, block);
    OpenShape(r, d);
    assert r1.tools == r.tools[t.index := block] && r1.order == r.order + [r.next];
    assert s1.toolIndex == s.toolIndex[r.next := |a|] && s1.toolCount == |a + [t]|;
  }

  lemma BlocksBelow(r: R.State)
    requires Shape(r)
    ensures forall k :: 0 <= k < |r.order| ==> r.order[k] != r.next
  {
  }

  lemma OpenShape(r: R.State, d: ToolDelta)
    requires Shape(r) && d.index.Some? && d.index.value !in r.tools
    ensures Shape(R.OpenTool(r, d).s)
  {
    var r1 := R.OpenTool(r, d).s;
    assert forall i :: i in r1.tools ==> r1.tools[i].blockIndex == r.next || (i in r.tools && r1.tools[i] == r.tools[i]);
    assert r1.order[|r.order|] == r.next;
  }

  lemma AddToolTwice(a: seq<Tool>, d: ToolDelta)
    ensures AddTool(AddTool(a, d.(args := "")), d) == AddTool(a, d)
  {
    if d.index.Some? {
      var k := Find(a, d.index.value);
      if k == |a| {
        var t := Tool(d.index.value, d.id, d.name, "");
        FindInLonger(a, t, d.index.value);
        assert AddTool(a, d.(args := "")) == a + [t];
        assert "" + d.args == d.args;
        assert (a + [t])[|a| := t.(args := d.args)] == a + [t.(args := d.args)];
      } else {
        assert a[k].(args := a[k].args + "") == a[k];
        assert a[k := a[k]] == a;
      }
    }
  }

  lemma ToolDelivered(r: R.State, s: S.State, a: seq<Tool>, d: ToolDelta)
    requires Related(r, s, a)
    ensures var o := R.OnTool(r, d);
            && Related(o.s, S.After(s, o.events), AddTool(a, d))
            && Delivers(s, o.events, "", "", a, AddTool(a, d))
  {
    if d.index.Some? {
      var o := R.OpenTool(r, d);
      var b := AddTool(a, d.(args := ""));
      AddToolTwice(a, d);
      if d.index.value in r.tools {
        KnownUnchanged(r, s, a, d);
      } else {
        OpenDelivered(r, s, a, d);
      }
      if d.args == "" {
        assert d.(args := "") == d;
        assert o.events + [] == o.events;
      } else {
        var s1 := S.After(s, o.events);
        var e := [Delta(o.s.tools[d.index.value].blockIndex, JsonDelta(d.args))];
        ArgsDelivered(o.s, s1, b, d);
        DeliversAppend(s, o.events, e, "", "", "", "", a, b, AddTool(a, d));
        ArgsRelated(o.s, s1, b, d);
      }
    }
  }

  lemma KnownUnchanged(r: R.State, s: S.State, a: seq<Tool>, d: ToolDelta)
    requires Related(r, s, a) && d.index.Some? && d.index.value in r.tools
    ensures AddTool(a, d.(args := "")) == a
  {
    var k := Find(a, d.index.value);
    assert a[k].(args := a[k].args + "") == a[k];
  }

  lemma ArgsRelated(r: R.State, s: S.State, a: seq<Tool>, d: ToolDelta)
    requires Related(r, s, a) && d.index.Some? && d.index.value in r.tools
    ensures Related(r, s, AddTool(a, d))
  {
    var b := AddTool(a, d);
    forall i | i in r.tools
      ensures Find(b, i) < |b|
    {
      var k := Find(a, i);
      assert b[k].index == i;
    }
  }

  lemma {:induction false} ToolsDelivered(r: R.State, s: S.State, a: seq<Tool>, ds: seq<ToolDelta>)
    requires Related(r, s, a)
    ensures var o := R.OnTools(r, ds);
            && Related(o.s, S.After(s, o.events), AddTools(a, ds))
            && Delivers(s, o.events, "", "", a, AddTools(a, ds))
    decreases |ds|
  {
    if ds != [] {
      var o := R.OnTool(r, ds[0]);
      var b := AddTool(a, ds[0]);
      ToolDelivered(r, s, a, ds[0]);
      var s1 := S.After(s, o.events);
      ToolsDelivered(o.s, s1, b, ds[1..]);
      DeliversAppend(s, o.events, R.OnTools(o.s, ds[1..]).events, "", "", "", "", a, b, AddTools(b, ds[1..]));
    }
  }

  /* ---------- Whole chunks ---------- */

  // Between two lines the thinking block is closed early only by a text block.
  ghost predicate Settled(r: R.State) {
    r.thinkingClosed ==> r.text.Some?
  }

  lemma {:induction false} ToolsKeepText(r: R.State, ds: seq<ToolDelta>)
    ensures R.OnTools(r, ds).s.text == r.text && R.OnTools(r, ds).s.thinkingClosed == r.thinkingClosed
    ensures R.OnTools(r, ds).s.finishReason == r.finishReason
    decreases |ds|
  {
    if ds != [] {
      ToolsKeepText(R.OnTool(r, ds[0]).s, ds[1..]);
    }
  }

  lemma DeltaKeepsFinish(r: R.State, d: ChatDelta)
    ensures R.OnDelta(r, d).s.finishReason == r.finishReason
  {
    var a := R.OnReasoning(r, ReasoningText(d));
    var b := R.OnText(a.s, ContentText(d.content));
    var c := R.OnRefusal(b.s, d.refusal);
    ToolsKeepText(c.s, d.toolCalls);
  }

  lemma DeltaSettles(r: R.State, d: ChatDelta)
    requires Settled(r)
    ensures var q := R.OnDelta(r, d).s;
            Settled(q) && (q.text.Some? <==> r.text.Some? || ContentText(d.content) + d.refusal != "")
  {
    var a := R.OnReasoning(r, ReasoningText(d));
    var b := R.OnText(a.s, ContentText(d.content));
    var c := R.OnRefusal(b.s, d.refusal);
    ToolsKeepText(c.s, d.toolCalls);
  }

  lemma DeltaDelivered(r: R.State, s: S.State, a: seq<Tool>, d: ChatDelta)
    requires Related(r, s, a) && Settled(r)
    ensures var o := R.OnDelta(r, d);
            && Related(o.s, S.After(s, o.events), AddTools(a, d.toolCalls))
            && Delivers(s, o.events, ContentText(d.content) + d.refusal, if s.textSeen then "" else ReasoningText(d),
                        a, AddTools(a, d.toolCalls))
  {
    var u := R.OnReasoning(r, ReasoningText(d));
    var v := R.OnText(u.s, ContentText(d.content));
    var w := R.OnRefusal(v.s, d.refusal);
    var kept := if s.textSeen then "" else ReasoningText(d);
    ReasoningDelivered(r, s, a, ReasoningText(d));
    var s1 := S.After(s, u.events);
    ContentDelivered(u.s, s1, a, ContentText(d.content));
    DeliversAppend(s, u.events, v.events, "", ContentText(d.content), kept, "", a, a, a);
    var s2 := S.After(s1, v.events);
    RefusalDelivered(v.s, s2, a, d.refusal);
    DeliversAppend(s, u.events + v.events, w.events, ContentText(d.content), d.refusal, kept, "", a, a, a);
    var s3 := S.After(s2, w.events);
    ToolsDelivered(w.s, s3, a, d.toolCalls);
    DeliversAppend(s, u.events + v.events + w.events, R.OnTools(w.s, d.toolCalls).events,
                   ContentText(d.content) + d.refusal, "", kept, "", a, a, AddTools(a, d.toolCalls));
  }

  lemma RefusalDelivered(r: R.State, s: S.State, a: seq<Tool>, text: string)
    requires Related(r, s, a)
    ensures var o := R.OnRefusal(r, text);
            && Related(o.s, S.After(s, o.events), a)
            && Delivers(s, o.events, text, "", a, a)
  {
    if text != "" {
      TextDelivered(r, s, a, text);
    }
  }

  // A line with a delta, once message_start is out: the state the delta meets.
  function Ready(r: R.State, line: Line): R.State
    requires DeltaOf(line).Some?
  {
    R.OnFinish(R.Begin(r, line.id).s, line.choice.value.finish)
  }

  lemma LineIsDelta(r: R.State, line: Line)
    requires r.sentMessageStart && DeltaOf(line).Some?
    ensures R.OnLine(r, line) == R.OnDelta(Ready(r, line), DeltaOf(line).value)
  {
    var o := R.OnDelta(Ready(r, line), DeltaOf(line).value);
    assert [] + o.events == o.events;
  }

  lemma ReadyRelated(r: R.State, s: S.State, a: seq<Tool>, line: Line)
    requires Related(r, s, a) && DeltaOf(line).Some?
    ensures var f := Ready(r, line);
            && Related(f, s, a) && f.text == r.text && f.thinkingClosed == r.thinkingClosed
            && f.finishReason == if LineFinish(line).Some? then LineFinish(line).value else r.finishReason
  {
  }

  lemma LineDelivered(r: R.State, s: S.State, a: seq<Tool>, line: Line)
    requires Related(r, s, a) && Settled(r) && !line.Done?
    ensures var o := R.OnLine(r, line);
            && Related(o.s, S.After(s, o.events), LineTools(a, line)) && Settled(o.s)
            && Delivers(s, o.events, LineText(line), if s.textSeen then "" else LineReasoning(line), a, LineTools(a, line))
  {
    if DeltaOf(line).Some? {
      LineIsDelta(r, line);
      ReadyRelated(r, s, a, line);
      DeltaDelivered(Ready(r, line), s, a, DeltaOf(line).value);
      DeltaSettles(Ready(r, line), DeltaOf(line).value);
    }
  }

  lemma LineKeeps(r: R.State, s: S.State, a: seq<Tool>, line: Line)
    requires Related(r, s, a) && Settled(r) && !line.Done?
    ensures var q := R.OnLine(r, line).s;
            && (q.text.Some? <==> r.text.Some? || LineText(line) != "")
            && q.finishReason == if LineFinish(line).Some? then LineFinish(line).value else r.finishReason
  {
    if DeltaOf(line).Some? {
      LineIsDelta(r, line);
      ReadyRelated(r, s, a, line);
      DeltaSettles(Ready(r, line), DeltaOf(line).value);
      DeltaKeepsFinish(Ready(r, line), DeltaOf(line).value);
    }
  }

  /* ---------- Whole streams ---------- */

  // The reasoning up to and including the first line that carries text or refusal.
  function ReasoningUpToText(lines: seq<Line>): string {
    if lines == [] then ""
    else LineReasoning(lines[0]) + if LineText(lines[0]) != "" then "" else ReasoningUpToText(lines[1..])
  }

  lemma {:induction false} RunDelivered(r: R.State, s: S.State, a: seq<Tool>, lines: seq<Line>)
    requires Related(r, s, a) && Settled(r) && NoDone(lines)
    ensures var events := R.Run(r, lines);
            && Related(R.After(r, lines), S.After(s, events), ToolsFrom(a, lines))
            && Delivers(s, events, Text(lines), if s.textSeen then "" else ReasoningUpToText(lines), a, ToolsFrom(a, lines))
    ensures R.After(r, lines).finishReason == if Finish(lines).Some? then Finish(lines).value else r.finishReason
    decreases |lines|
  {
    if lines != [] {
      var o := R.OnLine(r, lines[0]);
      var rest := R.Run(o.s, lines[1..]);
      LineDelivered(r, s, a, lines[0]);
      LineKeeps(r, s, a, lines[0]);
      var s1 := S.After(s, o.events);
      var b := LineTools(a, lines[0]);
      RunDelivered(o.s, s1, b, lines[1..]);
      DeliversAppend(s, o.events, rest, LineText(lines[0]), Text(lines[1..]),
                     if s.textSeen then "" else LineReasoning(lines[0]),
                     if s1.textSeen then "" else ReasoningUpToText(lines[1..]), a, b, ToolsFrom(b, lines[1..]));
    }
  }

  // The id of the first parsed chunk.
  function FirstID(lines: seq<Line>): string {
    if lines == [] then "" else if lines[0].Chunk? then lines[0].id else FirstID(lines[1..])
  }

  lemma FirstChunk(line: Line)
    requires line.Chunk?
    ensures var r := R.Begin(R.Init, line.id).s;
            && R.OnLine(R.Init, line).events == [MessageStart(r.messageID)] + R.OnLine(r, line).events
            && R.OnLine(R.Init, line).s == R.OnLine(r, line).s
  {
    var r := R.Begin(R.Init, line.id).s;
    assert R.Begin(r, line.id) == R.Out(r, []);
    if DeltaOf(line).Some? {
      LineIsDelta(r, line);
    }
  }

  lemma SkipUnparsed(lines: seq<Line>)
    requires lines != [] && NoDone(lines) && HasChunk(lines) && !lines[0].Chunk?
    ensures NoDone(lines[1..]) && HasChunk(lines[1..]) && FirstID(lines) == FirstID(lines[1..])
    ensures forall r :: R.Run(r, lines) == R.Run(r, lines[1..]) && R.After(r, lines) == R.After(r, lines[1..])
  {
    var k :| 0 <= k < |lines| && lines[k].Chunk?;
    assert lines[1..][k - 1] == lines[k];
    assert lines[0].Unparsed?;
  }

  // The translation of the lines before [DONE] opens with message_start and goes on as
  // from a state in which message_start is out.
  lemma {:induction false} StartOfRun(lines: seq<Line>)
    requires NoDone(lines) && HasChunk(lines)
    ensures var r := R.Begin(R.Init, FirstID(lines)).s;
            && R.Run(R.Init, lines) == [MessageStart(r.messageID)] + R.Run(r, lines)
            && R.After(R.Init, lines) == R.After(r, lines)
    decreases |lines|
  {
    if lines[0].Chunk? {
      var r := R.Begin(R.Init, lines[0].id).s;
      FirstChunk(lines[0]);
      var y := R.OnLine(r, lines[0]);
      Assoc([MessageStart(r.messageID)], y.events, R.Run(y.s, lines[1..]));
    } else {
      SkipUnparsed(lines);
      StartOfRun(lines[1..]);
    }
  }

  lemma {:induction false} StopsAreSilent(s: S.State, blocks: seq<nat>)
    ensures S.Run(s, R.StopEvents(blocks)) == [] && S.After(s, R.StopEvents(blocks)) == s
    decreases |blocks|
  {
    if blocks != [] {
      assert R.StopEvents(blocks)[1..] == R.StopEvents(blocks[1..]);
      StopsAreSilent(s, blocks[1..]);
    }
  }

  function FinalFinish(finishReason: string): string {
    if finishReason == "tool_calls" then "tool_calls" else "stop"
  }

  lemma EndTranslated(r: R.State, s: S.State)
    ensures S.Run(s, [MessageDelta(Some(R.StopReason(r))), MessageStop])
         == [S.DeltaChunk(s.messageID, EmptyDelta, Some(FinalFinish(r.finishReason))), Done]
  {
    var a, b := MessageDelta(Some(R.StopReason(r))), MessageStop;
    assert [a, b][1..] == [b];
    OneEvent(s, b);
  }

  lemma DoneTranslated(r: R.State, s: S.State)
    ensures S.Run(s, R.OnDone(r)) == [S.DeltaChunk(s.messageID, EmptyDelta, Some(FinalFinish(r.finishReason))), Done]
  {
    var blocks := R.OpenBlocks(r);
    S.RunAppend(s, R.StopEvents(blocks), [MessageDelta(Some(R.StopReason(r))), MessageStop]);
    StopsAreSilent(s, blocks);
    EndTranslated(r, s);
  }

  lemma DoneRun(r: R.State)
    ensures R.Run(r, [Done]) == R.OnDone(r)
  {
    var o := R.OnLine(r, Done);
    assert o.events + R.Run(o.s, []) == o.events;
  }

  lemma RunDone(r: R.State, lines: seq<Line>)
    ensures R.Run(r, lines + [Done]) == R.Run(r, lines) + R.OnDone(R.After(r, lines))
  {
    R.RunAppend(r, lines, [Done]);
    DoneRun(R.After(r, lines));
  }

  // The events of a whole run.
  lemma EventsOf(lines: seq<Line>)
    requires NoDone(lines) && HasChunk(lines)
    ensures var r := R.Begin(R.Init, FirstID(lines)).s;
            R.Translate(lines + [Done]) == [MessageStart(r.messageID)] + (R.Run(r, lines) + R.OnDone(R.After(r, lines)))
  {
    RunDone(R.Init, lines);
    StartOfRun(lines);
    var r := R.Begin(R.Init, FirstID(lines)).s;
    Assoc([MessageStart(r.messageID)], R.Run(r, lines), R.OnDone(R.After(r, lines)));
  }

  function MessageID(lines: seq<Line>): string {
    "chatcmpl-" + Strings.TrimPrefix(FirstID(lines), "chatcmpl-")
  }

  function Last(lines: seq<Line>): Line {
    S.DeltaChunk(MessageID(lines), EmptyDelta, Some(if Finish(lines) == Some("tool_calls") then "tool_calls" else "stop"))
  }

  lemma StartRelated(id: string)
    ensures var r := R.Begin(R.Init, id).s;
            && Related(r, S.Next(S.Init, MessageStart(r.messageID)), []) && Settled(r)
            && r.messageID == Strings.TrimPrefix(id, "chatcmpl-") && r.finishReason == "end_turn"
  {
  }

  // What both translations together write for the lines and a [DONE].
  lemma Assembled(lines: seq<Line>) returns (body: seq<Line>)
    requires NoDone(lines) && HasChunk(lines)
    ensures S.Translate(R.Translate(lines + [Done])) == [S.TextChunk(MessageID(lines), "")] + (body + [Last(lines), Done])
    ensures Text(body) == Text(lines) && Reasoning(body) == ReasoningUpToText(lines) && Finish(body) == None
    ensures ToolsFrom([], body) == Renumber(Tools(lines)) && AllIDs(body, MessageID(lines))
  {
    EventsOf(lines);
    StartRelated(FirstID(lines));
    var r := R.Begin(R.Init, FirstID(lines)).s;
    var start := MessageStart(r.messageID);
    var s := S.Next(S.Init, start);
    var events := R.Run(r, lines);
    var done := R.OnDone(R.After(r, lines));
    StartAndRest(start, events, done);
    assert Renumber([]) == [];
    RunDelivered(r, s, [], lines);
    DoneTranslated(R.After(r, lines), S.After(s, events));
    body := S.Run(s, events);
  }

  lemma StartAndRest(start: Event, events: seq<Event>, done: seq<Event>)
    requires start.MessageStart?
    ensures var s := S.Next(S.Init, start);
            S.Translate([start] + (events + done)) == S.Emit(S.Init, start) + (S.Run(s, events) + S.Run(S.After(s, events), done))
  {
    OneEvent(S.Init, start);
    S.RunAppend(S.Init, [start], events + done);
    S.RunAppend(S.Next(S.Init, start), events, done);
  }

  lemma EndObserved(a: seq<Tool>, last: Line)
    ensures Text([last, Done]) == LineText(last) && Reasoning([last, Done]) == LineReasoning(last)
    ensures Finish([last, Done]) == LineFinish(last) && ToolsFrom(a, [last, Done]) == LineTools(a, last)
  {
    assert [last, Done][1..] == [Done];
    OneLine(Done, LineTools(a, last));
  }

  lemma ThreePieces(a: seq<Line>, b: seq<Line>, c: seq<Line>)
    ensures Text(a + (b + c)) == Text(a) + (Text(b) + Text(c))
    ensures Reasoning(a + (b + c)) == Reasoning(a) + (Reasoning(b) + Reasoning(c))
    ensures Finish(b + c) == None ==> Finish(a + (b + c)) == Finish(a)
    ensures Finish(c).Some? ==> Finish(a + (b + c)) == Finish(c)
    ensures Tools(a + (b + c)) == ToolsFrom(ToolsFrom(Tools(a), b), c)
  {
    TextAppend(a, b + c);
    TextAppend(b, c);
    ReasoningAppend(a, b + c);
    ReasoningAppend(b, c);
    FinishAppend(a, b + c);
    FinishAppend(b, c);
    ToolsAppend([], a, b + c);
    ToolsAppend(Tools(a), b, c);
  }

  lemma HeadObserved(id: string)
    ensures var out := [S.TextChunk(id, "")];
            Text(out) == "" && Reasoning(out) == "" && Finish(out) == None && Tools(out) == []
  {
    OneLine(S.TextChunk(id, ""), []);
  }

  lemma LastObserved(id: string, finish: string, a: seq<Tool>)
    requires finish != ""
    ensures var last := S.DeltaChunk(id, EmptyDelta, Some(finish));
            LineText(last) == "" && LineReasoning(last) == "" && LineFinish(last) == Some(finish) && LineTools(a, last) == a
  {
  }

  lemma Sandwich(id: string, body: seq<Line>, finish: string)
    requires finish != "" && AllIDs(body, id)
    ensures var out := [S.TextChunk(id, "")] + (body + [S.DeltaChunk(id, EmptyDelta, Some(finish)), Done]);
            && Text(out) == Text(body) && Reasoning(out) == Reasoning(body) && Finish(out) == Some(finish)
            && Tools(out) == ToolsFrom([], body) && AllIDs(out, id) && |out| > 0 && out[|out| - 1] == Done
  {
    var head, last := S.TextChunk(id, ""), S.DeltaChunk(id, EmptyDelta, Some(finish));
    HeadObserved(id);
    LastObserved(id, finish, ToolsFrom([], body));
    EndObserved(ToolsFrom([], body), last);
    ThreePieces([head], body, [last, Done]);
    Padded(Text(body));
    Padded(Reasoning(body));
    SameIDs(id, head, body, last);
  }

  lemma Padded(s: string)
    ensures "" + (s + "") == s
  {
  }

  lemma SameIDs(id: string, head: Line, body: seq<Line>, last: Line)
    requires AllIDs(body, id) && AllIDs([head], id) && AllIDs([last], id)
    ensures var out := [head] + (body + [last, Done]); AllIDs(out, id) && |out| > 0 && out[|out| - 1] == Done
  {
    var out := [head] + (body + [last, Done]);
    assert [head][0] == head && [last][0] == last;
    forall k | 0 <= k < |out| && out[k].Chunk?
      ensures out[k].id == id
    {
      if 0 < k <= |body| {
        assert out[k] == body[k - 1];
      }
    }
  }

  /** What an Anthropic client is told at the end: the stop reason is "tool_use" if the last
    * non-empty finish reason of the chunks is "tool_calls" and "end_turn" otherwise, whatever
    * it is and also if there is none; then the stream is over. Before that come message_start,
    * with the first chunk's id without its prefix, and blocks. */
  lemma StreamEnds(lines: seq<Line>)
    requires NoDone(lines) && HasChunk(lines)
    ensures var out := R.Translate(lines + [Done]); var n := |out|;
            && n >= 3 && out[0] == MessageStart(Strings.TrimPrefix(FirstID(lines), "chatcmpl-"))
            && out[n - 2] == MessageDelta(Some(if Finish(lines) == Some("tool_calls") then "tool_use" else "end_turn"))
            && out[n - 1] == MessageStop
  {
    EventsOf(lines);
    StartRelated(FirstID(lines));
    var r := R.Begin(R.Init, FirstID(lines)).s;
    RunDelivered(r, S.Next(S.Init, MessageStart(r.messageID)), [], lines);
    LastTwo(MessageStart(r.messageID), R.Run(r, lines), R.After(r, lines));
  }

  lemma LastTwo(start: Event, events: seq<Event>, r: R.State)
    ensures var out := [start] + (events + R.OnDone(r)); var n := |out|;
            n >= 3 && out[0] == start && out[n - 2] == MessageDelta(Some(R.StopReason(r))) && out[n - 1] == MessageStop
  {
  }

  /** The round trip. The receiver of the twice translated stream gets the same text; the
    * n-th distinct tool index as index n, with the same id, name and arguments; the
    * reasoning up to and including the first chunk with text or refusal; and the finish
    * reason "tool_calls" exactly when it was that, "stop" otherwise. */
  lemma RoundTrip(lines: seq<Line>)
    requires NoDone(lines) && HasChunk(lines)
    ensures var out := S.Translate(R.Translate(lines + [Done]));
            && Text(out) == Text(lines)
            && Tools(out) == Renumber(Tools(lines))
            && Reasoning(out) == ReasoningUpToText(lines)
            && Finish(out) == Some(if Finish(lines) == Some("tool_calls") then "tool_calls" else "stop")
            && AllIDs(out, MessageID(lines))
            && |out| > 0 && out[|out| - 1] == Done
  {
    var body := Assembled(lines);
    Sandwich(MessageID(lines), body, if Finish(lines) == Some("tool_calls") then "tool_calls" else "stop");
  }
}
