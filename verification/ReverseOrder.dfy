/** The order in which ReverseSSEStream stops the blocks it has started. */
module ReverseOrder {
  import opened Options
  import opened Sequences
  import opened StreamTypes
  import opened OpenAIToAnthropic
  import opened ReverseBracketing

  // The indices of the blocks of one kind, in the order they are started, and of all blocks in
  // the order they are stopped.
  function Started(k: Kind, events: seq<Event>): seq<int> {
    if events == [] then []
    else (if events[0].BlockStart? && KindOf(events[0].head) == k then [events[0].index] else []) + Started(k, events[1..])
  }

  function Stopped(events: seq<Event>): seq<int> {
    if events == [] then [] else (if events[0].BlockStop? then [events[0].index] else []) + Stopped(events[1..])
  }

  lemma {:induction false} StartedAppend(k: Kind, a: seq<Event>, b: seq<Event>)
    ensures Started(k, a + b) == Started(k, a) + Started(k, b)
    decreases |a|
  {
    if a == [] {
      assert a + b == b;
    } else {
      assert (a + b)[1..] == a[1..] + b;
      StartedAppend(k, a[1..], b);
    }
  }

  lemma {:induction false} StoppedAppend(a: seq<Event>, b: seq<Event>)
    ensures Stopped(a + b) == Stopped(a) + Stopped(b)
    decreases |a|
  {
    if a == [] {
      assert a + b == b;
    } else {
      assert (a + b)[1..] == a[1..] + b;
      StoppedAppend(a[1..], b);
    }
  }

  lemma OneMore(k: Kind, so: seq<Event>, e: Event)
    ensures Started(k, so + [e]) == Started(k, so) + if e.BlockStart? && KindOf(e.head) == k then [e.index] else []
    ensures Stopped(so + [e]) == Stopped(so) + if e.BlockStop? then [e.index] else []
  {
    StartedAppend(k, so, [e]);
    StoppedAppend(so, [e]);
    assert [e][1..] == [];
    assert Started(k, [e][1..]) == [] && Stopped([e][1..]) == [];
  }

  function Known(i: Option<nat>): seq<int> {
    if i.Some? then [i.value] else []
  }

  // What has been started and stopped, as the translator remembers it.
  ghost predicate Kept(s: State, so: seq<Event>) {
    KeptAs(s.thinking, s.text, s.order, s.thinkingClosed, so)
  }

  ghost predicate KeptAs(thinking: Option<nat>, text: Option<nat>, tools: seq<nat>, closed: bool, so: seq<Event>) {
    && Started(KThinking, so) == Known(thinking) && Started(KText, so) == Known(text) && Started(KTool, so) == tools
    && Stopped(so) == (if closed then Known(thinking) else [])
  }

  lemma EventKept(s: State, t: State, so: seq<Event>, e: Event)
    requires Kept(s, so)
    requires match e
             case BlockStart(i, ThinkingHead) => s.thinking.None? && !s.thinkingClosed && i >= 0 && t == s.(thinking := Some(i), next := t.next)
             case BlockStart(i, TextHead) => s.text.None? && i >= 0 && t == s.(text := Some(i), next := t.next)
             case BlockStart(i, ToolHead(_, _)) => i >= 0 && t == s.(order := s.order + [i], tools := t.tools, next := t.next)
             case BlockStart(_, OtherHead(_)) => false
             case BlockStop(i) => s.thinking.Some? && s.thinking.value == i && !s.thinkingClosed && t == s.(thinkingClosed := true)
             case _ => t == s
    ensures Kept(t, so + [e])
  {
    OneMore(KThinking, so, e);
    OneMore(KText, so, e);
    OneMore(KTool, so, e);
  }

  lemma BeginKept(s: State, so: seq<Event>, id: string)
    requires Kept(s, so)
    ensures Kept(Begin(s, id).s, so + Begin(s, id).events)
  {
    if s.sentMessageStart {
      assert so + [] == so;
    } else {
      EventKept(s, s, so, MessageStart(Begin(s, id).s.messageID));
    }
  }

  lemma ReasoningKept(s: State, so: seq<Event>, text: string)
    requires Kept(s, so) && (s.thinkingClosed ==> s.thinking.Some?)
    ensures Kept(OnReasoning(s, text).s, so + OnReasoning(s, text).events)
  {
    var o := OnReasoning(s, text);
    if o.events == [] {
      assert so + [] == so;
    } else if s.thinking.None? {
      StartKept(s.thinking, s.text, s.order, s.thinkingClosed, so, s.next, ThinkingHead, ThinkingDelta(text));
    } else {
      EventKept(s, s, so, o.events[0]);
    }
  }

  // A block is started and written to.
  lemma StartKept(thinking: Option<nat>, text: Option<nat>, tools: seq<nat>, closed: bool, so: seq<Event>, i: nat, h: BlockHead, d: BlockDelta)
    requires KeptAs(thinking, text, tools, closed, so)
    ensures var more := so + [BlockStart(i, h), Delta(i, d)];
            && (h.ThinkingHead? && thinking.None? && !closed ==> KeptAs(Some(i), text, tools, closed, more))
            && (h.TextHead? && text.None? ==> KeptAs(thinking, Some(i), tools, closed, more))
  {
    var a, b := BlockStart(i, h), Delta(i, d);
    assert (so + [a]) + [b] == so + [a, b];
    OneMore(KThinking, so, a);
    OneMore(KText, so, a);
    OneMore(KTool, so, a);
    OneMore(KThinking, so + [a], b);
    OneMore(KText, so + [a], b);
    OneMore(KTool, so + [a], b);
  }

  lemma AddTextKept(s: State, so: seq<Event>, text: string)
    requires Kept(s, so)
    ensures Kept(AddText(s, text).s, so + AddText(s, text).events)
  {
    var o := AddText(s, text);
    if s.text.None? {
      StartKept(s.thinking, s.text, s.order, s.thinkingClosed, so, s.next, TextHead, TextDelta(text));
    } else {
      EventKept(s, s, so, o.events[0]);
    }
  }

  lemma TextKept(s: State, so: seq<Event>, text: string)
    requires Kept(s, so)
    ensures Kept(OnText(s, text).s, so + OnText(s, text).events)
  {
    if text == "" {
      assert so + [] == so;
    } else {
      var c := CloseThinking(s);
      if c.events == [] {
        assert so + [] == so;
      } else {
        EventKept(s, c.s, so, c.events[0]);
      }
      AddTextKept(c.s, so + c.events, text);
      Assoc(so, c.events, AddText(c.s, text).events);
    }
  }

  lemma RefusalKept(s: State, so: seq<Event>, text: string)
    requires Kept(s, so)
    ensures Kept(OnRefusal(s, text).s, so + OnRefusal(s, text).events)
  {
    if text == "" {
      assert so + [] == so;
    } else {
      AddTextKept(s, so, text);
    }
  }

  lemma ToolKept(s: State, so: seq<Event>, d: ToolDelta)
    requires Kept(s, so)
    ensures Kept(OnTool(s, d).s, so + OnTool(s, d).events)
  {
    if d.index.None? {
      assert so + [] == so;
    } else {
      var o := OpenTool(s, d);
      if o.events == [] {
        assert so + [] == so;
      } else {
        EventKept(s, o.s, so, o.events[0]);
      }
      var more := if d.args == "" then [] else [Delta(o.s.tools[d.index.value].blockIndex, JsonDelta(d.args))];
      if more == [] {
        assert (so + o.events) + [] == so + o.events;
      } else {
        EventKept(o.s, o.s, so + o.events, more[0]);
      }
      Assoc(so, o.events, more);
    }
  }

  lemma {:induction false} ToolsKept(s: State, so: seq<Event>, ds: seq<ToolDelta>)
    requires Kept(s, so)
    ensures Kept(OnTools(s, ds).s, so + OnTools(s, ds).events)
    decreases |ds|
  {
    if ds == [] {
      assert so + [] == so;
    } else {
      var a := OnTool(s, ds[0]);
      ToolKept(s, so, ds[0]);
      ToolsKept(a.s, so + a.events, ds[1..]);
      Assoc(so, a.events, OnTools(a.s, ds[1..]).events);
    }
  }

  lemma DeltaKept(s: State, so: seq<Event>, d: ChatDelta)
    requires Kept(s, so) && (s.thinkingClosed ==> s.thinking.Some?)
    ensures Kept(OnDelta(s, d).s, so + OnDelta(s, d).events)
  {
    var a := OnReasoning(s, ReasoningText(d));
    var b := OnText(a.s, ContentText(d.content));
    var c := OnRefusal(b.s, d.refusal);
    var t := OnTools(c.s, d.toolCalls);
    ReasoningKept(s, so, ReasoningText(d));
    TextKept(a.s, so + a.events, ContentText(d.content));
    RefusalKept(b.s, so + a.events + b.events, d.refusal);
    ToolsKept(c.s, so + a.events + b.events + c.events, d.toolCalls);
    FourPieces(so, a.events, b.events, c.events, t.events);
  }

  lemma LineKept(s: State, so: seq<Event>, line: Line)
    requires Kept(s, so) && (s.thinkingClosed ==> s.thinking.Some?) && !line.Done?
    ensures var o := OnLine(s, line); Kept(o.s, so + o.events)
  {
    if line.Unparsed? {
      assert so + [] == so;
    } else {
      var b := Begin(s, line.id);
      BeginKept(s, so, line.id);
      if DeltaOf(line).Some? {
        DeltaKept(OnFinish(b.s, line.choice.value.finish), so + b.events, DeltaOf(line).value);
      } else {
        assert (so + b.events) + [] == so + b.events;
      }
      Assoc(so, b.events, OnChoice(b.s, line.choice).events);
    }
  }

  lemma ClosedWasOpen(s: State, line: Line)
    requires s.thinkingClosed ==> s.thinking.Some?
    ensures OnLine(s, line).s.thinkingClosed ==> OnLine(s, line).s.thinking.Some?
  {
    LineRemembered(s, line);
  }

  lemma {:induction false} RunKept(s: State, so: seq<Event>, lines: seq<Line>)
    requires Kept(s, so) && (s.thinkingClosed ==> s.thinking.Some?) && NoDone(lines)
    ensures Kept(After(s, lines), so + Run(s, lines))
    decreases |lines|
  {
    if lines == [] {
      assert so + [] == so;
    } else {
      var o := OnLine(s, lines[0]);
      LineKept(s, so, lines[0]);
      ClosedWasOpen(s, lines[0]);
      assert forall k :: 0 < k < |lines| ==> lines[k] == lines[1..][k - 1];
      RunKept(o.s, so + o.events, lines[1..]);
      Assoc(so, o.events, Run(o.s, lines[1..]));
    }
  }

  lemma {:induction false} StopsStopped(k: Kind, blocks: seq<nat>)
    ensures Stopped(StopEvents(blocks)) == blocks && Started(k, StopEvents(blocks)) == []
    decreases |blocks|
  {
    if blocks != [] {
      assert StopEvents(blocks)[1..] == StopEvents(blocks[1..]) && [blocks[0]] + blocks[1..] == blocks;
      StopsStopped(k, blocks[1..]);
    }
  }

  lemma DoneObserved(k: Kind, s: State)
    ensures Stopped(OnDone(s)) == OpenBlocks(s) && Started(k, OnDone(s)) == []
  {
    var a, b := MessageDelta(Some(StopReason(s))), MessageStop;
    StopsStopped(k, OpenBlocks(s));
    OneMore(k, StopEvents(OpenBlocks(s)), a);
    OneMore(k, StopEvents(OpenBlocks(s)) + [a], b);
    assert OnDone(s) == (StopEvents(OpenBlocks(s)) + [a]) + [b];
  }

  lemma AtTheEnd(k: Kind, events: seq<Event>, s: State)
    ensures Started(k, events + OnDone(s)) == Started(k, events) && Stopped(events + OnDone(s)) == Stopped(events) + OpenBlocks(s)
  {
    StartedAppend(k, events, OnDone(s));
    StoppedAppend(events, OnDone(s));
    DoneObserved(k, s);
    assert Started(k, events) + [] == Started(k, events);
  }

  lemma EndKept(events: seq<Event>, s: State)
    requires Kept(s, events) && (s.thinkingClosed ==> s.thinking.Some?)
    ensures var out := events + OnDone(s); Stopped(out) == Started(KThinking, out) + Started(KText, out) + Started(KTool, out)
  {
    AtTheEnd(KThinking, events, s);
    AtTheEnd(KText, events, s);
    AtTheEnd(KTool, events, s);
    StopsJoined(s);
  }

  lemma StopsJoined(s: State)
    ensures (if s.thinkingClosed then Known(s.thinking) else []) + OpenBlocks(s) == Known(s.thinking) + Known(s.text) + s.order
  {
  }

  lemma {:induction false} ClosedWereOpen(s: State, lines: seq<Line>)
    requires s.thinkingClosed ==> s.thinking.Some?
    ensures After(s, lines).thinkingClosed ==> After(s, lines).thinking.Some?
    decreases |lines|
  {
    if lines != [] {
      ClosedWasOpen(s, lines[0]);
      ClosedWereOpen(OnLine(s, lines[0]).s, lines[1..]);
    }
  }

  lemma DoneRun(lines: seq<Line>)
    ensures Translate(lines + [Done]) == Run(Init, lines) + OnDone(After(Init, lines))
  {
    RunAppend(Init, lines, [Done]);
    assert Run(After(Init, lines), [Done]) == OnDone(After(Init, lines)) + [];
  }

  /** The blocks are stopped by kind: the thinking block before the text block, and the text
    * block before the tool blocks, which are stopped in the order in which they were started. */
  lemma StoppedByKind(lines: seq<Line>)
    requires NoDone(lines)
    ensures var out := Translate(lines + [Done]); Stopped(out) == Started(KThinking, out) + Started(KText, out) + Started(KTool, out)
  {
    RunKept(Init, [], lines);
    assert [] + Run(Init, lines) == Run(Init, lines);
    ClosedWereOpen(Init, lines);
    DoneRun(lines);
    EndKept(Run(Init, lines), After(Init, lines));
  }
}
