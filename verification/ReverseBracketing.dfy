/** Every stream of chunks that ends in one [DONE] is translated into a well-bracketed
  * Anthropic stream.
  */
module ReverseBracketing {
  import opened Options
  import opened StreamTypes
  import opened Bracketing
  import opened OpenAIToAnthropic

  // The block indices in use are distinct and below the next free one.
  ghost predicate Shape(s: State) {
    && (s.thinking.Some? ==> s.thinking.value < s.next)
    && (s.thinkingClosed ==> s.thinking.Some?)
    && (s.text.Some? ==> s.text.value < s.next && s.thinking != s.text)
    && (forall k :: 0 <= k < |s.order| ==> s.order[k] < s.next && s.thinking != Some(s.order[k]) && s.text != Some(s.order[k]))
    && (forall j, k :: 0 <= j < k < |s.order| ==> s.order[j] < s.order[k])
    && (forall i :: i in s.tools ==> s.tools[i].blockIndex in s.order)
  }

  ghost predicate IsOpen(s: State, i: int) {
    || (s.thinking.Some? && s.thinking.value == i && !s.thinkingClosed)
    || (s.text.Some? && s.text.value == i)
    || (0 <= i && i as nat in s.order)
  }

  ghost function OpenKind(s: State, i: int): Kind
    requires IsOpen(s, i)
  {
    if s.thinking.Some? && s.thinking.value == i && !s.thinkingClosed then KThinking
    else if s.text.Some? && s.text.value == i then KText
    else KTool
  }

  // The acceptor has exactly the translator's open blocks open, each with its kind.
  ghost predicate Tracks(s: State, p: Phase) {
    && s.sentMessageStart
    && Shape(s)
    && p.Body? && p.next == s.next
    && (forall i :: i in p.open <==> IsOpen(s, i))
    && (forall i :: i in p.open ==> p.open[i] == OpenKind(s, i))
  }

  lemma ReasoningTracks(s: State, p: Phase, text: string)
    requires Tracks(s, p)
    ensures Tracks(OnReasoning(s, text).s, CheckAll(p, OnReasoning(s, text).events))
  {
    if text != "" && !s.thinkingClosed && s.thinking.None? {
      TwoEvents(p, BlockStart(s.next, ThinkingHead), Delta(s.next, ThinkingDelta(text)));
    }
  }

  lemma CloseTracks(s: State, p: Phase)
    requires Tracks(s, p)
    ensures Tracks(CloseThinking(s).s, CheckAll(p, CloseThinking(s).events))
  {
  }

  lemma AddTextTracks(s: State, p: Phase, text: string)
    requires Tracks(s, p)
    ensures Tracks(AddText(s, text).s, CheckAll(p, AddText(s, text).events))
  {
    if s.text.None? {
      TwoEvents(p, BlockStart(s.next, TextHead), Delta(s.next, TextDelta(text)));
    }
  }

  lemma TextTracks(s: State, p: Phase, text: string)
    requires Tracks(s, p)
    ensures Tracks(OnText(s, text).s, CheckAll(p, OnText(s, text).events))
  {
    if text != "" {
      var c := CloseThinking(s);
      CloseTracks(s, p);
      AddTextTracks(c.s, CheckAll(p, c.events), text);
      CheckAppend(p, c.events, AddText(c.s, text).events);
    }
  }

  lemma OpenToolTracks(s: State, p: Phase, d: ToolDelta)
    requires Tracks(s, p) && d.index.Some?
    ensures Tracks(OpenTool(s, d).s, CheckAll(p, OpenTool(s, d).events))
    ensures d.index.value in OpenTool(s, d).s.tools
  {
    if d.index.value !in s.tools {
      var o := OpenTool(s, d);
      assert forall i :: i in o.s.order <==> i in s.order || i == s.next;
    }
  }

  lemma ToolIsOpen(s: State, p: Phase, i: int)
    requires Tracks(s, p) && i in s.tools
    ensures s.tools[i].blockIndex in p.open && p.open[s.tools[i].blockIndex] == KTool
  {
    var block := s.tools[i].blockIndex;
    assert block in s.order;
    var k :| 0 <= k < |s.order| && s.order[k] == block;
    assert IsOpen(s, block as int);
  }

  lemma ToolTracks(s: State, p: Phase, d: ToolDelta)
    requires Tracks(s, p)
    ensures Tracks(OnTool(s, d).s, CheckAll(p, OnTool(s, d).events))
  {
    if d.index.Some? {
      var o := OpenTool(s, d);
      OpenToolTracks(s, p, d);
      if d.args == "" {
        CheckAppend(p, o.events, []);
      } else {
        var block := o.s.tools[d.index.value].blockIndex;
        var q := CheckAll(p, o.events);
        ToolIsOpen(o.s, q, d.index.value);
        OneEvent(q, Delta(block, JsonDelta(d.args)));
        CheckAppend(p, o.events, [Delta(block, JsonDelta(d.args))]);
      }
    }
  }

  lemma {:induction false} ToolsTrack(s: State, p: Phase, ds: seq<ToolDelta>)
    requires Tracks(s, p)
    ensures Tracks(OnTools(s, ds).s, CheckAll(p, OnTools(s, ds).events))
    decreases |ds|
  {
    if ds != [] {
      var a := OnTool(s, ds[0]);
      ToolTracks(s, p, ds[0]);
      ToolsTrack(a.s, CheckAll(p, a.events), ds[1..]);
      CheckAppend(p, a.events, OnTools(a.s, ds[1..]).events);
    }
  }

  lemma DeltaTracks(s: State, p: Phase, d: ChatDelta)
    requires Tracks(s, p)
    ensures Tracks(OnDelta(s, d).s, CheckAll(p, OnDelta(s, d).events))
  {
    var a := OnReasoning(s, ReasoningText(d));
    var b := OnText(a.s, ContentText(d.content));
    var c := OnRefusal(b.s, d.refusal);
    var t := OnTools(c.s, d.toolCalls);
    ReasoningTracks(s, p, ReasoningText(d));
    var pa := CheckAll(p, a.events);
    TextTracks(a.s, pa, ContentText(d.content));
    var pb := CheckAll(pa, b.events);
    if d.refusal != "" {
      AddTextTracks(b.s, pb, d.refusal);
    }
    var pc := CheckAll(pb, c.events);
    ToolsTrack(c.s, pc, d.toolCalls);
    CheckAppend(p, a.events, b.events);
    CheckAppend(p, a.events + b.events, c.events);
    CheckAppend(p, a.events + b.events + c.events, t.events);
  }

  // The relation between translator and acceptor on the lines before [DONE].
  ghost predicate Before(s: State, p: Phase) {
    (s == Init && p == Fresh) || Tracks(s, p)
  }

  lemma BeginTracks(s: State, p: Phase, id: string)
    requires Before(s, p)
    ensures Tracks(Begin(s, id).s, CheckAll(p, Begin(s, id).events))
  {
  }

  lemma ChoiceTracks(s: State, p: Phase, choice: Option<Choice>)
    requires Tracks(s, p)
    ensures Tracks(OnChoice(s, choice).s, CheckAll(p, OnChoice(s, choice).events))
  {
    if choice.Some? && choice.value.delta.Some? {
      DeltaTracks(OnFinish(s, choice.value.finish), p, choice.value.delta.value);
    }
  }

  lemma ChunkTracks(s: State, p: Phase, id: string, choice: Option<Choice>)
    requires Before(s, p)
    ensures Tracks(OnLine(s, Chunk(id, choice)).s, CheckAll(p, OnLine(s, Chunk(id, choice)).events))
  {
    var b := Begin(s, id);
    BeginTracks(s, p, id);
    var q := CheckAll(p, b.events);
    ChoiceTracks(b.s, q, choice);
    CheckAppend(p, b.events, OnChoice(b.s, choice).events);
  }

  // Lines before the terminal [DONE].
  predicate NoDone(lines: seq<Line>) {
    forall k :: 0 <= k < |lines| ==> !lines[k].Done?
  }

  lemma {:induction false} RunTracks(s: State, p: Phase, lines: seq<Line>)
    requires Before(s, p) && NoDone(lines)
    ensures Before(After(s, lines), CheckAll(p, Run(s, lines)))
    ensures s.sentMessageStart || (exists k :: 0 <= k < |lines| && lines[k].Chunk?)
            ==> Tracks(After(s, lines), CheckAll(p, Run(s, lines)))
    decreases |lines|
  {
    if lines != [] {
      var o := OnLine(s, lines[0]);
      if lines[0].Chunk? {
        ChunkTracks(s, p, lines[0].id, lines[0].choice);
      }
      assert forall k :: 0 < k < |lines| ==> lines[k] == lines[1..][k - 1];
      RunTracks(o.s, CheckAll(p, o.events), lines[1..]);
      CheckAppend(p, o.events, Run(o.s, lines[1..]));
    }
  }

  lemma {:induction false} StopAll(p: Phase, blocks: seq<nat>)
    requires p.Body? && (forall i :: i in p.open <==> 0 <= i && i as nat in blocks)
    requires forall j, k :: 0 <= j < k < |blocks| ==> blocks[j] != blocks[k]
    ensures CheckAll(p, StopEvents(blocks)) == Body(p.next, map[])
    decreases |blocks|
  {
    if blocks == [] {
      assert forall i :: i !in p.open;
      assert p.open.Keys == {};
    } else {
      assert StopEvents(blocks)[1..] == StopEvents(blocks[1..]);
      assert blocks[0] in blocks;
      StopAll(Check(p, BlockStop(blocks[0])), blocks[1..]);
    }
  }

  lemma BlocksAreOpen(s: State, p: Phase)
    requires Tracks(s, p)
    ensures forall i :: i in p.open <==> 0 <= i && i as nat in OpenBlocks(s)
    ensures forall j, k :: 0 <= j < k < |OpenBlocks(s)| ==> OpenBlocks(s)[j] != OpenBlocks(s)[k]
  {
  }

  lemma DoneFinishes(s: State, p: Phase)
    requires Tracks(s, p)
    ensures CheckAll(p, OnDone(s)) == Finished
  {
    var blocks := OpenBlocks(s);
    BlocksAreOpen(s, p);
    StopAll(p, blocks);
    CheckAppend(p, StopEvents(blocks), [MessageDelta(Some(StopReason(s))), MessageStop]);
    TwoEvents(Body(p.next, map[]), MessageDelta(Some(StopReason(s))), MessageStop);
  }

  /** One terminal [DONE] after at least one parsed chunk gives a well-bracketed stream. */
  lemma ReverseIsWellBracketed(lines: seq<Line>)
    requires NoDone(lines) && exists k :: 0 <= k < |lines| && lines[k].Chunk?
    ensures WellBracketed(Translate(lines + [Done]))
  {
    RunTracks(Init, Fresh, lines);
    RunAppend(Init, lines, [Done]);
    var s := After(Init, lines);
    assert Run(s, [Done]) == OnDone(s);
    DoneFinishes(s, CheckAll(Fresh, Run(Init, lines)));
    CheckAppend(Fresh, Run(Init, lines), OnDone(s));
  }

  /* ---------- Exactly which inputs come out well bracketed ---------- */

  predicate HasChunk(lines: seq<Line>) {
    exists k :: 0 <= k < |lines| && lines[k].Chunk?
  }

  // The tool indices the deltas name.
  function IndicesOf(ds: seq<ToolDelta>): set<int> {
    if ds == [] then {} else (if ds[0].index.Some? then {ds[0].index.value} else {}) + IndicesOf(ds[1..])
  }

  function SeenTools(lines: seq<Line>): set<int> {
    if lines == [] then {} else (if DeltaOf(lines[0]).Some? then IndicesOf(DeltaOf(lines[0]).value.toolCalls) else {}) + SeenTools(lines[1..])
  }

  // Some line has content, and that line or one before it has reasoning; `begun` says that
  // there was reasoning already.
  predicate ReasoningClosed(begun: bool, lines: seq<Line>)
    decreases |lines|
  {
    && lines != []
    && match DeltaOf(lines[0])
       case None => ReasoningClosed(begun, lines[1..])
       case Some(d) =>
         var now := begun || ReasoningText(d) != "";
         (now && ContentText(d.content) != "") || ReasoningClosed(now, lines[1..])
  }

  predicate SilentTools(seen: set<int>, ds: seq<ToolDelta>) {
    forall k :: 0 <= k < |ds| ==> ds[k].index.None? || (ds[k].index.value in seen && ds[k].args == "")
  }

  // A line that writes nothing once message_start is out, given the tool indices seen and
  // whether the reasoning is closed.
  predicate Silent(seen: set<int>, closed: bool, line: Line) {
    match DeltaOf(line)
    case None => !line.Done?
    case Some(d) =>
      && (ReasoningText(d) == "" || closed)
      && ContentText(d.content) == "" && d.refusal == ""
      && SilentTools(seen, d.toolCalls)
  }

  lemma {:induction false} SilentToolsWriteNothing(s: State, ds: seq<ToolDelta>)
    ensures SilentTools(s.tools.Keys, ds) <==> OnTools(s, ds).events == []
    ensures SilentTools(s.tools.Keys, ds) ==> OnTools(s, ds).s == s
    decreases |ds|
  {
    if ds != [] {
      var a := OnTool(s, ds[0]);
      assert forall k :: 0 < k < |ds| ==> ds[k] == ds[1..][k - 1];
      assert a.events == [] <==> ds[0].index.None? || (ds[0].index.value in s.tools && ds[0].args == "");
      if a.events == [] {
        SilentToolsWriteNothing(s, ds[1..]);
        if SilentTools(s.tools.Keys, ds[1..]) {
          assert SilentTools(s.tools.Keys, ds);
        }
      }
    }
  }

  // What a silent line may change does not matter to whether later lines are silent.
  predicate Alike(s: State, t: State) {
    t.sentMessageStart && t.tools == s.tools && t.thinkingClosed == s.thinkingClosed
  }

  lemma SilentWritesNothing(s: State, line: Line)
    requires s.sentMessageStart
    ensures Silent(s.tools.Keys, s.thinkingClosed, line) <==> OnLine(s, line).events == []
    ensures Silent(s.tools.Keys, s.thinkingClosed, line) ==> Alike(s, OnLine(s, line).s)
  {
    if DeltaOf(line).Some? {
      var d := DeltaOf(line).value;
      var f := OnFinish(Begin(s, line.id).s, line.choice.value.finish);
      var c := OnRefusal(OnText(OnReasoning(f, ReasoningText(d)).s, ContentText(d.content)).s, d.refusal);
      SilentToolsWriteNothing(c.s, d.toolCalls);
    }
  }

  lemma {:induction false} SilentRun(s: State, lines: seq<Line>)
    requires s.sentMessageStart
    ensures Run(s, lines) == [] <==> forall k :: 0 <= k < |lines| ==> Silent(s.tools.Keys, s.thinkingClosed, lines[k])
    decreases |lines|
  {
    if lines != [] {
      SilentWritesNothing(s, lines[0]);
      if OnLine(s, lines[0]).events == [] {
        assert forall k :: 0 < k < |lines| ==> lines[k] == lines[1..][k - 1];
        SilentRun(OnLine(s, lines[0]).s, lines[1..]);
      }
    }
  }

  // The translator remembers the tool indices and whether the reasoning is closed.
  lemma {:induction false} ToolsRemembered(s: State, ds: seq<ToolDelta>)
    ensures var t := OnTools(s, ds).s;
            t.tools.Keys == s.tools.Keys + IndicesOf(ds) && t.thinking == s.thinking && t.thinkingClosed == s.thinkingClosed
    decreases |ds|
  {
    if ds != [] {
      ToolsRemembered(OnTool(s, ds[0]).s, ds[1..]);
    }
  }

  predicate Remembers(s: State, reasoning: string, content: string, t: State) {
    && (t.thinking.Some? <==> s.thinking.Some? || reasoning != "")
    && (t.thinkingClosed <==> s.thinkingClosed || (t.thinking.Some? && content != ""))
  }

  lemma TextsRemembered(s: State, reasoning: string, content: string, refusal: string)
    requires s.thinkingClosed ==> s.thinking.Some?
    ensures var t := OnRefusal(OnText(OnReasoning(s, reasoning).s, content).s, refusal).s;
            t.tools == s.tools && Remembers(s, reasoning, content, t)
  {
  }

  lemma DeltaRemembered(s: State, d: ChatDelta)
    requires s.thinkingClosed ==> s.thinking.Some?
    ensures var t := OnDelta(s, d).s;
            t.tools.Keys == s.tools.Keys + IndicesOf(d.toolCalls) && Remembers(s, ReasoningText(d), ContentText(d.content), t)
  {
    var c := OnRefusal(OnText(OnReasoning(s, ReasoningText(d)).s, ContentText(d.content)).s, d.refusal);
    TextsRemembered(s, ReasoningText(d), ContentText(d.content), d.refusal);
    ToolsRemembered(c.s, d.toolCalls);
  }

  lemma LineRemembered(s: State, line: Line)
    requires s.thinkingClosed ==> s.thinking.Some?
    ensures var t := OnLine(s, line).s;
            match DeltaOf(line)
            case None => t.tools.Keys == s.tools.Keys && Remembers(s, "", "", t)
            case Some(d) => t.tools.Keys == s.tools.Keys + IndicesOf(d.toolCalls) && Remembers(s, ReasoningText(d), ContentText(d.content), t)
  {
    if DeltaOf(line).Some? {
      DeltaRemembered(OnFinish(Begin(s, line.id).s, line.choice.value.finish), DeltaOf(line).value);
    }
  }

  lemma {:induction false} LinesRemembered(s: State, lines: seq<Line>)
    requires s.thinkingClosed ==> s.thinking.Some?
    ensures var t := After(s, lines);
            && t.tools.Keys == s.tools.Keys + SeenTools(lines)
            && (t.thinkingClosed <==> s.thinkingClosed || ReasoningClosed(s.thinking.Some?, lines))
    decreases |lines|
  {
    if lines != [] {
      LineRemembered(s, lines[0]);
      LinesRemembered(OnLine(s, lines[0]).s, lines[1..]);
    }
  }

  lemma {:induction false} ToolsNeverIgnored(s: State, ds: seq<ToolDelta>)
    ensures Ignored !in OnTools(s, ds).events
    decreases |ds|
  {
    if ds != [] {
      ToolsNeverIgnored(OnTool(s, ds[0]).s, ds[1..]);
    }
  }

  lemma NeverIgnored(s: State, line: Line)
    ensures Ignored !in OnLine(s, line).events
  {
    if DeltaOf(line).Some? {
      var d := DeltaOf(line).value;
      var f := OnFinish(Begin(s, line.id).s, line.choice.value.finish);
      var a := OnReasoning(f, ReasoningText(d));
      var b := OnText(a.s, ContentText(d.content));
      var c := OnRefusal(b.s, d.refusal);
      ToolsNeverIgnored(c.s, d.toolCalls);
      assert Ignored !in a.events && Ignored !in b.events && Ignored !in c.events;
    }
  }

  lemma {:induction false} RunNeverIgnored(s: State, lines: seq<Line>)
    ensures Ignored !in Run(s, lines)
    decreases |lines|
  {
    if lines != [] {
      NeverIgnored(s, lines[0]);
      RunNeverIgnored(OnLine(s, lines[0]).s, lines[1..]);
    }
  }

  // From a finished stream on, whatever is written spoils it.
  lemma AfterFinished(events: seq<Event>)
    requires Ignored !in events
    ensures CheckAll(Finished, events) == Finished <==> events == []
  {
    if events != [] {
      assert events[0] in events;
      BrokenStays(Broken, events[1..]);
    }
  }

  // The first [DONE] is at n: a chunk came before it, and each line after it is silent, by
  // what came before it.
  predicate OneGoodDone(lines: seq<Line>, n: nat) {
    && n < |lines| && lines[n].Done? && NoDone(lines[..n]) && HasChunk(lines[..n])
    && forall k :: n < k < |lines| ==> Silent(SeenTools(lines[..n]), ReasoningClosed(false, lines[..n]), lines[k])
  }

  lemma SilentAfter(lines: seq<Line>, n: nat)
    requires n < |lines| && After(Init, lines[..n]).sentMessageStart
    ensures Run(After(Init, lines[..n]), lines[n + 1..]) == []
            <==> forall k :: n < k < |lines| ==> Silent(SeenTools(lines[..n]), ReasoningClosed(false, lines[..n]), lines[k])
  {
    var post := lines[n + 1..];
    LinesRemembered(Init, lines[..n]);
    SilentRun(After(Init, lines[..n]), post);
    assert forall k :: n < k < |lines| ==> lines[k] == post[k - n - 1];
    assert forall k :: 0 <= k < |post| ==> post[k] == lines[k + n + 1];
  }

  lemma NoChunkStaysInit(lines: seq<Line>)
    requires NoDone(lines) && !HasChunk(lines)
    ensures After(Init, lines) == Init && Run(Init, lines) == []
    decreases |lines|
  {
    if lines != [] {
      assert forall k :: 0 < k < |lines| ==> lines[k] == lines[1..][k - 1];
      NoChunkStaysInit(lines[1..]);
    }
  }

  // The phases at a [DONE]: before it, and after what it writes and the rest writes.
  lemma PhasesAtDone(pre: seq<Line>, post: seq<Line>)
    ensures var s := After(Init, pre); var p := CheckAll(Fresh, Run(Init, pre));
            CheckAll(Fresh, Translate(pre + ([Done] + post))) == CheckAll(CheckAll(p, OnDone(s)), Run(s, post))
  {
    var s := After(Init, pre);
    RunAppend(Init, pre, [Done] + post);
    assert ([Done] + post)[0] == Done && ([Done] + post)[1..] == post;
    CheckAppend(Fresh, Run(Init, pre), OnDone(s) + Run(s, post));
    CheckAppend(CheckAll(Fresh, Run(Init, pre)), OnDone(s), Run(s, post));
  }

  lemma DoneAtInit()
    ensures CheckAll(Fresh, OnDone(Init)) == Broken
  {
    assert StopEvents(OpenBlocks(Init)) == [];
    var a, b := MessageDelta(Some(StopReason(Init))), MessageStop;
    TwoEvents(Fresh, a, b);
    assert OnDone(Init) == [a, b];
  }

  lemma FirstDone(lines: seq<Line>, n: nat)
    requires n < |lines| && lines[n].Done? && NoDone(lines[..n])
    ensures WellBracketed(Translate(lines)) <==> OneGoodDone(lines, n)
  {
    var pre, post := lines[..n], lines[n + 1..];
    var s := After(Init, pre);
    assert lines == pre + ([Done] + post);
    PhasesAtDone(pre, post);
    if HasChunk(pre) {
      RunTracks(Init, Fresh, pre);
      DoneFinishes(s, CheckAll(Fresh, Run(Init, pre)));
      RunNeverIgnored(s, post);
      AfterFinished(Run(s, post));
      SilentAfter(lines, n);
    } else {
      NoChunkStaysInit(pre);
      DoneAtInit();
      BrokenStays(Broken, Run(s, post));
    }
  }

  lemma {:induction false} FindDone(lines: seq<Line>) returns (n: nat)
    requires !NoDone(lines)
    ensures n < |lines| && lines[n].Done? && NoDone(lines[..n])
    decreases |lines|
  {
    if lines[0].Done? {
      n := 0;
    } else {
      assert exists k :: 0 <= k < |lines[1..]| && lines[1..][k].Done? by {
        var k :| 0 <= k < |lines| && lines[k].Done?;
        assert lines[1..][k - 1] == lines[k];
      }
      var m := FindDone(lines[1..]);
      n := m + 1;
      assert lines[..n] == [lines[0]] + lines[1..][..m];
    }
  }

  lemma OnlyFirst(lines: seq<Line>, n: nat, m: nat)
    requires n < |lines| && lines[n].Done? && NoDone(lines[..n])
    requires m < |lines| && lines[m].Done? && NoDone(lines[..m])
    ensures m == n
  {
  }

  /** The stream comes out well bracketed if and only if there is a [DONE] with a chunk
    * before it after which every line is silent. */
  lemma WellBracketedExactly(lines: seq<Line>)
    ensures WellBracketed(Translate(lines)) <==> exists n: nat :: OneGoodDone(lines, n)
  {
    if NoDone(lines) {
      RunTracks(Init, Fresh, lines);
    } else {
      var n := FindDone(lines);
      FirstDone(lines, n);
      forall m: nat | OneGoodDone(lines, m)
        ensures m == n
      {
        OnlyFirst(lines, n, m);
      }
    }
  }

  /** A second [DONE] spoils a stream that would have come out well bracketed. */
  lemma SecondDoneSpoils(pre: seq<Line>, post: seq<Line>)
    requires NoDone(pre) && HasChunk(pre)
    ensures WellBracketed(Translate(pre + [Done])) && !WellBracketed(Translate(pre + ([Done] + post) + [Done]))
  {
    ReverseIsWellBracketed(pre);
    var lines := pre + ([Done] + post) + [Done];
    assert lines[|pre|] == Done && lines[..|pre|] == pre && lines[|lines| - 1] == Done;
    FirstDone(lines, |pre|);
  }
}
