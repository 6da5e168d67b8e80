/** SynthesizeAnthropicSSE (internal/proxy/stream_synth.go): a whole Anthropic response
  * written as an event stream, and what the two paths to OpenAI then make of it.
  */
module StreamSynth {
  import opened Options
  import opened StreamTypes
  import opened Canonical
  import opened StreamAgreement
  import opened AnthropicToOpenAI
  import T = TextOrder

  // json.Marshal of a block's input; a nil input is written as null.
  function MarshalInput(input: Option<Json>): string {
    if input.None? then "null" else input.value
  }

  function BlockEvents(b: Block, i: nat): seq<Event> {
    match b
    case ToolBlock(id, name, input) => [BlockStart(i, ToolHead(id, name)), Delta(i, JsonDelta(MarshalInput(input))), BlockStop(i)]
    case TextBlock(text) => [BlockStart(i, TextHead), Delta(i, TextDelta(text)), BlockStop(i)]
    case ThinkingBlock(_) => [BlockStart(i, ThinkingHead), Delta(i, TextDelta("")), BlockStop(i)]
    case OtherBlock(kind, text) => [BlockStart(i, OtherHead(kind)), Delta(i, TextDelta(text)), BlockStop(i)]
  }

  function ContentEvents(bs: seq<Block>, i: nat): seq<Event>
    decreases |bs|
  {
    if bs == [] then [] else BlockEvents(bs[0], i) + ContentEvents(bs[1..], i + 1)
  }

  function Synthesize(r: Response): seq<Event> {
    [MessageStart(r.id), Ignored] + (ContentEvents(r.content, 0) + [MessageDelta(r.stopReason), MessageStop])
  }

  method WriteBlock(b: Block, i: nat) returns (events: seq<Event>)
    ensures events == BlockEvents(b, i)
  {
    var head: BlockHead;
    match b {
      case ToolBlock(id, name, _) => head := ToolHead(id, name);
      case TextBlock(_) => head := TextHead;
      case ThinkingBlock(_) => head := ThinkingHead;
      case OtherBlock(kind, _) => head := OtherHead(kind);
    }
    events := [BlockStart(i, head)];
    var delta: BlockDelta;
    match b {
      case ToolBlock(_, _, input) => delta := JsonDelta(MarshalInput(input));
      case TextBlock(text) => delta := TextDelta(text);
      case ThinkingBlock(_) => delta := TextDelta("");
      case OtherBlock(_, text) => delta := TextDelta(text);
    }
    events := events + [Delta(i, delta)];
    events := events + [BlockStop(i)];
  }

  lemma ContentStep(all: seq<Event>, captured: seq<Event>, bs: seq<Block>, n: nat)
    requires n < |bs| && all == captured + ContentEvents(bs[n..], n)
    ensures all == (captured + BlockEvents(bs[n], n)) + ContentEvents(bs[n + 1..], n + 1)
  {
    assert bs[n..][1..] == bs[n + 1..];
  }

  method SynthesizeAnthropicSSE(r: Response) returns (captured: seq<Event>)
    ensures captured == Synthesize(r)
  {
    captured := [MessageStart(r.id), Ignored];
    ghost var all := captured + ContentEvents(r.content, 0);
    assert r.content[0..] == r.content;
    for n := 0 to |r.content|
      invariant all == captured + ContentEvents(r.content[n..], n)
    {
      ContentStep(all, captured, r.content, n);
      var events := WriteBlock(r.content[n], n);
      captured := captured + events;
    }
    assert r.content[|r.content|..] == [];
    assert all == captured;
    assert all + ([MessageDelta(r.stopReason)] + [MessageStop]) == Synthesize(r);
    captured := captured + [MessageDelta(r.stopReason)];
    captured := captured + [MessageStop];
  }

  /* ---------- The synthesized stream spells out the response ---------- */

  function EntryOf(b: Block, i: nat): Entry {
    match b
    case ToolBlock(id, name, input) => Entry(i, ToolHead(id, name), "", "", MarshalInput(input))
    case TextBlock(text) => Entry(i, TextHead, text, "", "")
    case ThinkingBlock(_) => Entry(i, ThinkingHead, "", "", "")
    case OtherBlock(kind, text) => Entry(i, OtherHead(kind), text, "", "")
  }

  function EntriesOf(bs: seq<Block>, i: nat): seq<Entry>
    decreases |bs|
  {
    if bs == [] then [] else [EntryOf(bs[0], i)] + EntriesOf(bs[1..], i + 1)
  }

  ghost predicate Below(es: seq<Entry>, i: nat) {
    forall k :: 0 <= k < |es| ==> es[k].index < i
  }

  lemma {:induction false} ReplayAppend(m: Draft, a: seq<Event>, b: seq<Event>)
    ensures ReplayFrom(m, a + b) == ReplayFrom(ReplayFrom(m, a), b)
    decreases |a|
  {
    if a == [] {
      assert a + b == b;
    } else {
      assert (a + b)[1..] == a[1..] + b;
      ReplayAppend(ReplayStep(m, a[0]), a[1..], b);
    }
  }

  lemma OneEvent(p: Phase, m: Draft, a: Event)
    ensures CheckAll(p, [a]) == Check(p, a) && ReplayFrom(m, [a]) == ReplayStep(m, a)
  {
    assert [a][1..] == [];
  }

  lemma TwoEvents(p: Phase, m: Draft, a: Event, b: Event)
    ensures CheckAll(p, [a, b]) == Check(Check(p, a), b) && ReplayFrom(m, [a, b]) == ReplayStep(ReplayStep(m, a), b)
  {
    assert [a, b][1..] == [b];
    OneEvent(Check(p, a), ReplayStep(m, a), b);
  }

  lemma ThreeEvents(p: Phase, m: Draft, a: Event, b: Event, c: Event)
    ensures CheckAll(p, [a, b, c]) == Check(Check(Check(p, a), b), c)
    ensures ReplayFrom(m, [a, b, c]) == ReplayStep(ReplayStep(ReplayStep(m, a), b), c)
  {
    assert [a, b, c][1..] == [b, c];
    TwoEvents(Check(p, a), ReplayStep(m, a), b, c);
  }

  // Between two blocks of the stream.
  function Between(used: set<int>, texts: seq<int>): Phase {
    Body(used, map[], texts)
  }

  function WithText(texts: seq<int>, i: int, h: BlockHead): seq<int> {
    if IsText(KindOf(h)) then texts + [i] else texts
  }

  lemma OneBlock(used: set<int>, texts: seq<int>, i: int, h: BlockHead, d: BlockDelta)
    requires i !in used && i !in texts && Fits(KindOf(h), d) && (IsText(KindOf(h)) ==> d.TextDelta?)
    ensures var p := Between(used, texts);
            && Check(Check(Check(p, BlockStart(i, h)), Delta(i, d)), BlockStop(i)) == Between(used + {i}, WithText(texts, i, h))
            && PiecesOf(Check(p, BlockStart(i, h)), Delta(i, d)) == if IsText(KindOf(h)) then [T.Piece(|texts|, d.text)] else []
  {
    assert map[i := KindOf(h)] - {i} == map[];
    RankOfLast(texts, i);
  }

  lemma BlockReplayed(b: Block, i: nat, m: Draft)
    requires Below(m.entries, i)
    ensures var es := BlockEvents(b, i);
            ReplayStep(ReplayStep(ReplayStep(m, es[0]), es[1]), es[2]) == m.(entries := m.entries + [EntryOf(b, i)])
  {
    var es := BlockEvents(b, i);
    var e := Entry(i, es[0].head, "", "", "");
    DeltaAtOnly(m.entries + [e], i, es[1].delta, |m.entries|);
    assert AddDelta(e, es[1].delta) == EntryOf(b, i) by {
      match es[1].delta {
        case TextDelta(text) => assert "" + text == text;
        case JsonDelta(json) => assert "" + json == json;
        case ThinkingDelta(_) =>
      }
    }
    assert (m.entries + [e])[|m.entries| := EntryOf(b, i)] == m.entries + [EntryOf(b, i)];
  }

  lemma ThreePieces(p: Phase, a: Event, b: Event, c: Event)
    requires !a.Delta? && !c.Delta?
    ensures PiecesFrom(p, [a, b, c]) == PiecesOf(Check(p, a), b)
  {
    assert [a, b, c][1..] == [b, c] && [b, c][1..] == [c] && [c][1..] == [];
    assert PiecesFrom(Check(Check(p, a), b), [c]) == [];
  }

  ghost predicate NewIndex(i: int, used: set<int>, texts: seq<int>) {
    (forall j :: j in used ==> j < i) && (forall j :: j in texts ==> j < i)
  }

  // The pieces come in turn, from the n-th block with text on.
  ghost predicate InTurnFrom(ds: seq<T.Piece>, n: nat) {
    T.InTurn(ds) && forall k :: 0 <= k < |ds| ==> ds[k].rank >= n
  }

  lemma BlockSpelledOut(b: Block, i: nat, used: set<int>, texts: seq<int>, m: Draft)
    requires NewIndex(i, used, texts) && Below(m.entries, i)
    ensures var h := BlockEvents(b, i)[0].head;
            && CheckAll(Between(used, texts), BlockEvents(b, i)) == Between(used + {i}, WithText(texts, i, h))
            && |PiecesFrom(Between(used, texts), BlockEvents(b, i))| <= 1
            && forall d :: d in PiecesFrom(Between(used, texts), BlockEvents(b, i)) ==> d.rank == |texts|
    ensures ReplayFrom(m, BlockEvents(b, i)) == m.(entries := m.entries + [EntryOf(b, i)])
  {
    var es := BlockEvents(b, i);
    ThreeEvents(Between(used, texts), m, es[0], es[1], es[2]);
    ThreePieces(Between(used, texts), es[0], es[1], es[2]);
    OneBlock(used, texts, i, es[0].head, es[1].delta);
    BlockReplayed(b, i, m);
  }

  lemma {:induction false} PiecesAppend(p: Phase, a: seq<Event>, b: seq<Event>)
    ensures PiecesFrom(p, a + b) == PiecesFrom(p, a) + PiecesFrom(CheckAll(p, a), b)
    decreases |a|
  {
    if a == [] {
      assert a + b == b;
    } else {
      assert (a + b)[1..] == a[1..] + b;
      PiecesAppend(Check(p, a[0]), a[1..], b);
    }
  }

  lemma PieceFirst(ds: seq<T.Piece>, es: seq<T.Piece>, n: nat, m: nat)
    requires |ds| <= 1 && (forall d :: d in ds ==> d.rank == n) && InTurnFrom(es, m) && n <= m
    ensures InTurnFrom(ds + es, n)
  {
    assert forall k :: 0 <= k < |ds| ==> ds[k] in ds;
    assert forall k :: |ds| <= k < |ds + es| ==> (ds + es)[k] == es[k - |ds|];
  }

  lemma {:induction false} ContentReplayed(bs: seq<Block>, i: nat, m: Draft)
    requires Below(m.entries, i)
    ensures ReplayFrom(m, ContentEvents(bs, i)) == m.(entries := m.entries + EntriesOf(bs, i))
    decreases |bs|
  {
    if bs == [] {
      assert m.entries + [] == m.entries;
    } else {
      var m' := m.(entries := m.entries + [EntryOf(bs[0], i)]);
      BlockSpelledOut(bs[0], i, {}, [], m);
      ReplayAppend(m, BlockEvents(bs[0], i), ContentEvents(bs[1..], i + 1));
      ContentReplayed(bs[1..], i + 1, m');
      Spliced(m.entries, bs, i);
    }
  }

  lemma {:induction false} ContentSpelledOut(bs: seq<Block>, i: nat, used: set<int>, texts: seq<int>) returns (after: set<int>, more: seq<int>)
    requires NewIndex(i, used, texts)
    ensures CheckAll(Between(used, texts), ContentEvents(bs, i)) == Between(after, more)
    ensures InTurnFrom(PiecesFrom(Between(used, texts), ContentEvents(bs, i)), |texts|)
    decreases |bs|
  {
    var p := Between(used, texts);
    if bs == [] {
      after, more := used, texts;
    } else {
      var head, tail := BlockEvents(bs[0], i), ContentEvents(bs[1..], i + 1);
      BlockSpelledOut(bs[0], i, used, texts, Draft("", [], None));
      CheckAppend(p, head, tail);
      PiecesAppend(p, head, tail);
      var texts' := WithText(texts, i, head[0].head);
      after, more := ContentSpelledOut(bs[1..], i + 1, used + {i}, texts');
      PieceFirst(PiecesFrom(p, head), PiecesFrom(Between(used + {i}, texts'), tail), |texts|, |texts'|);
    }
  }

  lemma Spliced(es: seq<Entry>, bs: seq<Block>, i: nat)
    requires bs != []
    ensures (es + [EntryOf(bs[0], i)]) + EntriesOf(bs[1..], i + 1) == es + EntriesOf(bs, i)
  {
  }

  // A nil input comes back as null, and thinking without its text, which is not written.
  function NilToNull(b: Block): Block {
    if b.ToolBlock? then b.(input := Some(MarshalInput(b.input))) else if b.ThinkingBlock? then ThinkingBlock("") else b
  }

  function AllNilToNull(bs: seq<Block>): seq<Block> {
    if bs == [] then [] else [NilToNull(bs[0])] + AllNilToNull(bs[1..])
  }

  lemma {:induction false} EntriesAreBlocks(bs: seq<Block>, i: nat)
    ensures ToBlocks(EntriesOf(bs, i)) == AllNilToNull(bs)
    decreases |bs|
  {
    if bs != [] {
      EntriesAreBlocks(bs[1..], i + 1);
      assert EntriesOf(bs, i)[1..] == EntriesOf(bs[1..], i + 1);
    }
  }

  lemma EndSpelledOut(p: Phase, m: Draft, stop: Option<string>)
    requires p.Body? && p.open == map[]
    ensures CheckAll(p, [MessageDelta(stop), MessageStop]) == Finished && PiecesFrom(p, [MessageDelta(stop), MessageStop]) == []
    ensures ReplayFrom(m, [MessageDelta(stop), MessageStop]) == m.(stop := stop)
  {
    TwoEvents(p, m, MessageDelta(stop), MessageStop);
    assert [MessageDelta(stop), MessageStop][1..] == [MessageStop] && [MessageStop][1..] == [];
  }

  lemma SynthesizedPhases(r: Response)
    ensures WellFormed(Synthesize(r)) && TextsInTurn(Synthesize(r))
  {
    var head, body, end := [MessageStart(r.id), Ignored], ContentEvents(r.content, 0), [MessageDelta(r.stopReason), MessageStop];
    var p := Between({}, []);
    HeadSpelledOut(r.id);
    CheckAppend(Fresh, head, body + end);
    PiecesAppend(Fresh, head, body + end);
    var after, more := ContentSpelledOut(r.content, 0, {}, []);
    EndSpelledOut(Between(after, more), Draft("", [], None), r.stopReason);
    BodyAndEnd(p, body, end);
    assert [] + PiecesFrom(p, body) == PiecesFrom(p, body);
  }

  lemma HeadSpelledOut(id: string)
    ensures CheckAll(Fresh, [MessageStart(id), Ignored]) == Between({}, []) && PiecesFrom(Fresh, [MessageStart(id), Ignored]) == []
  {
    var head := [MessageStart(id), Ignored];
    TwoEvents(Fresh, Draft("", [], None), MessageStart(id), Ignored);
    assert head[1..] == [Ignored] && [Ignored][1..] == [];
  }

  lemma BodyAndEnd(p: Phase, body: seq<Event>, end: seq<Event>)
    requires CheckAll(CheckAll(p, body), end) == Finished && PiecesFrom(CheckAll(p, body), end) == []
    ensures CheckAll(p, body + end) == Finished && PiecesFrom(p, body + end) == PiecesFrom(p, body)
  {
    CheckAppend(p, body, end);
    PiecesAppend(p, body, end);
    assert PiecesFrom(p, body) + [] == PiecesFrom(p, body);
  }

  /** Every response is written as a well-formed stream, its texts in turn, that spells out the
    * same response, nil inputs and the text of thinking blocks apart. */
  lemma SynthesizedStream(r: Response)
    ensures WellFormed(Synthesize(r)) && TextsInTurn(Synthesize(r))
    ensures Replay(Synthesize(r)) == r.(content := AllNilToNull(r.content))
    ensures Entries(Synthesize(r)) == EntriesOf(r.content, 0)
  {
    var head, body, end := [MessageStart(r.id), Ignored], ContentEvents(r.content, 0), [MessageDelta(r.stopReason), MessageStop];
    var m0, m1 := Draft("", [], None), Draft(r.id, [], None);
    SynthesizedPhases(r);
    TwoEvents(Fresh, m0, MessageStart(r.id), Ignored);
    ReplayAppend(m0, head, body + end);
    ReplayAppend(m1, body, end);
    ContentReplayed(r.content, 0, m1);
    EndSpelledOut(Between({}, []), ReplayFrom(m1, body), r.stopReason);
    assert [] + EntriesOf(r.content, 0) == EntriesOf(r.content, 0);
    EntriesAreBlocks(r.content, 0);
  }

  /* ---------- Both paths on the same response ---------- */

  function Inputs(bs: seq<Block>): seq<Option<Json>> {
    if bs == [] then [] else (if bs[0].ToolBlock? then [bs[0].input] else []) + Inputs(bs[1..])
  }

  // The calls of a response and of the same response after the detour.
  lemma {:induction false} TextsUnchanged(bs: seq<Block>)
    ensures OtherText(AllNilToNull(bs)) == OtherText(bs) && PlainText(AllNilToNull(bs)) == PlainText(bs)
  {
    if bs != [] {
      TextsUnchanged(bs[1..]);
      assert AllNilToNull(bs)[1..] == AllNilToNull(bs[1..]);
    }
  }

  // A streamed tool call against the call of the direct translation, for this input.
  ghost predicate SameButForNil(t: Tool, c: Call, input: Option<Json>) {
    t.id == c.id && t.name == c.name && t.args == MarshalInput(input) && c.args == MarshalToolInput(input)
  }

  // The tools of a synthesized stream, numbered from n.
  function SynthesizedTools(bs: seq<Block>, n: nat): seq<Tool>
    decreases |bs|
  {
    if bs == [] then []
    else if bs[0].ToolBlock? then [Tool(n, bs[0].id, bs[0].name, MarshalInput(bs[0].input))] + SynthesizedTools(bs[1..], n + 1)
    else SynthesizedTools(bs[1..], n)
  }

  lemma {:induction false} ToolsOfEntries(es: seq<Entry>, bs: seq<Block>, i: nat)
    ensures StreamedTools(es + EntriesOf(bs, i)) == StreamedTools(es) + SynthesizedTools(bs, |StreamedTools(es)|)
    decreases |bs|
  {
    if bs == [] {
      assert es + [] == es;
    } else {
      var e := EntryOf(bs[0], i);
      assert [bs[0]] + bs[1..] == bs;
      ToolsOfOneMore(es, bs[0], i, bs[1..]);
      ToolsOfEntries(es + [e], bs[1..], i + 1);
      assert (es + [e]) + EntriesOf(bs[1..], i + 1) == es + EntriesOf(bs, i);
    }
  }

  lemma ToolsOfOneMore(es: seq<Entry>, b: Block, i: nat, tail: seq<Block>)
    ensures var ts := StreamedTools(es + [EntryOf(b, i)]);
            ts + SynthesizedTools(tail, |ts|) == StreamedTools(es) + SynthesizedTools([b] + tail, |StreamedTools(es)|)
  {
    TextOfOneMore(es, EntryOf(b, i));
    assert ([b] + tail)[1..] == tail;
  }

  ghost predicate AllSameButForNil(ts: seq<Tool>, cs: seq<Call>, inputs: seq<Option<Json>>) {
    |ts| == |cs| == |inputs| && forall k :: 0 <= k < |inputs| ==> SameButForNil(ts[k], cs[k], inputs[k])
  }

  lemma OneMoreCall(t: Tool, c: Call, input: Option<Json>, ts: seq<Tool>, cs: seq<Call>, inputs: seq<Option<Json>>)
    requires SameButForNil(t, c, input) && AllSameButForNil(ts, cs, inputs)
    ensures AllSameButForNil([t] + ts, [c] + cs, [input] + inputs)
  {
  }

  lemma {:induction false} SynthesizedToolsAreCalls(bs: seq<Block>, n: nat)
    ensures AllSameButForNil(SynthesizedTools(bs, n), CallsOf(bs), Inputs(bs))
    decreases |bs|
  {
    if bs != [] {
      var b, tail := bs[0], bs[1..];
      if b.ToolBlock? {
        SynthesizedToolsAreCalls(tail, n + 1);
        OneMoreCall(Tool(n, b.id, b.name, MarshalInput(b.input)), CallOf(b)[0], b.input, SynthesizedTools(tail, n + 1), CallsOf(tail), Inputs(tail));
      } else {
        SynthesizedToolsAreCalls(tail, n);
        assert [] + CallsOf(tail) == CallsOf(tail) && [] + Inputs(tail) == Inputs(tail);
      }
    }
  }

  /** A response called without streaming for a client that streams: the synthesized and then
    * translated stream against the direct translation. Same text if and only if no block of an unknown kind carries text; same tool calls
    * in order, with the same arguments if and only if the input is not nil; same finish. */
  lemma SynthesizedAgrees(r: Response)
    ensures var out, m := Translate(Synthesize(r)), NonStreaming(r);
            && (Text(out) == MessageText(m) <==> OtherText(r.content) == "")
            && |Tools(out)| == |m.toolCalls| == |Inputs(r.content)|
            && (forall k :: 0 <= k < |Tools(out)| ==>
                  && Tools(out)[k].index == k && Tools(out)[k].id == m.toolCalls[k].id && Tools(out)[k].name == m.toolCalls[k].name
                  && (Tools(out)[k].args == m.toolCalls[k].args <==> Inputs(r.content)[k].Some?))
            && |out| > 1 && Unfinished(out[..|out| - 2]) && IsFinal(out[|out| - 2], m.finish) && out[|out| - 1] == Done
  {
    SynthesizedStream(r);
    StreamingAgrees(Synthesize(r));
    NonStreamingMeaning(r);
    NonStreamingMeaning(r.(content := AllNilToNull(r.content)));
    TextsUnchanged(r.content);
    FinishesAgree(r);
    SameArguments(r);
  }

  lemma SameArguments(r: Response)
    ensures var ts, cs := Tools(Translate(Synthesize(r))), CallsOf(r.content);
            AllSameButForNil(ts, cs, Inputs(r.content))
  {
    SynthesizedStream(r);
    StreamMeaning(Synthesize(r));
    ToolsOfEntries([], r.content, 0);
    SynthesizedToolsAreCalls(r.content, 0);
    assert [] + EntriesOf(r.content, 0) == EntriesOf(r.content, 0);
  }
}
