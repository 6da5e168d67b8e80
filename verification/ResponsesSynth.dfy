/** SynthesizeResponsesSSE (internal/proxy/stream_synth.go), and what
  * ResponsesSSEToAnthropicSSE makes of the events it writes.
  */
module ResponsesSynth {
  import opened Options
  import opened StreamTypes
  import opened ResponsesToAnthropic
  import B = Bracketing
  import Strings

  datatype ContentPart = ContentPart(kind: string, text: string)
  datatype Item = Item(kind: string, content: seq<ContentPart>)
  datatype Response = Response(id: string, output: seq<Item>)

  /* ---------- The synthesized events ---------- */

  function PartEvents(i: nat, c: ContentPart): seq<Resp> {
    if c.kind != "output_text" then [] else [PartAdded(i), OutputText(i, c.text), PartDone(i), PartDone(i)]
  }

  function PartsEvents(i: nat, cs: seq<ContentPart>): seq<Resp> {
    if cs == [] then [] else PartEvents(i, cs[0]) + PartsEvents(i, cs[1..])
  }

  function ItemEvents(i: nat, item: Item): seq<Resp> {
    if item.kind == "message" then [ItemAdded(i, "message")] + (PartsEvents(i, item.content) + [ItemDone(i, "message")])
    else if item.kind == "function_call" then [ItemAdded(i, "function_call"), ItemDone(i, "function_call")]
    else []
  }

  function ItemsEvents(i: nat, items: seq<Item>): seq<Resp>
    decreases |items|
  {
    if items == [] then [] else ItemEvents(i, items[0]) + ItemsEvents(i + 1, items[1..])
  }

  // A missing response stands for an empty one.
  function OutputOf(resp: Option<Response>): seq<Item> {
    if resp.Some? then resp.value.output else []
  }

  function ResponseID(resp: Option<Response>): string {
    if resp.Some? && resp.value.id != "" then resp.value.id else "resp_gemini"
  }

  function Synthesize(resp: Option<Response>): seq<Resp> {
    [Created(ResponseID(resp))] + (ItemsEvents(0, OutputOf(resp)) + [Completed, Skipped])
  }

  lemma {:induction false} PartsEventsSnoc(i: nat, cs: seq<ContentPart>, c: ContentPart)
    ensures PartsEvents(i, cs + [c]) == PartsEvents(i, cs) + PartEvents(i, c)
  {
    if cs == [] {
      assert [c][1..] == [];
      assert cs + [c] == [c];
      assert PartEvents(i, c) + [] == PartEvents(i, c);
    } else {
      assert (cs + [c])[1..] == cs[1..] + [c];
      PartsEventsSnoc(i, cs[1..], c);
    }
  }

  lemma {:induction false} ItemsEventsSnoc(i: nat, items: seq<Item>, item: Item)
    ensures ItemsEvents(i, items + [item]) == ItemsEvents(i, items) + ItemEvents(i + |items|, item)
    decreases |items|
  {
    if items == [] {
      assert [item][1..] == [];
      assert items + [item] == [item];
      assert ItemEvents(i, item) + [] == ItemEvents(i, item);
    } else {
      assert (items + [item])[1..] == items[1..] + [item];
      ItemsEventsSnoc(i + 1, items[1..], item);
    }
  }

  method WriteParts(i: nat, cs: seq<ContentPart>) returns (captured: seq<Resp>)
    ensures captured == PartsEvents(i, cs)
  {
    captured := [];
    for k := 0 to |cs|
      invariant captured == PartsEvents(i, cs[..k])
    {
      assert cs[..k + 1] == cs[..k] + [cs[k]];
      PartsEventsSnoc(i, cs[..k], cs[k]);
      if cs[k].kind != "output_text" {
        continue;
      }
      captured := captured + [PartAdded(i)] + [OutputText(i, cs[k].text)];
      captured := captured + [PartDone(i)] + [PartDone(i)];
    }
    assert cs[..|cs|] == cs;
  }

  method WriteItem(i: nat, item: Item) returns (captured: seq<Resp>)
    ensures captured == ItemEvents(i, item)
  {
    captured := [];
    if item.kind == "message" {
      var parts := WriteParts(i, item.content);
      captured := [ItemAdded(i, "message")] + (parts + [ItemDone(i, "message")]);
    } else if item.kind == "function_call" {
      captured := [ItemAdded(i, "function_call")] + [ItemDone(i, "function_call")];
    }
  }

  lemma OneItemMore(output: seq<Item>, i: nat, events: seq<Resp>)
    requires i < |output| && events == ItemEvents(i, output[i])
    ensures ItemsEvents(0, output[..i + 1]) == ItemsEvents(0, output[..i]) + events
  {
    assert output[..i + 1] == output[..i] + [output[i]];
    ItemsEventsSnoc(0, output[..i], output[i]);
  }

  method WriteItems(output: seq<Item>) returns (captured: seq<Resp>)
    ensures captured == ItemsEvents(0, output)
  {
    captured := [];
    for i := 0 to |output|
      invariant captured == ItemsEvents(0, output[..i])
    {
      var events := WriteItem(i, output[i]);
      OneItemMore(output, i, events);
      captured := captured + events;
    }
    assert output[..|output|] == output;
  }

  method SynthesizeResponsesSSE(resp: Option<Response>) returns (captured: seq<Resp>)
    ensures captured == Synthesize(resp)
  {
    var items := WriteItems(OutputOf(resp));
    captured := [Created(ResponseID(resp))] + (items + [Completed, Skipped]);
  }

  /* ---------- Its translation, block by block ---------- */

  function PartBlock(i: nat, c: ContentPart): seq<Event> {
    if c.kind != "output_text" then []
    else [BlockStart(i, TextHead)] + (if c.text == "" then [] else [Delta(i, TextDelta(c.text))]) + [BlockStop(i)]
  }

  function PartsBlocks(i: nat, cs: seq<ContentPart>): seq<Event> {
    if cs == [] then [] else PartBlock(i, cs[0]) + PartsBlocks(i, cs[1..])
  }

  function ItemBlocks(i: nat, item: Item): seq<Event> {
    if item.kind == "message" then PartsBlocks(i, item.content) else []
  }

  function ItemsBlocks(i: nat, items: seq<Item>): seq<Event>
    decreases |items|
  {
    if items == [] then [] else ItemBlocks(i, items[0]) + ItemsBlocks(i + 1, items[1..])
  }

  // Running these events from a state without open blocks writes `out` and leaves the state.
  ghost predicate Replays(s: State, es: seq<Resp>, out: seq<Event>) {
    Run(s, es) == out && After(s, es) == s
  }

  lemma ReplaysAppend(s: State, a: seq<Resp>, b: seq<Resp>, x: seq<Event>, y: seq<Event>)
    requires Replays(s, a, x) && Replays(s, b, y)
    ensures Replays(s, a + b, x + y)
  {
    RunAppend(s, a, b);
  }

  lemma PartReplayed(s: State, i: nat, c: ContentPart)
    requires s.open == map[]
    ensures Replays(s, PartEvents(i, c), PartBlock(i, c))
  {
    if c.kind == "output_text" {
      var s1 := s.(open := map[i as int := KText]);
      var text := if c.text == "" then [] else [Delta(i, TextDelta(c.text))];
      assert On(s, PartAdded(i)) == Out(s1, [BlockStart(i, TextHead)]);
      assert On(s1, OutputText(i, c.text)) == Out(s1, text) by { assert [] + text == text; }
      assert s1.open - {i as int} == map[];
      assert On(s1, PartDone(i)) == Out(s, [BlockStop(i)]);
      assert On(s, PartDone(i)) == Out(s, []);
      OneStep(s, PartDone(i));
      TwoSteps(s, PartAdded(i), OutputText(i, c.text));
      TwoSteps(s1, PartDone(i), PartDone(i));
      RunAppend(s, [PartAdded(i), OutputText(i, c.text)], [PartDone(i), PartDone(i)]);
      assert PartEvents(i, c) == [PartAdded(i), OutputText(i, c.text)] + [PartDone(i), PartDone(i)];
      assert ([BlockStart(i, TextHead)] + text) + ([BlockStop(i)] + []) == PartBlock(i, c);
    }
  }

  lemma TwoSteps(s: State, a: Resp, b: Resp)
    ensures var x := On(s, a); var y := On(x.s, b);
            Run(s, [a, b]) == x.events + y.events && After(s, [a, b]) == y.s
  {
    assert [a, b] == [a] + [b];
    RunAppend(s, [a], [b]);
    OneStep(s, a);
    OneStep(On(s, a).s, b);
  }

  lemma {:induction false} PartsReplayed(s: State, i: nat, cs: seq<ContentPart>)
    requires s.open == map[]
    ensures Replays(s, PartsEvents(i, cs), PartsBlocks(i, cs))
  {
    if cs != [] {
      PartReplayed(s, i, cs[0]);
      PartsReplayed(s, i, cs[1..]);
      ReplaysAppend(s, PartEvents(i, cs[0]), PartsEvents(i, cs[1..]), PartBlock(i, cs[0]), PartsBlocks(i, cs[1..]));
    }
  }

  lemma ItemReplayed(s: State, i: nat, item: Item)
    requires s.open == map[]
    ensures Replays(s, ItemEvents(i, item), ItemBlocks(i, item))
  {
    if item.kind == "message" {
      var out := PartsBlocks(i, item.content);
      PartsReplayed(s, i, item.content);
      OneStep(s, ItemAdded(i, "message"));
      OneStep(s, ItemDone(i, "message"));
      ReplaysAppend(s, PartsEvents(i, item.content), [ItemDone(i, "message")], out, []);
      assert out + [] == out && [] + out == out;
      ReplaysAppend(s, [ItemAdded(i, "message")], PartsEvents(i, item.content) + [ItemDone(i, "message")], [], out);
    } else if item.kind == "function_call" {
      TwoSteps(s, ItemAdded(i, "function_call"), ItemDone(i, "function_call"));
    }
  }

  lemma {:induction false} ItemsReplayed(s: State, i: nat, items: seq<Item>)
    requires s.open == map[]
    ensures Replays(s, ItemsEvents(i, items), ItemsBlocks(i, items))
    decreases |items|
  {
    if items != [] {
      ItemReplayed(s, i, items[0]);
      ItemsReplayed(s, i + 1, items[1..]);
      ReplaysAppend(s, ItemEvents(i, items[0]), ItemsEvents(i + 1, items[1..]), ItemBlocks(i, items[0]), ItemsBlocks(i + 1, items[1..]));
    }
  }

  function Replay(resp: Option<Response>): seq<Event> {
    Framed(Strings.TrimPrefix(ResponseID(resp), "resp_"), ItemsBlocks(0, OutputOf(resp)))
  }

  function Framed(id: string, blocks: seq<Event>): seq<Event> {
    [MessageStart(id)] + (blocks + [MessageDelta(Some("end_turn")), MessageStop])
  }

  lemma FrameTranslated(id: string, events: seq<Resp>, blocks: seq<Event>)
    requires Replays(State(true, map[]), events, blocks)
    ensures Translate([Created(id)] + (events + [Completed, Skipped])) == Framed(Strings.TrimPrefix(id, "resp_"), blocks)
    ensures After(Init, [Created(id)] + (events + [Completed, Skipped])).open == map[]
  {
    var s := State(true, map[]);
    OneStep(Init, Created(id));
    RunAppend(Init, [Created(id)], events + [Completed, Skipped]);
    RunAppend(s, events, [Completed, Skipped]);
    TwoSteps(s, Completed, Skipped);
    assert [MessageDelta(Some("end_turn")), MessageStop] + [] == [MessageDelta(Some("end_turn")), MessageStop];
  }

  lemma SynthesizedIsReplayed(resp: Option<Response>)
    ensures Translate(Synthesize(resp)) == Replay(resp)
    ensures After(Init, Synthesize(resp)).open == map[]
  {
    ItemsReplayed(State(true, map[]), 0, OutputOf(resp));
    FrameTranslated(ResponseID(resp), ItemsEvents(0, OutputOf(resp)), ItemsBlocks(0, OutputOf(resp)));
  }

  /* ---------- What the client reads at each index ---------- */

  function PartsText(cs: seq<ContentPart>): string {
    if cs == [] then "" else (if cs[0].kind == "output_text" then cs[0].text else "") + PartsText(cs[1..])
  }

  function TextParts(cs: seq<ContentPart>): nat {
    if cs == [] then 0 else (if cs[0].kind == "output_text" then 1 else 0) + TextParts(cs[1..])
  }

  function ItemText(item: Item): string {
    if item.kind == "message" then PartsText(item.content) else ""
  }

  function ItemParts(item: Item): nat {
    if item.kind == "message" then TextParts(item.content) else 0
  }

  // What a piece of the output says about index i: the text, the starts and the stops.
  ghost predicate Says(out: seq<Event>, i: int, text: string, blocks: nat) {
    TextAt(out, i) == text && B.Starts(out, i) == blocks && B.Stops(out, i) == blocks
  }

  lemma AllAppend(a: seq<Event>, b: seq<Event>, i: int)
    ensures TextAt(a + b, i) == TextAt(a, i) + TextAt(b, i)
    ensures B.Starts(a + b, i) == B.Starts(a, i) + B.Starts(b, i)
    ensures B.Stops(a + b, i) == B.Stops(a, i) + B.Stops(b, i)
  {
    TextAtAppend(a, b, i);
    B.StartsAppend(a, b, i);
    B.StopsAppend(a, b, i);
  }

  lemma PartSays(k: nat, c: ContentPart, i: int)
    requires c.kind == "output_text"
    ensures Says(PartBlock(k, c), i, if i == k then c.text else "", if i == k then 1 else 0)
  {
    var text := if c.text == "" then [] else [Delta(k, TextDelta(c.text))];
    AllAppend([BlockStart(k, TextHead)], text, i);
    AllAppend([BlockStart(k, TextHead)] + text, [BlockStop(k)], i);
  }

  lemma {:induction false} PartsSay(k: nat, cs: seq<ContentPart>, i: int)
    ensures Says(PartsBlocks(k, cs), i, if i == k then PartsText(cs) else "", if i == k then TextParts(cs) else 0)
  {
    if cs != [] {
      PartsSay(k, cs[1..], i);
      if cs[0].kind == "output_text" {
        PartSays(k, cs[0], i);
        AllAppend(PartBlock(k, cs[0]), PartsBlocks(k, cs[1..]), i);
      } else {
        assert [] + PartsBlocks(k, cs[1..]) == PartsBlocks(k, cs[1..]);
      }
    }
  }

  function TextOf(base: nat, items: seq<Item>, i: int): string {
    if base <= i < base + |items| then ItemText(items[i - base]) else ""
  }

  function PartsOf(base: nat, items: seq<Item>, i: int): nat {
    if base <= i < base + |items| then ItemParts(items[i - base]) else 0
  }

  lemma ItemSays(k: nat, item: Item, i: int)
    ensures Says(ItemBlocks(k, item), i, if i == k then ItemText(item) else "", if i == k then ItemParts(item) else 0)
  {
    if item.kind == "message" {
      PartsSay(k, item.content, i);
    }
  }

  lemma {:induction false} ItemsSay(base: nat, items: seq<Item>, i: int)
    ensures Says(ItemsBlocks(base, items), i, TextOf(base, items, i), PartsOf(base, items, i))
    decreases |items|
  {
    if items != [] {
      var rest := items[1..];
      ItemSays(base, items[0], i);
      ItemsSay(base + 1, rest, i);
      AllAppend(ItemBlocks(base, items[0]), ItemsBlocks(base + 1, rest), i);
      if i == base {
        assert TextOf(base + 1, rest, i) == "" && PartsOf(base + 1, rest, i) == 0;
      } else {
        assert TextOf(base + 1, rest, i) == TextOf(base, items, i) && PartsOf(base + 1, rest, i) == PartsOf(base, items, i);
      }
    }
  }

  lemma FrameSays(id: string, blocks: seq<Event>, i: int)
    ensures TextAt(Framed(id, blocks), i) == TextAt(blocks, i)
    ensures B.Starts(Framed(id, blocks), i) == B.Starts(blocks, i) && B.Stops(Framed(id, blocks), i) == B.Stops(blocks, i)
  {
    var a, b := MessageDelta(Some("end_turn")), MessageStop;
    assert [a, b] == [a] + [b];
    AllAppend([a], [b], i);
    AllAppend(blocks, [a, b], i);
    AllAppend([MessageStart(id)], blocks + [a, b], i);
  }

  /** A synthesized Responses stream replayed as Anthropic events: the client reads at each
    * output index exactly the output_text of the message there, every block it sees opened
    * is closed, and an index is opened once for each output_text part. Function calls leave
    * no trace. */
  lemma ReplayedAtItsIndex(resp: Option<Response>, i: int)
    ensures var out := Translate(Synthesize(resp)); var items := OutputOf(resp);
            Says(out, i, TextOf(0, items, i), PartsOf(0, items, i))
  {
    SynthesizedIsReplayed(resp);
    ItemsSay(0, OutputOf(resp), i);
    FrameSays(Strings.TrimPrefix(ResponseID(resp), "resp_"), ItemsBlocks(0, OutputOf(resp)), i);
  }

  /* ---------- The stream itself ---------- */

  // The kinds of the items that are announced at an index, and of those that are closed.
  function Added(es: seq<Resp>, i: int): seq<string> {
    if es == [] then [] else (if es[0].ItemAdded? && es[0].index == i then [es[0].kind] else []) + Added(es[1..], i)
  }

  function Closed(es: seq<Resp>, i: int): seq<string> {
    if es == [] then [] else (if es[0].ItemDone? && es[0].index == i then [es[0].kind] else []) + Closed(es[1..], i)
  }

  lemma {:induction false} AddedAppend(a: seq<Resp>, b: seq<Resp>, i: int)
    ensures Added(a + b, i) == Added(a, i) + Added(b, i)
    decreases |a|
  {
    if a == [] {
      assert a + b == b;
    } else {
      assert (a + b)[1..] == a[1..] + b;
      AddedAppend(a[1..], b, i);
    }
  }

  lemma {:induction false} ClosedAppend(a: seq<Resp>, b: seq<Resp>, i: int)
    ensures Closed(a + b, i) == Closed(a, i) + Closed(b, i)
    decreases |a|
  {
    if a == [] {
      assert a + b == b;
    } else {
      assert (a + b)[1..] == a[1..] + b;
      ClosedAppend(a[1..], b, i);
    }
  }

  lemma AnnouncedAppend(a: seq<Resp>, b: seq<Resp>, i: int)
    ensures Added(a + b, i) == Added(a, i) + Added(b, i) && Closed(a + b, i) == Closed(a, i) + Closed(b, i)
  {
    AddedAppend(a, b, i);
    ClosedAppend(a, b, i);
  }

  lemma OneAnnounced(e: Resp, i: int)
    ensures Added([e], i) == (if e.ItemAdded? && e.index == i then [e.kind] else [])
    ensures Closed([e], i) == (if e.ItemDone? && e.index == i then [e.kind] else [])
  {
    assert [e][1..] == [];
  }

  // Neither an item nor the frame of the stream.
  predicate WithinItem(e: Resp) {
    !e.ItemAdded? && !e.ItemDone? && !e.Created? && !e.Completed?
  }

  lemma {:induction false} PartsWithin(k: nat, cs: seq<ContentPart>)
    ensures forall j :: 0 <= j < |PartsEvents(k, cs)| ==> WithinItem(PartsEvents(k, cs)[j])
  {
    if cs != [] {
      PartsWithin(k, cs[1..]);
    }
  }

  lemma {:induction false} NothingAnnounced(es: seq<Resp>, i: int)
    requires forall j :: 0 <= j < |es| ==> WithinItem(es[j])
    ensures Added(es, i) == [] && Closed(es, i) == []
  {
    if es != [] {
      NothingAnnounced(es[1..], i);
    }
  }

  function AnnouncedKind(item: Item): seq<string> {
    if item.kind == "message" || item.kind == "function_call" then [item.kind] else []
  }

  lemma ItemAnnounced(k: nat, item: Item, i: int)
    ensures Added(ItemEvents(k, item), i) == (if i == k then AnnouncedKind(item) else [])
    ensures Closed(ItemEvents(k, item), i) == (if i == k then AnnouncedKind(item) else [])
  {
    var a, b := ItemAdded(k, item.kind), ItemDone(k, item.kind);
    OneAnnounced(a, i);
    OneAnnounced(b, i);
    if item.kind == "message" {
      var parts := PartsEvents(k, item.content);
      PartsWithin(k, item.content);
      NothingAnnounced(parts, i);
      AnnouncedAppend(parts, [b], i);
      AnnouncedAppend([a], parts + [b], i);
    } else {
      AnnouncedAppend([a], [b], i);
      assert [a] + [b] == [a, b];
    }
  }

  function KindsAt(base: nat, items: seq<Item>, i: int): seq<string> {
    if base <= i < base + |items| then AnnouncedKind(items[i - base]) else []
  }

  lemma KindsOfRest(base: nat, items: seq<Item>, i: int)
    requires items != []
    ensures KindsAt(base, items, i) == (if i == base then AnnouncedKind(items[0]) else []) + KindsAt(base + 1, items[1..], i)
  {
    assert i > base && i < base + |items| ==> items[1..][i - base - 1] == items[i - base];
    assert [] + KindsAt(base + 1, items[1..], i) == KindsAt(base + 1, items[1..], i);
  }

  lemma {:induction false} ItemsAnnounced(base: nat, items: seq<Item>, i: int)
    ensures Added(ItemsEvents(base, items), i) == KindsAt(base, items, i) && Closed(ItemsEvents(base, items), i) == KindsAt(base, items, i)
    decreases |items|
  {
    if items != [] {
      ItemAnnounced(base, items[0], i);
      ItemsAnnounced(base + 1, items[1..], i);
      AnnouncedAppend(ItemEvents(base, items[0]), ItemsEvents(base + 1, items[1..]), i);
      KindsOfRest(base, items, i);
    }
  }

  // The id of the message that the stream is replayed as.
  function MessageID(resp: Option<Response>): string {
    if resp.None? || resp.value.id == "" then "gemini" else Strings.TrimPrefix(resp.value.id, "resp_")
  }

  lemma {:induction false} FrameOfBlocks(base: nat, items: seq<Item>)
    ensures Frame(ItemsBlocks(base, items)) == []
    decreases |items|
  {
    if items != [] {
      FrameOfBlocks(base + 1, items[1..]);
      if items[0].kind == "message" {
        FrameOfParts(base, items[0].content);
      }
      FrameAppend(ItemBlocks(base, items[0]), ItemsBlocks(base + 1, items[1..]));
    }
  }

  lemma {:induction false} FrameOfParts(k: nat, cs: seq<ContentPart>)
    ensures Frame(PartsBlocks(k, cs)) == []
  {
    if cs != [] {
      FrameOfParts(k, cs[1..]);
      FrameOfPart(k, cs[0]);
      FrameAppend(PartBlock(k, cs[0]), PartsBlocks(k, cs[1..]));
    }
  }

  lemma FrameOfPart(k: nat, c: ContentPart)
    ensures Frame(PartBlock(k, c)) == []
  {
    if c.kind == "output_text" {
      var text := if c.text == "" then [] else [Delta(k, TextDelta(c.text))];
      FrameAppend([BlockStart(k, TextHead)] + text, [BlockStop(k)]);
      FrameAppend([BlockStart(k, TextHead)], text);
      OneDelivered(BlockStart(k, TextHead), k);
      OneDelivered(Delta(k, TextDelta(c.text)), k);
      OneDelivered(BlockStop(k), k);
    }
  }

  lemma DefaultID()
    ensures Strings.TrimPrefix("resp_gemini", "resp_") == "gemini"
  {
    assert "resp_gemini" == "resp_" + "gemini";
  }

  /** The synthesized stream announces and closes each message and function call once, at its
    * place in the output, and nothing else; and its replay is framed by one message_start with
    * the response's id without its prefix, "gemini" if there is none, and one stop. */
  lemma SynthesizedAt(resp: Option<Response>, i: int)
    ensures Added(Synthesize(resp), i) == KindsAt(0, OutputOf(resp), i) && Closed(Synthesize(resp), i) == KindsAt(0, OutputOf(resp), i)
    ensures Frame(Translate(Synthesize(resp))) == [MessageStart(MessageID(resp)), MessageDelta(Some("end_turn")), MessageStop]
  {
    var items := OutputOf(resp);
    ItemsAnnounced(0, items, i);
    AroundItems(ResponseID(resp), ItemsEvents(0, items), i);
    ReplayFramed(resp);
  }

  lemma ReplayFramed(resp: Option<Response>)
    ensures Frame(Translate(Synthesize(resp))) == [MessageStart(MessageID(resp)), MessageDelta(Some("end_turn")), MessageStop]
  {
    SynthesizedIsReplayed(resp);
    FrameOfBlocks(0, OutputOf(resp));
    FrameOfFramed(Strings.TrimPrefix(ResponseID(resp), "resp_"), ItemsBlocks(0, OutputOf(resp)));
    DefaultID();
  }

  lemma AroundItems(id: string, events: seq<Resp>, i: int)
    ensures var es := [Created(id)] + (events + [Completed, Skipped]); Added(es, i) == Added(events, i) && Closed(es, i) == Closed(events, i)
  {
    assert [Completed, Skipped] == [Completed] + [Skipped];
    OneAnnounced(Created(id), i);
    OneAnnounced(Completed, i);
    OneAnnounced(Skipped, i);
    AnnouncedAppend([Completed], [Skipped], i);
    AnnouncedAppend(events, [Completed, Skipped], i);
    AnnouncedAppend([Created(id)], events + [Completed, Skipped], i);
  }

  lemma FrameOfFramed(id: string, blocks: seq<Event>)
    requires Frame(blocks) == []
    ensures Frame(Framed(id, blocks)) == [MessageStart(id), MessageDelta(Some("end_turn")), MessageStop]
  {
    var a, b := MessageDelta(Some("end_turn")), MessageStop;
    assert [a, b] == [a] + [b];
    FrameAppend([a], [b]);
    FrameAppend(blocks, [a, b]);
    FrameAppend([MessageStart(id)], blocks + [a, b]);
    OneDelivered(a, 0);
    OneDelivered(b, 0);
    OneDelivered(MessageStart(id), 0);
  }

  /* ---------- When the replay is well bracketed ---------- */

  // The first m items have one output_text part each, the others none.
  predicate OneEach(items: seq<Item>, m: nat) {
    m <= |items| && forall k :: 0 <= k < |items| ==> ItemParts(items[k]) == if k < m then 1 else 0
  }

  lemma PartChecked(k: nat, c: ContentPart, next: nat)
    requires c.kind == "output_text"
    ensures B.CheckAll(B.Body(next, map[]), PartBlock(k, c)) == if k == next then B.Body(next + 1, map[]) else B.Broken
  {
    var p := B.Body(next, map[]);
    var text := if c.text == "" then [] else [Delta(k, TextDelta(c.text))];
    var q := B.Check(p, BlockStart(k, TextHead));
    B.OneEvent(p, BlockStart(k, TextHead));
    B.OneEvent(q, Delta(k, TextDelta(c.text)));
    B.OneEvent(q, BlockStop(k));
    B.CheckAppend(p, [BlockStart(k, TextHead)], text);
    B.CheckAppend(p, [BlockStart(k, TextHead)] + text, [BlockStop(k)]);
    if k == next {
      assert q == B.Body(next + 1, map[k as int := KText]);
      assert map[k as int := KText] - {k as int} == map[];
    }
  }

  lemma {:induction false} PartsChecked(k: nat, cs: seq<ContentPart>, next: nat)
    ensures B.CheckAll(B.Body(next, map[]), PartsBlocks(k, cs))
            == if TextParts(cs) == 0 then B.Body(next, map[])
               else if TextParts(cs) == 1 && k == next then B.Body(next + 1, map[]) else B.Broken
  {
    if cs != [] {
      if cs[0].kind == "output_text" {
        PartChecked(k, cs[0], next);
        B.CheckAppend(B.Body(next, map[]), PartBlock(k, cs[0]), PartsBlocks(k, cs[1..]));
        if k == next {
          PartsChecked(k, cs[1..], next + 1);
        } else {
          B.BrokenStays(B.Broken, PartsBlocks(k, cs[1..]));
        }
      } else {
        PartsChecked(k, cs[1..], next);
        assert [] + PartsBlocks(k, cs[1..]) == PartsBlocks(k, cs[1..]);
      }
    }
  }

  lemma ItemChecked(k: nat, item: Item, next: nat)
    ensures B.CheckAll(B.Body(next, map[]), ItemBlocks(k, item))
            == if ItemParts(item) == 0 then B.Body(next, map[])
               else if ItemParts(item) == 1 && k == next then B.Body(next + 1, map[]) else B.Broken
  {
    if item.kind == "message" {
      PartsChecked(k, item.content, next);
    }
  }

  // Once an index is skipped, no block may follow.
  lemma {:induction false} ItemsCheckedLate(base: nat, items: seq<Item>, next: nat)
    requires next < base
    ensures B.CheckAll(B.Body(next, map[]), ItemsBlocks(base, items)) == if OneEach(items, 0) then B.Body(next, map[]) else B.Broken
    decreases |items|
  {
    if items != [] {
      ItemChecked(base, items[0], next);
      B.CheckAppend(B.Body(next, map[]), ItemBlocks(base, items[0]), ItemsBlocks(base + 1, items[1..]));
      if ItemParts(items[0]) == 0 {
        ItemsCheckedLate(base + 1, items[1..], next);
        ShiftOneEach(items, 0);
      } else {
        B.BrokenStays(B.Broken, ItemsBlocks(base + 1, items[1..]));
      }
    }
  }

  lemma ShiftOneEach(items: seq<Item>, m: nat)
    requires items != []
    ensures m > 0 ==> (OneEach(items, m) <==> ItemParts(items[0]) == 1 && OneEach(items[1..], m - 1))
    ensures m == 0 ==> (OneEach(items, m) <==> ItemParts(items[0]) == 0 && OneEach(items[1..], 0))
  {
    assert forall k :: 0 < k < |items| ==> items[k] == items[1..][k - 1];
    if m > 0 && ItemParts(items[0]) == 1 && OneEach(items[1..], m - 1) {
      assert OneEach(items, m);
    }
    if m == 0 && ItemParts(items[0]) == 0 && OneEach(items[1..], 0) {
      assert OneEach(items, m);
    }
    if OneEach(items, m) {
      forall k | 0 <= k < |items[1..]|
        ensures ItemParts(items[1..][k]) == if k < m - 1 then 1 else 0
      {
        assert items[1..][k] == items[k + 1];
      }
    }
  }

  // The number of blocks, or None if the acceptor breaks.
  lemma {:induction false} ItemsChecked(base: nat, items: seq<Item>) returns (n: Option<nat>)
    ensures B.CheckAll(B.Body(base, map[]), ItemsBlocks(base, items)) == if n.Some? then B.Body(base + n.value, map[]) else B.Broken
    ensures n.Some? ==> OneEach(items, n.value)
    ensures n.None? ==> forall m: nat :: !OneEach(items, m)
    decreases |items|
  {
    if items == [] {
      n := Some(0);
    } else {
      ItemChecked(base, items[0], base);
      B.CheckAppend(B.Body(base, map[]), ItemBlocks(base, items[0]), ItemsBlocks(base + 1, items[1..]));
      if ItemParts(items[0]) == 0 {
        ItemsCheckedLate(base + 1, items[1..], base);
        n := if OneEach(items[1..], 0) then Some(0) else None;
      } else if ItemParts(items[0]) == 1 {
        var k := ItemsChecked(base + 1, items[1..]);
        n := if k.Some? then Some(k.value + 1) else None;
      } else {
        B.BrokenStays(B.Broken, ItemsBlocks(base + 1, items[1..]));
        n := None;
      }
      if n.Some? {
        ShiftOneEach(items, n.value);
      } else {
        forall m: nat
          ensures !OneEach(items, m)
        {
          ShiftOneEach(items, m);
        }
      }
    }
  }

  /** The replay is a well-bracketed Anthropic stream if and only if the output begins with
    * items of exactly one output_text part and all later items have none: a tool call
    * before a message leaves a hole in the block numbering, and a second part of a message
    * opens its index again. */
  lemma WellBracketedExactly(resp: Option<Response>)
    ensures B.WellBracketed(Translate(Synthesize(resp))) <==> exists m: nat :: OneEach(OutputOf(resp), m)
  {
    SynthesizedIsReplayed(resp);
    var items := OutputOf(resp);
    var start, a, b := MessageStart(Strings.TrimPrefix(ResponseID(resp), "resp_")), MessageDelta(Some("end_turn")), MessageStop;
    var n := ItemsChecked(0, items);
    var p := B.CheckAll(B.Body(0, map[]), ItemsBlocks(0, items));
    B.OneEvent(B.Fresh, start);
    B.CheckAppend(B.Fresh, [start], ItemsBlocks(0, items) + [a, b]);
    B.CheckAppend(B.Body(0, map[]), ItemsBlocks(0, items), [a, b]);
    B.TwoEvents(p, a, b);
  }
}
