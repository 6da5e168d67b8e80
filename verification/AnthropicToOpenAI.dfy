/** SSEStream (internal/translate/stream_anthropic.go): Anthropic events in, OpenAI
  * chunks out. `Translate` is the meaning of the loop, one event at a time; the
  * method `SSEStream` has the loop's own variables.
  */
module AnthropicToOpenAI {
  import opened Options
  import opened StreamTypes

  /** Maps an Anthropic stop_reason to an OpenAI finish_reason. */
  function MapStopReason(stopReason: Option<string>): Option<string> {
    match stopReason
    case None => None
    case Some(r) =>
      if r == "end_turn" then Some("stop")
      else if r == "max_tokens" then Some("length")
      else if r == "stop_sequence" then Some("stop")
      else if r == "tool_use" then Some("tool_calls")
      else Some(r)
  }

  // What the translator knows between two events: the tool_use blocks started so
  // far are numbered 0, 1, 2, ... in arrival order.
  datatype State = State(messageID: string, sentInitial: bool, thinking: set<int>,
                         textSeen: bool, toolCount: nat, toolIndex: map<int, nat>)

  const Init := State("", false, {}, false, 0, map[])

  function DeltaChunk(id: string, d: ChatDelta, finish: Option<string>): Line {
    Chunk(id, Some(Choice(Some(d), finish)))
  }

  function TextChunk(id: string, text: string): Line {
    DeltaChunk(id, EmptyDelta.(content := Plain(text)), None)
  }

  function ToolChunk(id: string, index: nat, toolID: string, name: string, args: string): Line {
    DeltaChunk(id, EmptyDelta.(toolCalls := [ToolDelta(Some(index), toolID, name, args)]), None)
  }

  function Next(s: State, e: Event): State {
    match e
    case MessageStart(id) => s.(messageID := "chatcmpl-" + id, sentInitial := true)
    case BlockStart(i, ThinkingHead) => s.(thinking := s.thinking + {i})
    case BlockStart(i, TextHead) => s.(textSeen := true)
    case BlockStart(i, ToolHead(_, _)) => s.(toolCount := s.toolCount + 1, toolIndex := s.toolIndex[i := s.toolCount])
    case _ => s
  }

  function Emit(s: State, e: Event): seq<Line> {
    match e
    case MessageStart(id) => if s.sentInitial then [] else [TextChunk("chatcmpl-" + id, "")]
    case BlockStart(i, ToolHead(id, name)) => [ToolChunk(s.messageID, s.toolCount, id, name, "")]
    case BlockStart(_, _) => []
    case Delta(i, d) =>
      if i in s.thinking then
        if d.ThinkingDelta? && !s.textSeen
        then [DeltaChunk(s.messageID, EmptyDelta.(reasoning := d.thinking), None)]
        else []
      else (match d
            case TextDelta(text) => [TextChunk(s.messageID, text)]
            case JsonDelta(json) => if i in s.toolIndex then [ToolChunk(s.messageID, s.toolIndex[i], "", "", json)] else []
            case ThinkingDelta(_) => [])
    case BlockStop(_) => []
    case MessageDelta(r) => [DeltaChunk(s.messageID, EmptyDelta, MapStopReason(r))]
    case MessageStop => [Done]
    case Ignored => []
  }

  function Run(s: State, events: seq<Event>): seq<Line>
    decreases |events|
  {
    if events == [] then [] else Emit(s, events[0]) + Run(Next(s, events[0]), events[1..])
  }

  function After(s: State, events: seq<Event>): State
    decreases |events|
  {
    if events == [] then s else After(Next(s, events[0]), events[1..])
  }

  function Translate(events: seq<Event>): seq<Line> {
    Run(Init, events)
  }

  lemma {:induction false} RunAppend(s: State, a: seq<Event>, b: seq<Event>)
    ensures Run(s, a + b) == Run(s, a) + Run(After(s, a), b)
    ensures After(s, a + b) == After(After(s, a), b)
    decreases |a|
  {
    if a == [] {
      assert a + b == b;
    } else {
      assert (a + b)[1..] == a[1..] + b;
      RunAppend(Next(s, a[0]), a[1..], b);
    }
  }

  // Part of the events is done: what is captured and what the rest writes make up the whole.
  ghost predicate Pending(all: seq<Line>, captured: seq<Line>, s: State, events: seq<Event>) {
    all == captured + Run(s, events)
  }

  lemma PendingStep(all: seq<Line>, captured: seq<Line>, s: State, events: seq<Event>, n: nat)
    requires n < |events| && Pending(all, captured, s, events[n..])
    ensures Pending(all, captured + Emit(s, events[n]), Next(s, events[n]), events[n + 1..])
  {
    assert events[n..][1..] == events[n + 1..];
    var rest := Run(Next(s, events[n]), events[n + 1..]);
    assert captured + (Emit(s, events[n]) + rest) == (captured + Emit(s, events[n])) + rest;
  }

  // A fresh key numbered by the size of the map keeps the keys 0, 1, 2, ...
  ghost predicate Numbered<T>(m: map<int, T>) {
    forall k :: k in m ==> 0 <= k < |m|
  }

  lemma NextKey<T>(m: map<int, T>, v: T)
    requires Numbered(m)
    ensures |m[|m| := v]| == |m| + 1 && Numbered(m[|m| := v])
  {
    assert |m| !in m;
    assert m[|m| := v].Keys == m.Keys + {|m|};
    assert |m[|m| := v]| == |m[|m| := v].Keys|;
  }

  /** The local variables of the streaming loop. */
  class SSEStream {
    var captured: seq<Line>
    var messageID: string
    var sentInitial: bool
    var thinkingBlockIndices: map<int, bool>
    var textBlockSeen: bool
    var toolCalls: map<int, Tool>
    var contentBlockToToolCallIndex: map<int, nat>

    ghost predicate Valid() reads this {
      && (forall i :: i in thinkingBlockIndices ==> thinkingBlockIndices[i])
      && Numbered(toolCalls)
    }

    ghost function Abs(): State reads this {
      State(messageID, sentInitial, thinkingBlockIndices.Keys, textBlockSeen, |toolCalls|, contentBlockToToolCallIndex)
    }

    constructor ()
      ensures Valid() && Abs() == Init && captured == []
    {
      captured := [];
      messageID, sentInitial, textBlockSeen := "", false, false;
      thinkingBlockIndices, toolCalls, contentBlockToToolCallIndex := map[], map[], map[];
    }

    method OnToolStart(index: int, id: string, name: string)
      requires Valid()
      modifies this
      ensures Valid()
      ensures messageID == old(messageID) && sentInitial == old(sentInitial) && textBlockSeen == old(textBlockSeen)
      ensures thinkingBlockIndices == old(thinkingBlockIndices) && |toolCalls| == old(|toolCalls|) + 1
      ensures contentBlockToToolCallIndex == old(contentBlockToToolCallIndex)[index := old(|toolCalls|)]
      ensures captured == old(captured) + [ToolChunk(messageID, old(|toolCalls|), id, name, "")]
    {
      var toolCallIndex := |toolCalls|;
      NextKey(toolCalls, Tool(toolCallIndex, id, name, ""));
      contentBlockToToolCallIndex := contentBlockToToolCallIndex[index := toolCallIndex];
      toolCalls := toolCalls[toolCallIndex := Tool(toolCallIndex, id, name, "")];
      captured := captured + [ToolChunk(messageID, toolCallIndex, id, name, "")];
    }

    method OnThinkingStart(index: int)
      requires Valid()
      modifies this`thinkingBlockIndices
      ensures Valid() && thinkingBlockIndices.Keys == old(thinkingBlockIndices.Keys) + {index}
    {
      thinkingBlockIndices := thinkingBlockIndices[index := true];
    }

    method OnBlockStart(index: int, head: BlockHead)
      requires Valid()
      modifies this
      ensures Valid() && Abs() == Next(old(Abs()), BlockStart(index, head))
      ensures captured == old(captured) + Emit(old(Abs()), BlockStart(index, head))
    {
      match head {
        case ThinkingHead =>
          OnThinkingStart(index);
        case TextHead =>
          textBlockSeen := true;
        case ToolHead(id, name) =>
          OnToolStart(index, id, name);
        case OtherHead(_) =>
      }
    }

    method OnDelta(index: int, delta: BlockDelta)
      requires Valid()
      modifies this`captured
      ensures Valid()
      ensures captured == old(captured) + Emit(Abs(), Delta(index, delta))
    {
      if index in thinkingBlockIndices && thinkingBlockIndices[index] {
        if delta.ThinkingDelta? && !textBlockSeen {
          captured := captured + [DeltaChunk(messageID, EmptyDelta.(reasoning := delta.thinking), None)];
        }
        return;
      }
      match delta {
        case TextDelta(text) =>
          captured := captured + [TextChunk(messageID, text)];
        case JsonDelta(json) =>
          if index in contentBlockToToolCallIndex {
            captured := captured + [ToolChunk(messageID, contentBlockToToolCallIndex[index], "", "", json)];
          }
        case ThinkingDelta(_) =>
      }
    }

    method On(e: Event)
      requires Valid()
      modifies this
      ensures Valid() && Abs() == Next(old(Abs()), e)
      ensures captured == old(captured) + Emit(old(Abs()), e)
    {
      match e {
        case MessageStart(id) =>
          messageID := "chatcmpl-" + id;
          if !sentInitial {
            captured := captured + [TextChunk(messageID, "")];
            sentInitial := true;
          }
        case BlockStart(index, head) =>
          OnBlockStart(index, head);
        case Delta(index, delta) =>
          OnDelta(index, delta);
        case BlockStop(_) =>
        case MessageDelta(stopReason) =>
          captured := captured + [DeltaChunk(messageID, EmptyDelta, MapStopReason(stopReason))];
        case MessageStop =>
          captured := captured + [Done];
        case Ignored =>
      }
    }

    /** The streaming loop: what is captured is the translation of the whole stream. */
    static method Stream(events: seq<Event>) returns (captured: seq<Line>)
      ensures captured == Translate(events)
    {
      var t := new SSEStream();
      assert events[0..] == events;
      for n := 0 to |events|
        invariant t.Valid() && fresh(t)
        invariant Pending(Translate(events), t.captured, t.Abs(), events[n..])
      {
        PendingStep(Translate(events), t.captured, t.Abs(), events, n);
        t.On(events[n]);
      }
      captured := t.captured;
    }
  }
}
