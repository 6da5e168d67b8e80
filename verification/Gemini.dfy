/** GeminiSSEToAnthropicSSE and GeminiSSEToOpenAISSE (internal/translate/stream_gemini.go).
  * The encoding of a thought signature into a tool call id is a parameter.
  */
module Gemini {
  import opened Options
  import opened StreamTypes
  import Decimals
  import R = OpenAIToAnthropic

  // JSON text of the arguments of a call: never empty, and never the text of a nil value.
  type ArgsText = s: string | s != "" && s != "null" witness "{}"

  datatype FunctionCall = FunctionCall(name: string, args: Option<ArgsText>)

  datatype Part = Part(text: string, call: Option<FunctionCall>, signature: string)

  datatype Candidate = Candidate(finish: string, content: Option<seq<Part>>)

  // A response line with its first candidate, if it has one.
  datatype GemLine = Unparsed | Response(candidate: Option<Candidate>)

  type Encode = (string, string) -> string

  function Zeros(n: nat): string {
    if n == 0 then "" else "0" + Zeros(n - 1)
  }

  function Padded(d: string): string {
    if |d| < 6 then Zeros(6 - |d|) + d else d
  }

  // fmt.Sprintf("%06d", n)
  function SixDigits(n: nat): string {
    Padded(Decimals.Digits(n))
  }

  function ArgsOf(c: FunctionCall): string {
    if c.args.Some? then c.args.value else ""
  }

  /* ---------- Gemini to Anthropic ---------- */

  datatype ToolState = ToolState(id: string, index: nat)

  datatype State = State(sentMessageStart: bool, text: Option<nat>, next: nat, finishReason: string,
                         tools: map<string, ToolState>, order: seq<nat>)

  const Init := State(false, None, 0, "end_turn", map[], [])

  datatype Out = Out(s: State, events: seq<Event>)

  function OnFinish(s: State, finish: string): State {
    if finish == "" then s
    else if finish == "MAX_TOKENS" then s.(finishReason := "max_tokens")
    else if finish == "STOP" then s.(finishReason := if |s.tools| > 0 then "tool_use" else "end_turn")
    else s.(finishReason := "end_turn")
  }

  function AddText(s: State, text: string): Out {
    if s.text.None? then
      Out(s.(text := Some(s.next), next := s.next + 1),
          [BlockStart(s.next, TextHead), Delta(s.next, TextDelta(text))])
    else Out(s, [Delta(s.text.value, TextDelta(text))])
  }

  function OpenTool(encode: Encode, s: State, name: string, signature: string): Out {
    if name in s.tools then Out(s, [])
    else
      var id := encode("toolu_" + SixDigits(|s.order|), signature);
      Out(s.(tools := s.tools[name := ToolState(id, s.next)], order := s.order + [s.next], next := s.next + 1),
          [BlockStart(s.next, ToolHead(id, name))])
  }

  function OnCall(encode: Encode, s: State, c: FunctionCall, signature: string): Out {
    var o := OpenTool(encode, s, c.name, signature);
    Out(o.s, o.events + if c.args.Some? then [Delta(o.s.tools[c.name].index, JsonDelta(c.args.value))] else [])
  }

  function OnPart(encode: Encode, s: State, p: Part): Out {
    if p.text != "" then AddText(s, p.text)
    else if p.call.Some? then OnCall(encode, s, p.call.value, p.signature)
    else Out(s, [])
  }

  function OnParts(encode: Encode, s: State, ps: seq<Part>): Out
    decreases |ps|
  {
    if ps == [] then Out(s, [])
    else
      var a := OnPart(encode, s, ps[0]);
      var b := OnParts(encode, a.s, ps[1..]);
      Out(b.s, a.events + b.events)
  }

  function OnCandidate(encode: Encode, s: State, c: Option<Candidate>): Out {
    if c.None? then Out(s, [])
    else
      var f := OnFinish(s, c.value.finish);
      if c.value.content.None? then Out(f, []) else OnParts(encode, f, c.value.content.value)
  }

  function OnLine(encode: Encode, s: State, line: GemLine): Out {
    if line.Unparsed? then Out(s, [])
    else
      var o := OnCandidate(encode, s.(sentMessageStart := true), line.candidate);
      Out(o.s, (if s.sentMessageStart then [] else [MessageStart("msg_gemini")]) + o.events)
  }

  function Run(encode: Encode, s: State, lines: seq<GemLine>): Out
    decreases |lines|
  {
    if lines == [] then Out(s, [])
    else
      var a := OnLine(encode, s, lines[0]);
      var b := Run(encode, a.s, lines[1..]);
      Out(b.s, a.events + b.events)
  }

  function Blocks(s: State): seq<nat> {
    (if s.text.Some? then [s.text.value] else []) + s.order
  }

  function StopReason(s: State): string {
    if |s.tools| > 0 && s.finishReason == "end_turn" then "tool_use" else s.finishReason
  }

  function OnEnd(s: State): seq<Event> {
    if !s.sentMessageStart then []
    else R.StopEvents(Blocks(s)) + [MessageDelta(Some(StopReason(s))), MessageStop]
  }

  function ToAnthropic(encode: Encode, lines: seq<GemLine>): seq<Event> {
    var o := Run(encode, Init, lines);
    o.events + OnEnd(o.s)
  }

  /* ---------- Gemini to OpenAI ---------- */

  datatype ChunkState = ChunkState(sentInitial: bool, finishReason: string, toolIndex: map<string, nat>)

  const ChunkInit := ChunkState(false, "stop", map[])

  datatype ChunkOut = ChunkOut(s: ChunkState, lines: seq<Line>)

  const MsgID := "chatcmpl-gemini"

  function ChunkLine(d: ChatDelta, finish: Option<string>): Line {
    Chunk(MsgID, Some(Choice(Some(d), finish)))
  }

  function ChunkFinish(s: ChunkState, finish: string): ChunkState {
    if finish == "" then s
    else if finish == "MAX_TOKENS" then s.(finishReason := "length")
    else if finish == "STOP" then s.(finishReason := if |s.toolIndex| > 0 then "tool_calls" else "stop")
    else s.(finishReason := "stop")
  }

  function ChunkIndex(s: ChunkState, name: string): nat {
    if name in s.toolIndex then s.toolIndex[name] else |s.toolIndex|
  }

  // The tool id prefix is "call_" in the translator itself.
  function ChunkCall(encode: Encode, prefix: string, s: ChunkState, c: FunctionCall, signature: string): ChunkOut {
    var i := ChunkIndex(s, c.name);
    ChunkOut(s.(toolIndex := s.toolIndex[c.name := i]),
             [ChunkLine(EmptyDelta.(toolCalls := [ToolDelta(Some(i), encode(prefix + SixDigits(i), signature), c.name, ArgsOf(c))]), None)])
  }

  function ChunkPart(encode: Encode, prefix: string, s: ChunkState, p: Part): ChunkOut {
    if p.text != "" then ChunkOut(s, [ChunkLine(EmptyDelta.(content := Plain(p.text)), None)])
    else if p.call.Some? then ChunkCall(encode, prefix, s, p.call.value, p.signature)
    else ChunkOut(s, [])
  }

  function ChunkParts(encode: Encode, prefix: string, s: ChunkState, ps: seq<Part>): ChunkOut
    decreases |ps|
  {
    if ps == [] then ChunkOut(s, [])
    else
      var a := ChunkPart(encode, prefix, s, ps[0]);
      var b := ChunkParts(encode, prefix, a.s, ps[1..]);
      ChunkOut(b.s, a.lines + b.lines)
  }

  function ChunkCandidate(encode: Encode, prefix: string, s: ChunkState, c: Option<Candidate>): ChunkOut {
    if c.None? then ChunkOut(s, [])
    else
      var f := ChunkFinish(s, c.value.finish);
      if c.value.content.None? then ChunkOut(f, []) else ChunkParts(encode, prefix, f, c.value.content.value)
  }

  const RoleChunk := ChunkLine(EmptyDelta.(content := Plain("")), None)

  function Opening(s: ChunkState): seq<Line> {
    if s.sentInitial then [] else [RoleChunk]
  }

  function ChunksOf(encode: Encode, prefix: string, s: ChunkState, line: GemLine): ChunkOut {
    if line.Unparsed? then ChunkOut(s, [])
    else
      var o := ChunkCandidate(encode, prefix, s.(sentInitial := true), line.candidate);
      ChunkOut(o.s, Opening(s) + o.lines)
  }

  function ChunkRun(encode: Encode, prefix: string, s: ChunkState, lines: seq<GemLine>): ChunkOut
    decreases |lines|
  {
    if lines == [] then ChunkOut(s, [])
    else
      var a := ChunksOf(encode, prefix, s, lines[0]);
      var b := ChunkRun(encode, prefix, a.s, lines[1..]);
      ChunkOut(b.s, a.lines + b.lines)
  }

  function FinishReason(s: ChunkState): string {
    if |s.toolIndex| > 0 && s.finishReason == "stop" then "tool_calls" else s.finishReason
  }

  function FinalChunk(s: ChunkState): Line {
    ChunkLine(EmptyDelta, Some(FinishReason(s)))
  }

  function ToOpenAI(encode: Encode, prefix: string, lines: seq<GemLine>): seq<Line> {
    var o := ChunkRun(encode, prefix, ChunkInit, lines);
    o.lines + if o.s.sentInitial then [FinalChunk(o.s), Done] else []
  }
}
