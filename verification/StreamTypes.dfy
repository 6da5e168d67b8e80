/** The payloads that the stream translators read and write, as values, and what a
  * receiver makes of a whole stream. JSON text stays outside: a "data:" line that
  * does not parse, or has a type no branch handles, is `Ignored`.
  */
module StreamTypes {

  import opened Options

  /* ---------- Anthropic events ---------- */

  datatype BlockHead = TextHead | ThinkingHead | ToolHead(id: string, name: string) | OtherHead(kind: string)

  datatype Kind = KText | KThinking | KTool | KOther

  function KindOf(h: BlockHead): Kind {
    match h
    case TextHead => KText
    case ThinkingHead => KThinking
    case ToolHead(_, _) => KTool
    case OtherHead(_) => KOther
  }

  datatype BlockDelta = TextDelta(text: string) | ThinkingDelta(thinking: string) | JsonDelta(json: string)

  datatype Event =
    | MessageStart(id: string)
    | BlockStart(index: int, head: BlockHead)
    | Delta(index: int, delta: BlockDelta)
    | BlockStop(index: int)
    | MessageDelta(stopReason: Option<string>)
    | MessageStop
    | Ignored

  /* ---------- OpenAI chat-completion chunks ---------- */

  // The content field of a delta: missing, a string, or a list of parts, each
  // with or without a text member.
  datatype Content = NoContent | Plain(text: string) | Parts(parts: seq<Option<string>>)

  datatype ToolDelta = ToolDelta(index: Option<int>, id: string, name: string, args: string)

  datatype ChatDelta = ChatDelta(content: Content, refusal: string, reasoning: string,
                                 reasoningContent: string, toolCalls: seq<ToolDelta>)

  datatype Choice = Choice(delta: Option<ChatDelta>, finish: Option<string>)

  datatype Line = Done | Chunk(id: string, choice: Option<Choice>) | Unparsed

  const EmptyDelta := ChatDelta(NoContent, "", "", "", [])

  function JoinParts(parts: seq<Option<string>>): string {
    if parts == [] then ""
    else (if parts[0].Some? then parts[0].value else "") + JoinParts(parts[1..])
  }

  function ContentText(c: Content): string {
    match c
    case NoContent => ""
    case Plain(text) => text
    case Parts(parts) => JoinParts(parts)
  }

  // The reasoning field, or reasoning_content when it is empty.
  function ReasoningText(d: ChatDelta): string {
    if d.reasoning != "" then d.reasoning else d.reasoningContent
  }

  /* ---------- What a receiver of a chunk stream ends up with ---------- */

  // The delta a receiver looks at: the one of the first choice, if there is one.
  function DeltaOf(line: Line): Option<ChatDelta> {
    if line.Chunk? && line.choice.Some? then line.choice.value.delta else None
  }

  function LineText(line: Line): string {
    match DeltaOf(line)
    case None => ""
    case Some(d) => ContentText(d.content) + d.refusal
  }

  function Text(lines: seq<Line>): string {
    if lines == [] then "" else LineText(lines[0]) + Text(lines[1..])
  }

  function LineReasoning(line: Line): string {
    match DeltaOf(line)
    case None => ""
    case Some(d) => ReasoningText(d)
  }

  function Reasoning(lines: seq<Line>): string {
    if lines == [] then "" else LineReasoning(lines[0]) + Reasoning(lines[1..])
  }

  // The finish reason a line carries, if a receiver would take it over.
  function LineFinish(line: Line): Option<string> {
    if DeltaOf(line).Some? && line.choice.value.finish.Some? && line.choice.value.finish.value != ""
    then line.choice.value.finish else None
  }

  // The last non-empty finish reason.
  function Finish(lines: seq<Line>): Option<string> {
    if lines == [] then None
    else
      var rest := Finish(lines[1..]);
      if rest.Some? then rest else LineFinish(lines[0])
  }

  // A tool call as a receiver assembles it: the first delta of an index fixes the
  // identity, and every delta of that index appends to the arguments.
  datatype Tool = Tool(index: int, id: string, name: string, args: string)

  function Find(tools: seq<Tool>, index: int): (k: nat)
    ensures k <= |tools|
    ensures k < |tools| ==> tools[k].index == index
    ensures forall j :: 0 <= j < k ==> tools[j].index != index
  {
    if tools == [] || tools[0].index == index then 0 else 1 + Find(tools[1..], index)
  }

  lemma FindNumbered(ts: seq<Tool>, k: nat)
    requires k <= |ts| && forall j :: 0 <= j < |ts| ==> ts[j].index == j
    ensures Find(ts, k) == k
  {
    var j := Find(ts, k);
    assert k < |ts| ==> ts[k].index == k;
  }

  function AddTool(tools: seq<Tool>, d: ToolDelta): seq<Tool> {
    if d.index.None? then tools
    else
      var k := Find(tools, d.index.value);
      if k < |tools| then tools[k := tools[k].(args := tools[k].args + d.args)]
      else tools + [Tool(d.index.value, d.id, d.name, d.args)]
  }

  function AddTools(tools: seq<Tool>, ds: seq<ToolDelta>): seq<Tool>
    decreases |ds|
  {
    if ds == [] then tools else AddTools(AddTool(tools, ds[0]), ds[1..])
  }

  function LineTools(tools: seq<Tool>, line: Line): seq<Tool> {
    match DeltaOf(line)
    case None => tools
    case Some(d) => AddTools(tools, d.toolCalls)
  }

  function ToolsFrom(tools: seq<Tool>, lines: seq<Line>): seq<Tool>
    decreases |lines|
  {
    if lines == [] then tools else ToolsFrom(LineTools(tools, lines[0]), lines[1..])
  }

  function Tools(lines: seq<Line>): seq<Tool> {
    ToolsFrom([], lines)
  }

  // The n-th tool of a list under the index n.
  function Renumber(tools: seq<Tool>): (r: seq<Tool>)
    ensures |r| == |tools|
  {
    seq(|tools|, k requires 0 <= k < |tools| => tools[k].(index := k))
  }

  /* ---------- What a delta says ---------- */

  /** The parts of a content are read in order, those without text as nothing, and the reasoning
    * field before its alternative. */
  lemma {:induction false} DeltaRead(d: ChatDelta, a: seq<Option<string>>, text: string, b: seq<Option<string>>)
    ensures JoinParts(a + ([Some(text)] + b)) == JoinParts(a) + (text + JoinParts(b)) && JoinParts([None] + b) == JoinParts(b)
    ensures ReasoningText(d) in {d.reasoning, d.reasoningContent} && (d.reasoning != "" ==> ReasoningText(d) == d.reasoning)
    decreases |a|
  {
    assert ([Some(text)] + b)[1..] == b && ([None] + b)[1..] == b;
    assert "" + JoinParts(b) == JoinParts(b);
    if a == [] {
      assert a + ([Some(text)] + b) == [Some(text)] + b;
    } else {
      assert (a + ([Some(text)] + b))[1..] == a[1..] + ([Some(text)] + b);
      DeltaRead(d, a[1..], text, b);
    }
  }

  /* ---------- Streams in two pieces ---------- */

  lemma {:induction false} TextAppend(a: seq<Line>, b: seq<Line>)
    ensures Text(a + b) == Text(a) + Text(b)
  {
    if a == [] {
      assert a + b == b;
    } else {
      assert (a + b)[1..] == a[1..] + b;
      TextAppend(a[1..], b);
    }
  }

  lemma {:induction false} ReasoningAppend(a: seq<Line>, b: seq<Line>)
    ensures Reasoning(a + b) == Reasoning(a) + Reasoning(b)
  {
    if a == [] {
      assert a + b == b;
    } else {
      assert (a + b)[1..] == a[1..] + b;
      ReasoningAppend(a[1..], b);
    }
  }

  lemma {:induction false} FinishAppend(a: seq<Line>, b: seq<Line>)
    ensures Finish(a + b) == if Finish(b).Some? then Finish(b) else Finish(a)
  {
    if a == [] {
      assert a + b == b;
    } else {
      assert (a + b)[1..] == a[1..] + b;
      FinishAppend(a[1..], b);
    }
  }

  lemma {:induction false} ToolsAppend(tools: seq<Tool>, a: seq<Line>, b: seq<Line>)
    ensures ToolsFrom(tools, a + b) == ToolsFrom(ToolsFrom(tools, a), b)
    decreases |a|
  {
    if a == [] {
      assert a + b == b;
    } else {
      assert (a + b)[1..] == a[1..] + b;
      ToolsAppend(LineTools(tools, a[0]), a[1..], b);
    }
  }
}
