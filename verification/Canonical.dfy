/** The non-streaming path from an Anthropic response to an OpenAI response, through the
  * canonical form (internal/translate/canonical_anthropic.go, canonical_openai.go). A tool
  * input is its JSON text; None is a nil input.
  */
module Canonical {
  import opened Options
  import opened Sequences
  import opened StreamTypes
  import opened Strings

  type Json = s: string | s != "" witness "{}"

  /* ---------- Anthropic response ---------- */

  datatype Block =
    | TextBlock(text: string)
    | ThinkingBlock(thinking: string)
    | ToolBlock(id: string, name: string, input: Option<Json>)
    | OtherBlock(kind: string, text: string)

  datatype Response = Response(id: string, content: seq<Block>, stopReason: Option<string>)

  /* ---------- Canonical response ---------- */

  datatype StopReason = EndTurn | MaxTokens | ToolUse | StopSequence | ContentFilter | Unset | Unknown

  datatype CanonicalBlock =
    | BlockText(text: string)
    | BlockThinking(thinking: string)
    | BlockRefusal(refusal: string)
    | BlockToolUse(id: string, name: string, input: Option<Json>)

  datatype CanonicalResponse = CanonicalResponse(id: string, content: seq<CanonicalBlock>,
                                                 stopReason: StopReason, raw: Option<string>)

  function StopReasonToCanonical(stopReason: Option<string>): (StopReason, Option<string>) {
    if stopReason.None? then (Unset, None)
    else
      var r := stopReason.value;
      if r == "max_tokens" then (MaxTokens, None)
      else if r == "tool_use" then (ToolUse, None)
      else if r == "stop_sequence" then (StopSequence, None)
      else if r == "end_turn" then (EndTurn, None)
      else (Unknown, stopReason)
  }

  function BlockToCanonical(b: Block): seq<CanonicalBlock> {
    match b
    case TextBlock(text) => [BlockText(text)]
    case ThinkingBlock(thinking) => [BlockThinking(thinking)]
    case ToolBlock(id, name, input) => [BlockToolUse(id, name, input)]
    case OtherBlock(_, _) => []
  }

  function BlocksToCanonical(bs: seq<Block>): seq<CanonicalBlock> {
    if bs == [] then [] else BlockToCanonical(bs[0]) + BlocksToCanonical(bs[1..])
  }

  function ToCanonical(r: Response): CanonicalResponse {
    var (stop, raw) := StopReasonToCanonical(r.stopReason);
    CanonicalResponse(r.id, BlocksToCanonical(r.content), stop, raw)
  }

  lemma BlockStep(bs: seq<Block>, n: nat, content: seq<CanonicalBlock>)
    requires n < |bs| && BlocksToCanonical(bs) == content + BlocksToCanonical(bs[n..])
    ensures BlocksToCanonical(bs) == (content + BlockToCanonical(bs[n])) + BlocksToCanonical(bs[n + 1..])
  {
    BlocksFrom(bs, n);
    Assoc(content, BlockToCanonical(bs[n]), BlocksToCanonical(bs[n + 1..]));
  }

  lemma BlocksFrom(bs: seq<Block>, n: nat)
    requires n < |bs|
    ensures BlocksToCanonical(bs[n..]) == BlockToCanonical(bs[n]) + BlocksToCanonical(bs[n + 1..])
  {
    assert bs[n..][1..] == bs[n + 1..];
  }

  method AnthropicResponseToCanonical(r: Response) returns (canon: CanonicalResponse)
    ensures canon == ToCanonical(r)
  {
    var content: seq<CanonicalBlock> := [];
    assert r.content[0..] == r.content;
    for n := 0 to |r.content|
      invariant BlocksToCanonical(r.content) == content + BlocksToCanonical(r.content[n..])
    {
      BlockStep(r.content, n, content);
      ghost var before := content;
      match r.content[n] {
        case TextBlock(text) => content := content + [BlockText(text)];
        case ThinkingBlock(thinking) => content := content + [BlockThinking(thinking)];
        case ToolBlock(id, name, input) => content := content + [BlockToolUse(id, name, input)];
        case OtherBlock(_, _) =>
      }
      assert content == before + BlockToCanonical(r.content[n]);
    }
    var (stop, raw) := StopReasonToCanonical(r.stopReason);
    canon := CanonicalResponse(r.id, content, stop, raw);
  }

  /* ---------- OpenAI response ---------- */

  datatype Call = Call(id: string, name: string, args: string)

  datatype Message = Message(id: string, content: Option<string>, refusal: string, reasoningContent: Option<string>,
                             toolCalls: seq<Call>, finish: Option<string>)

  function MarshalToolInput(input: Option<Json>): string {
    if input.None? then "{}" else input.value
  }

  function StopReasonToFinish(s: StopReason): Option<string> {
    match s
    case Unset => None
    case MaxTokens => Some("length")
    case ToolUse => Some("tool_calls")
    case ContentFilter => Some("content_filter")
    case _ => Some("stop")
  }

  function TextParts(cs: seq<CanonicalBlock>): seq<string> {
    if cs == [] then [] else (if cs[0].BlockText? then [cs[0].text] else []) + TextParts(cs[1..])
  }

  function ThinkingParts(cs: seq<CanonicalBlock>): seq<string> {
    if cs == [] then [] else (if cs[0].BlockThinking? then [cs[0].thinking] else []) + ThinkingParts(cs[1..])
  }

  // The last refusal wins.
  function Refusal(cs: seq<CanonicalBlock>, before: string): string
    decreases |cs|
  {
    if cs == [] then before else Refusal(cs[1..], if cs[0].BlockRefusal? then cs[0].refusal else before)
  }

  function ToolCalls(cs: seq<CanonicalBlock>): seq<Call> {
    if cs == [] then []
    else (if cs[0].BlockToolUse? then [Call(cs[0].id, cs[0].name, MarshalToolInput(cs[0].input))] else []) + ToolCalls(cs[1..])
  }

  function ToOpenAI(c: CanonicalResponse): Message {
    var texts, thinkings := TextParts(c.content), ThinkingParts(c.content);
    Message("chatcmpl-" + c.id,
            if |texts| > 0 then Some(Join(texts, "")) else None,
            Refusal(c.content, ""),
            if |thinkings| > 0 then Some(Join(thinkings, "\n\n")) else None,
            ToolCalls(c.content),
            if c.stopReason == Unknown && c.raw.Some? then c.raw else StopReasonToFinish(c.stopReason))
  }

  // What the loop over the content has collected, and what the rest will add.
  ghost predicate Collected(cs: seq<CanonicalBlock>, n: nat, texts: seq<string>, thinkings: seq<string>,
                            refusal: string, calls: seq<Call>)
    requires n <= |cs|
  {
    && TextParts(cs) == texts + TextParts(cs[n..])
    && ThinkingParts(cs) == thinkings + ThinkingParts(cs[n..])
    && Refusal(cs, "") == Refusal(cs[n..], refusal)
    && ToolCalls(cs) == calls + ToolCalls(cs[n..])
  }

  lemma CollectedStep(cs: seq<CanonicalBlock>, n: nat, texts: seq<string>, thinkings: seq<string>,
                      refusal: string, calls: seq<Call>)
    requires n < |cs| && Collected(cs, n, texts, thinkings, refusal, calls)
    ensures cs[n].BlockText? ==> Collected(cs, n + 1, texts + [cs[n].text], thinkings, refusal, calls)
    ensures cs[n].BlockThinking? ==> Collected(cs, n + 1, texts, thinkings + [cs[n].thinking], refusal, calls)
    ensures cs[n].BlockRefusal? ==> Collected(cs, n + 1, texts, thinkings, cs[n].refusal, calls)
    ensures cs[n].BlockToolUse?
            ==> Collected(cs, n + 1, texts, thinkings, refusal, calls + [Call(cs[n].id, cs[n].name, MarshalToolInput(cs[n].input))])
  {
    assert cs[n..][1..] == cs[n + 1..];
  }

  lemma CollectedEnd(cs: seq<CanonicalBlock>, texts: seq<string>, thinkings: seq<string>, refusal: string, calls: seq<Call>)
    requires Collected(cs, |cs|, texts, thinkings, refusal, calls)
    ensures texts == TextParts(cs) && thinkings == ThinkingParts(cs) && refusal == Refusal(cs, "") && calls == ToolCalls(cs)
  {
    assert cs[|cs|..] == [];
  }

  method CanonicalToOpenAIResponse(c: CanonicalResponse) returns (m: Message)
    ensures m == ToOpenAI(c)
  {
    var textParts: seq<string>, thinkingParts: seq<string>, refusal, toolCalls: seq<Call> := [], [], "", [];
    assert c.content[0..] == c.content;
    for n := 0 to |c.content|
      invariant Collected(c.content, n, textParts, thinkingParts, refusal, toolCalls)
    {
      CollectedStep(c.content, n, textParts, thinkingParts, refusal, toolCalls);
      match c.content[n] {
        case BlockText(text) => textParts := textParts + [text];
        case BlockThinking(thinking) => thinkingParts := thinkingParts + [thinking];
        case BlockRefusal(r) => refusal := r;
        case BlockToolUse(id, name, input) => toolCalls := toolCalls + [Call(id, name, MarshalToolInput(input))];
      }
    }
    CollectedEnd(c.content, textParts, thinkingParts, refusal, toolCalls);
    var content: Option<string>, reasoning: Option<string> := None, None;
    if |textParts| > 0 {
      content := Some(Join(textParts, ""));
    }
    if |thinkingParts| > 0 {
      reasoning := Some(Join(thinkingParts, "\n\n"));
    }
    var finish := StopReasonToFinish(c.stopReason);
    if c.stopReason == Unknown && c.raw.Some? {
      finish := c.raw;
    }
    m := Message("chatcmpl-" + c.id, content, refusal, reasoning, toolCalls, finish);
  }

  /** The whole non-streaming translation. */
  function NonStreaming(r: Response): Message {
    ToOpenAI(ToCanonical(r))
  }

  function MessageText(m: Message): string {
    if m.content.Some? then m.content.value else ""
  }

  /* ---------- The translation in terms of the response's own blocks ---------- */

  function PlainText(bs: seq<Block>): string {
    if bs == [] then "" else (if bs[0].TextBlock? then bs[0].text else "") + PlainText(bs[1..])
  }

  // The texts of blocks that are neither text, thinking nor tool_use.
  function OtherText(bs: seq<Block>): string {
    if bs == [] then "" else (if bs[0].OtherBlock? then bs[0].text else "") + OtherText(bs[1..])
  }

  function CallOf(b: Block): seq<Call> {
    if b.ToolBlock? then [Call(b.id, b.name, MarshalToolInput(b.input))] else []
  }

  function CallsOf(bs: seq<Block>): seq<Call> {
    if bs == [] then [] else CallOf(bs[0]) + CallsOf(bs[1..])
  }

  predicate HasText(bs: seq<Block>) {
    exists k :: 0 <= k < |bs| && bs[k].TextBlock?
  }

  // The thinking blocks in order, an empty line between them; none if there is no such block.
  function Thinking(bs: seq<Block>): Option<string> {
    if bs == [] then None
    else
      var rest := Thinking(bs[1..]);
      if !bs[0].ThinkingBlock? then rest
      else Some(if rest.None? then bs[0].thinking else bs[0].thinking + ("\n\n" + rest.value))
  }

  lemma JoinCons(x: string, parts: seq<string>)
    ensures Join([x] + parts, "") == x + Join(parts, "")
  {
    assert ([x] + parts)[1..] == parts;
    assert x + "" == x && "" + Join(parts, "") == Join(parts, "");
  }

  lemma TextPartsOfBlock(b: Block, tail: seq<CanonicalBlock>)
    ensures TextParts(BlockToCanonical(b) + tail) == (if b.TextBlock? then [b.text] else []) + TextParts(tail)
    ensures ThinkingParts(BlockToCanonical(b) + tail) == (if b.ThinkingBlock? then [b.thinking] else []) + ThinkingParts(tail)
    ensures ToolCalls(BlockToCanonical(b) + tail) == CallOf(b) + ToolCalls(tail)
    ensures Refusal(BlockToCanonical(b) + tail, "") == Refusal(tail, "")
  {
    var head := BlockToCanonical(b);
    if head == [] {
      assert head + tail == tail;
    } else {
      assert (head + tail)[1..] == tail;
    }
  }

  lemma {:induction false} CanonicalPieces(bs: seq<Block>)
    ensures Join(TextParts(BlocksToCanonical(bs)), "") == PlainText(bs)
    ensures ToolCalls(BlocksToCanonical(bs)) == CallsOf(bs)
    ensures Refusal(BlocksToCanonical(bs), "") == ""
  {
    if bs != [] {
      var tail := BlocksToCanonical(bs[1..]);
      CanonicalPieces(bs[1..]);
      TextPartsOfBlock(bs[0], tail);
      if bs[0].TextBlock? {
        JoinCons(bs[0].text, TextParts(tail));
      } else {
        assert [] + TextParts(tail) == TextParts(tail);
      }
    }
  }

  lemma {:induction false} TextPartsAny(bs: seq<Block>)
    ensures TextParts(BlocksToCanonical(bs)) != [] <==> HasText(bs)
  {
    if bs != [] {
      TextPartsAny(bs[1..]);
      TextPartsOfBlock(bs[0], BlocksToCanonical(bs[1..]));
      assert forall k :: 0 < k < |bs| ==> bs[k] == bs[1..][k - 1];
      if HasText(bs[1..]) {
        var k :| 0 <= k < |bs| - 1 && bs[1..][k].TextBlock?;
        assert bs[k + 1].TextBlock?;
      }
    }
  }

  function Joined(parts: seq<string>): Option<string> {
    if parts == [] then None else Some(Join(parts, "\n\n"))
  }

  lemma JoinedCons(x: string, parts: seq<string>)
    ensures Joined([x] + parts) == Some(if parts == [] then x else x + ("\n\n" + Join(parts, "\n\n")))
  {
    assert ([x] + parts)[1..] == parts;
  }

  lemma {:induction false} ThinkingJoined(bs: seq<Block>)
    ensures Joined(ThinkingParts(BlocksToCanonical(bs))) == Thinking(bs)
  {
    if bs != [] {
      var tail := BlocksToCanonical(bs[1..]);
      ThinkingJoined(bs[1..]);
      TextPartsOfBlock(bs[0], tail);
      if bs[0].ThinkingBlock? {
        JoinedCons(bs[0].thinking, ThinkingParts(tail));
      } else {
        assert [] + ThinkingParts(tail) == ThinkingParts(tail);
      }
    }
  }

  // The finish reason of an OpenAI client for a stop reason of Anthropic's.
  predicate FinishFor(stopReason: Option<string>, finish: Option<string>) {
    match stopReason
    case None => finish == None
    case Some(r) =>
      && (r == "end_turn" || r == "stop_sequence" ==> finish == Some("stop"))
      && (r == "max_tokens" ==> finish == Some("length"))
      && (r == "tool_use" ==> finish == Some("tool_calls"))
      && (r !in {"end_turn", "stop_sequence", "max_tokens", "tool_use"} ==> finish == Some(r))
  }

  /** The translated message: the response's id after "chatcmpl-"; the text blocks in order,
    * and no content at all if there is none; the thinking blocks in order with an empty line
    * between them; one call per tool_use block; no refusal; and the finish reason for the
    * stop reason, an unknown one as it is. */
  lemma NonStreamingMeaning(r: Response)
    ensures var m := NonStreaming(r);
            && m.id == "chatcmpl-" + r.id
            && MessageText(m) == PlainText(r.content) && (m.content.Some? <==> HasText(r.content))
            && m.reasoningContent == Thinking(r.content)
            && m.toolCalls == CallsOf(r.content)
            && m.refusal == ""
            && FinishFor(r.stopReason, m.finish)
  {
    CanonicalPieces(r.content);
    TextPartsAny(r.content);
    ThinkingJoined(r.content);
  }
}
