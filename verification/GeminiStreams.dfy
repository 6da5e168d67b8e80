/** The two Gemini translators on whole streams: the Anthropic events are well bracketed,
  * both translators tell their receiver the same, and what they make of the calls.
  */
module GeminiStreams {
  import opened Options
  import opened StreamTypes
  import opened Gemini
  import opened GeminiAgreement
  import opened GeminiMeaning
  import B = Bracketing
  import R = OpenAIToAnthropic
  import RB = ReverseBracketing
  import S = AnthropicToOpenAI
  import RT = StreamRoundTrip

  /* ---------- Bracketing ---------- */

  // ReverseSSEStream on the role chunk and the chunks after it.
  lemma FromRoleChunk(lines: seq<Line>)
    ensures R.Run(R.Init, [RoleChunk] + lines) == [MessageStart("gemini")] + R.Run(R0, lines)
    ensures R.After(R.Init, [RoleChunk] + lines) == R.After(R0, lines)
  {
    assert ([RoleChunk] + lines)[1..] == lines;
    StartAligned();
    assert R.OnDelta(R0, EmptyDelta.(content := Plain(""))) == R.Out(R0, []);
    assert R.OnLine(R.Init, RoleChunk) == R.Out(R0, [MessageStart("gemini")]);
  }

  lemma MiddleIsReverse(encode: Encode, lines: seq<GemLine>)
    ensures var chunks := MiddleChunks(encode, Prefix, lines);
            && RB.NoDone(chunks)
            && MiddleEvents(encode, lines) == R.Run(R0, chunks) + R.StopEvents(R.OpenBlocks(R.After(R0, chunks)))
  {
    StartAligned();
    RunFollows(encode, G0, O0, R0, lines);
    SameBlocks(Run(encode, G0, lines).s, ChunkRun(encode, Prefix, O0, lines).s, R.After(R0, MiddleChunks(encode, Prefix, lines)));
  }

  lemma SameBlocks(g: State, o: ChunkState, r: R.State)
    requires Aligned(g, o, r)
    ensures Blocks(g) == R.OpenBlocks(r)
  {
    assert [] + R.OpenHeads(r) == R.OpenHeads(r);
  }

  // The acceptor looks at neither the message id nor the stop reason.
  lemma SameVerdict(a: string, b: string, middle: seq<Event>, p: Option<string>, q: Option<string>)
    ensures B.CheckAll(B.Fresh, [MessageStart(a)] + (middle + [MessageDelta(p), MessageStop]))
            == B.CheckAll(B.Fresh, [MessageStart(b)] + (middle + [MessageDelta(q), MessageStop]))
  {
    Verdict(a, middle, p);
    Verdict(b, middle, q);
  }

  lemma Verdict(a: string, middle: seq<Event>, p: Option<string>)
    ensures var body := B.CheckAll(B.Body(0, map[]), middle);
            B.CheckAll(B.Fresh, [MessageStart(a)] + (middle + [MessageDelta(p), MessageStop]))
            == B.Check(B.Check(body, MessageDelta(None)), MessageStop)
  {
    var body := B.CheckAll(B.Body(0, map[]), middle);
    B.CheckAppend(B.Fresh, [MessageStart(a)], middle + [MessageDelta(p), MessageStop]);
    B.OneEvent(B.Fresh, MessageStart(a));
    B.CheckAppend(B.Body(0, map[]), middle, [MessageDelta(p), MessageStop]);
    B.TwoEvents(body, MessageDelta(p), MessageStop);
  }

  lemma ReverseOfChunks(chunks: seq<Line>)
    requires RB.NoDone(chunks)
    ensures var r := R.After(R0, chunks);
            var middle := R.Run(R0, chunks) + R.StopEvents(R.OpenBlocks(r));
            B.WellBracketed([MessageStart("gemini")] + (middle + [MessageDelta(Some(R.StopReason(r))), MessageStop]))
  {
    var all := [RoleChunk] + chunks;
    assert all[0].Chunk?;
    RB.ReverseIsWellBracketed(all);
    RT.RunDone(R.Init, all);
    FromRoleChunk(chunks);
    var r := R.After(R0, chunks);
    Regroup(MessageStart("gemini"), R.Run(R0, chunks), R.StopEvents(R.OpenBlocks(r)), [MessageDelta(Some(R.StopReason(r))), MessageStop]);
  }

  lemma MiddleAccepted(encode: Encode, lines: seq<GemLine>, stop: Option<string>)
    ensures var events := [MessageStart("msg_gemini")] + (MiddleEvents(encode, lines) + [MessageDelta(stop), MessageStop]);
            B.WellBracketed(events) && Ignored !in events
  {
    MiddleIsReverse(encode, lines);
    var chunks := MiddleChunks(encode, Prefix, lines);
    var r := R.After(R0, chunks);
    ReverseOfChunks(chunks);
    RB.RunNeverIgnored(R0, chunks);
    var middle := R.Run(R0, chunks) + R.StopEvents(R.OpenBlocks(r));
    assert Ignored !in middle;
    SameVerdict("gemini", "msg_gemini", middle, Some(R.StopReason(r)), stop);
  }

  /** Every Gemini stream with a parsed line becomes a well-bracketed Anthropic stream, and
    * one without becomes nothing at all. */
  lemma GeminiIsWellBracketed(encode: Encode, lines: seq<GemLine>)
    ensures HasResponse(lines) ==> B.WellBracketed(ToAnthropic(encode, lines)) && Ignored !in ToAnthropic(encode, lines)
    ensures !HasResponse(lines) ==> ToAnthropic(encode, lines) == []
  {
    AnthropicStream(encode, lines);
    if HasResponse(lines) {
      MiddleAccepted(encode, lines, Some(StopOf(LastFinish("", lines), Calls(lines) != [])));
    }
  }

  /* ---------- What the receivers are told ---------- */

  // What a receiver of a chunk stream has at the end.
  ghost predicate Has(out: seq<Line>, text: string, tools: seq<Tool>, finish: string) {
    && Text(out) == text && Reasoning(out) == "" && Tools(out) == tools && Finish(out) == Some(finish)
    && |out| > 0 && out[|out| - 1] == Done
  }

  ghost predicate Tells(out: seq<Line>, encode: Encode, prefix: string, lines: seq<GemLine>) {
    Has(out, GemText(lines), Named(encode, prefix, Merge([], Calls(lines))), FinishOf(LastFinish("", lines), Calls(lines) != []))
  }

  lemma ChunksTell(encode: Encode, prefix: string, lines: seq<GemLine>)
    requires HasResponse(lines)
    ensures Tells(ToOpenAI(encode, prefix, lines), encode, prefix, lines)
  {
    OpenAIStream(encode, prefix, lines);
    StartAligned();
    RunConveyed(encode, prefix, O0, [], lines);
    assert Named(encode, prefix, []) == [];
    RT.Sandwich(MsgID, MiddleChunks(encode, prefix, lines), FinishOf(LastFinish("", lines), Calls(lines) != []));
  }

  lemma {:induction false} NoReasoning(lines: seq<Line>)
    requires Reasoning(lines) == ""
    ensures RT.ReasoningUpToText(lines) == ""
  {
    if lines != [] {
      NoReasoning(lines[1..]);
    }
  }

  const S0 := S.Next(S.Init, MessageStart("msg_gemini"))

  // SSEStream on the events between message_start and message_delta.
  lemma MiddleTranslated(encode: Encode, lines: seq<GemLine>)
    ensures var body := S.Run(S0, MiddleEvents(encode, lines));
            && Text(body) == GemText(lines) && Reasoning(body) == "" && RT.AllIDs(body, S0.messageID)
            && ToolsFrom([], body) == Named(encode, Prefix, Merge([], Calls(lines)))
            && S.After(S0, MiddleEvents(encode, lines)).messageID == S0.messageID
  {
    var chunks := MiddleChunks(encode, Prefix, lines);
    MiddleIsReverse(encode, lines);
    StartAligned();
    RunConveyed(encode, Prefix, O0, [], lines);
    assert Named(encode, Prefix, []) == [] && Renumber([]) == [];
    RT.StartRelated(MsgID);
    RT.RunDelivered(R0, S0, [], chunks);
    NoReasoning(chunks);
    var e := R.Run(R0, chunks);
    var blocks := R.OpenBlocks(R.After(R0, chunks));
    S.RunAppend(S0, e, R.StopEvents(blocks));
    RT.StopsAreSilent(S.After(S0, e), blocks);
    assert S.Run(S0, e) + [] == S.Run(S0, e);
  }

  lemma ThroughAnthropic(encode: Encode, lines: seq<GemLine>)
    requires HasResponse(lines)
    ensures Tells(S.Translate(ToAnthropic(encode, lines)), encode, Prefix, lines)
  {
    AnthropicStream(encode, lines);
    MiddleTranslated(encode, lines);
    Observed(ToAnthropic(encode, lines), MiddleEvents(encode, lines), GemText(lines),
             Named(encode, Prefix, Merge([], Calls(lines))), LastFinish("", lines), Calls(lines) != []);
  }

  lemma Observed(events: seq<Event>, middle: seq<Event>, text: string, tools: seq<Tool>, last: string, anyCall: bool)
    requires events == [MessageStart("msg_gemini")] + (middle + [MessageDelta(Some(StopOf(last, anyCall))), MessageStop])
    requires var body := S.Run(S0, middle);
             && Text(body) == text && Reasoning(body) == "" && ToolsFrom([], body) == tools && RT.AllIDs(body, S0.messageID)
             && S.After(S0, middle).messageID == S0.messageID
    ensures Has(S.Translate(events), text, tools, FinishOf(last, anyCall))
  {
    Assembled(middle, StopOf(last, anyCall));
    RT.Sandwich(S0.messageID, S.Run(S0, middle), FinishOf(last, anyCall));
  }

  lemma Assembled(middle: seq<Event>, stop: string)
    requires S.After(S0, middle).messageID == S0.messageID
    ensures S.Translate([MessageStart("msg_gemini")] + (middle + [MessageDelta(Some(stop)), MessageStop]))
            == [S.TextChunk(S0.messageID, "")]
               + (S.Run(S0, middle) + [S.DeltaChunk(S0.messageID, EmptyDelta, S.MapStopReason(Some(stop))), Done])
  {
    var start, a, b := MessageStart("msg_gemini"), MessageDelta(Some(stop)), MessageStop;
    S.RunAppend(S.Init, [start], middle + [a, b]);
    RT.OneEvent(S.Init, start);
    S.RunAppend(S0, middle, [a, b]);
    var s := S.After(S0, middle);
    assert [a, b] == [a] + [b];
    S.RunAppend(s, [a], [b]);
    RT.OneEvent(s, a);
    RT.OneEvent(s, b);
  }

  /** Direct translation to OpenAI chunks and translation by way of Anthropic events tell a
    * receiver the same: text, finish reason, and the merged calls under the same numbers,
    * with ids that differ in their prefix only. */
  lemma BothPathsAgree(encode: Encode, lines: seq<GemLine>)
    ensures HasResponse(lines) ==> Tells(ToOpenAI(encode, "call_", lines), encode, "call_", lines)
    ensures HasResponse(lines) ==> Tells(S.Translate(ToAnthropic(encode, lines)), encode, "toolu_", lines)
    ensures !HasResponse(lines) ==> ToOpenAI(encode, "call_", lines) == [] && S.Translate(ToAnthropic(encode, lines)) == []
  {
    if HasResponse(lines) {
      ChunksTell(encode, "call_", lines);
      ThroughAnthropic(encode, lines);
    } else {
      NothingParsed(encode, "call_", lines);
    }
  }

  /* ---------- What becomes of the calls ---------- */

  ghost predicate DistinctNames(cs: seq<CallRec>) {
    forall j, k :: 0 <= j < k < |cs| ==> cs[j].name != cs[k].name
  }

  // The arguments of all calls of one function, in order.
  function ArgsNamed(cs: seq<CallRec>, name: string): string {
    if cs == [] then "" else (if cs[0].name == name then cs[0].args else "") + ArgsNamed(cs[1..], name)
  }

  lemma {:induction false} ArgsAppend(a: seq<CallRec>, b: seq<CallRec>, name: string)
    ensures ArgsNamed(a + b, name) == ArgsNamed(a, name) + ArgsNamed(b, name)
  {
    if a == [] {
      assert a + b == b;
    } else {
      assert (a + b)[1..] == a[1..] + b;
      ArgsAppend(a[1..], b, name);
    }
  }

  lemma {:induction false} ArgsAbsent(cs: seq<CallRec>, name: string)
    requires forall k :: 0 <= k < |cs| ==> cs[k].name != name
    ensures ArgsNamed(cs, name) == ""
  {
    if cs != [] {
      ArgsAbsent(cs[1..], name);
    }
  }

  // With distinct names there is at most one summand.
  lemma {:induction false} ArgsSingle(cs: seq<CallRec>, k: nat)
    requires DistinctNames(cs) && k < |cs|
    ensures ArgsNamed(cs, cs[k].name) == cs[k].args
  {
    if k == 0 {
      ArgsAbsent(cs[1..], cs[0].name);
    } else {
      ArgsSingle(cs[1..], k - 1);
    }
  }

  lemma AddDistinct(ms: seq<CallRec>, c: CallRec)
    requires DistinctNames(ms)
    ensures DistinctNames(AddCall(ms, c))
    ensures |AddCall(ms, c)| == |ms| + 1 <==> DistinctNames(ms + [c])
    ensures DistinctNames(ms + [c]) ==> AddCall(ms, c) == ms + [c]
  {
    var k := FindName(ms, c.name);
    if k < |ms| {
      assert (ms + [c])[k].name == (ms + [c])[|ms|].name;
    }
  }

  lemma AddArgs(ms: seq<CallRec>, c: CallRec, name: string)
    requires DistinctNames(ms)
    ensures ArgsNamed(AddCall(ms, c), name) == ArgsNamed(ms, name) + if c.name == name then c.args else ""
  {
    var k := FindName(ms, c.name);
    AddDistinct(ms, c);
    if k == |ms| {
      ArgsAppend(ms, [c], name);
      assert [c][1..] == [];
    } else if c.name == name {
      ArgsSingle(ms, k);
      ArgsSingle(AddCall(ms, c), k);
    } else {
      ArgsElsewhere(ms, k, c.args, name);
    }
  }

  lemma {:induction false} ArgsElsewhere(ms: seq<CallRec>, k: nat, more: string, name: string)
    requires k < |ms| && ms[k].name != name
    ensures ArgsNamed(ms[k := ms[k].(args := ms[k].args + more)], name) == ArgsNamed(ms, name)
  {
    var m' := ms[k := ms[k].(args := ms[k].args + more)];
    if k == 0 {
      assert m'[1..] == ms[1..];
    } else {
      assert m'[1..] == ms[1..][k - 1 := m'[k]];
      ArgsElsewhere(ms[1..], k - 1, more, name);
    }
  }

  /** The merged list has one entry a function, and no argument text is lost or moved to
    * another function. */
  lemma {:induction false} MergeKeepsArguments(ms: seq<CallRec>, calls: seq<CallRec>, name: string)
    requires DistinctNames(ms)
    ensures DistinctNames(Merge(ms, calls))
    ensures ArgsNamed(Merge(ms, calls), name) == ArgsNamed(ms, name) + ArgsNamed(calls, name)
    decreases |calls|
  {
    if calls != [] {
      AddDistinct(ms, calls[0]);
      AddArgs(ms, calls[0], name);
      MergeKeepsArguments(AddCall(ms, calls[0]), calls[1..], name);
    }
  }

  lemma {:induction false} MergeSize(ms: seq<CallRec>, calls: seq<CallRec>)
    requires DistinctNames(ms)
    ensures |Merge(ms, calls)| <= |ms| + |calls|
    ensures |Merge(ms, calls)| == |ms| + |calls| <==> DistinctNames(ms + calls)
    ensures DistinctNames(ms + calls) ==> Merge(ms, calls) == ms + calls
    decreases |calls|
  {
    if calls == [] {
      assert ms + calls == ms;
    } else {
      var a := AddCall(ms, calls[0]);
      AddDistinct(ms, calls[0]);
      MergeSize(a, calls[1..]);
      DistinctPrefix(ms, calls);
    }
  }

  lemma DistinctPrefix(ms: seq<CallRec>, calls: seq<CallRec>)
    requires calls != []
    ensures (ms + [calls[0]]) + calls[1..] == ms + calls
    ensures DistinctNames(ms + calls) ==> DistinctNames(ms + [calls[0]])
  {
    assert (ms + calls)[..|ms| + 1] == ms + [calls[0]];
  }

  /** Every function call reaches the receiver as a tool call of its own, with its own
    * arguments, if and only if no two calls of the stream name the same function; calls
    * that share a name arrive as one tool call with their argument texts run together. */
  lemma CallsKeptExactly(encode: Encode, lines: seq<GemLine>)
    requires HasResponse(lines)
    ensures var tools := Tools(ToOpenAI(encode, "call_", lines));
            && (|tools| == |Calls(lines)| <==> DistinctNames(Calls(lines)))
            && (DistinctNames(Calls(lines)) ==> tools == Named(encode, "call_", Calls(lines)))
            && (forall k :: 0 <= k < |tools| ==> tools[k].args == ArgsNamed(Calls(lines), tools[k].name))
  {
    ChunksTell(encode, "call_", lines);
    var calls := Calls(lines);
    MergedSize(calls);
    var ms := Merge([], calls);
    forall k | 0 <= k < |ms|
      ensures Named(encode, "call_", ms)[k].args == ArgsNamed(calls, Named(encode, "call_", ms)[k].name)
    {
      MergedArgs(calls, k);
    }
  }

  lemma MergedSize(calls: seq<CallRec>)
    ensures var ms := Merge([], calls); (|ms| == |calls| <==> DistinctNames(calls)) && (DistinctNames(calls) ==> ms == calls)
  {
    MergeSize([], calls);
    assert [] + calls == calls;
  }

  lemma MergedArgs(calls: seq<CallRec>, k: nat)
    requires k < |Merge([], calls)|
    ensures var ms := Merge([], calls); ms[k].args == ArgsNamed(calls, ms[k].name)
  {
    var ms := Merge([], calls);
    MergeKeepsArguments([], calls, ms[k].name);
    ArgsSingle(ms, k);
    assert ArgsNamed([], ms[k].name) == "";
  }
}
