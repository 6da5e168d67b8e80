/** Thought signatures in translated Gemini streams: each tool call's id gives the signature
  * back that came with the first call of its function.
  */
module GeminiSignatures {
  import opened StreamTypes
  import opened Gemini
  import opened GeminiMeaning
  import opened GeminiStreams
  import opened ToolCallIDs
  import SqlLiterals

  predicate HasName(cs: seq<CallRec>, name: string) {
    exists k :: 0 <= k < |cs| && cs[k].name == name
  }

  // The first call of each function, in the order of the stream.
  function Firsts(calls: seq<CallRec>): seq<CallRec> {
    if calls == [] then []
    else
      var before, c := Firsts(calls[..|calls| - 1]), calls[|calls| - 1];
      if HasName(before, c.name) then before else before + [c]
  }

  // The same functions with the same signatures.
  predicate Alike(ms: seq<CallRec>, cs: seq<CallRec>) {
    |ms| == |cs| && forall k :: 0 <= k < |ms| ==> ms[k].name == cs[k].name && ms[k].signature == cs[k].signature
  }

  lemma AddAlike(ms: seq<CallRec>, cs: seq<CallRec>, c: CallRec)
    requires Alike(ms, cs)
    ensures Alike(AddCall(ms, c), if HasName(cs, c.name) then cs else cs + [c])
  {
    var k := FindName(ms, c.name);
    assert k < |ms| ==> cs[k].name == c.name;
    if HasName(cs, c.name) {
      var j :| 0 <= j < |cs| && cs[j].name == c.name;
      assert ms[j].name == c.name;
    }
  }

  lemma {:induction false} MergedAlike(calls: seq<CallRec>)
    ensures Alike(Merge([], calls), Firsts(calls))
    decreases |calls|
  {
    if calls != [] {
      var pre, c := calls[..|calls| - 1], calls[|calls| - 1];
      MergedAlike(pre);
      assert calls == pre + [c];
      MergeAppend([], pre, [c]);
      MergeOne(Merge([], pre), c);
      AddAlike(Merge([], pre), Firsts(pre), c);
    }
  }

  // The encoding of the source, on signatures that are byte strings.
  ghost predicate EncodesSignatures(encode: Encode) {
    forall id, signature :: SqlLiterals.IsBytes(signature) ==> encode(id, signature) == EncodeToolCallID(id, signature)
  }

  predicate HasBytes(calls: seq<CallRec>) {
    forall k :: 0 <= k < |calls| ==> SqlLiterals.IsBytes(calls[k].signature)
  }

  lemma {:induction false} FirstsHaveBytes(calls: seq<CallRec>)
    requires HasBytes(calls)
    ensures HasBytes(Firsts(calls))
  {
    if calls != [] {
      FirstsHaveBytes(calls[..|calls| - 1]);
    }
  }

  lemma IdOf(encode: Encode, ms: seq<CallRec>, cs: seq<CallRec>, k: nat)
    requires Alike(ms, cs) && EncodesSignatures(encode) && HasBytes(cs) && k < |ms|
    ensures var tool := Named(encode, "call_", ms)[k];
            tool.name == cs[k].name && tool.id == EncodeToolCallID("call_" + SixDigits(k), cs[k].signature)
  {
    assert ms[k].signature == cs[k].signature && SqlLiterals.IsBytes(cs[k].signature);
  }

  lemma IdsRead(encode: Encode, ms: seq<CallRec>, cs: seq<CallRec>, calls: seq<CallRec>, k: nat, j: nat)
    requires Alike(ms, cs) && EncodesSignatures(encode) && cs == Firsts(calls) && HasBytes(calls)
    ensures var tools := Named(encode, "call_", ms);
            && (k < |ms| ==> tools[k].name == cs[k].name && DecodeToolCallID(tools[k].id) == ("call_" + SixDigits(k), cs[k].signature))
            && (j < k < |ms| ==> tools[j].id != tools[k].id)
  {
    FirstsHaveBytes(calls);
    if k < |ms| {
      IdOf(encode, ms, cs, k);
      StreamIdsRead("call_", k, cs[k].signature, k, "");
      if j < k {
        IdOf(encode, ms, cs, j);
        StreamIdsRead("call_", k, cs[k].signature, j, cs[j].signature);
      }
    }
  }

  /** The tool calls of the chunk stream are the functions in the order of their first calls;
    * the id of each gives back its own number and the signature of that first call; and no two
    * have the same id. */
  lemma SignaturesKept(encode: Encode, lines: seq<GemLine>, k: nat, j: nat)
    requires HasResponse(lines) && EncodesSignatures(encode) && HasBytes(Calls(lines))
    ensures var tools, firsts := Tools(ToOpenAI(encode, "call_", lines)), Firsts(Calls(lines));
            && |tools| == |firsts|
            && (k < |tools| ==> tools[k].name == firsts[k].name
                                && DecodeToolCallID(tools[k].id) == ("call_" + SixDigits(k), firsts[k].signature))
            && (j < k < |tools| ==> tools[j].id != tools[k].id)
  {
    ChunksTell(encode, "call_", lines);
    MergedAlike(Calls(lines));
    IdsRead(encode, Merge([], Calls(lines)), Firsts(Calls(lines)), Calls(lines), k, j);
  }
}
