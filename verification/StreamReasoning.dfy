/** Reasoning on the two paths from Anthropic to OpenAI: what the streamed chunks carry of
  * the thinking blocks, what the non-streaming message says of them, and exactly when the two
  * are the same.
  */
module StreamReasoning {
  import opened Options
  import opened Sequences
  import opened StreamTypes
  import opened AnthropicToOpenAI
  import opened Canonical
  import opened StreamAgreement
  import T = TextOrder

  /* ---------- The thinking of an event stream ---------- */

  function ThinkingOf(e: Event): string {
    if e.Delta? && e.delta.ThinkingDelta? then e.delta.thinking else ""
  }

  function AllThinking(events: seq<Event>): string {
    if events == [] then "" else ThinkingOf(events[0]) + AllThinking(events[1..])
  }

  // The thinking that comes before the first text block is started.
  function EarlyThinking(events: seq<Event>): string {
    if events == [] || (events[0].BlockStart? && events[0].head.TextHead?) then ""
    else ThinkingOf(events[0]) + EarlyThinking(events[1..])
  }

  function ThinkingStarts(events: seq<Event>): nat {
    if events == [] then 0
    else (if events[0].BlockStart? && events[0].head.ThinkingHead? then 1 else 0) + ThinkingStarts(events[1..])
  }

  /* ---------- The streamed chunks ---------- */

  predicate AllIDs(lines: seq<Line>, id: string) {
    forall k :: 0 <= k < |lines| && lines[k].Chunk? ==> lines[k].id == id
  }

  // The message id is known once message_start has come.
  predicate Named(s: State, p: Phase, m: Draft) {
    if p.Fresh? then !s.sentInitial else s.messageID == "chatcmpl-" + m.id
  }

  lemma DeltaReasoning(s: State, p: Phase, ks: seq<(int, BlockHead)>, i: int, d: BlockDelta)
    requires p.Body? && InBody(s, p, ks) && i in p.open && Fits(p.open[i], d)
    ensures Reasoning(Emit(s, Delta(i, d))) == if s.textSeen then "" else ThinkingOf(Delta(i, d))
  {
    var pos: nat :| OpenAt(s, p, ks, i, pos);
    OneReasoning(Emit(s, Delta(i, d)));
  }

  lemma OneReasoning(lines: seq<Line>)
    requires |lines| <= 1
    ensures Reasoning(lines) == if lines == [] then "" else LineReasoning(lines[0])
  {
    if lines != [] {
      assert lines[1..] == [];
      assert LineReasoning(lines[0]) + "" == LineReasoning(lines[0]);
    }
  }

  lemma StepReasoning(s: State, p: Phase, m: Draft, out: seq<Line>, ds: seq<T.Piece>, e: Event)
    requires Together(s, p, m, out, ds) && Check(p, e) != Broken
    ensures Reasoning(Emit(s, e)) == if s.textSeen then "" else ThinkingOf(e)
    ensures Next(s, e).textSeen == (s.textSeen || (e.BlockStart? && e.head.TextHead?))
  {
    if e.Delta? {
      DeltaReasoning(s, p, Keys(m.entries), e.index, e.delta);
    } else {
      OneReasoning(Emit(s, e));
    }
  }

  lemma StepNamed(s: State, p: Phase, m: Draft, e: Event)
    requires Named(s, p, m) && Check(p, e) != Broken
    ensures Named(Next(s, e), Check(p, e), ReplayStep(m, e))
    ensures !Check(p, e).Fresh? ==> AllIDs(Emit(s, e), "chatcmpl-" + ReplayStep(m, e).id)
    ensures Check(p, e).Fresh? ==> Emit(s, e) == []
    ensures !p.Fresh? ==> ReplayStep(m, e).id == m.id
  {
  }

  lemma AppendIDs(a: seq<Line>, b: seq<Line>, id: string)
    requires AllIDs(a, id) && AllIDs(b, id)
    ensures AllIDs(a + b, id)
  {
  }

  lemma {:induction false} RunReasoning(s: State, p: Phase, m: Draft, out: seq<Line>, ds: seq<T.Piece>, events: seq<Event>)
    requires Joint(s, p, m, out, ds) && CheckAll(p, events) == Finished
    ensures Reasoning(Run(s, events)) == if s.textSeen then "" else EarlyThinking(events)
    decreases |events|
  {
    if events != [] {
      var e := events[0];
      if Check(p, e) == Broken {
        BrokenStays(events[1..]);
      } else {
        JointStep(s, p, m, out, ds, e);
        StepReasoning(s, p, m, out, ds, e);
        RunReasoning(Next(s, e), Check(p, e), ReplayStep(m, e), out + Emit(s, e), ds + PiecesOf(p, e), events[1..]);
        ReasoningAppend(Emit(s, e), Run(Next(s, e), events[1..]));
      }
    }
  }

  lemma {:induction false} RunNamed(s: State, p: Phase, m: Draft, events: seq<Event>)
    requires Named(s, p, m) && CheckAll(p, events) == Finished
    ensures AllIDs(Run(s, events), "chatcmpl-" + ReplayFrom(m, events).id)
    ensures !p.Fresh? ==> ReplayFrom(m, events).id == m.id
    decreases |events|
  {
    if events != [] {
      var e := events[0];
      if Check(p, e) == Broken {
        BrokenStays(events[1..]);
      } else {
        StepNamed(s, p, m, e);
        RunNamed(Next(s, e), Check(p, e), ReplayStep(m, e), events[1..]);
        AppendIDs(Emit(s, e), Run(Next(s, e), events[1..]), "chatcmpl-" + ReplayFrom(m, events).id);
      }
    }
  }

  /* ---------- The replayed message ---------- */

  function ThoughtOf(e: Entry): string {
    if e.head.ThinkingHead? then e.thinking else ""
  }

  // The thinking of the entries, in the order of the blocks.
  function Thoughts(es: seq<Entry>): string {
    if es == [] then "" else ThoughtOf(es[0]) + Thoughts(es[1..])
  }

  function ThinkingCount(es: seq<Entry>): nat {
    if es == [] then 0 else (if es[0].head.ThinkingHead? then 1 else 0) + ThinkingCount(es[1..])
  }

  lemma {:induction false} ThoughtsAppend(a: seq<Entry>, b: seq<Entry>)
    ensures Thoughts(a + b) == Thoughts(a) + Thoughts(b)
    decreases |a|
  {
    if a == [] {
      assert a + b == b;
    } else {
      assert (a + b)[1..] == a[1..] + b;
      ThoughtsAppend(a[1..], b);
      Assoc(ThoughtOf(a[0]), Thoughts(a[1..]), Thoughts(b));
    }
  }

  lemma {:induction false} CountAppend(a: seq<Entry>, b: seq<Entry>)
    ensures ThinkingCount(a + b) == ThinkingCount(a) + ThinkingCount(b)
    decreases |a|
  {
    if a == [] {
      assert a + b == b;
    } else {
      assert (a + b)[1..] == a[1..] + b;
      CountAppend(a[1..], b);
    }
  }

  lemma {:induction false} NoThoughts(es: seq<Entry>)
    requires ThinkingCount(es) == 0
    ensures Thoughts(es) == ""
  {
    if es != [] {
      NoThoughts(es[1..]);
    }
  }

  lemma OneThought(e: Entry)
    ensures Thoughts([e]) == ThoughtOf(e) && ThinkingCount([e]) == if e.head.ThinkingHead? then 1 else 0
  {
    assert [e][1..] == [] && Thoughts([]) == "";
    assert ThoughtOf(e) + "" == ThoughtOf(e);
  }

  lemma ThoughtsAround(a: seq<Entry>, e: Entry, b: seq<Entry>)
    ensures var es := a + ([e] + b);
            && |Thoughts(es)| == |Thoughts(a)| + |ThoughtOf(e)| + |Thoughts(b)|
            && ThinkingCount(es) == ThinkingCount(a) + (if e.head.ThinkingHead? then 1 else 0) + ThinkingCount(b)
            && (e.head.ThinkingHead? && ThinkingCount(es) <= 1 ==> Thoughts(es) == ThoughtOf(e))
            && (!e.head.ThinkingHead? ==> Thoughts(es) == Thoughts(a) + Thoughts(b))
  {
    ThoughtsAppend(a, [e] + b);
    ThoughtsAppend([e], b);
    CountAppend(a, [e] + b);
    CountAppend([e], b);
    OneThought(e);
    if ThinkingCount(a) == 0 {
      NoThoughts(a);
    }
    if ThinkingCount(b) == 0 {
      NoThoughts(b);
    }
    assert "" + (ThoughtOf(e) + "") == ThoughtOf(e) && "" + Thoughts(b) == Thoughts(b);
  }

  lemma ThoughtAdded(es: seq<Entry>, pos: nat, d: BlockDelta)
    requires pos < |es| && Fits(KindOf(es[pos].head), d)
    ensures var fs := es[pos := AddDelta(es[pos], d)]; var more := if d.ThinkingDelta? then d.thinking else "";
            && ThinkingCount(fs) == ThinkingCount(es) && |Thoughts(fs)| == |Thoughts(es)| + |more|
            && (ThinkingCount(es) <= 1 ==> Thoughts(fs) == Thoughts(es) + more)
  {
    var f := AddDelta(es[pos], d);
    assert es == es[..pos] + ([es[pos]] + es[pos + 1..]) && es[pos := f] == es[..pos] + ([f] + es[pos + 1..]);
    ThoughtsAround(es[..pos], es[pos], es[pos + 1..]);
    ThoughtsAround(es[..pos], f, es[pos + 1..]);
  }

  // The entries hold all the thinking that has come, and in order if there is only one block
  // of it.
  predicate HoldsThinking(es: seq<Entry>, thinking: string) {
    |Thoughts(es)| == |thinking| && (ThinkingCount(es) <= 1 ==> Thoughts(es) == thinking)
  }

  lemma DeltaThinks(s: State, p: Phase, m: Draft, i: int, d: BlockDelta, so: string)
    requires p.Body? && InBody(s, p, Keys(m.entries)) && i in p.open && Fits(p.open[i], d) && HoldsThinking(m.entries, so)
    ensures HoldsThinking(ReplayStep(m, Delta(i, d)).entries, so + ThinkingOf(Delta(i, d)))
    ensures ThinkingCount(ReplayStep(m, Delta(i, d)).entries) == ThinkingCount(m.entries)
  {
    var pos: nat :| OpenAt(s, p, Keys(m.entries), i, pos);
    DeltaReplayed(p, m, i, d, pos, s);
    ThoughtAdded(m.entries, pos, d);
  }

  lemma StepThinks(s: State, p: Phase, m: Draft, out: seq<Line>, ds: seq<T.Piece>, e: Event, so: string)
    requires Together(s, p, m, out, ds) && Check(p, e) != Broken && HoldsThinking(m.entries, so)
    ensures HoldsThinking(ReplayStep(m, e).entries, so + ThinkingOf(e))
    ensures ThinkingCount(ReplayStep(m, e).entries)
            == ThinkingCount(m.entries) + if e.BlockStart? && e.head.ThinkingHead? then 1 else 0
  {
    assert so + "" == so;
    if e.Delta? {
      DeltaThinks(s, p, m, e.index, e.delta, so);
    } else if e.BlockStart? {
      StartThinks(m.entries, Entry(e.index, e.head, "", "", ""), so);
    }
  }

  lemma StartThinks(es: seq<Entry>, e: Entry, so: string)
    requires HoldsThinking(es, so) && e.thinking == ""
    ensures HoldsThinking(es + [e], so)
    ensures ThinkingCount(es + [e]) == ThinkingCount(es) + if e.head.ThinkingHead? then 1 else 0
  {
    ThoughtsAppend(es, [e]);
    CountAppend(es, [e]);
    assert [e][1..] == [];
    assert Thoughts([e]) == "" && Thoughts(es) + "" == Thoughts(es);
  }

  lemma {:induction false} RunThinks(s: State, p: Phase, m: Draft, out: seq<Line>, ds: seq<T.Piece>, events: seq<Event>, so: string)
    requires Joint(s, p, m, out, ds) && CheckAll(p, events) == Finished && HoldsThinking(m.entries, so)
    ensures HoldsThinking(ReplayFrom(m, events).entries, so + AllThinking(events))
    ensures ThinkingCount(ReplayFrom(m, events).entries) == ThinkingCount(m.entries) + ThinkingStarts(events)
    decreases |events|
  {
    if events == [] {
      assert so + "" == so;
    } else {
      var e := events[0];
      if Check(p, e) == Broken {
        BrokenStays(events[1..]);
      } else {
        JointStep(s, p, m, out, ds, e);
        StepThinks(s, p, m, out, ds, e, so);
        RunThinks(Next(s, e), Check(p, e), ReplayStep(m, e), out + Emit(s, e), ds + PiecesOf(p, e), events[1..], so + ThinkingOf(e));
        Assoc(so, ThinkingOf(e), AllThinking(events[1..]));
      }
    }
  }

  /* ---------- The two together ---------- */

  lemma {:induction false} EarlyIsPrefix(events: seq<Event>)
    ensures |EarlyThinking(events)| <= |AllThinking(events)|
  {
    if events != [] {
      EarlyIsPrefix(events[1..]);
    }
  }

  // A message without a thinking block has no reasoning; with n of them it has all of their
  // thinking and n - 1 empty lines.
  lemma {:induction false} ThinkingSize(es: seq<Entry>)
    ensures Thinking(ToBlocks(es)) == None <==> ThinkingCount(es) == 0
    ensures ThinkingCount(es) > 0 ==> |Thinking(ToBlocks(es)).value| == |Thoughts(es)| + 2 * (ThinkingCount(es) - 1)
    ensures ThinkingCount(es) == 1 ==> Thinking(ToBlocks(es)) == Some(Thoughts(es))
  {
    if es != [] {
      ThinkingSize(es[1..]);
      assert ToBlocks(es)[1..] == ToBlocks(es[1..]) && ToBlocks(es)[0] == ToBlock(es[0]);
      if ThinkingCount(es[1..]) == 0 {
        NoThoughts(es[1..]);
        assert ThoughtOf(es[0]) + "" == ThoughtOf(es[0]);
      }
      assert "" + Thoughts(es[1..]) == Thoughts(es[1..]);
    }
  }

  function ReasoningOf(m: Message): string {
    if m.reasoningContent.Some? then m.reasoningContent.value else ""
  }

  /** For every well-formed stream, all chunks carry the id of the non-streaming message, and
    * their reasoning is the thinking that comes before the first text block is started. The
    * non-streaming message joins all thinking blocks with empty lines between them, so the two
    * have the same reasoning if and only if there is at most one thinking block and none of its
    * thinking comes after the start of a text block. */
  lemma ReasoningAgreesExactly(events: seq<Event>)
    requires WellFormed(events)
    ensures var out, m := Translate(events), NonStreaming(Replay(events));
            && AllIDs(out, m.id)
            && Reasoning(out) == EarlyThinking(events)
            && (Reasoning(out) == ReasoningOf(m) <==> ThinkingStarts(events) <= 1 && EarlyThinking(events) == AllThinking(events))
  {
    var m := Draft("", [], None);
    StartsJoint();
    RunReasoning(Init, Fresh, m, [], [], events);
    RunNamed(Init, Fresh, m, events);
    RunThinks(Init, Fresh, m, [], [], events, "");
    assert "" + AllThinking(events) == AllThinking(events);
    NonStreamingMeaning(Replay(events));
    ThinkingSize(Entries(events));
    EarlyIsPrefix(events);
    if ThinkingStarts(events) == 0 {
      NoThoughts(Entries(events));
    }
  }
}
