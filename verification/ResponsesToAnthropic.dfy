/** ResponsesSSEToAnthropicSSE (internal/translate/stream_responses.go): Responses API
  * events in, Anthropic events out. Block indices are the output indices of the source,
  * so an index may be opened, closed and opened again.
  */
module ResponsesToAnthropic {
  import opened Options
  import opened Sequences
  import opened StreamTypes
  import B = Bracketing
  import Strings

  // The events the translator looks at; `Skipped` is any other line.
  datatype Resp =
    | Created(id: string)
    | ItemAdded(index: int, kind: string)
    | PartAdded(index: int)
    | OutputText(index: int, text: string)
    | SummaryPart(index: int, text: string)
    | PartDone(index: int)
    | ItemDone(index: int, kind: string)
    | Completed
    | Skipped

  datatype State = State(sentMessageStart: bool, open: map<int, Kind>)

  const Init := State(false, map[])

  datatype Out = Out(s: State, events: seq<Event>)

  function Head(k: Kind): BlockHead {
    if k.KThinking? then ThinkingHead else TextHead
  }

  function Open(s: State, i: int, k: Kind): Out {
    if i in s.open then Out(s, []) else Out(s.(open := s.open[i := k]), [BlockStart(i, Head(k))])
  }

  function Close(s: State, i: int): Out {
    if i in s.open then Out(s.(open := s.open - {i}), [BlockStop(i)]) else Out(s, [])
  }

  function OpenAndWrite(s: State, i: int, k: Kind, text: string, d: BlockDelta): Out {
    var o := Open(s, i, k);
    Out(o.s, o.events + if text == "" then [] else [Delta(i, d)])
  }

  function On(s: State, e: Resp): Out {
    match e
    case Created(id) => Out(s.(sentMessageStart := true), if s.sentMessageStart then [] else [MessageStart(Strings.TrimPrefix(id, "resp_"))])
    case ItemAdded(i, kind) => if kind == "reasoning" then Open(s, i, KThinking) else Out(s, [])
    case PartAdded(i) => Open(s, i, KText)
    case OutputText(i, text) => OpenAndWrite(s, i, KText, text, TextDelta(text))
    case SummaryPart(i, text) => OpenAndWrite(s, i, KThinking, text, ThinkingDelta(text))
    case PartDone(i) => Close(s, i)
    case ItemDone(i, kind) => if kind == "reasoning" then Close(s, i) else Out(s, [])
    case Completed => Out(s, [MessageDelta(Some("end_turn")), MessageStop])
    case Skipped => Out(s, [])
  }

  function Run(s: State, es: seq<Resp>): seq<Event>
    decreases |es|
  {
    if es == [] then [] else On(s, es[0]).events + Run(On(s, es[0]).s, es[1..])
  }

  function After(s: State, es: seq<Resp>): State
    decreases |es|
  {
    if es == [] then s else After(On(s, es[0]).s, es[1..])
  }

  function Translate(es: seq<Resp>): seq<Event> {
    Run(Init, es)
  }

  lemma {:induction false} RunAppend(s: State, a: seq<Resp>, b: seq<Resp>)
    ensures Run(s, a + b) == Run(s, a) + Run(After(s, a), b)
    ensures After(s, a + b) == After(After(s, a), b)
    decreases |a|
  {
    if a == [] {
      assert a + b == b;
    } else {
      assert (a + b)[1..] == a[1..] + b;
      RunAppend(On(s, a[0]).s, a[1..], b);
    }
  }

  /* ---------- The loop ---------- */

  ghost predicate Pending(all: seq<Event>, captured: seq<Event>, s: State, es: seq<Resp>) {
    all == captured + Run(s, es)
  }

  lemma PendingStep(all: seq<Event>, captured: seq<Event>, s: State, es: seq<Resp>, n: nat)
    requires n < |es| && Pending(all, captured, s, es[n..])
    ensures var o := On(s, es[n]); Pending(all, captured + o.events, o.s, es[n + 1..])
  {
    assert es[n..][1..] == es[n + 1..];
    var o := On(s, es[n]);
    assert captured + (o.events + Run(o.s, es[n + 1..])) == (captured + o.events) + Run(o.s, es[n + 1..]);
  }

  class ResponsesStream {
    var captured: seq<Event>
    var sentMessageStart: bool
    var openBlocks: map<int, Kind>

    ghost function Abs(): State reads this {
      State(sentMessageStart, openBlocks)
    }

    twostate predicate Did(o: Out) reads this {
      Abs() == o.s && captured == old(captured) + o.events
    }

    constructor ()
      ensures Abs() == Init && captured == []
    {
      captured, sentMessageStart, openBlocks := [], false, map[];
    }

    method DoOpen(i: int, k: Kind)
      modifies this`captured, this`openBlocks
      ensures Did(Open(old(Abs()), i, k))
    {
      if i !in openBlocks {
        captured := captured + [BlockStart(i, Head(k))];
        openBlocks := openBlocks[i := k];
      }
    }

    method DoClose(i: int)
      modifies this`captured, this`openBlocks
      ensures Did(Close(old(Abs()), i))
    {
      if i in openBlocks {
        captured := captured + [BlockStop(i)];
        openBlocks := openBlocks - {i};
      }
    }

    method DoOpenAndWrite(i: int, k: Kind, text: string, d: BlockDelta)
      modifies this`captured, this`openBlocks
      ensures Did(OpenAndWrite(old(Abs()), i, k, text, d))
    {
      DoOpen(i, k);
      if text != "" {
        captured := captured + [Delta(i, d)];
      }
    }

    method DoEvent(e: Resp)
      modifies this
      ensures Did(On(old(Abs()), e))
    {
      match e {
        case Created(id) =>
          if !sentMessageStart {
            captured := captured + [MessageStart(Strings.TrimPrefix(id, "resp_"))];
            sentMessageStart := true;
          }
        case ItemAdded(i, kind) =>
          if kind == "reasoning" {
            DoOpen(i, KThinking);
          }
        case PartAdded(i) =>
          DoOpen(i, KText);
        case OutputText(i, text) =>
          DoOpenAndWrite(i, KText, text, TextDelta(text));
        case SummaryPart(i, text) =>
          DoOpenAndWrite(i, KThinking, text, ThinkingDelta(text));
        case PartDone(i) =>
          DoClose(i);
        case ItemDone(i, kind) =>
          if kind == "reasoning" {
            DoClose(i);
          }
        case Completed =>
          captured := captured + [MessageDelta(Some("end_turn"))] + [MessageStop];
        case Skipped =>
      }
    }

    /** The streaming loop: what is captured is the translation of the whole stream. */
    static method Stream(es: seq<Resp>) returns (captured: seq<Event>)
      ensures captured == Translate(es)
    {
      var t := new ResponsesStream();
      assert es[0..] == es;
      for n := 0 to |es|
        invariant fresh(t)
        invariant Pending(Translate(es), t.captured, t.Abs(), es[n..])
      {
        PendingStep(Translate(es), t.captured, t.Abs(), es, n);
        t.DoEvent(es[n]);
      }
      captured := t.captured;
    }
  }

  /* ---------- The open blocks are the unmatched starts ---------- */

  // How many starts of index i have no stop yet.
  function Unmatched(out: seq<Event>, i: int): int {
    B.Starts(out, i) - B.Stops(out, i)
  }

  // At every position: a start only where the index is closed, a delta or a stop only
  // where it is open.
  ghost predicate Disciplined(out: seq<Event>) {
    forall k :: 0 <= k < |out| ==> Allowed(out, k)
  }

  ghost predicate Allowed(out: seq<Event>, k: nat)
    requires k < |out|
  {
    match out[k]
    case BlockStart(i, _) => Unmatched(out[..k], i) == 0
    case Delta(i, _) => Unmatched(out[..k], i) == 1
    case BlockStop(i) => Unmatched(out[..k], i) == 1
    case _ => true
  }

  ghost predicate Keeps(open: map<int, Kind>, out: seq<Event>) {
    forall i :: Unmatched(out, i) == if i in open then 1 else 0
  }

  lemma OneMore(out: seq<Event>, e: Event, i: int)
    ensures Unmatched(out + [e], i) == Unmatched(out, i)
            + (if e.BlockStart? && e.index == i then 1 else if e.BlockStop? && e.index == i then -1 else 0)
  {
    B.StartsAppend(out, [e], i);
    B.StopsAppend(out, [e], i);
    assert [e][1..] == [];
    assert B.Starts([e][1..], i) == 0 && B.Stops([e][1..], i) == 0;
  }

  lemma DisciplinedOne(out: seq<Event>, e: Event)
    requires Disciplined(out) && Allowed(out + [e], |out|)
    ensures Disciplined(out + [e])
  {
    forall k | 0 <= k < |out|
      ensures Allowed(out + [e], k)
    {
      assert Allowed(out, k);
      assert (out + [e])[..k] == out[..k];
    }
  }

  lemma KeptOne(open: map<int, Kind>, open': map<int, Kind>, out: seq<Event>, e: Event)
    requires Keeps(open, out) && Disciplined(out)
    requires match e
             case BlockStart(i, _) => i !in open && open'.Keys == open.Keys + {i}
             case Delta(i, _) => i in open && open' == open
             case BlockStop(i) => i in open && open'.Keys == open.Keys - {i}
             case _ => open' == open
    ensures Keeps(open', out + [e]) && Disciplined(out + [e])
  {
    forall i
      ensures Unmatched(out + [e], i) == if i in open' then 1 else 0
    {
      OneMore(out, e, i);
    }
    assert (out + [e])[..|out|] == out;
    DisciplinedOne(out, e);
  }

  lemma StepKeeps(s: State, out: seq<Event>, e: Resp)
    requires Keeps(s.open, out) && Disciplined(out)
    ensures var o := On(s, e); Keeps(o.s.open, out + o.events) && Disciplined(out + o.events)
  {
    var o := On(s, e);
    if e.OutputText? {
      WriteKeeps(s, out, e.index, KText, e.text, TextDelta(e.text));
    } else if e.SummaryPart? {
      WriteKeeps(s, out, e.index, KThinking, e.text, ThinkingDelta(e.text));
    } else if e.Completed? {
      KeptOne(s.open, s.open, out, MessageDelta(Some("end_turn")));
      KeptOne(s.open, s.open, out + [MessageDelta(Some("end_turn"))], MessageStop);
      assert (out + [MessageDelta(Some("end_turn"))]) + [MessageStop] == out + o.events;
    } else if o.events == [] {
      assert out + o.events == out;
    } else {
      KeptOne(s.open, o.s.open, out, o.events[0]);
    }
  }

  lemma WriteKeeps(s: State, out: seq<Event>, i: int, k: Kind, text: string, d: BlockDelta)
    requires Keeps(s.open, out) && Disciplined(out)
    ensures var o := OpenAndWrite(s, i, k, text, d); Keeps(o.s.open, out + o.events) && Disciplined(out + o.events)
  {
    var a, b := Open(s, i, k), if text == "" then [] else [Delta(i, d)];
    if a.events == [] {
      assert out + [] == out;
    } else {
      KeptOne(s.open, a.s.open, out, BlockStart(i, Head(k)));
    }
    if b == [] {
      assert (out + a.events) + [] == out + a.events;
    } else {
      KeptOne(a.s.open, a.s.open, out + a.events, Delta(i, d));
    }
    Assoc(out, a.events, b);
  }

  lemma {:induction false} RunKeeps(s: State, out: seq<Event>, es: seq<Resp>)
    requires Keeps(s.open, out) && Disciplined(out)
    ensures Keeps(After(s, es).open, out + Run(s, es)) && Disciplined(out + Run(s, es))
    decreases |es|
  {
    if es == [] {
      assert out + [] == out;
    } else {
      var o := On(s, es[0]);
      StepKeeps(s, out, es[0]);
      RunKeeps(o.s, out + o.events, es[1..]);
      Assoc(out, o.events, Run(o.s, es[1..]));
    }
  }

  /** After any input whatever, openBlocks holds exactly the indices whose start is not yet
    * stopped; and in what was written no index is opened while it is open, and no delta
    * and no stop goes to an index that is closed. */
  lemma OpenBlocksAreUnmatchedStarts(es: seq<Resp>)
    ensures Disciplined(Translate(es))
    ensures forall i :: Unmatched(Translate(es), i) == if i in After(Init, es).open then 1 else 0
  {
    RunKeeps(Init, [], es);
    assert [] + Translate(es) == Translate(es);
  }

  /* ---------- Kinds ---------- */

  // The kind of the block at index i after these events, read off the input alone: the
  // first event of the index since it was last closed decides.
  function Owner(es: seq<Resp>, i: int): Option<Kind> {
    if es == [] then None
    else
      var before := Owner(es[..|es| - 1], i);
      match es[|es| - 1]
      case ItemAdded(j, kind) => if j == i && kind == "reasoning" && before.None? then Some(KThinking) else before
      case PartAdded(j) => if j == i && before.None? then Some(KText) else before
      case OutputText(j, _) => if j == i && before.None? then Some(KText) else before
      case SummaryPart(j, _) => if j == i && before.None? then Some(KThinking) else before
      case PartDone(j) => if j == i then None else before
      case ItemDone(j, kind) => if j == i && kind == "reasoning" then None else before
      case _ => before
  }

  ghost predicate Owns(s: State, es: seq<Resp>) {
    forall i :: Owner(es, i) == if i in s.open then Some(s.open[i]) else None
  }

  lemma {:induction false} OwnersKnown(es: seq<Resp>)
    ensures Owns(After(Init, es), es)
    decreases |es|
  {
    if es != [] {
      var pre, e := es[..|es| - 1], es[|es| - 1];
      OwnersKnown(pre);
      assert es == pre + [e];
      RunAppend(Init, pre, [e]);
      OneStep(After(Init, pre), e);
      OwnsStep(After(Init, pre), pre, e);
    }
  }

  lemma OwnsStep(s: State, pre: seq<Resp>, e: Resp)
    requires Owns(s, pre)
    ensures Owns(On(s, e).s, pre + [e])
  {
    var es := pre + [e];
    assert es[..|es| - 1] == pre;
  }

  // Text that arrives for an index whose open block is of the other kind.
  predicate Misplaced(es: seq<Resp>, k: nat)
    requires k < |es|
  {
    match es[k]
    case OutputText(i, text) => text != "" && Owner(es[..k], i) == Some(KThinking)
    case SummaryPart(i, text) => text != "" && Owner(es[..k], i) == Some(KText)
    case _ => false
  }

  // The kinds of the open blocks according to what was written; None once a delta does not fit.
  function Kinds(open: map<int, Kind>, out: seq<Event>): Option<map<int, Kind>>
    decreases |out|
  {
    if out == [] then Some(open)
    else
      match out[0]
      case BlockStart(i, h) => Kinds(open[i := KindOf(h)], out[1..])
      case BlockStop(i) => Kinds(open - {i}, out[1..])
      case Delta(i, d) => if i in open && B.Fits(open[i], d) then Kinds(open, out[1..]) else None
      case _ => Kinds(open, out[1..])
  }

  lemma {:induction false} KindsAppend(open: map<int, Kind>, a: seq<Event>, b: seq<Event>)
    ensures Kinds(open, a + b) == if Kinds(open, a).None? then None else Kinds(Kinds(open, a).value, b)
    decreases |a|
  {
    if a == [] {
      assert a + b == b;
    } else {
      assert (a + b)[1..] == a[1..] + b;
      match a[0]
      case BlockStart(i, h) => KindsAppend(open[i := KindOf(h)], a[1..], b);
      case BlockStop(i) => KindsAppend(open - {i}, a[1..], b);
      case _ => KindsAppend(open, a[1..], b);
    }
  }

  // The blocks are text and thinking blocks only.
  ghost predicate TwoKinds(s: State) {
    forall i :: i in s.open ==> s.open[i].KText? || s.open[i].KThinking?
  }

  lemma StepKinds(s: State, e: Resp)
    requires TwoKinds(s)
    ensures TwoKinds(On(s, e).s)
    ensures var bad := match e
                       case OutputText(i, text) => text != "" && i in s.open && s.open[i].KThinking?
                       case SummaryPart(i, text) => text != "" && i in s.open && s.open[i].KText?
                       case _ => false;
            Kinds(s.open, On(s, e).events) == if bad then None else Some(On(s, e).s.open)
  {
    if e.OutputText? {
      WriteKinds(s, e.index, KText, e.text, TextDelta(e.text));
    } else if e.SummaryPart? {
      WriteKinds(s, e.index, KThinking, e.text, ThinkingDelta(e.text));
    } else if On(s, e).events != [] {
      assert On(s, e).events[1..] == if e.Completed? then [MessageStop] else [];
    }
  }

  lemma WriteKinds(s: State, i: int, k: Kind, text: string, d: BlockDelta)
    requires TwoKinds(s) && B.Fits(k, d) && (k.KText? || k.KThinking?)
    ensures var o := OpenAndWrite(s, i, k, text, d);
            Kinds(s.open, o.events) == if text != "" && i in s.open && s.open[i] != k then None else Some(o.s.open)
  {
    var o := Open(s, i, k);
    KindsAppend(s.open, o.events, if text == "" then [] else [Delta(i, d)]);
    assert o.events != [] ==> o.events[1..] == [];
    assert [Delta(i, d)][1..] == [];
  }

  lemma {:induction false} KindsRun(es: seq<Resp>)
    ensures TwoKinds(After(Init, es))
    ensures Kinds(map[], Translate(es)) == if exists k :: 0 <= k < |es| && Misplaced(es, k) then None else Some(After(Init, es).open)
    decreases |es|
  {
    if es != [] {
      var pre, e := es[..|es| - 1], es[|es| - 1];
      var s := After(Init, pre);
      KindsRun(pre);
      OwnersKnown(pre);
      StepKinds(s, e);
      assert es == pre + [e];
      RunAppend(Init, pre, [e]);
      OneStep(s, e);
      KindsAppend(map[], Translate(pre), On(s, e).events);
      MisplacedLast(pre, e);
    }
  }

  lemma OneStep(s: State, e: Resp)
    ensures Run(s, [e]) == On(s, e).events && After(s, [e]) == On(s, e).s
  {
    assert [e][1..] == [];
    assert On(s, e).events + [] == On(s, e).events;
  }

  lemma MisplacedLast(pre: seq<Resp>, e: Resp)
    ensures var es := pre + [e];
            (exists k :: 0 <= k < |es| && Misplaced(es, k))
            <==> (exists k :: 0 <= k < |pre| && Misplaced(pre, k)) || Misplaced(es, |pre|)
  {
    var es := pre + [e];
    forall k | 0 <= k < |pre|
      ensures Misplaced(es, k) <==> Misplaced(pre, k)
    {
      assert es[..k] == pre[..k];
    }
    if k :| 0 <= k < |es| && Misplaced(es, k) {
      assert k == |pre| || Misplaced(pre, k);
    }
    if k :| 0 <= k < |pre| && Misplaced(pre, k) {
      assert Misplaced(es, k);
    }
  }

  /** Every delta fits the kind of the block it goes to if and only if no text arrives for
    * an index whose open block is of the other kind. */
  lemma KindsFitExactly(es: seq<Resp>)
    ensures Kinds(map[], Translate(es)).Some? <==> forall k :: 0 <= k < |es| ==> !Misplaced(es, k)
  {
    KindsRun(es);
  }

  /* ---------- What is delivered ---------- */

  // The text of the deltas for an index, and their thinking.
  function TextAt(out: seq<Event>, i: int): string {
    if out == [] then ""
    else (if out[0].Delta? && out[0].index == i && out[0].delta.TextDelta? then out[0].delta.text else "") + TextAt(out[1..], i)
  }

  function ThinkingAt(out: seq<Event>, i: int): string {
    if out == [] then ""
    else (if out[0].Delta? && out[0].index == i && out[0].delta.ThinkingDelta? then out[0].delta.thinking else "") + ThinkingAt(out[1..], i)
  }

  // The output text that arrives for an index, and the summaries of its reasoning.
  function TextFor(es: seq<Resp>, i: int): string {
    if es == [] then "" else (if es[0].OutputText? && es[0].index == i then es[0].text else "") + TextFor(es[1..], i)
  }

  function SummaryFor(es: seq<Resp>, i: int): string {
    if es == [] then "" else (if es[0].SummaryPart? && es[0].index == i then es[0].text else "") + SummaryFor(es[1..], i)
  }

  // The events that belong to no block.
  function Frame(out: seq<Event>): seq<Event> {
    if out == [] then []
    else (if out[0].BlockStart? || out[0].Delta? || out[0].BlockStop? then [] else [out[0]]) + Frame(out[1..])
  }

  function FrameOf(started: bool, e: Resp): seq<Event> {
    match e
    case Created(id) => if started then [] else [MessageStart(Strings.TrimPrefix(id, "resp_"))]
    case Completed => [MessageDelta(Some("end_turn")), MessageStop]
    case _ => []
  }

  function FrameFor(started: bool, es: seq<Resp>): seq<Event>
    decreases |es|
  {
    if es == [] then [] else FrameOf(started, es[0]) + FrameFor(started || es[0].Created?, es[1..])
  }

  lemma {:induction false} TextAtAppend(a: seq<Event>, b: seq<Event>, i: int)
    ensures TextAt(a + b, i) == TextAt(a, i) + TextAt(b, i)
    decreases |a|
  {
    if a == [] {
      assert a + b == b;
    } else {
      assert (a + b)[1..] == a[1..] + b;
      TextAtAppend(a[1..], b, i);
      Assoc(if a[0].Delta? && a[0].index == i && a[0].delta.TextDelta? then a[0].delta.text else "", TextAt(a[1..], i), TextAt(b, i));
    }
  }

  lemma {:induction false} ThinkingAtAppend(a: seq<Event>, b: seq<Event>, i: int)
    ensures ThinkingAt(a + b, i) == ThinkingAt(a, i) + ThinkingAt(b, i)
    decreases |a|
  {
    if a == [] {
      assert a + b == b;
    } else {
      assert (a + b)[1..] == a[1..] + b;
      ThinkingAtAppend(a[1..], b, i);
      Assoc(if a[0].Delta? && a[0].index == i && a[0].delta.ThinkingDelta? then a[0].delta.thinking else "", ThinkingAt(a[1..], i), ThinkingAt(b, i));
    }
  }

  lemma {:induction false} FrameAppend(a: seq<Event>, b: seq<Event>)
    ensures Frame(a + b) == Frame(a) + Frame(b)
    decreases |a|
  {
    if a == [] {
      assert a + b == b;
    } else {
      assert (a + b)[1..] == a[1..] + b;
      FrameAppend(a[1..], b);
    }
  }

  lemma OneDelivered(e: Event, i: int)
    ensures TextAt([e], i) == if e.Delta? && e.index == i && e.delta.TextDelta? then e.delta.text else ""
    ensures ThinkingAt([e], i) == if e.Delta? && e.index == i && e.delta.ThinkingDelta? then e.delta.thinking else ""
    ensures Frame([e]) == if e.BlockStart? || e.Delta? || e.BlockStop? then [] else [e]
  {
    assert [e][1..] == [];
    assert forall s: string :: s + "" == s;
  }

  lemma WriteDelivered(s: State, i: int, k: Kind, text: string, d: BlockDelta, j: int)
    ensures var out := OpenAndWrite(s, i, k, text, d).events; var shown := text != "" && i == j;
            && TextAt(out, j) == (if shown && d.TextDelta? then d.text else "")
            && ThinkingAt(out, j) == (if shown && d.ThinkingDelta? then d.thinking else "")
            && Frame(out) == []
  {
    var a, b := Open(s, i, k).events, if text == "" then [] else [Delta(i, d)];
    TextAtAppend(a, b, j);
    ThinkingAtAppend(a, b, j);
    FrameAppend(a, b);
    OneDelivered(BlockStart(i, Head(k)), j);
    OneDelivered(Delta(i, d), j);
    assert forall t: string :: "" + t == t;
  }

  lemma StepDelivered(s: State, e: Resp, i: int)
    ensures var out := On(s, e).events;
            && TextAt(out, i) == (if e.OutputText? && e.index == i then e.text else "")
            && ThinkingAt(out, i) == (if e.SummaryPart? && e.index == i then e.text else "")
            && Frame(out) == FrameOf(s.sentMessageStart, e) && On(s, e).s.sentMessageStart == (s.sentMessageStart || e.Created?)
  {
    var out := On(s, e).events;
    if e.OutputText? {
      WriteDelivered(s, e.index, KText, e.text, TextDelta(e.text), i);
    } else if e.SummaryPart? {
      WriteDelivered(s, e.index, KThinking, e.text, ThinkingDelta(e.text), i);
    } else if e.Completed? {
      assert out[1..] == [MessageStop];
      OneDelivered(MessageStop, i);
    } else if out != [] {
      OneDelivered(out[0], i);
    }
  }

  lemma {:induction false} RunText(s: State, es: seq<Resp>, i: int)
    ensures TextAt(Run(s, es), i) == TextFor(es, i)
    decreases |es|
  {
    if es != [] {
      var o := On(s, es[0]);
      StepDelivered(s, es[0], i);
      RunText(o.s, es[1..], i);
      TextAtAppend(o.events, Run(o.s, es[1..]), i);
    }
  }

  lemma {:induction false} RunThinking(s: State, es: seq<Resp>, i: int)
    ensures ThinkingAt(Run(s, es), i) == SummaryFor(es, i)
    decreases |es|
  {
    if es != [] {
      var o := On(s, es[0]);
      StepDelivered(s, es[0], i);
      RunThinking(o.s, es[1..], i);
      ThinkingAtAppend(o.events, Run(o.s, es[1..]), i);
    }
  }

  lemma {:induction false} RunFrame(s: State, es: seq<Resp>)
    ensures Frame(Run(s, es)) == FrameFor(s.sentMessageStart, es)
    decreases |es|
  {
    if es != [] {
      var o := On(s, es[0]);
      StepDelivered(s, es[0], 0);
      RunFrame(o.s, es[1..]);
      FrameAppend(o.events, Run(o.s, es[1..]));
    }
  }

  /** For any input and any index: the text deltas for it spell out the output text that has
    * arrived for it, and the thinking deltas the summaries of its reasoning; and apart from
    * the blocks there is one message_start, for the first response.created, and for each
    * response.completed a stop reason, always "end_turn", and message_stop. */
  lemma DeliveredAtItsIndex(es: seq<Resp>, i: int)
    ensures TextAt(Translate(es), i) == TextFor(es, i)
    ensures ThinkingAt(Translate(es), i) == SummaryFor(es, i)
    ensures Frame(Translate(es)) == FrameFor(false, es)
  {
    RunText(Init, es, i);
    RunThinking(Init, es, i);
    RunFrame(Init, es);
  }
}
