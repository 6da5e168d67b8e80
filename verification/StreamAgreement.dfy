/** The streaming and the non-streaming path from Anthropic to OpenAI agree: what a
  * receiver assembles from SSEStream's chunks, against the non-streaming translation of
  * the message that the same event stream spells out.
  */
module StreamAgreement {
  import opened Options
  import opened Sequences
  import opened StreamTypes
  import opened AnthropicToOpenAI
  import opened Canonical
  import B = Bracketing
  import T = TextOrder

  /* ---------- Well-formed event streams ---------- */

  // A block of an unknown kind, and one of thinking, may carry text, as a synthesized stream
  // writes them.
  predicate Fits(k: Kind, d: BlockDelta) {
    match d
    case TextDelta(_) => k != KTool
    case ThinkingDelta(_) => k == KThinking
    case JsonDelta(_) => k == KTool
  }

  predicate IsText(k: Kind) {
    k == KText || k == KOther
  }

  // The indices used so far, the blocks open, and the blocks with text in the order they were
  // started.
  datatype Phase = Fresh | Body(used: set<int>, open: map<int, Kind>, texts: seq<int>) | Ended | Finished | Broken

  function Check(p: Phase, e: Event): Phase {
    match e
    case MessageStart(_) => if p.Fresh? then Body({}, map[], []) else Broken
    case BlockStart(i, h) =>
      if p.Body? && i !in p.used
      then Body(p.used + {i}, p.open[i := KindOf(h)], if IsText(KindOf(h)) then p.texts + [i] else p.texts)
      else Broken
    case Delta(i, d) => if p.Body? && i in p.open && Fits(p.open[i], d) then p else Broken
    case BlockStop(i) => if p.Body? && i in p.open then p.(open := p.open - {i}) else Broken
    case MessageDelta(_) => if p.Body? && p.open == map[] then Ended else Broken
    case MessageStop => if p.Ended? then Finished else Broken
    case Ignored => p
  }

  function CheckAll(p: Phase, events: seq<Event>): Phase
    decreases |events|
  {
    if events == [] then p else CheckAll(Check(p, events[0]), events[1..])
  }

  // Each block has an index of its own and is stopped; blocks may overlap.
  predicate WellFormed(events: seq<Event>) {
    CheckAll(Fresh, events) == Finished
  }

  function RankIn(texts: seq<int>, i: int): (k: nat)
    ensures k <= |texts| && (k < |texts| ==> texts[k] == i) && (i in texts ==> k < |texts|)
  {
    if texts == [] || texts[0] == i then 0 else 1 + RankIn(texts[1..], i)
  }

  // The text deltas of the stream, each with the number of its block among those with text.
  function PiecesOf(p: Phase, e: Event): seq<T.Piece> {
    if e.Delta? && e.delta.TextDelta? && p.Body? && e.index in p.texts then [T.Piece(RankIn(p.texts, e.index), e.delta.text)] else []
  }

  function PiecesFrom(p: Phase, events: seq<Event>): seq<T.Piece>
    decreases |events|
  {
    if events == [] then [] else PiecesOf(p, events[0]) + PiecesFrom(Check(p, events[0]), events[1..])
  }

  function Pieces(events: seq<Event>): seq<T.Piece> {
    PiecesFrom(Fresh, events)
  }

  // No text comes to a block after a block started later has got some.
  predicate TextsInTurn(events: seq<Event>) {
    T.InTurn(Pieces(events))
  }

  lemma {:induction false} CheckAppend(p: Phase, a: seq<Event>, b: seq<Event>)
    ensures CheckAll(p, a + b) == CheckAll(CheckAll(p, a), b)
    decreases |a|
  {
    if a == [] {
      assert a + b == b;
    } else {
      assert (a + b)[1..] == a[1..] + b;
      CheckAppend(Check(p, a[0]), a[1..], b);
    }
  }

  lemma {:induction false} BrokenStays(events: seq<Event>)
    ensures CheckAll(Broken, events) == Broken
  {
    if events != [] {
      BrokenStays(events[1..]);
    }
  }

  /* ---------- The message an event stream spells out ---------- */

  datatype Entry = Entry(index: int, head: BlockHead, text: string, thinking: string, json: string)

  datatype Draft = Draft(id: string, entries: seq<Entry>, stop: Option<string>)

  function AddDelta(e: Entry, d: BlockDelta): Entry {
    match d
    case TextDelta(text) => e.(text := e.text + text)
    case ThinkingDelta(thinking) => e.(thinking := e.thinking + thinking)
    case JsonDelta(json) => e.(json := e.json + json)
  }

  // The delta goes to the block with its index.
  function AddDeltaAt(es: seq<Entry>, i: int, d: BlockDelta): seq<Entry> {
    if es == [] then []
    else [if es[0].index == i then AddDelta(es[0], d) else es[0]] + AddDeltaAt(es[1..], i, d)
  }

  function ReplayStep(m: Draft, e: Event): Draft {
    match e
    case MessageStart(id) => m.(id := id)
    case BlockStart(i, h) => m.(entries := m.entries + [Entry(i, h, "", "", "")])
    case Delta(i, d) => m.(entries := AddDeltaAt(m.entries, i, d))
    case MessageDelta(stop) => m.(stop := stop)
    case _ => m
  }

  function ReplayFrom(m: Draft, events: seq<Event>): Draft
    decreases |events|
  {
    if events == [] then m else ReplayFrom(ReplayStep(m, events[0]), events[1..])
  }

  // A tool_use block starts with the empty object as input; its deltas replace it.
  function ToBlock(e: Entry): Block {
    match e.head
    case TextHead => TextBlock(e.text)
    case ThinkingHead => ThinkingBlock(e.thinking)
    case ToolHead(id, name) => ToolBlock(id, name, Some(if e.json == "" then "{}" else e.json))
    case OtherHead(kind) => OtherBlock(kind, e.text)
  }

  function ToBlocks(es: seq<Entry>): seq<Block> {
    if es == [] then [] else [ToBlock(es[0])] + ToBlocks(es[1..])
  }

  function Replay(events: seq<Event>): Response {
    var m := ReplayFrom(Draft("", [], None), events);
    Response(m.id, ToBlocks(m.entries), m.stop)
  }

  /* ---------- What the streamed chunks amount to ---------- */

  function StreamedText(es: seq<Entry>): string {
    if es == [] then ""
    else StreamedText(es[..|es| - 1])
         + (if es[|es| - 1].head.TextHead? || es[|es| - 1].head.OtherHead? then es[|es| - 1].text else "")
  }

  function StreamedTools(es: seq<Entry>): seq<Tool> {
    if es == [] then []
    else
      var before := StreamedTools(es[..|es| - 1]);
      var e := es[|es| - 1];
      before + if e.head.ToolHead? then [Tool(|before|, e.head.id, e.head.name, e.json)] else []
  }

  lemma TextOfOneMore(es: seq<Entry>, e: Entry)
    ensures StreamedText(es + [e]) == StreamedText(es) + if e.head.TextHead? || e.head.OtherHead? then e.text else ""
    ensures StreamedTools(es + [e])
            == StreamedTools(es) + if e.head.ToolHead? then [Tool(|StreamedTools(es)|, e.head.id, e.head.name, e.json)] else []
  {
    assert (es + [e])[..|es|] == es;
  }

  lemma {:induction false} ToolNumbers(es: seq<Entry>)
    ensures forall k :: 0 <= k < |StreamedTools(es)| ==> StreamedTools(es)[k].index == k
  {
    if es != [] {
      ToolNumbers(es[..|es| - 1]);
    }
  }

  /* ---------- The keys of the entries, which deltas leave alone ---------- */

  function Keys(es: seq<Entry>): (ks: seq<(int, BlockHead)>)
    ensures |ks| == |es|
  {
    seq(|es|, k requires 0 <= k < |es| => (es[k].index, es[k].head))
  }

  ghost predicate Distinct(ks: seq<(int, BlockHead)>) {
    forall j, k :: 0 <= j < k < |ks| ==> ks[j].0 != ks[k].0
  }

  function ToolKeys(ks: seq<(int, BlockHead)>): nat {
    if ks == [] then 0 else ToolKeys(ks[..|ks| - 1]) + if ks[|ks| - 1].1.ToolHead? then 1 else 0
  }

  function TextKeys(ks: seq<(int, BlockHead)>): nat {
    if ks == [] then 0 else TextKeys(ks[..|ks| - 1]) + if IsText(KindOf(ks[|ks| - 1].1)) then 1 else 0
  }

  lemma {:induction false} TextKeysAhead(ks: seq<(int, BlockHead)>, pos: nat)
    requires pos < |ks|
    ensures TextKeys(ks[..pos]) + (if IsText(KindOf(ks[pos].1)) then 1 else 0) <= TextKeys(ks)
  {
    var n := |ks| - 1;
    if pos < n {
      TextKeysAhead(ks[..n], pos);
      assert ks[..n][..pos] == ks[..pos];
    }
  }

  lemma {:induction false} ToolsCounted(es: seq<Entry>)
    ensures |StreamedTools(es)| == ToolKeys(Keys(es))
  {
    if es != [] {
      var pre := es[..|es| - 1];
      ToolsCounted(pre);
      assert Keys(es)[..|es| - 1] == Keys(pre);
    }
  }

  lemma {:induction false} DeltaAt(es: seq<Entry>, pos: nat, d: BlockDelta)
    requires pos < |es| && Distinct(Keys(es))
    ensures AddDeltaAt(es, es[pos].index, d) == es[pos := AddDelta(es[pos], d)]
  {
    var i := es[pos].index;
    assert forall j :: 0 <= j < |es| ==> Keys(es)[j].0 == es[j].index;
    forall j | 0 <= j < |es| && j != pos
      ensures es[j].index != i
    {
      assert Keys(es)[j].0 != Keys(es)[pos].0;
    }
    DeltaAtOnly(es, i, d, pos);
  }

  lemma {:induction false} DeltaAtOnly(es: seq<Entry>, i: int, d: BlockDelta, pos: int)
    requires pos < |es| && (0 <= pos ==> es[pos].index == i)
    requires forall j :: 0 <= j < |es| && j != pos ==> es[j].index != i
    ensures AddDeltaAt(es, i, d) == if 0 <= pos then es[pos := AddDelta(es[pos], d)] else es
    decreases |es|
  {
    if es != [] {
      assert forall j :: 0 < j < |es| ==> es[j] == es[1..][j - 1];
      DeltaAtOnly(es[1..], i, d, pos - 1);
    }
  }

  lemma UpdateSplit(es: seq<Entry>, pos: nat, e: Entry)
    requires pos < |es| && e.head == es[pos].head && e.index == es[pos].index
    ensures Keys(es[pos := e]) == Keys(es)
    ensures pos == |es| - 1 ==> es[pos := e] == es[..pos] + [e] && es == es[..pos] + [es[pos]]
    ensures pos < |es| - 1 ==> es[pos := e] == es[..|es| - 1][pos := e] + [es[|es| - 1]] && es == es[..|es| - 1] + [es[|es| - 1]]
  {
  }

  // Where more JSON for one entry shows among the tools.
  lemma {:induction false} ToolsAt(es: seq<Entry>, pos: nat, e: Entry)
    requires pos < |es| && e.head == es[pos].head && e.index == es[pos].index
    ensures var ts := StreamedTools(es); var k := ToolKeys(Keys(es)[..pos]);
            if e.head.ToolHead? then k < |ts| && StreamedTools(es[pos := e]) == ts[k := ts[k].(args := e.json)] && ts[k].args == es[pos].json
            else StreamedTools(es[pos := e]) == ts
    decreases |es|
  {
    UpdateSplit(es, pos, e);
    var n := |es| - 1;
    var pre := es[..n];
    if pos == n {
      LastToolAt(pre, es[n], e);
      assert Keys(es)[..pos] == Keys(pre);
    } else {
      ToolsAt(pre, pos, e);
      TextOfOneMore(pre[pos := e], es[n]);
      TextOfOneMore(pre, es[n]);
      assert Keys(es)[..pos] == Keys(pre)[..pos];
    }
  }

  lemma LastToolAt(pre: seq<Entry>, f: Entry, e: Entry)
    requires e.head == f.head
    ensures var ts := StreamedTools(pre + [f]); var k := ToolKeys(Keys(pre));
            if e.head.ToolHead? then k < |ts| && StreamedTools(pre + [e]) == ts[k := ts[k].(args := e.json)] && ts[k].args == f.json
            else StreamedTools(pre + [e]) == ts
  {
    TextOfOneMore(pre, e);
    TextOfOneMore(pre, f);
    ToolsCounted(pre);
  }

  /* ---------- Event by event ---------- */

  // The open block i is entry number pos.
  ghost predicate OpenAt(s: State, p: Phase, ks: seq<(int, BlockHead)>, i: int, pos: nat)
    requires p.Body? && i in p.open
  {
    && pos < |ks| && ks[pos].0 == i && KindOf(ks[pos].1) == p.open[i]
    && (i in s.thinking <==> p.open[i] == KThinking)
    && (p.open[i] == KTool ==> i in s.toolIndex && s.toolIndex[i] == ToolKeys(ks[..pos]))
    && (i in p.texts <==> IsText(p.open[i])) && (IsText(p.open[i]) ==> RankIn(p.texts, i) == TextKeys(ks[..pos]))
  }

  ghost predicate InBody(s: State, p: Phase, ks: seq<(int, BlockHead)>)
    requires p.Body?
  {
    && s.thinking <= p.used && p.open.Keys <= p.used && Distinct(ks)
    && |p.texts| == TextKeys(ks) && (forall i :: i in p.texts ==> i in p.used)
    && (forall k :: 0 <= k < |ks| ==> ks[k].0 in p.used)
    && (forall i :: i in p.open ==> exists pos: nat :: OpenAt(s, p, ks, i, pos))
  }

  // Each entry with text holds the pieces of its number.
  ghost predicate HoldRanks(es: seq<Entry>, ds: seq<T.Piece>) {
    forall pos :: 0 <= pos < |es| && IsText(KindOf(es[pos].head)) ==> es[pos].text == T.OfRank(ds, TextKeys(Keys(es)[..pos]))
  }

  ghost predicate TextsHold(es: seq<Entry>, ds: seq<T.Piece>) {
    T.AllBelow(ds, TextKeys(Keys(es))) && HoldRanks(es, ds)
  }

  // The translator's state, the acceptor's phase, the replayed message, the chunks written
  // and the pieces of text so far belong together.
  ghost predicate Together(s: State, p: Phase, m: Draft, out: seq<Line>, ds: seq<T.Piece>) {
    OutHolds(s, m.entries, out, ds) && TextsHold(m.entries, ds) && PhaseHolds(s, p, m.entries)
  }

  ghost predicate OutHolds(s: State, es: seq<Entry>, out: seq<Line>, ds: seq<T.Piece>) {
    Text(out) == T.Arrived(ds) && Tools(out) == StreamedTools(es) && s.toolCount == |StreamedTools(es)|
  }

  ghost predicate PhaseHolds(s: State, p: Phase, es: seq<Entry>) {
    (p.Fresh? ==> s.thinking == {} && es == []) && (p.Body? ==> InBody(s, p, Keys(es)))
  }

  lemma OneLine(out: seq<Line>, line: Line)
    ensures Text(out + [line]) == Text(out) + LineText(line)
    ensures Tools(out + [line]) == LineTools(Tools(out), line)
  {
    TextAppend(out, [line]);
    ToolsAppend([], out, [line]);
    assert [line][1..] == [];
  }

  lemma OneTool(ts: seq<Tool>, d: ToolDelta)
    ensures AddTools(ts, [d]) == AddTool(ts, d)
  {
    assert [d][1..] == [];
  }

  lemma {:induction false} RankOfLast(texts: seq<int>, i: int)
    requires i !in texts
    ensures RankIn(texts + [i], i) == |texts|
  {
    if texts != [] {
      assert (texts + [i])[1..] == texts[1..] + [i];
      RankOfLast(texts[1..], i);
    }
  }

  lemma {:induction false} RankKept(texts: seq<int>, i: int, j: int)
    requires i in texts
    ensures RankIn(texts + [j], i) == RankIn(texts, i)
  {
    if texts[0] != i {
      assert (texts + [j])[1..] == texts[1..] + [j];
      RankKept(texts[1..], i, j);
    }
  }

  lemma StartAt(s: State, p: Phase, ks: seq<(int, BlockHead)>, i: int, h: BlockHead)
    requires p.Body? && InBody(s, p, ks) && i !in p.used && s.toolCount == ToolKeys(ks)
    ensures OpenAt(Next(s, BlockStart(i, h)), Check(p, BlockStart(i, h)), ks + [(i, h)], i, |ks|)
  {
    assert (ks + [(i, h)])[..|ks|] == ks;
    RankOfLast(p.texts, i);
  }

  lemma OthersAt(s: State, p: Phase, ks: seq<(int, BlockHead)>, i: int, h: BlockHead, j: int, pos: nat)
    requires p.Body? && InBody(s, p, ks) && i !in p.used && j in p.open && OpenAt(s, p, ks, j, pos)
    ensures OpenAt(Next(s, BlockStart(i, h)), Check(p, BlockStart(i, h)), ks + [(i, h)], j, pos)
  {
    assert (ks + [(i, h)])[..pos] == ks[..pos];
    if j in p.texts {
      RankKept(p.texts, j, i);
    }
  }

  lemma StartKeys(s: State, p: Phase, ks: seq<(int, BlockHead)>, i: int, h: BlockHead)
    requires p.Body? && InBody(s, p, ks) && i !in p.used && s.toolCount == ToolKeys(ks)
    ensures InBody(Next(s, BlockStart(i, h)), Check(p, BlockStart(i, h)), ks + [(i, h)])
  {
    var t, q, ls := Next(s, BlockStart(i, h)), Check(p, BlockStart(i, h)), ks + [(i, h)];
    assert ls[..|ks|] == ks;
    forall j | j in q.open
      ensures exists pos: nat :: OpenAt(t, q, ls, j, pos)
    {
      if j == i {
        StartAt(s, p, ks, i, h);
      } else {
        var pos: nat :| OpenAt(s, p, ks, j, pos);
        OthersAt(s, p, ks, i, h, j, pos);
      }
    }
  }

  lemma StartTexts(es: seq<Entry>, ds: seq<T.Piece>, e: Entry)
    requires TextsHold(es, ds) && e.text == ""
    ensures TextsHold(es + [e], ds)
  {
    var fs := es + [e];
    assert Keys(fs)[..|es|] == Keys(es);
    forall pos | 0 <= pos < |fs| && IsText(KindOf(fs[pos].head))
      ensures fs[pos].text == T.OfRank(ds, TextKeys(Keys(fs)[..pos]))
    {
      assert Keys(fs)[..pos] == Keys(es)[..pos];
      if pos == |es| {
        T.NoTextOfRank(ds, TextKeys(Keys(es)));
      }
    }
  }

  // The chunks and the tools after the start of a block.
  lemma StartObserved(s: State, es: seq<Entry>, out: seq<Line>, i: int, h: BlockHead)
    requires Tools(out) == StreamedTools(es) && s.toolCount == |StreamedTools(es)|
    ensures var e, fs := BlockStart(i, h), es + [Entry(i, h, "", "", "")];
            && Text(out + Emit(s, e)) == Text(out) && Tools(out + Emit(s, e)) == StreamedTools(fs)
            && Next(s, e).toolCount == |StreamedTools(fs)|
  {
    TextOfOneMore(es, Entry(i, h, "", "", ""));
    if h.ToolHead? {
      OneLine(out, ToolChunk(s.messageID, s.toolCount, h.id, h.name, ""));
      OneTool(Tools(out), ToolDelta(Some(s.toolCount), h.id, h.name, ""));
      ToolNumbers(es);
      FindNumbered(Tools(out), s.toolCount);
    } else {
      assert out + [] == out;
    }
  }

  lemma StartStep(s: State, p: Phase, m: Draft, out: seq<Line>, ds: seq<T.Piece>, i: int, h: BlockHead)
    requires Together(s, p, m, out, ds) && p.Body? && i !in p.used
    ensures var e := BlockStart(i, h); Together(Next(s, e), Check(p, e), ReplayStep(m, e), out + Emit(s, e), ds)
  {
    StartObserved(s, m.entries, out, i, h);
    StartPhase(s, p, m.entries, i, h);
    StartTexts(m.entries, ds, Entry(i, h, "", "", ""));
  }

  lemma StartPhase(s: State, p: Phase, es: seq<Entry>, i: int, h: BlockHead)
    requires PhaseHolds(s, p, es) && p.Body? && i !in p.used && s.toolCount == |StreamedTools(es)|
    ensures PhaseHolds(Next(s, BlockStart(i, h)), Check(p, BlockStart(i, h)), es + [Entry(i, h, "", "", "")])
  {
    ToolsCounted(es);
    StartKeys(s, p, Keys(es), i, h);
    assert Keys(es + [Entry(i, h, "", "", "")]) == Keys(es) + [(i, h)];
  }

  // What a chunk with arguments for tool k changes.
  lemma JsonObserved(out: seq<Line>, id: string, k: nat, json: string)
    requires k < |Tools(out)| && forall j :: 0 <= j < |Tools(out)| ==> Tools(out)[j].index == j
    ensures var ts := Tools(out); Tools(out + [ToolChunk(id, k, "", "", json)]) == ts[k := ts[k].(args := ts[k].args + json)]
    ensures Text(out + [ToolChunk(id, k, "", "", json)]) == Text(out)
  {
    OneLine(out, ToolChunk(id, k, "", "", json));
    OneTool(Tools(out), ToolDelta(Some(k), "", "", json));
    FindNumbered(Tools(out), k);
  }

  lemma PlainObserved(s: State, i: int, out: seq<Line>, d: BlockDelta)
    requires !d.JsonDelta?
    ensures var out' := out + Emit(s, Delta(i, d));
            Text(out') == Text(out) + (if d.TextDelta? && i !in s.thinking then d.text else "") && Tools(out') == Tools(out)
  {
    var es := Emit(s, Delta(i, d));
    if es == [] {
      assert out + [] == out;
    } else {
      OneLine(out, es[0]);
    }
  }

  // The tools after a delta to the open block at `pos`.
  lemma ToolsObserved(s: State, p: Phase, m: Draft, out: seq<Line>, ds: seq<T.Piece>, i: int, d: BlockDelta, pos: nat)
    requires Together(s, p, m, out, ds) && p.Body? && i in p.open && Fits(p.open[i], d) && OpenAt(s, p, Keys(m.entries), i, pos)
    ensures var es := m.entries[pos := AddDelta(m.entries[pos], d)]; var out' := out + Emit(s, Delta(i, d));
            Tools(out') == StreamedTools(es) && |StreamedTools(es)| == s.toolCount
    ensures Text(out + Emit(s, Delta(i, d))) == Text(out) + if d.TextDelta? && i !in s.thinking then d.text else ""
  {
    var e := AddDelta(m.entries[pos], d);
    assert Keys(m.entries)[pos] == (i, e.head);
    ToolsAt(m.entries, pos, e);
    if d.JsonDelta? {
      ToolNumbers(m.entries);
      JsonObserved(out, s.messageID, s.toolIndex[i], d.json);
    } else {
      PlainObserved(s, i, out, d);
      JsonKept(m.entries, pos, d);
    }
  }

  lemma JsonKept(es: seq<Entry>, pos: nat, d: BlockDelta)
    requires pos < |es| && !d.JsonDelta?
    ensures StreamedTools(es[pos := AddDelta(es[pos], d)]) == StreamedTools(es)
  {
    ToolsAt(es, pos, AddDelta(es[pos], d));
  }

  // More text for the entry at `pos` is a piece of its number.
  lemma TextAdded(es: seq<Entry>, ds: seq<T.Piece>, pos: nat, text: string)
    requires TextsHold(es, ds) && pos < |es| && IsText(KindOf(es[pos].head))
    ensures var r := TextKeys(Keys(es)[..pos]);
            TextsHold(es[pos := AddDelta(es[pos], TextDelta(text))], ds + [T.Piece(r, text)])
  {
    var ks, r := Keys(es), TextKeys(Keys(es)[..pos]);
    var fs := es[pos := AddDelta(es[pos], TextDelta(text))];
    assert Keys(fs) == ks;
    TextKeysAhead(ks, pos);
    forall q | 0 <= q < |fs| && IsText(KindOf(fs[q].head))
      ensures fs[q].text == T.OfRank(ds + [T.Piece(r, text)], TextKeys(ks[..q]))
    {
      T.OneMoreOf(ds, T.Piece(r, text), TextKeys(ks[..q]));
      if q != pos {
        OtherNumber(ks, pos, q);
      }
    }
  }

  lemma OtherNumber(ks: seq<(int, BlockHead)>, p: nat, q: nat)
    requires p < |ks| && q < |ks| && p != q && IsText(KindOf(ks[p].1)) && IsText(KindOf(ks[q].1))
    ensures TextKeys(ks[..p]) != TextKeys(ks[..q])
  {
    if p < q {
      TextKeysAhead(ks[..q], p);
      assert ks[..q][..p] == ks[..p];
    } else {
      TextKeysAhead(ks[..p], q);
      assert ks[..p][..q] == ks[..q];
    }
  }

  lemma OtherAdded(es: seq<Entry>, ds: seq<T.Piece>, pos: nat, d: BlockDelta)
    requires TextsHold(es, ds) && pos < |es| && !IsText(KindOf(es[pos].head))
    ensures TextsHold(es[pos := AddDelta(es[pos], d)], ds)
  {
    assert Keys(es[pos := AddDelta(es[pos], d)]) == Keys(es);
  }

  // The pieces of text after a delta to the open block at `pos`.
  lemma TextObserved(s: State, p: Phase, m: Draft, out: seq<Line>, ds: seq<T.Piece>, i: int, d: BlockDelta, pos: nat)
    requires Together(s, p, m, out, ds) && p.Body? && i in p.open && Fits(p.open[i], d) && OpenAt(s, p, Keys(m.entries), i, pos)
    ensures var ds' := ds + PiecesOf(p, Delta(i, d));
            && TextsHold(m.entries[pos := AddDelta(m.entries[pos], d)], ds')
            && T.Arrived(ds') == T.Arrived(ds) + if d.TextDelta? && i !in s.thinking then d.text else ""
  {
    assert Keys(m.entries)[pos] == (i, m.entries[pos].head);
    if IsText(p.open[i]) {
      TextAdded(m.entries, ds, pos, d.text);
      T.OneMore(ds, T.Piece(RankIn(p.texts, i), d.text));
    } else {
      OtherAdded(m.entries, ds, pos, d);
      assert ds + [] == ds && T.Arrived(ds) + "" == T.Arrived(ds);
    }
  }

  lemma DeltaStepAt(s: State, p: Phase, m: Draft, out: seq<Line>, ds: seq<T.Piece>, i: int, d: BlockDelta, pos: nat)
    requires Together(s, p, m, out, ds) && p.Body? && i in p.open && Fits(p.open[i], d) && OpenAt(s, p, Keys(m.entries), i, pos)
    ensures var e := Delta(i, d); Together(Next(s, e), Check(p, e), ReplayStep(m, e), out + Emit(s, e), ds + PiecesOf(p, e))
  {
    DeltaReplayed(p, m, i, d, pos, s);
    UpdateSplit(m.entries, pos, AddDelta(m.entries[pos], d));
    ToolsObserved(s, p, m, out, ds, i, d, pos);
    TextObserved(s, p, m, out, ds, i, d, pos);
    assert Next(s, Delta(i, d)) == s && Check(p, Delta(i, d)) == p;
    var es := m.entries[pos := AddDelta(m.entries[pos], d)];
    assert OutHolds(s, es, out + Emit(s, Delta(i, d)), ds + PiecesOf(p, Delta(i, d)));
    SamePhase(s, p, m.entries, es);
  }

  lemma DeltaReplayed(p: Phase, m: Draft, i: int, d: BlockDelta, pos: nat, s: State)
    requires p.Body? && InBody(s, p, Keys(m.entries)) && i in p.open && OpenAt(s, p, Keys(m.entries), i, pos)
    ensures ReplayStep(m, Delta(i, d)) == m.(entries := m.entries[pos := AddDelta(m.entries[pos], d)])
  {
    assert Keys(m.entries)[pos].0 == m.entries[pos].index;
    DeltaAt(m.entries, pos, d);
  }

  lemma SamePhase(s: State, p: Phase, es: seq<Entry>, fs: seq<Entry>)
    requires PhaseHolds(s, p, es) && p.Body? && Keys(fs) == Keys(es)
    ensures PhaseHolds(s, p, fs)
  {
  }

  lemma DeltaStep(s: State, p: Phase, m: Draft, out: seq<Line>, ds: seq<T.Piece>, i: int, d: BlockDelta)
    requires Together(s, p, m, out, ds) && p.Body? && i in p.open && Fits(p.open[i], d)
    ensures var e := Delta(i, d); Together(Next(s, e), Check(p, e), ReplayStep(m, e), out + Emit(s, e), ds + PiecesOf(p, e))
  {
    var pos: nat :| OpenAt(s, p, Keys(m.entries), i, pos);
    DeltaStepAt(s, p, m, out, ds, i, d, pos);
  }

  lemma StopKeys(s: State, p: Phase, ks: seq<(int, BlockHead)>, i: int)
    requires p.Body? && InBody(s, p, ks) && i in p.open
    ensures InBody(s, p.(open := p.open - {i}), ks)
  {
    var q := p.(open := p.open - {i});
    forall j | j in q.open
      ensures exists pos: nat :: OpenAt(s, q, ks, j, pos)
    {
      var pos: nat :| OpenAt(s, p, ks, j, pos);
      assert OpenAt(s, q, ks, j, pos);
    }
  }

  lemma OtherStep(s: State, p: Phase, m: Draft, out: seq<Line>, ds: seq<T.Piece>, e: Event)
    requires Together(s, p, m, out, ds) && Check(p, e) != Broken && !e.Delta? && !e.BlockStart? && !e.BlockStop?
    ensures Together(Next(s, e), Check(p, e), ReplayStep(m, e), out + Emit(s, e), ds)
  {
    if Emit(s, e) == [] {
      assert out + [] == out;
    } else {
      OneLine(out, Emit(s, e)[0]);
    }
  }

  lemma Step(s: State, p: Phase, m: Draft, out: seq<Line>, ds: seq<T.Piece>, e: Event)
    requires Together(s, p, m, out, ds) && Check(p, e) != Broken
    ensures Together(Next(s, e), Check(p, e), ReplayStep(m, e), out + Emit(s, e), ds + PiecesOf(p, e))
  {
    if e.Delta? {
      DeltaStep(s, p, m, out, ds, e.index, e.delta);
    } else {
      assert ds + [] == ds;
      if e.BlockStart? {
        StartStep(s, p, m, out, ds, e.index, e.head);
      } else if e.BlockStop? {
        StopKeys(s, p, Keys(m.entries), e.index);
        assert out + [] == out;
      } else {
        OtherStep(s, p, m, out, ds, e);
      }
    }
  }

  /* ---------- The finish reason ---------- */

  predicate Unfinished(lines: seq<Line>) {
    forall k :: 0 <= k < |lines| ==> lines[k].Chunk? && lines[k].choice.Some? && lines[k].choice.value.finish.None?
  }

  predicate IsFinal(line: Line, finish: Option<string>) {
    line.Chunk? && line.choice == Some(Choice(Some(EmptyDelta), finish))
  }

  ghost predicate EndsWell(p: Phase, m: Draft, out: seq<Line>) {
    match p
    case Broken => true
    case Ended => |out| > 0 && Unfinished(out[..|out| - 1]) && IsFinal(out[|out| - 1], MapStopReason(m.stop))
    case Finished =>
      |out| > 1 && Unfinished(out[..|out| - 2]) && IsFinal(out[|out| - 2], MapStopReason(m.stop)) && out[|out| - 1] == Done
    case _ => Unfinished(out)
  }

  lemma EndStep(s: State, p: Phase, m: Draft, out: seq<Line>, e: Event)
    requires EndsWell(p, m, out)
    ensures EndsWell(Check(p, e), ReplayStep(m, e), out + Emit(s, e))
  {
    var out' := out + Emit(s, e);
    if Check(p, e).Ended? && p.Body? {
      assert out'[..|out'| - 1] == out;
    } else if Check(p, e).Finished? && p.Ended? {
      assert out'[..|out'| - 2] == out[..|out| - 1];
    } else if Check(p, e) == p {
      assert e.Ignored? ==> out' == out;
    }
  }

  ghost predicate Joint(s: State, p: Phase, m: Draft, out: seq<Line>, ds: seq<T.Piece>) {
    Together(s, p, m, out, ds) && EndsWell(p, m, out)
  }

  lemma JointStep(s: State, p: Phase, m: Draft, out: seq<Line>, ds: seq<T.Piece>, e: Event)
    requires Joint(s, p, m, out, ds) && Check(p, e) != Broken
    ensures Joint(Next(s, e), Check(p, e), ReplayStep(m, e), out + Emit(s, e), ds + PiecesOf(p, e))
  {
    Step(s, p, m, out, ds, e);
    EndStep(s, p, m, out, e);
  }

  lemma {:induction false} RunJoint(s: State, p: Phase, m: Draft, out: seq<Line>, ds: seq<T.Piece>, events: seq<Event>)
    requires Joint(s, p, m, out, ds) && CheckAll(p, events) == Finished
    ensures Joint(After(s, events), Finished, ReplayFrom(m, events), out + Run(s, events), ds + PiecesFrom(p, events))
    decreases |events|
  {
    if events == [] {
      assert out + [] == out && ds + [] == ds;
    } else {
      var e := events[0];
      if Check(p, e) == Broken {
        BrokenStays(events[1..]);
      } else {
        JointStep(s, p, m, out, ds, e);
        RunJoint(Next(s, e), Check(p, e), ReplayStep(m, e), out + Emit(s, e), ds + PiecesOf(p, e), events[1..]);
        Assoc(out, Emit(s, e), Run(Next(s, e), events[1..]));
        Assoc(ds, PiecesOf(p, e), PiecesFrom(Check(p, e), events[1..]));
      }
    }
  }

  /* ---------- Against the non-streaming translation ---------- */

  lemma {:induction false} ToBlocksOneMore(es: seq<Entry>, e: Entry)
    ensures ToBlocks(es + [e]) == ToBlocks(es) + [ToBlock(e)]
  {
    if es == [] {
      assert es + [e] == [e];
    } else {
      assert (es + [e])[1..] == es[1..] + [e];
      ToBlocksOneMore(es[1..], e);
    }
  }

  lemma {:induction false} PlainOneMore(bs: seq<Block>, b: Block)
    ensures PlainText(bs + [b]) == PlainText(bs) + if b.TextBlock? then b.text else ""
  {
    if bs == [] {
      assert bs + [b] == [b];
    } else {
      assert (bs + [b])[1..] == bs[1..] + [b];
      PlainOneMore(bs[1..], b);
      Assoc(if bs[0].TextBlock? then bs[0].text else "", PlainText(bs[1..]), if b.TextBlock? then b.text else "");
    }
  }

  lemma {:induction false} OtherOneMore(bs: seq<Block>, b: Block)
    ensures OtherText(bs + [b]) == OtherText(bs) + if b.OtherBlock? then b.text else ""
  {
    if bs == [] {
      assert bs + [b] == [b];
    } else {
      assert (bs + [b])[1..] == bs[1..] + [b];
      OtherOneMore(bs[1..], b);
      Assoc(if bs[0].OtherBlock? then bs[0].text else "", OtherText(bs[1..]), if b.OtherBlock? then b.text else "");
    }
  }

  lemma {:induction false} CallsOneMore(bs: seq<Block>, b: Block)
    ensures CallsOf(bs + [b]) == CallsOf(bs) + CallOf(b)
  {
    if bs == [] {
      assert bs + [b] == [b];
    } else {
      assert (bs + [b])[1..] == bs[1..] + [b];
      CallsOneMore(bs[1..], b);
    }
  }

  // The streamed text has the plain text plus the text of unknown blocks in it.
  lemma {:induction false} TextCompared(es: seq<Entry>)
    ensures |StreamedText(es)| == |PlainText(ToBlocks(es))| + |OtherText(ToBlocks(es))|
    ensures OtherText(ToBlocks(es)) == "" ==> StreamedText(es) == PlainText(ToBlocks(es))
  {
    if es != [] {
      var before, e := es[..|es| - 1], es[|es| - 1];
      assert es == before + [e];
      TextCompared(before);
      ToBlocksOneMore(before, e);
      PlainOneMore(ToBlocks(before), ToBlock(e));
      OtherOneMore(ToBlocks(before), ToBlock(e));
    }
  }

  // A call with the JSON text of its block as arguments, or the empty object for none.
  predicate SameCall(t: Tool, c: Call) {
    c.id == t.id && c.name == t.name && c.args == if t.args == "" then "{}" else t.args
  }

  lemma {:induction false} CallsCompared(es: seq<Entry>)
    ensures |StreamedTools(es)| == |CallsOf(ToBlocks(es))|
    ensures forall k :: 0 <= k < |StreamedTools(es)| ==> SameCall(StreamedTools(es)[k], CallsOf(ToBlocks(es))[k])
  {
    if es != [] {
      var before, e := es[..|es| - 1], es[|es| - 1];
      assert es == before + [e];
      CallsCompared(before);
      ToBlocksOneMore(before, e);
      CallsOneMore(ToBlocks(before), ToBlock(e));
      TextOfOneMore(before, e);
    }
  }

  lemma FinishesAgree(r: Response)
    ensures NonStreaming(r).finish == MapStopReason(r.stopReason)
  {
  }

  function Entries(events: seq<Event>): seq<Entry> {
    ReplayFrom(Draft("", [], None), events).entries
  }

  lemma HoldFewer(pre: seq<Entry>, e: Entry, ds: seq<T.Piece>)
    requires HoldRanks(pre + [e], ds)
    ensures HoldRanks(pre, ds) && (IsText(KindOf(e.head)) ==> e.text == T.OfRank(ds, TextKeys(Keys(pre))))
    ensures TextKeys(Keys(pre + [e])) == TextKeys(Keys(pre)) + if IsText(KindOf(e.head)) then 1 else 0
  {
    var es := pre + [e];
    assert Keys(es)[..|pre|] == Keys(pre) && es[|pre|] == e;
    forall pos | 0 <= pos < |pre| && IsText(KindOf(pre[pos].head))
      ensures pre[pos].text == T.OfRank(ds, TextKeys(Keys(pre)[..pos]))
    {
      assert Keys(pre)[..pos] == Keys(es)[..pos] && es[pos] == pre[pos];
    }
  }

  lemma {:induction false} TextsByRank(es: seq<Entry>, ds: seq<T.Piece>)
    requires HoldRanks(es, ds)
    ensures StreamedText(es) == T.ByRank(ds, TextKeys(Keys(es)))
    decreases |es|
  {
    if es != [] {
      var pre, e := es[..|es| - 1], es[|es| - 1];
      assert es == pre + [e];
      HoldFewer(pre, e, ds);
      TextsByRank(pre, ds);
      TextOfOneMore(pre, e);
      assert StreamedText(pre) + "" == StreamedText(pre);
    }
  }

  function Texts(events: seq<Event>): nat {
    TextKeys(Keys(Entries(events)))
  }

  lemma StartsJoint()
    ensures Joint(Init, Fresh, Draft("", [], None), [], [])
  {
  }

  lemma StreamJoint(events: seq<Event>)
    requires WellFormed(events)
    ensures Joint(After(Init, events), Finished, ReplayFrom(Draft("", [], None), events), Translate(events), Pieces(events))
  {
    StartsJoint();
    RunJoint(Init, Fresh, Draft("", [], None), [], [], events);
    assert [] + Run(Init, events) == Translate(events) && [] + Pieces(events) == Pieces(events);
  }

  lemma StreamMeaning(events: seq<Event>)
    requires WellFormed(events)
    ensures Text(Translate(events)) == T.Arrived(Pieces(events)) && T.AllBelow(Pieces(events), Texts(events))
    ensures StreamedText(Entries(events)) == T.ByRank(Pieces(events), Texts(events))
    ensures Tools(Translate(events)) == StreamedTools(Entries(events))
    ensures EndsWell(Finished, ReplayFrom(Draft("", [], None), events), Translate(events))
  {
    StreamJoint(events);
    TextsByRank(Entries(events), Pieces(events));
  }

  /* ---------- The tool calls, read off the events ---------- */

  // The JSON text that the events bring for a block.
  function JsonOf(events: seq<Event>, i: int): string {
    if events == [] then ""
    else (if events[0].Delta? && events[0].delta.JsonDelta? && events[0].index == i then events[0].delta.json else "") + JsonOf(events[1..], i)
  }

  // The tool blocks in the order they start, numbered from n, each with its JSON text.
  function InputTools(events: seq<Event>, n: nat): seq<Tool>
    decreases |events|
  {
    if events == [] then []
    else if events[0].BlockStart? && events[0].head.ToolHead? then
      [Tool(n, events[0].head.id, events[0].head.name, JsonOf(events[1..], events[0].index))] + InputTools(events[1..], n + 1)
    else InputTools(events[1..], n)
  }

  // The entries once the events have brought the rest of their JSON text.
  function Complete(e: Entry, events: seq<Event>): Entry {
    e.(json := e.json + JsonOf(events, e.index))
  }

  function Completed(es: seq<Entry>, events: seq<Event>): seq<Entry> {
    if es == [] then [] else Completed(es[..|es| - 1], events) + [Complete(es[|es| - 1], events)]
  }

  // Only heads and JSON texts show among the tools.
  lemma {:induction false} CompletedTools(es: seq<Entry>, fs: seq<Entry>, a: seq<Event>, b: seq<Event>)
    requires |es| == |fs|
    requires forall k :: 0 <= k < |es| ==> es[k].head == fs[k].head && Complete(es[k], a).json == Complete(fs[k], b).json
    ensures StreamedTools(Completed(es, a)) == StreamedTools(Completed(fs, b)) && |StreamedTools(es)| == |StreamedTools(fs)|
    decreases |es|
  {
    if es != [] {
      var n := |es| - 1;
      assert forall k :: 0 <= k < n ==> es[..n][k] == es[k] && fs[..n][k] == fs[k];
      CompletedTools(es[..n], fs[..n], a, b);
      TextOfOneMore(Completed(es[..n], a), Complete(es[n], a));
      TextOfOneMore(Completed(fs[..n], b), Complete(fs[n], b));
    }
  }

  lemma {:induction false} DeltaEverywhere(es: seq<Entry>, i: int, d: BlockDelta)
    ensures |AddDeltaAt(es, i, d)| == |es|
    ensures forall k :: 0 <= k < |es| ==> AddDeltaAt(es, i, d)[k] == if es[k].index == i then AddDelta(es[k], d) else es[k]
  {
    if es != [] {
      DeltaEverywhere(es[1..], i, d);
    }
  }

  lemma DeltaCompletes(es: seq<Entry>, i: int, d: BlockDelta, rest: seq<Event>)
    ensures StreamedTools(Completed(AddDeltaAt(es, i, d), rest)) == StreamedTools(Completed(es, [Delta(i, d)] + rest))
    ensures |StreamedTools(AddDeltaAt(es, i, d))| == |StreamedTools(es)|
  {
    var fs, more := AddDeltaAt(es, i, d), [Delta(i, d)] + rest;
    assert more[1..] == rest;
    DeltaEverywhere(es, i, d);
    forall k | 0 <= k < |es|
      ensures fs[k].head == es[k].head && Complete(fs[k], rest).json == Complete(es[k], more).json
    {
      if d.JsonDelta? && es[k].index == i {
        Assoc(es[k].json, d.json, JsonOf(rest, i));
      } else {
        assert "" + JsonOf(rest, es[k].index) == JsonOf(rest, es[k].index);
      }
    }
    CompletedTools(fs, es, rest, more);
  }

  lemma OtherCompletes(es: seq<Entry>, e: Event, rest: seq<Event>)
    requires !e.Delta?
    ensures StreamedTools(Completed(es, rest)) == StreamedTools(Completed(es, [e] + rest))
  {
    assert ([e] + rest)[1..] == rest;
    forall k | 0 <= k < |es|
      ensures Complete(es[k], rest).json == Complete(es[k], [e] + rest).json
    {
      assert "" + JsonOf(rest, es[k].index) == JsonOf(rest, es[k].index);
    }
    CompletedTools(es, es, rest, [e] + rest);
  }

  function StartedTool(n: nat, i: int, h: BlockHead, rest: seq<Event>): seq<Tool> {
    if h.ToolHead? then [Tool(n, h.id, h.name, JsonOf(rest, i))] else []
  }

  lemma StartCompletes(es: seq<Entry>, i: int, h: BlockHead, rest: seq<Event>)
    ensures var fs := es + [Entry(i, h, "", "", "")];
            && StreamedTools(Completed(fs, rest))
               == StreamedTools(Completed(es, rest)) + StartedTool(|StreamedTools(es)|, i, h, rest)
            && |StreamedTools(fs)| == |StreamedTools(es)| + |StartedTool(|StreamedTools(es)|, i, h, rest)|
  {
    var e := Entry(i, h, "", "", "");
    assert (es + [e])[..|es|] == es && "" + JsonOf(rest, i) == JsonOf(rest, i);
    TextOfOneMore(es, e);
    TextOfOneMore(Completed(es, rest), Complete(e, rest));
    CompletedCount(es, rest);
  }

  lemma {:induction false} CompletedCount(es: seq<Entry>, events: seq<Event>)
    ensures |StreamedTools(Completed(es, events))| == |StreamedTools(es)|
    decreases |es|
  {
    if es != [] {
      var n := |es| - 1;
      CompletedCount(es[..n], events);
      TextOfOneMore(Completed(es[..n], events), Complete(es[n], events));
    }
  }

  lemma {:induction false} NothingCompletes(es: seq<Entry>)
    ensures StreamedTools(Completed(es, [])) == StreamedTools(es)
    decreases |es|
  {
    if es != [] {
      var n := |es| - 1;
      NothingCompletes(es[..n]);
      TextOfOneMore(Completed(es[..n], []), Complete(es[n], []));
      assert es[n].json + "" == es[n].json;
    }
  }

  lemma {:induction false} ToolsRead(m: Draft, events: seq<Event>)
    ensures StreamedTools(ReplayFrom(m, events).entries)
            == StreamedTools(Completed(m.entries, events)) + InputTools(events, |StreamedTools(m.entries)|)
    decreases |events|
  {
    if events == [] {
      NothingCompletes(m.entries);
    } else {
      var e, rest := events[0], events[1..];
      assert events == [e] + rest;
      ToolsRead(ReplayStep(m, e), rest);
      if e.Delta? {
        DeltaCompletes(m.entries, e.index, e.delta, rest);
      } else {
        OtherCompletes(m.entries, e, rest);
        if e.BlockStart? {
          var n := |StreamedTools(m.entries)|;
          var one := StartedTool(n, e.index, e.head, rest);
          StartCompletes(m.entries, e.index, e.head, rest);
          ToolsReadStart(m.entries, e.index, e.head, rest);
          Assoc(StreamedTools(Completed(m.entries, rest)), one, InputTools(rest, n + |one|));
        }
      }
    }
  }

  lemma ToolsReadStart(es: seq<Entry>, i: int, h: BlockHead, rest: seq<Event>)
    ensures var n := |StreamedTools(es)|; var one := StartedTool(n, i, h, rest);
            InputTools([BlockStart(i, h)] + rest, n) == one + InputTools(rest, n + |one|)
  {
    assert ([BlockStart(i, h)] + rest)[1..] == rest;
  }

  /* ---------- The agreement ---------- */

  /** For every well-formed stream, whose blocks may overlap: the same tool calls in order,
    * with the id, name and JSON text of their blocks, except that a block without JSON text
    * has "" on one path and "{}" on the other; the last chunk before [DONE] carries the same
    * finish reason, no other does; and where texts come in turn, the same text if and only if
    * no block of an unknown kind carries text. */
  lemma StreamingAgrees(events: seq<Event>)
    requires WellFormed(events)
    ensures var out, m, input := Translate(events), NonStreaming(Replay(events)), InputTools(events, 0);
            && (TextsInTurn(events) ==> (Text(out) == MessageText(m) <==> OtherText(Replay(events).content) == ""))
            && Tools(out) == input && |m.toolCalls| == |input|
            && (forall k :: 0 <= k < |input| ==> input[k].index == k && SameCall(input[k], m.toolCalls[k]))
            && |out| > 1 && Unfinished(out[..|out| - 2]) && IsFinal(out[|out| - 2], m.finish) && out[|out| - 1] == Done
  {
    var es := Entries(events);
    StreamMeaning(events);
    if TextsInTurn(events) {
      T.InTurnAgree(Pieces(events), Texts(events));
    }
    NonStreamingMeaning(Replay(events));
    TextCompared(es);
    CallsCompared(es);
    ToolNumbers(es);
    ToolsRead(Draft("", [], None), events);
    assert [] + InputTools(events, 0) == InputTools(events, 0);
    FinishesAgree(Replay(events));
  }

  /* ---------- The text exactly ---------- */

  predicate TextsSame(events: seq<Event>) {
    Text(Translate(events)) == MessageText(NonStreaming(Replay(events)))
  }

  // The same but for the texts, and those empty in both or in neither.
  predicate SameEvent(a: Event, b: Event) {
    || a == b
    || (a.Delta? && b.Delta? && a.index == b.index && a.delta.TextDelta? && b.delta.TextDelta? && (a.delta.text == "" <==> b.delta.text == ""))
  }

  predicate SameShape(a: seq<Event>, b: seq<Event>) {
    |a| == |b| && forall k :: 0 <= k < |a| ==> SameEvent(a[k], b[k])
  }

  lemma {:induction false} ShapeChecked(p: Phase, a: seq<Event>, b: seq<Event>)
    requires SameShape(a, b)
    ensures CheckAll(p, a) == CheckAll(p, b) && T.SamePieces(PiecesFrom(p, a), PiecesFrom(p, b))
    decreases |a|
  {
    if a != [] {
      assert SameEvent(a[0], b[0]);
      EventChecked(p, a[0], b[0]);
      ShapeChecked(Check(p, a[0]), a[1..], b[1..]);
      T.SameJoined(PiecesOf(p, a[0]), PiecesFrom(Check(p, a[0]), a[1..]), PiecesOf(p, b[0]), PiecesFrom(Check(p, b[0]), b[1..]));
    }
  }

  lemma EventChecked(p: Phase, a: Event, b: Event)
    requires SameEvent(a, b)
    ensures Check(p, a) == Check(p, b) && T.SamePieces(PiecesOf(p, a), PiecesOf(p, b))
  {
  }

  predicate SameEntry(e: Entry, f: Entry) {
    e.index == f.index && e.head == f.head && (e.text == "" <==> f.text == "")
  }

  predicate SameEntries(es: seq<Entry>, fs: seq<Entry>) {
    |es| == |fs| && forall k :: 0 <= k < |es| ==> SameEntry(es[k], fs[k])
  }

  lemma ShapeReplayStep(m: Draft, n: Draft, a: Event, b: Event)
    requires SameEvent(a, b) && SameEntries(m.entries, n.entries)
    ensures SameEntries(ReplayStep(m, a).entries, ReplayStep(n, b).entries)
  {
    if a.Delta? {
      DeltaEverywhere(m.entries, a.index, a.delta);
      DeltaEverywhere(n.entries, b.index, b.delta);
    }
  }

  lemma {:induction false} ShapeReplayed(m: Draft, n: Draft, a: seq<Event>, b: seq<Event>)
    requires SameShape(a, b) && SameEntries(m.entries, n.entries)
    ensures SameEntries(ReplayFrom(m, a).entries, ReplayFrom(n, b).entries)
    decreases |a|
  {
    if a != [] {
      ShapeReplayStep(m, n, a[0], b[0]);
      ShapeReplayed(ReplayStep(m, a[0]), ReplayStep(n, b[0]), a[1..], b[1..]);
    }
  }

  lemma {:induction false} ShapeOthers(es: seq<Entry>, fs: seq<Entry>)
    requires SameEntries(es, fs)
    ensures OtherText(ToBlocks(es)) == "" <==> OtherText(ToBlocks(fs)) == ""
    decreases |es|
  {
    if es != [] {
      ShapeOthers(es[1..], fs[1..]);
      assert SameEntry(es[0], fs[0]);
      assert ToBlocks(es)[1..] == ToBlocks(es[1..]) && ToBlocks(fs)[1..] == ToBlocks(fs[1..]);
    }
  }

  // The stream with other texts for the same deltas.
  function Retexted(p: Phase, events: seq<Event>, r: nat): (es: seq<Event>)
    ensures |es| == |events|
    decreases |events|
  {
    if events == [] then []
    else
      var e, ds := events[0], PiecesOf(p, events[0]);
      [if ds == [] then e else Delta(e.index, TextDelta(T.Recolor(ds[0], r).text))] + Retexted(Check(p, e), events[1..], r)
  }

  lemma {:induction false} RetextedShape(p: Phase, events: seq<Event>, r: nat)
    ensures SameShape(events, Retexted(p, events, r))
    decreases |events|
  {
    if events != [] {
      RetextedShape(Check(p, events[0]), events[1..], r);
    }
  }

  lemma {:induction false} RetextedPieces(p: Phase, events: seq<Event>, r: nat)
    ensures PiecesFrom(p, Retexted(p, events, r)) == T.Recolored(PiecesFrom(p, events), r)
    decreases |events|
  {
    if events != [] {
      var e, fs := events[0], Retexted(p, events, r);
      assert SameEvent(e, fs[0]);
      assert Check(p, fs[0]) == Check(p, e) && fs[1..] == Retexted(Check(p, e), events[1..], r);
      RetextedPieces(Check(p, e), events[1..], r);
      assert PiecesOf(p, fs[0]) == T.Recolored(PiecesOf(p, e), r);
    }
  }

  // The plain text is the text block by block, or shorter.
  lemma PlainOrShorter(events: seq<Event>)
    requires WellFormed(events) && TextsSame(events)
    ensures T.Arrived(Pieces(events)) == T.ByRank(Pieces(events), Texts(events))
  {
    StreamMeaning(events);
    T.SameLength(Pieces(events), Texts(events));
    NonStreamingMeaning(Replay(events));
    TextCompared(Entries(events));
  }

  lemma OutOfTurnDiffers(events: seq<Event>) returns (other: seq<Event>)
    requires WellFormed(events) && !TextsInTurn(events)
    ensures SameShape(events, other) && !TextsSame(other)
  {
    var ds := Pieces(events);
    var p, q :| 0 <= p < q < |ds| && ds[p].text != "" && ds[q].text != "" && ds[p].rank > ds[q].rank;
    var r := ds[q].rank;
    other := Retexted(Fresh, events, r);
    RetextedShape(Fresh, events, r);
    RetextedPieces(Fresh, events, r);
    ShapeChecked(Fresh, events, other);
    T.OutOfTurnDiffers(ds, Texts(other), r, p, q);
    if TextsSame(other) {
      PlainOrShorter(other);
    }
  }

  /** The two paths carry the same text, whatever the texts of the deltas are, if and only if
    * no text comes to a block after a block started later has got some, and none to a block of
    * an unknown kind. */
  lemma TextsAgreeExactly(events: seq<Event>)
    requires WellFormed(events)
    ensures (forall other :: SameShape(events, other) ==> TextsSame(other))
            <==> TextsInTurn(events) && OtherText(Replay(events).content) == ""
  {
    if TextsInTurn(events) && OtherText(Replay(events).content) == "" {
      forall other | SameShape(events, other)
        ensures TextsSame(other)
      {
        ShapeChecked(Fresh, events, other);
        T.SameTurns(Pieces(events), Pieces(other));
        ShapeReplayed(Draft("", [], None), Draft("", [], None), events, other);
        ShapeOthers(Entries(events), Entries(other));
        StreamingAgrees(other);
      }
    } else {
      assert SameShape(events, events);
      StreamingAgrees(events);
      if !TextsInTurn(events) {
        var other := OutOfTurnDiffers(events);
      }
    }
  }

  // The acceptor of well-bracketed streams asks for more.
  ghost predicate Looser(q: B.Phase, p: Phase) {
    match q
    case Fresh => p.Fresh?
    case Body(next, open) => p.Body? && p.open == open && forall i :: i in p.used ==> i < next
    case Ended => p.Ended?
    case Finished => p.Finished?
    case Broken => true
  }

  lemma {:induction false} LooserAll(q: B.Phase, p: Phase, events: seq<Event>)
    requires Looser(q, p)
    ensures Looser(B.CheckAll(q, events), CheckAll(p, events))
    decreases |events|
  {
    if events != [] {
      LooserAll(B.Check(q, events[0]), Check(p, events[0]), events[1..]);
    }
  }

  /** So this holds of every well-bracketed stream, such as those of the translators to
    * Anthropic, which keep the text and the tool calls open side by side. */
  lemma BracketedIsWellFormed(events: seq<Event>)
    requires B.WellBracketed(events)
    ensures WellFormed(events)
  {
    LooserAll(B.Fresh, Fresh, events);
  }

  lemma EventFirst(p: Phase, e: Event, rest: seq<Event>)
    ensures CheckAll(p, [e] + rest) == CheckAll(Check(p, e), rest)
    ensures PiecesFrom(p, [e] + rest) == PiecesOf(p, e) + PiecesFrom(Check(p, e), rest)
  {
    assert ([e] + rest)[1..] == rest;
  }

  // Two text blocks at once, the second one getting its text first.
  function TwoTexts(): seq<Event> {
    [MessageStart("m")] + ([BlockStart(0, TextHead)] + ([BlockStart(1, TextHead)] + TwoDeltas()))
  }

  function TwoDeltas(): seq<Event> {
    [Delta(1, TextDelta("b"))] + ([Delta(0, TextDelta("a"))] + TwoStops())
  }

  function TwoStops(): seq<Event> {
    [BlockStop(0)] + ([BlockStop(1)] + ([MessageDelta(None)] + ([MessageStop] + [])))
  }

  const BothOpen := Body({0, 1}, map[0 := KText, 1 := KText], [0, 1])

  lemma StopsPieces()
    ensures CheckAll(BothOpen, TwoStops()) == Finished && PiecesFrom(BothOpen, TwoStops()) == []
  {
    var p, q := Check(BothOpen, BlockStop(0)), Body({0, 1}, map[], [0, 1]);
    assert Check(p, BlockStop(1)) == q;
    EventFirst(Ended, MessageStop, []);
    EventFirst(q, MessageDelta(None), [MessageStop] + []);
    EventFirst(p, BlockStop(1), [MessageDelta(None)] + ([MessageStop] + []));
    EventFirst(BothOpen, BlockStop(0), [BlockStop(1)] + ([MessageDelta(None)] + ([MessageStop] + [])));
  }

  lemma DeltasPieces()
    ensures CheckAll(BothOpen, TwoDeltas()) == Finished && PiecesFrom(BothOpen, TwoDeltas()) == [T.Piece(1, "b"), T.Piece(0, "a")]
  {
    StopsPieces();
    assert RankIn([0, 1], 1) == 1 && RankIn([0, 1], 0) == 0;
    EventFirst(BothOpen, Delta(0, TextDelta("a")), TwoStops());
    EventFirst(BothOpen, Delta(1, TextDelta("b")), [Delta(0, TextDelta("a"))] + TwoStops());
  }

  lemma TwoTextsPieces()
    ensures WellFormed(TwoTexts()) && Pieces(TwoTexts()) == [T.Piece(1, "b"), T.Piece(0, "a")]
  {
    var p, q := Body({}, map[], []), Body({0}, map[0 := KText], [0]);
    assert Check(p, BlockStart(0, TextHead)) == q && Check(q, BlockStart(1, TextHead)) == BothOpen;
    DeltasPieces();
    EventFirst(q, BlockStart(1, TextHead), TwoDeltas());
    EventFirst(p, BlockStart(0, TextHead), [BlockStart(1, TextHead)] + TwoDeltas());
    EventFirst(Fresh, MessageStart("m"), [BlockStart(0, TextHead)] + ([BlockStart(1, TextHead)] + TwoDeltas()));
  }

  lemma {:induction false} TwoJoined(n: nat)
    ensures var ds := [T.Piece(1, "b"), T.Piece(0, "a")];
            T.Arrived(ds) == "ba" && (n > 0 ==> T.ByRank(ds, n) != "" && T.ByRank(ds, n)[0] == 'a')
  {
    var ds := [T.Piece(1, "b"), T.Piece(0, "a")];
    assert ds[..1] == [T.Piece(1, "b")] && ds[..1][..0] == [];
    assert T.OfRank(ds, 0) == "a";
    if n > 1 {
      TwoJoined(n - 1);
    }
  }

  lemma OverlapDiffers()
    requires WellFormed(TwoTexts()) && Pieces(TwoTexts()) == [T.Piece(1, "b"), T.Piece(0, "a")]
    ensures !TextsSame(TwoTexts())
  {
    TwoJoined(Texts(TwoTexts()));
    if TextsSame(TwoTexts()) {
      StreamMeaning(TwoTexts());
      PlainOrShorter(TwoTexts());
    }
  }

  /** Such a stream, whose text comes in another order. */
  lemma OverlapReorders()
    ensures WellFormed(TwoTexts()) && !TextsInTurn(TwoTexts())
    ensures Text(Translate(TwoTexts())) == "ba" && !TextsSame(TwoTexts())
  {
    TwoTextsPieces();
    StreamMeaning(TwoTexts());
    TwoJoined(0);
    OverlapDiffers();
  }
}
