/** What an Anthropic client may rely on in an event stream: message_start first,
  * blocks numbered 0, 1, 2, ... in the order they start, deltas only inside a block of
  * their kind, every block stopped exactly once, then message_delta and message_stop.
  * `WellBracketed` is an acceptor for such streams and `Meaning` says in terms of
  * positions what it accepts.
  */
module Bracketing {
  import opened StreamTypes

  predicate Fits(k: Kind, d: BlockDelta) {
    match d
    case TextDelta(_) => k == KText
    case ThinkingDelta(_) => k == KThinking
    case JsonDelta(_) => k == KTool
  }

  datatype Phase = Fresh | Body(next: nat, open: map<int, Kind>) | Ended | Finished | Broken

  function Check(p: Phase, e: Event): Phase {
    match e
    case MessageStart(_) => if p.Fresh? then Body(0, map[]) else Broken
    case BlockStart(i, h) => if p.Body? && i == p.next then Body(p.next + 1, p.open[i := KindOf(h)]) else Broken
    case Delta(i, d) => if p.Body? && i in p.open && Fits(p.open[i], d) then p else Broken
    case BlockStop(i) => if p.Body? && i in p.open then Body(p.next, p.open - {i}) else Broken
    case MessageDelta(_) => if p.Body? && p.open == map[] then Ended else Broken
    case MessageStop => if p.Ended? then Finished else Broken
    case Ignored => p
  }

  function CheckAll(p: Phase, events: seq<Event>): Phase
    decreases |events|
  {
    if events == [] then p else CheckAll(Check(p, events[0]), events[1..])
  }

  predicate WellBracketed(events: seq<Event>) {
    CheckAll(Fresh, events) == Finished
  }

  lemma {:induction false} CheckAppend(p: Phase, a: seq<Event>, b: seq<Event>)
    ensures CheckAll(p, a + b) == CheckAll(CheckAll(p, a), b)
    decreases |a|
  {
    if a == [] {
      assert a + b == b;
    } else {
      assert (a + b)[1..] == a[1..] + b;
      CheckAppend(Check(p, a[0]), a[1..], b);
    }
  }

  lemma OneEvent(p: Phase, a: Event)
    ensures CheckAll(p, [a]) == Check(p, a)
  {
    assert [a][1..] == [];
  }

  lemma TwoEvents(p: Phase, a: Event, b: Event)
    ensures CheckAll(p, [a, b]) == Check(Check(p, a), b)
  {
    assert [a, b][1..] == [b];
    OneEvent(Check(p, a), b);
  }

  /* ---------- What acceptance means ---------- */

  function Starts(events: seq<Event>, i: int): nat {
    if events == [] then 0
    else (if events[0].BlockStart? && events[0].index == i then 1 else 0) + Starts(events[1..], i)
  }

  function Stops(events: seq<Event>, i: int): nat {
    if events == [] then 0
    else (if events[0].BlockStop? && events[0].index == i then 1 else 0) + Stops(events[1..], i)
  }

  lemma {:induction false} StartsAppend(a: seq<Event>, b: seq<Event>, i: int)
    ensures Starts(a + b, i) == Starts(a, i) + Starts(b, i)
  {
    if a == [] {
      assert a + b == b;
    } else {
      assert (a + b)[1..] == a[1..] + b;
      StartsAppend(a[1..], b, i);
    }
  }

  lemma {:induction false} StopsAppend(a: seq<Event>, b: seq<Event>, i: int)
    ensures Stops(a + b, i) == Stops(a, i) + Stops(b, i)
  {
    if a == [] {
      assert a + b == b;
    } else {
      assert (a + b)[1..] == a[1..] + b;
      StopsAppend(a[1..], b, i);
    }
  }

  // The delta at position p has its block's start before it and its stop after it.
  ghost predicate Enclosed(events: seq<Event>, p: nat)
    requires p < |events| && events[p].Delta?
  {
    exists q, r :: 0 <= q < p < r < |events|
      && events[q].BlockStart? && events[q].index == events[p].index && Fits(KindOf(events[q].head), events[p].delta)
      && events[r] == BlockStop(events[p].index)
  }

  lemma {:induction false} BrokenStays(p: Phase, events: seq<Event>)
    requires p == Broken
    ensures CheckAll(p, events) == Broken
  {
    if events != [] {
      BrokenStays(p, events[1..]);
    }
  }

  lemma {:induction false} FinishedTail(p: Phase, events: seq<Event>)
    requires p == Finished && CheckAll(p, events) == Finished
    ensures forall k :: 0 <= k < |events| ==> events[k].Ignored?
    ensures forall i :: Starts(events, i) == 0 && Stops(events, i) == 0
  {
    if events != [] {
      if !events[0].Ignored? {
        BrokenStays(Check(p, events[0]), events[1..]);
      } else {
        FinishedTail(p, events[1..]);
        NothingBefore(events);
      }
    }
  }

  lemma NothingBefore(events: seq<Event>)
    requires events != [] && !events[0].BlockStart? && !events[0].BlockStop?
    requires forall i :: Starts(events[1..], i) == 0 && Stops(events[1..], i) == 0
    ensures forall i :: Starts(events, i) == 0 && Stops(events, i) == 0
  {
    forall i
      ensures Starts(events, i) == 0 && Stops(events, i) == 0
    {
      assert Starts(events[1..], i) == 0 && Stops(events[1..], i) == 0;
    }
  }

  lemma {:induction false} EndedTail(p: Phase, events: seq<Event>)
    requires p == Ended && CheckAll(p, events) == Finished
    ensures Ignored !in events ==> events == [MessageStop]
    ensures forall k :: 0 <= k < |events| ==> events[k].Ignored? || events[k].MessageStop?
    ensures forall i :: Starts(events, i) == 0 && Stops(events, i) == 0
  {
    assert events != [];
    if events[0].MessageStop? {
      FinishedTail(Finished, events[1..]);
      assert |events| > 1 ==> events[1] == events[1..][0];
      NothingBefore(events);
    } else if events[0].Ignored? {
      EndedTail(p, events[1..]);
      NothingBefore(events);
    } else {
      BrokenStays(Check(p, events[0]), events[1..]);
    }
  }

  // message_delta and message_stop come last, and nowhere else.
  ghost predicate EndsMessage(events: seq<Event>) {
    && |events| >= 2 && events[|events| - 2].MessageDelta? && events[|events| - 1].MessageStop?
    && forall k :: 0 <= k < |events| - 2 ==> !events[k].MessageDelta? && !events[k].MessageStop?
  }

  // From inside the body: n is the number of blocks at the end of the stream.
  lemma {:induction false} BodyTail(p: Phase, events: seq<Event>) returns (n: nat)
    requires p.Body? && CheckAll(p, events) == Finished
    requires forall i :: i in p.open ==> 0 <= i < p.next
    ensures p.next <= n
    ensures forall i :: Starts(events, i) == if p.next <= i < n then 1 else 0
    ensures forall i :: Stops(events, i) == if i in p.open || p.next <= i < n then 1 else 0
    ensures forall k :: 0 <= k < |events| ==> !events[k].MessageStart?
    ensures Ignored !in events ==> EndsMessage(events)
    decreases |events|
  {
    var e := events[0];
    var q := Check(p, e);
    if q == Broken {
      BrokenStays(q, events[1..]);
    } else if q.Ended? {
      EndedTail(q, events[1..]);
      n := p.next;
    } else {
      n := BodyTail(q, events[1..]);
    }
  }

  // Where the deltas of a body stand: inside an open block or inside one started here.
  ghost predicate Placed(open: map<int, Kind>, events: seq<Event>, k: nat)
    requires k < |events| && events[k].Delta?
  {
    && (exists r :: k < r < |events| && events[r] == BlockStop(events[k].index))
    && ((events[k].index in open && Fits(open[events[k].index], events[k].delta))
        || (exists q :: 0 <= q < k && events[q].BlockStart? && events[q].index == events[k].index
                        && Fits(KindOf(events[q].head), events[k].delta)))
  }

  lemma {:induction false} StopFollows(p: Phase, events: seq<Event>, i: int) returns (r: nat)
    requires p.Body? && CheckAll(p, events) == Finished && i in p.open && i < p.next
    ensures r < |events| && events[r] == BlockStop(i)
    decreases |events|
  {
    var q := Check(p, events[0]);
    if events[0] == BlockStop(i) {
      r := 0;
    } else if q == Broken {
      BrokenStays(q, events[1..]);
    } else {
      r := StopFollows(q, events[1..], i);
      r := r + 1;
    }
  }

  lemma {:induction false} DeltaPlaced(p: Phase, events: seq<Event>, k: nat)
    requires p.Body? && CheckAll(p, events) == Finished && k < |events| && events[k].Delta?
    requires forall i :: i in p.open ==> 0 <= i < p.next
    ensures Placed(p.open, events, k)
    decreases |events|
  {
    var q := Check(p, events[0]);
    if q == Broken {
      BrokenStays(q, events[1..]);
    } else if k == 0 {
      var r := StopFollows(q, events[1..], events[0].index);
      assert events[r + 1] == BlockStop(events[0].index);
    } else if q.Ended? {
      assert events[1..][k - 1] == events[k];
      EndedTail(q, events[1..]);
    } else {
      DeltaPlaced(q, events[1..], k - 1);
      var rest := events[1..];
      var r :| k - 1 < r < |rest| && rest[r] == BlockStop(rest[k - 1].index);
      assert events[r + 1] == BlockStop(events[k].index);
      if !(rest[k - 1].index in q.open && Fits(q.open[rest[k - 1].index], rest[k - 1].delta)) {
        var j :| 0 <= j < k - 1 && rest[j].BlockStart? && rest[j].index == rest[k - 1].index
                 && Fits(KindOf(rest[j].head), rest[k - 1].delta);
        assert events[j + 1] == rest[j];
      }
    }
  }

  /** An accepted stream: message_start opens it, message_delta and message_stop end it, every index below n is started
    * once and stopped once, no other index occurs, and each delta lies between the
    * start of a block of its kind and that block's stop. */
  lemma Meaning(events: seq<Event>) returns (n: nat)
    requires WellBracketed(events) && Ignored !in events
    ensures |events| > 0 && events[0].MessageStart? && EndsMessage(events)
    ensures forall k :: 0 < k < |events| ==> !events[k].MessageStart?
    ensures forall i :: Starts(events, i) == if 0 <= i < n then 1 else 0
    ensures forall i :: Stops(events, i) == if 0 <= i < n then 1 else 0
    ensures forall k :: 0 <= k < |events| && events[k].Delta? ==> Enclosed(events, k)
  {
    var p := Check(Fresh, events[0]);
    if p == Broken {
      BrokenStays(p, events[1..]);
    }
    n := BodyTail(p, events[1..]);
    forall k | 0 < k < |events|
      ensures !events[k].MessageStart?
    {
      assert events[k] == events[1..][k - 1];
    }
    forall k | 0 <= k < |events| && events[k].Delta?
      ensures Enclosed(events, k)
    {
      DeltaPlaced(p, events[1..], k - 1);
      var rest := events[1..];
      var r :| k - 1 < r < |rest| && rest[r] == BlockStop(rest[k - 1].index);
      var q :| 0 <= q < k - 1 && rest[q].BlockStart? && rest[q].index == rest[k - 1].index
               && Fits(KindOf(rest[q].head), rest[k - 1].delta);
      assert events[q + 1] == rest[q] && events[r + 1] == rest[r];
    }
  }
}
