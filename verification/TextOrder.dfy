/** Pieces of text that belong to numbered blocks: joined as they arrive, or block by block.
  * When the two agree, and that otherwise they need not.
  */
module TextOrder {

  datatype Piece = Piece(rank: nat, text: string)

  function Arrived(ds: seq<Piece>): string {
    if ds == [] then "" else Arrived(ds[..|ds| - 1]) + ds[|ds| - 1].text
  }

  function OfRank(ds: seq<Piece>, r: nat): string {
    if ds == [] then "" else OfRank(ds[..|ds| - 1], r) + if ds[|ds| - 1].rank == r then ds[|ds| - 1].text else ""
  }

  // The first n blocks, one after the other.
  function ByRank(ds: seq<Piece>, n: nat): string {
    if n == 0 then "" else ByRank(ds, n - 1) + OfRank(ds, n - 1)
  }

  predicate AllBelow(ds: seq<Piece>, n: nat) {
    forall k :: 0 <= k < |ds| ==> ds[k].rank < n
  }

  // No text comes to a block after a later block has got some.
  predicate InTurn(ds: seq<Piece>) {
    forall p, q :: 0 <= p < q < |ds| && ds[p].text != "" && ds[q].text != "" ==> ds[p].rank <= ds[q].rank
  }

  lemma OneMore(ds: seq<Piece>, d: Piece)
    ensures Arrived(ds + [d]) == Arrived(ds) + d.text
  {
    assert (ds + [d])[..|ds|] == ds;
  }

  lemma OneMoreOf(ds: seq<Piece>, d: Piece, r: nat)
    ensures OfRank(ds + [d], r) == if d.rank == r then OfRank(ds, r) + d.text else OfRank(ds, r)
  {
    assert (ds + [d])[..|ds|] == ds;
    assert OfRank(ds, r) + "" == OfRank(ds, r);
  }

  lemma {:induction false} RanksBefore(ds: seq<Piece>, d: Piece, n: nat)
    requires n <= d.rank
    ensures ByRank(ds + [d], n) == ByRank(ds, n)
  {
    if n > 0 {
      RanksBefore(ds, d, n - 1);
      OneMoreOf(ds, d, n - 1);
    }
  }

  lemma Append(s: string, t: string, u: string)
    ensures s + (t + u) == (s + t) + u
  {
  }

  lemma LaterRank(s: string, t: string, u: string)
    requires t == "" || u == ""
    ensures (s + t) + u == (s + u) + t
  {
    assert (s + "") + u == s + u && (s + t) + "" == s + t && (s + u) + "" == s + u && (s + "") + t == s + t;
  }

  // A piece for the last block that has text comes last.
  lemma {:induction false} ComesLast(ds: seq<Piece>, d: Piece, n: nat)
    requires d.rank < n && (d.text == "" || forall r: nat :: d.rank < r < n ==> OfRank(ds, r) == "")
    ensures ByRank(ds + [d], n) == ByRank(ds, n) + d.text
  {
    OneMoreOf(ds, d, n - 1);
    if n - 1 == d.rank {
      RanksBefore(ds, d, n - 1);
      Append(ByRank(ds, n - 1), OfRank(ds, n - 1), d.text);
    } else {
      ComesLast(ds, d, n - 1);
      LaterRank(ByRank(ds, n - 1), OfRank(ds, n - 1), d.text);
    }
  }

  lemma {:induction false} NoTextOfRank(ds: seq<Piece>, r: nat)
    requires forall k :: 0 <= k < |ds| && ds[k].rank == r ==> ds[k].text == ""
    ensures OfRank(ds, r) == ""
  {
    if ds != [] {
      NoTextOfRank(ds[..|ds| - 1], r);
    }
  }

  lemma {:induction false} InTurnAgree(ds: seq<Piece>, n: nat)
    requires AllBelow(ds, n) && InTurn(ds)
    ensures Arrived(ds) == ByRank(ds, n)
    decreases |ds|
  {
    if ds == [] {
      NothingByRank(n);
    } else {
      var pre, d := ds[..|ds| - 1], ds[|ds| - 1];
      assert ds == pre + [d];
      InTurnAgree(pre, n);
      if d.text != "" {
        forall r: nat | d.rank < r < n
          ensures OfRank(pre, r) == ""
        {
          NoTextOfRank(pre, r);
        }
      }
      ComesLast(pre, d, n);
    }
  }

  lemma {:induction false} NothingByRank(n: nat)
    ensures ByRank([], n) == ""
  {
    if n > 0 {
      NothingByRank(n - 1);
    }
  }

  /* ---------- Lengths ---------- */

  lemma {:induction false} LengthMore(ds: seq<Piece>, d: Piece, n: nat)
    ensures |ByRank(ds + [d], n)| == |ByRank(ds, n)| + if d.rank < n then |d.text| else 0
  {
    if n > 0 {
      OneMoreOf(ds, d, n - 1);
      LengthMore(ds, d, n - 1);
    }
  }

  lemma {:induction false} SameLength(ds: seq<Piece>, n: nat)
    requires AllBelow(ds, n)
    ensures |Arrived(ds)| == |ByRank(ds, n)|
    decreases |ds|
  {
    if ds == [] {
      NothingByRank(n);
    } else {
      var pre, d := ds[..|ds| - 1], ds[|ds| - 1];
      assert ds == pre + [d];
      SameLength(pre, n);
      LengthMore(pre, d, n);
    }
  }

  /* ---------- Out of turn ---------- */

  // Other texts for the same pieces, by whether a block is one of the first.
  function Recolor(d: Piece, r: nat): Piece {
    if d.text == "" then d else d.(text := if d.rank <= r then "x" else "y")
  }

  function Recolored(ds: seq<Piece>, r: nat): (es: seq<Piece>)
    ensures |es| == |ds|
  {
    seq(|ds|, k requires 0 <= k < |ds| => Recolor(ds[k], r))
  }

  predicate AllAre(s: string, c: char) {
    forall i :: 0 <= i < |s| ==> s[i] == c
  }

  // No x after a y.
  predicate Sorted(s: string) {
    forall i, j :: 0 <= i < j < |s| && s[i] == 'y' ==> s[j] == 'y'
  }

  lemma {:induction false} OneColor(ds: seq<Piece>, r: nat, k: nat)
    ensures AllAre(OfRank(Recolored(ds, r), k), if k <= r then 'x' else 'y')
    decreases |ds|
  {
    if ds != [] {
      OneColor(ds[..|ds| - 1], r, k);
      assert Recolored(ds, r)[..|ds| - 1] == Recolored(ds[..|ds| - 1], r);
    }
  }

  lemma {:induction false} ByRankSorted(ds: seq<Piece>, r: nat, n: nat)
    ensures Sorted(ByRank(Recolored(ds, r), n))
    ensures n <= r + 1 ==> AllAre(ByRank(Recolored(ds, r), n), 'x')
  {
    if n > 0 {
      ByRankSorted(ds, r, n - 1);
      OneColor(ds, r, n - 1);
    }
  }

  // Where piece k is found in the text as it arrives.
  lemma {:induction false} ArrivedAt(ds: seq<Piece>, k: nat)
    requires k < |ds|
    ensures var at := |Arrived(ds[..k])|;
            at + |ds[k].text| <= |Arrived(ds)| && Arrived(ds)[at..at + |ds[k].text|] == ds[k].text
    decreases |ds|
  {
    var n := |ds| - 1;
    if k < n {
      ArrivedAt(ds[..n], k);
      assert ds[..n][..k] == ds[..k];
    }
  }

  lemma OneCharacter(ds: seq<Piece>, k: nat)
    requires k < |ds| && |ds[k].text| == 1
    ensures |Arrived(ds[..k])| < |Arrived(ds)| && Arrived(ds)[|Arrived(ds[..k])|] == ds[k].text[0]
  {
    ArrivedAt(ds, k);
    var at := |Arrived(ds[..k])|;
    assert Arrived(ds)[at] == Arrived(ds)[at..at + 1][0];
  }

  lemma EarlierShorter(ds: seq<Piece>, p: nat, q: nat)
    requires p < q <= |ds| && ds[p].text != ""
    ensures |Arrived(ds[..p])| < |Arrived(ds[..q])|
  {
    ArrivedAt(ds[..q], p);
    assert ds[..q][..p] == ds[..p];
  }

  /** If text comes out of turn to a block numbered r or less, then with other texts for the
    * same pieces the two ways of joining them differ. */
  lemma OutOfTurnDiffers(ds: seq<Piece>, n: nat, r: nat, p: nat, q: nat)
    requires p < q < |ds| && ds[p].text != "" && ds[q].text != "" && ds[q].rank <= r < ds[p].rank
    ensures Arrived(Recolored(ds, r)) != ByRank(Recolored(ds, r), n)
  {
    var es := Recolored(ds, r);
    OneCharacter(es, p);
    OneCharacter(es, q);
    EarlierShorter(es, p, q);
    ByRankSorted(ds, r, n);
  }

  /* ---------- Pieces of the same shape ---------- */

  // The same but for the texts, and those empty in both or in neither.
  ghost predicate SamePieces(a: seq<Piece>, b: seq<Piece>) {
    |a| == |b| && forall k :: 0 <= k < |a| ==> a[k].rank == b[k].rank && (a[k].text == "" <==> b[k].text == "")
  }

  lemma SameJoined(a: seq<Piece>, b: seq<Piece>, c: seq<Piece>, d: seq<Piece>)
    requires SamePieces(a, c) && SamePieces(b, d)
    ensures SamePieces(a + b, c + d)
  {
  }

  lemma SameTurns(a: seq<Piece>, b: seq<Piece>)
    requires SamePieces(a, b) && InTurn(a)
    ensures InTurn(b)
  {
  }
}
