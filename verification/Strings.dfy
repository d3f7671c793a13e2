/** Splitting a string at a delimiter and joining pieces with one. */
module Strings {
  import opened Bytes

  const NUL: char := '\0'

  /** `strncmp(s + i, d, |d|) == 0` for strings without NUL. */
  predicate At(s: string, d: string, i: nat) {
    i + |d| <= |s| && s[i..i + |d|] == d
  }

  /** The first place at or after `i` where `d` matches. */
  function Find(s: string, d: string, i: nat): (r: Option<nat>)
    requires i <= |s|
    ensures r.Some? ==> i <= r.value && At(s, d, r.value) && forall j | i <= j < r.value :: !At(s, d, j)
    ensures r.None? ==> forall j | i <= j <= |s| :: !At(s, d, j)
    decreases |s| - i
  {
    if At(s, d, i) then Some(i) else if i == |s| then None else Find(s, d, i + 1)
  }

  /** What lies between the matches of the delimiter, scanned from the left; an empty last piece is not counted. */
  function Pieces(s: string, d: string): seq<string>
    requires d != ""
    decreases |s|
  {
    if s == "" then []
    else
      var n := Find(s, d, 0);
      if n.None? then [s] else [s[..n.value]] + Pieces(s[n.value + |d|..], d)
  }

  function Joined(items: seq<string>, d: string): string {
    if items == [] then ""
    else if |items| == 1 then items[0]
    else items[0] + d + Joined(items[1..], d)
  }

  /** The delimiter's first match in `item` and a delimiter is that delimiter. */
  predicate Delimits(item: string, d: string) {
    Find(item + d, d, 0) == Some(|item|)
  }

  /** The last piece is not empty and has no delimiter; each other ends at its own delimiter. */
  predicate Clean(items: seq<string>, d: string) {
    items == [] ||
    (&& (forall i | 0 <= i < |items| - 1 :: Delimits(items[i], d))
     && items[|items| - 1] != "" && Find(items[|items| - 1], d, 0) == None)
  }

  predicate AllDelimited(items: seq<string>, d: string) {
    items != [] && forall i | 0 <= i < |items| :: Delimits(items[i], d)
  }

  lemma FindIs(s: string, d: string, n: nat)
    requires At(s, d, n) && forall j | 0 <= j < n :: !At(s, d, j)
    ensures Find(s, d, 0) == Some(n)
  {
  }

  /** Where the first match ends cannot depend on what follows. */
  lemma FirstMatchLocal(s: string, d: string, n: nat, rest: string)
    requires n + |d| == |s|
    ensures Find(s, d, 0) == Some(n) <==> Find(s + rest, d, 0) == Some(n)
  {
    forall j | 0 <= j <= n ensures At(s, d, j) == At(s + rest, d, j) {
      assert (s + rest)[j..j + |d|] == s[j..j + |d|];
    }
    if Find(s, d, 0) == Some(n) {
      FindIs(s + rest, d, n);
    }
    if Find(s + rest, d, 0) == Some(n) {
      FindIs(s, d, n);
    }
  }

  /** One piece off the front. */
  lemma FirstPiece(item: string, d: string, rest: string)
    requires d != "" && Delimits(item, d)
    ensures Pieces(item + d + rest, d) == [item] + Pieces(rest, d)
  {
    var s := item + d + rest;
    FirstMatchLocal(item + d, d, |item|, rest);
    assert s == (item + d) + rest;
    assert s[..|item|] == item && s[|item| + |d|..] == rest;
  }

  lemma MatchedPiece(s: string, d: string)
    requires d != "" && s != "" && Find(s, d, 0).Some?
    ensures var n := Find(s, d, 0).value;
            Delimits(s[..n], d) && s == s[..n] + d + s[n + |d|..]
  {
    var n := Find(s, d, 0).value;
    assert s[..n] + d == s[..n + |d|];
    assert s == s[..n + |d|] + s[n + |d|..];
    FirstMatchLocal(s[..n + |d|], d, n, s[n + |d|..]);
  }

  /**
   The pieces give the string back, but for one delimiter at its end; and
   each is a piece: it ends at the first match of the delimiter.
   */
  lemma {:induction false} PiecesRejoin(s: string, d: string)
    requires d != ""
    ensures var items := Pieces(s, d);
            (s == Joined(items, d) && Clean(items, d)) || (s == Joined(items, d) + d && AllDelimited(items, d))
    decreases |s|
  {
    if s != "" && Find(s, d, 0).Some? {
      var n := Find(s, d, 0).value;
      MatchedPiece(s, d);
      var rest := s[n + |d|..];
      PiecesRejoin(rest, d);
      var tail := Pieces(rest, d);
      PutBack(s[..n], d, rest, tail);
    }
  }

  lemma PutBack(item: string, d: string, rest: string, tail: seq<string>)
    requires d != "" && Delimits(item, d) && tail == Pieces(rest, d)
    requires (rest == Joined(tail, d) && Clean(tail, d)) || (rest == Joined(tail, d) + d && AllDelimited(tail, d))
    ensures var s, items := item + d + rest, [item] + tail;
            (s == Joined(items, d) && Clean(items, d)) || (s == Joined(items, d) + d && AllDelimited(items, d))
  {
    hide Delimits, Find, Pieces, Joined, Clean, AllDelimited;
    JoinedFirst(item, tail, d);
    if tail == [] {
      OnlyItem(item, d, rest);
    } else if rest == Joined(tail, d) && Clean(tail, d) {
      CleanMore(item, tail, d);
    } else {
      assert item + d + (Joined(tail, d) + d) == item + d + Joined(tail, d) + d;
      DelimitedMore(item, tail, d);
    }
  }

  lemma JoinedFirst(item: string, tail: seq<string>, d: string)
    ensures Joined([item] + tail, d) == if tail == [] then item else item + d + Joined(tail, d)
  {
    assert ([item] + tail)[1..] == tail;
  }

  lemma OnlyItem(item: string, d: string, rest: string)
    requires Delimits(item, d) && (rest == Joined([], d) || (rest == Joined([], d) + d && AllDelimited([], d)))
    ensures item + d + rest == item + d && AllDelimited([item] + [], d)
  {
    hide Delimits;
  }

  lemma DelimitedMore(item: string, tail: seq<string>, d: string)
    requires Delimits(item, d) && AllDelimited(tail, d)
    ensures AllDelimited([item] + tail, d)
  {
    hide Delimits;
  }

  lemma CleanMore(item: string, tail: seq<string>, d: string)
    requires Delimits(item, d) && Clean(tail, d) && tail != []
    ensures Clean([item] + tail, d)
  {
    hide Delimits, Find;
    var items := [item] + tail;
    assert items[|items| - 1] == tail[|tail| - 1];
    forall i | 0 <= i < |items| - 1 ensures Delimits(items[i], d) {
      if i > 0 {
        assert items[i] == tail[i - 1];
      }
    }
  }

  lemma NoDelimiterInside(items: seq<string>, d: string, i: nat)
    requires d != "" && i < |items| && (Clean(items, d) || AllDelimited(items, d))
    ensures forall j: nat :: !At(items[i], d, j)
  {
    forall j: nat ensures !At(items[i], d, j) {
      if At(items[i], d, j) {
        assert (items[i] + d)[j..j + |d|] == items[i][j..j + |d|];
        assert At(items[i] + d, d, j);
      }
    }
  }

  /** Splitting what was joined gives the items back exactly when they are clean. */
  lemma SplitOfJoined(items: seq<string>, d: string)
    requires d != ""
    ensures Pieces(Joined(items, d), d) == items <==> Clean(items, d)
  {
    PiecesRejoin(Joined(items, d), d);
    if Clean(items, d) {
      CleanSplits(items, d);
    }
  }

  lemma {:induction false} CleanSplits(items: seq<string>, d: string)
    requires d != "" && Clean(items, d)
    ensures Pieces(Joined(items, d), d) == items
  {
    if |items| > 1 {
      var rest := items[1..];
      assert rest[|rest| - 1] == items[|items| - 1];
      CleanSplits(rest, d);
      assert Delimits(items[0], d);
      FirstPiece(items[0], d, Joined(rest, d));
      assert items == [items[0]] + rest;
    }
  }

  /** What C sees of a string: all before the first NUL. */
  function CString(s: string): string {
    if s == "" || s[0] == NUL then "" else [s[0]] + CString(s[1..])
  }

  lemma {:induction false} CStringBeforeNul(s: string, rest: string)
    requires NUL !in s
    ensures CString(s + [NUL] + rest) == s
  {
    if s != "" {
      assert (s + [NUL] + rest)[1..] == s[1..] + [NUL] + rest;
      CStringBeforeNul(s[1..], rest);
    }
  }

  lemma {:induction false} JoinedHasNoNul(items: seq<string>, d: string)
    requires NUL !in d && forall x <- items :: NUL !in x
    ensures NUL !in Joined(items, d)
  {
    if |items| > 1 {
      JoinedHasNoNul(items[1..], d);
    }
  }

  /** The round trip through the joined string as it is returned, with its NUL. */
  lemma SplitOfJoin(items: seq<string>, d: string)
    requires d != "" && NUL !in d && forall x <- items :: NUL !in x
    ensures Pieces(CString(Joined(items, d) + [NUL]), d) == items <==> Clean(items, d)
  {
    hide Pieces, Clean;
    JoinedHasNoNul(items, d);
    assert Joined(items, d) + [NUL] == Joined(items, d) + [NUL] + "";
    CStringBeforeNul(Joined(items, d), "");
    SplitOfJoined(items, d);
  }

  // ---- The loops ----

  lemma Regroup(a: seq<string>, b: string, c: seq<string>)
    ensures a + ([b] + c) == a + [b] + c
  {
  }

  lemma AtShifted(s: string, d: string, p: nat, j: nat)
    requires p <= |s|
    ensures At(s[p..], d, j) == At(s, d, p + j)
  {
    if j + |d| <= |s| - p {
      assert s[p..][j..j + |d|] == s[p + j..p + j + |d|];
    }
  }

  lemma PieceAt(t: string, d: string, n: nat)
    requires d != "" && At(t, d, n) && forall j | 0 <= j < n :: !At(t, d, j)
    ensures Pieces(t, d) == [t[..n]] + Pieces(t[n + |d|..], d)
  {
    FindIs(t, d, n);
    hide Find;
  }

  lemma AtFits(s: string, d: string, b: nat)
    requires At(s, d, b)
    ensures b + |d| <= |s|
  {
  }

  lemma PieceFound(s: string, d: string, p: nat, b: nat)
    requires d != "" && p <= b && b + |d| <= |s| && At(s, d, b) && forall j | p <= j < b :: !At(s, d, j)
    ensures Pieces(s[p..], d) == [s[p..b]] + Pieces(s[b + |d|..], d)
  {
    hide At, Pieces;
    var t := s[p..];
    forall j: nat ensures At(t, d, j) == At(s, d, p + j) {
      AtShifted(s, d, p, j);
    }
    PieceAt(t, d, b - p);
    Sliced(s, p, b, |d|);
  }

  lemma Sliced(s: string, p: nat, b: nat, n: nat)
    requires p <= b && b + n <= |s|
    ensures s[p..][..b - p] == s[p..b] && s[p..][b - p + n..] == s[b + n..]
  {
  }

  lemma PieceLeft(s: string, d: string, p: nat)
    requires d != "" && p <= |s| && forall j | p <= j < |s| :: !At(s, d, j)
    ensures Pieces(s[p..], d) == if p == |s| then [] else [s[p..|s|]]
  {
    var t := s[p..];
    forall j: nat ensures !At(t, d, j) {
      AtShifted(s, d, p, j);
    }
    assert Find(t, d, 0) == None && t == s[p..|s|];
  }

  function SetOf(items: seq<string>): set<string> {
    set x | x in items
  }

  lemma SetOfNone()
    ensures SetOf([]) == {}
  {
  }

  lemma SetOfMore(items: seq<string>, s: string, p: nat, b: nat)
    requires p <= b <= |s|
    ensures SetOf(More(items, s, p, b)) == SetOf(items) + {s[p..b]}
  {
  }

  /** The scan is at `b`: `items` are done, and nothing matches from `p` on so far. */
  predicate Scanned(s: string, d: string, items: seq<string>, p: nat, b: nat)
    requires d != "" && p <= b <= |s|
  {
    Pieces(s, d) == items + Pieces(s[p..], d) && forall j | p <= j < b :: !At(s, d, j)
  }

  lemma ScanStarts(s: string, d: string)
    requires d != ""
    ensures Scanned(s, d, [], 0, 0)
  {
    assert s[0..] == s;
  }

  /** One more piece, from `p` to `b`. */
  function More(items: seq<string>, s: string, p: nat, b: nat): seq<string>
    requires p <= b <= |s|
  {
    items + [s[p..b]]
  }

  lemma ScanMatches(s: string, d: string, items: seq<string>, p: nat, b: nat)
    requires d != "" && p <= b < |s| && Scanned(s, d, items, p, b) && At(s, d, b)
    ensures b + |d| <= |s| && Scanned(s, d, More(items, s, p, b), b + |d|, b + |d|)
  {
    AtFits(s, d, b);
    hide At, Pieces;
    PieceFound(s, d, p, b);
    Regroup(items, s[p..b], Pieces(s[b + |d|..], d));
  }

  lemma ScanSkips(s: string, d: string, items: seq<string>, p: nat, b: nat)
    requires d != "" && p <= b < |s| && Scanned(s, d, items, p, b) && !At(s, d, b)
    ensures Scanned(s, d, items, p, b + 1)
  {
    hide At, Pieces;
  }

  lemma ScanEnds(s: string, d: string, items: seq<string>, p: nat)
    requires d != "" && p <= |s| && Scanned(s, d, items, p, |s|)
    ensures p == |s| ==> Pieces(s, d) == items
    ensures p < |s| ==> Pieces(s, d) == More(items, s, p, |s|)
  {
    PieceLeft(s, d, p);
    hide Pieces, At;
  }

  /** `CStringSplit` into a vector: `p` is where the piece began, `b` where the scan is. */
  method Split(s: string, d: string) returns (items: seq<string>)
    requires d != ""
    ensures items == Pieces(s, d)
  {
    hide Scanned, Pieces, At, More;
    items := [];
    var p: nat, b: nat := 0, 0;
    ScanStarts(s, d);
    while b < |s|
      invariant p <= b <= |s| && Scanned(s, d, items, p, b)
    {
      if At(s, d, b) {
        ScanMatches(s, d, items, p, b);
        items := More(items, s, p, b);
        b := b + |d|;
        p := b;
      } else {
        ScanSkips(s, d, items, p, b);
        b := b + 1;
      }
    }
    ScanEnds(s, d, items, p);
    if b != p {
      items := More(items, s, p, b);
    }
  }

  /** `CStringSplit` into a set: the same pieces. */
  method SplitToSet(s: string, d: string) returns (items: set<string>)
    requires d != ""
    ensures items == SetOf(Pieces(s, d))
  {
    hide Scanned, Pieces, At, SetOf, More;
    items := {};
    ghost var done: seq<string> := [];
    var p: nat, b: nat := 0, 0;
    ScanStarts(s, d);
    SetOfNone();
    while b < |s|
      invariant p <= b <= |s| && Scanned(s, d, done, p, b) && items == SetOf(done)
    {
      if At(s, d, b) {
        ScanMatches(s, d, done, p, b);
        SetOfMore(done, s, p, b);
        done := More(done, s, p, b);
        items := items + {s[p..b]};
        b := b + |d|;
        p := b;
      } else {
        ScanSkips(s, d, done, p, b);
        b := b + 1;
      }
    }
    ScanEnds(s, d, done, p);
    if b != p {
      SetOfMore(done, s, p, b);
      items := items + {s[p..b]};
    }
  }

  /** `CStringJoin` of a vector: `std::ends` leaves a NUL at the end. */
  method Join(items: seq<string>, d: string) returns (s: string)
    ensures s == Joined(items, d) + [NUL]
  {
    s := "";
    var i := 0;
    assert items[..0] == [];
    while i < |items|
      invariant 0 <= i <= |items| && s == Joined(items[..i], d)
    {
      JoinedMore(items[..i], items[i], d);
      assert items[..i + 1] == items[..i] + [items[i]];
      if i != 0 {
        s := s + d;
      }
      s := s + items[i];
      i := i + 1;
    }
    assert items[..i] == items;
    s := s + [NUL];
  }

  lemma {:induction false} JoinedMore(items: seq<string>, x: string, d: string)
    ensures Joined(items + [x], d) == if items == [] then x else Joined(items, d) + d + x
  {
    if |items| > 1 {
      assert (items + [x])[1..] == items[1..] + [x];
      JoinedMore(items[1..], x, d);
      assert items[0] + d + (Joined(items[1..], d) + d + x) == items[0] + d + Joined(items[1..], d) + d + x;
    }
  }

  // ---- In words ----

  /** Pieces between commas, an empty one among them; the last empty one is not counted; matches do not overlap. */
  lemma PiecesInWords()
    ensures Pieces("a,bc,,d", ",") == ["a", "bc", "", "d"] && Pieces("a,", ",") == ["a"] && Pieces("", ",") == []
    ensures Pieces("aaa", "aa") == ["", "a"]
    ensures Joined(["a", "bc", "", "d"], ",") == "a,bc,,d"
  {
    hide Pieces, Joined;
    FourPieces();
    OnePiece();
    NoPiece(",");
    Overlap();
    JoinedInWords();
  }

  lemma FourPieces()
    ensures Pieces("a,bc,,d", ",") == ["a", "bc", "", "d"]
  {
    hide Pieces;
    FirstComma("a", "bc,,d");
    assert "a" + "," + "bc,,d" == "a,bc,,d";
    FirstComma("bc", ",d");
    assert "bc" + "," + ",d" == "bc,,d";
    FirstComma("", "d");
    assert "" + "," + "d" == ",d";
    assert "d"[0..1][0] == 'd';
    assert Find("d", ",", 0) == None;
    LastPiece("d", ",");
    assert ["a"] + (["bc"] + ([""] + ["d"])) == ["a", "bc", "", "d"];
  }

  lemma OnePiece()
    ensures Pieces("a,", ",") == ["a"]
  {
    hide Pieces;
    FirstComma("a", "");
    assert "a" + "," + "" == "a,";
    NoPiece(",");
    assert ["a"] + [] == ["a"];
  }

  lemma NoPiece(d: string)
    requires d != ""
    ensures Pieces("", d) == []
  {
  }

  lemma FirstComma(item: string, rest: string)
    requires forall i | 0 <= i < |item| :: item[i] != ','
    ensures Pieces(item + "," + rest, ",") == [item] + Pieces(rest, ",")
  {
    forall j | 0 <= j < |item| ensures !At(item + ",", ",", j) {
      assert (item + ",")[j..j + 1][0] == item[j];
    }
    FindIs(item + ",", ",", |item|);
    FirstPiece(item, ",", rest);
  }

  lemma LastPiece(item: string, d: string)
    requires d != "" && item != "" && Find(item, d, 0) == None
    ensures Pieces(item, d) == [item]
  {
  }

  lemma Overlap()
    ensures Pieces("aaa", "aa") == ["", "a"]
  {
    assert "aaa"[0..2] == "aa";
    assert Find("aaa", "aa", 0) == Some(0);
    assert "aaa"[..0] == "" && "aaa"[2..] == "a";
    assert Find("a", "aa", 0) == None;
    LastPiece("a", "aa");
  }

  lemma JoinedInWords()
    ensures Joined(["a", "bc", "", "d"], ",") == "a,bc,,d"
  {
    assert ["a", "bc", "", "d"][1..] == ["bc", "", "d"] && ["bc", "", "d"][1..] == ["", "d"] && ["", "d"][1..] == ["d"];
    assert Joined(["d"], ",") == "d";
    assert Joined(["", "d"], ",") == ",d";
    assert Joined(["bc", "", "d"], ",") == "bc,,d";
  }
}
