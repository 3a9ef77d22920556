/** The in-place comma splitter that JOIN, PART and PRIVMSG run over their first argument. */
module CommaSplitter {
  import opened CString

  function PieceLength(s: string): (n: nat)
    ensures n <= |s| && (n < |s| ==> s[n] == ',')
    ensures ',' !in s[..n]
  {
    if s == "" || s[0] == ',' then 0
    else
      assert s[..1 + PieceLength(s[1..])] == [s[0]] + s[1..][..PieceLength(s[1..])];
      1 + PieceLength(s[1..])
  }

  /** The non-empty pieces between commas, in order. */
  function Pieces(s: string): seq<string>
    decreases |s|
  {
    if s == "" then []
    else if s[0] == ',' then Pieces(s[1..])
    else
      var n := PieceLength(s);
      [s[..n]] + if n < |s| then Pieces(s[n + 1..]) else []
  }

  function Join(ws: seq<string>): string {
    if ws == [] then "" else if |ws| == 1 then ws[0] else ws[0] + "," + Join(ws[1..])
  }

  predicate IsPiece(w: string) {
    w != "" && ',' !in w
  }

  lemma {:induction false} PieceLengthOf(w: string, rest: string)
    requires ',' !in w && (rest == "" || rest[0] == ',')
    ensures PieceLength(w + rest) == |w|
  {
    if w == "" {
      assert w + rest == rest;
    } else {
      assert (w + rest)[1..] == w[1..] + rest;
      PieceLengthOf(w[1..], rest);
    }
  }

  /** Splitting undoes joining. */
  lemma {:induction false} SplitUndoesJoin(ws: seq<string>)
    requires forall w :: w in ws ==> IsPiece(w)
    ensures Pieces(Join(ws)) == ws
  {
    if ws != [] {
      var w := ws[0];
      assert w in ws;
      var rest := if |ws| == 1 then "" else "," + Join(ws[1..]);
      assert Join(ws) == w + rest;
      PieceLengthOf(w, rest);
      assert (w + rest)[..|w|] == w;
      if |ws| > 1 {
        assert (w + rest)[|w| + 1..] == Join(ws[1..]);
        SplitUndoesJoin(ws[1..]);
        assert [w] + ws[1..] == ws;
      } else {
        assert ws == [w];
      }
    }
  }

  function WithoutCommas(s: string): string {
    if s == "" then "" else (if s[0] == ',' then "" else [s[0]]) + WithoutCommas(s[1..])
  }

  function Flatten(ws: seq<string>): string {
    if ws == [] then "" else ws[0] + Flatten(ws[1..])
  }

  lemma {:induction false} WithoutCommasOf(s: string, n: nat)
    requires n <= |s| && ',' !in s[..n]
    ensures WithoutCommas(s) == s[..n] + WithoutCommas(s[n..])
  {
    if n > 0 {
      assert s[0] == s[..n][0];
      assert s[1..][..n - 1] == s[..n][1..];
      WithoutCommasOf(s[1..], n - 1);
      assert s[..n] == [s[0]] + s[1..][..n - 1];
      assert s[1..][n - 1..] == s[n..];
    }
  }

  /** For any argument at all: every piece is non-empty and free of commas, and together, in order, the
      pieces are the argument without its commas. */
  lemma {:induction false} PiecesAreLossless(s: string)
    ensures forall w :: w in Pieces(s) ==> IsPiece(w)
    ensures Flatten(Pieces(s)) == WithoutCommas(s)
    decreases |s|
  {
    if s != "" {
      if s[0] == ',' {
        PiecesAreLossless(s[1..]);
      } else {
        var n := PieceLength(s);
        WithoutCommasOf(s, n);
        var more := if n < |s| then Pieces(s[n + 1..]) else [];
        assert Pieces(s) == [s[..n]] + more && Pieces(s)[1..] == more;
        if n < |s| {
          PiecesAreLossless(s[n + 1..]);
          assert s[n..][1..] == s[n + 1..];
        } else {
          assert s[n..] == "";
        }
      }
    }
  }

  // ----- In place -----

  ghost predicate Piece(buf: seq<char>, ptr: nat, w: string, before: nat) {
    ptr + |w| < before <= |buf| && buf[ptr..ptr + |w|] == w && '\0' !in w && buf[ptr + |w|] == '\0'
  }

  ghost predicate AllPieces(buf: seq<char>, ptrs: seq<nat>, ws: seq<string>, before: nat) {
    |ptrs| == |ws| && forall k :: 0 <= k < |ptrs| ==> Piece(buf, ptrs[k], ws[k], before)
  }

  function Strings(buf: seq<char>, ptrs: seq<nat>): seq<string> {
    seq(|ptrs|, k requires 0 <= k < |ptrs| => At(buf, ptrs[k]))
  }

  lemma PiecesUnderWrite(buf: seq<char>, ptrs: seq<nat>, ws: seq<string>, before: nat)
    requires AllPieces(buf, ptrs, ws, before) && before < |buf|
    ensures AllPieces(buf[before := '\0'], ptrs, ws, before + 1)
  {
    forall k | 0 <= k < |ptrs| ensures Piece(buf[before := '\0'], ptrs[k], ws[k], before + 1) {
      assert Piece(buf, ptrs[k], ws[k], before);
      assert buf[before := '\0'][ptrs[k]..ptrs[k] + |ws[k]|] == buf[ptrs[k]..ptrs[k] + |ws[k]|];
    }
  }

  lemma PiecesAreStrings(buf: seq<char>, ptrs: seq<nat>, ws: seq<string>, before: nat)
    requires AllPieces(buf, ptrs, ws, before)
    ensures Strings(buf, ptrs) == ws
  {
    forall k | 0 <= k < |ptrs| ensures Strings(buf, ptrs)[k] == ws[k] {
      assert Piece(buf, ptrs[k], ws[k], before);
      AtIs(buf, ptrs[k], ptrs[k] + |ws[k]|);
    }
  }

  /** The state of the split at byte p of an argument that ends at end. */
  ghost predicate Splitting(buf: seq<char>, p: nat, end: nat, ptrs: seq<nat>, found: seq<string>, goal: seq<string>) {
    && p <= end < |buf| && buf[end] == '\0' && '\0' !in buf[p..end]
    && AllPieces(buf, ptrs, found, p)
    && found + Pieces(buf[p..end]) == goal
  }

  lemma SplitComma(buf: seq<char>, p: nat, end: nat, ptrs: seq<nat>, found: seq<string>, goal: seq<string>)
    requires Splitting(buf, p, end, ptrs, found, goal) && p < end && buf[p] == ','
    ensures Splitting(buf[p := '\0'], p + 1, end, ptrs, found, goal)
  {
    var buf' := buf[p := '\0'];
    PiecesUnderWrite(buf, ptrs, found, p);
    assert buf[p..end][1..] == buf[p + 1..end] == buf'[p + 1..end];
    assert buf[p..end][0] == ',';
  }

  lemma SlicesOfSum(w: string, rest: string)
    requires w != ""
    ensures var s := w + ("," + rest); s[0] == w[0] && s[..|w|] == w && s[|w| + 1..] == rest && |w| < |s|
  {
  }

  lemma PiecesOfSum(w: string, rest: string)
    requires IsPiece(w)
    ensures Pieces(w + ("," + rest)) == [w] + Pieces(rest)
  {
    PieceLengthOf(w, "," + rest);
    SlicesOfSum(w, rest);
    assert w[0] != ',';
  }

  lemma PiecesOfFirst(buf: seq<char>, p: nat, e: nat, end: nat)
    requires p < e < end < |buf| && ',' !in buf[p..e] && buf[e] == ','
    ensures Pieces(buf[p..end]) == [buf[p..e]] + Pieces(buf[e + 1..end])
  {
    hide Pieces;
    PiecesOfSum(buf[p..e], buf[e + 1..end]);
    assert buf[p..end] == buf[p..e] + ("," + buf[e + 1..end]);
  }

  lemma PiecesGrow(buf: seq<char>, p: nat, e: nat, ptrs: seq<nat>, ws: seq<string>)
    requires AllPieces(buf, ptrs, ws, p) && p < e < |buf| && '\0' !in buf[p..e]
    ensures AllPieces(buf[e := '\0'], ptrs + [p], ws + [buf[p..e]], e + 1)
  {
    var buf' := buf[e := '\0'];
    forall k | 0 <= k < |ptrs| ensures Piece(buf', ptrs[k], ws[k], e + 1) {
      assert Piece(buf, ptrs[k], ws[k], p);
      assert buf'[ptrs[k]..ptrs[k] + |ws[k]|] == buf[ptrs[k]..ptrs[k] + |ws[k]|];
    }
    assert buf'[p..e] == buf[p..e];
    assert Piece(buf', p, buf[p..e], e + 1);
  }

  lemma SplitPiece(buf: seq<char>, p: nat, e: nat, end: nat, ptrs: seq<nat>, found: seq<string>, goal: seq<string>)
    requires Splitting(buf, p, end, ptrs, found, goal) && p < e < end
    requires ',' !in buf[p..e] && buf[e] == ','
    ensures Splitting(buf[e := '\0'], e + 1, end, ptrs + [p], found + [buf[p..e]], goal)
  {
    hide Pieces, AllPieces;
    var w := buf[p..e];
    PiecesOfFirst(buf, p, e, end);
    assert found + [w] + Pieces(buf[e + 1..end]) == found + ([w] + Pieces(buf[e + 1..end]));
    assert buf[p..end] == w + buf[e..end];
    PiecesGrow(buf, p, e, ptrs, found);
    assert buf[e := '\0'][e + 1..end] == buf[e + 1..end] == buf[p..end][e + 1 - p..];
  }

  lemma SplitLast(buf: seq<char>, p: nat, end: nat, ptrs: seq<nat>, found: seq<string>, goal: seq<string>)
    requires Splitting(buf, p, end, ptrs, found, goal) && p < end && ',' !in buf[p..end]
    ensures Strings(buf, ptrs + [p]) == goal
  {
    var s := buf[p..end];
    PieceLengthOf(s, "");
    assert s + "" == s && s[..|s|] == s && s[0] != ',';
    assert goal == found + [s];
    forall k | 0 <= k < |ptrs| ensures Piece(buf, ptrs[k], found[k], end + 1) {
      assert Piece(buf, ptrs[k], found[k], p);
    }
    assert Piece(buf, p, s, end + 1);
    PiecesAreStrings(buf, ptrs + [p], goal, end + 1);
  }

  lemma SplitDone(buf: seq<char>, end: nat, ptrs: seq<nat>, found: seq<string>, goal: seq<string>)
    requires Splitting(buf, end, end, ptrs, found, goal)
    ensures Strings(buf, ptrs) == goal
  {
    PiecesAreStrings(buf, ptrs, found, end);
    assert found + [] == found;
  }

  /** The loop over a NUL-terminated argument that starts at arg; end is where its NUL is. Commas become
      NULs, and the pointers read as the non-empty pieces of the argument. */
  method SplitCommas(buf: array<char>, arg: nat, ghost end: nat) returns (ptrs: seq<nat>)
    requires arg <= end < buf.Length && buf[end] == '\0' && '\0' !in buf[arg..end]
    modifies buf
    ensures Strings(buf[..], ptrs) == Pieces(old(At(buf[..], arg)))
    ensures forall k :: 0 <= k < buf.Length && !(arg <= k < end) ==> buf[k] == old(buf[k])
  {
    hide Splitting, Strings, Pieces;
    ghost var goal := Pieces(buf[arg..end]);
    AtIs(buf[..], arg, end);
    assert buf[..][arg..end] == buf[arg..end];
    ptrs := [];
    ghost var found: seq<string> := [];
    var p := arg;
    SplitStarts(buf[..], arg, end);
    while buf[p] != '\0'
      invariant arg <= p <= end
      invariant Splitting(buf[..], p, end, ptrs, found, goal)
      invariant buf[end] == '\0' && '\0' !in buf[..][p..end]
      invariant forall k :: 0 <= k < buf.Length && !(arg <= k < end) ==> buf[k] == old(buf[k])
      decreases end - p
    {
      var start := p;
      if buf[p] != ',' {
        ptrs := ptrs + [p];
      }
      while buf[p] != '\0' && buf[p] != ','
        invariant start <= p <= end && ',' !in buf[..][start..p]
        decreases end - p
      {
        assert p < end;
        p := p + 1;
      }
      ghost var b := buf[..];
      if buf[p] == '\0' {
        AtEnd(b, start, p, end);
        SplitLast(b, start, end, ptrs[..|ptrs| - 1], found, goal);
        assert ptrs == ptrs[..|ptrs| - 1] + [start];
        return;
      }
      if p == start {
        SplitComma(b, p, end, ptrs, found, goal);
      } else {
        SplitPiece(b, start, p, end, ptrs[..|ptrs| - 1], found, goal);
        assert ptrs == ptrs[..|ptrs| - 1] + [start];
        found := found + [b[start..p]];
      }
      buf[p] := '\0';
      assert buf[..] == b[p := '\0'];
      p := p + 1;
      SplittingFacts(buf[..], p, end, ptrs, found, goal);
    }
    assert p == end;
    SplitDone(buf[..], end, ptrs, found, goal);
  }

  lemma SplitStarts(buf: seq<char>, arg: nat, end: nat)
    requires arg <= end < |buf| && buf[end] == '\0' && '\0' !in buf[arg..end]
    ensures Splitting(buf, arg, end, [], [], Pieces(buf[arg..end]))
  {
  }

  lemma SplittingFacts(buf: seq<char>, p: nat, end: nat, ptrs: seq<nat>, found: seq<string>, goal: seq<string>)
    requires Splitting(buf, p, end, ptrs, found, goal)
    ensures '\0' !in buf[p..end] && buf[end] == '\0'
  {
  }

  /** The only NUL from p on is the one at end. */
  lemma AtEnd(buf: seq<char>, start: nat, p: nat, end: nat)
    requires start <= p <= end < |buf| && '\0' !in buf[start..end] && buf[p] == '\0'
    ensures p == end
  {
    assert forall k :: start <= k < end ==> buf[k] == buf[start..end][k - start];
  }
}
