/** Splitting a received byte stream at CR-LF (section 2.3 of RFC 1459): the reference split, and the
    separator that works over a vector of 512-byte blocks with a resume cursor. */
module Separator {

  const MESSAGE_LEN_MAX := 512
  const CRLF_LEN_2 := 2
  const CRLF: string := "\r\n"

  // ----- The reference split -----

  /** A terminator ends just before offset e. */
  predicate EndsAt(s: string, e: nat) {
    2 <= e <= |s| && s[e - 2] == '\r' && s[e - 1] == '\n'
  }

  /** The offset just after the first terminator, or 0 if there is none. */
  function FirstEnd(s: string): (r: nat)
    ensures r == 0 ==> forall e :: !EndsAt(s, e)
    ensures r > 0 ==> EndsAt(s, r) && forall e :: 0 <= e < r ==> !EndsAt(s, e)
  {
    if |s| < 2 then 0
    else if EndsAt(s, 2) then 2
    else
      var r := FirstEnd(s[1..]);
      assert forall e :: e > 2 ==> (EndsAt(s, e) <==> EndsAt(s[1..], e - 1));
      if r == 0 then 0 else r + 1
  }

  /** The bodies of the complete frames, those longer than 512 bytes dropped. */
  function Frames(s: string): seq<string>
    decreases |s|
  {
    var e := FirstEnd(s);
    if e == 0 then [] else Body(s[..e]) + Frames(s[e..])
  }

  /** What follows the last terminator. */
  function Tail(s: string): string
    decreases |s|
  {
    var e := FirstEnd(s);
    if e == 0 then s else Tail(s[e..])
  }

  /** A frame with its terminator gives one body, or none if it is too long. */
  function Body(frame: string): seq<string>
    requires |frame| >= 2
  {
    if |frame| <= MESSAGE_LEN_MAX then [frame[..|frame| - CRLF_LEN_2]] else []
  }

  function Used(s: string): nat {
    TailLength(s);
    |s| - |Tail(s)|
  }

  lemma {:induction false} TailLength(s: string)
    ensures |Tail(s)| <= |s|
    ensures Tail(s) == s[|s| - |Tail(s)|..]
    ensures FirstEnd(Tail(s)) == 0
    decreases |s|
  {
    var e := FirstEnd(s);
    if e != 0 { TailLength(s[e..]); }
  }

  // ----- Laws of the reference split -----

  lemma FirstEndUnique(s: string, e: nat)
    requires EndsAt(s, e) && forall k :: 0 <= k < e ==> !EndsAt(s, k)
    ensures FirstEnd(s) == e
  {
  }

  lemma FirstEndOfPrefix(s: string, t: string)
    requires FirstEnd(s) > 0
    ensures FirstEnd(s + t) == FirstEnd(s)
  {
    var e := FirstEnd(s);
    assert forall k :: 0 <= k <= |s| ==> (EndsAt(s + t, k) <==> EndsAt(s, k));
    FirstEndUnique(s + t, e);
  }

  /** The stream may be cut anywhere: the split resumes from the tail. */
  lemma {:induction false} SplitResumes(s: string, t: string)
    ensures Frames(s + t) == Frames(s) + Frames(Tail(s) + t)
    ensures Tail(s + t) == Tail(Tail(s) + t)
    decreases |s|
  {
    var e := FirstEnd(s);
    if e != 0 {
      FirstEndOfPrefix(s, t);
      assert (s + t)[..e] == s[..e] && (s + t)[e..] == s[e..] + t;
      SplitResumes(s[e..], t);
    }
  }

  lemma {:induction false} FirstEndOneMore(t: string, c: char)
    requires FirstEnd(t) == 0
    ensures FirstEnd(t + [c]) == if t != [] && t[|t| - 1] == '\r' && c == '\n' then |t| + 1 else 0
  {
    var u := t + [c];
    assert forall k :: 0 <= k <= |t| ==> (EndsAt(u, k) <==> EndsAt(t, k));
    if t != [] && t[|t| - 1] == '\r' && c == '\n' {
      FirstEndUnique(u, |u|);
    } else {
      assert !EndsAt(u, |u|);
      assert forall k :: !EndsAt(u, k);
    }
  }

  /** One more byte: it completes a frame, or it lengthens the tail. */
  lemma {:induction false} SplitOneMore(s: string, c: char)
    ensures var t := Tail(s);
            if t != [] && t[|t| - 1] == '\r' && c == '\n'
            then Frames(s + [c]) == Frames(s) + Body(t + [c]) && Tail(s + [c]) == []
            else Frames(s + [c]) == Frames(s) && Tail(s + [c]) == t + [c]
  {
    var t := Tail(s);
    var u := t + [c];
    TailLength(s);
    SplitResumes(s, [c]);
    FirstEndOneMore(t, c);
    hide FirstEnd;
    if t != [] && t[|t| - 1] == '\r' && c == '\n' {
      assert u[..|u|] == u && u[|u|..] == [];
      assert FirstEnd([]) == 0;
    }
  }

  lemma {:induction false} BodiesAreShort(s: string, i: nat)
    requires i < |Frames(s)|
    ensures |Frames(s)[i]| <= MESSAGE_LEN_MAX - CRLF_LEN_2
    ensures FirstEnd(Frames(s)[i]) == 0
    decreases |s|
  {
    var e := FirstEnd(s);
    var b := Body(s[..e]);
    if i < |b| {
      assert forall k :: EndsAt(b[i], k) ==> EndsAt(s, k);
    } else {
      BodiesAreShort(s[e..], i - |b|);
    }
  }

  function Encode(bodies: seq<string>): string {
    if bodies == [] then "" else bodies[0] + CRLF + Encode(bodies[1..])
  }

  function Sendable(bodies: seq<string>): seq<string> {
    if bodies == [] then []
    else (if |bodies[0]| <= MESSAGE_LEN_MAX - CRLF_LEN_2 then [bodies[0]] else []) + Sendable(bodies[1..])
  }

  /** The split undoes sending: any list of bodies free of CR-LF comes back, less those too long for a frame. */
  lemma {:induction false} SplitUndoesEncode(bodies: seq<string>)
    requires forall b :: b in bodies ==> FirstEnd(b) == 0
    ensures Frames(Encode(bodies)) == Sendable(bodies) && Tail(Encode(bodies)) == ""
  {
    if bodies != [] {
      var b := bodies[0];
      var frame := b + CRLF;
      var rest := Encode(bodies[1..]);
      assert forall k :: 0 <= k <= |b| ==> (EndsAt(frame, k) <==> EndsAt(b, k));
      assert b in bodies && frame[|b|] == '\r' && frame[|b| + 1] == '\n';
      assert !EndsAt(frame, |b| + 1);
      FirstEndUnique(frame, |frame|);
      FirstEndOfPrefix(frame, rest);
      assert (frame + rest)[..|frame|] == frame && (frame + rest)[|frame|..] == rest;
      assert frame[..|b|] == b;
      SplitUndoesEncode(bodies[1..]);
    }
  }

  /** A body of 510 bytes fills its frame, and is emitted. */
  lemma LongestBodyIsEmitted(b: string)
    requires |b| == 510 && FirstEnd(b) == 0
    ensures Frames(b + CRLF) == [b] && Tail(b + CRLF) == ""
  {
    assert [b][1..] == [] && Encode([b]) == b + CRLF + Encode([]) && b + CRLF + "" == b + CRLF;
    assert Sendable([b]) == [b] + Sendable([]);
    SplitUndoesEncode([b]);
  }

  /** A longer one is dropped. */
  lemma LongerBodyIsDropped(b: string)
    requires |b| > 510 && FirstEnd(b) == 0
    ensures Frames(b + CRLF) == [] && Tail(b + CRLF) == ""
  {
    assert [b][1..] == [] && Encode([b]) == b + CRLF + Encode([]) && b + CRLF + "" == b + CRLF;
    assert Sendable([b]) == Sendable([]);
    SplitUndoesEncode([b]);
  }

  /** Every body, dropped or not. */
  function AllBodies(s: string): seq<string>
    decreases |s|
  {
    var e := FirstEnd(s);
    if e == 0 then [] else [s[..e - CRLF_LEN_2]] + AllBodies(s[e..])
  }

  lemma EncodeOneMore(b: string, later: seq<string>)
    ensures Encode([b] + later) == b + CRLF + Encode(later)
    ensures Sendable([b] + later) == Body(b + CRLF) + Sendable(later)
  {
    assert ([b] + later)[1..] == later;
    assert (b + CRLF)[..|b|] == b;
  }

  lemma Reassociate(s: string, e: nat, x: string, y: string, z: string)
    requires e <= |s| && s[..e] == x && s[e..] == y + z
    ensures s == x + y + z
  {
  }

  /** Every stream is the encoding of some bodies and a tail, and the split gives exactly those. */
  lemma {:induction false} EveryStreamIsEncoded(s: string)
    ensures s == Encode(AllBodies(s)) + Tail(s)
    ensures Frames(s) == Sendable(AllBodies(s))
    decreases |s|
  {
    var e := FirstEnd(s);
    if e != 0 {
      EveryStreamIsEncoded(s[e..]);
      var b := s[..e - CRLF_LEN_2];
      var later := AllBodies(s[e..]);
      EncodeOneMore(b, later);
      assert s[..e] == b + CRLF;
      Reassociate(s, e, b + CRLF, Encode(later), Tail(s));
    }
  }

  lemma {:induction false} BodiesHoldNoTerminator(s: string, i: nat)
    requires i < |AllBodies(s)|
    ensures FirstEnd(AllBodies(s)[i]) == 0
    decreases |s|
  {
    var e := FirstEnd(s);
    if i == 0 {
      var b := s[..e - CRLF_LEN_2];
      assert forall k :: EndsAt(b, k) ==> EndsAt(s, k);
      assert forall k :: !EndsAt(b, k);
    } else {
      BodiesHoldNoTerminator(s[e..], i - 1);
    }
  }

  // ----- How a run of separator calls consumes a stream -----

  /** The cursor stands at the end of a full block: nothing gets past the first guard any more. */
  predicate Spent(consumed: nat) {
    consumed > 0 && consumed % MESSAGE_LEN_MAX == 0
  }

  predicate CutsWithin(stream: string, cuts: seq<nat>) {
    forall i :: 0 <= i < |cuts| ==> cuts[i] <= |stream|
  }

  /** What the reference split of the first cuts[i] bytes consumes. */
  function UsedAt(stream: string, cuts: seq<nat>, i: nat): nat
    requires CutsWithin(stream, cuts) && i < |cuts|
  {
    Used(stream[..cuts[i]])
  }

  /** The bytes consumed by separator calls made when cuts[0], cuts[1], ... bytes had been received. */
  function ConsumedAfter(stream: string, cuts: seq<nat>): nat
    requires CutsWithin(stream, cuts)
  {
    if cuts == [] then 0
    else
      var n := |cuts| - 1;
      var before := ConsumedAfter(stream, cuts[..n]);
      if Spent(before) then before else UsedAt(stream, cuts, n)
  }

  ghost predicate Sorted(cuts: seq<nat>) {
    forall i, j :: 0 <= i < j < |cuts| ==> cuts[i] <= cuts[j]
  }

  /** Call i is the first that leaves the cursor spent. */
  ghost predicate FirstSpent(stream: string, cuts: seq<nat>, i: nat)
    requires CutsWithin(stream, cuts)
  {
    i < |cuts| && Spent(UsedAt(stream, cuts, i)) && forall j :: 0 <= j < i ==> !Spent(UsedAt(stream, cuts, j))
  }

  lemma {:induction false} ConsumedUpToFirstSpent(stream: string, cuts: seq<nat>)
    requires CutsWithin(stream, cuts) && cuts != []
    ensures (exists i :: FirstSpent(stream, cuts, i) && ConsumedAfter(stream, cuts) == UsedAt(stream, cuts, i))
         || ((forall i :: 0 <= i < |cuts| ==> !Spent(UsedAt(stream, cuts, i)))
             && ConsumedAfter(stream, cuts) == UsedAt(stream, cuts, |cuts| - 1))
  {
    var n := |cuts| - 1;
    var init := cuts[..n];
    assert forall i :: 0 <= i < n ==> UsedAt(stream, init, i) == UsedAt(stream, cuts, i);
    if n > 0 {
      ConsumedUpToFirstSpent(stream, init);
      if exists i :: FirstSpent(stream, init, i) && ConsumedAfter(stream, init) == UsedAt(stream, init, i) {
        var i :| FirstSpent(stream, init, i) && ConsumedAfter(stream, init) == UsedAt(stream, init, i);
        assert FirstSpent(stream, cuts, i);
      } else if Spent(UsedAt(stream, cuts, n)) {
        assert FirstSpent(stream, cuts, n);
      }
    } else if Spent(UsedAt(stream, cuts, 0)) {
      assert FirstSpent(stream, cuts, 0);
    }
  }

  /** However the stream is cut, the calls consume what the reference split of the bytes received by the
      last call consumes, if and only if every earlier call that left the cursor spent already did. */
  lemma CutsDoNotMatter(stream: string, cuts: seq<nat>)
    requires CutsWithin(stream, cuts) && cuts != [] && Sorted(cuts)
    ensures ConsumedAfter(stream, cuts) == UsedAt(stream, cuts, |cuts| - 1) <==>
            forall i :: 0 <= i < |cuts| && Spent(UsedAt(stream, cuts, i)) ==>
              UsedAt(stream, cuts, i) == UsedAt(stream, cuts, |cuts| - 1)
  {
    ConsumedUpToFirstSpent(stream, cuts);
    var n := |cuts| - 1;
    forall i, j | 0 <= i <= j < |cuts| ensures UsedAt(stream, cuts, i) <= UsedAt(stream, cuts, j) {
      UsedGrows(stream, cuts[i], cuts[j]);
    }
    if f :| FirstSpent(stream, cuts, f) && ConsumedAfter(stream, cuts) == UsedAt(stream, cuts, f) {
      forall i | 0 <= i < |cuts| && Spent(UsedAt(stream, cuts, i))
        ensures UsedAt(stream, cuts, f) <= UsedAt(stream, cuts, i) <= UsedAt(stream, cuts, n)
      {
      }
    }
  }

  lemma MessageLeavesNoTail(b: string)
    requires FirstEnd(b) == 0
    ensures Tail(b + CRLF) == ""
  {
    assert Tail(b) == b;
    SplitOneMore(b, '\r');
    SplitOneMore(b + ['\r'], '\n');
    assert b + ['\r'] + ['\n'] == b + CRLF;
  }

  lemma TwoMessagesUsed(a: string, b: string)
    requires FirstEnd(a) == 0 && FirstEnd(b) == 0
    ensures Used(a + CRLF) == |a| + 2 && Used(a + CRLF + (b + CRLF)) == |a| + |b| + 4
  {
    MessageLeavesNoTail(a);
    MessageLeavesNoTail(b);
    SplitResumes(a + CRLF, b + CRLF);
    assert "" + (b + CRLF) == b + CRLF;
  }

  /** Two messages a and b, the first of exactly 512 bytes with its terminator. If the separator runs after
      the first, the second is never separated. */
  lemma SecondMessageStuck(a: string, b: string)
    requires |a| == MESSAGE_LEN_MAX - CRLF_LEN_2 && |b| <= MESSAGE_LEN_MAX - CRLF_LEN_2 && FirstEnd(a) == 0 && FirstEnd(b) == 0
    ensures var stream := a + CRLF + (b + CRLF);
            var cuts := [512, |stream|];
            CutsWithin(stream, cuts) && ConsumedAfter(stream, cuts) == 512 && Used(stream) == |stream|
  {
    TwoMessagesUsed(a, b);
    hide FirstEnd, Used;
    var stream := a + CRLF + (b + CRLF);
    assert stream[..512] == a + CRLF && stream[..|stream|] == stream;
    var cuts: seq<nat> := [512, |stream|];
    assert cuts[..1] == [512] && [512][..0] == [];
    assert ConsumedAfter(stream, [512]) == UsedAt(stream, [512], 0) == 512;
  }

  lemma UsedGrows(stream: string, a: nat, b: nat)
    requires a <= b <= |stream|
    ensures Used(stream[..a]) <= Used(stream[..b])
  {
    assert stream[..b] == stream[..a] + stream[a..b];
    SplitResumes(stream[..a], stream[a..b]);
    TailLength(Tail(stream[..a]) + stream[a..b]);
    TailLength(stream[..a]);
  }

  // ----- The receive queue -----

  const NUM_CLIENT_MSGBLOCK_RECV_IGNORE_THRESHOLD := 8

  function Flat(blocks: seq<string>): string {
    if blocks == [] then [] else Flat(blocks[..|blocks| - 1]) + blocks[|blocks| - 1]
  }

  /** Blocks are filled completely before a new one is started. */
  ghost predicate Packed(blocks: seq<string>) {
    && (forall i :: 0 <= i < |blocks| ==> 1 <= |blocks[i]| <= MESSAGE_LEN_MAX)
    && (forall i :: 0 <= i < |blocks| - 1 ==> |blocks[i]| == MESSAGE_LEN_MAX)
  }

  /** Byte idx of block q, counted from the start of the first block. */
  function At(q: nat, idx: nat): nat {
    MESSAGE_LEN_MAX * q + idx
  }

  lemma {:induction false} FlatLength(blocks: seq<string>)
    requires Packed(blocks) && blocks != []
    ensures |Flat(blocks)| == MESSAGE_LEN_MAX * (|blocks| - 1) + |blocks[|blocks| - 1]|
  {
    var n := |blocks| - 1;
    if n > 0 { FlatLength(blocks[..n]); }
  }

  lemma {:induction false} FlatAt(blocks: seq<string>, q: nat, idx: nat)
    requires Packed(blocks) && q < |blocks| && idx < |blocks[q]|
    ensures At(q, idx) < |Flat(blocks)| && Flat(blocks)[At(q, idx)] == blocks[q][idx]
  {
    var n := |blocks| - 1;
    FlatLength(blocks);
    if n > 0 { FlatLength(blocks[..n]); }
    if q < n { FlatAt(blocks[..n], q, idx); }
  }

  lemma {:induction false} FlatDrop(blocks: seq<string>, k: nat)
    requires Packed(blocks) && k < |blocks|
    ensures MESSAGE_LEN_MAX * k <= |Flat(blocks)|
    ensures Flat(blocks[k..]) == Flat(blocks)[MESSAGE_LEN_MAX * k..]
  {
    var n := |blocks| - 1;
    FlatLength(blocks);
    if n > 0 { FlatLength(blocks[..n]); }
    if k < n {
      FlatDrop(blocks[..n], k);
      assert blocks[k..][..n - k] == blocks[..n][k..];
    } else {
      assert blocks[k..] == [blocks[n]];
      assert Flat([blocks[n]][..0]) == [];
    }
  }

  /** The messages as they are pushed, terminator included. */
  ghost function Terminated(bodies: seq<string>): seq<string> {
    seq(|bodies|, i requires 0 <= i < |bodies| => bodies[i] + CRLF)
  }

  /** One byte more of a scan that started at offset from. */
  lemma ScanOneMore(flat: string, from: nat, p: nat)
    requires from <= p < |flat|
    ensures var t := Tail(flat[from..p]); var c := flat[p];
            if t != [] && t[|t| - 1] == '\r' && c == '\n'
            then Frames(flat[from..p + 1]) == Frames(flat[from..p]) + Body(t + [c]) && Tail(flat[from..p + 1]) == []
            else Frames(flat[from..p + 1]) == Frames(flat[from..p]) && Tail(flat[from..p + 1]) == t + [c]
  {
    assert flat[from..p + 1] == flat[from..p] + [flat[p]];
    SplitOneMore(flat[from..p], flat[p]);
  }

  /** The last byte scanned is the last byte of the tail. */
  lemma LastOfTail(flat: string, from: nat, p: nat)
    requires from <= p <= |flat| && Tail(flat[from..p]) != []
    ensures var t := Tail(flat[from..p]); from < p && t[|t| - 1] == flat[p - 1]
  {
    hide Tail, Frames;
    var s := flat[from..p];
    TailLength(s);
    assert s[|s| - 1] == flat[p - 1];
  }

  /** Bytes of flat below m have been scanned and the message begun at start is still overlong. */
  ghost predicate Overlong(flat: string, from: nat, start: nat, m: nat) {
    && from < start <= m <= |flat|
    && |Tail(flat[from..m])| >= MESSAGE_LEN_MAX
    && Frames(flat[from..m]) == Frames(flat[from..start])
    && Used(flat[from..m]) == Used(flat[from..start])
  }

  /** The next byte ends the overlong message, which is dropped, or belongs to it. */
  lemma OverlongOneMore(flat: string, from: nat, start: nat, m: nat)
    requires Overlong(flat, from, start, m) && m < |flat|
    ensures if flat[m - 1] == '\r' && flat[m] == '\n'
            then Tail(flat[from..m + 1]) == [] && Frames(flat[from..m + 1]) == Frames(flat[from..start])
            else Overlong(flat, from, start, m + 1)
  {
    hide Frames, Tail;
    ScanOneMore(flat, from, m);
    LastOfTail(flat, from, m);
  }

  lemma BlockEnd(blocks: seq<string>, q: nat)
    requires Packed(blocks) && q < |blocks|
    ensures At(q, |blocks[q]|) == if q + 1 < |blocks| then At(q + 1, 0) else |Flat(blocks)|
  {
    FlatLength(blocks);
  }

  /** The inner loops that look for the end of an overlong message. They start on the byte that filled
      the message, which is compared with itself and so never ends it. */
  method SkipInvalid(blocks: seq<string>, q0: nat, parseIdx0: nat, lastChar0: char, ghost from: nat)
    returns (bFound: bool, q: nat, parseIdx: nat)
    requires Packed(blocks) && q0 < |blocks| && parseIdx0 < |blocks[q0]| && lastChar0 == blocks[q0][parseIdx0]
    requires Overlong(Flat(blocks), from, At(q0, parseIdx0) + 1, At(q0, parseIdx0) + 1)
    ensures var flat := Flat(blocks); var start := At(q0, parseIdx0) + 1;
            if bFound then
              && q0 <= q < |blocks| && parseIdx < |blocks[q]| && start <= At(q, parseIdx) < |flat|
              && Tail(flat[from..At(q, parseIdx) + 1]) == [] && Frames(flat[from..At(q, parseIdx) + 1]) == Frames(flat[from..start])
            else
              Overlong(flat, from, start, |flat|)
  {
    hide Overlong, Packed, Flat;
    ghost var flat := Flat(blocks);
    ghost var start: nat := At(q0, parseIdx0) + 1;
    ghost var m: nat := start;
    q, parseIdx := q0, parseIdx0;
    var lastChar := lastChar0;
    FlatAt(blocks, q0, parseIdx0);
    while q < |blocks|
      invariant q0 <= q <= |blocks|
      invariant Overlong(flat, from, start, m) && 0 < start <= m
      invariant m <= |flat| && lastChar == flat[m - 1]
      invariant if q < |blocks| then parseIdx <= |blocks[q]| && (m == At(q, parseIdx) || (m == start && q == q0 && parseIdx == parseIdx0))
                else m == |flat|
      decreases |blocks| - q
    {
      while parseIdx < |blocks[q]|
        invariant parseIdx <= |blocks[q]|
        invariant Overlong(flat, from, start, m) && 0 < start <= m
        invariant m <= |flat| && lastChar == flat[m - 1]
        invariant m == At(q, parseIdx) || (m == start && q == q0 && parseIdx == parseIdx0 < |blocks[q]|)
      {
        FlatAt(blocks, q, parseIdx);
        if m == At(q, parseIdx) {
          OverlongOneMore(flat, from, start, m);
          m := m + 1;
        }
        if lastChar == '\r' && blocks[q][parseIdx] == '\n' {
          return true, q, parseIdx;
        }
        lastChar := blocks[q][parseIdx];
        parseIdx := parseIdx + 1;
      }
      BlockEnd(blocks, q);
      q := q + 1;
      parseIdx := 0;
    }
    return false, q, parseIdx;
  }

  /** What the separator has done once the bytes from from up to p have been scanned: the messages pushed,
      the message being built, and the place just after the last message taken out. */
  ghost predicate Scanned(flat: string, from: nat, p: nat, out: seq<string>, msg: string, taken: nat) {
    && from <= p <= |flat|
    && out == Terminated(Frames(flat[from..p]))
    && msg == Tail(flat[from..p])
    && taken == from + Used(flat[from..p])
  }

  lemma ScanStarts(flat: string, from: nat)
    requires from <= |flat|
    ensures Scanned(flat, from, from, [], [], from)
  {
    assert flat[from..from] == [];
    assert Terminated([]) == [];
  }

  predicate EndsInCrlf(msg: string) {
    |msg| >= 2 && msg[|msg| - 2] == '\r' && msg[|msg| - 1] == '\n'
  }

  lemma TerminatedSum(a: seq<string>, msg: string)
    requires EndsInCrlf(msg) && |msg| <= MESSAGE_LEN_MAX
    ensures Terminated(a + Body(msg)) == Terminated(a) + [msg]
  {
    assert msg == msg[..|msg| - 2] + CRLF;
    assert Body(msg) == [msg[..|msg| - 2]];
  }

  /** Appending one byte to the message being built either completes it or lengthens it. */
  lemma ScanStep(flat: string, from: nat, p: nat, out: seq<string>, msg: string, taken: nat)
    requires Scanned(flat, from, p, out, msg, taken) && p < |flat| && |msg| < MESSAGE_LEN_MAX
    ensures var msg' := msg + [flat[p]];
            if EndsInCrlf(msg') then Scanned(flat, from, p + 1, out + [msg'], [], p + 1)
            else Scanned(flat, from, p + 1, out, msg', taken)
  {
    hide Frames, Tail;
    ScanOneMore(flat, from, p);
    var msg' := msg + [flat[p]];
    if EndsInCrlf(msg') {
      TerminatedSum(Frames(flat[from..p]), msg');
    }
  }

  /** The message just built filled its block without ending. */
  lemma ScanOverlong(flat: string, from: nat, p: nat, out: seq<string>, msg: string, taken: nat)
    requires Scanned(flat, from, p, out, msg, taken) && |msg| >= MESSAGE_LEN_MAX
    ensures Overlong(flat, from, p, p)
  {
    hide Frames, Tail;
    TailLength(flat[from..p]);
  }

  /** The skip found the end of the overlong message just before p: nothing is pushed for it. */
  lemma ScanSkipped(flat: string, from: nat, start: nat, p: nat, out: seq<string>, msg: string, taken: nat)
    requires Scanned(flat, from, start, out, msg, taken) && start <= p <= |flat|
    requires Tail(flat[from..p]) == [] && Frames(flat[from..p]) == Frames(flat[from..start])
    ensures Scanned(flat, from, p, out, [], p)
  {
  }

  /** The skip ran out of blocks: everything is scanned and the overlong message stays in the queue. */
  lemma ScanRanOut(flat: string, from: nat, start: nat, out: seq<string>, msg: string, taken: nat)
    requires Scanned(flat, from, start, out, msg, taken) && Overlong(flat, from, start, |flat|)
    ensures Scanned(flat, from, |flat|, out, Tail(flat[from..|flat|]), taken)
  {
  }

  lemma OverlongTail(flat: string, from: nat, start: nat)
    requires Overlong(flat, from, start, |flat|)
    ensures |Tail(flat[from..|flat|])| >= MESSAGE_LEN_MAX
  {
  }

  lemma ScanDone(flat: string, from: nat, out: seq<string>, msg: string, taken: nat)
    requires Scanned(flat, from, |flat|, out, msg, taken)
    ensures out == Terminated(Frames(flat[from..])) && msg == Tail(flat[from..]) && taken == from + Used(flat[from..])
  {
    assert flat[from..|flat|] == flat[from..];
  }

  /** The scan of one call, over the blocks as they are: the messages found, where the last one ended,
      and whether the skip ran past the last block with the message still open. */
  method Scan(blocks: seq<string>, cursor: nat) returns (out: seq<string>, lastBlock: nat, newCursor: nat, bRanOut: bool)
    requires Packed(blocks) && blocks != [] && cursor < |blocks[0]|
    ensures cursor <= |Flat(blocks)| && out == Terminated(Frames(Flat(blocks)[cursor..]))
    ensures lastBlock < |blocks| && newCursor <= |blocks[lastBlock]|
    ensures At(lastBlock, newCursor) == cursor + Used(Flat(blocks)[cursor..])
    ensures lastBlock > 0 ==> newCursor > 0
    ensures bRanOut <==> |Tail(Flat(blocks)[cursor..])| >= MESSAGE_LEN_MAX
  {
    hide Scanned, Overlong, Packed, Flat, Frames, Tail, Terminated;
    ghost var flat := Flat(blocks);
    ghost var p: nat := cursor;
    out, lastBlock, newCursor, bRanOut := [], 0, cursor, false;
    var msg: string := [];
    ghost var tail := msg;
    var q: nat, parseIdx: nat := 0, cursor;
    FlatAt(blocks, 0, cursor);
    ScanStarts(flat, cursor);
    while q < |blocks| && !bRanOut
      invariant Scanned(flat, cursor, p, out, tail, At(lastBlock, newCursor)) && (!bRanOut ==> msg == tail)
      invariant q <= |blocks| && lastBlock < |blocks| && newCursor <= |blocks[lastBlock]|
      invariant lastBlock > 0 ==> newCursor > 0
      invariant if q < |blocks| && !bRanOut then parseIdx <= |blocks[q]| && p == At(q, parseIdx) else p == |flat|
      invariant bRanOut <==> |tail| >= MESSAGE_LEN_MAX
      decreases |blocks| - q, !bRanOut
    {
      ghost var qStart := q;
      while parseIdx < |blocks[q]| && !bRanOut
        invariant qStart <= q
        invariant Scanned(flat, cursor, p, out, tail, At(lastBlock, newCursor)) && (!bRanOut ==> msg == tail)
        invariant q < |blocks| && lastBlock < |blocks| && newCursor <= |blocks[lastBlock]|
        invariant lastBlock > 0 ==> newCursor > 0
        invariant if !bRanOut then parseIdx <= |blocks[q]| && p == At(q, parseIdx) else p == |flat|
        invariant bRanOut <==> |tail| >= MESSAGE_LEN_MAX
        decreases |flat| - p, !bRanOut
      {
        FlatAt(blocks, q, parseIdx);
        ScanStep(flat, cursor, p, out, msg, At(lastBlock, newCursor));
        p := p + 1;
        msg := msg + [blocks[q][parseIdx]];
        tail := msg;
        if EndsInCrlf(msg) {
          out, msg, tail := out + [msg], [], [];
          lastBlock, newCursor := q, parseIdx + 1;
        } else if |msg| == MESSAGE_LEN_MAX {
          ScanOverlong(flat, cursor, p, out, msg, At(lastBlock, newCursor));
          var bFound, q', parseIdx' := SkipInvalid(blocks, q, parseIdx, msg[|msg| - 1], cursor);
          if bFound {
            ScanSkipped(flat, cursor, p, At(q', parseIdx') + 1, out, msg, At(lastBlock, newCursor));
            q, parseIdx := q', parseIdx';
            p := At(q, parseIdx) + 1;
            lastBlock, newCursor, msg, tail := q, parseIdx + 1, [], [];
          } else {
            ScanRanOut(flat, cursor, p, out, msg, At(lastBlock, newCursor));
            OverlongTail(flat, cursor, p);
            p := |flat|;
            bRanOut, tail := true, Tail(flat[cursor..|flat|]);
          }
        }
        parseIdx := parseIdx + 1;
      }
      BlockEnd(blocks, q);
      q := q + 1;
      parseIdx := 0;
    }
    ScanDone(flat, cursor, out, tail, At(lastBlock, newCursor));
  }

  // ----- The client's receive side over a whole run -----

  lemma {:induction false} ConsumedStable(stream: string, more: string, cuts: seq<nat>)
    requires CutsWithin(stream, cuts)
    ensures CutsWithin(stream + more, cuts) && ConsumedAfter(stream + more, cuts) == ConsumedAfter(stream, cuts)
  {
    if cuts != [] {
      var n := |cuts| - 1;
      ConsumedStable(stream, more, cuts[..n]);
      assert (stream + more)[..cuts[n]] == stream[..cuts[n]];
    }
  }

  lemma FlatAppendBlock(blocks: seq<string>, b: string)
    ensures Flat(blocks + [b]) == Flat(blocks) + b
  {
    assert (blocks + [b])[..|blocks|] == blocks;
  }

  lemma FlatFillLast(blocks: seq<string>, x: string)
    requires blocks != []
    ensures var n := |blocks| - 1; Flat(blocks[n := blocks[n] + x]) == Flat(blocks) + x
  {
    var n := |blocks| - 1;
    assert blocks[n := blocks[n] + x][..n] == blocks[..n];
  }

  /** How the queue and its cursor stand to the stream received so far. */
  ghost predicate Holds(blocks: seq<string>, cursor: nat, received: string, consumed: nat) {
    && Packed(blocks) && consumed <= |received|
    && if blocks == [] then received == "" && cursor == 0 && consumed == 0
       else
         && cursor <= |blocks[0]| && cursor <= consumed && (cursor == 0 ==> consumed == 0)
         && (consumed - cursor) % MESSAGE_LEN_MAX == 0
         && received[consumed - cursor..] == Flat(blocks)
  }

  lemma SpentIffCursorAtEnd(blocks: seq<string>, cursor: nat, received: string, consumed: nat)
    requires Holds(blocks, cursor, received, consumed)
    ensures cursor == MESSAGE_LEN_MAX <==> Spent(consumed)
  {
  }

  /** The first guard returns early exactly when nothing is pending or the cursor is spent. */
  lemma EarlyReturn(blocks: seq<string>, cursor: nat, received: string, consumed: nat)
    requires Holds(blocks, cursor, received, consumed)
    ensures blocks == [] || cursor >= |blocks[0]| <==> consumed == |received| || Spent(consumed)
  {
    if blocks != [] { FlatLength(blocks); }
  }

  lemma PendingIsTheRest(blocks: seq<string>, cursor: nat, received: string, consumed: nat)
    requires Holds(blocks, cursor, received, consumed) && blocks != [] && cursor <= |Flat(blocks)|
    ensures Flat(blocks)[cursor..] == received[consumed..]
  {
    assert received[consumed..] == received[consumed - cursor..][cursor..];
  }

  /** What a scan that starts after the consumed bytes finds is what the reference split finds next. */
  lemma ScanAdvances(received: string, consumed: nat)
    requires consumed <= |received| && Tail(received[..consumed]) == []
    ensures Frames(received) == Frames(received[..consumed]) + Frames(received[consumed..])
    ensures Used(received) <= |received|
    ensures Tail(received) == Tail(received[consumed..]) && received[Used(received)..] == Tail(received)
    ensures Used(received) == consumed + Used(received[consumed..])
    ensures Frames(received[..Used(received)]) == Frames(received) && Tail(received[..Used(received)]) == []
  {
    hide Frames, Tail;
    var pending := received[consumed..];
    assert received == received[..consumed] + pending;
    SplitResumes(received[..consumed], pending);
    assert [] + pending == pending;
    TailLength(pending);
    TailLength(received);
    UsedPrefix(received);
  }

  /** The queue after a call: the blocks before the last terminator are gone. */
  lemma QueueAdvances(blocks: seq<string>, cursor: nat, received: string, consumed: nat, lastBlock: nat, newCursor: nat, newConsumed: nat)
    requires Holds(blocks, cursor, received, consumed) && blocks != []
    requires lastBlock < |blocks| && newCursor <= |blocks[lastBlock]| && (lastBlock > 0 ==> newCursor > 0)
    requires newConsumed <= |received| && consumed <= newConsumed
    requires At(lastBlock, newCursor) == cursor + (newConsumed - consumed)
    ensures Holds(blocks[lastBlock..], newCursor, received, newConsumed)
  {
    hide Flat;
    FlatDrop(blocks, lastBlock);
    assert newConsumed - newCursor == (consumed - cursor) + MESSAGE_LEN_MAX * lastBlock;
    assert received[newConsumed - newCursor..] == received[consumed - cursor..][MESSAGE_LEN_MAX * lastBlock..];
  }

  lemma HoldsPacked(blocks: seq<string>, cursor: nat, received: string, consumed: nat)
    requires Holds(blocks, cursor, received, consumed)
    ensures Packed(blocks) && consumed <= |received| && (blocks != [] ==> cursor <= |blocks[0]|)
  {
  }

  lemma QueueGrows(blocks: seq<string>, blocks': seq<string>, cursor: nat, received: string, consumed: nat, x: string)
    requires Holds(blocks, cursor, received, consumed)
    requires Packed(blocks') && blocks' != [] && Flat(blocks') == Flat(blocks) + x
    requires blocks != [] ==> |blocks[0]| <= |blocks'[0]|
    ensures Holds(blocks', cursor, received + x, consumed)
  {
    if blocks != [] {
      assert (received + x)[consumed - cursor..] == received[consumed - cursor..] + x;
    }
  }

  lemma UsedPrefix(s: string)
    ensures Frames(s[..Used(s)]) == Frames(s) && Tail(s[..Used(s)]) == []
  {
    var bodies := AllBodies(s);
    EveryStreamIsEncoded(s);
    forall b | b in bodies ensures FirstEnd(b) == 0 {
      var i :| 0 <= i < |bodies| && bodies[i] == b;
      BodiesHoldNoTerminator(s, i);
    }
    SplitUndoesEncode(bodies);
    assert s[..Used(s)] == Encode(bodies);
  }

  lemma FoundAreShort(s: string)
    ensures forall i :: 0 <= i < |Frames(s)| ==> |Frames(s)[i]| <= MESSAGE_LEN_MAX - CRLF_LEN_2
  {
    forall i | 0 <= i < |Frames(s)| ensures |Frames(s)[i]| <= MESSAGE_LEN_MAX - CRLF_LEN_2 {
      BodiesAreShort(s, i);
    }
  }

  lemma NothingPending(received: string, consumed: nat)
    requires consumed <= |received| && Tail(received[..consumed]) == []
    ensures consumed == |received| ==> Used(received) == consumed && received[consumed..] == Tail(received) && received[..consumed] == received
  {
    if consumed == |received| { assert received[..consumed] == received; }
  }

  /** The closing loop: every message loses its terminator. */
  method StripAll(msgs: seq<string>, ghost bodies: seq<string>) returns (out: seq<string>)
    requires msgs == Terminated(bodies)
    requires forall i :: 0 <= i < |bodies| ==> |bodies[i]| <= MESSAGE_LEN_MAX - CRLF_LEN_2
    ensures out == bodies
  {
    out := [];
    for i := 0 to |msgs|
      invariant out == bodies[..i]
    {
      assert (bodies[i] + CRLF)[..|bodies[i]|] == bodies[i];
      out := out + [msgs[i][..|msgs[i]| - CRLF_LEN_2]];
    }
  }

  class RecvQueue {
    var bExpired: bool
    var RecvMsgBlocks: seq<string>
    var RecvMsgBlockCursor: nat
    ghost var received: string       // every byte received so far
    ghost var cuts: seq<nat>         // how many bytes had been received at each separator call
    ghost var consumed: nat          // the bytes separated so far
    ghost var emitted: seq<string>   // the messages separated so far

    /** Whatever the interleaving of receives and separator calls, the messages are the reference split of
        the bytes consumed, those end with a terminator, and their number is the one the cuts determine. */
    ghost predicate Valid()
      reads this
    {
      && Holds(RecvMsgBlocks, RecvMsgBlockCursor, received, consumed)
      && emitted == Frames(received[..consumed]) && Tail(received[..consumed]) == []
      && CutsWithin(received, cuts) && Sorted(cuts)
      && consumed == ConsumedAfter(received, cuts)
    }

    constructor ()
      ensures Valid() && received == "" && cuts == [] && emitted == [] && !bExpired
    {
      bExpired, RecvMsgBlocks, RecvMsgBlockCursor := false, [], 0;
      received, cuts, consumed, emitted := "", [], 0, [];
    }

    /** A read event: data is what the socket has ready. It is ignored while eight blocks are pending. */
    method Recv(data: string) returns (n: nat)
      requires Valid() && data != ""
      modifies this
      ensures Valid() && n <= |data|
      ensures n == 0 <==> |old(RecvMsgBlocks)| >= 8 || bExpired
      ensures var old_, k := old(RecvMsgBlocks), |old(RecvMsgBlocks)| - 1;
              && (n == 0 ==> RecvMsgBlocks == old_)
              && (n > 0 && (old_ == [] || |old_[k]| == 512) ==>
                    n == (if |data| < 512 then |data| else 512) && RecvMsgBlocks == old_ + [data[..n]])
              && (n > 0 && old_ != [] && |old_[k]| != 512 ==>
                    |old_[k]| < 512 && n == (if |data| < 512 - |old_[k]| then |data| else 512 - |old_[k]|)
                    && RecvMsgBlocks == old_[k := old_[k] + data[..n]])
      ensures received == old(received) + data[..n]
      ensures cuts == old(cuts) && consumed == old(consumed) && emitted == old(emitted) && bExpired == old(bExpired)
    {
      hide Frames, Tail, Spent, Holds, Flat;
      HoldsPacked(RecvMsgBlocks, RecvMsgBlockCursor, received, consumed);
      if bExpired || |RecvMsgBlocks| >= NUM_CLIENT_MSGBLOCK_RECV_IGNORE_THRESHOLD {
        assert received + data[..0] == received;
        return 0;
      }
      var k := |RecvMsgBlocks| - 1;
      ghost var before := RecvMsgBlocks;
      if RecvMsgBlocks == [] || |RecvMsgBlocks[k]| == MESSAGE_LEN_MAX {
        n := if |data| < MESSAGE_LEN_MAX then |data| else MESSAGE_LEN_MAX;
        FlatAppendBlock(RecvMsgBlocks, data[..n]);
        RecvMsgBlocks := RecvMsgBlocks + [data[..n]];
      } else {
        var room := MESSAGE_LEN_MAX - |RecvMsgBlocks[k]|;
        n := if |data| < room then |data| else room;
        FlatFillLast(RecvMsgBlocks, data[..n]);
        RecvMsgBlocks := RecvMsgBlocks[k := RecvMsgBlocks[k] + data[..n]];
      }
      QueueGrows(before, RecvMsgBlocks, RecvMsgBlockCursor, received, consumed, data[..n]);
      ConsumedStable(received, data[..n], cuts);
      assert (received + data[..n])[..consumed] == received[..consumed];
      received := received + data[..n];
    }

    /** The separator. It brings the messages up to date with the reference split of everything received,
        except when the cursor stands at byte 512 of the front block: then it does nothing. */
    method SeparateMsgs() returns (out: seq<string>, bRanOut: bool)
      requires Valid()
      modifies this
      ensures Valid() && emitted == old(emitted) + out
      ensures received == old(received) && bExpired == old(bExpired)
      ensures forall i :: 0 <= i < |out| ==> |out[i]| <= MESSAGE_LEN_MAX - CRLF_LEN_2
      ensures cuts == if bExpired then old(cuts) else old(cuts) + [|received|]
      ensures bExpired || old(RecvMsgBlockCursor) == MESSAGE_LEN_MAX ==>
                out == [] && !bRanOut && unchanged(`RecvMsgBlocks, `RecvMsgBlockCursor, `consumed)
      ensures !bExpired && old(RecvMsgBlockCursor) != MESSAGE_LEN_MAX ==>
                && emitted == Frames(received) && received[consumed..] == Tail(received)
                && (bRanOut <==> |Tail(received)| >= MESSAGE_LEN_MAX)
    {
      hide Frames, Tail, Used, Terminated, Holds, Flat, Spent;
      out, bRanOut := [], false;
      if bExpired {
        return;
      }
      ghost var next := cuts + [|received|];
      HoldsPacked(RecvMsgBlocks, RecvMsgBlockCursor, received, consumed);
      assert next[..|cuts|] == cuts && received[..|received|] == received;
      SpentIffCursorAtEnd(RecvMsgBlocks, RecvMsgBlockCursor, received, consumed);
      EarlyReturn(RecvMsgBlocks, RecvMsgBlockCursor, received, consumed);
      if RecvMsgBlocks == [] || RecvMsgBlockCursor >= |RecvMsgBlocks[0]| {
        NothingPending(received, consumed);
        cuts := next;
        return;
      }
      assert RecvMsgBlockCursor < MESSAGE_LEN_MAX;  // so the reset of a cursor out of range never happens here
      var msgs, lastBlock, cursor, ranOut := Scan(RecvMsgBlocks, RecvMsgBlockCursor);
      PendingIsTheRest(RecvMsgBlocks, RecvMsgBlockCursor, received, consumed);
      ScanAdvances(received, consumed);
      QueueAdvances(RecvMsgBlocks, RecvMsgBlockCursor, received, consumed, lastBlock, cursor, Used(received));
      ghost var found := Frames(received[consumed..]);
      FoundAreShort(received[consumed..]);
      out := StripAll(msgs, found);
      bRanOut := ranOut;
      RecvMsgBlockCursor := cursor;
      if lastBlock > 0 {
        RecvMsgBlocks := RecvMsgBlocks[lastBlock..];
      }
      cuts, consumed, emitted := next, Used(received), emitted + found;
    }
  }
}
