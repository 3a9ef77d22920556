/** The deferred kqueue registrations: a queue of filter changes applied in order at the next turn of the loop. */
module Registrations {

  datatype Registration = Registration(ident: nat, bWrite: bool, bAdd: bool)

  predicate ChangesWrite(r: Registration, sock: nat) {
    r.ident == sock && r.bWrite
  }

  /** The write filter of a socket after the queue is applied to a kernel in which it is on or off. */
  function FilterAfter(on: bool, q: seq<Registration>, sock: nat): bool {
    if q == [] then on
    else
      var last := q[|q| - 1];
      if ChangesWrite(last, sock) then last.bAdd else FilterAfter(on, q[..|q| - 1], sock)
  }

  /** Every write change of the socket in the queue turns the filter over. */
  ghost predicate Alternates(on: bool, q: seq<Registration>, sock: nat) {
    forall i :: 0 <= i < |q| && ChangesWrite(q[i], sock) ==> q[i].bAdd != FilterAfter(on, q[..i], sock)
  }

  lemma FilterAfterPush(on: bool, q: seq<Registration>, r: Registration, sock: nat)
    ensures FilterAfter(on, q + [r], sock) == if ChangesWrite(r, sock) then r.bAdd else FilterAfter(on, q, sock)
  {
    assert (q + [r])[..|q|] == q;
  }

  lemma AlternatesPush(on: bool, q: seq<Registration>, r: Registration, sock: nat)
    requires Alternates(on, q, sock)
    requires ChangesWrite(r, sock) ==> r.bAdd != FilterAfter(on, q, sock)
    ensures Alternates(on, q + [r], sock)
  {
    forall i | 0 <= i < |q + [r]| && ChangesWrite((q + [r])[i], sock)
      ensures (q + [r])[i].bAdd != FilterAfter(on, (q + [r])[..i], sock)
    {
      if i < |q| {
        assert (q + [r])[..i] == q[..i];
      } else {
        assert (q + [r])[..i] == q;
      }
    }
  }

  // ----- Removal of a closed client's registrations -----

  /** The queue after the entry at i has been replaced by the last one. */
  function Swapped(q: seq<Registration>, i: nat): seq<Registration>
    requires i < |q|
  {
    q[i := q[|q| - 1]][..|q| - 1]
  }

  /** The loop of forceDisconnectClient from index i: the last entry moves into the place of a removed one
      and is not looked at again. */
  function Removed(q: seq<Registration>, sock: nat, i: nat): seq<Registration>
    decreases |q| - i
  {
    if i >= |q| then q
    else if q[i].ident == sock then
      Removed(Swapped(q, i), sock, i + 1)
    else Removed(q, sock, i + 1)
  }

  method RemoveRegistrations(q0: seq<Registration>, sock: nat) returns (q: seq<Registration>)
    ensures q == Removed(q0, sock, 0)
  {
    q := q0;
    var i := 0;
    while i < |q|
      invariant Removed(q, sock, i) == Removed(q0, sock, 0)
      decreases |q| - i
    {
      if q[i].ident == sock {
        q := q[i := q[|q| - 1]];
        q := q[..|q| - 1];
      }
      i := i + 1;
    }
  }

  /** How many entries of the socket are pending. */
  function Pending(q: seq<Registration>, sock: nat): nat {
    if q == [] then 0 else Pending(q[..|q| - 1], sock) + if q[|q| - 1].ident == sock then 1 else 0
  }

  lemma {:induction false} PendingOfSum(a: seq<Registration>, b: seq<Registration>, sock: nat)
    ensures Pending(a + b, sock) == Pending(a, sock) + Pending(b, sock)
    decreases |b|
  {
    if b == [] {
      assert a + b == a;
    } else {
      var n := |b| - 1;
      assert (a + b)[..|a + b| - 1] == a + b[..n];
      PendingOfSum(a, b[..n], sock);
    }
  }

  lemma PendingOfOne(r: Registration, sock: nat)
    ensures Pending([r], sock) == if r.ident == sock then 1 else 0
  {
    assert [r][..0] == [];
  }

  lemma SwapKeepsOthers(q: seq<Registration>, i: nat, other: nat)
    requires i < |q| && q[i].ident != other
    ensures Pending(Swapped(q, i), other) == Pending(q, other)
    ensures forall r: Registration :: r.ident == other ==> (r in Swapped(q, i) <==> r in q)
  {
    var n := |q| - 1;
    var q' := Swapped(q, i);
    if i < n {
      var mid := q[i + 1..n];
      assert q == ((q[..i] + [q[i]]) + mid) + [q[n]];
      assert q' == (q[..i] + [q[n]]) + mid;
      PendingOfSum((q[..i] + [q[i]]) + mid, [q[n]], other);
      PendingOfSum(q[..i] + [q[i]], mid, other);
      PendingOfSum(q[..i], [q[i]], other);
      PendingOfSum(q[..i] + [q[n]], mid, other);
      PendingOfSum(q[..i], [q[n]], other);
      PendingOfOne(q[i], other);
      PendingOfOne(q[n], other);
    } else {
      assert q == q' + [q[n]];
      PendingOfSum(q', [q[n]], other);
      PendingOfOne(q[n], other);
    }
  }

  /** Nothing of another client is lost or doubled, whatever is removed. */
  lemma {:induction false} OthersKeepEntries(q: seq<Registration>, sock: nat, i: nat, other: nat)
    requires other != sock
    ensures Pending(Removed(q, sock, i), other) == Pending(q, other)
    ensures forall r: Registration :: r.ident == other ==> (r in Removed(q, sock, i) <==> r in q)
    decreases |q| - i
  {
    if i < |q| {
      if q[i].ident == sock {
        SwapKeepsOthers(q, i, other);
        OthersKeepEntries(Swapped(q, i), sock, i + 1, other);
      } else {
        OthersKeepEntries(q, sock, i + 1, other);
      }
    }
  }

  ghost predicate SoleEntry(q: seq<Registration>, sock: nat, r: Registration) {
    r in q && r.ident == sock && forall s :: s in q && s.ident == sock ==> s == r
  }

  lemma {:induction false} FilterWithOneEntry(on: bool, q: seq<Registration>, sock: nat)
    ensures Pending(q, sock) == 0 ==> FilterAfter(on, q, sock) == on && forall r :: r in q ==> r.ident != sock
    ensures Pending(q, sock) == 1 ==>
              exists r :: SoleEntry(q, sock, r) && FilterAfter(on, q, sock) == if r.bWrite then r.bAdd else on
  {
    if q != [] {
      var n := |q| - 1;
      FilterWithOneEntry(on, q[..n], sock);
      assert q == q[..n] + [q[n]];
      assert q[n] in q;
      if Pending(q, sock) == 1 {
        if q[n].ident == sock {
          assert SoleEntry(q, sock, q[n]);
        } else {
          var r :| SoleEntry(q[..n], sock, r) && FilterAfter(on, q[..n], sock) == if r.bWrite then r.bAdd else on;
          assert SoleEntry(q, sock, r);
        }
      }
    }
  }

  /** With one entry pending, alternating means that it turns over the filter the kernel has. */
  lemma AlternatesWithOneEntry(on: bool, q: seq<Registration>, sock: nat, q': seq<Registration>)
    requires Alternates(on, q, sock) && Pending(q, sock) <= 1 && Pending(q', sock) == Pending(q, sock)
    requires forall r: Registration :: r.ident == sock ==> (r in q' <==> r in q)
    ensures Alternates(on, q', sock)
  {
    forall i | 0 <= i < |q'| && ChangesWrite(q'[i], sock)
      ensures q'[i].bAdd != FilterAfter(on, q'[..i], sock)
    {
      QuietBeforeOnly(on, q', i, sock);
      var j :| 0 <= j < |q| && q[j] == q'[i];
      QuietBeforeOnly(on, q, j, sock);
    }
  }

  lemma QuietBeforeOnly(on: bool, q: seq<Registration>, i: nat, sock: nat)
    requires i < |q| && q[i].ident == sock && Pending(q, sock) <= 1
    ensures FilterAfter(on, q[..i], sock) == on
  {
    assert q == q[..i] + ([q[i]] + q[i + 1..]);
    PendingOfSum(q[..i], [q[i]] + q[i + 1..], sock);
    PendingOfSum([q[i]], q[i + 1..], sock);
    PendingOfOne(q[i], sock);
    FilterWithOneEntry(on, q[..i], sock);
  }

  /** A client with at most one pending entry keeps its filter, however the removal reorders the queue. */
  lemma RemovalKeepsFilter(on: bool, q: seq<Registration>, sock: nat, other: nat)
    requires other != sock && Pending(q, other) <= 1
    ensures FilterAfter(on, Removed(q, sock, 0), other) == FilterAfter(on, q, other)
  {
    OthersKeepEntries(q, sock, 0, other);
    FilterWithOneEntry(on, q, other);
    FilterWithOneEntry(on, Removed(q, sock, 0), other);
  }

  // ----- What the removal leaves, place by place -----

  /** How many entries of the socket there are up to and including place x. */
  function Rank(q: seq<Registration>, sock: nat, x: nat): nat
    requires x < |q|
  {
    Pending(q[..x + 1], sock)
  }

  /** Place x of the queue is still there afterwards. */
  predicate Stays(q: seq<Registration>, sock: nat, x: nat) {
    x < |q| && x + Rank(q, sock, x) < |q|
  }

  /** Where the entry at place x afterwards was before: the k-th removed entry is replaced by the k-th from the end. */
  function Origin(q: seq<Registration>, sock: nat, x: nat): nat
    requires Stays(q, sock, x)
  {
    if q[x].ident == sock then |q| - Rank(q, sock, x) else x
  }

  lemma RankStep(q: seq<Registration>, sock: nat, x: nat)
    requires x < |q|
    ensures Rank(q, sock, x) == Pending(q[..x], sock) + if q[x].ident == sock then 1 else 0
  {
    assert q[..x + 1][..x] == q[..x];
  }

  lemma {:induction false} PendingGrows(q: seq<Registration>, sock: nat, a: nat, b: nat)
    requires a <= b <= |q|
    ensures Pending(q[..a], sock) <= Pending(q[..b], sock)
  {
    assert q[..b] == q[..a] + q[a..b];
    PendingOfSum(q[..a], q[a..b], sock);
  }

  /** The queue as the loop has it at index i: places before i are done, those from i on are as they were. */
  ghost predicate Underway(q: seq<Registration>, sock: nat, cur: seq<Registration>, i: nat) {
    && i <= |q| && i <= |cur| + 1 && |cur| + Pending(q[..i], sock) == |q|
    && (forall x :: 0 <= x < i ==> (Stays(q, sock, x) <==> x < |cur|))
    && (forall x :: 0 <= x < i && x < |cur| ==> cur[x] == q[Origin(q, sock, x)])
    && (forall x :: i <= x < |cur| ==> cur[x] == q[x])
  }

  ghost predicate Leaves(q: seq<Registration>, sock: nat, r: seq<Registration>) {
    && (forall x :: 0 <= x < |q| ==> (Stays(q, sock, x) <==> x < |r|))
    && |r| <= |q| && (forall x :: 0 <= x < |r| ==> r[x] == q[Origin(q, sock, x)])
  }

  lemma UnderwayHit(q: seq<Registration>, sock: nat, cur: seq<Registration>, i: nat)
    requires Underway(q, sock, cur, i) && i < |cur| && cur[i].ident == sock
    ensures Underway(q, sock, Swapped(cur, i), i + 1)
  {
    RankStep(q, sock, i);
    var n := |cur| - 1;
    assert forall x :: 0 <= x < n ==> Swapped(cur, i)[x] == if x == i then cur[n] else cur[x];
  }

  lemma UnderwayPass(q: seq<Registration>, sock: nat, cur: seq<Registration>, i: nat)
    requires Underway(q, sock, cur, i) && i < |cur| && cur[i].ident != sock
    ensures Underway(q, sock, cur, i + 1)
  {
    RankStep(q, sock, i);
  }

  lemma {:induction false} RemovedFrom(q: seq<Registration>, sock: nat, cur: seq<Registration>, i: nat)
    requires Underway(q, sock, cur, i)
    ensures Leaves(q, sock, Removed(cur, sock, i))
    decreases |cur| - i
  {
    if i < |cur| {
      hide Underway, Leaves;
      assert i < |cur|;
      if cur[i].ident == sock {
        UnderwayHit(q, sock, cur, i);
        RemovedFrom(q, sock, Swapped(cur, i), i + 1);
      } else {
        UnderwayPass(q, sock, cur, i);
        RemovedFrom(q, sock, cur, i + 1);
      }
    } else {
      forall x | i <= x < |q| ensures !Stays(q, sock, x) {
        PendingGrows(q, sock, i, x + 1);
      }
    }
  }

  /** The removal in closed form. */
  lemma RemovedLeaves(q: seq<Registration>, sock: nat)
    ensures Leaves(q, sock, Removed(q, sock, 0))
  {
    assert q[..0] == [];
    RemovedFrom(q, sock, q, 0);
  }

  /** The removal of an entry puts another entry of the same socket in its place. */
  predicate Refilled(q: seq<Registration>, sock: nat, x: nat) {
    Stays(q, sock, x) && q[x].ident == sock && q[|q| - Rank(q, sock, x)].ident == sock
  }

  /** An entry of the closed socket is left behind if and only if one of them is replaced by another of them:
      the k-th is not among the last k places, and the k-th place from the end is the socket's too. */
  lemma StaleEntryExactly(q: seq<Registration>, sock: nat)
    ensures (exists r :: r in Removed(q, sock, 0) && r.ident == sock) <==> exists x: nat :: Refilled(q, sock, x)
  {
    var left := Removed(q, sock, 0);
    RemovedLeaves(q, sock);
    forall x: nat ensures Refilled(q, sock, x) <==> x < |left| && left[x].ident == sock {
    }
    hide Removed, Refilled, Leaves;
    if r :| r in left && r.ident == sock {
      var x: nat :| x < |left| && left[x] == r;
      assert Refilled(q, sock, x);
    }
    if x: nat :| Refilled(q, sock, x) {
      assert left[x] in left;
    }
  }

  // ----- Exactly when the removal disturbs a filter -----

  /** No write change of the socket in places lo up to hi. */
  ghost predicate NoChange(q: seq<Registration>, sock: nat, lo: nat, hi: nat)
    requires hi <= |q|
  {
    forall i :: lo <= i < hi ==> !ChangesWrite(q[i], sock)
  }

  function Changes(q: seq<Registration>, sock: nat): nat {
    if q == [] then 0 else Changes(q[..|q| - 1], sock) + if ChangesWrite(q[|q| - 1], sock) then 1 else 0
  }

  lemma {:induction false} FilterIsLast(on: bool, q: seq<Registration>, sock: nat, y: nat)
    requires y < |q| && ChangesWrite(q[y], sock) && NoChange(q, sock, y + 1, |q|)
    ensures FilterAfter(on, q, sock) == q[y].bAdd
  {
    var n := |q| - 1;
    if y < n {
      FilterIsLast(on, q[..n], sock, y);
    }
  }

  lemma {:induction false} FilterQuiet(on: bool, q: seq<Registration>, sock: nat)
    requires NoChange(q, sock, 0, |q|)
    ensures FilterAfter(on, q, sock) == on
  {
    if q != [] {
      FilterQuiet(on, q[..|q| - 1], sock);
    }
  }

  /** In a queue that alternates, each later change turns the filter over once more. */
  lemma {:induction false} FilterByParity(on: bool, q: seq<Registration>, sock: nat, z: nat)
    requires Alternates(on, q, sock) && z < |q| && ChangesWrite(q[z], sock)
    ensures FilterAfter(on, q, sock) == (q[z].bAdd == (Changes(q[z + 1..], sock) % 2 == 0))
  {
    var n := |q| - 1;
    if z < n {
      var init := q[..n];
      forall i | 0 <= i < n && ChangesWrite(init[i], sock) ensures init[i].bAdd != FilterAfter(on, init[..i], sock) {
        assert init[..i] == q[..i];
      }
      FilterByParity(on, init, sock, z);
      assert q[z + 1..][..n - z - 1] == init[z + 1..];
    } else {
      assert q[z + 1..] == [];
    }
  }

  /** Of the other socket's changes, the removal puts the one that was at Origin(y) last. */
  ghost predicate PutLast(q: seq<Registration>, sock: nat, other: nat, y: nat) {
    && Stays(q, sock, y) && ChangesWrite(q[Origin(q, sock, y)], other)
    && forall x :: y < x < |q| && Stays(q, sock, x) ==> !ChangesWrite(q[Origin(q, sock, x)], other)
  }

  ghost predicate LastAt(q: seq<Registration>, sock: nat, z: nat) {
    z < |q| && ChangesWrite(q[z], sock) && NoChange(q, sock, z + 1, |q|)
  }

  /** The change put last asks for the other state than the one that used to be last. */
  ghost predicate Overtaken(q: seq<Registration>, sock: nat, other: nat) {
    exists y: nat, z: nat :: PutLast(q, sock, other, y) && LastAt(q, other, z) && q[Origin(q, sock, y)].bAdd != q[z].bAdd
  }

  lemma {:induction false} LastChangeAt(q: seq<Registration>, sock: nat) returns (y: nat)
    requires !NoChange(q, sock, 0, |q|)
    ensures y < |q| && ChangesWrite(q[y], sock) && NoChange(q, sock, y + 1, |q|)
  {
    var n := |q| - 1;
    if ChangesWrite(q[n], sock) {
      y := n;
    } else {
      assert !NoChange(q[..n], sock, 0, n);
      y := LastChangeAt(q[..n], sock);
    }
  }

  lemma PutLastIsLast(q: seq<Registration>, sock: nat, other: nat, y: nat)
    requires Leaves(q, sock, Removed(q, sock, 0))
    ensures var r := Removed(q, sock, 0);
            PutLast(q, sock, other, y) <==> y < |r| && ChangesWrite(r[y], other) && NoChange(r, other, y + 1, |r|)
  {
  }

  /** Whatever is in the queue, another client's filter ends up wrong if and only if its last change is overtaken. */
  lemma OvertakingExactly(on: bool, q: seq<Registration>, sock: nat, other: nat)
    requires other != sock
    ensures FilterAfter(on, Removed(q, sock, 0), other) != FilterAfter(on, q, other) <==> Overtaken(q, sock, other)
  {
    var r := Removed(q, sock, 0);
    RemovedLeaves(q, sock);
    hide Removed, Stays, Origin, FilterAfter;
    if NoChange(r, other, 0, |r|) {
      NoneToOvertake(on, q, sock, other);
    } else {
      var y := LastChangeAt(r, other);
      PutLastIsLast(q, sock, other, y);
      FilterIsLast(on, r, other, y);
      var x := Origin(q, sock, y);
      assert ChangesWrite(q[x], other);
      var z := LastChangeAt(q, other);
      FilterIsLast(on, q, other, z);
      OvertakenAt(q, sock, other, y, z);
    }
  }

  /** In a queue that alternates: the change put last used to have an odd number of the socket's changes after it. */
  lemma OvertakingByParity(on: bool, q: seq<Registration>, sock: nat, other: nat)
    requires other != sock && Alternates(on, q, other)
    ensures Overtaken(q, sock, other) <==>
            exists y: nat :: PutLast(q, sock, other, y) && Changes(q[Origin(q, sock, y) + 1..], other) % 2 == 1
  {
    hide FilterAfter, Alternates;
    forall y: nat, z: nat | PutLast(q, sock, other, y) && LastAt(q, other, z)
      ensures q[Origin(q, sock, y)].bAdd != q[z].bAdd <==> Changes(q[Origin(q, sock, y) + 1..], other) % 2 == 1
    {
      FilterByParity(on, q, other, Origin(q, sock, y));
      FilterIsLast(on, q, other, z);
    }
    if y: nat :| PutLast(q, sock, other, y) {
      assert ChangesWrite(q[Origin(q, sock, y)], other);
      var z := LastChangeAt(q, other);
      assert LastAt(q, other, z);
      OvertakenAt(q, sock, other, y, z);
    }
  }

  lemma NoneToOvertake(on: bool, q: seq<Registration>, sock: nat, other: nat)
    requires other != sock && Leaves(q, sock, Removed(q, sock, 0))
    requires NoChange(Removed(q, sock, 0), other, 0, |Removed(q, sock, 0)|)
    ensures FilterAfter(on, Removed(q, sock, 0), other) == FilterAfter(on, q, other) == on && !Overtaken(q, sock, other)
  {
    var r := Removed(q, sock, 0);
    OthersKeepEntries(q, sock, 0, other);
    FilterQuiet(on, r, other);
    forall i | 0 <= i < |q| ensures !ChangesWrite(q[i], other) {
      assert q[i] in q;
      assert q[i].ident == other ==> q[i] in r;
    }
    FilterQuiet(on, q, other);
  }

  lemma OvertakenAt(q: seq<Registration>, sock: nat, other: nat, y: nat, z: nat)
    requires PutLast(q, sock, other, y) && LastAt(q, other, z)
    ensures Overtaken(q, sock, other) <==> q[Origin(q, sock, y)].bAdd != q[z].bAdd
    ensures forall x: nat :: PutLast(q, sock, other, x) ==> x == y
  {
    assert forall x: nat :: LastAt(q, other, x) ==> x == z;
  }

  /** The wake-up of client 2 is lost: it drained and refilled in this batch, and closing client 1 puts
      its two changes in the opposite order. */
  lemma WakeUpLost()
    ensures var q := [Registration(1, true, true), Registration(2, true, false), Registration(2, true, true)];
            Alternates(true, q, 2) && FilterAfter(true, q, 2) && !FilterAfter(true, Removed(q, 1, 0), 2)
  {
    var a, b, c := Registration(1, true, true), Registration(2, true, false), Registration(2, true, true);
    var q := [a, b, c];
    assert q[..2] == [a, b] && [a, b][..1] == [a] && [a][..0] == [];
    assert q[..1] == [a] && q[..0] == [];
    assert Alternates(true, q, 2);
    assert Swapped(q, 0) == [c, b] && Removed([c, b], 1, 1) == Removed([c, b], 1, 2) == [c, b];
    assert [c, b][..1] == [c];
  }

  /** A closed client that drained and was refilled in this batch leaves its last registration behind. */
  lemma StaleEntryLeft(sock: nat)
    ensures var q := [Registration(sock, true, false), Registration(sock, true, true)];
            Alternates(true, q, sock) && Removed(q, sock, 0) == [Registration(sock, true, true)]
  {
    var a, b := Registration(sock, true, false), Registration(sock, true, true);
    var q := [a, b];
    assert q[..1] == [a] && q[..0] == [] && [a][..0] == [];
    assert Swapped(q, 0) == [b];
    assert Removed([b], sock, 1) == [b];
  }
}
