/** The hand-written shared and weak pointers: control blocks, reference counts and re-entrant destruction.
    A heap is a finite map of control blocks and a finite map of handle locations. A location is a local
    or server-owned variable (Root) or a member of a managed object (Field); a location that is not in
    the map holds the null handle. Objects are named by the identity of their control block. */
module Ownership {

  type Id = nat

  datatype Loc = Root(slot: nat) | Field(owner: Id, slot: nat)

  datatype Handle = Strong(id: Id) | Weak(id: Id)

  datatype ControlBlock = ControlBlock(strongRefCount: nat, weakRefCount: nat, bExpired: bool)

  type Blocks = map<Id, ControlBlock>
  type Handles = map<Loc, Handle>

  /** A snapshot of the heap; dead lists the destructors in the order they started, freed the control
      blocks given back to the pool. */
  datatype Mem = Mem(blocks: Blocks, handles: Handles, next: Id, dead: seq<Id>, freed: set<Id>)

  // ----- Reading the heap -----

  ghost function StrongLocs(h: Handles, b: Id): set<Loc> {
    set l | l in h && h[l] == Strong(b)
  }

  ghost function WeakLocs(h: Handles, b: Id): set<Loc> {
    set l | l in h && h[l] == Weak(b)
  }

  ghost function FieldsOf(h: Handles, b: Id): set<Loc> {
    set l | l in h && OwnedBy(l, b)
  }

  predicate OwnedBy(l: Loc, b: Id) {
    l.Field? && l.owner == b
  }

  predicate OwnedIn(l: Loc, s: set<Id>) {
    l.Field? && l.owner in s
  }

  function Live(blocks: Blocks): set<Id> {
    set b | b in blocks && !blocks[b].bExpired
  }

  ghost function Elements(s: seq<Id>): set<Id> {
    set x | x in s
  }

  ghost predicate NoDuplicates(s: seq<Id>) {
    forall i, j :: 0 <= i < j < |s| ==> s[i] != s[j]
  }

  /** What every count must be. inFlight maps each object whose destructor is running to the handle
      whose Reset is running it; between calls from outside it is empty. */
  ghost predicate Counted(blocks: Blocks, h: Handles, inFlight: map<Id, Loc>) {
    && (forall l :: l in h ==> h[l].id in blocks)
    && (forall l :: l in h && l.Field? ==> l.owner in blocks)
    && (forall b :: b in blocks ==> BlockCounted(blocks[b], h, b, inFlight))
    && (forall b :: b in inFlight ==> b in blocks)
  }

  ghost predicate BlockCounted(cb: ControlBlock, h: Handles, b: Id, inFlight: map<Id, Loc>) {
    && cb.weakRefCount == |WeakLocs(h, b)|
    && if !cb.bExpired then
         b !in inFlight && cb.strongRefCount == |StrongLocs(h, b)| && cb.strongRefCount >= 1
       else
         && cb.strongRefCount == 1
         && if b in inFlight then StrongLocs(h, b) == {inFlight[b]}
            else StrongLocs(h, b) == {} && FieldsOf(h, b) == {}
  }

  predicate NotInFlight(inFlight: map<Id, Loc>, l: Loc) {
    forall b :: b in inFlight ==> inFlight[b] != l
  }

  /** keep is a set of live objects that hold each other up without l and without a handle in flight. */
  predicate Kept(blocks: Blocks, h: Handles, inFlight: map<Id, Loc>, keep: set<Id>, l: Loc) {
    forall x :: x in keep ==> x in blocks && !blocks[x].bExpired && HeldElsewhere(h, inFlight, keep, x, l)
  }

  predicate HeldElsewhere(h: Handles, inFlight: map<Id, Loc>, keep: set<Id>, x: Id, l: Loc) {
    exists a :: a in h && a != l && NotInFlight(inFlight, a) && h[a] == Strong(x) && (a.Root? || a.owner in keep)
  }

  /** A handle under reset is a variable, a member of a dying object, or a member of a kept object. */
  predicate Placed(l: Loc, inFlight: map<Id, Loc>, keep: set<Id>) {
    l.Field? ==> l.owner in inFlight || l.owner in keep
  }

  ghost predicate NoneOwnedBy(inFlight: map<Id, Loc>, b: Id) {
    forall c :: c in inFlight ==> !OwnedBy(inFlight[c], b)
  }

  predicate AllPlaced(inFlight: map<Id, Loc>, keep: set<Id>) {
    forall b :: b in inFlight ==> Placed(inFlight[b], inFlight, keep)
  }

  /** h2 is h1 without the handles in gone and without the members of the objects in d. */
  ghost predicate HandlesAfter(h1: Handles, h2: Handles, gone: set<Loc>, d: set<Id>) {
    && (forall l :: l in h2 <==> l in h1 && l !in gone && !OwnedIn(l, d))
    && (forall l :: l in h2 ==> h2[l] == h1[l])
  }

  /** Every strong handle on a dying object was in gone or a member of an object that died before it. */
  ghost predicate Justified(h: Handles, gone: set<Loc>, order: seq<Id>) {
    forall i, l :: 0 <= i < |order| && l in h && h[l] == Strong(order[i]) ==>
      l in gone || OwnedIn(l, Elements(order[..i]))
  }

  /** The destructor log: each destructor ran once, for exactly the objects expired or freed. */
  ghost predicate Logged(blocks: Blocks, dead: seq<Id>, freed: set<Id>, next: Id) {
    && NoDuplicates(dead)
    && freed !! blocks.Keys
    && (forall b :: b in blocks ==> b < next && (blocks[b].bExpired <==> b in dead))
    && (forall b :: b in dead ==> b in freed || b in blocks)
    && (forall b :: b in freed ==> b in dead && b < next)
    && (forall b: nat :: b < next ==> b in blocks || b in freed)
  }

  ghost predicate Consistent(m: Mem, inFlight: map<Id, Loc>) {
    Counted(m.blocks, m.handles, inFlight) && Logged(m.blocks, m.dead, m.freed, m.next)
  }

  /** From m0 to m1 the handles in gone were dropped and the objects in order died, in that order:
      each death ran one destructor, took the object's member handles with it and was forced by the
      deaths before it; a kept object did not die; a block was freed only if its object died now,
      and certainly if no weak handle was left on it. */
  ghost predicate Cascade(m0: Mem, m1: Mem, gone: set<Loc>, order: seq<Id>, keep: set<Id>) {
    && m1.next == m0.next
    && m1.dead == m0.dead + order
    && Elements(order) <= Live(m0.blocks) - keep
    && Live(m1.blocks) == Live(m0.blocks) - Elements(order)
    && HandlesAfter(m0.handles, m1.handles, gone, Elements(order))
    && Justified(m0.handles, gone, order)
    && m0.freed <= m1.freed <= m0.freed + Elements(order)
    && m1.blocks.Keys == m0.blocks.Keys - (m1.freed - m0.freed)
    && (forall d :: d in order && WeakLocs(m0.handles, d) == {} ==> d in m1.freed)
  }

  // ----- Counting -----

  lemma DropCounts(h: Handles, l: Loc, b: Id)
    requires l in h
    ensures StrongLocs(h - {l}, b) == StrongLocs(h, b) - {l}
    ensures WeakLocs(h - {l}, b) == WeakLocs(h, b) - {l}
    ensures FieldsOf(h - {l}, b) == FieldsOf(h, b) - {l}
    ensures |StrongLocs(h - {l}, b)| == |StrongLocs(h, b)| - (if h[l] == Strong(b) then 1 else 0)
    ensures |WeakLocs(h - {l}, b)| == |WeakLocs(h, b)| - (if h[l] == Weak(b) then 1 else 0)
  {
    assert h[l] == Strong(b) <==> l in StrongLocs(h, b);
    assert h[l] == Weak(b) <==> l in WeakLocs(h, b);
    assert StrongLocs(h - {l}, b) == StrongLocs(h, b) - {l};
    assert WeakLocs(h - {l}, b) == WeakLocs(h, b) - {l};
  }

  lemma AddCounts(h: Handles, l: Loc, v: Handle, b: Id)
    requires l !in h
    ensures l !in StrongLocs(h, b) && l !in WeakLocs(h, b)
    ensures v == Strong(b) <==> l in StrongLocs(h[l := v], b)
    ensures v == Weak(b) <==> l in WeakLocs(h[l := v], b)
    ensures StrongLocs(h, b) == StrongLocs(h[l := v], b) - {l}
    ensures WeakLocs(h, b) == WeakLocs(h[l := v], b) - {l}
    ensures |StrongLocs(h[l := v], b)| == |StrongLocs(h, b)| + (if v == Strong(b) then 1 else 0)
    ensures |WeakLocs(h[l := v], b)| == |WeakLocs(h, b)| + (if v == Weak(b) then 1 else 0)
    ensures FieldsOf(h, b) == FieldsOf(h[l := v], b) - {l}
  {
    var h' := h[l := v];
    assert h' - {l} == h;
    DropCounts(h', l, b);
  }

  lemma OnlyMember(s: set<Loc>, l: Loc)
    requires l in s && |s| == 1
    ensures s == {l}
  {
    assert |s - {l}| == 0;
  }

  // ----- Steps of a cascade compose -----

  lemma HandlesAfterCompose(h0: Handles, h1: Handles, h2: Handles, g1: set<Loc>, g2: set<Loc>, d1: set<Id>, d2: set<Id>)
    requires HandlesAfter(h0, h1, g1, d1) && HandlesAfter(h1, h2, g2, d2)
    ensures HandlesAfter(h0, h2, g1 + g2, d1 + d2)
  {
  }

  lemma ElementsOfSum(s: seq<Id>, t: seq<Id>)
    ensures Elements(s + t) == Elements(s) + Elements(t)
  {
  }

  lemma JustifiedCompose(h0: Handles, h1: Handles, g1: set<Loc>, g2: set<Loc>, o1: seq<Id>, o2: seq<Id>)
    requires HandlesAfter(h0, h1, g1, Elements(o1))
    requires Justified(h0, g1, o1) && Justified(h1, g2, o2)
    ensures Justified(h0, g1 + g2, o1 + o2)
  {
    var o := o1 + o2;
    forall i, l | 0 <= i < |o| && l in h0 && h0[l] == Strong(o[i])
      ensures l in g1 + g2 || OwnedIn(l, Elements(o[..i]))
    {
      if i < |o1| {
        assert o[..i] == o1[..i];
      } else {
        var k := i - |o1|;
        assert o[i] == o2[k];
        assert o[..i] == o1 + o2[..k];
        ElementsOfSum(o1, o2[..k]);
        if l in h1 {
          assert l in g2 || OwnedIn(l, Elements(o2[..k]));
        }
      }
    }
  }

  // ----- Steps of a Reset keep the counts -----

  lemma MarkExpired(blocks: Blocks, h: Handles, inFlight: map<Id, Loc>, b: Id, l: Loc)
    requires Counted(blocks, h, inFlight)
    requires b in blocks && !blocks[b].bExpired && blocks[b].strongRefCount == 1
    requires l in h && h[l] == Strong(b)
    ensures StrongLocs(h, b) == {l} && b !in inFlight
    ensures Counted(blocks[b := blocks[b].(bExpired := true)], h, inFlight[b := l])
  {
    assert BlockCounted(blocks[b], h, b, inFlight);
    OnlyMember(StrongLocs(h, b), l);
    var blocks' := blocks[b := blocks[b].(bExpired := true)];
    forall c | c in blocks' ensures BlockCounted(blocks'[c], h, c, inFlight[b := l]) {
      assert BlockCounted(blocks[c], h, c, inFlight);
    }
  }

  /** The dying object is not kept, and no handle in flight is one of its members. */
  lemma NotOwnerOfStack(blocks: Blocks, h: Handles, inFlight: map<Id, Loc>, keep: set<Id>, b: Id, l: Loc)
    requires Counted(blocks, h, inFlight)
    requires b in blocks && !blocks[b].bExpired && StrongLocs(h, b) == {l}
    requires Kept(blocks, h, inFlight, keep, l)
    requires Placed(l, inFlight, keep) && AllPlaced(inFlight, keep)
    ensures b !in keep && b !in inFlight
    ensures NoneOwnedBy(inFlight[b := l], b)
    ensures AllPlaced(inFlight[b := l], keep)
    ensures Kept(blocks[b := blocks[b].(bExpired := true)], h, inFlight[b := l], keep, l)
  {
    assert BlockCounted(blocks[b], h, b, inFlight);
    forall x | x in keep ensures x != b {
      var a :| a in h && a != l && NotInFlight(inFlight, a) && h[a] == Strong(x) && (a.Root? || a.owner in keep);
      assert a !in StrongLocs(h, b);
    }
    forall x | x in keep ensures HeldElsewhere(h, inFlight[b := l], keep, x, l) {
      var a :| a in h && a != l && NotInFlight(inFlight, a) && h[a] == Strong(x) && (a.Root? || a.owner in keep);
      assert NotInFlight(inFlight[b := l], a);
    }
  }

  ghost predicate TargetsIn(blocks: Blocks, h: Handles) {
    forall l :: l in h ==> h[l].id in blocks && (l.Field? ==> l.owner in blocks)
  }

  function ReleasedBlocks(blocks: Blocks, b: Id): Blocks {
    if b in blocks && blocks[b].weakRefCount == 0 then blocks - {b} else blocks
  }

  lemma FinishTargets(blocks: Blocks, h: Handles, inFlight: map<Id, Loc>, b: Id, l: Loc)
    requires Counted(blocks, h, inFlight[b := l])
    requires l in h && h[l] == Strong(b) && FieldsOf(h, b) == {}
    ensures TargetsIn(ReleasedBlocks(blocks, b), h - {l})
  {
    assert b in inFlight[b := l] && inFlight[b := l][b] == l;
    assert BlockCounted(blocks[b], h, b, inFlight[b := l]);
    forall a | a in h && a != l ensures !OwnedBy(a, b) && (h[a].id == b ==> a in WeakLocs(h, b)) {
      assert OwnedBy(a, b) ==> a in FieldsOf(h, b);
      assert h[a] == Strong(b) ==> a in StrongLocs(h, b);
    }
  }

  /** Once its members are gone a dying object can lose its last handle, and its block if no weak handle is left. */
  lemma FinishDestroyed(blocks: Blocks, h: Handles, inFlight: map<Id, Loc>, b: Id, l: Loc)
    requires Counted(blocks, h, inFlight[b := l]) && b !in inFlight
    requires l in h && h[l] == Strong(b) && FieldsOf(h, b) == {}
    ensures Counted(ReleasedBlocks(blocks, b), h - {l}, inFlight)
  {
    FinishTargets(blocks, h, inFlight, b, l);
    var blocks' := ReleasedBlocks(blocks, b);
    assert inFlight[b := l][b] == l;
    forall c | c in blocks' ensures BlockCounted(blocks'[c], h - {l}, c, inFlight) {
      assert BlockCounted(blocks[c], h, c, inFlight[b := l]);
      DropCounts(h, l, c);
    }
    forall c | c in inFlight ensures c in blocks' { assert c in inFlight[b := l]; }
  }

  lemma DropOneOfMany(blocks: Blocks, h: Handles, inFlight: map<Id, Loc>, b: Id, l: Loc)
    requires Counted(blocks, h, inFlight) && NotInFlight(inFlight, l)
    requires b in blocks && blocks[b].strongRefCount > 1
    requires l in h && h[l] == Strong(b)
    ensures Counted(blocks[b := blocks[b].(strongRefCount := blocks[b].strongRefCount - 1)], h - {l}, inFlight)
  {
    hide StrongLocs, WeakLocs, FieldsOf;
    var blocks' := blocks[b := blocks[b].(strongRefCount := blocks[b].strongRefCount - 1)];
    forall c | c in blocks' ensures BlockCounted(blocks'[c], h - {l}, c, inFlight) {
      assert BlockCounted(blocks[c], h, c, inFlight);
      DropCounts(h, l, c);
    }
  }

  function LessWeak(blocks: Blocks, b: Id): Blocks {
    if b in blocks && blocks[b].weakRefCount > 0
    then blocks[b := blocks[b].(weakRefCount := blocks[b].weakRefCount - 1)]
    else blocks
  }

  lemma DropWeakHandle(blocks: Blocks, h: Handles, inFlight: map<Id, Loc>, b: Id, l: Loc)
    requires Counted(blocks, h, inFlight)
    requires l in h && h[l] == Weak(b)
    ensures b in blocks && blocks[b].weakRefCount > 0 && blocks[b].strongRefCount > 0
    ensures Counted(LessWeak(blocks, b), h - {l}, inFlight)
  {
    assert BlockCounted(blocks[b], h, b, inFlight);
    assert l in WeakLocs(h, b);
    var blocks' := LessWeak(blocks, b);
    forall c | c in blocks' ensures BlockCounted(blocks'[c], h - {l}, c, inFlight) {
      assert BlockCounted(blocks[c], h, c, inFlight);
      DropCounts(h, l, c);
    }
  }

  /** b dies first, then what its members held; afterwards only l itself is left to drop. */
  lemma CascadeComposes(h0: Handles, h1: Handles, l: Loc, b: Id, rest: seq<Id>)
    requires l in h0 && StrongLocs(h0, b) == {l} && !OwnedBy(l, b)
    requires HandlesAfter(h0, h1, FieldsOf(h0, b), Elements(rest))
    requires Justified(h0, FieldsOf(h0, b), rest)
    ensures HandlesAfter(h0, h1 - {l}, {l}, Elements([b] + rest))
    ensures Justified(h0, {l}, [b] + rest)
  {
    ElementsOfSum([b], rest);
    var order := [b] + rest;
    forall i, a | 0 <= i < |order| && a in h0 && h0[a] == Strong(order[i])
      ensures a in {l} || OwnedIn(a, Elements(order[..i]))
    {
      if i == 0 {
        assert a in StrongLocs(h0, b);
      } else {
        assert order[i] == rest[i - 1];
        assert order[..i] == [b] + rest[..i - 1];
        ElementsOfSum([b], rest[..i - 1]);
        assert a in FieldsOf(h0, b) || OwnedIn(a, Elements(rest[..i - 1]));
      }
    }
  }

  // ----- A cascade, step by step -----

  lemma NothingHappens(m: Mem, keep: set<Id>, gone: set<Loc>)
    requires gone !! m.handles.Keys
    ensures Cascade(m, m, gone, [], keep)
  {
  }

  lemma CascadeThen(m0: Mem, m1: Mem, m2: Mem, g1: set<Loc>, g2: set<Loc>, o1: seq<Id>, o2: seq<Id>, keep: set<Id>)
    requires Cascade(m0, m1, g1, o1, keep) && Cascade(m1, m2, g2, o2, keep)
    ensures Cascade(m0, m2, g1 + g2, o1 + o2, keep)
  {
    HandlesAfterCompose(m0.handles, m1.handles, m2.handles, g1, g2, Elements(o1), Elements(o2));
    JustifiedCompose(m0.handles, m1.handles, g1, g2, o1, o2);
    ElementsOfSum(o1, o2);
    forall d | d in o1 + o2 && WeakLocs(m0.handles, d) == {} ensures d in m2.freed {
      if d in o2 {
        WeakLocsShrink(m0.handles, m1.handles, g1, Elements(o1), d);
      }
    }
  }

  lemma WeakLocsShrink(h0: Handles, h1: Handles, gone: set<Loc>, d: set<Id>, b: Id)
    requires HandlesAfter(h0, h1, gone, d)
    ensures WeakLocs(h1, b) <= WeakLocs(h0, b)
  {
  }

  lemma KeptThrough(m0: Mem, m1: Mem, inFlight: map<Id, Loc>, keep: set<Id>, l: Loc, b: Id, a: Loc, order: seq<Id>)
    requires Kept(m0.blocks, m0.handles, inFlight, keep, l)
    requires b !in keep && OwnedBy(a, b)
    requires Cascade(m0, m1, {a}, order, keep)
    ensures Kept(m1.blocks, m1.handles, inFlight, keep, l)
  {
    forall x | x in keep
      ensures x in m1.blocks && !m1.blocks[x].bExpired && HeldElsewhere(m1.handles, inFlight, keep, x, l)
    {
      assert x in Live(m0.blocks) && x in Live(m1.blocks);
      var k :| k in m0.handles && k != l && NotInFlight(inFlight, k) && m0.handles[k] == Strong(x) && (k.Root? || k.owner in keep);
      assert k in m1.handles;
    }
  }

  lemma KeptWithout(m: Mem, inFlight: map<Id, Loc>, keep: set<Id>, l: Loc, b: Id, a: Loc)
    requires Kept(m.blocks, m.handles, inFlight, keep, l)
    requires b !in keep && OwnedBy(a, b)
    ensures Kept(m.blocks, m.handles, inFlight, keep, a)
  {
    forall x | x in keep ensures HeldElsewhere(m.handles, inFlight, keep, x, a) {
      var k :| k in m.handles && k != l && NotInFlight(inFlight, k) && m.handles[k] == Strong(x) && (k.Root? || k.owner in keep);
    }
  }

  function WeakDropped(m: Mem, l: Loc): Mem
    requires l in m.handles
  {
    m.(blocks := LessWeak(m.blocks, m.handles[l].id), handles := m.handles - {l})
  }

  lemma WeakResetStep(m: Mem, inFlight: map<Id, Loc>, l: Loc, keep: set<Id>)
    requires Consistent(m, inFlight) && l in m.handles && m.handles[l].Weak?
    ensures m.handles[l].id in m.blocks
    ensures m.blocks[m.handles[l].id].weakRefCount > 0 && m.blocks[m.handles[l].id].strongRefCount > 0
    ensures Consistent(WeakDropped(m, l), inFlight)
    ensures Cascade(m, WeakDropped(m, l), {l}, [], keep)
  {
    hide BlockCounted;
    DropWeakHandle(m.blocks, m.handles, inFlight, m.handles[l].id, l);
  }

  function StrongDropped(m: Mem, l: Loc): Mem
    requires l in m.handles && m.handles[l].id in m.blocks && m.blocks[m.handles[l].id].strongRefCount > 0
  {
    var b := m.handles[l].id;
    m.(blocks := m.blocks[b := m.blocks[b].(strongRefCount := m.blocks[b].strongRefCount - 1)], handles := m.handles - {l})
  }

  lemma StrongBlockPresent(m: Mem, inFlight: map<Id, Loc>, l: Loc)
    requires Consistent(m, inFlight) && l in m.handles && m.handles[l].Strong?
    ensures m.handles[l].id in m.blocks && m.blocks[m.handles[l].id].strongRefCount > 0
  {
    assert BlockCounted(m.blocks[m.handles[l].id], m.handles, m.handles[l].id, inFlight);
  }

  lemma DropStep(m: Mem, inFlight: map<Id, Loc>, l: Loc, keep: set<Id>)
    requires Consistent(m, inFlight) && NotInFlight(inFlight, l) && l in m.handles && m.handles[l].Strong?
    requires m.handles[l].id in m.blocks && m.blocks[m.handles[l].id].strongRefCount > 1
    ensures Consistent(StrongDropped(m, l), inFlight)
    ensures Cascade(m, StrongDropped(m, l), {l}, [], keep)
  {
    hide BlockCounted;
    DropOneOfMany(m.blocks, m.handles, inFlight, m.handles[l].id, l);
  }

  function Expiring(m: Mem, b: Id): Mem
    requires b in m.blocks
  {
    m.(blocks := m.blocks[b := m.blocks[b].(bExpired := true)], dead := m.dead + [b])
  }

  lemma LastHandleIsLive(m: Mem, inFlight: map<Id, Loc>, b: Id, l: Loc)
    requires Consistent(m, inFlight) && NotInFlight(inFlight, l)
    requires l in m.handles && m.handles[l] == Strong(b)
    ensures b in m.blocks && !m.blocks[b].bExpired && b !in m.freed
  {
    assert BlockCounted(m.blocks[b], m.handles, b, inFlight);
    assert l in StrongLocs(m.handles, b);
  }

  lemma ExpireStep(m: Mem, inFlight: map<Id, Loc>, keep: set<Id>, b: Id, l: Loc)
    requires Consistent(m, inFlight) && NotInFlight(inFlight, l)
    requires Kept(m.blocks, m.handles, inFlight, keep, l)
    requires Placed(l, inFlight, keep) && AllPlaced(inFlight, keep)
    requires l in m.handles && m.handles[l] == Strong(b)
    requires b in m.blocks && m.blocks[b].strongRefCount == 1
    ensures b in Live(m.blocks) && b !in inFlight && b !in keep && b !in m.freed && StrongLocs(m.handles, b) == {l}
    ensures Consistent(Expiring(m, b), inFlight[b := l])
    ensures Kept(Expiring(m, b).blocks, m.handles, inFlight[b := l], keep, l)
    ensures AllPlaced(inFlight[b := l], keep) && NoneOwnedBy(inFlight[b := l], b)
    ensures Live(Expiring(m, b).blocks) == Live(m.blocks) - {b}
    ensures |Live(Expiring(m, b).blocks)| < |Live(m.blocks)|
  {
    LastHandleIsLive(m, inFlight, b, l);
    MarkExpired(m.blocks, m.handles, inFlight, b, l);
    NotOwnerOfStack(m.blocks, m.handles, inFlight, keep, b, l);
    assert Live(Expiring(m, b).blocks) == Live(m.blocks) - {b};
  }

  function Released(m: Mem, b: Id, l: Loc): Mem
    requires b in m.blocks
  {
    if m.blocks[b].weakRefCount == 0
    then m.(blocks := m.blocks - {b}, handles := m.handles - {l}, freed := m.freed + {b})
    else m.(handles := m.handles - {l})
  }

  lemma ReleaseConsistent(m1: Mem, inFlight: map<Id, Loc>, b: Id, l: Loc)
    requires Consistent(m1, inFlight[b := l]) && b !in inFlight && b in m1.blocks
    requires l in m1.handles && m1.handles[l] == Strong(b) && FieldsOf(m1.handles, b) == {}
    ensures Consistent(Released(m1, b, l), inFlight)
  {
    BlockOfCorpse(m1, inFlight[b := l], b);
    FinishDestroyed(m1.blocks, m1.handles, inFlight, b, l);
  }

  lemma ReleaseCascade(m: Mem, m1: Mem, keep: set<Id>, b: Id, l: Loc, rest: seq<Id>)
    requires b in Live(m.blocks) && b !in keep && StrongLocs(m.handles, b) == {l} && b !in m.freed
    requires l in m.handles && !OwnedBy(l, b)
    requires Cascade(Expiring(m, b), m1, FieldsOf(m.handles, b), rest, keep)
    requires b in m1.blocks && m1.blocks[b].bExpired
    requires m1.blocks[b].weakRefCount == |WeakLocs(m1.handles, b)|
    ensures Cascade(m, Released(m1, b, l), {l}, [b] + rest, keep)
  {
    CascadeComposes(m.handles, m1.handles, l, b, rest);
    ElementsOfSum([b], rest);
    var m2 := Released(m1, b, l);
    assert Live(Expiring(m, b).blocks) == Live(m.blocks) - {b};
    assert Live(m2.blocks) == Live(m1.blocks);
    assert m1.dead == m.dead + ([b] + rest);
    WeakLocsShrink(m.handles, m1.handles, FieldsOf(m.handles, b), Elements(rest), b);
  }

  /** The object whose last handle was reset is freed exactly when no weak handle on it is left. */
  ghost predicate FreedIfUnobserved(m: Mem, b: Id) {
    b in m.freed <==> WeakLocs(m.handles, b) == {}
  }

  lemma ReleaseFrees(m1: Mem, inFlight: map<Id, Loc>, b: Id, l: Loc)
    requires Consistent(m1, inFlight) && b in inFlight && inFlight[b] == l && b in m1.blocks
    ensures FreedIfUnobserved(Released(m1, b, l), b)
  {
    BlockOfCorpse(m1, inFlight, b);
    DropCounts(m1.handles, l, b);
  }

  lemma OwnerPresent(m1: Mem, inFlight: map<Id, Loc>, b: Id, l: Loc)
    requires Consistent(m1, inFlight) && l in m1.handles && !OwnedBy(l, b) && b in m1.blocks
    ensures l.Field? ==> l.owner in Released(m1, b, l).blocks.Keys
  {
  }

  /** Once ~T is over, l is nulled and the block is freed if no weak handle is left. */
  lemma ReleaseStep(m: Mem, m1: Mem, inFlight: map<Id, Loc>, keep: set<Id>, b: Id, l: Loc, rest: seq<Id>)
    requires b in Live(m.blocks) && b !in keep && b !in inFlight && StrongLocs(m.handles, b) == {l}
    requires l in m.handles && NoneOwnedBy(inFlight[b := l], b) && b !in m.freed
    requires Cascade(Expiring(m, b), m1, FieldsOf(m.handles, b), rest, keep)
    requires Consistent(m1, inFlight[b := l])
    ensures b in m1.blocks && b !in m1.freed
    ensures l.Field? ==> l.owner in Released(m1, b, l).blocks.Keys
    ensures Consistent(Released(m1, b, l), inFlight)
    ensures Cascade(m, Released(m1, b, l), {l}, [b] + rest, keep)
    ensures FreedIfUnobserved(Released(m1, b, l), b)
  {
    hide Consistent, Released, FreedIfUnobserved;
    ReleaseFrees(m1, inFlight[b := l], b, l);
    assert b in inFlight[b := l] && inFlight[b := l][b] == l;
    BlockOfCorpse(m1, inFlight[b := l], b);
    forall a | a in m1.handles ensures !OwnedBy(a, b) {
      assert OwnedBy(a, b) ==> a in FieldsOf(m.handles, b);
    }
    OwnerPresent(m1, inFlight[b := l], b, l);
    ReleaseConsistent(m1, inFlight, b, l);
    ReleaseCascade(m, m1, keep, b, l, rest);
  }

  lemma BlockOfCorpse(m: Mem, inFlight: map<Id, Loc>, b: Id)
    requires Consistent(m, inFlight) && b in inFlight
    ensures b in m.blocks && m.blocks[b].bExpired && m.blocks[b].strongRefCount == 1
    ensures inFlight[b] in m.handles && m.handles[inFlight[b]] == Strong(b)
    ensures m.blocks[b].weakRefCount == |WeakLocs(m.handles, b)|
    ensures b !in m.freed
  {
    assert BlockCounted(m.blocks[b], m.handles, b, inFlight);
    assert inFlight[b] in StrongLocs(m.handles, b);
  }

  lemma MemberNotInFlight(inFlight: map<Id, Loc>, l: Loc, b: Id)
    requires NoneOwnedBy(inFlight, b) && OwnedBy(l, b)
    ensures NotInFlight(inFlight, l)
  {
  }

  lemma NoMembersLeft(h: Handles, b: Id)
    requires !exists l :: l in h && OwnedBy(l, b)
    ensures FieldsOf(h, b) == {}
  {
  }

  lemma OneMemberFewer(h0: Handles, h1: Handles, l: Loc, b: Id, d: set<Id>)
    requires HandlesAfter(h0, h1, {l}, d) && l in h0 && OwnedBy(l, b) && b !in d
    ensures FieldsOf(h1, b) + {l} == FieldsOf(h0, b) && l !in FieldsOf(h1, b)
    ensures |FieldsOf(h1, b)| < |FieldsOf(h0, b)|
  {
    assert FieldsOf(h1, b) + {l} == FieldsOf(h0, b);
  }

  /** Resetting one member of the dying object b leaves its other members alone. */
  lemma FieldsLeft(m0: Mem, m1: Mem, inFlight: map<Id, Loc>, l: Loc, b: Id, order: seq<Id>, keep: set<Id>)
    requires Consistent(m0, inFlight) && b in inFlight
    requires Cascade(m0, m1, {l}, order, keep) && l in m0.handles && OwnedBy(l, b)
    ensures FieldsOf(m1.handles, b) + {l} == FieldsOf(m0.handles, b)
    ensures |FieldsOf(m1.handles, b)| < |FieldsOf(m0.handles, b)|
    ensures |Live(m1.blocks)| <= |Live(m0.blocks)|
  {
    hide Consistent, HandlesAfter, Justified, FieldsOf;
    BlockOfCorpse(m0, inFlight, b);
    assert b !in Elements(order);
    OneMemberFewer(m0.handles, m1.handles, l, b, Elements(order));
    SubsetSize(Live(m1.blocks), Live(m0.blocks));
  }

  lemma SubsetSize(s: set<Id>, t: set<Id>)
    requires s <= t
    ensures |s| <= |t|
  {
    assert t == s + (t - s);
  }

  // ----- What dies -----

  /** x is closed: an object all of whose strong handles other than l sit inside x is itself in x. */
  ghost predicate ClosedUnderLoss(blocks: Blocks, h: Handles, l: Loc, x: set<Id>) {
    forall b :: b in Live(blocks) && HeldOnlyBy(h, l, x, b) ==> b in x
  }

  ghost predicate HeldOnlyBy(h: Handles, l: Loc, x: set<Id>, b: Id) {
    forall a :: a in StrongLocs(h, b) ==> a == l || OwnedIn(a, x)
  }

  /** A cascade kills exactly the least closed set: no object too many (first part, needs only that every
      death was justified) and none too few (second part, from the counts afterwards). */
  lemma {:induction false} DeadSetIsLeast(blocks: Blocks, h: Handles, l: Loc, order: seq<Id>, x: set<Id>)
    requires Elements(order) <= Live(blocks)
    requires Justified(h, {l}, order)
    requires ClosedUnderLoss(blocks, h, l, x)
    ensures Elements(order) <= x
  {
    if |order| > 0 {
      var n := |order| - 1;
      var init := order[..n];
      forall i, a | 0 <= i < |init| && a in h && h[a] == Strong(init[i])
        ensures a in {l} || OwnedIn(a, Elements(init[..i]))
      {
        assert init[..i] == order[..i];
        assert init[i] == order[i];
      }
      DeadSetIsLeast(blocks, h, l, init, x);
      forall a | a in StrongLocs(h, order[n]) ensures a == l || OwnedIn(a, x) {
        assert a in {l} || OwnedIn(a, Elements(order[..n]));
      }
      assert order[n] in Elements(order);
      assert order[n] in x;
      assert order == init + [order[n]];
    }
  }

  lemma DeadSetIsClosed(blocks: Blocks, h: Handles, l: Loc, d: set<Id>, blocks': Blocks, h': Handles)
    requires HandlesAfter(h, h', {l}, d)
    requires Live(blocks') == Live(blocks) - d
    requires Counted(blocks', h', map[])
    ensures ClosedUnderLoss(blocks, h, l, d)
  {
    forall b | b in Live(blocks) && b !in d ensures !HeldOnlyBy(h, l, d, b) {
      assert b in Live(blocks');
      assert BlockCounted(blocks'[b], h', b, map[]);
      var a :| a in StrongLocs(h', b);
      assert a in StrongLocs(h, b);
    }
  }

  /** The guard for resetting a handle, exactly: a set is kept up without l if and only if everything
      outside it is closed under losing l. So a member handle of o may be reset without o dying under it
      if and only if o is outside the least closed set. */
  lemma KeptIffRestClosed(m: Mem, l: Loc, keep: set<Id>)
    requires Consistent(m, map[]) && keep <= Live(m.blocks)
    ensures Kept(m.blocks, m.handles, map[], keep, l) <==> ClosedUnderLoss(m.blocks, m.handles, l, Live(m.blocks) - keep)
  {
    var rest := Live(m.blocks) - keep;
    if ClosedUnderLoss(m.blocks, m.handles, l, rest) {
      forall x | x in keep ensures HeldElsewhere(m.handles, map[], keep, x, l) {
        assert !HeldOnlyBy(m.handles, l, rest, x);
        var a :| a in StrongLocs(m.handles, x) && a != l && !OwnedIn(a, rest);
        if a.Field? {
          assert a in FieldsOf(m.handles, a.owner);
          assert BlockCounted(m.blocks[a.owner], m.handles, a.owner, map[]);
        }
      }
    }
    if Kept(m.blocks, m.handles, map[], keep, l) {
      forall b | b in Live(m.blocks) && HeldOnlyBy(m.handles, l, rest, b) ensures b in rest {
        if HeldElsewhere(m.handles, map[], keep, b, l) {
          var a :| a in m.handles && a != l && m.handles[a] == Strong(b) && (a.Root? || a.owner in keep);
          assert a in StrongLocs(m.handles, b);
        }
      }
    }
  }

  /** Between operations, an object lives exactly while some strong handle names it. */
  lemma LivesWhileHeld(m: Mem, b: Id)
    requires Consistent(m, map[]) && b in m.blocks
    ensures b in Live(m.blocks) <==> exists l :: l in m.handles && m.handles[l] == Strong(b)
  {
    assert BlockCounted(m.blocks[b], m.handles, b, map[]);
    if b in Live(m.blocks) {
      var l :| l in StrongLocs(m.handles, b);
    } else {
      forall l | l in m.handles ensures m.handles[l] != Strong(b) {
        assert l !in StrongLocs(m.handles, b);
      }
    }
  }

  /** The members of a dead object are gone. */
  lemma DeadHoldsNothing(m: Mem, l: Loc)
    requires Consistent(m, map[]) && l in m.handles && l.Field?
    ensures l.owner in Live(m.blocks)
  {
    assert BlockCounted(m.blocks[l.owner], m.handles, l.owner, map[]);
    assert l in FieldsOf(m.handles, l.owner);
  }

  /** A destroyed object whose block was still weakly held stays: no later cascade frees it. */
  lemma CorpsesStay(m0: Mem, m1: Mem, gone: set<Loc>, order: seq<Id>, keep: set<Id>, b: Id)
    requires Cascade(m0, m1, gone, order, keep)
    requires b in m0.blocks && m0.blocks[b].bExpired
    ensures b in m1.blocks && m1.blocks[b].bExpired && b !in order
  {
    assert b !in Elements(order) && b !in Live(m1.blocks);
  }

  /** Only counts differ: the same blocks, the same objects alive, nothing logged. */
  ghost predicate SameObjects(m0: Mem, m1: Mem) {
    && m1.blocks.Keys == m0.blocks.Keys
    && Live(m1.blocks) == Live(m0.blocks)
    && m1.dead == m0.dead && m1.freed == m0.freed && m1.next == m0.next
  }

  /** The logs only grow, and a block whose object is dead stays as it is. */
  ghost predicate Onward(m0: Mem, m1: Mem) {
    && m0.dead <= m1.dead && m0.freed <= m1.freed
    && (forall b :: b in m0.blocks && m0.blocks[b].bExpired ==> b in m1.blocks && m1.blocks[b].bExpired)
  }

  lemma SameObjectsIsOnward(m0: Mem, m1: Mem)
    requires SameObjects(m0, m1)
    ensures Onward(m0, m1)
  {
    forall b | b in m0.blocks && m0.blocks[b].bExpired ensures b in m1.blocks && m1.blocks[b].bExpired {
      assert b !in Live(m1.blocks);
    }
  }

  lemma CascadeIsOnward(m0: Mem, m1: Mem, gone: set<Loc>, order: seq<Id>, keep: set<Id>)
    requires Cascade(m0, m1, gone, order, keep) && Consistent(m0, map[])
    ensures Onward(m0, m1)
  {
    forall b | b in m0.blocks && m0.blocks[b].bExpired ensures b in m1.blocks && m1.blocks[b].bExpired {
      CorpsesStay(m0, m1, gone, order, keep, b);
    }
  }

  // ----- Handles appear -----

  function StrongAdded(m: Mem, l: Loc, b: Id): Mem
    requires b in m.blocks
  {
    m.(blocks := m.blocks[b := m.blocks[b].(strongRefCount := m.blocks[b].strongRefCount + 1)], handles := m.handles[l := Strong(b)])
  }

  function WeakAdded(m: Mem, l: Loc, b: Id): Mem
    requires b in m.blocks
  {
    m.(blocks := m.blocks[b := m.blocks[b].(weakRefCount := m.blocks[b].weakRefCount + 1)], handles := m.handles[l := Weak(b)])
  }

  /** A place a handle can be written to: a variable, or a member of an object that is alive. */
  predicate Writable(m: Mem, l: Loc) {
    l !in m.handles && (l.Field? ==> l.owner in m.blocks && !m.blocks[l.owner].bExpired)
  }

  lemma StrongAddCounted(m: Mem, l: Loc, b: Id)
    requires Consistent(m, map[]) && Writable(m, l)
    requires b in m.blocks && !m.blocks[b].bExpired
    ensures var m' := StrongAdded(m, l, b); Counted(m'.blocks, m'.handles, map[])
  {
    var m' := StrongAdded(m, l, b);
    forall c | c in m'.blocks ensures BlockCounted(m'.blocks[c], m'.handles, c, map[]) {
      assert BlockCounted(m.blocks[c], m.handles, c, map[]);
      AddCounts(m.handles, l, Strong(b), c);
    }
  }

  lemma WeakAddCounted(m: Mem, l: Loc, b: Id)
    requires Consistent(m, map[]) && Writable(m, l)
    requires b in m.blocks
    ensures var m' := WeakAdded(m, l, b); Counted(m'.blocks, m'.handles, map[])
  {
    var m' := WeakAdded(m, l, b);
    forall c | c in m'.blocks ensures BlockCounted(m'.blocks[c], m'.handles, c, map[]) {
      assert BlockCounted(m.blocks[c], m.handles, c, map[]);
      AddCounts(m.handles, l, Weak(b), c);
    }
  }

  lemma StrongAddStep(m: Mem, l: Loc, b: Id)
    requires Consistent(m, map[]) && Writable(m, l)
    requires b in m.blocks && !m.blocks[b].bExpired
    ensures Consistent(StrongAdded(m, l, b), map[])
    ensures SameObjects(m, StrongAdded(m, l, b))
  {
    hide BlockCounted;
    StrongAddCounted(m, l, b);
  }

  lemma WeakAddStep(m: Mem, l: Loc, b: Id)
    requires Consistent(m, map[]) && Writable(m, l) && b in m.blocks
    ensures Consistent(WeakAdded(m, l, b), map[])
    ensures SameObjects(m, WeakAdded(m, l, b))
  {
    hide BlockCounted;
    WeakAddCounted(m, l, b);
  }

  function Made(m: Mem, l: Loc): Mem {
    m.(blocks := m.blocks[m.next := ControlBlock(1, 0, false)], handles := m.handles[l := Strong(m.next)], next := m.next + 1)
  }

  /** No handle names a block that has not been made yet. */
  lemma NextIsUnnamed(m: Mem)
    requires Consistent(m, map[])
    ensures m.next !in m.blocks && StrongLocs(m.handles, m.next) == {} && WeakLocs(m.handles, m.next) == {}
  {
    hide BlockCounted;
  }

  lemma MakeCounted(m: Mem, l: Loc, c: Id)
    requires Consistent(m, map[]) && Writable(m, l) && c in Made(m, l).blocks
    ensures BlockCounted(Made(m, l).blocks[c], Made(m, l).handles, c, map[])
  {
    NextIsUnnamed(m);
    AddCounts(m.handles, l, Strong(m.next), c);
    assert c in m.blocks ==> BlockCounted(m.blocks[c], m.handles, c, map[]);
    hide Logged;
  }

  lemma MakeStep(m: Mem, l: Loc)
    requires Consistent(m, map[]) && Writable(m, l)
    ensures m.next !in m.blocks && Consistent(Made(m, l), map[])
  {
    hide BlockCounted, StrongLocs, WeakLocs;
    NextIsUnnamed(m);
    forall c | c in Made(m, l).blocks ensures BlockCounted(Made(m, l).blocks[c], Made(m, l).handles, c, map[]) {
      MakeCounted(m, l, c);
    }
  }

  lemma StrongNamesLive(m: Mem, l: Loc)
    requires Consistent(m, map[]) && l in m.handles && m.handles[l].Strong?
    ensures m.handles[l].id in m.blocks && !m.blocks[m.handles[l].id].bExpired
  {
    assert BlockCounted(m.blocks[m.handles[l].id], m.handles, m.handles[l].id, map[]);
    assert l in StrongLocs(m.handles, m.handles[l].id);
  }

  /** A handle that may be reset from outside: nothing it takes down owns it. */
  predicate MayReset(m: Mem, l: Loc, keep: set<Id>) {
    Kept(m.blocks, m.handles, map[], keep, l) && Placed(l, map[], keep)
  }

  lemma WritableAfterReset(m0: Mem, m1: Mem, l: Loc, order: seq<Id>, keep: set<Id>)
    requires MayReset(m0, l, keep) && Cascade(m0, m1, {l}, order, keep)
    ensures Writable(m1, l)
  {
    if l.Field? {
      assert l.owner in Live(m0.blocks) && l.owner in Live(m1.blocks);
    }
  }

  lemma MadeIsOnward(m: Mem, l: Loc)
    requires Consistent(m, map[]) && Writable(m, l)
    ensures Onward(m, Made(m, l))
  {
    MakeStep(m, l);
  }

  /** What a handle that is not null tells about its block. */
  lemma TargetFacts(m: Mem, l: Loc)
    requires Consistent(m, map[]) && l in m.handles
    ensures m.handles[l].id in m.blocks
    ensures m.blocks[m.handles[l].id].strongRefCount > 0
    ensures m.blocks[m.handles[l].id].bExpired <==> m.handles[l].id in m.dead
  {
    assert BlockCounted(m.blocks[m.handles[l].id], m.handles, m.handles[l].id, map[]);
  }

  /** A source that is not part of what died is still there after dst was reset. */
  lemma SourceSurvives(m0: Mem, m1: Mem, dst: Loc, src: Loc, order: seq<Id>, keep: set<Id>)
    requires Cascade(m0, m1, {dst}, order, keep) && Placed(src, map[], keep)
    ensures dst !in m1.handles && m1.dead == m0.dead + order && Elements(order) !! keep
    ensures HandlesAfter(m0.handles, m1.handles, {dst}, Elements(order))
    ensures src in m1.handles <==> src != dst && src in m0.handles
    ensures src in m1.handles ==> m1.handles[src] == m0.handles[src]
  {
  }

  lemma RemoveCounts(h: Handles, a: Loc, c: Id)
    ensures |StrongLocs(h - {a}, c)| == |StrongLocs(h, c)| - (if a in h && h[a] == Strong(c) then 1 else 0)
    ensures |WeakLocs(h - {a}, c)| == |WeakLocs(h, c)| - (if a in h && h[a] == Weak(c) then 1 else 0)
  {
    if a in h { DropCounts(h, a, c); } else { assert h - {a} == h; }
  }

  lemma SwapCounts(h: Handles, a: Loc, b: Loc, c: Id)
    requires a != b
    ensures |StrongLocs(SwapHandles(h, a, b), c)| == |StrongLocs(h, c)|
    ensures |WeakLocs(SwapHandles(h, a, b), c)| == |WeakLocs(h, c)|
  {
    hide StrongLocs, WeakLocs, FieldsOf;
    RemoveCounts(h, a, c);
    RemoveCounts(h - {a}, b, c);
    var h2 := h - {a, b};
    assert h2 == h - {a} - {b};
    if b in h { AddCounts(h2, a, h[b], c); }
    var h3 := if b in h then h2[a := h[b]] else h2;
    if a in h { AddCounts(h3, b, h[a], c); }
  }

  function SwapHandles(h: Handles, a: Loc, b: Loc): Handles {
    var h2 := h - {a, b};
    var h3 := if b in h then h2[a := h[b]] else h2;
    if a in h then h3[b := h[a]] else h3
  }

  lemma SwapStep(m: Mem, a: Loc, b: Loc)
    requires Consistent(m, map[]) && a != b
    requires a.Field? ==> a.owner in Live(m.blocks)
    requires b.Field? ==> b.owner in Live(m.blocks)
    ensures Consistent(m.(handles := SwapHandles(m.handles, a, b)), map[])
  {
    var h' := SwapHandles(m.handles, a, b);
    forall c | c in m.blocks ensures BlockCounted(m.blocks[c], h', c, map[]) {
      assert BlockCounted(m.blocks[c], m.handles, c, map[]);
      SwapCounts(m.handles, a, b, c);
      if m.blocks[c].bExpired {
        forall l | l in h' ensures !OwnedBy(l, c) && h'[l] != Strong(c) {
          assert l in m.handles && OwnedBy(l, c) ==> l in FieldsOf(m.handles, c);
          assert a in m.handles && m.handles[a] == Strong(c) ==> a in StrongLocs(m.handles, c);
          assert b in m.handles && m.handles[b] == Strong(c) ==> b in StrongLocs(m.handles, c);
          assert l in m.handles && m.handles[l] == Strong(c) ==> l in StrongLocs(m.handles, c);
        }
      }
    }
  }

  /** One handle operation of a program; keep is the caller's evidence that what it still uses stays alive. */
  datatype Op =
    | Make(l: Loc)
    | Copy(dst: Loc, src: Loc)
    | Assign(dst: Loc, src: Loc, keep: set<Id>)
    | Drop(l: Loc, keep: set<Id>)
    | Swap(a: Loc, b: Loc)
    | WeakCopy(dst: Loc, src: Loc)
    | WeakAssign(dst: Loc, src: Loc)
    | WeakDrop(l: Loc)
    | LockTo(dst: Loc, w: Loc)

  predicate HoldsStrong(m: Mem, l: Loc) { l in m.handles ==> m.handles[l].Strong? }

  predicate HoldsWeak(m: Mem, l: Loc) { l in m.handles ==> m.handles[l].Weak? }

  predicate OwnerLive(m: Mem, l: Loc) { l.Field? ==> l.owner in Live(m.blocks) }

  /** What the types and the reach of a C++ program impose on an operation. */
  predicate Allowed(m: Mem, op: Op) {
    match op
    case Make(l) => Writable(m, l)
    case Copy(dst, src) => Writable(m, dst) && HoldsStrong(m, src)
    case Assign(dst, src, keep) => MayReset(m, dst, keep) && Placed(src, map[], keep) && HoldsStrong(m, dst) && HoldsStrong(m, src)
    case Drop(l, keep) => MayReset(m, l, keep) && HoldsStrong(m, l)
    case Swap(a, b) => OwnerLive(m, a) && OwnerLive(m, b)
    case WeakCopy(dst, src) => Writable(m, dst)
    case WeakAssign(dst, src) => OwnerLive(m, dst) && HoldsWeak(m, dst)
    case WeakDrop(l) => HoldsWeak(m, l)
    case LockTo(dst, w) => Writable(m, dst) && dst != w && HoldsWeak(m, w)
  }

  // ----- What each operation does -----

  /** The handles after a copy: dst names what src names, as the given kind of handle. */
  ghost function Shared(h: Handles, dst: Loc, src: Loc, bStrong: bool): Handles {
    if src !in h then h else h[dst := if bStrong then Strong(h[src].id) else Weak(h[src].id)]
  }

  /** The objects that die when l goes are the least closed set, and they die as a cascade. */
  ghost predicate Dies(m: Mem, m': Mem, l: Loc, keep: set<Id>, order: seq<Id>) {
    && Cascade(m, m', {l}, order, keep)
    && ClosedUnderLoss(m.blocks, m.handles, l, Elements(order))
    && forall x :: ClosedUnderLoss(m.blocks, m.handles, l, x) ==> Elements(order) <= x
  }

  /** Reset dst with its cascade, then share src. */
  ghost predicate Assigned(m: Mem, mid: Mem, m': Mem, dst: Loc, src: Loc, keep: set<Id>) {
    && (exists order :: Dies(m, mid, dst, keep, order))
    && m'.handles == Shared(mid.handles, dst, src, true) && SameObjects(mid, m')
    && (src != dst ==> (src in m.handles <==> src in mid.handles))
  }

  /** From m to m' an operation did what it is for. One that its preconditions rule out is skipped. */
  ghost predicate Did(m: Mem, op: Op, m': Mem) {
    if !Allowed(m, op) then m' == m
    else match op
      case Make(l) => m' == Made(m, l)
      case Copy(dst, src) => m'.handles == Shared(m.handles, dst, src, true) && SameObjects(m, m')
      case Assign(dst, src, keep) => exists mid :: Assigned(m, mid, m', dst, src, keep)
      case Drop(l, keep) => exists order :: Dies(m, m', l, keep, order)
      case Swap(a, b) => m' == m.(handles := SwapHandles(m.handles, a, b))
      case WeakCopy(dst, src) => m'.handles == Shared(m.handles, dst, src, false) && SameObjects(m, m')
      case WeakAssign(dst, src) => m'.handles == Shared(m.handles - {dst}, dst, src, false) && SameObjects(m, m')
      case WeakDrop(l) => m'.handles == m.handles - {l} && SameObjects(m, m')
      case LockTo(dst, w) =>
        && m'.handles == (if w in m.handles && m.handles[w].id !in m.dead then m.handles[dst := Strong(m.handles[w].id)] else m.handles)
        && SameObjects(m, m')
  }

  /** A run: one snapshot before each operation and one after the last, each of them consistent. */
  ghost predicate IsRun(trace: seq<Mem>, ops: seq<Op>) {
    && |trace| == |ops| + 1
    && (forall i :: 0 <= i < |trace| ==> Consistent(trace[i], map[]))
    && (forall i :: 0 <= i < |ops| ==> Did(trace[i], ops[i], trace[i + 1]) && Onward(trace[i], trace[i + 1]))
  }

  class Heap {
    var blocks: Blocks
    var handles: Handles
    var next: Id
    ghost var dead: seq<Id>
    ghost var freed: set<Id>

    ghost function Snapshot(): Mem
      reads this
    {
      Mem(blocks, handles, next, dead, freed)
    }

    ghost predicate Valid()
      reads this
    {
      Consistent(Snapshot(), map[])
    }

    constructor ()
      ensures Valid() && Snapshot() == Mem(map[], map[], 0, [], {})
    {
      blocks, handles, next := map[], map[], 0;
      dead, freed := [], {};
    }

    /** WeakPtr::Reset. The strong count of a block is never 0, so the inner free is never taken. */
    method ResetWeak(l: Loc, ghost inFlight: map<Id, Loc>, ghost keep: set<Id>)
      requires Consistent(Snapshot(), inFlight) && NotInFlight(inFlight, l)
      requires l in handles ==> handles[l].Weak?
      modifies this
      ensures Consistent(Snapshot(), inFlight)
      ensures l !in handles && Cascade(old(Snapshot()), Snapshot(), {l}, [], keep)
    {
      hide Consistent, Cascade;
      ghost var m := Snapshot();
      if l in handles {
        WeakResetStep(m, inFlight, l, keep);
        var b := handles[l].id;
        blocks := blocks[b := blocks[b].(weakRefCount := blocks[b].weakRefCount - 1)];
        var bFree := blocks[b].weakRefCount == 0 && blocks[b].strongRefCount == 0;
        blocks := if bFree then blocks - {b} else blocks;
        handles := handles - {l};
        assert Snapshot() == WeakDropped(m, l);
      } else {
        NothingHappens(m, keep, {l});
      }
    }

    /** SharedPtr::Reset. The object's members are destroyed while its strong count stays at 1. */
    method ResetShared(l: Loc, ghost inFlight: map<Id, Loc>, ghost keep: set<Id>) returns (ghost order: seq<Id>)
      requires Consistent(Snapshot(), inFlight) && NotInFlight(inFlight, l)
      requires l in handles ==> handles[l].Strong?
      requires Kept(blocks, handles, inFlight, keep, l)
      requires Placed(l, inFlight, keep) && AllPlaced(inFlight, keep)
      modifies this
      ensures Consistent(Snapshot(), inFlight)
      ensures l !in handles && Cascade(old(Snapshot()), Snapshot(), {l}, order, keep)
      ensures order != [] ==> l in old(handles) && order[0] == old(handles)[l].id && FreedIfUnobserved(Snapshot(), order[0])
      decreases |Live(blocks)|, 0
    {
      hide FreedIfUnobserved, Consistent, Cascade, Kept, Placed, AllPlaced, NotInFlight, NoneOwnedBy, Live, StrongLocs;
      ghost var m := Snapshot();
      order := [];
      if l in handles {
        StrongBlockPresent(m, inFlight, l);
        var b := handles[l].id;
        if blocks[b].strongRefCount == 1 {
          ExpireStep(m, inFlight, keep, b, l);
          blocks := blocks[b := blocks[b].(bExpired := true)];
          dead := dead + [b];
          assert Snapshot() == Expiring(m, b);
          ghost var rest := Destroy(b, inFlight[b := l], keep);
          BlockOfCorpse(Snapshot(), inFlight[b := l], b);
          assert blocks[b].strongRefCount != 0;
          ghost var m1 := Snapshot();
          ReleaseStep(m, m1, inFlight, keep, b, l, rest);
          order := [b] + rest;
          if blocks[b].weakRefCount == 0 {
            blocks := blocks - {b};
            freed := freed + {b};
          }
          assert l.Field? ==> l.owner in blocks.Keys;  // l is nulled in memory that still exists
          handles := handles - {l};
          assert Snapshot() == Released(m1, b, l);
        } else {
          DropStep(m, inFlight, l, keep);
          blocks := blocks[b := blocks[b].(strongRefCount := blocks[b].strongRefCount - 1)];
          handles := handles - {l};
          assert Snapshot() == StrongDropped(m, l);
        }
      } else {
        NothingHappens(m, keep, {l});
      }
    }

    /** ~T: every member handle of b is reset, in whatever order the members come. */
    method Destroy(b: Id, ghost inFlight: map<Id, Loc>, ghost keep: set<Id>) returns (ghost order: seq<Id>)
      requires Consistent(Snapshot(), inFlight) && b in inFlight && b !in keep
      requires Kept(blocks, handles, inFlight, keep, inFlight[b])
      requires AllPlaced(inFlight, keep) && NoneOwnedBy(inFlight, b)
      modifies this
      ensures Consistent(Snapshot(), inFlight)
      ensures Cascade(old(Snapshot()), Snapshot(), FieldsOf(old(handles), b), order, keep)
      decreases |Live(blocks)|, 1
    {
      hide Consistent, Cascade, Kept, AllPlaced, NoneOwnedBy, NotInFlight, Live, FieldsOf;
      ghost var m := Snapshot();
      order := [];
      ghost var gone: set<Loc> := {};
      NothingHappens(m, keep, {});
      while exists l :: l in handles && OwnedBy(l, b)
        invariant Consistent(Snapshot(), inFlight)
        invariant Cascade(m, Snapshot(), gone, order, keep)
        invariant Kept(blocks, handles, inFlight, keep, inFlight[b])
        invariant gone + FieldsOf(handles, b) == FieldsOf(m.handles, b)
        invariant |Live(blocks)| <= |Live(m.blocks)|
        decreases |FieldsOf(handles, b)|
      {
        var l :| l in handles && OwnedBy(l, b);
        ghost var m1 := Snapshot();
        ghost var more := [];
        MemberNotInFlight(inFlight, l, b);
        KeptWithout(m1, inFlight, keep, inFlight[b], b, l);
        if handles[l].Strong? {
          more := ResetShared(l, inFlight, keep);
        } else {
          ResetWeak(l, inFlight, keep);
        }
        KeptThrough(m1, Snapshot(), inFlight, keep, inFlight[b], b, l, more);
        FieldsLeft(m1, Snapshot(), inFlight, l, b, more, keep);
        CascadeThen(m, m1, Snapshot(), gone, {l}, order, more, keep);
        order := order + more;
        gone := gone + {l};
      }
      NoMembersLeft(handles, b);
    }

    // ----- The operations a program has on handles -----

    /** MakeShared: a new block whose one handle is l. */
    method MakeShared(l: Loc)
      requires Valid() && Writable(Snapshot(), l)
      modifies this
      ensures Valid() && Snapshot() == Made(old(Snapshot()), l)
    {
      hide Consistent, Writable;
      MakeStep(Snapshot(), l);
      var b := next;
      blocks := blocks[b := ControlBlock(0, 0, false)];
      next := next + 1;
      blocks := blocks[b := blocks[b].(strongRefCount := blocks[b].strongRefCount + 1)];
      assert blocks == old(blocks)[b := ControlBlock(1, 0, false)];
      handles := handles[l := Strong(b)];
      assert Snapshot() == Made(old(Snapshot()), l);
    }

    /** The copy constructor: dst is a handle that did not exist before. */
    method CopyShared(dst: Loc, src: Loc)
      requires Valid() && Writable(Snapshot(), dst)
      requires src in handles ==> handles[src].Strong?
      modifies this
      ensures Valid()
      ensures handles == if src in old(handles) then old(handles)[dst := old(handles)[src]] else old(handles)
      ensures SameObjects(old(Snapshot()), Snapshot())
    {
      if src in handles {
        hide Consistent, Writable, SameObjects;
        StrongNamesLive(Snapshot(), src);
        var b := handles[src].id;
        StrongAddStep(Snapshot(), dst, b);
        blocks := blocks[b := blocks[b].(strongRefCount := blocks[b].strongRefCount + 1)];
        handles := handles[dst := Strong(b)];
        assert Snapshot() == StrongAdded(old(Snapshot()), dst, b);
      }
    }

    /** Reset from outside: exactly the least closed set of objects dies. */
    method DropShared(l: Loc, ghost keep: set<Id>) returns (ghost order: seq<Id>)
      requires Valid() && MayReset(Snapshot(), l, keep)
      requires l in handles ==> handles[l].Strong?
      modifies this
      ensures Valid() && l !in handles
      ensures Dies(old(Snapshot()), Snapshot(), l, keep, order)
      ensures order != [] ==> l in old(handles) && order[0] == old(handles)[l].id && FreedIfUnobserved(Snapshot(), order[0])
    {
      order := ResetShared(l, map[], keep);
      DeadSetIsClosed(old(blocks), old(handles), l, Elements(order), blocks, handles);
      forall x | ClosedUnderLoss(old(blocks), old(handles), l, x) ensures Elements(order) <= x {
        DeadSetIsLeast(old(blocks), old(handles), l, order, x);
      }
    }

    /** operator=: reset dst, then copy src. Assigning a handle to itself leaves it null. */
    method AssignShared(dst: Loc, src: Loc, ghost keep: set<Id>) returns (ghost mid: Mem, ghost order: seq<Id>)
      requires Valid() && MayReset(Snapshot(), dst, keep) && Placed(src, map[], keep)
      requires dst in handles ==> handles[dst].Strong?
      requires src in handles ==> handles[src].Strong?
      modifies this
      ensures Valid() && Onward(old(Snapshot()), Snapshot())
      ensures Dies(old(Snapshot()), mid, dst, keep, order) && Assigned(old(Snapshot()), mid, Snapshot(), dst, src, keep)
      ensures dst in handles <==> src != dst && src in old(handles)
      ensures dst in handles ==> handles[dst] == old(handles)[src]
    {
      hide Consistent, Cascade, Kept, Writable, HandlesAfter, Live, Elements, Placed, Dies, ClosedUnderLoss;
      ghost var m := Snapshot();
      order := DropShared(dst, keep);
      mid := Snapshot();
      DiesCascades(m, mid, dst, keep, order);
      WritableAfterReset(m, mid, dst, order, keep);
      SourceSurvives(m, mid, dst, src, order, keep);
      CascadeIsOnward(m, mid, {dst}, order, keep);
      CopyShared(dst, src);
      SameObjectsIsOnward(mid, Snapshot());
    }

    /** Swap exchanges two handles and touches no count. */
    method SwapShared(a: Loc, b: Loc)
      requires Valid()
      requires a.Field? ==> a.owner in Live(blocks)
      requires b.Field? ==> b.owner in Live(blocks)
      modifies this
      ensures Valid() && Snapshot() == old(Snapshot()).(handles := SwapHandles(old(handles), a, b))
      ensures a in handles <==> b in old(handles)
      ensures b in handles <==> a in old(handles)
      ensures a in handles ==> handles[a] == old(handles)[b]
      ensures b in handles ==> handles[b] == old(handles)[a]
      ensures handles - {a, b} == old(handles) - {a, b}
    {
      hide Consistent;
      if a != b {
        SwapStep(Snapshot(), a, b);
        handles := SwapHandles(handles, a, b);
      } else {
        assert SwapHandles(handles, a, a) == handles;
      }
    }

    /** WeakPtr built from a SharedPtr, or from another WeakPtr: the strong count it tests is never 0. */
    method CopyWeak(dst: Loc, src: Loc)
      requires Valid() && Writable(Snapshot(), dst)
      modifies this
      ensures Valid()
      ensures handles == if src in old(handles) then old(handles)[dst := Weak(old(handles)[src].id)] else old(handles)
      ensures SameObjects(old(Snapshot()), Snapshot())
    {
      hide Consistent, Writable, Live;
      if src in handles {
        var b := handles[src].id;
        TargetFacts(Snapshot(), src);
        assert blocks[b].strongRefCount != 0;
        WeakAddStep(Snapshot(), dst, b);
        blocks := blocks[b := blocks[b].(weakRefCount := blocks[b].weakRefCount + 1)];
        handles := handles[dst := Weak(b)];
        assert Snapshot() == WeakAdded(old(Snapshot()), dst, b);
      }
    }

    method DropWeak(l: Loc)
      requires Valid()
      requires l in handles ==> handles[l].Weak?
      modifies this
      ensures Valid() && handles == old(handles) - {l}
      ensures SameObjects(old(Snapshot()), Snapshot())
    {
      ResetWeak(l, map[], {});
      assert handles == old(handles) - {l};
    }

    /** operator= of WeakPtr, from a weak or a strong handle. */
    method AssignWeak(dst: Loc, src: Loc)
      requires Valid() && (dst.Field? ==> dst.owner in Live(blocks))
      requires dst in handles ==> handles[dst].Weak?
      modifies this
      ensures Valid()
      ensures handles == if src != dst && src in old(handles) then old(handles)[dst := Weak(old(handles)[src].id)]
                         else old(handles) - {dst}
      ensures SameObjects(old(Snapshot()), Snapshot())
    {
      hide Consistent;
      DropWeak(dst);
      CopyWeak(dst, src);
    }

    /** Lock: dst is null exactly when the weak handle is null or its object has been destroyed. */
    method Lock(dst: Loc, w: Loc)
      requires Valid() && Writable(Snapshot(), dst) && dst != w
      requires w in handles ==> handles[w].Weak?
      modifies this
      ensures Valid()
      ensures dst in handles <==> w in handles && handles[w].id !in old(dead)
      ensures dst in handles ==> handles[dst] == Strong(handles[w].id)
      ensures handles - {dst} == old(handles)
      ensures handles == if dst in handles then old(handles)[dst := Strong(old(handles)[w].id)] else old(handles)
      ensures SameObjects(old(Snapshot()), Snapshot())
    {
      hide Consistent;
      if w in handles {
        var b := handles[w].id;
        TargetFacts(Snapshot(), w);
        if blocks[b].strongRefCount > 0 && !blocks[b].bExpired {
          StrongAddStep(Snapshot(), dst, b);
          blocks := blocks[b := blocks[b].(strongRefCount := blocks[b].strongRefCount + 1)];
          handles := handles[dst := Strong(b)];
          assert Snapshot() == StrongAdded(old(Snapshot()), dst, b);
        }
      }
      assert handles - {dst} == old(handles);
    }

    /** Expired: it answers true only for a null handle, so it is right exactly when the object is not dead. */
    method Expired(w: Loc) returns (r: bool)
      requires Valid()
      requires w in handles ==> handles[w].Weak?
      ensures r <==> w !in handles
      ensures (r <==> w !in handles || handles[w].id in dead) <==> w !in handles || handles[w].id !in dead
    {
      if w in handles {
        var b := handles[w].id;
        TargetFacts(Snapshot(), w);
        return blocks[b].strongRefCount == 0;
      }
      return true;
    }

    /** FindClient: maps from names to weak handles. An entry whose handle reports Expired is erased, with the
        operator entry of that name, and any other is locked. Only a null handle reports Expired, so the entry of
        a dead object is never erased; yet the result is that of a map without dead entries. */
    method FindClient(dst: Loc, clients: map<string, Loc>, operators: map<string, Loc>, name: string)
      returns (clients': map<string, Loc>, operators': map<string, Loc>)
      requires Valid() && Writable(Snapshot(), dst) && dst !in clients.Values && dst !in operators.Values
      requires forall k :: k in clients && clients[k] in handles ==> handles[clients[k]].Weak?
      requires forall k :: k in operators && operators[k] in handles ==> handles[operators[k]].Weak?
      modifies this
      ensures Valid() && SameObjects(old(Snapshot()), Snapshot())
      ensures dst in handles <==> name in clients && clients[name] in old(handles) && old(handles)[clients[name]].id !in old(dead)
      ensures dst in handles ==> handles[dst] == Strong(old(handles)[clients[name]].id)
      ensures if name in clients && clients[name] !in old(handles)
              then clients' == clients - {name} && operators' == operators - {name}
                   && handles == old(handles) - (if name in operators then {operators[name]} else {})
              else clients' == clients && operators' == operators && handles - {dst} == old(handles)
    {
      hide Consistent, SameObjects;
      SameAsItself(Snapshot());
      clients', operators' := clients, operators;
      assert handles - {dst} == handles;
      if name !in clients {
        return;
      }
      var bExpired := Expired(clients[name]);
      if bExpired {
        clients' := clients' - {name};
        if name in operators {
          DropWeak(operators[name]);
        }
        operators' := operators' - {name};
        assert handles == old(handles) - (if name in operators then {operators[name]} else {});
        return;
      }
      Lock(dst, clients[name]);
    }

    /** One operation, or nothing if its preconditions rule it out. */
    method Step(op: Op)
      requires Valid()
      modifies this
      ensures Valid() && Did(old(Snapshot()), op, Snapshot()) && Onward(old(Snapshot()), Snapshot())
    {
      hide Consistent, Cascade, Kept, HandlesAfter, Dies, Assigned, SameObjects, Onward;
      ghost var m := Snapshot();
      SameIsOnward(m);
      AllowedIgnoresLogs(m, Mem(blocks, handles, next, [], {}), op);
      hide Writable;
      if !Allowed(Mem(blocks, handles, next, [], {}), op) {
        return;
      }
      match op {
        case Make(l) =>
          MakeShared(l);
          MadeIsOnward(m, l);
        case Copy(dst, src) =>
          CopyShared(dst, src);
          SameObjectsIsOnward(m, Snapshot());
        case Assign(dst, src, keep) =>
          ghost var mid, order := AssignShared(dst, src, keep);
        case Drop(l, keep) =>
          ghost var order := DropShared(l, keep);
          DiesIsOnward(m, Snapshot(), l, keep, order);
        case Swap(a, b) =>
          SwapShared(a, b);
          SwapIsOnward(m, a, b);
        case WeakCopy(dst, src) =>
          CopyWeak(dst, src);
          SameObjectsIsOnward(m, Snapshot());
        case WeakAssign(dst, src) =>
          AssignWeak(dst, src);
          SameObjectsIsOnward(m, Snapshot());
        case WeakDrop(l) =>
          DropWeak(l);
          SameObjectsIsOnward(m, Snapshot());
        case LockTo(dst, w) =>
          Lock(dst, w);
          SameObjectsIsOnward(m, Snapshot());
      }
    }

    /** Any program of handle operations. The trace holds what counts, handles and the two logs were between
        them. */
    method Run(ops: seq<Op>) returns (ghost trace: seq<Mem>)
      requires Valid()
      modifies this
      ensures Valid() && IsRun(trace, ops)
      ensures trace[0] == old(Snapshot()) && trace[|ops|] == Snapshot()
    {
      hide Consistent, Did, Onward;
      trace := [Snapshot()];
      for i := 0 to |ops|
        invariant Valid() && IsRun(trace, ops[..i])
        invariant trace[0] == old(Snapshot()) && trace[i] == Snapshot()
      {
        ghost var before := trace;
        Step(ops[i]);
        trace := trace + [Snapshot()];
        assert forall k :: 0 <= k <= i ==> trace[k] == before[k];
        assert forall k :: 0 <= k < i ==> ops[..i + 1][k] == ops[..i][k];
      }
      assert ops[..|ops|] == ops;
    }
  }

  lemma DiesCascades(m0: Mem, m1: Mem, l: Loc, keep: set<Id>, order: seq<Id>)
    requires Dies(m0, m1, l, keep, order)
    ensures Cascade(m0, m1, {l}, order, keep)
  {
  }

  lemma AllowedIgnoresLogs(m: Mem, m': Mem, op: Op)
    requires m.blocks == m'.blocks && m.handles == m'.handles
    ensures Allowed(m, op) == Allowed(m', op)
  {
  }

  lemma SameAsItself(m: Mem)
    ensures SameObjects(m, m)
  {
  }

  lemma SameIsOnward(m: Mem)
    ensures Onward(m, m)
  {
  }

  lemma SwapIsOnward(m: Mem, a: Loc, b: Loc)
    ensures Onward(m, m.(handles := SwapHandles(m.handles, a, b)))
  {
  }

  lemma DiesIsOnward(m0: Mem, m1: Mem, l: Loc, keep: set<Id>, order: seq<Id>)
    requires Dies(m0, m1, l, keep, order) && Consistent(m0, map[])
    ensures Onward(m0, m1)
  {
    CascadeIsOnward(m0, m1, {l}, order, keep);
  }
}
