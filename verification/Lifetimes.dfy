/** What the control blocks say about the server's state: which objects are alive follows from the counts and from the
    types of the handles. */
module Lifetimes {
  import opened ServerState
  import opened Transitions
  import O = Ownership

  type Id = O.Id
  type Loc = O.Loc
  type Mem = O.Mem

  // ----- The types of handles -----

  datatype Pointee = AClient | AChannel | AMessage

  datatype Type = Handle(pointee: Pointee, bStrong: bool) | NoHandle

  /** What the declarations say of a variable, which may be local to a function, and of a client's member, which holds
      a message or a channel. */
  datatype Layout = Layout(variable: nat -> Type, bLocal: nat -> bool, bMessage: nat -> bool)

  /** The class of each object made so far. */
  type Classes = map<Id, Pointee>

  /** A client holds messages and channels strongly, a channel its clients weakly, a message nothing. */
  function TypeOf(layout: Layout, classes: Classes, l: Loc): Type {
    match l
    case Root(slot) => layout.variable(slot)
    case Field(owner, slot) =>
      if owner !in classes then NoHandle
      else match classes[owner]
        case AClient => Handle(if layout.bMessage(slot) then AMessage else AChannel, true)
        case AChannel => Handle(AClient, false)
        case AMessage => NoHandle
  }

  /** The server's own variables are lists and a map of strong handles on clients, and a map of weak ones on channels. */
  ghost predicate Declares(layout: Layout) {
    forall slot :: !layout.bLocal(slot) ==>
      layout.variable(slot) in {Handle(AClient, true), Handle(AChannel, false), NoHandle}
  }

  ghost predicate Typed(layout: Layout, classes: Classes, m: Mem) {
    && (forall b :: b in classes ==> b < m.next)
    && (forall l :: l in m.handles ==> Fits(layout, classes, l, m.handles[l]))
  }

  predicate Fits(layout: Layout, classes: Classes, l: Loc, h: O.Handle) {
    h.id in classes && TypeOf(layout, classes, l) == Handle(classes[h.id], h.Strong?)
  }

  /** What the compiler checks of an operation. */
  predicate WellTyped(layout: Layout, classes: Classes, op: O.Op) {
    match op
    case Make(l) => IsStrong(TypeOf(layout, classes, l))
    case Copy(dst, src) => IsStrong(TypeOf(layout, classes, src)) && TypeOf(layout, classes, dst) == TypeOf(layout, classes, src)
    case Assign(dst, src, _) => IsStrong(TypeOf(layout, classes, src)) && TypeOf(layout, classes, dst) == TypeOf(layout, classes, src)
    case Drop(_, _) => true
    case Swap(a, b) => TypeOf(layout, classes, a) == TypeOf(layout, classes, b)
    case WeakCopy(dst, src) => MadeWeak(TypeOf(layout, classes, src), TypeOf(layout, classes, dst))
    case WeakAssign(dst, src) => MadeWeak(TypeOf(layout, classes, src), TypeOf(layout, classes, dst))
    case WeakDrop(_) => true
    case LockTo(dst, w) => IsStrong(TypeOf(layout, classes, dst)) && MadeWeak(TypeOf(layout, classes, dst), TypeOf(layout, classes, w))
  }

  predicate IsStrong(t: Type) {
    t.Handle? && t.bStrong
  }

  predicate MadeWeak(t: Type, u: Type) {
    t.Handle? && u == Handle(t.pointee, false)
  }

  function Classed(layout: Layout, classes: Classes, m: Mem, op: O.Op): Classes {
    if op.Make? && O.Allowed(m, op) && TypeOf(layout, classes, op.l).Handle?
    then classes[m.next := TypeOf(layout, classes, op.l).pointee] else classes
  }

  /** Types survive every operation. */
  lemma StepTyped(layout: Layout, classes: Classes, m: Mem, op: O.Op, m': Mem)
    requires O.Consistent(m, map[]) && Typed(layout, classes, m) && WellTyped(layout, classes, op) && O.Did(m, op, m')
    ensures Typed(layout, Classed(layout, classes, m, op), m')
  {
    if O.Allowed(m, op) {
      match op
      case Make(l) => MadeTyped(layout, classes, m, l);
      case Copy(dst, src) => SharedTyped(layout, classes, m, m', m.handles, dst, src, true);
      case Assign(dst, src, keep) =>
        var mid :| O.Assigned(m, mid, m', dst, src, keep);
        var order :| O.Dies(m, mid, dst, keep, order);
        assert O.HandlesAfter(m.handles, mid.handles, {dst}, O.Elements(order));
        SharedTyped(layout, classes, m, m', mid.handles, dst, src, true);
      case Drop(l, keep) =>
        var order :| O.Dies(m, m', l, keep, order);
        assert O.HandlesAfter(m.handles, m'.handles, {l}, O.Elements(order));
        FewerTyped(layout, classes, m, m');
      case Swap(a, b) => SwapTyped(layout, classes, m, a, b);
      case WeakCopy(dst, src) => SharedTyped(layout, classes, m, m', m.handles, dst, src, false);
      case WeakAssign(dst, src) => SharedTyped(layout, classes, m, m', m.handles - {dst}, dst, src, false);
      case WeakDrop(l) => FewerTyped(layout, classes, m, m');
      case LockTo(dst, w) => LockTyped(layout, classes, m, m', dst, w);
    }
  }

  lemma FewerTyped(layout: Layout, classes: Classes, m: Mem, m': Mem)
    requires Typed(layout, classes, m) && m'.next == m.next && forall l :: l in m'.handles ==> l in m.handles && m'.handles[l] == m.handles[l]
    ensures Typed(layout, classes, m')
  {
    hide TypeOf;
  }

  lemma SwapTyped(layout: Layout, classes: Classes, m: Mem, a: Loc, b: Loc)
    requires Typed(layout, classes, m) && TypeOf(layout, classes, a) == TypeOf(layout, classes, b)
    ensures Typed(layout, classes, m.(handles := O.SwapHandles(m.handles, a, b)))
  {
    hide TypeOf;
  }

  lemma LockTyped(layout: Layout, classes: Classes, m: Mem, m': Mem, dst: Loc, w: Loc)
    requires Typed(layout, classes, m) && m'.next == m.next && WellTyped(layout, classes, O.LockTo(dst, w))
    requires m'.handles == m.handles || (w in m.handles && m'.handles == m.handles[dst := O.Strong(m.handles[w].id)])
    ensures Typed(layout, classes, m')
  {
    hide TypeOf;
  }

  lemma MadeTyped(layout: Layout, classes: Classes, m: Mem, l: Loc)
    requires Typed(layout, classes, m) && IsStrong(TypeOf(layout, classes, l))
    ensures Typed(layout, classes[m.next := TypeOf(layout, classes, l).pointee], O.Made(m, l))
  {
    var k := classes[m.next := TypeOf(layout, classes, l).pointee];
    forall a | a in O.Made(m, l).handles ensures Fits(layout, k, a, O.Made(m, l).handles[a]) {
      assert a in m.handles ==> Fits(layout, classes, a, m.handles[a]);
    }
  }

  lemma SharedTyped(layout: Layout, classes: Classes, m: Mem, m': Mem, h: O.Handles, dst: Loc, src: Loc, bStrong: bool)
    requires Typed(layout, classes, m) && m'.next == m.next && (forall l :: l in h ==> l in m.handles && h[l] == m.handles[l])
    requires m'.handles == O.Shared(h, dst, src, bStrong) && TypeOf(layout, classes, src).Handle?
    requires TypeOf(layout, classes, dst) == Handle(TypeOf(layout, classes, src).pointee, bStrong)
    ensures Typed(layout, classes, m')
  {
    hide TypeOf;
    assert src in h ==> Fits(layout, classes, src, m.handles[src]);
  }

  function ClassesAt(layout: Layout, trace: seq<Mem>, ops: seq<O.Op>, i: nat): Classes
    requires i <= |ops| < |trace|
  {
    if i == 0 then map[] else Classed(layout, ClassesAt(layout, trace, ops, i - 1), trace[i - 1], ops[i - 1])
  }

  /** So in every run of a well-typed program handles name objects of their declared class. */
  lemma {:induction false} RunTyped(layout: Layout, trace: seq<Mem>, ops: seq<O.Op>, i: nat)
    requires O.IsRun(trace, ops) && i <= |ops| && trace[0].handles == map[]
    requires forall j :: 0 <= j < |ops| ==> WellTyped(layout, ClassesAt(layout, trace, ops, j), ops[j])
    ensures Typed(layout, ClassesAt(layout, trace, ops, i), trace[i])
  {
    hide O.Consistent, O.Did, WellTyped, O.Onward, Classed;
    if i > 0 {
      RunTyped(layout, trace, ops, i - 1);
      StepTyped(layout, ClassesAt(layout, trace, ops, i - 1), trace[i - 1], ops[i - 1], trace[i]);
    }
  }

  // ----- Between commands -----

  /** The local variables are gone. */
  ghost predicate Settled(layout: Layout, m: Mem) {
    forall l :: l in m.handles && l.Root? ==> !layout.bLocal(l.slot)
  }

  /** A strong handle on a channel is a member of a living client or a variable, one on a client is a variable. */
  lemma Holders(layout: Layout, classes: Classes, m: Mem, l: Loc)
    requires O.Consistent(m, map[]) && Typed(layout, classes, m) && l in m.handles && m.handles[l].Strong?
    ensures m.handles[l].id in classes
    ensures classes[m.handles[l].id] == AChannel && l.Field? ==> l.owner in classes && classes[l.owner] == AClient && l.owner in O.Live(m.blocks)
    ensures classes[m.handles[l].id] == AClient ==> l.Root?
  {
    assert Fits(layout, classes, l, m.handles[l]);
    if l.Field? {
      O.DeadHoldsNothing(m, l);
    }
    hide O.Consistent, O.Live;
  }

  /** So between commands a strong handle on a channel is a member of a living client, and one on a client a variable of
      the server. */
  lemma HoldersByClass(layout: Layout, classes: Classes, m: Mem, l: Loc)
    requires O.Consistent(m, map[]) && Declares(layout) && Typed(layout, classes, m) && Settled(layout, m)
    requires l in m.handles && m.handles[l].Strong?
    ensures m.handles[l].id in classes
    ensures classes[m.handles[l].id] == AChannel ==> l.Field? && l.owner in classes && classes[l.owner] == AClient && l.owner in O.Live(m.blocks)
    ensures classes[m.handles[l].id] == AClient ==> l.Root? && !layout.bLocal(l.slot)
  {
    assert Fits(layout, classes, l, m.handles[l]);
    Holders(layout, classes, m, l);
    hide O.Consistent, O.Live;
  }

  // ----- The server's state in the heap -----

  /** The control blocks of the clients and channels. */
  datatype Ids = Ids(client: map<Client, Id>, channel: map<Channel, Id>)

  /** What local variables of the functions running hold. */
  datatype Locals = Locals(clients: set<Client>, channels: set<Channel>)

  ghost predicate HeldByVariable(m: Mem, gone: set<Loc>, b: Id) {
    exists slot :: O.Root(slot) in m.handles && O.Root(slot) !in gone && m.handles[O.Root(slot)] == O.Strong(b)
  }

  ghost predicate HeldBy(m: Mem, a: Id, b: Id) {
    exists slot :: O.Field(a, slot) in m.handles && m.handles[O.Field(a, slot)] == O.Strong(b)
  }

  /** The variables, but for those in gone, hold exactly the clients that the server's containers or locals own, and
      the channels of locals. */
  ghost predicate OwnersAre(m: Mem, gone: set<Loc>, s: State, ids: Ids, loc: Locals) {
    && (forall c :: Owned(s, c) ==> c in ids.client) && loc.clients <= ids.client.Keys && loc.channels <= ids.channel.Keys
    && (forall c :: c in ids.client ==> (Owned(s, c) || c in loc.clients <==> HeldByVariable(m, gone, ids.client[c])))
    && (forall ch :: ch in ids.channel ==> (ch in loc.channels <==> HeldByVariable(m, gone, ids.channel[ch])))
  }

  /** The members of the client objects hold exactly the channels that the clients are in. */
  ghost predicate MembersAre(m: Mem, s: State, ids: Ids) {
    && (forall c :: c in s.client ==> c in ids.client && s.client[c].channels.Values <= ids.channel.Keys)
    && (forall c, ch :: c in ids.client && ch in ids.channel ==> MemberIs(m, s, ids, c, ch))
  }

  ghost predicate MemberIs(m: Mem, s: State, ids: Ids, c: Client, ch: Channel)
    requires c in ids.client && ch in ids.channel
  {
    HeldBy(m, ids.client[c], ids.channel[ch]) <==> c in s.client && ch in s.client[c].channels.Values
  }

  /** No two clients share a block. */
  ghost predicate OneEach(ids: Ids) {
    forall c, d :: c in ids.client && d in ids.client && ids.client[c] == ids.client[d] ==> c == d
  }

  ghost predicate Known(layout: Layout, classes: Classes, ids: Ids) {
    && Declares(layout)
    && (forall c :: c in ids.client ==> ids.client[c] in classes && classes[ids.client[c]] == AClient)
    && (forall ch :: ch in ids.channel ==> ids.channel[ch] in classes && classes[ids.channel[ch]] == AChannel)
    && (forall b :: b in classes && classes[b] == AClient ==> b in ids.client.Values)
    && OneEach(ids)
  }

  ghost predicate Sane(layout: Layout, classes: Classes, m: Mem) {
    O.Consistent(m, map[]) && Typed(layout, classes, m)
  }

  /** The heap m holds the state s, and what locals hold besides. */
  ghost predicate Represents(layout: Layout, classes: Classes, ids: Ids, loc: Locals, m: Mem, s: State) {
    Sane(layout, classes, m) && Known(layout, classes, ids) && OwnersAre(m, {}, s, ids, loc) && MembersAre(m, s, ids)
  }

  const NoLocals := Locals({}, {})

  /** Before anything is made, the empty heap holds the server as it starts. */
  lemma NothingYet(layout: Layout, password: string)
    requires Declares(layout)
    ensures Represents(layout, map[], Ids(map[], map[]), NoLocals, O.Mem(map[], map[], 0, [], {}),
                       State(password, map[], [], [], [], map[], map[], map[]))
  {
  }

  lemma LiveIffHeld(m: Mem, b: Id)
    requires O.Consistent(m, map[])
    ensures b in O.Live(m.blocks) <==> exists l :: l in m.handles && m.handles[l] == O.Strong(b)
  {
    if b in m.blocks {
      O.LivesWhileHeld(m, b);
    }
    hide O.BlockCounted;
  }

  /** A client object is alive exactly while one of the server's containers owns it, or a local variable. */
  lemma ClientLives(layout: Layout, classes: Classes, ids: Ids, loc: Locals, m: Mem, s: State, c: Client)
    requires Sane(layout, classes, m) && Known(layout, classes, ids) && OwnersAre(m, {}, s, ids, loc) && c in ids.client
    ensures ids.client[c] in O.Live(m.blocks) <==> Owned(s, c) || c in loc.clients
  {
    var b := ids.client[c];
    LiveIffHeld(m, b);
    if l :| l in m.handles && m.handles[l] == O.Strong(b) {
      Holders(layout, classes, m, l);
      assert O.Root(l.slot) == l;
    }
    hide O.Consistent, O.Live, Typed, Owned;
  }

  /** A channel object is alive exactly while an existing client holds it, or a local variable. */
  lemma ChannelLives(layout: Layout, classes: Classes, ids: Ids, loc: Locals, m: Mem, s: State, ch: Channel)
    requires Represents(layout, classes, ids, loc, m, s) && ch in ids.channel
    ensures ids.channel[ch] in O.Live(m.blocks) <==> Alive(s, ch) || ch in loc.channels
  {
    var b := ids.channel[ch];
    LiveIffHeld(m, b);
    hide O.Consistent, O.Live, Typed, Owned;
    if l :| l in m.handles && m.handles[l] == O.Strong(b) {
      HolderIsMember(layout, classes, ids, m, l, b);
      if l.Field? {
        HeldIsAlive(ids, m, s, l, ch);
      } else {
        assert O.Root(l.slot) == l && HeldByVariable(m, {}, b);
      }
    }
    if Alive(s, ch) {
      var c :| c in s.client && ch in s.client[c].channels.Values;
      assert MemberIs(m, s, ids, c, ch);
    }
  }

  lemma HolderIsMember(layout: Layout, classes: Classes, ids: Ids, m: Mem, l: Loc, b: Id)
    requires Sane(layout, classes, m) && Known(layout, classes, ids) && l in m.handles && m.handles[l] == O.Strong(b)
    requires b in classes && classes[b] == AChannel
    ensures l.Field? ==> l.owner in ids.client.Values
  {
    Holders(layout, classes, m, l);
    hide O.Consistent, O.Live, Typed;
  }

  lemma HeldIsAlive(ids: Ids, m: Mem, s: State, l: Loc, ch: Channel)
    requires MembersAre(m, s, ids) && ch in ids.channel && l in m.handles && m.handles[l] == O.Strong(ids.channel[ch])
    requires l.Field? && l.owner in ids.client.Values
    ensures Alive(s, ch)
  {
    var c :| c in ids.client && ids.client[c] == l.owner;
    assert O.Field(l.owner, l.slot) == l && HeldBy(m, ids.client[c], ids.channel[ch]) && MemberIs(m, s, ids, c, ch);
  }

  // ----- Looking a channel up -----

  /** The entries of the channel directory are weak handles on its channels. */
  ghost predicate EntriesAre(m: Mem, s: State, ids: Ids, entries: map<string, Loc>) {
    && entries.Keys == s.mChannels.Keys
    && forall k :: k in entries ==>
         s.mChannels[k] in ids.channel && entries[k] in m.handles && m.handles[entries[k]] == O.Weak(ids.channel[s.mChannels[k]])
  }

  /** findChannelGlobal on the heap: the entry is tested and locked, and gives what the state says is found. */
  method FindChannel(heap: O.Heap, dst: Loc, entries: map<string, Loc>, name: string,
                     ghost layout: Layout, ghost classes: Classes, ghost ids: Ids, ghost loc: Locals, ghost s: State)
    returns (entries': map<string, Loc>)
    requires Represents(layout, classes, ids, loc, heap.Snapshot(), s) && EntriesAre(heap.Snapshot(), s, ids, entries)
    requires loc.channels == {} && O.Writable(heap.Snapshot(), dst)
    modifies heap
    ensures heap.Valid() && O.SameObjects(old(heap.Snapshot()), heap.Snapshot()) && entries' == entries
    ensures dst in heap.handles <==> FoundChannel(s, name) != null
    ensures dst in heap.handles ==> FoundChannel(s, name) in ids.channel && heap.handles[dst] == O.Strong(ids.channel[FoundChannel(s, name)])
    ensures heap.handles - {dst} == old(heap.handles)
  {
    hide O.Consistent, Typed, Known, OwnersAre, MembersAre, O.SameObjects, O.Live, Alive;
    O.SameAsItself(heap.Snapshot());
    entries' := entries;
    assert heap.handles - {dst} == heap.handles;
    if name !in entries {
      return;
    }
    ChannelLives(layout, classes, ids, loc, heap.Snapshot(), s, s.mChannels[name]);
    LiveIffNotDead(heap.Snapshot(), entries[name]);
    var bExpired := heap.Expired(entries[name]);
    if bExpired {
      entries' := entries' - {name};
      return;
    }
    heap.Lock(dst, entries[name]);
  }

  lemma LiveIffNotDead(m: Mem, l: Loc)
    requires O.Consistent(m, map[]) && l in m.handles
    ensures m.handles[l].id in O.Live(m.blocks) <==> m.handles[l].id !in m.dead
  {
    O.TargetFacts(m, l);
  }

  // ----- Dropping owners -----

  /** The client objects that neither a container nor a local variable owns are destroyed. */
  function SweptBut(t: State, held: set<Client>): State {
    t.(client := map c | c in t.client && (Owned(t, c) || c in held) :: t.client[c])
  }

  /** Variables are reset: the heap then holds the swept state, and the objects that died are exactly the clients swept
      away and the channels that thereby lost their last holder. */
  lemma DropsSweep(layout: Layout, classes: Classes, ids: Ids, loc: Locals, m: Mem, m': Mem, s: State, t: State,
                   gone: set<Loc>, order: seq<Id>, keep: set<Id>)
    requires Represents(layout, classes, ids, loc, m, s) && O.Cascade(m, m', gone, order, keep) && O.Consistent(m', map[])
    requires forall l :: l in gone ==> l.Root?
    requires OwnersAre(m, gone, t, ids, loc) && t.client == s.client
    ensures Represents(layout, classes, ids, loc, m', SweptBut(t, loc.clients))
    ensures forall c :: c in s.client && (Owned(s, c) || c in loc.clients) ==> (c !in SweptBut(t, loc.clients).client <==> ids.client[c] in order)
    ensures forall ch :: ch in ids.channel && ch !in loc.channels ==>
              (Alive(s, ch) && !Alive(SweptBut(t, loc.clients), ch) <==> ids.channel[ch] in order)
  {
    DroppedRepresents(layout, classes, ids, loc, m, m', s, t, gone, order, keep);
    hide O.Consistent, OwnersAre, MembersAre, Typed, O.Cascade, O.Live, Owned, Alive;
    var u := SweptBut(t, loc.clients);
    CascadeLive(m, m', gone, order, keep);
    forall c | c in s.client && (Owned(s, c) || c in loc.clients) ensures c !in u.client <==> ids.client[c] in order {
      HeldIsKnown(m, s, ids, c);
      SweptAt(t, loc.clients, c);
      ClientLives(layout, classes, ids, loc, m, s, c);
    }
    forall ch | ch in ids.channel && ch !in loc.channels ensures Alive(s, ch) && !Alive(u, ch) <==> ids.channel[ch] in order {
      ChannelLives(layout, classes, ids, loc, m, s, ch);
      ChannelLives(layout, classes, ids, loc, m', u, ch);
    }
  }

  lemma DroppedRepresents(layout: Layout, classes: Classes, ids: Ids, loc: Locals, m: Mem, m': Mem, s: State, t: State,
                          gone: set<Loc>, order: seq<Id>, keep: set<Id>)
    requires Represents(layout, classes, ids, loc, m, s) && O.Cascade(m, m', gone, order, keep) && O.Consistent(m', map[])
    requires forall l :: l in gone ==> l.Root?
    requires OwnersAre(m, gone, t, ids, loc) && t.client == s.client
    ensures Represents(layout, classes, ids, loc, m', SweptBut(t, loc.clients))
    ensures forall c :: c in ids.client ==> (ids.client[c] in O.Live(m'.blocks) <==> Owned(t, c) || c in loc.clients)
  {
    DroppedSane(layout, classes, m, m', gone, order, keep);
    DroppedOwners(ids, loc, m, m', t, gone, order, keep);
    hide O.Consistent, Typed, O.Cascade;
    forall c | c in ids.client ensures ids.client[c] in O.Live(m'.blocks) <==> Owned(t, c) || c in loc.clients {
      ClientLives(layout, classes, ids, loc, m', t, c);
    }
    DroppedMembers(ids, loc, m, m', s, t, gone, order, keep);
    SweptOwned(t, loc.clients);
    hide O.Live, MembersAre, Owned;
    assert OwnersAre(m', {}, SweptBut(t, loc.clients), ids, loc);
  }

  lemma HeldIsKnown(m: Mem, s: State, ids: Ids, c: Client)
    requires MembersAre(m, s, ids) && c in s.client
    ensures c in ids.client
  {
  }

  lemma SweptOwned(t: State, held: set<Client>)
    ensures forall c :: Owned(SweptBut(t, held), c) <==> Owned(t, c)
  {
    forall c: Client ensures Owned(SweptBut(t, held), c) <==> Owned(t, c) {}
  }

  lemma DroppedSane(layout: Layout, classes: Classes, m: Mem, m': Mem, gone: set<Loc>, order: seq<Id>, keep: set<Id>)
    requires Sane(layout, classes, m) && O.Cascade(m, m', gone, order, keep) && O.Consistent(m', map[])
    ensures Sane(layout, classes, m')
  {
    hide O.Consistent, TypeOf;
    assert O.HandlesAfter(m.handles, m'.handles, gone, O.Elements(order));
  }

  lemma DroppedOwners(ids: Ids, loc: Locals, m: Mem, m': Mem, t: State, gone: set<Loc>, order: seq<Id>, keep: set<Id>)
    requires OwnersAre(m, gone, t, ids, loc) && O.Cascade(m, m', gone, order, keep)
    ensures OwnersAre(m', {}, t, ids, loc)
  {
    assert O.HandlesAfter(m.handles, m'.handles, gone, O.Elements(order));
    hide Owned;
    forall b ensures HeldByVariable(m', {}, b) <==> HeldByVariable(m, gone, b) {
      forall slot ensures O.Root(slot) in m'.handles <==> O.Root(slot) in m.handles && O.Root(slot) !in gone {}
    }
  }

  lemma DroppedMembers(ids: Ids, loc: Locals, m: Mem, m': Mem, s: State, t: State, gone: set<Loc>, order: seq<Id>, keep: set<Id>)
    requires MembersAre(m, s, ids) && O.Cascade(m, m', gone, order, keep) && O.Consistent(m', map[])
    requires t.client == s.client && (forall l :: l in gone ==> l.Root?)
    requires forall c :: c in ids.client ==> (ids.client[c] in O.Live(m'.blocks) <==> Owned(t, c) || c in loc.clients)
    ensures MembersAre(m', SweptBut(t, loc.clients), ids)
  {
    CascadeLive(m, m', gone, order, keep);
    CascadeHandles(m, m', gone, order, keep);
    hide O.Cascade, O.Live, Owned, O.HandlesAfter, O.Consistent, HeldBy, SweptBut;
    forall c, ch | c in ids.client && ch in ids.channel ensures MemberIs(m', SweptBut(t, loc.clients), ids, c, ch) {
      StillHeld(m, m', gone, order, ids.client[c], ids.channel[ch]);
      SweptAt(t, loc.clients, c);
      assert MemberIs(m, s, ids, c, ch);
    }
    SweptSome(t, loc.clients);
  }

  lemma SweptAt(t: State, held: set<Client>, c: Client)
    ensures c in SweptBut(t, held).client <==> c in t.client && (Owned(t, c) || c in held)
    ensures c in SweptBut(t, held).client ==> SweptBut(t, held).client[c] == t.client[c]
  {
  }

  lemma SweptSome(t: State, held: set<Client>)
    ensures forall c :: c in SweptBut(t, held).client ==> c in t.client && SweptBut(t, held).client[c] == t.client[c]
  {
  }

  /** A member handle goes exactly when its owner dies. */
  lemma StillHeld(m: Mem, m': Mem, gone: set<Loc>, order: seq<Id>, a: Id, b: Id)
    requires O.Consistent(m', map[]) && forall l :: l in gone ==> l.Root?
    requires forall x :: x in O.Live(m'.blocks) <==> x in O.Live(m.blocks) && x !in order
    requires forall l :: l in m'.handles <==> l in m.handles && l !in gone && !(l.Field? && l.owner in order)
    requires forall l :: l in m'.handles ==> m'.handles[l] == m.handles[l]
    ensures HeldBy(m', a, b) ==> HeldBy(m, a, b) && a in O.Live(m'.blocks)
    ensures HeldBy(m, a, b) && a in O.Live(m'.blocks) ==> HeldBy(m', a, b)
  {
    if slot :| O.Field(a, slot) in m'.handles && m'.handles[O.Field(a, slot)] == O.Strong(b) {
      O.DeadHoldsNothing(m', O.Field(a, slot));
    }
    hide O.Consistent, O.Live;
    if HeldBy(m, a, b) && a in O.Live(m'.blocks) {
      var slot :| O.Field(a, slot) in m.handles && m.handles[O.Field(a, slot)] == O.Strong(b);
      assert O.Field(a, slot) in m'.handles;
    }
  }

  lemma CascadeLive(m: Mem, m': Mem, gone: set<Loc>, order: seq<Id>, keep: set<Id>)
    requires O.Cascade(m, m', gone, order, keep)
    ensures forall b :: b in O.Live(m'.blocks) <==> b in O.Live(m.blocks) && b !in order
    ensures forall b :: b in order ==> b in O.Live(m.blocks)
  {
    forall b | b in order ensures b in O.Live(m.blocks) {
      assert b in O.Elements(order);
    }
  }

  lemma CascadeHandles(m: Mem, m': Mem, gone: set<Loc>, order: seq<Id>, keep: set<Id>)
    requires O.Cascade(m, m', gone, order, keep)
    ensures forall l :: l in m'.handles <==> l in m.handles && l !in gone && !(l.Field? && l.owner in order)
    ensures forall l :: l in m'.handles ==> m'.handles[l] == m.handles[l]
  {
    assert O.HandlesAfter(m.handles, m'.handles, gone, O.Elements(order));
  }

  // ----- Clearing a list -----

  ghost function LocsOf(list: seq<Loc>): set<Loc> {
    set l | l in list
  }

  /** The clear of a list of strong handles: one reset after another. */
  method ClearList(heap: O.Heap, list: seq<Loc>) returns (ghost order: seq<Id>)
    requires heap.Valid() && forall l :: l in list ==> l.Root? && (l in heap.handles ==> heap.handles[l].Strong?)
    modifies heap
    ensures heap.Valid() && O.Cascade(old(heap.Snapshot()), heap.Snapshot(), LocsOf(list), order, {})
  {
    hide O.Consistent, O.Cascade, O.Dies;
    ghost var m := heap.Snapshot();
    order := [];
    ghost var gone: set<Loc> := {};
    O.NothingHappens(m, {}, {});
    for i := 0 to |list|
      invariant heap.Valid() && O.Cascade(m, heap.Snapshot(), gone, order, {}) && gone == LocsOf(list[..i])
    {
      assert list[i] in list;
      ghost var m1 := heap.Snapshot();
      CascadeHandles(m, m1, gone, order, {});
      RootMayGo(m1, list[i]);
      ghost var more := heap.DropShared(list[i], {});
      O.DiesCascades(m1, heap.Snapshot(), list[i], {}, more);
      O.CascadeThen(m, m1, heap.Snapshot(), gone, {list[i]}, order, more, {});
      order := order + more;
      gone := gone + {list[i]};
      assert list[..i + 1] == list[..i] + [list[i]];
    }
    assert list[..|list|] == list;
  }

  lemma RootMayGo(m: Mem, l: Loc)
    requires l.Root?
    ensures O.MayReset(m, l, {})
  {
  }

  lemma SweptIs(t: State, held: set<Client>)
    requires forall c :: c in held ==> Owned(t, c)
    ensures SweptBut(t, held) == Swept(t)
  {
  }

  /** mClientReleaseQueue.clear() on the heap is Released on the state: exactly the clients that nothing else owns are
      destroyed, and with them exactly the channels that nobody else holds; their destructors run in that order. */
  method ReleaseClients(heap: O.Heap, queue: seq<Loc>, ghost layout: Layout, ghost classes: Classes, ghost ids: Ids, ghost s: State)
    returns (ghost order: seq<Id>)
    requires Represents(layout, classes, ids, NoLocals, heap.Snapshot(), s)
    requires forall l :: l in queue ==> l.Root? && (l in heap.handles ==> heap.handles[l].Strong?)
    requires OwnersAre(heap.Snapshot(), LocsOf(queue), s.(released := []), ids, NoLocals)
    modifies heap
    ensures Represents(layout, classes, ids, NoLocals, heap.Snapshot(), Released(s)) && heap.dead == old(heap.dead) + order
    ensures forall c :: c in s.client && Owned(s, c) ==> (c !in Released(s).client <==> ids.client[c] in order)
    ensures forall ch :: ch in ids.channel ==> (Alive(s, ch) && !Alive(Released(s), ch) <==> ids.channel[ch] in order)
  {
    hide O.Consistent, Typed, Known, OwnersAre, MembersAre, O.Cascade, Swept, SweptBut, Owned, Alive;
    ghost var m := heap.Snapshot();
    order := ClearList(heap, queue);
    CascadeLogs(m, heap.Snapshot(), LocsOf(queue), order, {});
    DropsSweep(layout, classes, ids, NoLocals, m, heap.Snapshot(), s, s.(released := []), LocsOf(queue), order, {});
    SweptIs(s.(released := []), {});
  }

  lemma CascadeLogs(m: Mem, m': Mem, gone: set<Loc>, order: seq<Id>, keep: set<Id>)
    requires O.Cascade(m, m', gone, order, keep)
    ensures m'.dead == m.dead + order
  {
  }

  // ----- Erasing an entry of the client directory -----

  /** The erase by iterator in findClientGlobal and the erase by name in forceDisconnectClient, in whatever state they
      are reached and whatever the functions running hold: exactly the client that nothing else owns is destroyed. */
  method EraseEntry(heap: O.Heap, entry: Loc, n: string, ghost layout: Layout, ghost classes: Classes, ghost ids: Ids, ghost loc: Locals, ghost s: State)
    returns (ghost order: seq<Id>)
    requires Represents(layout, classes, ids, loc, heap.Snapshot(), s)
    requires entry.Root? && entry in heap.handles && heap.handles[entry].Strong?
    requires OwnersAre(heap.Snapshot(), {entry}, s.(mClients := s.mClients - {n}), ids, loc)
    modifies heap
    ensures Represents(layout, classes, ids, loc, heap.Snapshot(), SweptBut(s.(mClients := s.mClients - {n}), loc.clients))
    ensures heap.dead == old(heap.dead) + order
    ensures var t := s.(mClients := s.mClients - {n});
            forall c :: c in s.client && (Owned(s, c) || c in loc.clients) ==>
              c in ids.client && (!Owned(t, c) && c !in loc.clients <==> ids.client[c] in order)
  {
    hide O.Consistent, Typed, Known, OwnersAre, MembersAre, O.Cascade, O.Dies, Owned, Alive;
    ghost var m, t := heap.Snapshot(), s.(mClients := s.mClients - {n});
    RootMayGo(m, entry);
    order := heap.DropShared(entry, {});
    O.DiesCascades(m, heap.Snapshot(), entry, {}, order);
    CascadeLogs(m, heap.Snapshot(), {entry}, order, {});
    DropsSweep(layout, classes, ids, loc, m, heap.Snapshot(), s, t, {entry}, order, {});
    forall c | c in s.client && (Owned(s, c) || c in loc.clients) ensures c in ids.client && (!Owned(t, c) && c !in loc.clients <==> ids.client[c] in order) {
      HeldIsKnown(m, s, ids, c);
      SweptAt(t, loc.clients, c);
    }
    hide SweptBut;
  }

  /** A lookup that meets an expired entry does that, if what the handler holds is owned anyhow. */
  lemma LookupIsErase(s: State, n: string, held: set<Client>)
    requires FiledExpired(s, n) && forall c :: c in held ==> Owned(s.(mClients := s.mClients - {n}), c)
    ensures Lookup(s, n) == SweptBut(s.(mClients := s.mClients - {n}), held)
  {
    SweptIs(s.(mClients := s.mClients - {n}), held);
  }

  /** Where forceDisconnectClient erases the entry: the client is expired, closed and off the unregistered list, still in
      its channels, and held by the argument. */
  function BeforeErase(s: State, c: Client): State
    requires c in s.client
  {
    Put(s, c, s.client[c].(bExpired := true, bSocketClosed := true)).(unregistered := Without(s.unregistered, c))
  }

  /** The erase destroys exactly those that the whole of forceDisconnectClient does. */
  lemma CloseErases(s: State, c: Client)
    requires Core(s) && c in s.client && !s.client[c].bSocketClosed
    ensures var u := BeforeErase(s, c);
            SweptBut(u.(mClients := u.mClients - {s.client[c].nickname}), {c}).client.Keys == ForceDisconnected(s, c).client.Keys
  {
    var u := BeforeErase(s, c);
    var t := u.(mClients := u.mClients - {s.client[c].nickname});
    CutOffKeys(s, c);
    hide Core, Without, Delisted;
    forall d ensures Owned(t, d) || d == c <==> Owned(CutOff(s, c), d) {
    }
    assert CutOff(s, c).client.Keys == t.client.Keys;
  }

  // ----- Making objects -----

  lemma TypesOfOld(layout: Layout, classes: Classes, m: Mem, k: Pointee)
    requires O.Consistent(m, map[]) && Typed(layout, classes, m)
    ensures forall l :: l in m.handles ==> Fits(layout, classes[m.next := k], l, m.handles[l])
    ensures m.next !in m.blocks && m.next !in classes
  {
    O.NextIsUnnamed(m);
    forall l | l in m.handles ensures Fits(layout, classes[m.next := k], l, m.handles[l]) {
      assert Fits(layout, classes, l, m.handles[l]);
    }
    hide O.Consistent;
  }

  lemma ConnectedTyped(layout: Layout, classes: Classes, m: Mem, m': Mem, slot: nat)
    requires O.Consistent(m, map[]) && Typed(layout, classes, m) && layout.variable(slot) == Handle(AClient, true)
    requires m'.handles == m.handles[O.Root(slot) := O.Strong(m.next)] && m'.next == m.next + 1
    ensures Typed(layout, classes[m.next := AClient], m')
  {
    TypesOfOld(layout, classes, m, AClient);
    hide O.Consistent;
  }

  lemma NextHeldByNone(m: Mem)
    requires O.Consistent(m, map[])
    ensures forall l :: l in m.handles ==> m.handles[l].id != m.next && (l.Field? ==> l.owner != m.next)
  {
    O.NextIsUnnamed(m);
    hide O.BlockCounted;
  }

  /** A new client object whose only handle is a variable of the server is the state with one client more. */
  lemma ConnectedRepresents(layout: Layout, classes: Classes, ids: Ids, m: Mem, m': Mem, s: State, c: Client, slot: nat)
    requires Represents(layout, classes, ids, NoLocals, m, s) && c !in ids.client
    requires O.Consistent(m', map[]) && layout.variable(slot) == Handle(AClient, true) && O.Root(slot) !in m.handles
    requires m'.handles == m.handles[O.Root(slot) := O.Strong(m.next)] && m'.next == m.next + 1
    ensures Represents(layout, classes[m.next := AClient], ids.(client := ids.client[c := m.next]), NoLocals, m', Accepted(s, c))
  {
    ConnectedTyped(layout, classes, m, m', slot);
    TypesOfOld(layout, classes, m, AClient);
    NextHeldByNone(m);
    hide O.Consistent, Typed;
    ConnectedOwners(ids, m, m', s, c, slot);
    ConnectedMembers(ids, m, m', s, c, slot);
    ConnectedKnown(layout, classes, ids, c, m.next);
    hide OwnersAre, MembersAre, Known;
  }

  lemma ConnectedKnown(layout: Layout, classes: Classes, ids: Ids, c: Client, b: Id)
    requires Known(layout, classes, ids) && b !in classes && c !in ids.client
    ensures Known(layout, classes[b := AClient], ids.(client := ids.client[c := b]))
  {
    var k, i := classes[b := AClient], ids.client[c := b];
    forall a | a in k && k[a] == AClient ensures a in i.Values {
      if a != b {
        var d: Client :| d in ids.client && ids.client[d] == a;
        assert i[d] == a;
      } else {
        assert i[c] == a;
      }
    }
  }

  lemma ConnectedOwners(ids: Ids, m: Mem, m': Mem, s: State, c: Client, slot: nat)
    requires OwnersAre(m, {}, s, ids, NoLocals) && c !in ids.client && O.Root(slot) !in m.handles
    requires m'.handles == m.handles[O.Root(slot) := O.Strong(m.next)]
    requires forall d :: d in ids.client ==> ids.client[d] != m.next
    requires forall ch :: ch in ids.channel ==> ids.channel[ch] != m.next
    ensures OwnersAre(m', {}, Accepted(s, c), ids.(client := ids.client[c := m.next]), NoLocals)
  {
    var t := Accepted(s, c);
    forall d: Client ensures Owned(t, d) <==> Owned(s, d) || d == c {}
    hide Owned;
    forall b ensures HeldByVariable(m', {}, b) <==> HeldByVariable(m, {}, b) || b == m.next {
      assert O.Root(slot) in m'.handles;
      if v: nat :| O.Root(v) in m.handles && m.handles[O.Root(v)] == O.Strong(b) {
        assert m'.handles[O.Root(v)] == O.Strong(b);
      }
    }
  }

  lemma ConnectedMembers(ids: Ids, m: Mem, m': Mem, s: State, c: Client, slot: nat)
    requires MembersAre(m, s, ids) && c !in ids.client && m'.handles == m.handles[O.Root(slot) := O.Strong(m.next)]
    requires forall l :: l in m.handles ==> l.Field? ==> l.owner != m.next
    ensures MembersAre(m', Accepted(s, c), ids.(client := ids.client[c := m.next]))
  {
    var t, i := Accepted(s, c), ids.(client := ids.client[c := m.next]);
    forall d, ch | d in i.client && ch in i.channel ensures MemberIs(m', t, i, d, ch) {
      assert d != c ==> MemberIs(m, s, ids, d, ch);
    }
  }

  /** The accept of a connection on the heap: made in a local variable, copied to the list, and the local goes. */
  method AcceptClient(heap: O.Heap, local: Loc, slot: nat, ghost layout: Layout, ghost classes: Classes, ghost ids: Ids, ghost s: State, ghost c: Client)
    requires Represents(layout, classes, ids, NoLocals, heap.Snapshot(), s) && c !in ids.client
    requires O.Writable(heap.Snapshot(), local) && local.Root? && local != O.Root(slot)
    requires O.Writable(heap.Snapshot(), O.Root(slot)) && layout.variable(slot) == Handle(AClient, true)
    modifies heap
    ensures Represents(layout, classes[old(heap.next) := AClient], ids.(client := ids.client[c := old(heap.next)]), NoLocals,
                       heap.Snapshot(), Accepted(s, c))
  {
    hide O.Consistent, Typed, Known, OwnersAre, MembersAre, O.Cascade, O.Dies, O.Live, O.SameObjects, O.ClosedUnderLoss, Accepted;
    ghost var m := heap.Snapshot();
    heap.MakeShared(local);
    heap.CopyShared(O.Root(slot), local);
    SameNext(O.Made(m, local), heap.Snapshot());
    ghost var m1 := heap.Snapshot();
    RootMayGo(m1, local);
    ghost var order := heap.DropShared(local, {});
    LocalGoes(m1, heap.Snapshot(), local, O.Root(slot), m.next, order);
    assert heap.handles == m.handles[O.Root(slot) := O.Strong(m.next)];
    ConnectedRepresents(layout, classes, ids, m, heap.Snapshot(), s, c, slot);
  }

  lemma SameNext(m: Mem, m': Mem)
    requires O.SameObjects(m, m')
    ensures m'.next == m.next
  {
  }

  /** Dropping one of two handles on an object kills nobody. */
  lemma LocalGoes(m: Mem, m': Mem, l: Loc, other: Loc, b: Id, order: seq<Id>)
    requires O.Consistent(m, map[]) && O.Dies(m, m', l, {}, order) && l in m.handles && m.handles[l] == O.Strong(b)
    requires other != l && other in m.handles && m.handles[other] == O.Strong(b)
    ensures order == [] && m'.handles == m.handles - {l} && m'.next == m.next
  {
    forall x | x in O.Live(m.blocks) ensures !O.HeldOnlyBy(m.handles, l, {}, x) {
      LiveIffHeld(m, x);
      var a :| a in m.handles && m.handles[a] == O.Strong(x);
      assert a in O.StrongLocs(m.handles, x) && (x == b ==> other in O.StrongLocs(m.handles, x));
    }
    hide O.Consistent, O.HeldOnlyBy;
    assert O.ClosedUnderLoss(m.blocks, m.handles, l, {});
    assert O.Elements(order) <= {};
    FirstDies(order);
    CascadeHandles(m, m', {l}, order, {});
  }

  lemma FirstDies(order: seq<Id>)
    ensures order != [] ==> O.Elements(order) != {}
  {
    if order != [] {
      assert order[0] in O.Elements(order);
    }
  }

  // ----- A new channel -----

  /** From h to h' the strong handles are the same, but that l now names b. */
  ghost predicate StrongGains(h: O.Handles, h': O.Handles, l: Loc, b: Id) {
    && l in h' && h'[l] == O.Strong(b) && l !in h
    && (forall a :: a in h && h[a].Strong? ==> a in h' && h'[a] == h[a])
    && (forall a :: a in h' && h'[a].Strong? && a != l ==> a in h && h[a] == h'[a])
  }

  /** A new channel object that one client holds is the state in which it created the channel. */
  lemma CreatedRepresents(layout: Layout, classes: Classes, ids: Ids, loc: Locals, m: Mem, m': Mem, s: State, c: Client, name: string,
                          ch: Channel, z: nat)
    requires Represents(layout, classes, ids, loc, m, s) && c in s.client && ch !in ids.channel && name !in s.client[c].channels
    requires c in ids.client && StrongGains(m.handles, m'.handles, O.Field(ids.client[c], z), m.next)
    requires Sane(layout, classes[m.next := AChannel], m')
    ensures Represents(layout, classes[m.next := AChannel], ids.(channel := ids.channel[ch := m.next]), loc, m', Created(s, c, name, ch))
  {
    TypesOfOld(layout, classes, m, AChannel);
    NextHeldByNone(m);
    CreatedKnown(layout, classes, ids, ch, m.next);
    hide O.Consistent, Typed, Known, OneEach, StrongGains, Created, OwnersAre, MembersAre;
    CreatedOwners(ids, loc, m, m', s, c, name, ch, z);
    CreatedMembers(ids, m, m', s, c, name, ch, z);
  }

  lemma CreatedKnown(layout: Layout, classes: Classes, ids: Ids, ch: Channel, b: Id)
    requires Known(layout, classes, ids) && b !in classes && ch !in ids.channel
    ensures Known(layout, classes[b := AChannel], ids.(channel := ids.channel[ch := b])) && OneEach(ids)
    ensures forall x: Channel :: x in ids.channel ==> ids.channel[x] != b
  {
  }

  lemma CreatedOwners(ids: Ids, loc: Locals, m: Mem, m': Mem, s: State, c: Client, name: string, ch: Channel, z: nat)
    requires OwnersAre(m, {}, s, ids, loc) && c in s.client && ch !in ids.channel && c in ids.client
    requires StrongGains(m.handles, m'.handles, O.Field(ids.client[c], z), m.next)
    requires forall l :: l in m.handles ==> m.handles[l].id != m.next
    ensures OwnersAre(m', {}, Created(s, c, name, ch), ids.(channel := ids.channel[ch := m.next]), loc)
  {
    var t := Created(s, c, name, ch);
    forall d: Client ensures Owned(t, d) <==> Owned(s, d) {}
    hide Owned;
    forall b ensures HeldByVariable(m', {}, b) <==> HeldByVariable(m, {}, b) {
      if v: nat :| O.Root(v) in m.handles && m.handles[O.Root(v)] == O.Strong(b) {
        assert m'.handles[O.Root(v)] == O.Strong(b);
      }
      if v: nat :| O.Root(v) in m'.handles && m'.handles[O.Root(v)] == O.Strong(b) {
        assert m.handles[O.Root(v)] == O.Strong(b);
      }
    }
  }

  lemma CreatedMembers(ids: Ids, m: Mem, m': Mem, s: State, c: Client, name: string, ch: Channel, z: nat)
    requires MembersAre(m, s, ids) && c in s.client && ch !in ids.channel && c in ids.client && name !in s.client[c].channels
    requires StrongGains(m.handles, m'.handles, O.Field(ids.client[c], z), m.next)
    requires forall l :: l in m.handles ==> m.handles[l].id != m.next
    requires forall x: Channel :: x in ids.channel ==> ids.channel[x] != m.next
    requires OneEach(ids)
    ensures MembersAre(m', Created(s, c, name, ch), ids.(channel := ids.channel[ch := m.next]))
  {
    var t, i := Created(s, c, name, ch), ids.(channel := ids.channel[ch := m.next]);
    CreatedHolds(s, c, name, ch);
    hide Created, HeldBy, StrongGains;
    forall d, x | d in i.client && x in i.channel ensures MemberIs(m', t, i, d, x) {
      GainedHold(m, m', O.Field(ids.client[c], z), m.next, i.client[d], i.channel[x]);
      if x != ch {
        assert MemberIs(m, s, ids, d, x);
      } else {
        assert d in s.client ==> ch !in s.client[d].channels.Values;
      }
    }
  }

  lemma CreatedHolds(s: State, c: Client, name: string, ch: Channel)
    requires c in s.client && name !in s.client[c].channels
    ensures var t := Created(s, c, name, ch);
            && t.client.Keys == s.client.Keys && c in t.client && t.client[c].channels.Values == s.client[c].channels.Values + {ch}
            && forall d :: d in s.client && d != c ==> t.client[d] == s.client[d]
  {
    var m, m' := s.client[c].channels, Created(s, c, name, ch).client[c].channels;
    assert m' == m[name := ch] && m'[name] == ch;
    forall x | x in m.Values ensures x in m'.Values {
      var k :| k in m && m[k] == x;
      assert m'[k] == x;
    }
  }

  lemma GainedHold(m: Mem, m': Mem, l: Loc, new_: Id, a: Id, b: Id)
    requires l.Field? && StrongGains(m.handles, m'.handles, l, new_) && forall k :: k in m.handles ==> m.handles[k].id != new_
    ensures HeldBy(m', a, b) <==> HeldBy(m, a, b) || (a == l.owner && b == new_)
    ensures !HeldBy(m, a, new_)
  {
    if v: nat :| O.Field(a, v) in m.handles && m.handles[O.Field(a, v)] == O.Strong(b) {
      assert m'.handles[O.Field(a, v)] == O.Strong(b);
    }
    if v: nat :| O.Field(a, v) in m'.handles && m'.handles[O.Field(a, v)] == O.Strong(b) {
      assert O.Field(a, v) != l ==> m.handles[O.Field(a, v)] == O.Strong(b);
    }
    if a == l.owner && b == new_ {
      assert m'.handles[O.Field(a, l.slot)] == O.Strong(b);
    }
  }

  /** The creation of a channel in JOIN on the heap: made in a local variable with its weak members, filed weakly in the
      directory, held by the creator, and the local goes. */
  method MakeChannel(heap: O.Heap, local: Loc, dir: Loc, creator: Loc, z: nat, ghost layout: Layout, ghost classes: Classes, ghost ids: Ids,
                     ghost loc: Locals, ghost s: State, ghost c: Client, ghost name: string, ghost ch: Channel)
    requires Represents(layout, classes, ids, loc, heap.Snapshot(), s) && c in s.client && ch !in ids.channel && name !in s.client[c].channels
    requires c in ids.client && creator in heap.handles && heap.handles[creator] == O.Strong(ids.client[c])
    requires O.Writable(heap.Snapshot(), local) && local.Root? && local != dir && creator != dir
    requires dir.Root? && layout.variable(dir.slot) == Handle(AChannel, false) && (dir in heap.handles ==> heap.handles[dir].Weak?)
    requires O.Field(ids.client[c], z) !in heap.handles && !layout.bMessage(z)
    modifies heap
    ensures Represents(layout, classes[old(heap.next) := AChannel], ids.(channel := ids.channel[ch := old(heap.next)]), loc,
                       heap.Snapshot(), Created(s, c, name, ch))
  {
    hide O.Consistent, Typed, Known, OwnersAre, MembersAre, O.Live, Created;
    ghost var m := heap.Snapshot();
    KnownClient(layout, classes, ids, c);
    NextHeldByNone(m);
    LiveTarget(m, creator);
    PlaceHandles(heap, local, dir, creator, z);
    ChannelTyped(layout, classes, m, heap.Snapshot(), dir, ids.client[c], z);
    CreatedRepresents(layout, classes, ids, loc, m, heap.Snapshot(), s, c, name, ch, z);
  }

  lemma KnownClient(layout: Layout, classes: Classes, ids: Ids, c: Client)
    requires Known(layout, classes, ids) && c in ids.client
    ensures ids.client[c] in classes && classes[ids.client[c]] == AClient
  {
  }

  /** The handle operations of the creation. */
  method PlaceHandles(heap: O.Heap, local: Loc, dir: Loc, creator: Loc, z: nat)
    requires heap.Valid() && creator in heap.handles && heap.handles[creator].Strong?
    requires O.Writable(heap.Snapshot(), local) && local.Root? && local != dir && creator != dir
    requires dir.Root? && (dir in heap.handles ==> heap.handles[dir].Weak?)
    requires O.Field(heap.handles[creator].id, z) !in heap.handles
    requires forall l :: l in heap.handles ==> l.Field? ==> l.owner != heap.next
    modifies heap
    ensures heap.Valid() && heap.next == old(heap.next) + 1
    ensures heap.handles == HandlesPlaced(old(heap.handles), dir, old(heap.handles)[creator].id, old(heap.next), z)
  {
    assert local !in heap.handles;
    hide O.Consistent, O.Live, O.Writable, HandlesPlaced;
    ghost var h := heap.handles;
    var made := heap.next;
    var id := PlaceMembers(heap, local, creator);
    PlaceHolder(heap, local, dir, id, made, z);
    PlacedIs(h, heap.handles, local, dir, id, made, z);
  }

  predicate Lives(m: Mem, a: Id) {
    a in m.blocks && !m.blocks[a].bExpired
  }

  /** The object and its weak members. */
  method PlaceMembers(heap: O.Heap, local: Loc, creator: Loc) returns (id: Id)
    requires heap.Valid() && creator in heap.handles && heap.handles[creator].Strong? && O.Writable(heap.Snapshot(), local)
    requires forall l :: l in heap.handles ==> l.Field? ==> l.owner != heap.next
    modifies heap
    ensures heap.Valid() && heap.next == old(heap.next) + 1 && id == old(heap.handles)[creator].id
    ensures Lives(heap.Snapshot(), id) && Lives(heap.Snapshot(), old(heap.next)) && local in heap.handles
    ensures heap.handles == old(heap.handles)[local := O.Strong(old(heap.next))][O.Field(old(heap.next), 0) := O.Weak(id)]
                                             [O.Field(old(heap.next), 1) := O.Weak(id)]
  {
    assert local !in heap.handles;
    ghost var m := heap.Snapshot();
    LiveTarget(m, creator);
    hide O.Consistent, O.SameObjects, O.Live, O.Writable, O.Made, Lives;
    id := heap.handles[creator].id;
    var made := heap.next;
    MadeIs(m, local);
    MadeIsLive(m, local, id);
    heap.MakeShared(local);
    AddWeak(heap, O.Field(made, 0), creator, id, made);
    AddWeak(heap, O.Field(made, 1), creator, id, made);
  }

  method AddWeak(heap: O.Heap, l: Loc, src: Loc, ghost id: Id, ghost made: Id)
    requires heap.Valid() && src in heap.handles && l !in heap.handles && l.Field? && Lives(heap.Snapshot(), l.owner)
    requires Lives(heap.Snapshot(), id) && Lives(heap.Snapshot(), made)
    modifies heap
    ensures heap.Valid() && heap.next == old(heap.next) && Lives(heap.Snapshot(), id) && Lives(heap.Snapshot(), made)
    ensures heap.handles == old(heap.handles)[l := O.Weak(old(heap.handles)[src].id)]
  {
    hide O.Consistent, O.SameObjects, O.Writable;
    ghost var m := heap.Snapshot();
    MayWrite(m, l);
    heap.CopyWeak(l, src);
    SameNext(m, heap.Snapshot());
    StillLive(m, heap.Snapshot(), id);
    StillLive(m, heap.Snapshot(), made);
  }

  /** The weak entry, the strong one of the creator, and the end of the local variable. */
  method PlaceHolder(heap: O.Heap, local: Loc, dir: Loc, id: Id, ghost made: Id, z: nat)
    requires heap.Valid() && local in heap.handles && heap.handles[local] == O.Strong(made) && Lives(heap.Snapshot(), id)
    requires local.Root? && dir.Root? && local != dir && (dir in heap.handles ==> heap.handles[dir].Weak?)
    requires O.Field(id, z) !in heap.handles
    modifies heap
    ensures heap.Valid() && heap.next == old(heap.next)
    ensures heap.handles == old(heap.handles)[dir := O.Weak(made)][O.Field(id, z) := O.Strong(made)] - {local}
  {
    hide O.Consistent, O.SameObjects, O.Dies, O.Live, O.Writable, O.MayReset;
    ghost var m := heap.Snapshot();
    heap.AssignWeak(dir, local);
    SameNext(m, heap.Snapshot());
    StillLive(m, heap.Snapshot(), id);
    ghost var m1 := heap.Snapshot();
    MayWrite(m1, O.Field(id, z));
    heap.CopyShared(O.Field(id, z), local);
    SameNext(m1, heap.Snapshot());
    ghost var m2 := heap.Snapshot();
    RootMayGo(m2, local);
    ghost var order := heap.DropShared(local, {});
    LocalGoes(m2, heap.Snapshot(), local, O.Field(id, z), made, order);
  }

  function HandlesPlaced(h: O.Handles, dir: Loc, a: Id, b: Id, z: nat): O.Handles {
    h[O.Field(b, 0) := O.Weak(a)][O.Field(b, 1) := O.Weak(a)][dir := O.Weak(b)][O.Field(a, z) := O.Strong(b)]
  }

  lemma PlacedIs(h: O.Handles, h': O.Handles, local: Loc, dir: Loc, a: Id, b: Id, z: nat)
    requires local !in h && local.Root? && local != dir
    requires h' == h[local := O.Strong(b)][O.Field(b, 0) := O.Weak(a)][O.Field(b, 1) := O.Weak(a)][dir := O.Weak(b)][O.Field(a, z) := O.Strong(b)] - {local}
    ensures h' == HandlesPlaced(h, dir, a, b, z)
  {
  }

  lemma MadeIs(m: Mem, l: Loc)
    ensures O.Made(m, l).handles == m.handles[l := O.Strong(m.next)] && O.Made(m, l).next == m.next + 1
  {
  }

  lemma MayWrite(m: Mem, l: Loc)
    requires l !in m.handles && l.Field? && l.owner in m.blocks && !m.blocks[l.owner].bExpired
    ensures O.Writable(m, l)
  {
  }

  lemma LiveTarget(m: Mem, l: Loc)
    requires O.Consistent(m, map[]) && l in m.handles && m.handles[l].Strong?
    ensures m.handles[l].id in m.blocks && !m.blocks[m.handles[l].id].bExpired && m.handles[l].id != m.next
  {
    O.StrongNamesLive(m, l);
    NextHeldByNone(m);
  }

  lemma MadeIsLive(m: Mem, l: Loc, a: Id)
    requires a in m.blocks && !m.blocks[a].bExpired && a != m.next
    ensures Lives(O.Made(m, l), a) && Lives(O.Made(m, l), m.next)
  {
  }

  lemma StillLive(m: Mem, m': Mem, a: Id)
    requires O.SameObjects(m, m') && Lives(m, a)
    ensures Lives(m', a)
  {
    assert a in O.Live(m.blocks) && a in O.Live(m'.blocks);
  }

  lemma ChannelTyped(layout: Layout, classes: Classes, m: Mem, m': Mem, dir: Loc, a: Id, z: nat)
    requires O.Consistent(m, map[]) && Typed(layout, classes, m) && a in classes && classes[a] == AClient && !layout.bMessage(z)
    requires dir.Root? && layout.variable(dir.slot) == Handle(AChannel, false) && m'.next == m.next + 1
    requires forall l :: l in m'.handles ==>
               || (l in m.handles && m'.handles[l] == m.handles[l])
               || (l == dir && m'.handles[l] == O.Weak(m.next))
               || (l == O.Field(a, z) && m'.handles[l] == O.Strong(m.next))
               || (l.Field? && l.owner == m.next && m'.handles[l] == O.Weak(a))
    ensures Typed(layout, classes[m.next := AChannel], m')
  {
    TypesOfOld(layout, classes, m, AChannel);
    hide O.Consistent;
  }
}
