/** The sending side as values: what is queued for each client, the deferred write-filter registrations and the
    kernel's filters; what each operation does to them, and what holds over runs. Clients are named by the order in
    which they connected. */
module Sending {
  import opened MsgBlocks
  import opened Registrations

  function Concat(ss: seq<string>): string {
    if ss == [] then "" else ss[0] + Concat(ss[1..])
  }

  lemma {:induction false} ConcatPush(ss: seq<string>, s: string)
    ensures Concat(ss + [s]) == Concat(ss) + s
  {
    if ss == [] {
      assert [s][1..] == [];
      assert [] + [s] == [s];
    } else {
      assert (ss + [s])[1..] == ss[1..] + [s];
      ConcatPush(ss[1..], s);
    }
  }

  // ----- One client -----

  /** texts is what the queued blocks hold, wire the bytes given to send so far, enqueued everything ever enqueued,
      closes how often close was called on the socket. */
  datatype Line = Line(sock: nat, bExpired: bool, bClosed: bool, texts: seq<string>, cursor: nat,
                       wire: string, enqueued: string, closes: nat)
  {
    /** What is still to be sent. */
    function Unsent(): string {
      if cursor <= |Concat(texts)| then Concat(texts)[cursor..] else ""
    }
  }

  function NewLine(sock: nat): Line {
    Line(sock, false, false, [], 0, "", "", 0)
  }

  /** Nothing is lost, doubled or reordered: the bytes sent and the bytes unsent are what was enqueued. */
  predicate Conserved(k: Line) {
    && (if k.texts == [] then k.cursor == 0 else k.cursor < |k.texts[0]|)
    && (forall i :: 0 <= i < |k.texts| ==> k.texts[i] != "")
    && k.wire + k.Unsent() == k.enqueued
  }

  /** A closed client is expired and was closed once; an expired one that is not closed still has something to send, so
      that draining it will close it. */
  predicate Ordered(k: Line) {
    && (k.bClosed ==> k.bExpired)
    && (k.bExpired && !k.bClosed ==> k.texts != [])
    && k.closes == (if k.bClosed then 1 else 0)
  }

  /** A block joins the queue. */
  function Pushed(k: Line, text: string): Line {
    k.(texts := k.texts + [text], cursor := if k.texts == [] then 0 else k.cursor, enqueued := k.enqueued + text)
  }

  /** n bytes of the front block went out: the cursor moves, and a block sent completely leaves the queue. */
  function Advanced(k: Line, n: nat): Line
    requires k.texts != [] && k.cursor + n <= |k.texts[0]|
  {
    var t := k.(wire := k.wire + k.texts[0][k.cursor..k.cursor + n]);
    if k.cursor + n == |k.texts[0]| then t.(texts := k.texts[1..], cursor := 0) else t.(cursor := k.cursor + n)
  }

  lemma UnsentPush(texts: seq<string>, cursor: nat, t: string)
    requires if texts == [] then cursor == 0 else cursor < |texts[0]|
    ensures cursor <= |Concat(texts)| && cursor <= |Concat(texts + [t])|
    ensures Concat(texts + [t])[cursor..] == Concat(texts)[cursor..] + t
  {
    ConcatPush(texts, t);
  }

  lemma UnsentAdvance(texts: seq<string>, cursor: nat, n: nat)
    requires texts != [] && cursor + n <= |texts[0]|
    ensures cursor + n <= |Concat(texts)|
    ensures Concat(texts)[cursor..] == texts[0][cursor..cursor + n] + Concat(texts)[cursor + n..]
    ensures cursor + n == |texts[0]| ==> Concat(texts)[cursor + n..] == Concat(texts[1..])
  {
    var all := Concat(texts);
    assert all == texts[0] + Concat(texts[1..]);
    assert all[cursor..cursor + n] == texts[0][cursor..cursor + n];
  }

  lemma Reassociate(a: string, b: string, c: string)
    ensures a + (b + c) == a + b + c
  {
  }

  lemma SplitWire(wire: string, sent: string, rest: string, unsent: string, n: nat)
    requires unsent == sent + rest && |sent| == n
    ensures unsent[..n] == sent && unsent[n..] == rest && wire + unsent == wire + sent + rest
  {
  }

  lemma FromStart(s: string)
    ensures s[0..] == s
  {
  }

  lemma PushedKeeps(k: Line, text: string)
    requires Conserved(k) && text != ""
    ensures Conserved(Pushed(k, text)) && Pushed(k, text).Unsent() == k.Unsent() + text
  {
    UnsentPush(k.texts, k.cursor, text);
    hide Concat;
    Reassociate(k.wire, k.Unsent(), text);
  }

  lemma AdvancedKeeps(k: Line, n: nat)
    requires Conserved(k) && k.texts != [] && 0 < n && k.cursor + n <= |k.texts[0]|
    ensures var t := Advanced(k, n);
            && Conserved(t) && n <= |k.Unsent()| && t.Unsent() == k.Unsent()[n..] && t.wire == k.wire + k.Unsent()[..n]
  {
    UnsentAdvance(k.texts, k.cursor, n);
    hide Concat;
    var sent, rest := k.texts[0][k.cursor..k.cursor + n], Concat(k.texts)[k.cursor + n..];
    assert k.Unsent() == Concat(k.texts)[k.cursor..];
    SplitWire(k.wire, sent, rest, k.Unsent(), n);
    AdvancedIs(k, n);
    hide Line.Unsent, Advanced;
  }

  lemma AdvancedIs(k: Line, n: nat)
    requires k.texts != [] && 0 < n && k.cursor + n <= |k.texts[0]| && k.cursor + n <= |Concat(k.texts)|
    requires k.cursor + n == |k.texts[0]| ==> Concat(k.texts)[k.cursor + n..] == Concat(k.texts[1..])
    ensures var t := Advanced(k, n);
            && t.wire == k.wire + k.texts[0][k.cursor..k.cursor + n] && t.enqueued == k.enqueued
            && t.Unsent() == Concat(k.texts)[k.cursor + n..]
            && (if t.texts == [] then t.cursor == 0 else t.cursor < |t.texts[0]| || t.texts == k.texts[1..])
            && (t.cursor == 0 || t.cursor < |k.texts[0]|) && (t.texts == k.texts || (t.texts == k.texts[1..] && t.cursor == 0))
  {
    hide Concat;
    FromStart(Concat(k.texts[1..]));
  }

  /** Something is unsent exactly while the queue is not empty. */
  lemma UnsentIsQueue(k: Line)
    requires Conserved(k)
    ensures k.Unsent() == "" <==> k.texts == []
  {
    if k.texts != [] {
      assert |Concat(k.texts)| >= |k.texts[0]|;
    }
  }

  // ----- All clients -----

  /** regs are the registrations put off to the next turn of the loop, kernel the sockets whose write filter is on. */
  datatype Outbox = Outbox(lines: seq<Line>, regs: seq<Registration>, kernel: set<nat>)

  function Start(): Outbox {
    Outbox([], [], {})
  }

  function SetLine(o: Outbox, w: nat, k: Line): Outbox {
    if w < |o.lines| then o.(lines := o.lines[w := k]) else o
  }

  predicate IsOpen(o: Outbox, w: nat) {
    w < |o.lines| && !o.lines[w].bClosed
  }

  ghost predicate AllKept(o: Outbox) {
    forall w :: 0 <= w < |o.lines| ==> Conserved(o.lines[w]) && Ordered(o.lines[w])
  }

  ghost predicate OwnSockets(o: Outbox) {
    forall v, w :: 0 <= v < w < |o.lines| && !o.lines[v].bClosed && !o.lines[w].bClosed ==> o.lines[v].sock != o.lines[w].sock
  }

  ghost predicate KernelKnows(o: Outbox) {
    forall s :: s in o.kernel ==> exists w: nat :: IsOpen(o, w) && o.lines[w].sock == s
  }

  /** What holds in every state. */
  ghost predicate Sound(o: Outbox) {
    AllKept(o) && OwnSockets(o) && KernelKnows(o)
  }

  // ----- What each operation does -----

  datatype Except = Nobody | But(who: nat)

  /** sendMsgToClient: an expired client gets nothing; another gets the normalised message after everything enqueued
      before, and the write filter is requested if its queue was empty. */
  function Sent(o: Outbox, w: nat, text: string): Outbox {
    if w >= |o.lines| || o.lines[w].bExpired then o
    else SetLine(if o.lines[w].texts == [] then Requested(o, w, true) else o, w, Pushed(o.lines[w], Normalised(text)))
  }

  function Requested(o: Outbox, w: nat, bAdd: bool): Outbox
    requires w < |o.lines|
  {
    o.(regs := o.regs + [Registration(o.lines[w].sock, true, bAdd)])
  }

  /** sendMsgToChannel: once for each entry of the member map, to everyone but the excepted client. */
  function SentAll(o: Outbox, members: seq<nat>, except: Except, text: string): Outbox {
    if members == [] then o
    else
      var t, m := SentAll(o, members[..|members| - 1], except, text), members[|members| - 1];
      if except == But(m) then t else Sent(t, m, text)
  }

  /** The close itself: the kernel drops the socket's filters, and the loop its pending registrations. */
  function Dropped(o: Outbox, w: nat): Outbox
    requires w < |o.lines|
  {
    var k := o.lines[w];
    Outbox(o.lines[w := k.(bExpired := true, bClosed := true, closes := k.closes + 1)], Removed(o.regs, k.sock, 0), o.kernel - {k.sock})
  }

  /** The QUIT message that goes before a close, unless the client had expired before. */
  function Parting(o: Outbox, w: nat, audience: seq<nat>, text: string): Outbox {
    if w < |o.lines| && !o.lines[w].bExpired then SentAll(o, audience, But(w), text) else o
  }

  /** forceDisconnectClient, as far as sending goes; audience are the members, channel by channel, that QUIT goes to. */
  function Forced(o: Outbox, w: nat, audience: seq<nat>, text: string): Outbox {
    if !IsOpen(o, w) then o else DroppedIn(Parting(o, w, audience, text), w)
  }

  function DroppedIn(o: Outbox, w: nat): Outbox {
    if w < |o.lines| then Dropped(o, w) else o
  }

  /** disconnectClient: at once if nothing is left to send; otherwise the client expires. */
  function Quitted(o: Outbox, w: nat, audience: seq<nat>, text: string): Outbox {
    if w >= |o.lines| || o.lines[w].bExpired then o
    else if o.lines[w].texts == [] then Forced(o, w, audience, text)
    else SentAll(SetLine(o, w, o.lines[w].(bExpired := true)), audience, But(w), text)
  }

  /** send can take n bytes of the front block. */
  predicate Takes(o: Outbox, w: nat, n: nat) {
    w < |o.lines| && o.lines[w].texts != [] && o.lines[w].cursor + n <= |o.lines[w].texts[0]|
  }

  /** n bytes of the front block have been sent. A queue that has drained closes an expired client, and turns the write
      filter of any other off. */
  function Written(o: Outbox, w: nat, n: nat): Outbox
    requires Takes(o, w, n)
  {
    var t := SetLine(o, w, Advanced(o.lines[w], n));
    if t.lines[w].texts != [] then t
    else if t.lines[w].bExpired then Dropped(t, w)
    else Requested(t, w, false)
  }

  /** A write event; n is what send returned, -1 for an error. */
  function Writing(o: Outbox, w: nat, n: int, audience: seq<nat>, text: string): Outbox {
    if !IsOpen(o, w) || o.lines[w].texts == [] then o
    else if n == -1 then Forced(o, w, audience, text)
    else if n > 0 && Takes(o, w, n) then Written(o, w, n)
    else o
  }

  /** The turn of the loop: the pending registrations reach the kernel in order. */
  function Applied(o: Outbox): Outbox {
    Outbox(o.lines, [], set k | k in o.lines && !k.bClosed && FilterAfter(k.sock in o.kernel, o.regs, k.sock) :: k.sock)
  }

  /** A connection is accepted and its read filter requested. */
  function Connected(o: Outbox, sock: nat): Outbox {
    o.(lines := o.lines + [NewLine(sock)], regs := o.regs + [Registration(sock, false, true)])
  }

  // ----- Wake-ups -----

  /** Applying the pending registrations leaves the client's write filter on exactly when it has something to send. */
  predicate WillWake(o: Outbox, w: nat)
    requires w < |o.lines|
  {
    var k := o.lines[w];
    FilterAfter(k.sock in o.kernel, o.regs, k.sock) <==> k.texts != []
  }

  /** And each pending change turns the filter over. */
  ghost predicate Awake(o: Outbox, w: nat)
    requires w < |o.lines|
  {
    WillWake(o, w) && Alternates(o.lines[w].sock in o.kernel, o.regs, o.lines[w].sock)
  }

  // ----- Acts -----

  datatype Act =
    | Accept(sock: nat)
    | SendTo(who: nat, text: string)
    | SendToAll(members: seq<nat>, except: Except, text: string)
    | Write(who: nat, n: int, audience: seq<nat>, text: string)
    | Quit(who: nat, audience: seq<nat>, text: string)
    | Close(who: nat, audience: seq<nat>, text: string)
    | Apply

  predicate Known(o: Outbox, members: seq<nat>) {
    forall m :: m in members ==> m < |o.lines|
  }

  /** What the operating system promises, and what the message blocks ask: a new connection has a socket of its own,
      send takes no more than it was given, and a message fits its block with its terminator. */
  predicate Allowed(o: Outbox, act: Act) {
    match act
    case Accept(sock) => forall k :: k in o.lines && !k.bClosed ==> k.sock != sock
    case SendTo(who, text) => who < |o.lines| && Fits(text)
    case SendToAll(members, except, text) => Known(o, members) && (except.But? ==> except.who < |o.lines|) && Fits(text)
    case Write(who, n, audience, text) =>
      who < |o.lines| && Known(o, audience) && Fits(text) && n >= -1 && (n > 0 && o.lines[who].texts != [] ==> Takes(o, who, n))
    case Quit(who, audience, text) => who < |o.lines| && Known(o, audience) && Fits(text)
    case Close(who, audience, text) => who < |o.lines| && Known(o, audience) && Fits(text)
    case Apply => true
  }

  function Perform(o: Outbox, act: Act): Outbox {
    if !Allowed(o, act) then o
    else match act
      case Accept(sock) => Connected(o, sock)
      case SendTo(who, text) => Sent(o, who, text)
      case SendToAll(members, except, text) => SentAll(o, members, except, text)
      case Write(who, n, audience, text) => Writing(o, who, n, audience, text)
      case Quit(who, audience, text) => Quitted(o, who, audience, text)
      case Close(who, audience, text) => Forced(o, who, audience, text)
      case Apply => Applied(o)
  }

  function After(o: Outbox, acts: seq<Act>): Outbox {
    if acts == [] then o else Perform(After(o, acts[..|acts| - 1]), acts[|acts| - 1])
  }

  // ----- What every operation keeps -----

  lemma SameOpen(o: Outbox, t: Outbox)
    requires OwnSockets(o) && KernelKnows(o) && |t.lines| == |o.lines| && t.kernel <= o.kernel
    requires forall w :: 0 <= w < |o.lines| ==> t.lines[w].sock == o.lines[w].sock && t.lines[w].bClosed == o.lines[w].bClosed
    ensures OwnSockets(t) && KernelKnows(t)
  {
    forall s | s in t.kernel ensures exists w: nat :: IsOpen(t, w) && t.lines[w].sock == s {
      var w: nat :| IsOpen(o, w) && o.lines[w].sock == s;
      assert IsOpen(t, w);
    }
  }

  lemma LineKeeps(o: Outbox, w: nat, k: Line, regs: seq<Registration>)
    requires Sound(o) && w < |o.lines| && Conserved(k) && Ordered(k) && k.sock == o.lines[w].sock && k.bClosed == o.lines[w].bClosed
    ensures Sound(SetLine(o, w, k).(regs := regs))
  {
    hide Conserved, Ordered, IsOpen;
    SameOpen(o, SetLine(o, w, k).(regs := regs));
  }

  lemma FitsNormalised(b: string)
    requires Fits(b)
    ensures Fits(Normalised(b)) && Normalised(Normalised(b)) == Normalised(b) && Normalised(b) != ""
  {
    NormalisedTwice(b);
  }

  lemma SentKeeps(o: Outbox, w: nat, text: string)
    requires Sound(o) && Fits(text)
    ensures Sound(Sent(o, w, text)) && |Sent(o, w, text).lines| == |o.lines|
  {
    if w < |o.lines| && !o.lines[w].bExpired {
      FitsNormalised(text);
      hide Conserved, Fits, Normalised;
      PushedKeeps(o.lines[w], Normalised(text));
      LineKeeps(o, w, Pushed(o.lines[w], Normalised(text)), Sent(o, w, text).regs);
    }
  }

  lemma {:induction false} SentAllKeeps(o: Outbox, members: seq<nat>, except: Except, text: string)
    requires Sound(o) && Fits(text)
    ensures Sound(SentAll(o, members, except, text)) && |SentAll(o, members, except, text).lines| == |o.lines|
  {
    hide Sound, Sent, Fits;
    if members != [] {
      var init := members[..|members| - 1];
      SentAllKeeps(o, init, except, text);
      SentKeeps(SentAll(o, init, except, text), members[|members| - 1], text);
    }
  }

  lemma DroppedKeeps(o: Outbox, w: nat)
    requires KernelKnows(o) && OwnSockets(o) && IsOpen(o, w) && o.lines[w].closes == 0
    requires forall v :: 0 <= v < |o.lines| ==> Conserved(o.lines[v]) && (v != w ==> Ordered(o.lines[v]))
    ensures Sound(Dropped(o, w))
  {
    hide Concat, Removed;
    var t := Dropped(o, w);
    forall s | s in t.kernel ensures exists v: nat :: IsOpen(t, v) && t.lines[v].sock == s {
      var v: nat :| IsOpen(o, v) && o.lines[v].sock == s;
      assert IsOpen(t, v);
    }
    assert Conserved(t.lines[w]) by { assert t.lines[w].Unsent() == o.lines[w].Unsent(); }
    hide Conserved;
  }

  lemma ForcedKeeps(o: Outbox, w: nat, audience: seq<nat>, text: string)
    requires Sound(o) && Fits(text)
    ensures Sound(Forced(o, w, audience, text)) && |Forced(o, w, audience, text).lines| == |o.lines|
  {
    if IsOpen(o, w) {
      PartingKeeps(o, w, audience, text);
      hide Conserved, Parting, Fits;
      DroppedKeeps(Parting(o, w, audience, text), w);
    }
  }

  lemma PartingKeeps(o: Outbox, w: nat, audience: seq<nat>, text: string)
    requires Sound(o) && Fits(text) && w < |o.lines|
    ensures var t := Parting(o, w, audience, text);
            Sound(t) && |t.lines| == |o.lines| && t.lines[w] == o.lines[w] && t.kernel == o.kernel
  {
    hide Sound, Fits;
    if !o.lines[w].bExpired {
      SentAllKeeps(o, audience, But(w), text);
      ExceptedIsSame(o, audience, But(w), text, w);
    }
  }

  /** The lines that a broadcast leaves as they are. */
  lemma {:induction false} ExceptedIsSame(o: Outbox, members: seq<nat>, except: Except, text: string, w: nat)
    requires w < |o.lines| && (except == But(w) || o.lines[w].bExpired || w !in members)
    ensures var t := SentAll(o, members, except, text); |t.lines| == |o.lines| && t.lines[w] == o.lines[w] && t.kernel == o.kernel
  {
    if members != [] {
      ExceptedIsSame(o, members[..|members| - 1], except, text, w);
    }
  }

  lemma QuittedKeeps(o: Outbox, w: nat, audience: seq<nat>, text: string)
    requires Sound(o) && Fits(text)
    ensures Sound(Quitted(o, w, audience, text)) && |Quitted(o, w, audience, text).lines| == |o.lines|
  {
    if w < |o.lines| && !o.lines[w].bExpired {
      if o.lines[w].texts == [] {
        ForcedKeeps(o, w, audience, text);
      } else {
        var k := o.lines[w].(bExpired := true);
        assert Conserved(k) by { assert k.Unsent() == o.lines[w].Unsent(); }
        LineKeeps(o, w, k, o.regs);
        hide Sound, Fits;
        SentAllKeeps(SetLine(o, w, k), audience, But(w), text);
      }
    }
  }

  lemma WrittenKeeps(o: Outbox, w: nat, n: nat)
    requires Sound(o) && IsOpen(o, w) && n > 0 && Takes(o, w, n)
    ensures Sound(Written(o, w, n)) && |Written(o, w, n).lines| == |o.lines|
  {
    AdvancedKeeps(o.lines[w], n);
    var k := Advanced(o.lines[w], n);
    hide Conserved;
    if k.texts == [] && k.bExpired {
      SameOpen(o, SetLine(o, w, k));
      DroppedKeeps(SetLine(o, w, k), w);
    } else {
      LineKeeps(o, w, k, Written(o, w, n).regs);
    }
  }

  lemma WritingKeeps(o: Outbox, w: nat, n: int, audience: seq<nat>, text: string)
    requires Sound(o) && Fits(text)
    ensures Sound(Writing(o, w, n, audience, text)) && |Writing(o, w, n, audience, text).lines| == |o.lines|
  {
    hide Sound, Fits, Written, Forced;
    ForcedKeeps(o, w, audience, text);
    if IsOpen(o, w) && o.lines[w].texts != [] && n > 0 && Takes(o, w, n) {
      WrittenKeeps(o, w, n);
    }
  }

  lemma AppliedKeeps(o: Outbox)
    requires Sound(o)
    ensures Sound(Applied(o))
  {
    hide Conserved, Ordered, FilterAfter;
    var t := Applied(o);
    forall s | s in t.kernel ensures exists w: nat :: IsOpen(t, w) && t.lines[w].sock == s {
      var k :| k in o.lines && !k.bClosed && k.sock == s;
      var w: nat :| w < |o.lines| && o.lines[w] == k;
      assert IsOpen(t, w);
    }
  }

  lemma ConnectedKeeps(o: Outbox, sock: nat)
    requires Sound(o) && forall k :: k in o.lines && !k.bClosed ==> k.sock != sock
    ensures Sound(Connected(o, sock))
  {
    var t := Connected(o, sock);
    assert Conserved(NewLine(sock)) && Ordered(NewLine(sock));
    hide Conserved, Ordered;
    forall w | 0 <= w < |t.lines| ensures Conserved(t.lines[w]) && Ordered(t.lines[w]) {
      assert w < |o.lines| ==> t.lines[w] == o.lines[w];
    }
    forall s | s in t.kernel ensures exists w: nat :: IsOpen(t, w) && t.lines[w].sock == s {
      var w: nat :| IsOpen(o, w) && o.lines[w].sock == s;
      assert IsOpen(t, w);
    }
  }

  /** Every act keeps each client's bytes, its life and the sockets in order. */
  lemma PerformKeeps(o: Outbox, act: Act)
    requires Sound(o)
    ensures Sound(Perform(o, act)) && |Perform(o, act).lines| == |o.lines| + (if act.Accept? && Allowed(o, act) then 1 else 0)
  {
    hide Sound, Fits, Sent, SentAll, Writing, Quitted, Forced;
    if Allowed(o, act) {
      match act
      case Accept(sock) => ConnectedKeeps(o, sock);
      case SendTo(who, text) => SentKeeps(o, who, text);
      case SendToAll(members, except, text) => SentAllKeeps(o, members, except, text);
      case Write(who, n, audience, text) => WritingKeeps(o, who, n, audience, text);
      case Quit(who, audience, text) => QuittedKeeps(o, who, audience, text);
      case Close(who, audience, text) => ForcedKeeps(o, who, audience, text);
      case Apply => AppliedKeeps(o);
    }
  }

  /** Over any interleaving of enqueues, broadcasts, partial and failing sends, quits, closes and turns of the loop:
      for each client the bytes on the wire and the bytes queued are what was enqueued; closed implies expired; an
      expired client that is not closed has something to send; a socket is closed once. */
  lemma {:induction false} SoundAlways(o: Outbox, acts: seq<Act>)
    requires Sound(o)
    ensures Sound(After(o, acts)) && |After(o, acts).lines| >= |o.lines|
  {
    hide Sound, Perform, Allowed;
    if acts != [] {
      SoundAlways(o, acts[..|acts| - 1]);
      PerformKeeps(After(o, acts[..|acts| - 1]), acts[|acts| - 1]);
    }
  }

  // ----- What one client sees over a run -----

  /** From k to k' nothing sent or enqueued is taken back; an expired client gets nothing more; a closed one is left alone. */
  predicate Onward(k: Line, k': Line) {
    && k'.sock == k.sock && k.wire <= k'.wire && k.enqueued <= k'.enqueued
    && (k.bExpired ==> k'.bExpired && k'.enqueued == k.enqueued)
    && (k.bClosed ==> k' == k)
  }

  lemma SentOnward(o: Outbox, m: nat, text: string, w: nat)
    requires w < |o.lines|
    ensures |Sent(o, m, text).lines| == |o.lines| && Sent(o, m, text).kernel == o.kernel
    ensures Ordered(o.lines[w]) ==> Onward(o.lines[w], Sent(o, m, text).lines[w])
    ensures Sent(o, m, text).lines[w] == o.lines[w] || Sent(o, m, text).lines[w] == Pushed(o.lines[w], Normalised(text))
  {
    hide Normalised;
  }

  lemma {:induction false} SentAllOnward(o: Outbox, members: seq<nat>, except: Except, text: string, w: nat)
    requires w < |o.lines| && Ordered(o.lines[w])
    ensures var t := SentAll(o, members, except, text);
            && |t.lines| == |o.lines| && t.kernel == o.kernel && Onward(o.lines[w], t.lines[w]) && Ordered(t.lines[w])
            && t.lines[w].bExpired == o.lines[w].bExpired && t.lines[w].bClosed == o.lines[w].bClosed && t.lines[w].wire == o.lines[w].wire
            && (o.lines[w].texts != [] ==> t.lines[w].texts != [])
  {
    hide Sent, Normalised;
    if members != [] {
      var init := members[..|members| - 1];
      SentAllOnward(o, init, except, text, w);
      SentOnward(SentAll(o, init, except, text), members[|members| - 1], text, w);
    }
  }

  lemma ForcedOnward(o: Outbox, v: nat, audience: seq<nat>, text: string, w: nat)
    requires w < |o.lines| && Ordered(o.lines[w])
    ensures var t := Forced(o, v, audience, text); |t.lines| == |o.lines| && Onward(o.lines[w], t.lines[w])
    ensures Forced(o, v, audience, text).lines[w].wire == o.lines[w].wire
  {
    hide SentAll, Removed;
    SentAllOnward(o, audience, But(v), text, w);
  }

  lemma {:induction false} StepOnward(o: Outbox, act: Act, w: nat)
    requires w < |o.lines| && Ordered(o.lines[w])
    ensures |Perform(o, act).lines| >= |o.lines| && Onward(o.lines[w], Perform(o, act).lines[w])
  {
    hide SentAll, Sent, Forced, Removed, Fits, Normalised, Ordered;
    match act
    case Accept(sock) =>
    case SendTo(who, text) => SentOnward(o, who, text, w);
    case SendToAll(members, except, text) => SentAllOnward(o, members, except, text, w);
    case Write(who, n, audience, text) => WritingOnward(o, who, n, audience, text, w);
    case Quit(who, audience, text) => QuittedOnward(o, who, audience, text, w);
    case Close(who, audience, text) => ForcedOnward(o, who, audience, text, w);
    case Apply =>
  }

  lemma WritingOnward(o: Outbox, v: nat, n: int, audience: seq<nat>, text: string, w: nat)
    requires w < |o.lines| && Ordered(o.lines[w])
    ensures var t := Writing(o, v, n, audience, text); |t.lines| == |o.lines| && Onward(o.lines[w], t.lines[w])
  {
    hide Forced, Removed;
    ForcedOnward(o, v, audience, text, w);
  }

  lemma QuittedOnward(o: Outbox, v: nat, audience: seq<nat>, text: string, w: nat)
    requires w < |o.lines| && Ordered(o.lines[w])
    ensures var t := Quitted(o, v, audience, text); |t.lines| == |o.lines| && Onward(o.lines[w], t.lines[w])
  {
    hide Forced, SentAll;
    if v < |o.lines| && !o.lines[v].bExpired {
      if o.lines[v].texts == [] {
        ForcedOnward(o, v, audience, text, w);
      } else {
        SentAllOnward(SetLine(o, v, o.lines[v].(bExpired := true)), audience, But(v), text, w);
      }
    }
  }

  /** Over any run a client's bytes on the wire only grow, as do those enqueued for it until it expires; from then on
      what is left to send only shrinks from the front; once closed nothing changes any more. */
  lemma {:induction false} RunOnward(o: Outbox, acts: seq<Act>, w: nat)
    requires Sound(o) && w < |o.lines|
    ensures var t := After(o, acts); w < |t.lines| && Onward(o.lines[w], t.lines[w])
    ensures var k, k' := o.lines[w], After(o, acts).lines[w];
            k.bExpired ==> |k'.Unsent()| <= |k.Unsent()| && k'.Unsent() == k.Unsent()[|k.Unsent()| - |k'.Unsent()|..]
  {
    SoundAlways(o, acts);
    RunGoesOn(o, acts, w);
    hide Concat, Perform;
    var k, k' := o.lines[w], After(o, acts).lines[w];
    assert Conserved(k) && Conserved(k');
    if k.bExpired {
      Suffix(k.wire, k.Unsent(), k'.wire, k'.Unsent());
    }
  }

  lemma Suffix(a: string, b: string, a': string, b': string)
    requires a + b == a' + b' && a <= a'
    ensures |b'| <= |b| && b' == b[|b| - |b'|..]
  {
    assert |a| + |b| == |a + b| == |a' + b'| == |a'| + |b'|;
    assert b' == (a' + b')[|a'|..] && b[|a'| - |a|..] == (a + b)[|a'|..];
  }

  lemma {:induction false} RunGoesOn(o: Outbox, acts: seq<Act>, w: nat)
    requires Sound(o) && w < |o.lines|
    ensures var t := After(o, acts); w < |t.lines| && Onward(o.lines[w], t.lines[w])
  {
    hide Perform;
    if acts != [] {
      var init := acts[..|acts| - 1];
      RunGoesOn(o, init, w);
      SoundAlways(o, init);
      assert Ordered(After(o, init).lines[w]);
      hide Sound, Ordered;
      StepOnward(After(o, init), acts[|acts| - 1], w);
    }
  }

  // ----- How often a broadcast reaches a member -----

  function Deliveries(o: Outbox, members: seq<nat>, except: Except, w: nat): nat {
    if members == [] || except == But(w) || w >= |o.lines| || o.lines[w].bExpired then 0
    else Deliveries(o, members[..|members| - 1], except, w) + if members[|members| - 1] == w then 1 else 0
  }

  function Times(n: nat, t: string): string {
    if n == 0 then "" else Times(n - 1, t) + t
  }

  /** Once for each of its entries in the member map, unless it is excepted or expired; nobody else gets anything. */
  lemma {:induction false} SentAllDelivers(o: Outbox, members: seq<nat>, except: Except, text: string, w: nat)
    requires w < |o.lines|
    ensures var t, n := SentAll(o, members, except, text), Deliveries(o, members, except, w);
            && |t.lines| == |o.lines| && t.lines[w].enqueued == o.lines[w].enqueued + Times(n, Normalised(text))
            && t.lines[w].bExpired == o.lines[w].bExpired && |t.lines[w].texts| == |o.lines[w].texts| + n
  {
    hide Normalised;
    if members != [] {
      var init, m := members[..|members| - 1], members[|members| - 1];
      SentAllDelivers(o, init, except, text, w);
      var t := SentAll(o, init, except, text);
      SentOnward(t, m, text, w);
      var a, b, c := o.lines[w].enqueued, Times(Deliveries(o, init, except, w), Normalised(text)), Normalised(text);
      assert a + (b + c) == (a + b) + c;
    }
  }

  /** The act sends a QUIT message: its client had not expired before. */
  predicate Parts(o: Outbox, act: Act) {
    && (act.Write? || act.Quit? || act.Close?) && act.who < |o.lines| && !o.lines[act.who].bExpired && !o.lines[act.who].bClosed
    && (act.Write? ==> act.n == -1 && o.lines[act.who].texts != [])
  }

  /** What a write event, a QUIT or a close does to any other client: it gets the QUIT message once for each of its
      entries in the audience, if one is sent, and nothing else changes for it. */
  lemma OthersGet(o: Outbox, act: Act, v: nat)
    requires Sound(o) && v < |o.lines| && (act.Write? || act.Quit? || act.Close?) && Allowed(o, act) && act.who != v
    ensures v < |Perform(o, act).lines|
    ensures var k, t, n := o.lines[v], Perform(o, act).lines[v], if Parts(o, act) then Deliveries(o, act.audience, But(act.who), v) else 0;
            && t.wire == k.wire && t.bExpired == k.bExpired && t.bClosed == k.bClosed && t.closes == k.closes
            && t.enqueued == k.enqueued + Times(n, Normalised(act.text)) && |t.texts| == |k.texts| + n
  {
    assert Ordered(o.lines[v]) && Ordered(o.lines[act.who]);
    ForcedGets(o, act.who, act.audience, act.text, v);
    if act.Quit? {
      QuittedGets(o, act.who, act.audience, act.text, v);
    }
    hide Sound, SentAll, Deliveries, Normalised, Conserved, Fits, Forced, Quitted, Ordered, Removed;
  }

  lemma ForcedGets(o: Outbox, w: nat, audience: seq<nat>, text: string, v: nat)
    requires v < |o.lines| && Ordered(o.lines[v]) && w < |o.lines| && w != v
    ensures var t, n := Forced(o, w, audience, text), if !o.lines[w].bExpired && !o.lines[w].bClosed then Deliveries(o, audience, But(w), v) else 0;
            && |t.lines| == |o.lines|
            && t.lines[v].wire == o.lines[v].wire && t.lines[v].bExpired == o.lines[v].bExpired && t.lines[v].bClosed == o.lines[v].bClosed
            && t.lines[v].closes == o.lines[v].closes
            && t.lines[v].enqueued == o.lines[v].enqueued + Times(n, Normalised(text)) && |t.lines[v].texts| == |o.lines[v].texts| + n
  {
    AudienceGets(o, audience, w, text, v);
    hide SentAll, Deliveries, Normalised, Ordered, Removed;
  }

  lemma QuittedGets(o: Outbox, w: nat, audience: seq<nat>, text: string, v: nat)
    requires v < |o.lines| && Ordered(o.lines[v]) && w < |o.lines| && w != v && Ordered(o.lines[w])
    ensures var t, n := Quitted(o, w, audience, text), if !o.lines[w].bExpired then Deliveries(o, audience, But(w), v) else 0;
            && |t.lines| == |o.lines|
            && t.lines[v].wire == o.lines[v].wire && t.lines[v].bExpired == o.lines[v].bExpired && t.lines[v].bClosed == o.lines[v].bClosed
            && t.lines[v].closes == o.lines[v].closes
            && t.lines[v].enqueued == o.lines[v].enqueued + Times(n, Normalised(text)) && |t.lines[v].texts| == |o.lines[v].texts| + n
  {
    var u := SetLine(o, w, o.lines[w].(bExpired := true));
    ForcedGets(o, w, audience, text, v);
    AudienceGets(u, audience, w, text, v);
    SameDeliveries(o, u, audience, But(w), v);
    hide SentAll, Deliveries, Normalised, Forced;
  }

  lemma AudienceGets(o: Outbox, audience: seq<nat>, w: nat, text: string, v: nat)
    requires v < |o.lines| && Ordered(o.lines[v])
    ensures var t, n := SentAll(o, audience, But(w), text), Deliveries(o, audience, But(w), v);
            && |t.lines| == |o.lines|
            && t.lines[v].wire == o.lines[v].wire && t.lines[v].bExpired == o.lines[v].bExpired && t.lines[v].bClosed == o.lines[v].bClosed
            && t.lines[v].closes == o.lines[v].closes
            && t.lines[v].enqueued == o.lines[v].enqueued + Times(n, Normalised(text)) && |t.lines[v].texts| == |o.lines[v].texts| + n
  {
    SentAllOnward(o, audience, But(w), text, v);
    SentAllDelivers(o, audience, But(w), text, v);
    SameCloses(o, audience, But(w), text, v);
    hide SentAll, Deliveries, Normalised;
  }

  lemma {:induction false} SameCloses(o: Outbox, members: seq<nat>, except: Except, text: string, v: nat)
    requires v < |o.lines|
    ensures var t := SentAll(o, members, except, text); |t.lines| == |o.lines| && t.lines[v].closes == o.lines[v].closes
  {
    hide Normalised;
    if members != [] {
      SameCloses(o, members[..|members| - 1], except, text, v);
    }
  }

  lemma {:induction false} SameDeliveries(o: Outbox, u: Outbox, members: seq<nat>, except: Except, v: nat)
    requires v < |o.lines| && v < |u.lines| && o.lines[v].bExpired == u.lines[v].bExpired
    ensures Deliveries(o, members, except, v) == Deliveries(u, members, except, v)
  {
    if members != [] {
      SameDeliveries(o, u, members[..|members| - 1], except, v);
    }
  }

  /** The registrations that a broadcast pushes: one for each member reached whose queue was empty, where it comes first. */
  function Requests(o: Outbox, members: seq<nat>, except: Except): seq<Registration> {
    if members == [] then []
    else
      var init, m := members[..|members| - 1], members[|members| - 1];
      Requests(o, init, except)
      + if except != But(m) && m !in init && m < |o.lines| && !o.lines[m].bExpired && o.lines[m].texts == []
        then [Registration(o.lines[m].sock, true, true)] else []
  }

  lemma {:induction false} SentAllRequests(o: Outbox, members: seq<nat>, except: Except, text: string)
    ensures SentAll(o, members, except, text).regs == o.regs + Requests(o, members, except)
  {
    hide Normalised, Fits;
    if members != [] {
      var init, m := members[..|members| - 1], members[|members| - 1];
      SentAllRequests(o, init, except, text);
      if m < |o.lines| {
        SentAllDelivers(o, init, except, text, m);
        SameSock(o, init, except, text, m);
        if !o.lines[m].bExpired && except != But(m) {
          NoneDelivered(o, init, except, m);
        }
      } else {
        SameCount(o, init, except, text);
      }
    }
  }

  lemma {:induction false} SameCount(o: Outbox, members: seq<nat>, except: Except, text: string)
    ensures |SentAll(o, members, except, text).lines| == |o.lines|
  {
    if members != [] {
      SameCount(o, members[..|members| - 1], except, text);
    }
  }

  lemma {:induction false} SameSock(o: Outbox, members: seq<nat>, except: Except, text: string, w: nat)
    requires w < |o.lines|
    ensures var t := SentAll(o, members, except, text); |t.lines| == |o.lines| && t.lines[w].sock == o.lines[w].sock
  {
    hide Normalised;
    if members != [] {
      SameSock(o, members[..|members| - 1], except, text, w);
    }
  }

  lemma {:induction false} NoneDelivered(o: Outbox, members: seq<nat>, except: Except, w: nat)
    requires w < |o.lines| && !o.lines[w].bExpired && except != But(w)
    ensures Deliveries(o, members, except, w) == 0 <==> w !in members
  {
    if members != [] {
      var init := members[..|members| - 1];
      NoneDelivered(o, init, except, w);
      assert members == init + [members[|members| - 1]];
    }
  }

  // ----- Wake-ups over a run -----

  /** The client's queue turned from empty to not empty or back. */
  predicate Flips(o: Outbox, t: Outbox, w: nat)
    requires w < |o.lines| && w < |t.lines|
  {
    (o.lines[w].texts == []) != (t.lines[w].texts == [])
  }

  /** The same sockets are open, and their filters are those of o. */
  lemma OthersSock(o: Outbox, v: nat, w: nat)
    requires Sound(o) && IsOpen(o, v) && IsOpen(o, w) && v != w
    ensures o.lines[v].sock != o.lines[w].sock
  {
  }

  lemma ExpiredIfClosed(o: Outbox, w: nat)
    requires Sound(o) && w < |o.lines|
    ensures Ordered(o.lines[w]) && Conserved(o.lines[w])
  {
  }

  /** A send to a client with an empty queue wakes it; no other send changes who will wake. */
  lemma SentWakes(o: Outbox, m: nat, text: string, w: nat)
    requires Sound(o) && IsOpen(o, w)
    ensures var t := Sent(o, m, text);
            && |t.lines| == |o.lines| && (WillWake(t, w) <==> WillWake(o, w) || Flips(o, t, w)) && (Awake(o, w) ==> Awake(t, w))
            && (o.lines[w].texts != [] ==> t.lines[w].texts != [])
  {
    if m < |o.lines| && !o.lines[m].bExpired {
      ExpiredIfClosed(o, m);
      if m != w {
        OthersSock(o, m, w);
      }
      hide Sound, Conserved, Normalised;
      var r, on := Registration(o.lines[m].sock, true, true), o.lines[w].sock in o.kernel;
      FilterAfterPush(on, o.regs, r, o.lines[w].sock);
      if Awake(o, w) && o.lines[m].texts == [] {
        AlternatesPush(on, o.regs, r, o.lines[w].sock);
      }
      hide FilterAfter, Alternates;
    }
  }

  lemma {:induction false} SentAllWakes(o: Outbox, members: seq<nat>, except: Except, text: string, w: nat)
    requires Sound(o) && Fits(text) && IsOpen(o, w)
    ensures var t := SentAll(o, members, except, text);
            && |t.lines| == |o.lines| && IsOpen(t, w) && (WillWake(t, w) <==> WillWake(o, w) || Flips(o, t, w)) && (Awake(o, w) ==> Awake(t, w))
            && (o.lines[w].texts != [] ==> t.lines[w].texts != [])
  {
    hide Sound, Sent, WillWake, Awake, Fits;
    if members != [] {
      var init, m := members[..|members| - 1], members[|members| - 1];
      SentAllWakes(o, init, except, text, w);
      SentAllKeeps(o, init, except, text);
      var t := SentAll(o, init, except, text);
      SentWakes(t, m, text, w);
      StaysOpen(t, m, text, w);
    }
  }

  lemma StaysOpen(o: Outbox, m: nat, text: string, w: nat)
    requires IsOpen(o, w)
    ensures IsOpen(Sent(o, m, text), w)
  {
  }

  /** A close changes the wake-ups of exactly those it overtakes. */
  lemma DroppedWakes(o: Outbox, v: nat, w: nat)
    requires OwnSockets(o) && IsOpen(o, v) && IsOpen(o, w) && v != w
    ensures var t := Dropped(o, v);
            && |t.lines| == |o.lines| && t.lines[w] == o.lines[w]
            && (WillWake(t, w) <==> (WillWake(o, w) <==> !Overtaken(o.regs, o.lines[v].sock, o.lines[w].sock)))
  {
    var on := o.lines[w].sock in o.kernel;
    OvertakingExactly(on, o.regs, o.lines[v].sock, o.lines[w].sock);
    hide Removed, FilterAfter, Overtaken;
  }

  /** A client with at most one registration pending is not overtaken. */
  lemma DroppedSpares(o: Outbox, v: nat, w: nat)
    requires OwnSockets(o) && IsOpen(o, v) && IsOpen(o, w) && v != w && Pending(o.regs, o.lines[w].sock) <= 1
    ensures !Overtaken(o.regs, o.lines[v].sock, o.lines[w].sock) && (Awake(o, w) ==> Awake(Dropped(o, v), w))
  {
    var on, s, q := o.lines[w].sock in o.kernel, o.lines[v].sock, o.regs;
    RemovalKeepsFilter(on, q, s, o.lines[w].sock);
    OvertakingExactly(on, q, s, o.lines[w].sock);
    OthersKeepEntries(q, s, 0, o.lines[w].sock);
    hide Removed, FilterAfter, Overtaken;
    if Awake(o, w) {
      AlternatesWithOneEntry(on, q, o.lines[w].sock, Removed(q, s, 0));
    }
  }

  lemma WrittenWakes(o: Outbox, v: nat, n: nat, w: nat)
    requires Sound(o) && IsOpen(o, v) && n > 0 && Takes(o, v, n) && IsOpen(o, w)
    requires !(Advanced(o.lines[v], n).texts == [] && o.lines[v].bExpired)
    ensures var t := Written(o, v, n);
            |t.lines| == |o.lines| && (WillWake(t, w) <==> WillWake(o, w) || Flips(o, t, w)) && (Awake(o, w) ==> Awake(t, w))
  {
    if v != w {
      OthersSock(o, v, w);
    }
    hide Sound;
    var r, on := Registration(o.lines[v].sock, true, false), o.lines[w].sock in o.kernel;
    FilterAfterPush(on, o.regs, r, o.lines[w].sock);
    if Awake(o, w) && Advanced(o.lines[v], n).texts == [] {
      AlternatesPush(on, o.regs, r, o.lines[w].sock);
    }
    hide FilterAfter, Alternates;
  }

  /** The turn of the loop makes the filters what they were going to be, and makes order of them again. */
  lemma AppliedWakes(o: Outbox, w: nat)
    requires Sound(o) && IsOpen(o, w)
    ensures var t := Applied(o); IsOpen(t, w) && (Awake(t, w) <==> WillWake(o, w)) && (WillWake(t, w) <==> WillWake(o, w)) && (Awake(o, w) ==> Awake(t, w))
    ensures Applied(o).lines == o.lines && (o.lines[w].sock in Applied(o).kernel <==> FilterAfter(o.lines[w].sock in o.kernel, o.regs, o.lines[w].sock))
  {
    var k, t := o.lines[w], Applied(o);
    assert k in o.lines;
    forall d | d in o.lines && !d.bClosed && d.sock == k.sock ensures d == k {
      var v: nat :| v < |o.lines| && o.lines[v] == d;
      if v != w {
        OthersSock(o, v, w);
      }
    }
    hide Sound;
  }

  /** A new connection leaves the others as they are; it is itself as it should be exactly if no leftover of a closed
      client that had its socket asks for the filter. */
  lemma ConnectedWakes(o: Outbox, sock: nat, w: nat)
    requires Sound(o) && (forall k :: k in o.lines && !k.bClosed ==> k.sock != sock) && w <= |o.lines|
    ensures var t := Connected(o, sock);
            && (IsOpen(o, w) ==> (WillWake(t, w) <==> WillWake(o, w)) && (Awake(o, w) ==> Awake(t, w)))
            && (w == |o.lines| ==> (WillWake(t, w) <==> !FilterAfter(false, o.regs, sock)))
  {
    var r := Registration(sock, false, true);
    var s := Connected(o, sock).lines[w].sock;
    FilterAfterPush(s in o.kernel, o.regs, r, s);
    if w < |o.lines| && Awake(o, w) {
      AlternatesPush(s in o.kernel, o.regs, r, s);
    }
    NotInKernel(o, sock);
    hide Sound, FilterAfter;
  }

  lemma NotInKernel(o: Outbox, sock: nat)
    requires KernelKnows(o) && forall k :: k in o.lines && !k.bClosed ==> k.sock != sock
    ensures sock !in o.kernel
  {
    forall s | s in o.kernel ensures s != sock {
      var v: nat :| IsOpen(o, v) && o.lines[v].sock == s;
      assert o.lines[v] in o.lines;
    }
  }

  // ----- Closing acts -----

  /** The act closes the client. */
  predicate Cuts(o: Outbox, act: Act, v: nat) {
    && Allowed(o, act) && IsOpen(o, v)
    && match act
       case Close(who, _, _) => who == v
       case Quit(who, _, _) => who == v && !o.lines[v].bExpired && o.lines[v].texts == []
       case Write(who, n, _, _) => who == v && o.lines[v].texts != [] && (n == -1 || (n > 0 && Takes(o, v, n) && LastBytes(o, v, n)))
       case _ => false
  }

  /** The n bytes are the last of an expired client. */
  predicate LastBytes(o: Outbox, v: nat, n: nat)
    requires Takes(o, v, n)
  {
    o.lines[v].bExpired && Advanced(o.lines[v], n).texts == []
  }

  /** The registrations pending when it does: after those of the QUIT message, unless the client had expired before. */
  function CutRegs(o: Outbox, act: Act): seq<Registration> {
    match act
    case Close(who, audience, _) => o.regs + PartingRequests(o, who, audience)
    case Quit(who, audience, _) => o.regs + PartingRequests(o, who, audience)
    case Write(who, n, audience, _) => o.regs + if n == -1 then PartingRequests(o, who, audience) else []
    case _ => o.regs
  }

  function PartingRequests(o: Outbox, v: nat, audience: seq<nat>): seq<Registration> {
    if v < |o.lines| && !o.lines[v].bExpired then Requests(o, audience, But(v)) else []
  }

  lemma CutsCloses(o: Outbox, act: Act, v: nat)
    requires Sound(o) && IsOpen(o, v)
    ensures v < |Perform(o, act).lines| && (Cuts(o, act, v) <==> !IsOpen(Perform(o, act), v))
  {
    ExpiredIfClosed(o, v);
    hide Sound, SentAll, Sent, Removed, Fits, Normalised, Conserved, Ordered;
    match act
    case Accept(sock) =>
    case SendTo(who, text) => SentOnward(o, who, text, v); StaysOpen(o, who, text, v);
    case SendToAll(members, except, text) => SentAllOnward(o, members, except, text, v);
    case Write(who, n, audience, text) => WriteCloses(o, who, n, audience, text, v);
    case Quit(who, audience, text) => QuitCloses(o, who, audience, text, v);
    case Close(who, audience, text) => SentAllOnward(o, audience, But(who), text, v);
    case Apply =>
  }

  lemma QuitCloses(o: Outbox, who: nat, audience: seq<nat>, text: string, v: nat)
    requires Sound(o) && IsOpen(o, v)
    ensures var t := Quitted(o, who, audience, text);
            v < |t.lines| && (who == v && !o.lines[v].bExpired && o.lines[v].texts == [] <==> !IsOpen(t, v))
  {
    ExpiredIfClosed(o, v);
    hide Sound, SentAll, Removed, Normalised, Conserved;
    if who < |o.lines| && !o.lines[who].bExpired {
      SentAllOnward(o, audience, But(who), text, v);
      if o.lines[who].texts != [] {
        SentAllOnward(SetLine(o, who, o.lines[who].(bExpired := true)), audience, But(who), text, v);
      }
    }
  }

  lemma WriteCloses(o: Outbox, who: nat, n: int, audience: seq<nat>, text: string, v: nat)
    requires Sound(o) && IsOpen(o, v)
    ensures var t := Writing(o, who, n, audience, text);
            v < |t.lines| &&
            (who == v && o.lines[v].texts != [] && (n == -1 || (n > 0 && Takes(o, v, n) && LastBytes(o, v, n))) <==> !IsOpen(t, v))
  {
    ExpiredIfClosed(o, v);
    hide Sound, SentAll, Removed, Normalised, Conserved;
    SentAllOnward(o, audience, But(who), text, v);
  }

  /** A client is closed exactly by the acts that close it, and expires by them and by its QUIT. */
  lemma PerformFlags(o: Outbox, act: Act, v: nat)
    requires Sound(o) && v < |o.lines|
    ensures v < |Perform(o, act).lines|
    ensures var k := Perform(o, act).lines[v];
            && k.bClosed == (o.lines[v].bClosed || Cuts(o, act, v))
            && k.bExpired == (o.lines[v].bExpired || Cuts(o, act, v) || (act.Quit? && act.who == v && Allowed(o, act)))
  {
    ExpiredIfClosed(o, v);
    StepOnward(o, act, v);
    if IsOpen(o, v) {
      CutsCloses(o, act, v);
      PerformKeeps(o, act);
      ExpiredIfClosed(Perform(o, act), v);
      hide Sound, Conserved;
      if !o.lines[v].bExpired && !Cuts(o, act, v) {
        ExpiresByQuit(o, act, v);
      }
    } else {
      hide Sound, Perform, Conserved;
    }
  }

  lemma ExpiresByQuit(o: Outbox, act: Act, v: nat)
    requires IsOpen(o, v) && !o.lines[v].bExpired && Ordered(o.lines[v]) && !Cuts(o, act, v)
    ensures v < |Perform(o, act).lines|
    ensures Perform(o, act).lines[v].bExpired == (act.Quit? && act.who == v && Allowed(o, act))
  {
    hide SentAll, Sent, Removed, Fits, Normalised, Ordered;
    match act
    case Accept(sock) =>
    case SendTo(who, text) => SentOnward(o, who, text, v); SentExpires(o, who, text, v);
    case SendToAll(members, except, text) => SentAllOnward(o, members, except, text, v);
    case Write(who, n, audience, text) => SentAllOnward(o, audience, But(who), text, v);
    case Quit(who, audience, text) =>
      if Allowed(o, act) {
        QuitExpires(o, who, audience, text, v);
      }
    case Close(who, audience, text) => SentAllOnward(o, audience, But(who), text, v);
    case Apply =>
  }

  lemma SentExpires(o: Outbox, m: nat, text: string, v: nat)
    requires v < |o.lines|
    ensures |Sent(o, m, text).lines| == |o.lines| && Sent(o, m, text).lines[v].bExpired == o.lines[v].bExpired
  {
    hide Normalised;
  }

  lemma QuitExpires(o: Outbox, who: nat, audience: seq<nat>, text: string, v: nat)
    requires IsOpen(o, v) && !o.lines[v].bExpired && Ordered(o.lines[v]) && who < |o.lines| && (who == v ==> o.lines[v].texts != [])
    ensures var t := Quitted(o, who, audience, text); v < |t.lines| && t.lines[v].bExpired == (who == v)
  {
    hide SentAll, Removed, Normalised;
    if !o.lines[who].bExpired {
      SentAllOnward(o, audience, But(who), text, v);
      if o.lines[who].texts != [] {
        SentAllOnward(SetLine(o, who, o.lines[who].(bExpired := true)), audience, But(who), text, v);
      }
    }
  }

  /** Which state the close itself starts from. */
  function CutFrom(o: Outbox, act: Act): Outbox {
    match act
    case Close(who, audience, text) => Parting(o, who, audience, text)
    case Quit(who, audience, text) => Parting(o, who, audience, text)
    case Write(who, n, audience, text) =>
      if n == -1 then Parting(o, who, audience, text)
      else if n > 0 && Takes(o, who, n) then SetLine(o, who, Advanced(o.lines[who], n)) else o
    case _ => o
  }

  lemma PerformCut(o: Outbox, act: Act, v: nat)
    requires Cuts(o, act, v)
    ensures Perform(o, act) == DroppedIn(CutFrom(o, act), v)
  {
    hide SentAll, Dropped, Fits;
  }

  lemma CutFromIs(o: Outbox, act: Act, v: nat, w: nat)
    requires Sound(o) && Cuts(o, act, v) && IsOpen(o, w) && v != w
    ensures var m := CutFrom(o, act);
            && |m.lines| == |o.lines| && OwnSockets(m) && IsOpen(m, v) && IsOpen(m, w) && m.regs == CutRegs(o, act)
            && m.lines[v].sock == o.lines[v].sock && m.lines[w].sock == o.lines[w].sock
            && (WillWake(m, w) <==> WillWake(o, w) || Flips(o, m, w)) && (Awake(o, w) ==> Awake(m, w))
  {
    ExpiredIfClosed(o, v);
    ExpiredIfClosed(o, w);
    if act.Write? && act.n != -1 {
      hide SentAll, Removed, Conserved, FilterAfter, KernelKnows;
      SameOpenSockets(o, v, Advanced(o.lines[v], act.n));
    } else {
      CutAllows(o, act, v);
      hide Cuts, Allowed, Ordered, Conserved, FilterAfter;
      PartingIs(o, v, act.audience, act.text, w);
      hide Sound, Parting, PartingRequests;
    }
  }

  lemma CutAllows(o: Outbox, act: Act, v: nat)
    requires Cuts(o, act, v)
    ensures (act.Write? || act.Quit? || act.Close?) && act.who == v && Fits(act.text)
  {
  }

  lemma SameOpenSockets(o: Outbox, v: nat, k: Line)
    requires OwnSockets(o) && IsOpen(o, v) && k.sock == o.lines[v].sock && !k.bClosed
    ensures OwnSockets(SetLine(o, v, k))
  {
  }

  lemma PartingIs(o: Outbox, v: nat, audience: seq<nat>, text: string, w: nat)
    requires Sound(o) && IsOpen(o, v) && IsOpen(o, w) && v != w && Fits(text)
    ensures var m := Parting(o, v, audience, text);
            && |m.lines| == |o.lines| && OwnSockets(m) && IsOpen(m, v) && IsOpen(m, w) && m.regs == o.regs + PartingRequests(o, v, audience)
            && m.lines[v].sock == o.lines[v].sock && m.lines[w].sock == o.lines[w].sock
            && (WillWake(m, w) <==> WillWake(o, w) || Flips(o, m, w)) && (Awake(o, w) ==> Awake(m, w))
  {
    ExpiredIfClosed(o, v);
    ExpiredIfClosed(o, w);
    PartingKeeps(o, v, audience, text);
    var m := Parting(o, v, audience, text);
    SoundHas(m);
    hide Sound, Conserved, Ordered, FilterAfter, Fits, Normalised, OwnSockets;
    if o.lines[v].bExpired {
      assert m == o && o.regs + [] == o.regs;
    } else {
      SentAllRequests(o, audience, But(v), text);
      SentAllWakes(o, audience, But(v), text, w);
      SameSock(o, audience, But(v), text, w);
    }
    hide SentAll;
  }

  lemma SoundHas(o: Outbox)
    requires Sound(o)
    ensures OwnSockets(o)
  {
  }

  /** One act, exactly, for any open client. If nobody is closed, the client will wake as before, or because its queue
      turned from empty to not empty or back. If somebody is, that is so up to the overtaking: it ends up the other way
      round for exactly those that the removal overtakes. */
  lemma StepWakes(o: Outbox, act: Act, w: nat)
    requires Sound(o) && IsOpen(o, w) && !Cuts(o, act, w)
    ensures w < |Perform(o, act).lines|
    ensures var t := Perform(o, act);
            && ((forall v: nat :: !Cuts(o, act, v)) ==> (WillWake(t, w) <==> WillWake(o, w) || Flips(o, t, w)))
            && forall v: nat :: Cuts(o, act, v) ==>
                 (WillWake(t, w) <==> ((WillWake(o, w) || Flips(o, t, w)) <==> !Overtaken(CutRegs(o, act), o.lines[v].sock, o.lines[w].sock)))
  {
    ExpiredIfClosed(o, w);
    hide Sound, WillWake, Conserved, Ordered, Fits, CutRegs;
    if v: nat :| Cuts(o, act, v) {
      PerformCut(o, act, v);
      CutFromIs(o, act, v, w);
      CutsOne(o, act, v);
      hide Cuts, CutFrom, Perform, Dropped, Overtaken;
      DroppedWakes(CutFrom(o, act), v, w);
    } else {
      UncutWakes(o, act, w);
    }
  }

  lemma CutsOne(o: Outbox, act: Act, v: nat)
    requires Cuts(o, act, v)
    ensures forall u: nat :: Cuts(o, act, u) <==> u == v
  {
  }

  lemma UncutWakes(o: Outbox, act: Act, w: nat)
    requires Sound(o) && IsOpen(o, w) && forall v: nat :: !Cuts(o, act, v)
    ensures var t := Perform(o, act);
            w < |t.lines| && (WillWake(t, w) <==> WillWake(o, w) || Flips(o, t, w)) && (Awake(o, w) ==> Awake(t, w))
  {
    hide Sound, WillWake, Awake, Sent, SentAll, Connected, Applied, Fits, Writing, Quitted, Forced;
    if Allowed(o, act) {
      match act
      case Accept(sock) => ConnectedWakes(o, sock, w); ConnectedSame(o, sock, w);
      case SendTo(who, text) => SentWakes(o, who, text, w);
      case SendToAll(members, except, text) => SentAllWakes(o, members, except, text, w);
      case Write(who, n, audience, text) => UncutWriting(o, who, n, audience, text, w);
      case Quit(who, audience, text) => UncutQuit(o, who, audience, text, w);
      case Close(who, audience, text) => assert !Cuts(o, act, who); ForcedNothing(o, who, audience, text);
      case Apply => AppliedWakes(o, w);
    }
  }

  lemma ConnectedSame(o: Outbox, sock: nat, w: nat)
    requires w < |o.lines|
    ensures w < |Connected(o, sock).lines| && Connected(o, sock).lines[w] == o.lines[w]
  {
  }

  lemma ForcedNothing(o: Outbox, v: nat, audience: seq<nat>, text: string)
    requires !IsOpen(o, v)
    ensures Forced(o, v, audience, text) == o
  {
  }

  lemma UncutWriting(o: Outbox, v: nat, n: int, audience: seq<nat>, text: string, w: nat)
    requires Sound(o) && IsOpen(o, w) && Allowed(o, Write(v, n, audience, text)) && !Cuts(o, Write(v, n, audience, text), v)
    ensures var t := Writing(o, v, n, audience, text);
            w < |t.lines| && (WillWake(t, w) <==> WillWake(o, w) || Flips(o, t, w)) && (Awake(o, w) ==> Awake(t, w))
  {
    hide Sound, WillWake, Awake, Written, Forced, Fits;
    if IsOpen(o, v) && o.lines[v].texts != [] && n > 0 && Takes(o, v, n) {
      WrittenWakes(o, v, n, w);
    }
  }

  lemma UncutQuit(o: Outbox, v: nat, audience: seq<nat>, text: string, w: nat)
    requires Sound(o) && IsOpen(o, w) && Allowed(o, Quit(v, audience, text)) && !Cuts(o, Quit(v, audience, text), v)
    ensures var t := Quitted(o, v, audience, text);
            w < |t.lines| && (WillWake(t, w) <==> WillWake(o, w) || Flips(o, t, w)) && (Awake(o, w) ==> Awake(t, w))
  {
    if v < |o.lines| && !o.lines[v].bExpired {
      ExpiredIfClosed(o, v);
      var k := o.lines[v].(bExpired := true);
      assert Conserved(k) by { assert k.Unsent() == o.lines[v].Unsent(); }
      LineKeeps(o, v, k, o.regs);
      var u := SetLine(o, v, k);
      ExpiredSame(o, v, w);
      hide Sound, Conserved, WillWake, Awake, SentAll, Forced;
      SentAllWakes(u, audience, But(v), text, w);
    }
  }

  lemma ExpiredSame(o: Outbox, v: nat, w: nat)
    requires IsOpen(o, w) && v < |o.lines|
    ensures var u := SetLine(o, v, o.lines[v].(bExpired := true));
            IsOpen(u, w) && (WillWake(u, w) <==> WillWake(o, w)) && !Flips(o, u, w) && (Awake(o, w) ==> Awake(u, w))
            && u.lines[w].texts == o.lines[w].texts
  {
  }

  /** A client that has at most one registration pending when another is closed is not overtaken, and its changes go
      on turning the filter over. */
  lemma LightlyPending(o: Outbox, act: Act, w: nat)
    requires Sound(o) && IsOpen(o, w) && !Cuts(o, act, w)
    requires Pending(CutRegs(o, act), o.lines[w].sock) <= 1
    ensures !Overtakes(o, act, w) && w < |Perform(o, act).lines| && (Awake(o, w) ==> Awake(Perform(o, act), w))
  {
    hide Sound, WillWake, Awake, Fits, CutRegs, Pending;
    if v: nat :| Cuts(o, act, v) {
      PerformCut(o, act, v);
      CutFromIs(o, act, v, w);
      CutsOne(o, act, v);
      hide Cuts, CutFrom, Perform, Dropped, Overtaken;
      DroppedSpares(CutFrom(o, act), v, w);
      DroppedSame(CutFrom(o, act), v);
    } else {
      UncutWakes(o, act, w);
    }
  }

  lemma DroppedSame(o: Outbox, v: nat)
    requires v < |o.lines|
    ensures |Dropped(o, v).lines| == |o.lines|
  {
  }

  /** The act closes a client, and that overtakes w. */
  ghost predicate Overtakes(o: Outbox, act: Act, w: nat)
    requires w < |o.lines|
  {
    exists v: nat :: v != w && Cuts(o, act, v) && Overtaken(CutRegs(o, act), o.lines[v].sock, o.lines[w].sock)
  }

  /** No act of the run overtakes w. */
  ghost predicate NeverOvertaken(o: Outbox, acts: seq<Act>, w: nat) {
    forall i :: 0 <= i < |acts| ==> w < |After(o, acts[..i]).lines| ==> !Overtakes(After(o, acts[..i]), acts[i], w)
  }

  lemma NeverBefore(o: Outbox, acts: seq<Act>, w: nat)
    requires acts != [] && NeverOvertaken(o, acts, w)
    ensures NeverOvertaken(o, acts[..|acts| - 1], w)
    ensures w < |After(o, acts[..|acts| - 1]).lines| ==> !Overtakes(After(o, acts[..|acts| - 1]), acts[|acts| - 1], w)
  {
    var init := acts[..|acts| - 1];
    hide After, Overtakes;
    forall i | 0 <= i < |init| ensures w < |After(o, init[..i]).lines| ==> !Overtakes(After(o, init[..i]), init[i], w) {
      assert init[..i] == acts[..i];
    }
  }

  /** No lost wake-up: over any run, whatever happens to others, a client that no close overtakes will wake as long as
      it is open: its filter is going to be on exactly while it has something to send. */
  lemma {:induction false} NoLostWakeUp(o: Outbox, acts: seq<Act>, w: nat)
    requires Sound(o) && IsOpen(o, w) && WillWake(o, w) && NeverOvertaken(o, acts, w) && IsOpen(After(o, acts), w)
    ensures WillWake(After(o, acts), w)
  {
    hide Sound, WillWake, NeverOvertaken, Perform, Cuts, Overtaken, CutRegs;
    if acts != [] {
      var init, act := acts[..|acts| - 1], acts[|acts| - 1];
      var m := After(o, init);
      NeverBefore(o, acts, w);
      SoundAlways(o, init);
      OpenBefore(m, act, w);
      NoLostWakeUp(o, init, w);
      CutsCloses(m, act, w);
      StepWakes(m, act, w);
    }
  }

  /** So of a new connection, if no leftover of a closed client that had its socket asks for the filter. */
  lemma NewClientWakes(o: Outbox, sock: nat, acts: seq<Act>)
    requires Sound(o) && Allowed(o, Accept(sock)) && !FilterAfter(false, o.regs, sock)
    requires var t, w := Connected(o, sock), |o.lines|; NeverOvertaken(t, acts, w) && IsOpen(After(t, acts), w)
    ensures WillWake(After(Connected(o, sock), acts), |o.lines|)
  {
    ConnectedWakes(o, sock, |o.lines|);
    ConnectedKeeps(o, sock);
    hide Sound, WillWake, NeverOvertaken, FilterAfter;
    NoLostWakeUp(Connected(o, sock), acts, |o.lines|);
  }

  lemma OpenBefore(o: Outbox, act: Act, w: nat)
    requires Sound(o) && IsOpen(Perform(o, act), w) && w < |o.lines|
    ensures IsOpen(o, w)
  {
    ExpiredIfClosed(o, w);
    StepOnward(o, act, w);
    hide Sound, Perform;
  }

  // ----- A lost wake-up -----

  /** The client has something to send, its filter is off and no pending change is going to turn it on. */
  ghost predicate Stuck(o: Outbox, w: nat) {
    && IsOpen(o, w) && o.lines[w].texts != [] && o.lines[w].sock !in o.kernel
    && NoChange(o.regs, o.lines[w].sock, 0, |o.regs|)
  }

  /** The kernel reports write events only of sockets whose filter is on. */
  predicate Reported(o: Outbox, act: Act) {
    act.Write? && act.who < |o.lines| ==> o.lines[act.who].sock in o.kernel
  }

  /** At the turn of the loop a client with something to send gets stuck exactly if its wake-up is lost. */
  lemma LostIsStuck(o: Outbox, w: nat)
    requires Sound(o) && IsOpen(o, w) && o.lines[w].texts != []
    ensures Stuck(Applied(o), w) <==> !WillWake(o, w)
  {
    AppliedWakes(o, w);
    hide Sound, FilterAfter;
  }

  lemma SentStuck(o: Outbox, m: nat, text: string, w: nat)
    requires Sound(o) && Stuck(o, w)
    ensures var t := Sent(o, m, text); Stuck(t, w) && t.lines[w].wire == o.lines[w].wire
  {
    SentOnward(o, m, text, w);
    if m < |o.lines| && !o.lines[m].bExpired {
      ExpiredIfClosed(o, m);
      if m != w {
        OthersSock(o, m, w);
      }
    }
    hide Sound, Normalised;
  }

  lemma {:induction false} SentAllStuck(o: Outbox, members: seq<nat>, except: Except, text: string, w: nat)
    requires Sound(o) && Fits(text) && Stuck(o, w)
    ensures var t := SentAll(o, members, except, text); Stuck(t, w) && t.lines[w].wire == o.lines[w].wire && |t.lines| == |o.lines|
  {
    hide Sound, Sent, Fits, Stuck;
    StuckIsOpen(o, w);
    if members != [] {
      var init := members[..|members| - 1];
      SentAllStuck(o, init, except, text, w);
      SentAllKeeps(o, init, except, text);
      SentStuck(SentAll(o, init, except, text), members[|members| - 1], text, w);
      StuckIsOpen(SentAll(o, init, except, text), w);
      SentOnward(SentAll(o, init, except, text), members[|members| - 1], text, w);
    }
  }

  lemma StuckIsOpen(o: Outbox, w: nat)
    requires Stuck(o, w)
    ensures IsOpen(o, w) && w < |o.lines|
  {
  }

  lemma DroppedStuck(o: Outbox, v: nat, w: nat)
    requires OwnSockets(o) && IsOpen(o, v) && v != w && Stuck(o, w)
    ensures var t := Dropped(o, v); Stuck(t, w) && t.lines[w].wire == o.lines[w].wire
  {
    var s, q := o.lines[w].sock, o.regs;
    assert o.lines[v].sock != s;
    OthersKeepEntries(q, o.lines[v].sock, 0, s);
    var r := Removed(q, o.lines[v].sock, 0);
    hide Removed;
    forall i | 0 <= i < |r| ensures !ChangesWrite(r[i], s) {
      assert r[i] in r;
      assert r[i].ident == s ==> r[i] in q;
    }
  }

  lemma ForcedStuck(o: Outbox, v: nat, audience: seq<nat>, text: string, w: nat)
    requires Sound(o) && Fits(text) && Stuck(o, w) && v != w
    ensures var t := Forced(o, v, audience, text); Stuck(t, w) && t.lines[w].wire == o.lines[w].wire && |t.lines| == |o.lines|
  {
    if IsOpen(o, v) {
      PartingKeeps(o, v, audience, text);
      SoundHas(Parting(o, v, audience, text));
      if !o.lines[v].bExpired {
        SentAllStuck(o, audience, But(v), text, w);
      }
      hide Sound, Fits, Stuck, OwnSockets, SentAll;
      DroppedStuck(Parting(o, v, audience, text), v, w);
      StuckIsOpen(o, w);
    }
  }

  lemma QuittedStuck(o: Outbox, v: nat, audience: seq<nat>, text: string, w: nat)
    requires Sound(o) && Fits(text) && Stuck(o, w)
    ensures var t := Quitted(o, v, audience, text); Stuck(t, w) && t.lines[w].wire == o.lines[w].wire
  {
    if v < |o.lines| && !o.lines[v].bExpired {
      if o.lines[v].texts == [] {
        assert v != w;
        ForcedStuck(o, v, audience, text, w);
      } else {
        var k := o.lines[v].(bExpired := true);
        ExpiredIfClosed(o, v);
        assert Conserved(k) by { assert k.Unsent() == o.lines[v].Unsent(); }
        LineKeeps(o, v, k, o.regs);
        hide Sound, Conserved, Fits;
        SentAllStuck(SetLine(o, v, k), audience, But(v), text, w);
      }
    }
  }

  lemma WritingStuck(o: Outbox, v: nat, n: int, audience: seq<nat>, text: string, w: nat)
    requires Sound(o) && Fits(text) && Stuck(o, w) && v != w
    ensures var t := Writing(o, v, n, audience, text); Stuck(t, w) && t.lines[w].wire == o.lines[w].wire
  {
    ForcedStuck(o, v, audience, text, w);
    hide Forced, Conserved, Fits;
    if IsOpen(o, v) && o.lines[v].texts != [] && n > 0 && Takes(o, v, n) {
      OthersSock(o, v, w);
      var t := SetLine(o, v, Advanced(o.lines[v], n));
      SameOpenSockets(o, v, t.lines[v]);
      hide Sound;
      if t.lines[v].texts == [] && t.lines[v].bExpired {
        DroppedStuck(t, v, w);
      }
    }
  }

  lemma AppliedStuck(o: Outbox, w: nat)
    requires Sound(o) && Stuck(o, w)
    ensures Stuck(Applied(o), w) && Applied(o).lines == o.lines
  {
    FilterQuiet(false, o.regs, o.lines[w].sock);
    LostIsStuck(o, w);
    hide Sound, FilterAfter;
  }

  lemma ConnectedStuck(o: Outbox, sock: nat, w: nat)
    requires Stuck(o, w)
    ensures var t := Connected(o, sock); Stuck(t, w) && t.lines[w] == o.lines[w]
  {
  }

  /** While write events come only from filters that are on, nothing but its own close changes that. */
  lemma StuckStays(o: Outbox, act: Act, w: nat)
    requires Sound(o) && Stuck(o, w) && Reported(o, act) && !Cuts(o, act, w)
    ensures var t := Perform(o, act); Stuck(t, w) && t.lines[w].wire == o.lines[w].wire
  {
    StuckIsOpen(o, w);
    NoReport(o, act, w);
    if act.Close? && act.who == w {
      assert !Allowed(o, act);
    }
    hide Sound, Cuts, Sent, SentAll, Connected, Applied, Fits, Writing, Quitted, Forced, Stuck;
    if Allowed(o, act) {
      match act
      case Accept(sock) => ConnectedStuck(o, sock, w);
      case SendTo(who, text) => SentStuck(o, who, text, w);
      case SendToAll(members, except, text) => SentAllStuck(o, members, except, text, w);
      case Write(who, n, audience, text) => WritingStuck(o, who, n, audience, text, w);
      case Quit(who, audience, text) => QuittedStuck(o, who, audience, text, w);
      case Close(who, audience, text) => ForcedStuck(o, who, audience, text, w);
      case Apply => AppliedStuck(o, w);
    }
  }

  lemma NoReport(o: Outbox, act: Act, w: nat)
    requires Stuck(o, w) && Reported(o, act)
    ensures act.Write? ==> act.who != w
  {
  }

  /** So a client whose wake-up is lost gets not one byte more over any run, however much is enqueued for it, until
      something else closes it. */
  lemma {:induction false} StuckForGood(o: Outbox, acts: seq<Act>, w: nat)
    requires Sound(o) && Stuck(o, w) && IsOpen(After(o, acts), w)
    requires forall i :: 0 <= i < |acts| ==> Reported(After(o, acts[..i]), acts[i])
    ensures Stuck(After(o, acts), w) && w < |o.lines| && After(o, acts).lines[w].wire == o.lines[w].wire
  {
    StuckIsOpen(o, w);
    hide Sound, Stuck, Perform, Cuts, Reported;
    if acts != [] {
      var init, act := acts[..|acts| - 1], acts[|acts| - 1];
      var m := After(o, init);
      forall i | 0 <= i < |init| ensures Reported(After(o, init[..i]), init[i]) {
        assert init[..i] == acts[..i];
      }
      SoundAlways(o, init);
      OpenBefore(m, act, w);
      StuckForGood(o, init, w);
      CutsCloses(m, act, w);
      StuckStays(m, act, w);
    }
  }

  // ----- The acts on the fields -----

  /** A message for a client that has not expired: one text more in its queue, and a request exactly if that was empty. */
  lemma SendingExactly(o: Outbox, w: nat, text: string)
    requires Sound(o) && w < |o.lines| && Fits(text)
    ensures var k, t := o.lines[w], Perform(o, SendTo(w, text));
            if k.bExpired then t == o
            else t == Outbox(o.lines[w := k.(texts := k.texts + [Normalised(text)], enqueued := k.enqueued + Normalised(text))],
                             o.regs + (if k.texts == [] then [Registration(k.sock, true, true)] else []), o.kernel)
  {
    ExpiredIfClosed(o, w);
    hide Sound, Normalised, Line.Unsent;
    assert o.regs + [] == o.regs;
  }

  /** A new connection: a client with nothing queued, and its read filter asked for. */
  lemma AcceptingExactly(o: Outbox, sock: nat)
    requires Allowed(o, Accept(sock))
    ensures Perform(o, Accept(sock))
            == Outbox(o.lines + [Line(sock, false, false, [], 0, "", "", 0)], o.regs + [Registration(sock, false, true)], o.kernel)
  {
  }

  /** A close of a client that had expired: its flags, one call of close, its filters gone from the kernel, and nothing of
      any other client but the order of what is pending. */
  lemma ClosingExactly(o: Outbox, w: nat, audience: seq<nat>, text: string)
    requires Sound(o) && IsOpen(o, w) && o.lines[w].bExpired && Allowed(o, Close(w, audience, text))
    ensures var k, t := o.lines[w], Perform(o, Close(w, audience, text));
            && t.lines == o.lines[w := k.(bClosed := true, closes := k.closes + 1)] && t.kernel == o.kernel - {k.sock}
            && forall r: Registration :: r.ident != k.sock ==> (r in t.regs <==> r in o.regs) && Pending(t.regs, r.ident) == Pending(o.regs, r.ident)
  {
    hide Sound, Removed, SentAll, Pending, Fits;
    forall r: Registration | r.ident != o.lines[w].sock
      ensures r in Removed(o.regs, o.lines[w].sock, 0) <==> r in o.regs
      ensures Pending(Removed(o.regs, o.lines[w].sock, 0), r.ident) == Pending(o.regs, r.ident)
    {
      OthersKeepEntries(o.regs, o.lines[w].sock, 0, r.ident);
    }
  }

  /** A QUIT with something to send makes the client expire and sends the message to the others. */
  lemma QuittingExactly(o: Outbox, w: nat, audience: seq<nat>, text: string)
    requires Sound(o) && Allowed(o, Quit(w, audience, text)) && w < |o.lines| && !o.lines[w].bExpired && o.lines[w].texts != []
    ensures var t := Perform(o, Quit(w, audience, text));
            && |t.lines| == |o.lines| && t.lines[w] == o.lines[w].(bExpired := true) && t.kernel == o.kernel
            && t.regs == o.regs + Requests(o, audience, But(w))
  {
    var u := SetLine(o, w, o.lines[w].(bExpired := true));
    ExceptedIsSame(u, audience, But(w), text, w);
    SentAllRequests(u, audience, But(w), text);
    SameRequests(o, u, audience, w);
    hide Sound, SentAll, Requests, Fits;
  }

  lemma {:induction false} SameRequests(o: Outbox, u: Outbox, members: seq<nat>, w: nat)
    requires w < |o.lines| && |u.lines| == |o.lines| && u == SetLine(o, w, u.lines[w])
    ensures Requests(o, members, But(w)) == Requests(u, members, But(w))
  {
    if members != [] {
      SameRequests(o, u, members[..|members| - 1], w);
    }
  }
}
