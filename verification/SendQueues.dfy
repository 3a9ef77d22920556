/** The sending side of the server: queues of blocks that clients share, partial sends, the registrations put off to the
    next turn of the loop, and the two ways a client ends, against their effect on values. */
module SendQueues {
  import opened MsgBlocks
  import opened Registrations
  import opened Sending

  /** The sending fields of the client's control block. texts is what the queued blocks hold. */
  class Client {
    const hSocket: nat
    var bExpired: bool
    var bSocketClosed: bool
    var MsgSendingQueue: seq<MsgBlock>
    var SendMsgBlockCursor: nat
    ghost var texts: seq<string>
    ghost var wire: string         // the bytes given to send so far
    ghost var enqueued: string     // everything ever enqueued
    ghost var closes: nat          // how often close was called on the socket

    constructor (sock: nat)
      ensures State() == NewLine(sock) && MsgSendingQueue == []
    {
      hSocket := sock;
      bExpired, bSocketClosed, MsgSendingQueue, SendMsgBlockCursor := false, false, [], 0;
      texts, wire, enqueued, closes := [], "", "", 0;
    }

    ghost function State(): Line
      reads this
    {
      Line(hSocket, bExpired, bSocketClosed, texts, SendMsgBlockCursor, wire, enqueued, closes)
    }

    /** A block joins the queue. */
    method Push(msg: MsgBlock)
      requires msg.Valid() && |texts| == |MsgSendingQueue|
      modifies this`MsgSendingQueue, this`SendMsgBlockCursor, this`texts, this`enqueued
      ensures State() == Pushed(old(State()), msg.Bytes()) && MsgSendingQueue == old(MsgSendingQueue) + [msg]
    {
      if MsgSendingQueue == [] {
        SendMsgBlockCursor := 0;
      }
      MsgSendingQueue := MsgSendingQueue + [msg];
      texts := texts + [msg.Bytes()];
      enqueued := enqueued + msg.Bytes();
    }

    /** n bytes of the front block went out: the cursor moves, and a block sent completely leaves the queue. */
    method Advance(n: nat)
      requires texts != [] && SendMsgBlockCursor + n <= |texts[0]| && |texts| == |MsgSendingQueue|
      requires MsgSendingQueue[0].Valid() && MsgSendingQueue[0].Bytes() == texts[0]
      modifies this`MsgSendingQueue, this`SendMsgBlockCursor, this`texts, this`wire
      ensures State() == Advanced(old(State()), n)
      ensures MsgSendingQueue == old(MsgSendingQueue)[|old(texts)| - |texts|..] && |texts| == |MsgSendingQueue|
    {
      wire := wire + texts[0][SendMsgBlockCursor..SendMsgBlockCursor + n];
      SendMsgBlockCursor := SendMsgBlockCursor + n;
      if SendMsgBlockCursor >= MsgSendingQueue[0].MsgLen {
        MsgSendingQueue := MsgSendingQueue[1..];
        SendMsgBlockCursor := 0;
        texts := texts[1..];
      }
    }
  }

  ghost function LinesOf(cs: seq<Client>): seq<Line>
    reads cs
  {
    seq(|cs|, i requires 0 <= i < |cs| reads cs => cs[i].State())
  }

  ghost predicate Distinct(cs: seq<Client>) {
    forall i, j :: 0 <= i < j < |cs| ==> cs[i] != cs[j]
  }

  class Delivery {
    var mEventRegistrationQueue: seq<Registration>
    ghost var kernel: set<nat>          // sockets whose write filter is on in the kernel
    ghost var clients: seq<Client>      // in the order in which they connected
    ghost var pool: set<MsgBlock>       // every block ever enqueued

    ghost function Snap(): Outbox
      reads this, clients
    {
      Outbox(LinesOf(clients), mEventRegistrationQueue, kernel)
    }

    /** A block in the pool is normalised, so normalising it again changes nothing. */
    ghost predicate PoolValid()
      reads this`pool, pool, set b | b in pool :: b.Msg
    {
      && (forall b :: b in pool ==> b.Valid() && Fits(b.Bytes()) && Normalised(b.Bytes()) == b.Bytes())
      && (forall b, b' :: b in pool && b' in pool && b != b' ==> b.Msg != b'.Msg)
    }

    ghost predicate QueueHolds(c: Client)
      reads this`pool, c`texts, c`MsgSendingQueue, pool, set b | b in pool :: b.Msg
    {
      && |c.texts| == |c.MsgSendingQueue|
      && forall i :: 0 <= i < |c.MsgSendingQueue| ==>
           var b := c.MsgSendingQueue[i]; b in pool && b.Valid() && b.Bytes() == c.texts[i]
    }

    ghost predicate Valid()
      reads this, clients, pool, set b | b in pool :: b.Msg
    {
      Distinct(clients) && PoolValid() && (forall c :: c in clients ==> QueueHolds(c)) && Sound(Snap())
    }

    constructor ()
      ensures Valid() && Snap() == Start() && clients == [] && pool == {}
    {
      mEventRegistrationQueue := [];
      kernel, clients, pool := {}, [], {};
    }

    // ----- Clients by number -----

    ghost function Who(c: Client): (w: nat)
      requires c in clients
      reads this`clients
      ensures w < |clients| && clients[w] == c
    {
      var w: nat :| w < |clients| && clients[w] == c;
      w
    }

    ghost function Whos(cs: seq<Client>): (ws: seq<nat>)
      requires forall c :: c in cs ==> c in clients
      reads this`clients
    {
      if cs == [] then [] else Whos(cs[..|cs| - 1]) + [Who(cs[|cs| - 1])]
    }

    ghost function ExceptOf(c: Client?): Except
      reads this`clients
    {
      if c != null && c in clients then But(Who(c)) else Nobody
    }

    lemma LineAt(c: Client)
      requires c in clients
      ensures Who(c) < |Snap().lines| && Snap().lines[Who(c)] == c.State() && |Snap().lines| == |clients|
      ensures c.State() == Line(c.hSocket, c.bExpired, c.bSocketClosed, c.texts, c.SendMsgBlockCursor, c.wire, c.enqueued, c.closes)
    {
    }

    lemma ValidHas(c: Client)
      requires Valid() && c in clients
      ensures QueueHolds(c) && Conserved(c.State()) && Ordered(c.State())
    {
      LineAt(c);
    }

    /** Only c has changed. */
    lemma OnlyThis(before: seq<Line>, c: Client)
      requires Distinct(clients) && c in clients && |before| == |clients|
      requires forall d :: d in clients && d != c ==> before[Who(d)] == d.State()
      ensures LinesOf(clients) == before[Who(c) := c.State()]
    {
      forall i | 0 <= i < |clients| ensures LinesOf(clients)[i] == before[Who(c) := c.State()][i] {
        assert clients[i] in clients;
        assert Who(clients[i]) == i;
      }
    }

    lemma BeforeAt(c: Client)
      requires Distinct(clients)
      ensures forall d :: d in clients ==> LinesOf(clients)[Who(d)] == d.State()
    {
    }

    // ----- Enqueuing -----

    /** A block that may be sent: it fits when normalised, and shares no memory with another block. */
    ghost predicate Sendable(msg: MsgBlock)
      reads this`pool, msg, msg.Msg, pool
    {
      && msg.Valid() && Fits(msg.Bytes())
      && (forall b :: b in pool && b != msg ==> b.Msg != msg.Msg)
    }

    /** sendMsgToClient: an expired client gets nothing; any other client gets the normalised message after everything
        enqueued before, in the same block that other queues may hold. */
    method SendMsgToClient(client: Client, msg: MsgBlock)
      requires Valid() && client in clients && Sendable(msg)
      modifies this`pool, this`mEventRegistrationQueue, client, msg, msg.Msg
      ensures Valid() && Sendable(msg) && old(pool) <= pool
      ensures Snap() == Sent(old(Snap()), Who(client), old(msg.Bytes()))
      ensures msg.Bytes() == if old(client.bExpired) then old(msg.Bytes()) else Normalised(old(msg.Bytes()))
    {
      LineAt(client);
      hide PoolValid, Sound, Fits, Normalised, QueueHolds, Pushed;
      if client.bExpired {
        return;
      }
      NormaliseShared(msg);
      LineAt(client);
      Enqueue(client, msg);
      SentNormalised(old(Snap()), Who(client), old(msg.Bytes()));
    }

    lemma SentNormalised(o: Outbox, w: nat, text: string)
      requires Fits(text)
      ensures Sent(o, w, Normalised(text)) == Sent(o, w, text)
    {
      FitsNormalised(text);
      hide Fits, Normalised;
    }

    /** The message is cut and terminated in place; a block that other queues hold stays as it is. */
    method NormaliseShared(msg: MsgBlock)
      requires Valid() && Sendable(msg)
      modifies this`pool, msg, msg.Msg
      ensures Valid() && Sendable(msg) && pool == old(pool) + {msg} && Snap() == old(Snap())
      ensures msg.Bytes() == Normalised(old(msg.Bytes())) && Normalised(msg.Bytes()) == msg.Bytes()
    {
      hide PoolValid, Sendable, Normalised, Fits, Sound;
      NormaliseInPlace(msg);
      forall c | c in clients ensures QueueHolds(c) {
        assert old(QueueHolds(c));
      }
      assert Snap() == old(Snap());
      AddToPool(msg);
    }

    /** The texts of the pool's blocks do not change: they were normalised already. */
    method NormaliseInPlace(msg: MsgBlock)
      requires PoolValid() && Sendable(msg)
      modifies msg, msg.Msg
      ensures msg.Valid() && msg.Bytes() == Normalised(old(msg.Bytes())) && Normalised(msg.Bytes()) == msg.Bytes()
      ensures PoolValid() && Sendable(msg)
      ensures forall b :: b in pool && old(b.Valid()) ==> b.Valid() && b.Bytes() == old(b.Bytes())
    {
      hide Normalised, Fits;
      FitsNormalised(msg.Bytes());
      msg.Normalise();
      forall b | b in pool ensures b.Valid() && b.Bytes() == old(b.Bytes()) {
        if b != msg {
          assert b.Msg != msg.Msg;
        }
      }
    }

    ghost method AddToPool(msg: MsgBlock)
      requires Valid() && Sendable(msg) && msg.Valid() && Normalised(msg.Bytes()) == msg.Bytes()
      modifies this`pool
      ensures Valid() && Sendable(msg) && pool == old(pool) + {msg}
    {
      hide Normalised, Fits, Sound;
      pool := pool + {msg};
      forall c | c in clients ensures QueueHolds(c) {
        assert old(QueueHolds(c));
      }
      assert Snap() == old(Snap());
    }

    /** The write filter is requested if the queue was empty, and the block joins the queue. */
    method Enqueue(client: Client, msg: MsgBlock)
      requires Valid() && client in clients && msg in pool && !client.bExpired
      modifies this`mEventRegistrationQueue, client`MsgSendingQueue, client`SendMsgBlockCursor, client`texts, client`enqueued
      ensures Valid() && msg.Valid() && Snap() == Sent(old(Snap()), Who(client), msg.Bytes())
    {
      hide *;
      ValidSays();
      PoolBlock(msg);
      ghost var o, w, text := Snap(), Who(client), msg.Bytes();
      ValidHas(client);
      SentKeeps(o, w, text);
      LineAt(client);
      SnapIs();
      QueueIsTexts(client);
      if client.MsgSendingQueue == [] {
        RequestWrite(client, true);
      }
      PushTo(client, msg);
      SnapIs();
      SentIs(o, w, text, client.hSocket);
      ValidFrom();
    }

    lemma ValidSays()
      requires Valid()
      ensures Distinct(clients) && PoolValid() && (forall c :: c in clients ==> QueueHolds(c)) && Sound(Snap())
    {
    }

    lemma SentIs(o: Outbox, w: nat, text: string, sock: nat)
      requires w < |o.lines| && o.lines[w].sock == sock && !o.lines[w].bExpired && Normalised(text) == text
      ensures Sent(o, w, text) == Outbox(o.lines[w := Pushed(o.lines[w], text)],
                                         if o.lines[w].texts == [] then o.regs + [Registration(sock, true, true)] else o.regs, o.kernel)
    {
    }

    method PushTo(client: Client, msg: MsgBlock)
      requires Distinct(clients) && PoolValid() && (forall c :: c in clients ==> QueueHolds(c)) && client in clients && msg in pool
      modifies client`MsgSendingQueue, client`SendMsgBlockCursor, client`texts, client`enqueued
      ensures msg.Valid() && forall c :: c in clients ==> QueueHolds(c)
      ensures LinesOf(clients) == old(LinesOf(clients))[Who(client) := Pushed(old(client.State()), msg.Bytes())]
    {
      BeforeAt(client);
      PoolBlock(msg);
      ghost var before := LinesOf(clients);
      hide PoolValid, LinesOf;
      assert QueueHolds(client);
      client.Push(msg);
      OnlyThis(before, client);
      hide Distinct;
      forall c | c in clients ensures QueueHolds(c) {
        assert old(QueueHolds(c));
      }
    }

    lemma PoolBlock(msg: MsgBlock)
      requires PoolValid() && msg in pool
      ensures msg.Valid() && Fits(msg.Bytes()) && Normalised(msg.Bytes()) == msg.Bytes()
    {
    }

    /** A change of the client's write filter is put off to the next turn of the loop. */
    method RequestWrite(client: Client, bAdd: bool)
      modifies this`mEventRegistrationQueue
      ensures mEventRegistrationQueue == old(mEventRegistrationQueue) + [Registration(client.hSocket, true, bAdd)]
    {
      mEventRegistrationQueue := mEventRegistrationQueue + [Registration(client.hSocket, true, bAdd)];
    }

    /** sendMsgToChannel: the message goes once for each entry of the member map that can be locked,
        to everyone but the excepted client. */
    method SendMsgToChannel(members: seq<Client>, msg: MsgBlock, except: Client?)
      requires Valid() && Sendable(msg) && forall c :: c in members ==> c in clients
      modifies this`pool, this`mEventRegistrationQueue, clients, msg, msg.Msg
      ensures Valid() && Sendable(msg) && old(pool) <= pool
      ensures Snap() == SentAll(old(Snap()), Whos(members), ExceptOf(except), old(msg.Bytes()))
    {
      hide Valid, Sendable, Snap, Sent, Fits, Normalised;
      SendableFits(msg);
      ghost var text := msg.Bytes();
      for i := 0 to |members|
        invariant Valid() && Sendable(msg) && old(pool) <= pool
        invariant msg.Valid() && (msg.Bytes() == text || msg.Bytes() == Normalised(text))
        invariant Snap() == SentAll(old(Snap()), Whos(members[..i]), ExceptOf(except), text)
      {
        var dest := members[i];
        assert dest in members;
        assert members[..i + 1][..i] == members[..i];
        WhosPush(old(Snap()), Whos(members[..i]), Who(dest), ExceptOf(except), text);
        WhoIsOne(dest, except);
        SentNormalised(Snap(), Who(dest), text);
        FitsNormalised(text);
        if dest != except {
          SendMsgToClient(dest, msg);
        }
        SendableFits(msg);
      }
      assert members[..|members|] == members;
    }

    lemma SendableFits(msg: MsgBlock)
      requires Sendable(msg)
      ensures msg.Valid() && Fits(msg.Bytes())
    {
    }

    lemma WhoIsOne(c: Client, except: Client?)
      requires c in clients
      ensures ExceptOf(except) == But(Who(c)) <==> except == c
    {
    }

    lemma WhosPush(o: Outbox, ws: seq<nat>, w: nat, except: Except, text: string)
      ensures SentAll(o, ws + [w], except, text) ==
              if except == But(w) then SentAll(o, ws, except, text) else Sent(SentAll(o, ws, except, text), w, text)
    {
      assert (ws + [w])[..|ws|] == ws;
    }

    // ----- The kernel -----

    /** The turn of the loop: the pending registrations reach the kernel in order. */
    method ApplyRegistrations()
      requires Valid()
      modifies this`mEventRegistrationQueue, this`kernel
      ensures Valid() && Snap() == Applied(old(Snap()))
    {
      AppliedKeeps(Snap());
      ghost var o := Snap();
      hide PoolValid, Sound, FilterAfter;
      kernel := Applied(o).kernel;
      mEventRegistrationQueue := [];
      forall c | c in clients ensures QueueHolds(c) {
        assert old(QueueHolds(c));
      }
    }

    // ----- The end of a client -----

    /** The close in forceDisconnectClient: the kernel drops the socket's filters, and the loop drops its
        pending registrations, which may reorder those of others. */
    method CloseSocket(client: Client)
      requires Distinct(clients) && PoolValid() && (forall c :: c in clients ==> QueueHolds(c)) && client in clients
      requires Sound(Dropped(Snap(), Who(client)))
      modifies this`mEventRegistrationQueue, this`kernel, client`bSocketClosed, client`bExpired, client`closes
      ensures Valid() && Snap() == Dropped(old(Snap()), Who(client))
    {
      hide *;
      ghost var o, w := Snap(), Who(client);
      LineAt(client);
      SnapIs();
      MarkClosed(client);
      mEventRegistrationQueue := RemoveRegistrations(mEventRegistrationQueue, client.hSocket);
      kernel := kernel - {client.hSocket};
      SnapIs();
      DroppedIs(o, w, client.hSocket);
      ValidFrom();
    }

    lemma SnapIs()
      ensures Snap() == Outbox(LinesOf(clients), mEventRegistrationQueue, kernel)
    {
    }

    lemma DroppedIs(o: Outbox, w: nat, sock: nat)
      requires w < |o.lines| && o.lines[w].sock == sock
      ensures var k := o.lines[w];
              Dropped(o, w) == Outbox(o.lines[w := k.(bExpired := true, bClosed := true, closes := k.closes + 1)],
                                      Removed(o.regs, sock, 0), o.kernel - {sock})
    {
    }

    lemma ValidFrom()
      requires Distinct(clients) && PoolValid() && (forall c :: c in clients ==> QueueHolds(c)) && Sound(Snap())
      ensures Valid()
    {
    }

    method MarkClosed(client: Client)
      requires Distinct(clients) && client in clients
      modifies client`bSocketClosed, client`bExpired, client`closes
      ensures LinesOf(clients) ==
              old(LinesOf(clients))[Who(client) := old(client.State()).(bExpired := true, bClosed := true, closes := old(client.closes) + 1)]
    {
      BeforeAt(client);
      ghost var before := LinesOf(clients);
      hide LinesOf;
      client.bExpired := true;
      client.closes := client.closes + 1;
      client.bSocketClosed := true;
      OnlyThis(before, client);
    }

    /** forceDisconnectClient, as far as sending goes. audience are the members, channel by channel, that the
        QUIT message goes to. */
    method ForceDisconnect(client: Client, audience: seq<Client>, quit: MsgBlock)
      requires Valid() && client in clients && Sendable(quit) && forall c :: c in audience ==> c in clients
      modifies this`pool, this`mEventRegistrationQueue, this`kernel, clients, quit, quit.Msg
      ensures Valid() && old(pool) <= pool
      ensures Snap() == Forced(old(Snap()), Who(client), Whos(audience), old(quit.Bytes()))
    {
      LineAt(client);
      ghost var o, w, ws, text := Snap(), Who(client), Whos(audience), quit.Bytes();
      WhoIsOne(client, client);
      if client.bSocketClosed {
        return;
      }
      PartingDrops(o, w, ws, text);
      hide PoolValid, Sound, Fits, Normalised, SentAll, Dropped, Whos, LinesOf;
      if !client.bExpired {
        SendMsgToChannel(audience, quit, client);
      }
      CloseSocket(client);
    }

    lemma PartingDrops(o: Outbox, w: nat, ws: seq<nat>, text: string)
      requires Sound(o) && Fits(text) && IsOpen(o, w)
      ensures w < |Parting(o, w, ws, text).lines| && Sound(Dropped(Parting(o, w, ws, text), w))
    {
      PartingKeeps(o, w, ws, text);
      ForcedKeeps(o, w, ws, text);
      hide Sound, Fits, Parting, Dropped;
    }

    /** disconnectClient: at once if nothing is left to send, otherwise the client expires and is closed
        when its queue has drained. */
    method Disconnect(client: Client, audience: seq<Client>, quit: MsgBlock)
      requires Valid() && client in clients && Sendable(quit) && forall c :: c in audience ==> c in clients
      modifies this`pool, this`mEventRegistrationQueue, this`kernel, clients, quit, quit.Msg
      ensures Valid() && old(pool) <= pool
      ensures Snap() == Quitted(old(Snap()), Who(client), Whos(audience), old(quit.Bytes()))
    {
      LineAt(client);
      ValidHas(client);
      WhoIsOne(client, client);
      hide PoolValid, Sound, Fits, Normalised, SentAll, Forced, Whos, LinesOf, Conserved, Ordered;
      if client.bExpired {
        return;
      }
      if client.MsgSendingQueue == [] {
        ForceDisconnect(client, audience, quit);
        return;
      }
      ExpireClient(client);
      SendMsgToChannel(audience, quit, client);
    }

    method ExpireClient(client: Client)
      requires Valid() && client in clients && client.MsgSendingQueue != [] && !client.bExpired
      modifies client`bExpired
      ensures Valid() && Snap() == SetLine(old(Snap()), Who(client), old(client.State()).(bExpired := true))
    {
      BeforeAt(client);
      LineAt(client);
      ValidHas(client);
      ghost var before, k := LinesOf(clients), client.State().(bExpired := true);
      assert Conserved(k) by { assert k.Unsent() == client.State().Unsent(); }
      LineKeeps(Snap(), Who(client), k, mEventRegistrationQueue);
      hide PoolValid, Sound, Conserved, LinesOf;
      client.bExpired := true;
      OnlyThis(before, client);
      hide Distinct;
      forall c | c in clients ensures QueueHolds(c) {
        assert old(QueueHolds(c));
      }
    }

    // ----- Write events -----

    /** A write event; n is what send returned, -1 for an error. */
    method WriteEvent(client: Client, n: int, audience: seq<Client>, quit: MsgBlock)
      requires Valid() && client in clients && Sendable(quit) && forall c :: c in audience ==> c in clients
      requires -1 <= n && (n > 0 && !client.bSocketClosed && client.texts != [] ==> client.SendMsgBlockCursor + n <= |client.texts[0]|)
      modifies this`pool, this`mEventRegistrationQueue, this`kernel, clients, quit, quit.Msg
      ensures Valid() && old(pool) <= pool
      ensures Snap() == Writing(old(Snap()), Who(client), n, Whos(audience), old(quit.Bytes()))
    {
      LineAt(client);
      ValidHas(client);
      hide PoolValid, Sound, Fits, Normalised, Forced, Written, Whos, LinesOf, Conserved, Ordered;
      if client.bSocketClosed || client.MsgSendingQueue == [] {
        return;
      }
      if n == -1 {
        ForceDisconnect(client, audience, quit);
        return;
      }
      if n == 0 {
        return;
      }
      BytesSent(client, n);
    }

    /** n bytes of the front block have been sent. A queue that has drained closes an expired client, and turns
        the write filter of any other off. */
    method BytesSent(client: Client, n: nat)
      requires Valid() && client in clients && !client.bSocketClosed && client.texts != []
      requires 0 < n && client.SendMsgBlockCursor + n <= |client.texts[0]|
      modifies this`mEventRegistrationQueue, this`kernel, client
      ensures Takes(old(Snap()), Who(client), n) && Valid() && Snap() == Written(old(Snap()), Who(client), n)
    {
      hide *;
      ghost var o, w := Snap(), Who(client);
      ValidSays();
      ValidHas(client);
      LineAt(client);
      SnapIs();
      CanTake(o, w, n);
      WrittenKeeps(o, w, n);
      AdvanceClient(client, n);
      SnapIs();
      WrittenIs(o, w, n, client.hSocket);
      LineAt(client);
      QueueIsTexts(client);
      if client.MsgSendingQueue == [] {
        if client.bExpired {
          CloseSocket(client);
          return;
        } else {
          RequestWrite(client, false);
        }
      }
      SnapIs();
      ValidFrom();
    }

    lemma CanTake(o: Outbox, w: nat, n: nat)
      requires w < |o.lines| && !o.lines[w].bClosed && o.lines[w].texts != [] && o.lines[w].cursor + n <= |o.lines[w].texts[0]|
      ensures Takes(o, w, n) && IsOpen(o, w)
    {
    }

    lemma WrittenIs(o: Outbox, w: nat, n: nat, sock: nat)
      requires Takes(o, w, n) && o.lines[w].sock == sock
      ensures var k := Advanced(o.lines[w], n);
              var t := Outbox(o.lines[w := k], o.regs, o.kernel);
              Written(o, w, n) == (if k.texts != [] then t
                                   else if k.bExpired then Dropped(t, w)
                                   else t.(regs := o.regs + [Registration(sock, true, false)]))
    {
      hide Dropped;
    }

    lemma QueueIsTexts(c: Client)
      requires QueueHolds(c)
      ensures |c.texts| == |c.MsgSendingQueue|
    {
    }

    method AdvanceClient(client: Client, n: nat)
      requires Distinct(clients) && PoolValid() && (forall c :: c in clients ==> QueueHolds(c)) && client in clients
      requires client.texts != [] && client.SendMsgBlockCursor + n <= |client.texts[0]|
      modifies client`MsgSendingQueue, client`SendMsgBlockCursor, client`texts, client`wire
      ensures forall c :: c in clients ==> QueueHolds(c)
      ensures LinesOf(clients) == old(LinesOf(clients))[Who(client) := Advanced(old(client.State()), n)]
    {
      BeforeAt(client);
      ghost var before := LinesOf(clients);
      hide PoolValid, LinesOf;
      client.Advance(n);
      OnlyThis(before, client);
      hide Distinct;
      forall c | c in clients ensures QueueHolds(c) {
        assert old(QueueHolds(c));
      }
    }

    // ----- Connections -----

    /** A connection is accepted and its read filter requested. */
    method Connect(client: Client)
      requires Valid() && client !in clients && client.State() == NewLine(client.hSocket) && client.MsgSendingQueue == []
      requires forall k :: k in Snap().lines && !k.bClosed ==> k.sock != client.hSocket
      modifies this`clients, this`mEventRegistrationQueue
      ensures Valid() && clients == old(clients) + [client] && Snap() == Connected(old(Snap()), client.hSocket)
    {
      ConnectedKeeps(Snap(), client.hSocket);
      hide PoolValid, Sound;
      mEventRegistrationQueue := mEventRegistrationQueue + [Registration(client.hSocket, false, true)];
      clients := clients + [client];
      assert Snap().lines == old(Snap()).lines + [NewLine(client.hSocket)];
      forall c | c in clients ensures QueueHolds(c) {
        assert c != client ==> old(QueueHolds(c));
      }
    }

    // ----- Runs -----

    lemma WhoAt(w: nat)
      requires Distinct(clients) && w < |clients|
      ensures clients[w] in clients && Who(clients[w]) == w
    {
    }

    lemma LineCount()
      ensures |Snap().lines| == |clients|
    {
    }

    lemma WhosPushed(cs: seq<Client>, c: Client)
      requires (forall d :: d in cs ==> d in clients) && c in clients
      ensures (forall d :: d in cs + [c] ==> d in clients) && Whos(cs + [c]) == Whos(cs) + [Who(c)]
    {
      assert (cs + [c])[..|cs|] == cs;
    }

    /** The clients of that number. */
    method Members(ws: seq<nat>, list: seq<Client>) returns (cs: seq<Client>)
      requires Distinct(clients) && list == clients && forall w :: w in ws ==> w < |list|
      ensures (forall c :: c in cs ==> c in clients) && Whos(cs) == ws
    {
      hide Distinct, Whos;
      cs := [];
      WhosNone();
      for i := 0 to |ws|
        invariant (forall c :: c in cs ==> c in clients) && Whos(cs) == ws[..i]
      {
        assert ws[i] in ws;
        WhoAt(ws[i]);
        WhosPushed(cs, list[ws[i]]);
        cs := cs + [list[ws[i]]];
        assert ws[..i + 1] == ws[..i] + [ws[i]];
      }
      assert ws[..|ws|] == ws;
    }

    lemma WhosNone()
      ensures Whos([]) == []
    {
    }

    method NewMsg(text: string) returns (msg: MsgBlock)
      requires PoolValid() && Fits(text)
      ensures fresh(msg) && fresh(msg.Msg) && Sendable(msg) && msg.Bytes() == Truncated(text)
    {
      TruncatedFits(text);
      hide Fits, Truncated;
      msg := new MsgBlock(text);
    }

    /** One act; list are the clients that connected so far. */
    method Do(act: Act, list: seq<Client>) returns (list': seq<Client>)
      requires Valid() && list == clients && Allowed(Snap(), act)
      modifies this, clients
      ensures Valid() && list' == clients && Snap() == Perform(old(Snap()), act)
      ensures list' == list || (|list'| == |list| + 1 && list' == list + [list'[|list|]] && fresh(list'[|list|]))
    {
      hide *;
      ValidSays();
      LineCount();
      list' := list;
      if act.Accept? {
        SocketIsFree(Snap(), act);
        list' := AcceptOn(act.sock, list);
      } else if act.Apply? {
        AppliedIs(Snap());
        ApplyRegistrations();
      } else {
        ActFits(Snap(), act);
        PerformIs(Snap(), act);
        if act.SendTo? {
          WhoAt(act.who);
          var msg := NewMsg(act.text);
          SendMsgToClient(list[act.who], msg);
        } else if act.SendToAll? {
          Broadcast(act.members, act.except, act.text, list);
        } else {
          OneClient(act, list);
        }
      }
    }

    method AcceptOn(sock: nat, list: seq<Client>) returns (list': seq<Client>)
      requires Valid() && list == clients && forall k :: k in Snap().lines && !k.bClosed ==> k.sock != sock
      modifies this`clients, this`mEventRegistrationQueue
      ensures Valid() && list' == clients && Snap() == Connected(old(Snap()), sock)
      ensures list' == list || (|list'| == |list| + 1 && list' == list + [list'[|list|]] && fresh(list'[|list|]))
    {
      hide Valid, Snap;
      var c := new Client(sock);
      Connect(c);
      list' := list + [c];
    }

    method Broadcast(members: seq<nat>, except: Except, text: string, list: seq<Client>)
      requires Valid() && list == clients && Fits(text) && (forall m :: m in members ==> m < |list|) && (except.But? ==> except.who < |list|)
      modifies this`pool, this`mEventRegistrationQueue, clients
      ensures Valid() && Snap() == SentAll(old(Snap()), members, except, Truncated(text))
    {
      hide *;
      ValidSays();
      var cs := Members(members, list);
      var msg := NewMsg(text);
      ghost var e := ExceptOf(if except.But? then list[except.who] else null);
      if except.But? {
        WhoAt(except.who);
        WhoIsOne(list[except.who], list[except.who]);
        SendMsgToChannel(cs, msg, list[except.who]);
      } else {
        NobodyExcepted();
        SendMsgToChannel(cs, msg, null);
      }
    }

    lemma NobodyExcepted()
      ensures ExceptOf(null) == Nobody
    {
    }

    /** A write event, a QUIT or a close. */
    method OneClient(act: Act, list: seq<Client>)
      requires Valid() && list == clients && (act.Write? || act.Quit? || act.Close?) && Allowed(Snap(), act)
      modifies this, clients
      ensures Valid() && clients == old(clients)
      ensures act.Write? ==> Snap() == Writing(old(Snap()), act.who, act.n, act.audience, Truncated(act.text))
      ensures act.Quit? ==> Snap() == Quitted(old(Snap()), act.who, act.audience, Truncated(act.text))
      ensures act.Close? ==> Snap() == Forced(old(Snap()), act.who, act.audience, Truncated(act.text))
    {
      hide *;
      ValidSays();
      LineCount();
      ActFits(Snap(), act);
      WhoAt(act.who);
      LineAt(list[act.who]);
      if act.Write? {
        SendsWithin(Snap(), act);
      }
      var audience := Members(act.audience, list);
      var msg := NewMsg(act.text);
      if act.Write? {
        WriteEvent(list[act.who], act.n, audience, msg);
      } else if act.Quit? {
        Disconnect(list[act.who], audience, msg);
      } else {
        ForceDisconnect(list[act.who], audience, msg);
      }
    }
  }

  lemma TruncatedFits(text: string)
    requires Fits(text)
    ensures Fits(Truncated(text)) && Normalised(Truncated(text)) == Normalised(text)
  {
  }

  lemma SocketIsFree(o: Outbox, act: Act)
    requires Allowed(o, act) && act.Accept?
    ensures forall k :: k in o.lines && !k.bClosed ==> k.sock != act.sock
    ensures Perform(o, act) == Connected(o, act.sock)
  {
  }

  lemma AppliedIs(o: Outbox)
    ensures Perform(o, Apply) == Applied(o)
  {
  }

  lemma ActFits(o: Outbox, act: Act)
    requires Allowed(o, act) && !act.Accept? && !act.Apply?
    ensures Fits(act.text)
    ensures !act.SendToAll? ==> act.who < |o.lines|
    ensures act.SendToAll? ==> (forall m :: m in act.members ==> m < |o.lines|) && (act.except.But? ==> act.except.who < |o.lines|)
    ensures act.Write? || act.Quit? || act.Close? ==> forall m :: m in act.audience ==> m < |o.lines|
  {
  }

  lemma SendsWithin(o: Outbox, act: Act)
    requires Allowed(o, act) && act.Write?
    ensures act.who < |o.lines| && act.n >= -1
    ensures var k := o.lines[act.who]; act.n > 0 && k.texts != [] ==> k.cursor + act.n <= |k.texts[0]|
  {
  }

  // ----- A block cut when it is made -----

  lemma SentCut(o: Outbox, w: nat, text: string)
    requires Fits(text)
    ensures Sent(o, w, Truncated(text)) == Sent(o, w, text)
  {
    TruncatedFits(text);
    hide Normalised, Truncated;
  }

  lemma {:induction false} SentAllCut(o: Outbox, members: seq<nat>, except: Except, text: string)
    requires Fits(text)
    ensures SentAll(o, members, except, Truncated(text)) == SentAll(o, members, except, text)
  {
    hide Sent, Truncated, Fits;
    if members != [] {
      SentAllCut(o, members[..|members| - 1], except, text);
      SentCut(SentAll(o, members[..|members| - 1], except, text), members[|members| - 1], text);
    }
  }

  lemma ForcedCut(o: Outbox, w: nat, audience: seq<nat>, text: string)
    requires Fits(text)
    ensures Forced(o, w, audience, Truncated(text)) == Forced(o, w, audience, text)
  {
    SentAllCut(o, audience, But(w), text);
    hide SentAll, Truncated, Fits;
  }

  lemma QuittedCut(o: Outbox, w: nat, audience: seq<nat>, text: string)
    requires Fits(text)
    ensures Quitted(o, w, audience, Truncated(text)) == Quitted(o, w, audience, text)
  {
    ForcedCut(o, w, audience, text);
    if w < |o.lines| {
      SentAllCut(SetLine(o, w, o.lines[w].(bExpired := true)), audience, But(w), text);
    }
    hide SentAll, Forced, Truncated, Fits;
  }

  /** What a cut message does is what the whole one would. */
  lemma PerformIs(o: Outbox, act: Act)
    requires Allowed(o, act) && !act.Accept? && !act.Apply? && Fits(act.text)
    ensures act.SendTo? ==> Perform(o, act) == Sent(o, act.who, Truncated(act.text))
    ensures act.SendToAll? ==> Perform(o, act) == SentAll(o, act.members, act.except, Truncated(act.text))
    ensures act.Write? ==> Perform(o, act) == Writing(o, act.who, act.n, act.audience, Truncated(act.text))
    ensures act.Quit? ==> Perform(o, act) == Quitted(o, act.who, act.audience, Truncated(act.text))
    ensures act.Close? ==> Perform(o, act) == Forced(o, act.who, act.audience, Truncated(act.text))
  {
    hide Sent, SentAll, Quitted, Forced, Written, Truncated, Fits;
    match act
    case SendTo(who, text) => SentCut(o, who, text);
    case SendToAll(members, except, text) => SentAllCut(o, members, except, text);
    case Write(who, n, audience, text) => ForcedCut(o, who, audience, text);
    case Quit(who, audience, text) => QuittedCut(o, who, audience, text);
    case Close(who, audience, text) => ForcedCut(o, who, audience, text);
    case _ =>
  }

  // ----- Whole runs -----

  /** Every act of the run is one that the operating system and the blocks allow. */
  ghost predicate AllAllowed(acts: seq<Act>) {
    forall i :: 0 <= i < |acts| ==> Allowed(After(Start(), acts[..i]), acts[i])
  }

  /** The sending side itself, run from its start: it ends as the acts say, with everything that holds over such runs. */
  method Run(acts: seq<Act>) returns (d: Delivery, list: seq<Client>)
    requires AllAllowed(acts)
    ensures d.Valid() && d.clients == list && d.Snap() == After(Start(), acts)
  {
    hide *;
    d := new Delivery();
    list := [];
    NoActs();
    for i := 0 to |acts|
      invariant fresh(d) && d.Valid() && d.clients == list && fresh(d.clients)
      invariant d.Snap() == After(Start(), acts[..i])
    {
      NextAllowed(acts, i);
      ghost var before := list;
      list := d.Do(acts[i], list);
      assert forall k :: 0 <= k < |list| ==> if k < |before| then list[k] == before[k] else k == |before|;
    }
    assert acts[..|acts|] == acts;
  }

  lemma NoActs()
    ensures forall acts: seq<Act> :: acts[..0] == [] && After(Start(), acts[..0]) == Start()
  {
  }

  lemma NextAllowed(acts: seq<Act>, i: nat)
    requires AllAllowed(acts) && i < |acts|
    ensures Allowed(After(Start(), acts[..i]), acts[i])
    ensures After(Start(), acts[..i + 1]) == Perform(After(Start(), acts[..i]), acts[i])
  {
    assert acts[..i + 1][..i] == acts[..i];
  }
}
