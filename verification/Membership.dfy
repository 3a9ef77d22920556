/** The server's operations on its directories, owning lists and channels, against their effect on values. */
module Membership {
  import opened ServerState
  import opened Transitions

  /** The loops that take a client out of a vector: the last element takes its place. */
  method RemoveUnordered(s: seq<Client>, c: Client) returns (r: seq<Client>)
    ensures r == Without(s, c)
  {
    for i := 0 to |s|
      invariant c !in s[..i]
    {
      if s[i] == c {
        FirstIndex(s, c, i);
        r := s[i := s[|s| - 1]][..|s| - 1];
        return;
      }
      assert s[..i + 1] == s[..i] + [s[i]];
    }
    assert s[..|s|] == s;
    return s;
  }

  lemma {:induction false} FirstIndex(s: seq<Client>, c: Client, i: nat)
    requires i < |s| && s[i] == c && c !in s[..i]
    ensures IndexOf(s, c) == i
  {
    if s[0] != c {
      assert s[1..][..i - 1] == s[..i][1..];
      FirstIndex(s[1..], c, i - 1);
    }
  }

  /** A weak handle in a map is a reference to an object that may have been destroyed; locking it succeeds exactly
      for the objects that exist. */
  class Server {
    const mServerPassword: string
    var mClients: map<string, Client>
    var mUnregistedClients: seq<Client>
    var mChannels: map<string, Channel>
    var mClientReleaseQueue: seq<Client>
    var receivedClientMsgProcessQueue: seq<Client>   // the event loop's
    var objects: set<Client>                         // the client objects that exist
    ghost var channels: set<Channel>                 // the channel objects ever made

    ghost function Snap(): State
      reads this, objects, channels
    {
      State(mServerPassword, mClients, mUnregistedClients, mClientReleaseQueue, receivedClientMsgProcessQueue, mChannels,
            ClientStates(), ChannelStates())
    }

    ghost function ClientStates(): map<Client, ClientState>
      reads this`objects, objects
    {
      map c | c in objects :: c.State()
    }

    ghost function ChannelStates(): map<Channel, ChannelState>
      reads this`channels, channels
    {
      map ch | ch in channels :: ch.State()
    }

    constructor (password: string)
      ensures Snap() == State(password, map[], [], [], [], map[], map[], map[]) && objects == {} && channels == {}
    {
      mServerPassword := password;
      mClients, mChannels := map[], map[];
      mUnregistedClients, mClientReleaseQueue, receivedClientMsgProcessQueue := [], [], [];
      objects, channels := {}, {};
      new;
      assert ClientStates() == map[];
    }

    // ----- Lifetime -----

    predicate IsOwned(c: Client)
      reads this`mClients, this`mUnregistedClients, this`mClientReleaseQueue, this`receivedClientMsgProcessQueue
    {
      c in mClients.Values || c in mUnregistedClients || c in mClientReleaseQueue || c in receivedClientMsgProcessQueue
    }

    lemma ClientAt(c: Client)
      ensures c in Snap().client <==> c in objects
      ensures c in objects ==> Snap().client[c] == c.State() && Snap().client[c].nickname == c.Nickname && Snap().client[c].bExpired == c.bExpired
    {
    }

    lemma ChannelAt(ch: Channel)
      ensures ch in Snap().channel <==> ch in channels
      ensures ch in channels ==> Snap().channel[ch] == ch.State()
    {
    }

    /** The destruction of the client objects whose last handle has gone. */
    method Sweep()
      modifies this`objects
      ensures Snap() == Swept(old(Snap())) && objects == set c | c in old(objects) && IsOwned(c)
    {
      hide ChannelStates;
      objects := set c | c in objects && IsOwned(c);
      assert ClientStates() == Swept(old(Snap())).client;
    }

    predicate IsAlive(ch: Channel)
      reads this`objects, objects`Channels
    {
      exists c :: c in objects && ch in c.Channels.Values
    }

    lemma AliveIs(ch: Channel)
      ensures IsAlive(ch) <==> Alive(Snap(), ch)
    {
      if IsAlive(ch) {
        var c :| c in objects && ch in c.Channels.Values;
        assert c in Snap().client && ch in Snap().client[c].channels.Values;
      }
      if Alive(Snap(), ch) {
        var c :| c in Snap().client && ch in Snap().client[c].channels.Values;
        assert c in objects && ch in c.Channels.Values;
      }
    }

    /** A new connection; c is the object just made for it. */
    method Accept(c: Client)
      requires c !in objects && c.State() == NewClient()
      modifies this`objects, this`mUnregistedClients
      ensures Snap() == Accepted(old(Snap()), c) && objects == old(objects) + {c}
    {
      objects := objects + {c};
      mUnregistedClients := mUnregistedClients + [c];
      assert Snap().client == Accepted(old(Snap()), c).client;
    }

    /** Bytes were received from the client. */
    method Receive(c: Client)
      requires c in objects
      modifies this`receivedClientMsgProcessQueue
      ensures Snap() == Received(old(Snap()), c)
    {
      if c.bSocketClosed || c.bExpired {
        return;
      }
      receivedClientMsgProcessQueue := receivedClientMsgProcessQueue + [c];
    }

    /** The processing queue is cleared when it has been worked off. */
    method ClearProcessQueue()
      modifies this`receivedClientMsgProcessQueue, this`objects
      ensures Snap() == Processed(old(Snap())) && objects <= old(objects)
    {
      hide ClientStates, ChannelStates, Swept;
      receivedClientMsgProcessQueue := [];
      Sweep();
    }

    /** mClientReleaseQueue.clear(). */
    method ReleaseClients()
      modifies this`mClientReleaseQueue, this`objects
      ensures Snap() == Released(old(Snap())) && objects <= old(objects)
    {
      hide ClientStates, ChannelStates, Swept;
      mClientReleaseQueue := [];
      Sweep();
    }

    // ----- Lookups -----

    method FindClientGlobal(nickname: string) returns (c: Client?)
      requires Core(Snap())
      modifies this`mClients, this`objects
      ensures Snap() == Lookup(old(Snap()), nickname) && c == Found(old(Snap()), nickname)
      ensures objects <= old(objects)
    {
      hide ChannelStates, Swept, Kept, OwnersExist, Waiting, AllDecent, Named, Keyed;
      if nickname in mClients {
        ClientAt(mClients[nickname]);
        hide ClientStates;
        if mClients[nickname].bExpired {
          mClients := mClients - {nickname};
          Sweep();
          return null;
        }
        return mClients[nickname];
      }
      return null;
    }

    /** The entry's weak handle is locked, which succeeds while somebody holds the channel. */
    method FindChannelGlobal(name: string) returns (ch: Channel?)
      requires Core(Snap())
      ensures ch == FoundChannel(Snap(), name)
      ensures ch == null <==> forall c :: c in objects ==> name !in c.Channels
      ensures ch != null ==> ch in channels && ch.Name == name && forall c :: c in objects && name in c.Channels ==> c.Channels[name] == ch
    {
      FoundChannelIsHeld(Snap(), name);
      forall c | c in objects ensures c in Snap().client && Snap().client[c].channels == c.Channels {}
      if name in mChannels {
        AliveIs(mChannels[name]);
        if IsAlive(mChannels[name]) {
          ch := mChannels[name];
          assert ch in Snap().channel;
          return;
        }
      }
      return null;
    }

    predicate Finding(ch: Channel, nickname: string)
      reads this`objects, ch`Clients
    {
      nickname in ch.Clients && ch.Clients[nickname] in objects
    }

    lemma FindingIs(ch: Channel, nickname: string)
      requires ch in channels
      ensures Finding(ch, nickname) <==> Finds(Snap(), ch, nickname)
    {
    }

    // ----- Changes to one client -----

    method MarkRegistered(c: Client)
      requires c in objects
      modifies c`bRegistered
      ensures Snap() == Put(old(Snap()), c, old(c.State()).(bRegistered := true))
    {
      hide ChannelStates;
      c.bRegistered := true;
      assert ClientStates() == old(ClientStates())[c := c.State()];
    }

    method SetServerPass(c: Client, pass: string)
      requires c in objects
      modifies c`ServerPass
      ensures Snap() == Put(old(Snap()), c, old(c.State()).(serverPass := pass))
    {
      hide ChannelStates;
      c.ServerPass := pass;
      assert ClientStates() == old(ClientStates())[c := c.State()];
    }

    method SetNames(c: Client, username: string, realname: string)
      requires c in objects
      modifies c`Username, c`Realname
      ensures Snap() == Put(old(Snap()), c, old(c.State()).(username := username, realname := realname))
    {
      hide ChannelStates;
      c.Username := username;
      c.Realname := realname;
      assert ClientStates() == old(ClientStates())[c := c.State()];
    }

    method SetNickname(c: Client, nickname: string)
      requires c in objects
      modifies c`Nickname
      ensures Snap() == Put(old(Snap()), c, old(c.State()).(nickname := nickname))
    {
      hide ChannelStates;
      c.Nickname := nickname;
      assert ClientStates() == old(ClientStates())[c := c.State()];
    }

    method Expire(c: Client, bClose: bool)
      requires c in objects
      modifies c`bExpired, c`bSocketClosed, c`Channels
      ensures Snap() == Put(old(Snap()), c, old(c.State()).(bExpired := true, bSocketClosed := bClose || old(c.bSocketClosed),
                                                              channels := if bClose then old(c.Channels) else map[]))
    {
      hide ChannelStates;
      c.bExpired := true;
      if bClose {
        c.bSocketClosed := true;
      } else {
        c.Channels := map[];
      }
      assert ClientStates() == old(ClientStates())[c := c.State()];
    }

    // ----- Registration -----

    /** registerClient. */
    method RegisterClient(c: Client) returns (b: bool)
      requires Core(Snap()) && c in objects && c in receivedClientMsgProcessQueue && !c.bRegistered
      modifies this`mClients, this`mUnregistedClients, this`objects, c`bRegistered
      ensures Snap() == Register(old(Snap()), c) && b == MayRegister(old(Snap()), c)
      ensures objects <= old(objects)
    {
      ClientAt(c);
      hide Core, ClientStates, ChannelStates, Lookup, Found, Without;
      if c.Username == "" || c.Realname == "" || c.Nickname == "" {
        return false;
      }
      if c.ServerPass != mServerPassword {
        return false;
      }
      LookupKeeps(Snap(), c.Nickname);
      var other := FindClientGlobal(c.Nickname);
      if other != null {
        FoundIsThere(old(Snap()), c.Nickname);
        return false;
      }
      ClientAt(c);
      MarkRegistered(c);
      mClients := mClients[c.Nickname := c];
      mUnregistedClients := RemoveUnordered(mUnregistedClients, c);
      return true;
    }

    lemma FoundIsThere(s: State, n: string)
      requires Found(s, n) != null
      ensures Lookup(s, n) == s && Found(s, n) in s.client
    {
    }

    /** PASS. */
    method Pass(c: Client, arguments: seq<string>)
      requires Core(Snap()) && c in objects && c in receivedClientMsgProcessQueue
      modifies this`mClients, this`mUnregistedClients, this`objects, c`bRegistered, c`ServerPass
      ensures Snap() == Passed(old(Snap()), c, arguments) && objects <= old(objects)
    {
      ClientAt(c);
      hide Core, ClientStates, ChannelStates, Register;
      if c.bExpired || c.bRegistered || arguments == [] {
        return;
      }
      IntroducedKeeps(Snap(), c, c.State().(serverPass := arguments[0]));
      SetServerPass(c, arguments[0]);
      var b := RegisterClient(c);
    }

    /** USER. bTrapped says that the handler's assertion on empty names fails; nothing has changed then. */
    method User(c: Client, arguments: seq<string>) returns (bTrapped: bool)
      requires Core(Snap()) && c in objects && c in receivedClientMsgProcessQueue
      modifies this`mClients, this`mUnregistedClients, this`objects, c`bRegistered, c`Username, c`Realname
      ensures Snap() == Introduced(old(Snap()), c, arguments) && objects <= old(objects)
      ensures bTrapped <==> !c.bExpired && !old(c.bRegistered) && |arguments| >= 4 && MeetsEmptyName(arguments)
    {
      ClientAt(c);
      hide Core, ClientStates, ChannelStates, Register;
      bTrapped := false;
      if c.bExpired || c.bRegistered || |arguments| < 4 {
        return;
      }
      for i := 0 to 4
        invariant forall j :: 0 <= j < i ==> IsUserName(arguments[j]) && arguments[j] != ""
      {
        if !IsUserName(arguments[i]) {
          return;
        }
        if arguments[i] == "" {
          bTrapped := true;
          return;
        }
      }
      hide IsUserName;
      IntroducedKeeps(Snap(), c, c.State().(username := arguments[0], realname := arguments[3]));
      SetNames(c, arguments[0], arguments[3]);
      var b := RegisterClient(c);
    }

    // ----- NICK -----

    /** The first argument of a message is never empty (module Tokeniser, FirstArgumentNotEmpty). */
    method Nick(c: Client, arguments: seq<string>)
      requires Core(Snap()) && c in objects && c in receivedClientMsgProcessQueue
      requires arguments != [] ==> arguments[0] != ""
      modifies this`mClients, this`mUnregistedClients, this`objects, c`Nickname, c`bRegistered, channels`Clients
      ensures Snap() == Nicked(old(Snap()), c, arguments) && objects <= old(objects)
    {
      ClientAt(c);
      hide Core, ClientStates, ChannelStates, Lookup, Found, Register, Renamed;
      if c.bExpired || arguments == [] || !IsNickname(arguments[0]) {
        return;
      }
      LookupKeeps(Snap(), arguments[0]);
      var other := FindClientGlobal(arguments[0]);
      if other != null {
        FoundIsThere(old(Snap()), arguments[0]);
        return;
      }
      ClientAt(c);
      if !c.bRegistered {
        IntroducedKeeps(Snap(), c, c.State().(nickname := arguments[0]));
        SetNickname(c, arguments[0]);
        var b := RegisterClient(c);
      } else {
        Rename(c, arguments[0]);
      }
    }

    /** The rename of a registered client. */
    method Rename(c: Client, newNickname: string)
      requires Core(Snap()) && c in objects
      modifies this`mClients, this`objects, c`Nickname, channels`Clients
      ensures Snap() == Renamed(old(Snap()), c, newNickname) && objects <= old(objects)
    {
      ClientAt(c);
      hide Core, ClientStates, ChannelStates, Swept, Relisted;
      var oldNickname := c.Nickname;
      HeldAreNamed(c);
      SetNickname(c, newNickname);
      ClientAt(c);
      mClients := mClients - {oldNickname};
      mClients := mClients[newNickname := c];
      RenameInChannels(c);
      assert Snap() == Refiled(old(Snap()), c, newNickname);
      Sweep();
    }

    /** One turn of the loop over the client's channels. */
    method ListAlso(ch: Channel, c: Client)
      requires ch in channels
      modifies ch`Clients
      ensures ch in old(ChannelStates())
      ensures ChannelStates() == old(ChannelStates())[ch := Listing(old(ChannelStates())[ch], c.Nickname, c)]
      ensures ClientStates() == old(ClientStates())
    {
      hide ClientStates;
      ch.Clients := ch.Clients - {c.Nickname};
      ch.Clients := ch.Clients[c.Nickname := c];
      assert ch.Clients == old(ch.Clients)[c.Nickname := c];
      assert ChannelStates() == old(ChannelStates())[ch := ch.State()];
    }

    method RenameInChannels(c: Client)
      requires forall k :: k in c.Channels ==> c.Channels[k] in channels
      modifies channels`Clients
      ensures ChannelStates() == Relisted(old(ChannelStates()), c.Channels.Values, c.Nickname, c)
      ensures ClientStates() == old(ClientStates())
    {
      var left := c.Channels.Keys;
      ghost var seen: set<Channel> := {};
      RelistedNone(ChannelStates(), c.Nickname, c);
      hide ClientStates, ChannelStates, Relisted, Listing;
      while left != {}
        invariant left <= c.Channels.Keys && seen <= c.Channels.Values
        invariant forall k :: k in c.Channels && k !in left ==> c.Channels[k] in seen
        invariant ChannelStates() == Relisted(old(ChannelStates()), seen, c.Nickname, c) && ClientStates() == old(ClientStates())
      {
        var k :| k in left;
        var ch := c.Channels[k];
        ListAlso(ch, c);
        RelistedMore(old(ChannelStates()), seen, ch, c.Nickname, c);
        left := left - {k};
        seen := seen + {ch};
      }
      assert seen == c.Channels.Values;
    }

    // ----- Joining and leaving one channel -----

    /** joinClientToChannel. */
    method JoinClientToChannel(c: Client, ch: Channel)
      requires c in objects && ch in channels
      modifies c`Channels, ch`Clients
      ensures Snap() == Linked(old(Snap()), c, ch)
    {
      c.Channels := c.Channels[ch.Name := ch];
      ch.Clients := ch.Clients[c.Nickname := c];
      assert ClientStates() == old(ClientStates())[c := c.State()];
      assert ChannelStates() == old(ChannelStates())[ch := ch.State()];
    }

    /** partClientFromChannel. */
    method PartClientFromChannel(c: Client, ch: Channel)
      requires c in objects && ch in channels
      modifies c`Channels, ch`Clients, ch`Operators
      ensures Snap() == Unlinked(old(Snap()), c, ch)
      ensures c.Channels == old(c.Channels) - {ch.Name} && ch.Clients == old(ch.Clients) - {c.Nickname}
      ensures ch.Operators == old(ch.Operators) - {c.Nickname}
    {
      ch.Clients := ch.Clients - {c.Nickname};
      ch.Operators := ch.Operators - {c.Nickname};
      c.Channels := c.Channels - {ch.Name};
      assert ClientStates() == old(ClientStates())[c := c.State()];
      assert ChannelStates() == old(ChannelStates())[ch := ch.State()];
    }

    // ----- The end of a client -----

    /** forceDisconnectClient. */
    method ForceDisconnect(c: Client)
      requires Core(Snap()) && c in objects
      modifies this`mClients, this`mUnregistedClients, this`mClientReleaseQueue, this`objects
      modifies c`bExpired, c`bSocketClosed, c`Channels, channels`Clients, channels`Operators
      ensures Snap() == ForceDisconnected(old(Snap()), c) && objects <= old(objects)
    {
      ClientAt(c);
      HeldAreNamed(c);
      hide Core, ClientStates, ChannelStates, Swept, CutOff, HeldByName;
      if c.bSocketClosed {
        return;
      }
      CutOffClient(c);
      Sweep();
    }

    method CutOffClient(c: Client)
      requires c in objects && HeldByName(c.Channels)
      modifies this`mClients, this`mUnregistedClients, this`mClientReleaseQueue
      modifies c`bExpired, c`bSocketClosed, c`Channels, channels`Clients, channels`Operators
      ensures Snap() == CutOff(old(Snap()), c)
    {
      hide ClientStates, ChannelStates, Without, Delisted, HeldByName;
      var n := c.Nickname;
      CloseClient(c);
      mUnregistedClients := RemoveUnordered(mUnregistedClients, c);
      mClients := mClients - {n};
      mClientReleaseQueue := mClientReleaseQueue + [c];
    }

    /** The flags and the channels. */
    method CloseClient(c: Client)
      requires c in objects && HeldByName(c.Channels)
      modifies c`bExpired, c`bSocketClosed, c`Channels, channels`Clients, channels`Operators
      ensures c in old(ClientStates()) && old(ClientStates())[c] == old(c.State())
      ensures ClientStates() == old(ClientStates())[c := old(c.State()).(bExpired := true, bSocketClosed := true, channels := map[])]
      ensures ChannelStates() == Delisted(old(ChannelStates()), old(c.Channels.Values), c.Nickname)
    {
      hide ChannelStates, Delisted, HeldByName, Snap;
      ghost var closed := c.State().(bExpired := true, bSocketClosed := true);
      c.bExpired := true;
      c.bSocketClosed := true;
      OnlyThis(old(ClientStates()), c);
      hide ClientStates;
      LeaveChannels(c);
      PutTwice(old(ClientStates()), c, closed, closed.(channels := map[]));
    }

    lemma OnlyThis(before: map<Client, ClientState>, c: Client)
      requires before.Keys == objects && c in objects && forall d :: d in objects && d != c ==> d.State() == before[d]
      ensures ClientStates() == before[c := c.State()]
    {
    }

    /** The channels a client holds are channels, each under its own name. */
    lemma HeldAreNamed(c: Client)
      requires Core(Snap()) && c in objects
      ensures HeldByName(c.Channels)
    {
      ClientAt(c);
      assert HoldsNamed(Snap(), c);
      forall k | k in c.Channels ensures c.Channels[k] in channels && c.Channels[k].Name == k {
        assert Snap().mChannels[k] == c.Channels[k];
        ChannelAt(c.Channels[k]);
      }
    }

    /** One turn of the loop. */
    method LeaveChannel(c: Client, ch: Channel)
      requires c in objects && ch in channels
      modifies c`Channels, ch`Clients, ch`Operators
      ensures c in old(ClientStates()) && ch in old(ChannelStates()) && c.Channels == old(c.Channels) - {ch.Name}
      ensures ClientStates() == old(ClientStates())[c := old(ClientStates())[c].(channels := c.Channels)]
      ensures ChannelStates() == old(ChannelStates())[ch := Stripped(old(ChannelStates())[ch], c.Nickname)]
    {
      PartClientFromChannel(c, ch);
    }

    /** Each turn of the loop takes exactly the entry it looked at out of the client's map. */
    method LeaveChannels(c: Client)
      requires c in objects && HeldByName(c.Channels)
      modifies c`Channels, channels`Clients, channels`Operators
      ensures c in old(ClientStates())
      ensures ClientStates() == old(ClientStates())[c := old(ClientStates())[c].(channels := map[])]
      ensures ChannelStates() == Delisted(old(ChannelStates()), old(c.Channels.Values), c.Nickname)
    {
      ghost var was, wasC, held := ChannelStates(), ClientStates(), c.Channels.Values;
      LeavingStarts(c);
      while c.Channels != map[]
        invariant Leaving(c, was, wasC, held)
        decreases c.Channels.Keys
      {
        hide Leaving;
        LeaveOneOf(c, was, wasC, held);
      }
      assert held - c.Channels.Values == held;
    }

    /** What the loop has done so far. */
    ghost predicate Leaving(c: Client, was: map<Channel, ChannelState>, wasC: map<Client, ClientState>, held: set<Channel>)
      reads this`objects, objects, this`channels, channels, c
    {
      && c in objects && HeldByName(c.Channels) && c.Channels.Values <= held && was.Keys == channels
      && c in wasC && ClientStates() == wasC[c := wasC[c].(channels := c.Channels)]
      && ChannelStates() == Delisted(was, held - c.Channels.Values, c.Nickname)
    }

    lemma LeavingStarts(c: Client)
      requires c in objects && HeldByName(c.Channels)
      ensures Leaving(c, ChannelStates(), ClientStates(), c.Channels.Values)
    {
      assert c.Channels.Values - c.Channels.Values == {};
      DelistedNone(ChannelStates(), c.Nickname);
      assert ClientStates() == ClientStates()[c := ClientStates()[c].(channels := c.Channels)];
    }

    method LeaveOneOf(c: Client, ghost was: map<Channel, ChannelState>, ghost wasC: map<Client, ClientState>, ghost held: set<Channel>)
      requires Leaving(c, was, wasC, held) && c.Channels != map[]
      modifies c`Channels, channels`Clients, channels`Operators
      ensures Leaving(c, was, wasC, held) && c.Channels.Keys < old(c.Channels.Keys)
    {
      var k :| k in c.Channels;
      LeavingOne(was, held, c.Channels, k, c.Nickname);
      hide ClientStates, ChannelStates, Delisted, Stripped, HeldByName;
      PutTwice(wasC, c, wasC[c].(channels := c.Channels), wasC[c].(channels := c.Channels - {c.Channels[k].Name}));
      LeaveChannel(c, c.Channels[k]);
    }

    lemma PutTwice(m: map<Client, ClientState>, c: Client, x: ClientState, y: ClientState)
      ensures m[c := x][c := y] == m[c := y]
    {
    }

    /** Channels of the server, each under its own name. */
    ghost predicate HeldByName(m: map<string, Channel>)
      reads this`channels
    {
      forall k :: k in m ==> m[k] in channels && m[k].Name == k
    }

    /** One key gone is one channel gone. */
    lemma LeavingOne(before: map<Channel, ChannelState>, held: set<Channel>, m: map<string, Channel>, k: string, n: string)
      requires HeldByName(m) && k in m && m.Values <= held && before.Keys == channels
      ensures var t := m - {m[k].Name};
              && m[k] in channels && HeldByName(t) && t.Values <= held && t.Keys < m.Keys
              && m[k] in Delisted(before, held - m.Values, n)
              && Delisted(before, held - m.Values, n)[m[k] := Stripped(Delisted(before, held - m.Values, n)[m[k]], n)]
                 == Delisted(before, held - t.Values, n)
    {
      var t := m - {k};
      forall x | x in m.Values - {m[k]} ensures x in t.Values {
        var j :| j in m && m[j] == x;
        assert t[j] == x;
      }
      assert m[k] in m.Values && t.Values == m.Values - {m[k]};
      assert held - t.Values == (held - m.Values) + {m[k]};
      DelistedMore(before, held - m.Values, m[k], n);
    }

    /** disconnectClient; bDrained says whether nothing is left to send. */
    method Disconnect(c: Client, bDrained: bool)
      requires Core(Snap()) && c in objects
      modifies this`mClients, this`mUnregistedClients, this`mClientReleaseQueue, this`objects
      modifies c`bExpired, c`bSocketClosed, c`Channels, channels`Clients, channels`Operators
      ensures Snap() == Disconnected(old(Snap()), c, bDrained) && objects <= old(objects)
    {
      ClientAt(c);
      hide Core, ClientStates, ChannelStates, ForceDisconnected;
      if c.bExpired {
        return;
      }
      if bDrained {
        ForceDisconnect(c);
        return;
      }
      Expire(c, false);
    }

    // ----- JOIN -----

    /** A new channel with the client as its operator enters the directory. */
    method CreateChannel(c: Client, name: string) returns (ch: Channel)
      requires c in objects
      modifies this`mChannels, this`channels, c`Channels
      ensures fresh(ch) && Snap() == Created(old(Snap()), c, name, ch) && channels == old(channels) + {ch}
      ensures NewObject(old(Snap()), ch)
    {
      ghost var s := Snap();
      forall d | d in s.client ensures d in objects && s.client[d].channels == d.Channels {}
      ch := new Channel(name, c, c.Nickname);
      OpenChannel(c, ch);
      JoinClientToChannel(c, ch);
    }

    method OpenChannel(c: Client, ch: Channel)
      requires c in objects && ch !in channels
      modifies this`mChannels, this`channels
      ensures channels == old(channels) + {ch}
      ensures Snap() == old(Snap()).(mChannels := old(mChannels)[ch.Name := ch], channel := old(Snap()).channel[ch := ch.State()])
    {
      hide ClientStates;
      channels := channels + {ch};
      mChannels := mChannels[ch.Name := ch];
      assert ChannelStates() == old(ChannelStates())[ch := ch.State()];
    }

    /** One turn of JOIN's loop. */
    method JoinOne(c: Client, name: string, key: string) returns (ghost made: Channel?)
      requires Core(Snap()) && c in objects && c.bRegistered && !c.bExpired && name != ""
      modifies this`mChannels, this`channels, c`Channels, channels`Clients, channels`InvitedClients
      ensures made == null || fresh(made)
      ensures MadeAt(old(Snap()), c, name, made) && Snap() == JoinedOne(old(Snap()), c, name, key, made)
      ensures old(channels) <= channels && fresh(channels - old(channels))
    {
      ClientAt(c);
      made := null;
      hide Core, ClientStates, ChannelStates, FoundChannel, Finds, Admits, Linked, Created, Uninvited, Entered;
      if name[0] != '#' || name[0] == '&' {
        return;
      }
      var ch := FindChannelGlobal(name);
      if ch == null {
        if |name| > MAX_CHANNEL_NAME_LENGTH {
          return;
        }
        made := CreateChannel(c, name);
        return;
      }
      ChannelAt(ch);
      EnterChannel(c, ch, key);
    }

    /** The rest of the turn, for a live channel. */
    method EnterChannel(c: Client, ch: Channel, key: string)
      requires c in objects && ch in channels
      modifies c`Channels, ch`Clients, ch`InvitedClients
      ensures Snap() == if !Finds(old(Snap()), ch, c.Nickname) && Admits(old(Snap()), ch, c, key)
                        then Entered(old(Snap()), c, ch) else old(Snap())
    {
      ClientAt(c);
      FindingIs(ch, c.Nickname);
      hide ClientStates, ChannelStates, Finds, Admits, Linked, Uninvited;
      if Finding(ch, c.Nickname) {
        return;
      }
      var bAdmitted := Admit(c, ch, key);
      if !bAdmitted {
        return;
      }
      JoinClientToChannel(c, ch);
    }

    /** The checks of the modes, in the order key, limit, invitation; an invitation is used up. */
    method Admit(c: Client, ch: Channel, key: string) returns (b: bool)
      requires c in objects && ch in channels
      modifies ch`InvitedClients
      ensures b == Admits(old(Snap()), ch, c, key)
      ensures Snap() == if b then Uninvited(old(Snap()), ch, c.Nickname) else old(Snap())
    {
      ClientAt(c);
      ChannelAt(ch);
      hide ClientStates, ChannelStates;
      if ch.bPrivate && ch.Password != key {
        return false;
      }
      if ch.MaxClients != 0 && |ch.Clients| >= ch.MaxClients {
        return false;
      }
      if ch.bInviteOnly {
        if c.Nickname !in ch.InvitedClients {
          return false;
        }
        UseInvitation(ch, c.Nickname);
      }
      return true;
    }

    method UseInvitation(ch: Channel, nickname: string)
      requires ch in channels
      modifies ch`InvitedClients
      ensures Snap() == old(Snap()).(channel := old(Snap()).channel[ch := old(ch.State()).(invited := old(ch.InvitedClients) - {nickname})])
    {
      hide ClientStates;
      ch.InvitedClients := ch.InvitedClients - {nickname};
      assert ChannelStates() == old(ChannelStates())[ch := ch.State()];
    }

    /** JOIN on the names that the splitter found. */
    method Join(c: Client, names: seq<string>, keys: seq<string>) returns (ghost made: seq<Channel?>)
      requires Core(Snap()) && c in objects && c in receivedClientMsgProcessQueue && forall n :: n in names ==> n != ""
      modifies this`mChannels, this`channels, c`Channels, channels`Clients, channels`InvitedClients
      ensures |made| == |names| && MadeFor(old(Snap()), c, names, keys, made)
      ensures Snap() == JoinedAll(old(Snap()), c, names, keys, made)
      ensures old(channels) <= channels && fresh(channels - old(channels)) && forall x :: x in made && x != null ==> fresh(x)
    {
      ClientAt(c);
      hide Core, ClientStates, ChannelStates, JoinedOne, MadeAt, MadeFor;
      made := [];
      if c.bExpired || !c.bRegistered {
        made := seq(|names|, _ => null);
        NotJoining(Snap(), c, names, keys, made);
        return;
      }
      NobodyJoined(Snap(), c, keys);
      for i := 0 to |names|
        invariant |made| == i && Core(Snap()) && MadeFor(old(Snap()), c, names[..i], keys, made)
        invariant Snap() == JoinedAll(old(Snap()), c, names[..i], keys, made)
        invariant old(channels) <= channels && fresh(channels - old(channels)) && forall x :: x in made && x != null ==> fresh(x)
      {
        ghost var t := Snap();
        ClientAt(c);
        assert names[i] in names;
        ghost var ch := JoinOne(c, names[i], if i < |keys| then keys[i] else "");
        JoinedStep(t, c, names[i], if i < |keys| then keys[i] else "", ch);
        JoinedMore(old(Snap()), c, names[..i], keys, made, names[i], ch);
        assert names[..i + 1] == names[..i] + [names[i]];
        made := made + [ch];
      }
      assert names[..|names|] == names;
    }

    lemma NobodyJoined(s: State, c: Client, keys: seq<string>)
      ensures MadeFor(s, c, [], keys, [])
    {
    }

    // ----- PART, KICK, INVITE, PRIVMSG -----

    /** One turn of PART's loop. */
    method PartOne(c: Client, name: string)
      requires Core(Snap()) && c in objects
      modifies c`Channels, channels`Clients, channels`Operators
      ensures Snap() == PartedOne(old(Snap()), c, name)
    {
      ClientAt(c);
      hide Core, ClientStates, ChannelStates, FoundChannel, Finds, Unlinked;
      var ch := FindChannelGlobal(name);
      if ch == null {
        return;
      }
      ChannelAt(ch);
      FindingIs(ch, c.Nickname);
      if !Finding(ch, c.Nickname) {
        return;
      }
      PartClientFromChannel(c, ch);
    }

    method Part(c: Client, names: seq<string>)
      requires Core(Snap()) && c in objects && c in receivedClientMsgProcessQueue
      modifies c`Channels, channels`Clients, channels`Operators
      ensures Snap() == Parted(old(Snap()), c, names)
    {
      ClientAt(c);
      hide Core, ClientStates, ChannelStates, PartedOne;
      if c.bExpired || !c.bRegistered {
        return;
      }
      for i := 0 to |names|
        invariant Core(Snap()) && Snap() == PartedAll(old(Snap()), c, names[..i])
      {
        ghost var t := Snap();
        ClientAt(c);
        PartedOneKeeps(t, c, names[i]);
        PartOne(c, names[i]);
        assert names[..i + 1][..i] == names[..i];
      }
      assert names[..|names|] == names;
    }

    /** The channel, if the client commands it: the checks that KICK and INVITE share. */
    method CommandedChannel(c: Client, name: string) returns (ch: Channel?)
      requires Core(Snap()) && c in objects && c.bRegistered && !c.bExpired
      ensures ch == (if Commands(Snap(), c, name) then FoundChannel(Snap(), name) else null)
      ensures ch != null ==> ch in channels
    {
      ClientAt(c);
      hide Core, ClientStates, ChannelStates, FoundChannel, Finds;
      ch := FindChannelGlobal(name);
      if ch == null {
        return;
      }
      ChannelAt(ch);
      FindingIs(ch, c.Nickname);
      if !Finding(ch, c.Nickname) {
        return null;
      }
      if !ch.IsOperator(c.Nickname) {
        return null;
      }
    }

    method Kick(c: Client, arguments: seq<string>)
      requires Core(Snap()) && c in objects && c in receivedClientMsgProcessQueue
      modifies this`mClients, this`objects, objects`Channels, channels`Clients, channels`Operators
      ensures Snap() == Kicked(old(Snap()), c, arguments) && objects <= old(objects)
    {
      ClientAt(c);
      hide Core, ClientStates, ChannelStates, FoundChannel, Found, Finds, Unlinked, Lookup;
      if c.bExpired || !c.bRegistered || |arguments| < 2 {
        return;
      }
      var ch := CommandedChannel(c, arguments[0]);
      if ch == null {
        return;
      }
      LookupKeeps(Snap(), arguments[1]);
      var target := FindClientGlobal(arguments[1]);
      if target == null {
        return;
      }
      FoundIsThere(old(Snap()), arguments[1]);
      ClientAt(target);
      ChannelAt(ch);
      FindingIs(ch, arguments[1]);
      if !Finding(ch, arguments[1]) {
        return;
      }
      PartClientFromChannel(target, ch);
    }

    method Invite(c: Client, arguments: seq<string>)
      requires Core(Snap()) && c in objects && c in receivedClientMsgProcessQueue
      modifies this`mClients, this`objects, channels`InvitedClients
      ensures Snap() == Invited(old(Snap()), c, arguments) && objects <= old(objects)
    {
      ClientAt(c);
      hide Core, ClientStates, ChannelStates, FoundChannel, Found, Finds, Lookup;
      if c.bExpired || !c.bRegistered || |arguments| < 2 {
        return;
      }
      var ch := CommandedChannel(c, arguments[1]);
      if ch == null {
        return;
      }
      LookupKeeps(Snap(), arguments[0]);
      var target := FindClientGlobal(arguments[0]);
      if target == null {
        return;
      }
      ChannelAt(ch);
      FindingIs(ch, arguments[0]);
      if Finding(ch, arguments[0]) || arguments[0] in ch.InvitedClients {
        return;
      }
      AddInvitation(ch, arguments[0], target);
    }

    method AddInvitation(ch: Channel, nickname: string, target: Client)
      requires ch in channels
      modifies ch`InvitedClients
      ensures Snap() == old(Snap()).(channel := old(Snap()).channel[ch := old(ch.State()).(invited := old(ch.InvitedClients)[nickname := target])])
    {
      hide ClientStates;
      ch.InvitedClients := ch.InvitedClients[nickname := target];
      assert ChannelStates() == old(ChannelStates())[ch := ch.State()];
    }

    /** PRIVMSG, as far as it looks receivers up. */
    method PrivMsg(c: Client, receivers: seq<string>)
      requires Core(Snap()) && c in objects && c in receivedClientMsgProcessQueue && forall r :: r in receivers ==> r != ""
      modifies this`mClients, this`objects
      ensures Snap() == Messaged(old(Snap()), c, receivers) && objects <= old(objects)
    {
      ClientAt(c);
      hide Core, ClientStates, ChannelStates, Lookup;
      if c.bExpired || !c.bRegistered {
        return;
      }
      for i := 0 to |receivers|
        invariant Core(Snap()) && objects <= old(objects)
        invariant Snap() == LookedUp(old(Snap()), Nicknames(receivers[..i]))
      {
        assert receivers[i] in receivers && receivers[..i + 1][..i] == receivers[..i];
        ghost var ns := Nicknames(receivers[..i]);
        if receivers[i][0] == '#' {
          assert ns + [] == ns;
          var ch := FindChannelGlobal(receivers[i]);
        } else {
          assert (ns + [receivers[i]])[..|ns|] == ns;
          LookupKeeps(Snap(), receivers[i]);
          var user := FindClientGlobal(receivers[i]);
        }
      }
      assert receivers[..|receivers|] == receivers;
    }
  }
}
