/** The state of the server: clients, channels, the directories and the lists that own clients, as objects and as
    values, and what is invariant of it. */
module ServerState {

  const MAX_NICKNAME_LENGTH := 9
  const MAX_CHANNEL_NAME_LENGTH := 200

  // ----- Names -----

  predicate IsNameChar(c: char) {
    ('a' <= c <= 'z') || ('A' <= c <= 'Z') || ('0' <= c <= '9') || c == '_'
  }

  predicate IsNickname(s: string) {
    |s| <= MAX_NICKNAME_LENGTH && forall i :: 0 <= i < |s| ==> IsNameChar(s[i])
  }

  predicate IsUserName(s: string) {
    forall i :: 0 <= i < |s| ==> IsNameChar(s[i]) || s[i] == '*'
  }

  // ----- Objects -----

  class Client {
    var Nickname: string
    var Username: string
    var Realname: string
    var ServerPass: string
    var bRegistered: bool
    var bExpired: bool
    var bSocketClosed: bool
    var Channels: map<string, Channel>

    constructor ()
      ensures State() == NewClient()
    {
      Nickname, Username, Realname, ServerPass := "", "", "", "";
      bRegistered, bExpired, bSocketClosed := false, false, false;
      Channels := map[];
    }

    ghost function State(): ClientState
      reads this
    {
      ClientState(Nickname, Username, Realname, ServerPass, bRegistered, bExpired, bSocketClosed, Channels)
    }
  }

  class Channel {
    const Name: string
    var Clients: map<string, Client>
    var Operators: map<string, Client>
    var InvitedClients: map<string, Client>
    var Password: string
    var MaxClients: nat
    var bInviteOnly: bool
    var bTopicProtected: bool
    var bPrivate: bool

    constructor (name: string, creator: Client, creatorNickname: string)
      ensures State() == NewChannel(name, creator, creatorNickname)
    {
      Name := name;
      Clients := map[creatorNickname := creator];
      Operators := map[creatorNickname := creator];
      InvitedClients := map[];
      Password, MaxClients := "", 0;
      bInviteOnly, bTopicProtected, bPrivate := false, false, false;
    }

    ghost function State(): ChannelState
      reads this
    {
      ChannelState(Name, Clients, Operators, InvitedClients, Password, MaxClients, bInviteOnly, bTopicProtected, bPrivate)
    }

    predicate IsOperator(nickname: string)
      reads this`Operators
    {
      nickname in Operators
    }
  }

  // ----- Values -----

  datatype ClientState = ClientState(
    nickname: string, username: string, realname: string, serverPass: string,
    bRegistered: bool, bExpired: bool, bSocketClosed: bool, channels: map<string, Channel>)
  {
    /** Registered and not expired. */
    predicate Active() {
      bRegistered && !bExpired
    }
  }

  datatype ChannelState = ChannelState(
    name: string, clients: map<string, Client>, operators: map<string, Client>, invited: map<string, Client>,
    password: string, maxClients: nat, bInviteOnly: bool, bTopicProtected: bool, bPrivate: bool)

  function NewClient(): ClientState {
    ClientState("", "", "", "", false, false, false, map[])
  }

  function NewChannel(name: string, creator: Client, nickname: string): ChannelState {
    ChannelState(name, map[nickname := creator], map[nickname := creator], map[], "", 0, false, false, false)
  }

  /** client holds the client objects that exist, channel every channel object made. */
  datatype State = State(
    password: string,
    mClients: map<string, Client>, unregistered: seq<Client>, released: seq<Client>, processing: seq<Client>,
    mChannels: map<string, Channel>,
    client: map<Client, ClientState>, channel: map<Channel, ChannelState>)

  // ----- Lifetime -----

  /** One of the server's containers holds a strong handle on the client. */
  predicate Owned(s: State, older c: Client) {
    c in s.mClients.Values || c in s.unregistered || c in s.released || c in s.processing
  }

  /** The client objects that nothing owns any more are destroyed. */
  function Swept(s: State): State {
    s.(client := map c | c in s.client && Owned(s, c) :: s.client[c])
  }

  /** A channel lives while an existing client holds it. */
  predicate Alive(s: State, ch: Channel) {
    exists c :: c in s.client && ch in s.client[c].channels.Values
  }

  // ----- Lookups -----

  /** findClientGlobal: the unexpired client filed under the nickname. */
  function Found(s: State, nickname: string): Client? {
    if nickname in s.mClients && s.mClients[nickname] in s.client && !s.client[s.mClients[nickname]].bExpired
    then s.mClients[nickname] else null
  }

  predicate FiledExpired(s: State, nickname: string) {
    nickname in s.mClients && s.mClients[nickname] in s.client && s.client[s.mClients[nickname]].bExpired
  }

  /** What findClientGlobal does to the server: an expired entry goes, and the client with it if nothing else owns it. */
  function Lookup(s: State, nickname: string): State {
    if FiledExpired(s, nickname) then Swept(s.(mClients := s.mClients - {nickname})) else s
  }

  /** findChannelGlobal. */
  function FoundChannel(s: State, name: string): Channel? {
    if name in s.mChannels && Alive(s, s.mChannels[name]) then s.mChannels[name] else null
  }

  /** ChannelControlBlock::FindClient: the entry's weak handle can be locked. */
  predicate Finds(s: State, ch: Channel, nickname: string) {
    ch in s.channel && nickname in s.channel[ch].clients && s.channel[ch].clients[nickname] in s.client
  }

  // ----- What holds in every state -----

  /** Exactly the clients that are owned exist. */
  ghost predicate Kept(s: State) {
    OwnersExist(s) && forall c :: c in s.client ==> Owned(s, c)
  }

  ghost predicate OwnersExist(s: State) {
    forall c :: Owned(s, c) ==> c in s.client
  }

  /** A directory key is its client's nickname, and the client is registered. */
  ghost predicate Directory(s: State) {
    forall k :: k in s.mClients ==> s.mClients[k] in s.client && s.client[s.mClients[k]].nickname == k && s.client[s.mClients[k]].bRegistered
  }

  /** The client gave its three names and the server password. */
  predicate Complete(s: State, c: Client)
    requires c in s.client
  {
    GaveAll(s.password, s.client[c])
  }

  predicate GaveAll(password: string, k: ClientState) {
    k.nickname != "" && k.username != "" && k.realname != "" && k.serverPass == password
  }

  /** A registered client gave its names and the password; only an active one holds channels; a closed one is expired. */
  predicate Decent(password: string, k: ClientState) {
    && (k.bRegistered ==> GaveAll(password, k))
    && (k.Active() || k.channels == map[])
    && (k.bSocketClosed ==> k.bExpired)
  }

  ghost predicate AllDecent(s: State) {
    forall c :: c in s.client ==> Decent(s.password, s.client[c])
  }

  ghost predicate Distinct(s: seq<Client>) {
    forall i, j :: 0 <= i < j < |s| ==> s[i] != s[j]
  }

  /** The clients on the list of unregistered ones are there once and are not registered; those in the release queue
      are closed. */
  ghost predicate Waiting(s: State) {
    && Distinct(s.unregistered)
    && (forall c :: c in s.unregistered && c in s.client ==> !s.client[c].bRegistered)
    && (forall c :: c in s.released && c in s.client ==> s.client[c].bSocketClosed)
  }

  /** What a client holds under a name is the channel of that name in the channel directory. */
  ghost predicate HoldsNamed(s: State, c: Client)
    requires c in s.client
  {
    forall k :: k in s.client[c].channels ==> k in s.mChannels && s.mChannels[k] == s.client[c].channels[k]
  }

  ghost predicate Named(s: State) {
    && (forall k :: k in s.mChannels ==> s.mChannels[k] in s.channel && s.channel[s.mChannels[k]].name == k)
    && (forall c :: c in s.client ==> HoldsNamed(s, c))
  }

  /** The key of a channel is empty while the channel is not private. */
  ghost predicate Keyed(s: State) {
    forall ch :: ch in s.channel ==> s.channel[ch].bPrivate || s.channel[ch].password == ""
  }

  /** All of the above but that unowned clients are gone. */
  ghost predicate Sound(s: State) {
    OwnersExist(s) && Directory(s) && Waiting(s) && AllDecent(s) && Named(s) && Keyed(s)
  }

  /** What every event keeps, whatever happened before. */
  ghost predicate Core(s: State) {
    Kept(s) && Sound(s)
  }

  // ----- What each of these depends on -----

  lemma OwnersFrame(s: State, t: State)
    requires Kept(s) && t.client.Keys == s.client.Keys
    requires t.mClients == s.mClients && t.unregistered == s.unregistered && t.released == s.released && t.processing == s.processing
    ensures Kept(t)
  {
    forall c ensures Owned(t, c) == Owned(s, c) {}
  }

  lemma DirectoryFrame(s: State, t: State)
    requires Directory(s)
    requires forall k :: k in t.mClients ==> k in s.mClients && t.mClients[k] == s.mClients[k]
    requires forall c :: c in t.mClients.Values && c in s.client ==>
               c in t.client && t.client[c].nickname == s.client[c].nickname && t.client[c].bRegistered == s.client[c].bRegistered
    ensures Directory(t)
  {
    forall k | k in t.mClients
      ensures t.mClients[k] in t.client && t.client[t.mClients[k]].nickname == k && t.client[t.mClients[k]].bRegistered
    {
      assert t.mClients[k] in t.mClients.Values;
    }
  }

  /** Only the state of c differs. */
  lemma DecentFrame(s: State, t: State, c: Client)
    requires AllDecent(s) && t.password == s.password
    requires forall d :: d in t.client && d != c ==> d in s.client && t.client[d] == s.client[d]
    requires c in t.client ==> Decent(t.password, t.client[c])
    ensures AllDecent(t)
  {
  }

  lemma NamedFrame(s: State, t: State)
    requires Named(s) && t.mChannels == s.mChannels
    requires forall c :: c in t.client && t.client[c].channels != map[] ==> c in s.client && t.client[c].channels == s.client[c].channels
    requires forall ch :: ch in s.channel ==> ch in t.channel && t.channel[ch].name == s.channel[ch].name
    ensures Named(t)
  {
    forall c | c in t.client ensures HoldsNamed(t, c) {
      assert c in s.client ==> HoldsNamed(s, c);
    }
  }

  lemma KeyedFrame(s: State, t: State)
    requires Keyed(s)
    requires forall ch :: ch in t.channel ==>
               ch in s.channel && t.channel[ch].bPrivate == s.channel[ch].bPrivate && t.channel[ch].password == s.channel[ch].password
    ensures Keyed(t)
  {
  }

  lemma WaitingFrame(s: State, t: State)
    requires Waiting(s) && t.unregistered == s.unregistered
    requires forall c :: c in t.client && t.client[c].bRegistered ==> c in s.client && s.client[c].bRegistered
    requires forall c :: c in t.released && c in t.client ==>
               c in s.released && c in s.client && (s.client[c].bSocketClosed ==> t.client[c].bSocketClosed)
    ensures Waiting(t)
  {
  }

  // ----- What holds until a guard is broken -----

  /** The client holds the channel; the channel lists the client under its present nickname. */
  predicate Holds(s: State, c: Client, ch: Channel)
    requires c in s.client && ch in s.channel
  {
    var n := s.channel[ch].name;
    n in s.client[c].channels && s.client[c].channels[n] == ch
  }

  predicate Lists(s: State, ch: Channel, c: Client)
    requires c in s.client && ch in s.channel
  {
    var n := s.client[c].nickname;
    n in s.channel[ch].clients && s.channel[ch].clients[n] == c
  }

  /** An active client is in the directory. */
  ghost predicate Filed(s: State) {
    forall c :: c in s.client && s.client[c].Active() ==> FiledUnder(s, c)
  }

  predicate FiledUnder(s: State, c: Client)
    requires c in s.client
  {
    s.client[c].nickname in s.mClients && s.mClients[s.client[c].nickname] == c
  }

  /** Membership is two-way. */
  ghost predicate TwoWay(s: State) {
    forall c, ch :: c in s.client && ch in s.channel && s.client[c].Active() ==> (Holds(s, c, ch) <==> Lists(s, ch, c))
  }

  /** An entry of a member map that names an existing client names a registered one, and an active one under no key
      but its nickname. */
  ghost predicate OneKey(s: State) {
    forall ch, k :: ch in s.channel && k in s.channel[ch].clients ==> EntryFits(s, k, s.channel[ch].clients[k])
  }

  predicate EntryFits(s: State, k: string, c: Client) {
    c in s.client ==> s.client[c].bRegistered && (s.client[c].Active() ==> s.client[c].nickname == k)
  }

  /** A channel that an active client holds lists it under its present nickname. */
  ghost predicate HeldListed(s: State) {
    forall c, ch :: c in s.client && ch in s.channel && s.client[c].Active() && Holds(s, c, ch) ==> Lists(s, ch, c)
  }

  /** A channel that lists an active client under its present nickname is held by it. */
  ghost predicate ListedHeld(s: State) {
    forall c, ch :: c in s.client && ch in s.channel && s.client[c].Active() && Lists(s, ch, c) ==> Holds(s, c, ch)
  }

  /** What outlives the rename of a member, and what does not. */
  ghost predicate Firm(s: State) {
    Filed(s) && HeldListed(s)
  }

  ghost predicate Neat(s: State) {
    ListedHeld(s) && OneKey(s)
  }

  lemma SyncParts(s: State)
    ensures InSync(s) <==> Firm(s) && Neat(s)
  {
    hide Filed, OneKey, Holds, Lists;
  }

  ghost predicate InSync(s: State) {
    Filed(s) && TwoWay(s) && OneKey(s)
  }

  ghost predicate Valid(s: State) {
    Core(s) && InSync(s)
  }

  // ----- What the invariants say -----

  /** Two clients in the directory never share a nickname, in any state at all that the server reaches. */
  lemma NicknamesAreUnique(s: State, c: Client, d: Client)
    requires Core(s) && c in s.mClients.Values && d in s.mClients.Values && c in s.client && d in s.client
    requires s.client[c].nickname == s.client[d].nickname
    ensures c == d
  {
    var k :| k in s.mClients && s.mClients[k] == c;
    var j :| j in s.mClients && s.mClients[j] == d;
    assert k == j;
  }

  /** And two active clients never do while every active client is filed. */
  lemma ActiveNicknamesAreUnique(s: State, c: Client, d: Client)
    requires Filed(s) && c in s.client && d in s.client && s.client[c].Active() && s.client[d].Active()
    requires s.client[c].nickname == s.client[d].nickname
    ensures c == d
  {
    assert FiledUnder(s, c) && FiledUnder(s, d);
  }

  /** At most one live channel has a given name, and it is the one in the channel directory. */
  lemma OneLiveChannelPerName(s: State, a: Channel, b: Channel)
    requires Core(s) && Alive(s, a) && Alive(s, b) && a in s.channel && b in s.channel && s.channel[a].name == s.channel[b].name
    ensures a == b && s.channel[a].name in s.mChannels && s.mChannels[s.channel[a].name] == a
  {
    LiveIsNamed(s, a);
    LiveIsNamed(s, b);
  }

  lemma LiveIsNamed(s: State, ch: Channel)
    requires Named(s) && Alive(s, ch)
    ensures ch in s.channel && s.channel[ch].name in s.mChannels && s.mChannels[s.channel[ch].name] == ch
  {
    var c :| c in s.client && ch in s.client[c].channels.Values;
    var k :| k in s.client[c].channels && s.client[c].channels[k] == ch;
    assert HoldsNamed(s, c);
  }

  /** The channel found under a name is the one that whoever holds a channel of that name holds; none is found
      exactly when nobody holds one. */
  lemma FoundChannelIsHeld(s: State, name: string)
    requires Core(s)
    ensures FoundChannel(s, name) == null <==> forall c :: c in s.client ==> name !in s.client[c].channels
    ensures forall c :: c in s.client && name in s.client[c].channels ==> FoundChannel(s, name) == s.client[c].channels[name]
    ensures FoundChannel(s, name) != null ==> FoundChannel(s, name) in s.channel && s.channel[FoundChannel(s, name)].name == name
  {
    forall c | c in s.client && name in s.client[c].channels ensures FoundChannel(s, name) == s.client[c].channels[name] {
      assert HoldsNamed(s, c);
      assert s.client[c].channels[name] in s.client[c].channels.Values;
    }
    var ch := FoundChannel(s, name);
    if ch != null {
      var c :| c in s.client && ch in s.client[c].channels.Values;
      var k :| k in s.client[c].channels && s.client[c].channels[k] == ch;
      assert HoldsNamed(s, c);
    }
  }

  /** An expired client is in no channel. */
  lemma ExpiredHoldsNothing(s: State, c: Client)
    requires Core(s) && c in s.client && s.client[c].bExpired
    ensures s.client[c].channels == map[] && forall ch :: ch in s.channel ==> !Holds(s, c, ch)
  {
  }

  // ----- Sweeping -----

  lemma SweptKeeps(s: State)
    requires Sound(s)
    ensures Core(Swept(s)) && (InSync(s) ==> InSync(Swept(s)))
    ensures forall c :: c in Swept(s).client <==> Owned(s, c)
  {
    hide Directory, Waiting, AllDecent, Named, Keyed, InSync;
    var t := Swept(s);
    forall c ensures Owned(t, c) == Owned(s, c) {}
    if InSync(s) {
      SweptInSync(s);
    }
    DirectoryFrame(s, t);
    WaitingFrame(s, t);
    NamedFrame(s, t);
    KeyedFrame(s, t);
    SweptDecent(s);
  }

  lemma SweptDecent(s: State)
    requires AllDecent(s)
    ensures AllDecent(Swept(s))
  {
  }

  lemma SweptInSync(s: State)
    requires InSync(s)
    ensures InSync(Swept(s))
  {
    var t := Swept(s);
    forall c, ch | c in t.client && ch in t.channel && t.client[c].Active() ensures Holds(t, c, ch) <==> Lists(t, ch, c) {
      assert Holds(s, c, ch) <==> Lists(s, ch, c);
    }
    forall ch, k | ch in t.channel && k in t.channel[ch].clients ensures EntryFits(t, k, t.channel[ch].clients[k]) {
      assert EntryFits(s, k, s.channel[ch].clients[k]);
    }
    forall c | c in t.client && t.client[c].Active() ensures FiledUnder(t, c) {
      assert FiledUnder(s, c);
    }
  }
}
