/** What the commands and events mean on the fields of clients and channels, said without the notions in which the
    transitions are written. */
module Effects {
  import opened ServerState
  import opened Transitions
  import opened Sessions

  /** The client may command at all. */
  predicate IsUp(s: State, c: Client) {
    c in s.client && s.client[c].bRegistered && !s.client[c].bExpired
  }

  /** The channel of that name in the directory, while some client is in it. */
  predicate IsChannel(s: State, name: string, ch: Channel) {
    name in s.mChannels && s.mChannels[name] == ch && ch in s.channel && exists d :: d in s.client && ch in s.client[d].channels.Values
  }

  lemma FoundIsChannel(s: State, name: string)
    requires Core(s)
    ensures FoundChannel(s, name) == null <==> forall ch :: !IsChannel(s, name, ch)
    ensures forall ch :: IsChannel(s, name, ch) <==> FoundChannel(s, name) == ch
  {
    FoundChannelIsHeld(s, name);
    hide Core;
    if FoundChannel(s, name) != null {
      assert IsChannel(s, name, FoundChannel(s, name));
    }
  }

  // ----- KICK -----

  /** KICK takes effect exactly if the sender is registered and unexpired, the channel exists, lists the sender's nickname
      with a client that exists and has it among its operators, an unexpired client is filed under the target's name, and
      the channel lists that name with a client that exists. */
  predicate KickConditions(s: State, c: Client, arguments: seq<string>, ch: Channel) {
    && |arguments| >= 2 && IsUp(s, c) && IsChannel(s, arguments[0], ch)
    && var n, m, x := s.client[c].nickname, arguments[1], s.channel[ch];
    && n in x.clients && x.clients[n] in s.client && n in x.operators
    && m in s.mClients && s.mClients[m] in s.client && !s.client[s.mClients[m]].bExpired
    && m in x.clients && x.clients[m] in s.client
  }

  /** Then the target loses this channel and the channel the target's key and operator entry, and nothing else at all
      changes. */
  lemma KickTakes(s: State, c: Client, arguments: seq<string>, made: seq<Channel?>, ch: Channel)
    requires Core(s) && c in s.client && KickConditions(s, c, arguments, ch)
    ensures var target, x := s.mClients[arguments[1]], s.channel[ch];
            Commanded(s, c, Kick(arguments), made)
            == s.(client := s.client[target := s.client[target].(channels := s.client[target].channels - {arguments[0]})],
                  channel := s.channel[ch := x.(clients := x.clients - {arguments[1]}, operators := x.operators - {arguments[1]})])
  {
    FoundIsChannel(s, arguments[0]);
    FoundChannelIsHeld(s, arguments[0]);
    RegisteredOf(s, arguments[1]);
    hide Core;
    Permitted(s, c, arguments[0], ch);
    FiledIsFound(s, arguments[1]);
    LookupFound(s, arguments[1]);
    hide FoundChannel, Found, Lookup, Commands, IsChannel;
    CommandedAs(s, c, Kick(arguments), made);
    hide Commanded;
  }

  lemma Permitted(s: State, c: Client, name: string, ch: Channel)
    requires IsUp(s, c) && FoundChannel(s, name) == ch && ch in s.channel
    ensures var n, x := s.client[c].nickname, s.channel[ch];
            Commands(s, c, name) <==> n in x.clients && x.clients[n] in s.client && n in x.operators
  {
    hide FoundChannel;
  }

  lemma FiledIsFound(s: State, n: string)
    requires n in s.mClients && s.mClients[n] in s.client && !s.client[s.mClients[n]].bExpired
    ensures Found(s, n) == s.mClients[n]
  {
  }

  /** Otherwise no channel changes, and no client that goes on existing. */
  lemma KickElse(s: State, c: Client, arguments: seq<string>, made: seq<Channel?>)
    requires Core(s) && c in s.client && forall ch :: !KickConditions(s, c, arguments, ch)
    ensures SameButDirectory(s, Commanded(s, c, Kick(arguments), made))
  {
    SameAsIs(s);
    if |arguments| >= 2 {
      FoundIsChannel(s, arguments[0]);
      LookupChanges(s, arguments[1]);
      var ch := FoundChannel(s, arguments[0]);
      assert ch != null ==> !KickConditions(s, c, arguments, ch);
      LookupFound(s, arguments[1]);
    }
    hide Core, Alive, Lookup, SameButDirectory, Unlinked, FoundChannel, IsChannel;
  }

  ghost predicate SameButDirectory(s: State, t: State) {
    t.channel == s.channel && t.mChannels == s.mChannels && forall d :: d in t.client ==> d in s.client && t.client[d] == s.client[d]
  }

  lemma SameAsIs(s: State)
    ensures SameButDirectory(s, s)
  {
  }

  lemma LookupChanges(s: State, n: string)
    ensures SameButDirectory(s, Lookup(s, n))
  {
    hide Owned;
  }

  lemma LookupFound(s: State, n: string)
    ensures Found(s, n) != null ==> Lookup(s, n) == s
  {
  }

  // ----- INVITE -----

  predicate InviteConditions(s: State, c: Client, arguments: seq<string>, ch: Channel) {
    && |arguments| >= 2 && IsUp(s, c) && IsChannel(s, arguments[1], ch)
    && var n, m, x := s.client[c].nickname, arguments[0], s.channel[ch];
    && n in x.clients && x.clients[n] in s.client && n in x.operators
    && m in s.mClients && s.mClients[m] in s.client && !s.client[s.mClients[m]].bExpired
    && !(m in x.clients && x.clients[m] in s.client) && m !in x.invited
  }

  /** INVITE by an operator adds the filed client to the invitations under its name, and changes nothing else. */
  lemma InviteAdds(s: State, c: Client, arguments: seq<string>, made: seq<Channel?>, ch: Channel)
    requires Core(s) && c in s.client && InviteConditions(s, c, arguments, ch)
    ensures var x := s.channel[ch];
            Commanded(s, c, Invite(arguments), made)
            == s.(channel := s.channel[ch := x.(invited := x.invited[arguments[0] := s.mClients[arguments[0]]])])
  {
    FoundIsChannel(s, arguments[1]);
    hide Core;
    Permitted(s, c, arguments[1], ch);
    FiledIsFound(s, arguments[0]);
    LookupFound(s, arguments[0]);
    hide FoundChannel, Found, Lookup, Commands, IsChannel;
    CommandedAs(s, c, Invite(arguments), made);
    hide Commanded;
  }

  lemma InviteElse(s: State, c: Client, arguments: seq<string>, made: seq<Channel?>)
    requires Core(s) && c in s.client && forall ch :: !InviteConditions(s, c, arguments, ch)
    ensures SameButDirectory(s, Commanded(s, c, Invite(arguments), made))
  {
    SameAsIs(s);
    if |arguments| >= 2 {
      FoundIsChannel(s, arguments[1]);
      LookupChanges(s, arguments[0]);
      var ch := FoundChannel(s, arguments[1]);
      assert ch != null ==> !InviteConditions(s, c, arguments, ch);
      LookupFound(s, arguments[0]);
    }
    hide Core, Alive, Lookup, SameButDirectory, FoundChannel, IsChannel;
  }

  // ----- JOIN -----

  /** One name and one key. */
  function JoinOf(s: State, c: Client, name: string, key: string, made: Channel?): State
    requires c in s.client
  {
    Commanded(s, c, Join([name], [key]), [made])
  }

  lemma JoinOfOne(s: State, c: Client, name: string, key: string, made: Channel?)
    requires c in s.client
    ensures JoinOf(s, c, name, key, made) == JoinedOne(s, c, name, key, made)
  {
    var names, ms: seq<Channel?> := [name], [made];
    assert names[..0] == [] && ms[..0] == [] && ms != [];
    hide JoinedOne;
    assert JoinedAll(s, c, names[..0], [key], ms[..0]) == s;
    assert JoinedAll(s, c, names, [key], ms) == JoinedOne(s, c, names[0], key, ms[0]);
  }

  /** The channel lets the client in: its key is given, its limit is not reached, the client is invited; each if asked for. */
  predicate LetsIn(x: ChannelState, nickname: string, key: string) {
    && (x.bPrivate ==> key == x.password)
    && (x.maxClients == 0 || |x.clients| < x.maxClients)
    && (x.bInviteOnly ==> nickname in x.invited)
  }

  /** JOIN of a channel that exists and does not find the client. If the channel lets it in, the client holds it, is
      listed, and an invitation that was needed is used up; operators, key, limit and other invitations are as they
      were. If not, nothing changes. So the client holds it afterwards, if it did not before, exactly if it is let in. */
  lemma JoinExactly(s: State, c: Client, name: string, key: string, made: Channel?, ch: Channel)
    requires Core(s) && IsUp(s, c) && name != "" && name[0] == '#' && IsChannel(s, name, ch)
    requires var n, x := s.client[c].nickname, s.channel[ch]; !(n in x.clients && x.clients[n] in s.client)
    ensures var n, x, k, t := s.client[c].nickname, s.channel[ch], s.client[c], JoinOf(s, c, name, key, made);
            && (LetsIn(x, n, key) ==>
                  t == s.(client := s.client[c := k.(channels := k.channels[name := ch])],
                          channel := s.channel[ch := x.(clients := x.clients[n := c],
                                                        invited := if x.bInviteOnly then x.invited - {n} else x.invited)]))
            && (!LetsIn(x, n, key) ==> t == s)
            && c in t.client && (name in t.client[c].channels <==> name in k.channels || LetsIn(x, n, key))
  {
    JoinOfOne(s, c, name, key, made);
    FoundIsChannel(s, name);
    FoundChannelIsHeld(s, name);
    hide Core, FoundChannel, Alive;
    var n, x := s.client[c].nickname, s.channel[ch];
    if LetsIn(x, n, key) && x.bInviteOnly {
      var y := x.(invited := x.invited - {n});
      PutTwice(s.channel, ch, y, y.(clients := y.clients[n := c]));
    }
  }

  lemma PutTwice(m: map<Channel, ChannelState>, ch: Channel, x: ChannelState, y: ChannelState)
    ensures m[ch := x][ch := y] == m[ch := y]
  {
  }

  /** JOIN of a name that no channel has: one is made, without flags, key, limit or invitation, with the client as its
      only member and its operator; if the name is not longer than 200 characters. */
  lemma FoundsChannel(s: State, c: Client, name: string, key: string, made: Channel)
    requires Core(s) && IsUp(s, c) && name != "" && name[0] == '#' && (forall ch :: !IsChannel(s, name, ch)) && made !in s.channel
    ensures var n, k, t := s.client[c].nickname, s.client[c], JoinOf(s, c, name, key, made);
            if |name| > 200 then t == s
            else t == s.(mChannels := s.mChannels[name := made],
                         client := s.client[c := k.(channels := k.channels[name := made])],
                         channel := s.channel[made := ChannelState(name, map[n := c], map[n := c], map[], "", 0, false, false, false)])
  {
    JoinOfOne(s, c, name, key, made);
    FoundIsChannel(s, name);
    hide Core, FoundChannel, Alive;
    var x := NewChannel(name, c, s.client[c].nickname);
    PutTwice(s.channel, made, x, x);
    var m: map<string, Client> := map[s.client[c].nickname := c];
    assert m[s.client[c].nickname := c] == m;
  }

  /** No other JOIN does anything: of a name without '#', of a channel that finds the client, or by a client that has not
      registered or has expired. */
  lemma JoinRefused(s: State, c: Client, name: string, key: string, made: Channel?)
    requires Core(s) && c in s.client
    requires !IsUp(s, c) || name == "" || name[0] != '#'
             || exists ch :: IsChannel(s, name, ch) && var n, x := s.client[c].nickname, s.channel[ch]; n in x.clients && x.clients[n] in s.client
    ensures JoinOf(s, c, name, key, made) == s
  {
    JoinOfOne(s, c, name, key, made);
    FoundIsChannel(s, name);
    hide Core, FoundChannel, Alive, Admits;
  }

  /** JOIN of several names is one after another, the i-th with the i-th key, or with none. */
  lemma JoinNext(s: State, c: Client, names: seq<string>, keys: seq<string>, made: seq<Channel?>, name: string, m: Channel?)
    requires |made| == |names| && c in s.client && c in Commanded(s, c, Join(names, keys), made).client
    ensures Commanded(s, c, Join(names + [name], keys), made + [m])
            == JoinOf(Commanded(s, c, Join(names, keys), made), c, name, if |names| < |keys| then keys[|names|] else "", m)
  {
    var ns, ms := names + [name], made + [m];
    assert ns[..|names|] == names && ms[..|names|] == made;
    JoinOfOne(Commanded(s, c, Join(names, keys), made), c, name, if |names| < |keys| then keys[|names|] else "", m);
    hide JoinedOne;
  }

  // ----- PART -----

  predicate PartConditions(s: State, c: Client, name: string, ch: Channel) {
    IsUp(s, c) && IsChannel(s, name, ch) && var n, x := s.client[c].nickname, s.channel[ch]; n in x.clients && x.clients[n] in s.client
  }

  function PartOf(s: State, c: Client, name: string): State
    requires c in s.client
  {
    Commanded(s, c, Part([name]), [])
  }

  lemma PartOfOne(s: State, c: Client, name: string)
    requires c in s.client
    ensures PartOf(s, c, name) == if s.client[c].Active() then PartedOne(s, c, name) else s
  {
    var names := [name];
    assert names[..0] == [];
    hide PartedOne;
    assert PartedAll(s, c, names[..0]) == s;
    assert PartedAll(s, c, names) == PartedOne(s, c, names[0]);
  }

  /** PART of a channel that finds the client takes it from the client, and the client's key and operator entry from it;
      nothing else changes. */
  lemma PartTakes(s: State, c: Client, name: string, ch: Channel)
    requires Core(s) && c in s.client && PartConditions(s, c, name, ch)
    ensures var n, k, x := s.client[c].nickname, s.client[c], s.channel[ch];
            PartOf(s, c, name)
            == s.(client := s.client[c := k.(channels := k.channels - {name})],
                  channel := s.channel[ch := x.(clients := x.clients - {n}, operators := x.operators - {n})])
  {
    PartOfOne(s, c, name);
    FoundIsChannel(s, name);
    FoundChannelIsHeld(s, name);
    hide Core, FoundChannel, Alive;
  }

  lemma PartElse(s: State, c: Client, name: string)
    requires Core(s) && c in s.client && forall ch :: !PartConditions(s, c, name, ch)
    ensures PartOf(s, c, name) == s
  {
    PartOfOne(s, c, name);
    FoundIsChannel(s, name);
    var ch := FoundChannel(s, name);
    assert ch != null ==> !PartConditions(s, c, name, ch);
    hide Core, FoundChannel, Alive;
  }

  /** PART of several names is one after another. */
  lemma PartNext(s: State, c: Client, names: seq<string>, name: string, made: seq<Channel?>)
    requires Core(s) && c in s.client
    ensures var t := Commanded(s, c, Part(names), made);
            c in t.client && Commanded(s, c, Part(names + [name]), made) == PartOf(t, c, name)
  {
    assert (names + [name])[..|names|] == names;
    CommandedAs(s, c, Part(names), made);
    CommandedAs(s, c, Part(names + [name]), made);
    if s.client[c].Active() {
      PartedAllKeeps(s, c, names);
      PartOfOne(PartedAll(s, c, names), c, name);
    } else {
      PartOfOne(s, c, name);
    }
    hide Core, PartedOne, InSync, Firm, PartOf, Commanded;
  }

  // ----- Registration -----

  predicate IsWordChar(c: char) {
    'a' <= c <= 'z' || 'A' <= c <= 'Z' || '0' <= c <= '9' || c == '_'
  }

  /** Not empty, of letters, digits, '_' and '*'. */
  predicate IsName(a: string) {
    a != "" && forall i :: 0 <= i < |a| ==> IsWordChar(a[i]) || a[i] == '*'
  }

  /** Of at most nine letters, digits and '_'. */
  predicate IsNick(a: string) {
    |a| <= 9 && forall i :: 0 <= i < |a| ==> IsWordChar(a[i])
  }

  /** An unexpired client is filed under the nickname. */
  predicate IsTaken(s: State, n: string) {
    n in s.mClients && s.mClients[n] in s.client && !s.client[s.mClients[n]].bExpired
  }

  /** The client has given three names and the password, and the nickname is free. */
  predicate IsReady(s: State, k: ClientState) {
    k.nickname != "" && k.username != "" && k.realname != "" && k.serverPass == s.password && !IsTaken(s, k.nickname)
  }

  /** From s to t an unregistered client became k, and registered if that made it ready. */
  ghost predicate Gave(s: State, t: State, c: Client, k: ClientState) {
    && c in t.client && t.client[c] == k.(bRegistered := IsReady(s, k))
    && t.channel == s.channel && t.mChannels == s.mChannels && t.processing == s.processing
    && (forall d :: d in t.client && d != c ==> d in s.client && t.client[d] == s.client[d])
    && (if IsReady(s, k) then t.mClients == s.mClients[k.nickname := c] && c !in t.unregistered
        else t.unregistered == s.unregistered)
  }

  lemma TakenIsFound(s: State, n: string)
    ensures IsTaken(s, n) <==> Found(s, n) != null
  {
  }

  lemma RegisterGives(s: State, c: Client, k: ClientState)
    requires Core(s) && Core(Put(s, c, k)) && Runs(s, c) && !s.client[c].bExpired && !k.bRegistered && !k.bExpired
    ensures Gave(s, Register(Put(s, c, k), c), c, k)
    ensures !IsReady(s, k) ==> Register(Put(s, c, k), c).mClients == s.mClients
  {
    var u := Put(s, c, k);
    RegisterFiles(u, c);
    TakenIsFound(u, k.nickname);
    RegisterRest(u, c);
    assert IsTaken(u, k.nickname) <==> IsTaken(s, k.nickname);
    hide Core, Register, Found, Lookup;
  }

  lemma RegisterRest(s: State, c: Client)
    requires c in s.client
    ensures var t := Register(s, c);
            t.channel == s.channel && t.mChannels == s.mChannels && t.processing == s.processing && t.password == s.password
  {
  }

  /** USER stores the two names, whether that registers the client or not. */
  lemma UserStores(s: State, c: Client, a: seq<string>, made: seq<Channel?>)
    requires Core(s) && Runs(s, c) && !s.client[c].bExpired && !s.client[c].bRegistered
    requires |a| >= 4 && forall i :: 0 <= i < 4 ==> IsName(a[i])
    ensures var t := Commanded(s, c, User(a), made);
            Gave(s, t, c, s.client[c].(username := a[0], realname := a[3])) && (!t.client[c].bRegistered ==> t.mClients == s.mClients)
  {
    var k := s.client[c].(username := a[0], realname := a[3]);
    assert FourNames(a) by {
      forall i | 0 <= i < 4 ensures IsUserName(a[i]) && a[i] != "" {
        assert IsName(a[i]);
      }
    }
    IntroducedKeeps(s, c, k);
    RegisterGives(s, c, k);
    hide Core, InSync, Register, FourNames, IsReady;
  }

  /** Any other USER changes nothing. */
  lemma UserElse(s: State, c: Client, a: seq<string>, made: seq<Channel?>)
    requires c in s.client
    requires s.client[c].bExpired || s.client[c].bRegistered || |a| < 4 || exists i :: 0 <= i < 4 && !IsName(a[i])
    ensures Commanded(s, c, User(a), made) == s
  {
    if |a| >= 4 && FourNames(a) {
      forall i | 0 <= i < 4 ensures IsName(a[i]) {
        assert IsUserName(a[i]);
      }
    }
    hide FourNames, IsName, Register;
  }

  /** USER's assertion fails exactly if an argument is empty and those before it are names. */
  lemma UserTraps(a: seq<string>)
    requires |a| >= 4
    ensures MeetsEmptyName(a) <==> exists i :: 0 <= i < 4 && a[i] == "" && forall j :: 0 <= j < i ==> IsName(a[j])
  {
    if MeetsEmptyName(a) {
      var i :| 0 <= i < 4 && a[i] == "" && forall j :: 0 <= j < i ==> IsUserName(a[j]);
      var k := if a[0] == "" then 0 else if a[1] == "" then 1 else if a[2] == "" then 2 else 3;
      forall j | 0 <= j < k ensures IsName(a[j]) {
        assert IsUserName(a[j]);
      }
    }
    if i :| 0 <= i < 4 && a[i] == "" && forall j :: 0 <= j < i ==> IsName(a[j]) {
      forall j | 0 <= j < i ensures IsUserName(a[j]) {
        assert IsName(a[j]);
      }
    }
  }

  /** PASS stores the password likewise. */
  lemma PassStores(s: State, c: Client, a: seq<string>, made: seq<Channel?>)
    requires Core(s) && Runs(s, c) && !s.client[c].bExpired && !s.client[c].bRegistered && a != []
    ensures var t := Commanded(s, c, Pass(a), made);
            Gave(s, t, c, s.client[c].(serverPass := a[0])) && (!t.client[c].bRegistered ==> t.mClients == s.mClients)
  {
    var k := s.client[c].(serverPass := a[0]);
    IntroducedKeeps(s, c, k);
    RegisterGives(s, c, k);
    hide Core, InSync, Register, IsReady;
  }

  lemma PassElse(s: State, c: Client, a: seq<string>, made: seq<Channel?>)
    requires c in s.client && (s.client[c].bExpired || s.client[c].bRegistered || a == [])
    ensures Commanded(s, c, Pass(a), made) == s
  {
  }

  // ----- NICK -----

  /** NICK of a well-formed nickname that is free stores it for a client that has not registered. */
  lemma NickStores(s: State, c: Client, a: seq<string>, made: seq<Channel?>)
    requires Core(s) && Runs(s, c) && !s.client[c].bExpired && !s.client[c].bRegistered
    requires a != [] && a[0] != "" && IsNick(a[0]) && !IsTaken(s, a[0])
    ensures Gave(s, Commanded(s, c, Nick(a), made), c, s.client[c].(nickname := a[0]))
  {
    var n := a[0];
    assert IsNickname(n);
    TakenIsFound(s, n);
    LookupKeeps(s, n);
    LookupFrees(s, n);
    LookupErases(s, n);
    LookupChanges(s, n);
    LookupRest(s, n);
    LookupUnlisted(s, n);
    var u := Lookup(s, n);
    CommandedAs(s, c, Nick(a), made);
    var k := u.client[c].(nickname := n);
    assert Nicked(s, c, a) == Register(Put(u, c, k), c) by { hide Core, Lookup, Register, Renamed; }
    hide Core, InSync, IsNick, IsNickname, Lookup, Found, Nicked, Commanded, Register;
    IntroducedKeeps(u, c, k);
    RegisterGives(u, c, k);
    GaveThrough(s, u, Register(Put(u, c, k), c), c, k, n);
  }

  lemma LookupUnlisted(s: State, n: string)
    ensures Lookup(s, n).unregistered == s.unregistered
  {
  }

  lemma GaveThrough(s: State, u: State, t: State, c: Client, k: ClientState, n: string)
    requires Gave(u, t, c, k) && SameButDirectory(s, u) && k.nickname == n && n !in u.mClients && !IsTaken(s, n)
    requires u.mClients - {n} == s.mClients - {n} && u.password == s.password && u.processing == s.processing && u.unregistered == s.unregistered
    ensures Gave(s, t, c, k)
  {
    Overwritten(s.mClients, u.mClients, n, c);
  }

  /** For a registered one it moves the entry of the directory, and each channel that it holds lists it under the new
      nickname too; the old key and the operators stay. */
  lemma NickMoves(s: State, c: Client, a: seq<string>, made: seq<Channel?>)
    requires Core(s) && Runs(s, c) && IsUp(s, c) && a != [] && a[0] != "" && IsNick(a[0]) && !IsTaken(s, a[0])
    ensures var t, n, k := Commanded(s, c, Nick(a), made), a[0], s.client[c];
            && c in t.client && t.client[c] == k.(nickname := n) && t.mClients == (s.mClients - {k.nickname})[n := c]
            && t.mChannels == s.mChannels && t.channel.Keys == s.channel.Keys
            && (forall ch :: ch in s.channel ==>
                  ch in t.channel &&
                  t.channel[ch] == if ch in k.channels.Values then s.channel[ch].(clients := s.channel[ch].clients[n := c]) else s.channel[ch])
            && forall d :: d in t.client && d != c ==> d in s.client && t.client[d] == s.client[d]
  {
    var n := a[0];
    assert IsNickname(n);
    TakenIsFound(s, n);
    NickedTakes(s, c, a);
    NickNames(s, c, a);
    hide Core, Nicked, IsNick, IsNickname, Found;
  }

  lemma NickNames(s: State, c: Client, a: seq<string>)
    requires Core(s) && Runs(s, c) && TakesNickname(s, c, a) && s.client[c].bRegistered
    ensures var t := Nicked(s, c, a); c in t.client && t.client[c] == s.client[c].(nickname := a[0]) && t.mChannels == s.mChannels
  {
    LookupKeeps(s, a[0]);
    RenamedTakes(Lookup(s, a[0]), c, a[0]);
    LookupRest(s, a[0]);
    hide Core, Lookup, Relisted, Found, IsNickname;
  }

  lemma LookupRest(s: State, n: string)
    ensures Lookup(s, n).mChannels == s.mChannels && Lookup(s, n).processing == s.processing && Lookup(s, n).password == s.password
  {
  }

  lemma NickElse(s: State, c: Client, a: seq<string>, made: seq<Channel?>)
    requires c in s.client && (s.client[c].bExpired || a == [] || !IsNick(a[0]) || IsTaken(s, a[0]))
    ensures Commanded(s, c, Nick(a), made) == s
  {
    if a != [] {
      assert IsNickname(a[0]) <==> IsNick(a[0]);
      TakenIsFound(s, a[0]);
    }
    hide Lookup, Register, Renamed, IsNick, IsNickname, Found;
  }

  // ----- PASS, NICK and USER in any order -----

  /** What a client that gives the password pw, the nickname n and the names u and r has once it has given some of them. */
  datatype Goal = Goal(pw: string, n: string, u: string, r: string)

  ghost predicate Underway(s: State, c: Client, g: Goal, bPass: bool, bNick: bool, bUser: bool) {
    && Core(s) && Runs(s, c) && g.n != "" && g.pw == s.password
    && var k := s.client[c];
    && k == ClientState(if bNick then g.n else "", if bUser then g.u else "", if bUser then g.r else "", if bPass then g.pw else "",
                        k.bRegistered, false, false, map[])
    && (k.bRegistered <==> bNick && bUser && k.serverPass == g.pw)
    && if k.bRegistered then g.n in s.mClients && s.mClients[g.n] == c else !IsTaken(s, g.n)
  }

  /** A command of the client's keeps the core, and the client running. */
  lemma Commands3(s: State, c: Client, command: Command, made: seq<Channel?>)
    requires Core(s) && Runs(s, c) && (command.Pass? || command.User? || (command.Nick? && command.arguments != [] && command.arguments[0] != ""))
    ensures Core(Commanded(s, c, command, made))
  {
    hide Core, InSync;
    CommandedKeeps(s, c, command, made);
  }

  lemma PassStep(s: State, c: Client, g: Goal, bNick: bool, bUser: bool, a: seq<string>, made: seq<Channel?>)
    requires Underway(s, c, g, false, bNick, bUser) && a != [] && a[0] == g.pw && g.u != "" && g.r != ""
    ensures Underway(Commanded(s, c, Pass(a), made), c, g, true, bNick, bUser)
    ensures Commanded(s, c, Pass(a), made).password == s.password
  {
    Commands3(s, c, Pass(a), made);
    if s.client[c].bRegistered {
      PassElse(s, c, a, made);
    } else {
      PassStores(s, c, a, made);
      SamePassword(s, c, Pass(a), made);
    }
    hide Core, Commanded;
  }

  lemma UserStep(s: State, c: Client, g: Goal, bPass: bool, bNick: bool, a: seq<string>, made: seq<Channel?>)
    requires Underway(s, c, g, bPass, bNick, false) && |a| >= 4 && (forall i :: 0 <= i < 4 ==> IsName(a[i])) && a[0] == g.u && a[3] == g.r
    ensures Underway(Commanded(s, c, User(a), made), c, g, bPass, bNick, true)
    ensures Commanded(s, c, User(a), made).password == s.password
  {
    Commands3(s, c, User(a), made);
    assert IsName(a[0]) && IsName(a[3]);
    UserStores(s, c, a, made);
    SamePassword(s, c, User(a), made);
    hide Core, Commanded;
  }

  lemma NickStep(s: State, c: Client, g: Goal, bPass: bool, bUser: bool, a: seq<string>, made: seq<Channel?>)
    requires Underway(s, c, g, bPass, false, bUser) && a != [] && a[0] == g.n && IsNick(g.n) && (bUser ==> g.u != "" && g.r != "")
    ensures Underway(Commanded(s, c, Nick(a), made), c, g, bPass, true, bUser)
    ensures Commanded(s, c, Nick(a), made).password == s.password
  {
    Commands3(s, c, Nick(a), made);
    NickStores(s, c, a, made);
    NickFrees(s, c, a, made);
    SamePassword(s, c, Nick(a), made);
    hide Core, Commanded, IsNick;
  }

  /** While it is not registered, the nickname stays free. */
  lemma NickFrees(s: State, c: Client, a: seq<string>, made: seq<Channel?>)
    requires Core(s) && Runs(s, c) && !s.client[c].bExpired && !s.client[c].bRegistered
    requires a != [] && a[0] != "" && IsNick(a[0]) && !IsTaken(s, a[0])
    ensures var t := Commanded(s, c, Nick(a), made); c in t.client && (!t.client[c].bRegistered ==> !IsTaken(t, a[0]))
  {
    var n := a[0];
    assert IsNickname(n);
    TakenIsFound(s, n);
    LookupKeeps(s, n);
    LookupFrees(s, n);
    var u := Lookup(s, n);
    var k := u.client[c].(nickname := n);
    hide IsNick, IsNickname;
    IntroducedKeeps(u, c, k);
    RegisterGives(u, c, k);
    hide Core, InSync, Register, Lookup, Found, Renamed;
  }

  lemma SamePassword(s: State, c: Client, command: Command, made: seq<Channel?>)
    requires c in s.client && (command.Pass? || command.User? || command.Nick?)
    ensures Commanded(s, c, command, made).password == s.password
  {
    CommandedAs(s, c, command, made);
    hide Commanded, Lookup, Register, Owned, Found, Relisted, FourNames, IsNickname;
    var a := command.arguments;
    if command.Pass? {
      if a != [] {
        RegisterRest(Put(s, c, s.client[c].(serverPass := a[0])), c);
      }
    } else if command.User? {
      if |a| >= 4 {
        RegisterRest(Put(s, c, s.client[c].(username := a[0], realname := a[3])), c);
      }
    } else if a != [] {
      LookupRest(s, a[0]);
      var t := Lookup(s, a[0]);
      if c in t.client {
        RegisterRest(Put(t, c, t.client[c].(nickname := a[0])), c);
      }
    }
  }

  /** The three commands in any order: p, n and u say when PASS, NICK and USER come. */
  ghost predicate InAnyOrder(events: seq<Event>, who: nat, g: Goal, p: nat, n: nat, u: nat) {
    && |events| == 3 && {p, n, u} == {0, 1, 2}
    && events[p].Do? && events[p].who == who && events[p].command.Pass?
    && events[p].command.arguments != [] && events[p].command.arguments[0] == g.pw
    && events[n].Do? && events[n].who == who && events[n].command.Nick?
    && events[n].command.arguments != [] && events[n].command.arguments[0] == g.n
    && events[u].Do? && events[u].who == who && events[u].command.User? && |events[u].command.arguments| >= 4
    && events[u].command.arguments[0] == g.u && events[u].command.arguments[3] == g.r
    && forall i :: 0 <= i < 4 ==> IsName(events[u].command.arguments[i])
  }

  /** How far the client has got before event i. */
  ghost predicate At(w: World, c: Client, who: nat, g: Goal, p: nat, n: nat, u: nat, i: nat) {
    who < |w.connected| && w.connected[who] == c && Underway(w.server, c, g, p < i, n < i, u < i)
  }

  lemma OneEvent(w: World, e: Event, made: Made, next: World, c: Client, who: nat, g: Goal, p: nat, n: nat, u: nat, i: nat, events: seq<Event>)
    requires InAnyOrder(events, who, g, p, n, u) && i < 3 && e == events[i] && IsStep(w, e, made, next)
    requires At(w, c, who, g, p, n, u, i) && IsNick(g.n)
    ensures At(next, c, who, g, p, n, u, i + 1)
  {
    DoesCommand(w, e, made, c, who);
    var a, s := e.command.arguments, w.server;
    hide Core, Commanded, IsNick, IsStep, Underway, IsName, Apply;
    GoalNames(events, who, g, p, n, u);
    if i == p {
      PassStep(s, c, g, n < i, u < i, a, made.channels);
    } else if i == n {
      NickStep(s, c, g, p < i, u < i, a, made.channels);
    } else {
      UserStep(s, c, g, p < i, n < i, a, made.channels);
    }
  }

  lemma DoesCommand(w: World, e: Event, made: Made, c: Client, who: nat)
    requires e.Do? && e.who == who && who < |w.connected| && w.connected[who] == c && c in w.server.client && c in w.server.processing
    ensures Apply(w, e, made) == w.(server := Commanded(w.server, c, e.command, made.channels))
  {
    hide Commanded;
  }

  lemma GoalNames(events: seq<Event>, who: nat, g: Goal, p: nat, n: nat, u: nat)
    requires InAnyOrder(events, who, g, p, n, u)
    ensures g.u != "" && g.r != "" && p < 3 && n < 3 && u < 3
  {
    assert IsName(events[u].command.arguments[0]) && IsName(events[u].command.arguments[3]);
    assert p in {0, 1, 2} && n in {0, 1, 2} && u in {0, 1, 2};
  }

  /** A client that has just connected, the right password, a well-formed free nickname and well-formed names: in each of
      the six orders of PASS, NICK and USER it ends up registered with exactly these, filed under the nickname. */
  lemma AnyOrderRegisters(trace: seq<World>, events: seq<Event>, mades: seq<Made>, who: nat, g: Goal, p: nat, n: nat, u: nat)
    requires IsRun(trace, events, mades) && InAnyOrder(events, who, g, p, n, u)
    requires var s := trace[0].server;
             && Core(s) && who < |trace[0].connected| && Runs(s, trace[0].connected[who])
             && s.client[trace[0].connected[who]] == ClientState("", "", "", "", false, false, false, map[])
             && g.pw == s.password && g.n != "" && IsNick(g.n) && !IsTaken(s, g.n)
    ensures var c, t := trace[0].connected[who], trace[3].server;
            && c in t.client && t.client[c] == ClientState(g.n, g.u, g.r, g.pw, true, false, false, map[])
            && g.n in t.mClients && t.mClients[g.n] == c
  {
    var c := trace[0].connected[who];
    assert At(trace[0], c, who, g, p, n, u, 0);
    assert IsStep(trace[0], events[0], mades[0], trace[1]) && IsStep(trace[1], events[1], mades[1], trace[2]) && IsStep(trace[2], events[2], mades[2], trace[3]);
    GoalNames(events, who, g, p, n, u);
    hide At, IsStep, IsRun, InAnyOrder;
    OneEvent(trace[0], events[0], mades[0], trace[1], c, who, g, p, n, u, 0, events);
    OneEvent(trace[1], events[1], mades[1], trace[2], c, who, g, p, n, u, 1, events);
    OneEvent(trace[2], events[2], mades[2], trace[3], c, who, g, p, n, u, 2, events);
    AtEnd(trace[3], c, who, g, p, n, u);
  }

  lemma AtEnd(w: World, c: Client, who: nat, g: Goal, p: nat, n: nat, u: nat)
    requires At(w, c, who, g, p, n, u, 3) && p < 3 && n < 3 && u < 3
    ensures var t := w.server;
            && c in t.client && t.client[c] == ClientState(g.n, g.u, g.r, g.pw, true, false, false, map[])
            && g.n in t.mClients && t.mClients[g.n] == c
  {
    hide Core;
  }

  // ----- The end of a client -----

  /** From s to t the client was closed. It is expired, closed and in no channel, queued for release, off the list of
      unregistered clients, and the directory entry of its nickname is gone, whosever it was. Each channel that it held
      loses exactly the key and the operator entry of its nickname; no other channel changes, nor any other client. */
  ghost predicate WasClosed(s: State, t: State, c: Client)
    requires c in s.client
  {
    var k := s.client[c];
    && c in t.client && t.client[c] == k.(bExpired := true, bSocketClosed := true, channels := map[])
    && t.mClients == s.mClients - {k.nickname} && t.mChannels == s.mChannels
    && t.released == s.released + [c] && t.processing == s.processing
    && (forall d :: d in t.unregistered ==> d in s.unregistered && d != c)
    && (forall d :: d in s.unregistered && d != c ==> d in t.unregistered)
    && t.channel.Keys == s.channel.Keys
    && (forall ch :: ch in s.channel ==>
          ch in t.channel && t.channel[ch] == if ch in k.channels.Values then WithoutKey(s.channel[ch], k.nickname) else s.channel[ch])
    && (forall d :: d in t.client && d != c ==> d in s.client && t.client[d] == s.client[d])
  }

  function WithoutKey(x: ChannelState, n: string): ChannelState {
    ChannelState(x.name, x.clients - {n}, x.operators - {n}, x.invited, x.password, x.maxClients, x.bInviteOnly, x.bTopicProtected, x.bPrivate)
  }

  lemma ForceCloses(s: State, c: Client)
    requires Core(s) && c in s.client && !s.client[c].bSocketClosed
    ensures WasClosed(s, ForceDisconnected(s, c), c)
  {
    ForceDisconnectEnds(s, c);
    CoreWaits(s);
    WithoutIs(s.unregistered, c);
    hide Core, Without, Distinct, Owned;
  }

  lemma CoreWaits(s: State)
    requires Core(s)
    ensures Distinct(s.unregistered)
  {
  }

  /** The loss of a connection closes a client that has not expired, a write event that drains or fails one that is open;
      a QUIT with nothing left to send too. */
  lemma Closing(w: World, e: Event, made: Made, who: nat)
    requires Core(w.server) && who < |w.connected| && w.connected[who] in w.server.client
    requires var k := w.server.client[w.connected[who]];
             || (e == Lost(who) && !k.bExpired)
             || (e == Drained(who) && k.bExpired && !k.bSocketClosed)
             || (e == SendFailed(who) && !k.bSocketClosed)
             || (e == Do(who, Quit(true)) && !k.bExpired && w.connected[who] in w.server.processing)
    ensures Apply(w, e, made).connected == w.connected && WasClosed(w.server, Apply(w, e, made).server, w.connected[who])
  {
    var c := w.connected[who];
    OneDecent(w.server, c);
    ForceCloses(w.server, c);
    hide Core, WasClosed, ForceDisconnected;
    if e.Do? {
      DoesCommand(w, e, made, c, who);
      hide Apply;
      CommandedAs(w.server, c, Quit(true), made.channels);
      hide Commanded;
    } else {
      hide Commanded;
      assert Closes(w, e) == c;
    }
  }

  /** A QUIT with something to send makes the client expire and gives up its channels, which go on listing it. */
  lemma Expiring(w: World, made: Made, who: nat)
    requires who < |w.connected| && w.connected[who] in w.server.client && w.connected[who] in w.server.processing
    requires !w.server.client[w.connected[who]].bExpired
    ensures var s, c := w.server, w.connected[who];
            Apply(w, Do(who, Quit(false)), made)
            == World(s.(client := s.client[c := s.client[c].(bExpired := true, channels := map[])]), w.connected)
  {
  }

  /** No other event ends a client: of one that has expired or is closed, as the event may be, nothing changes. */
  lemma NotClosing(w: World, e: Event, made: Made, who: nat)
    requires Core(w.server) && who < |w.connected| && w.connected[who] in w.server.client
    requires var k := w.server.client[w.connected[who]];
             || (e == Lost(who) && k.bExpired)
             || (e == Drained(who) && !k.bExpired)
             || ((e == Drained(who) || e == SendFailed(who)) && k.bSocketClosed)
             || (e.Do? && e.who == who && (k.bExpired || w.connected[who] !in w.server.processing))
    ensures Apply(w, e, made) == w
  {
    var c := w.connected[who];
    if e.Do? && w.server.client[c].bExpired && e.command.Join? && |made.channels| == |e.command.names| {
      NotJoining(w.server, c, e.command.names, e.command.keys, made.channels);
    }
    hide Core, JoinedAll, PartedAll, FoundChannel, Found, Lookup, Register;
  }

  /** Events of clients that do not exist do nothing. */
  lemma NobodyThere(w: World, e: Event, made: Made, who: nat)
    requires (e == Lost(who) || e == Drained(who) || e == SendFailed(who) || e == Receive(who) || (e.Do? && e.who == who))
    requires who >= |w.connected| || w.connected[who] !in w.server.client
    ensures Apply(w, e, made) == w
  {
    hide Commanded, ForceDisconnected;
  }

  // ----- Connections and the queues -----

  /** A connection is a client with nothing given, on the list of unregistered ones. */
  lemma Connecting(w: World, made: Made)
    requires made.client != null
    ensures var s, c := w.server, made.client;
            Apply(w, Connect, made)
            == World(s.(client := s.client[c := ClientState("", "", "", "", false, false, false, map[])], unregistered := s.unregistered + [c]),
                     w.connected + [c])
  {
  }

  /** A client that sends is queued for processing, unless it has expired or is closed. */
  lemma Receiving(w: World, made: Made, who: nat)
    requires who < |w.connected| && w.connected[who] in w.server.client
    ensures var s, c := w.server, w.connected[who];
            Apply(w, Receive(who), made)
            == if s.client[c].bExpired || s.client[c].bSocketClosed then w else World(s.(processing := s.processing + [c]), w.connected)
  {
  }

  /** The clearing of a queue destroys exactly the clients that were in no other of the four containers. */
  lemma Clearing(w: World, e: Event, made: Made)
    requires e.ProcessingDone? || e.ReleaseDone?
    ensures var s, t := w.server, Apply(w, e, made).server;
            && t == s.(processing := if e.ProcessingDone? then [] else s.processing, released := if e.ReleaseDone? then [] else s.released,
                       client := t.client)
            && forall c ::
                 (c in t.client <==>
                  c in s.client && (c in s.mClients.Values || c in s.unregistered
                                    || (c in s.released && !e.ReleaseDone?) || (c in s.processing && !e.ProcessingDone?)))
                 && (c in t.client ==> t.client[c] == s.client[c])
  {
  }

  // ----- PRIVMSG -----

  /** PRIVMSG takes the entries of expired clients out of the directory for exactly the receivers that are no channels. */
  lemma {:induction false} LooksUp(s: State, names: seq<string>)
    requires Core(s)
    ensures var t := LookedUp(s, names);
            && SameButDirectory(s, t)
            && forall n :: (n in t.mClients <==> n in s.mClients && (n in names ==> IsTaken(s, n)))
                           && (n in t.mClients ==> t.mClients[n] == s.mClients[n])
  {
    if names == [] {
      SameAsIs(s);
    } else {
      var init, m := names[..|names| - 1], names[|names| - 1];
      LooksUp(s, init);
      LookedUpKeeps(s, init);
      var u := LookedUp(s, init);
      LookupChanges(u, m);
      TakenStays(s, u, m);
      LookupDirectory(u, m);
      assert names == init + [m];
      hide Core, InSync, Lookup, IsTaken;
    }
  }

  lemma TakenStays(s: State, u: State, m: string)
    requires forall n :: Found(u, n) == Found(s, n)
    ensures IsTaken(u, m) <==> IsTaken(s, m)
  {
    TakenIsFound(s, m);
    TakenIsFound(u, m);
    hide Found, IsTaken;
  }

  lemma LookupDirectory(s: State, m: string)
    requires Core(s)
    ensures forall n :: (n in Lookup(s, m).mClients <==> n in s.mClients && (n == m ==> IsTaken(s, m)))
                        && (n in Lookup(s, m).mClients ==> Lookup(s, m).mClients[n] == s.mClients[n])
  {
    assert m in s.mClients ==> s.mClients[m] in s.client by {
      if m in s.mClients {
        RegisteredOf(s, m);
      }
    }
    hide Core;
  }

  lemma {:induction false} ReceiversNames(receivers: seq<string>)
    ensures forall n :: n in Nicknames(receivers) <==> n in receivers && (n == "" || n[0] != '#')
  {
    if receivers != [] {
      var init := receivers[..|receivers| - 1];
      ReceiversNames(init);
      assert receivers == init + [receivers[|receivers| - 1]];
    }
  }

  lemma PrivMsgLooks(s: State, c: Client, receivers: seq<string>, made: seq<Channel?>)
    requires Core(s) && c in s.client
    ensures var t := Commanded(s, c, PrivMsg(receivers), made);
            && SameButDirectory(s, t)
            && forall n :: (n in t.mClients <==>
                            n in s.mClients && (IsUp(s, c) && n in receivers && (n == "" || n[0] != '#') ==> IsTaken(s, n)))
                           && (n in t.mClients ==> t.mClients[n] == s.mClients[n])
  {
    SameAsIs(s);
    LooksUp(s, Nicknames(receivers));
    ReceiversNames(receivers);
    hide Core, LookedUp, Nicknames, IsTaken, SameButDirectory;
  }

  // ----- What holds in every state -----

  /** The core of the invariant, on the fields. */
  lemma CoreSays(s: State)
    requires Core(s)
    ensures forall c :: c in s.client <==> c in s.mClients.Values || c in s.unregistered || c in s.released || c in s.processing
    ensures forall n :: n in s.mClients ==>
              s.mClients[n] in s.client && s.client[s.mClients[n]].nickname == n && s.client[s.mClients[n]].bRegistered
    ensures forall c :: c in s.client ==>
              var k := s.client[c];
              && (k.bRegistered ==> k.nickname != "" && k.username != "" && k.realname != "" && k.serverPass == s.password)
              && (k.channels != map[] ==> k.bRegistered && !k.bExpired) && (k.bSocketClosed ==> k.bExpired)
              && forall n :: n in k.channels ==> n in s.mChannels && s.mChannels[n] == k.channels[n]
    ensures forall n :: n in s.mChannels ==> s.mChannels[n] in s.channel && s.channel[s.mChannels[n]].name == n
    ensures forall ch :: ch in s.channel ==> s.channel[ch].bPrivate || s.channel[ch].password == ""
  {
    forall c ensures c in s.client <==> Owned(s, c) {}
    forall c | c in s.client ensures HoldsNamed(s, c) {}
  }
}
