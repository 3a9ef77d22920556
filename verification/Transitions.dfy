/** What each event does to the server, on values, and that it keeps the invariants. */
module Transitions {
  import opened ServerState

  // ----- Lists -----

  function IndexOf(s: seq<Client>, c: Client): (i: nat)
    requires c in s
    ensures i < |s| && s[i] == c && c !in s[..i]
  {
    if s[0] == c then 0
    else assert s == [s[0]] + s[1..]; 1 + IndexOf(s[1..], c)
  }

  /** The first occurrence is taken out and the last element takes its place. */
  function Without(s: seq<Client>, c: Client): seq<Client> {
    if c !in s then s else s[IndexOf(s, c) := s[|s| - 1]][..|s| - 1]
  }

  lemma WithoutIs(s: seq<Client>, c: Client)
    requires Distinct(s)
    ensures Distinct(Without(s, c)) && forall d :: d in Without(s, c) <==> d in s && d != c
  {
    if c in s {
      var i, n, r := IndexOf(s, c), |s| - 1, Without(s, c);
      assert forall j :: 0 <= j < n ==> r[j] == if j == i then s[n] else s[j];
      forall d ensures d in r <==> d in s && d != c {
        if d in s && d != c {
          var j :| 0 <= j < |s| && s[j] == d;
          assert r[if j == n then i else j] == d;
        }
      }
    }
  }

  // ----- Connections and the owning lists -----

  function Put(s: State, c: Client, k: ClientState): State {
    s.(client := s.client[c := k])
  }

  /** Nothing of the server refers to the object yet. */
  ghost predicate Unknown(s: State, c: Client) {
    && c !in s.client && !Owned(s, c)
    && forall ch, k :: ch in s.channel && k in s.channel[ch].clients ==> s.channel[ch].clients[k] != c
  }

  function Accepted(s: State, c: Client): State {
    Put(s, c, NewClient()).(unregistered := s.unregistered + [c])
  }

  /** A client from which something was received is queued for processing. */
  function Received(s: State, c: Client): State
    requires c in s.client
  {
    if s.client[c].bExpired || s.client[c].bSocketClosed then s else s.(processing := s.processing + [c])
  }

  function Processed(s: State): State {
    Swept(s.(processing := []))
  }

  function Released(s: State): State {
    Swept(s.(released := []))
  }

  lemma AcceptedKeeps(s: State, c: Client)
    requires Core(s) && Unknown(s, c)
    ensures Core(Accepted(s, c)) && (InSync(s) ==> InSync(Accepted(s, c)))
  {
    hide Directory, Waiting, AllDecent, Named, Keyed, InSync;
    var t := Accepted(s, c);
    forall d ensures Owned(t, d) <==> Owned(s, d) || d == c {}
    if InSync(s) {
      AcceptedInSync(s, c);
    }
    DirectoryFrame(s, t);
    AcceptedWaiting(s, c);
    DecentFrame(s, t, c);
    NamedFrame(s, t);
    KeyedFrame(s, t);
  }

  lemma AcceptedWaiting(s: State, c: Client)
    requires Waiting(s) && Unknown(s, c)
    ensures Waiting(Accepted(s, c))
  {
  }

  lemma AcceptedInSync(s: State, c: Client)
    requires InSync(s) && Unknown(s, c)
    ensures InSync(Accepted(s, c))
  {
    var t := Accepted(s, c);
    forall d, ch | d in t.client && ch in t.channel && t.client[d].Active() ensures Holds(t, d, ch) <==> Lists(t, ch, d) {
      assert Holds(s, d, ch) <==> Lists(s, ch, d);
    }
    forall ch, k | ch in t.channel && k in t.channel[ch].clients ensures EntryFits(t, k, t.channel[ch].clients[k]) {
      assert EntryFits(s, k, s.channel[ch].clients[k]);
    }
    forall d | d in t.client && t.client[d].Active() ensures FiledUnder(t, d) {
      assert FiledUnder(s, d);
    }
  }

  lemma ReceivedKeeps(s: State, c: Client)
    requires Core(s) && c in s.client
    ensures Core(Received(s, c)) && (InSync(s) ==> InSync(Received(s, c)))
  {
    SameClientsKeep(s, Received(s, c));
  }

  /** Only the owning lists differ. */
  lemma SameClientsKeep(s: State, t: State)
    requires Sound(s) && t == s.(processing := t.processing, released := t.released)
    requires forall c :: Owned(t, c) ==> c in s.client
    requires forall c :: c in t.released ==> c in s.released
    ensures Sound(t) && (InSync(s) ==> InSync(t))
  {
    hide Directory, Waiting, AllDecent, Named, Keyed, TwoWay, OneKey;
    if InSync(s) {
      SameMembership(s, t);
    }
    DirectoryFrame(s, t);
    WaitingFrame(s, t);
    SameDecent(s, t);
    NamedFrame(s, t);
    KeyedFrame(s, t);
  }

  lemma SameDecent(s: State, t: State)
    requires AllDecent(s) && t.client == s.client && t.password == s.password
    ensures AllDecent(t)
  {
  }

  lemma ListsClearedKeep(s: State)
    requires Core(s)
    ensures Core(Processed(s)) && Core(Released(s))
    ensures InSync(s) ==> InSync(Processed(s)) && InSync(Released(s))
  {
    var a, b := s.(processing := []), s.(released := []);
    forall c ensures (Owned(a, c) ==> Owned(s, c)) && (Owned(b, c) ==> Owned(s, c)) {}
    SameClientsKeep(s, a);
    SameClientsKeep(s, b);
    SweptKeeps(a);
    SweptKeeps(b);
  }

  // ----- Lookups -----

  lemma LookupKeeps(s: State, n: string)
    requires Core(s)
    ensures Core(Lookup(s, n)) && (InSync(s) ==> InSync(Lookup(s, n)))
    ensures forall m :: Found(Lookup(s, n), m) == Found(s, m)
    ensures forall c :: c in Lookup(s, n).client ==> c in s.client && Lookup(s, n).client[c] == s.client[c]
    ensures forall c :: c in s.processing ==> c in Lookup(s, n).client
    ensures Lookup(s, n) == s.(mClients := Lookup(s, n).mClients, client := Lookup(s, n).client)
  {
    if FiledExpired(s, n) {
      var t := s.(mClients := s.mClients - {n});
      ErasedExpired(s, n);
      SweptKeeps(t);
      forall m ensures Found(Swept(t), m) == Found(s, m) {
        if m in s.mClients && m != n {
          assert t.mClients[m] in t.mClients.Values && Owned(t, t.mClients[m]);
        }
      }
    }
  }

  lemma ErasedExpired(s: State, n: string)
    requires Core(s) && FiledExpired(s, n)
    ensures var t := s.(mClients := s.mClients - {n}); Sound(t) && (InSync(s) ==> InSync(t))
  {
    var t := s.(mClients := s.mClients - {n});
    ErasedSound(s, n);
    if InSync(s) {
      SameMembership(s, t);
      forall c | c in t.client && t.client[c].Active() ensures FiledUnder(t, c) {
        assert FiledUnder(s, c);
      }
    }
  }

  /** Erasing any directory entry keeps what holds in every state. */
  lemma ErasedSound(s: State, n: string)
    requires Sound(s)
    ensures Sound(s.(mClients := s.mClients - {n}))
  {
    hide Directory, Waiting, AllDecent, Named, Keyed;
    var t := s.(mClients := s.mClients - {n});
    forall c | Owned(t, c) ensures c in t.client {
      if c in t.mClients.Values {
        var k :| k in t.mClients && t.mClients[k] == c;
        assert s.mClients[k] in s.mClients.Values;
      }
      assert Owned(s, c);
    }
    ErasedDirectory(s, n);
    WaitingFrame(s, t);
    SameDecent(s, t);
    NamedFrame(s, t);
    KeyedFrame(s, t);
  }

  lemma ErasedDirectory(s: State, n: string)
    requires Directory(s)
    ensures Directory(s.(mClients := s.mClients - {n}))
  {
  }

  /** Membership is about clients and channels only. */
  lemma SameMembership(s: State, t: State)
    requires TwoWay(s) && OneKey(s) && t.client == s.client && t.channel == s.channel
    ensures TwoWay(t) && OneKey(t)
  {
    forall c, ch | c in t.client && ch in t.channel && t.client[c].Active() ensures Holds(t, c, ch) <==> Lists(t, ch, c) {
      assert Holds(s, c, ch) <==> Lists(s, ch, c);
    }
    forall ch, k | ch in t.channel && k in t.channel[ch].clients ensures EntryFits(t, k, t.channel[ch].clients[k]) {
      assert EntryFits(s, k, s.channel[ch].clients[k]);
    }
  }

  /** A lookup destroys exactly the expired client filed under the name, and that only if nothing else owns it. */
  lemma LookupDestroys(s: State, n: string, c: Client)
    requires Core(s) && c in s.client
    ensures c !in Lookup(s, n).client <==>
            n in s.mClients && s.mClients[n] == c && s.client[c].bExpired
            && c !in s.unregistered && c !in s.released && c !in s.processing
  {
    if FiledExpired(s, n) {
      var t := s.(mClients := s.mClients - {n});
      if c != s.mClients[n] && c in s.mClients.Values {
        var k :| k in s.mClients && s.mClients[k] == c;
        assert t.mClients[k] == c && c in t.mClients.Values;
      }
      forall k | k in t.mClients ensures t.mClients[k] != s.mClients[n] {
        assert s.client[s.mClients[k]].nickname == k;
      }
    }
  }

  // ----- Registration -----

  /** registerClient succeeds: the names are there, the password is right, no unexpired client has the nickname. */
  predicate MayRegister(s: State, c: Client)
    requires c in s.client
  {
    Complete(s, c) && Found(s, s.client[c].nickname) == null
  }

  function Register(s: State, c: Client): State
    requires c in s.client
  {
    if !MayRegister(s, c) then s
    else
      var n := s.client[c].nickname;
      var t := Lookup(s, n);
      Put(t, c, s.client[c].(bRegistered := true)).(mClients := t.mClients[n := c], unregistered := Without(t.unregistered, c))
  }

  /** A client that may run commands: it exists and is queued for processing. */
  predicate Runs(s: State, c: Client) {
    c in s.client && c in s.processing
  }

  lemma RegisterKeeps(s: State, c: Client)
    requires Core(s) && Runs(s, c) && !s.client[c].bRegistered && !s.client[c].bExpired
    ensures Core(Register(s, c)) && (InSync(s) ==> InSync(Register(s, c)))
    ensures Register(s, c).client.Keys <= s.client.Keys && Runs(Register(s, c), c)
  {
    if MayRegister(s, c) {
      var n := s.client[c].nickname;
      LookupKeeps(s, n);
      AdmittedSound(Lookup(s, n), c);
      if InSync(s) {
        AdmittedInSync(Lookup(s, n), c);
      }
    }
  }

  function Admitted(s: State, c: Client): State
    requires c in s.client
  {
    var k := s.client[c];
    Put(s, c, k.(bRegistered := true)).(mClients := s.mClients[k.nickname := c], unregistered := Without(s.unregistered, c))
  }

  lemma AdmittedSound(s: State, c: Client)
    requires Core(s) && Runs(s, c) && !s.client[c].bRegistered && !s.client[c].bExpired
    requires Complete(s, c) && s.client[c].nickname !in s.mClients
    ensures Core(Admitted(s, c))
  {
    hide Kept, OwnersExist, Directory, Waiting, AllDecent, Named, Keyed, Without;
    var t := Admitted(s, c);
    WaitingIsDistinct(s);
    AdmittedKept(s, c);
    KeptOwners(t);
    AdmittedDirectory(s, c);
    AdmittedWaiting(s, c);
    OneDecent(s, c);
    assert Decent(t.password, t.client[c]);
    hide Decent, GaveAll;
    DecentFrame(s, t, c);
    NamedFrame(s, t);
    KeyedFrame(s, t);
  }

  lemma KeptOwners(s: State)
    requires Kept(s)
    ensures OwnersExist(s)
  {
  }

  lemma WaitingIsDistinct(s: State)
    requires Waiting(s)
    ensures Distinct(s.unregistered)
  {
  }

  lemma OneDecent(s: State, c: Client)
    requires AllDecent(s) && c in s.client
    ensures Decent(s.password, s.client[c])
  {
  }

  lemma AdmittedDirectory(s: State, c: Client)
    requires Directory(s) && c in s.client
    ensures Directory(Admitted(s, c))
  {
  }

  lemma AdmittedWaiting(s: State, c: Client)
    requires Waiting(s) && c in s.client
    ensures Waiting(Admitted(s, c))
  {
    WithoutIs(s.unregistered, c);
    hide Without;
  }

  lemma AdmittedKept(s: State, c: Client)
    requires Kept(s) && c in s.client && c in s.processing && s.client[c].nickname !in s.mClients && Distinct(s.unregistered)
    ensures Kept(Admitted(s, c))
  {
    forall d ensures Owned(Admitted(s, c), d) <==> Owned(s, d) {
      AdmittedOwns(s, c, d);
    }
    hide Owned, Without;
  }

  lemma AdmittedOwns(s: State, c: Client, d: Client)
    requires c in s.client && c in s.processing && s.client[c].nickname !in s.mClients && Distinct(s.unregistered)
    ensures Owned(Admitted(s, c), d) <==> Owned(s, d)
  {
    var t := Admitted(s, c);
    WithoutIs(s.unregistered, c);
    if d in s.mClients.Values {
      var k :| k in s.mClients && s.mClients[k] == d;
      assert t.mClients[k] == d;
    }
    if d in t.mClients.Values && d != c {
      var k :| k in t.mClients && t.mClients[k] == d;
      assert s.mClients[k] == d;
    }
  }

  lemma AdmittedInSync(s: State, c: Client)
    requires Core(s) && InSync(s) && c in s.client && !s.client[c].bRegistered && s.client[c].nickname !in s.mClients
    ensures InSync(Admitted(s, c))
  {
    var t := Admitted(s, c);
    OneDecent(s, c);
    hide Without, Core, Owned;
    AdmittedTwoWay(s, c);
    forall ch, k | ch in t.channel && k in t.channel[ch].clients ensures EntryFits(t, k, t.channel[ch].clients[k]) {
      assert EntryFits(s, k, s.channel[ch].clients[k]);
    }
    forall d | d in t.client && t.client[d].Active() ensures FiledUnder(t, d) {
      assert d != c ==> FiledUnder(s, d);
    }
  }

  lemma AdmittedTwoWay(s: State, c: Client)
    requires TwoWay(s) && OneKey(s) && c in s.client && !s.client[c].bRegistered && s.client[c].channels == map[]
    ensures TwoWay(Admitted(s, c))
  {
    var t := Admitted(s, c);
    forall d, ch | d in t.client && ch in t.channel && t.client[d].Active() ensures Holds(t, d, ch) <==> Lists(t, ch, d) {
      if d == c {
        var n := s.client[c].nickname;
        assert n in s.channel[ch].clients ==> EntryFits(s, n, s.channel[ch].clients[n]);
      } else {
        assert Holds(s, d, ch) <==> Lists(s, ch, d);
      }
    }
  }

  // ----- PASS, USER -----

  /** An unregistered client may change what it gives for its registration. */
  lemma IntroducedKeeps(s: State, c: Client, k: ClientState)
    requires Core(s) && c in s.client && !s.client[c].bRegistered
    requires !k.bRegistered && k.bExpired == s.client[c].bExpired && k.bSocketClosed == s.client[c].bSocketClosed
    requires k.channels == s.client[c].channels
    ensures Core(Put(s, c, k)) && (InSync(s) ==> InSync(Put(s, c, k)))
  {
    hide InSync;
    if InSync(s) {
      IntroducedInSync(s, c, k);
    }
    IntroducedSound(s, c, k);
  }

  lemma IntroducedSound(s: State, c: Client, k: ClientState)
    requires Core(s) && c in s.client && !s.client[c].bRegistered
    requires !k.bRegistered && k.bExpired == s.client[c].bExpired && k.bSocketClosed == s.client[c].bSocketClosed
    requires k.channels == s.client[c].channels
    ensures Core(Put(s, c, k))
  {
    hide Kept, OwnersExist, Directory, Waiting, AllDecent, Named, Keyed;
    var t := Put(s, c, k);
    OwnersFrame(s, t);
    KeptOwners(t);
    UnregisteredNotFiled(s, c);
    OneDecent(s, c);
    DirectoryFrame(s, t);
    WaitingFrame(s, t);
    DecentFrame(s, t, c);
    NamedFrame(s, t);
    KeyedFrame(s, t);
  }

  lemma UnregisteredNotFiled(s: State, c: Client)
    requires Directory(s) && c in s.client && !s.client[c].bRegistered
    ensures c !in s.mClients.Values
  {
  }

  lemma IntroducedInSync(s: State, c: Client, k: ClientState)
    requires InSync(s) && c in s.client && !s.client[c].bRegistered && !k.bRegistered
    ensures InSync(Put(s, c, k))
  {
    var t := Put(s, c, k);
    forall d, ch | d in t.client && ch in t.channel && t.client[d].Active() ensures Holds(t, d, ch) <==> Lists(t, ch, d) {
      assert Holds(s, d, ch) <==> Lists(s, ch, d);
    }
    forall ch, j | ch in t.channel && j in t.channel[ch].clients ensures EntryFits(t, j, t.channel[ch].clients[j]) {
      assert EntryFits(s, j, s.channel[ch].clients[j]);
    }
    forall d | d in t.client && t.client[d].Active() ensures FiledUnder(t, d) {
      assert FiledUnder(s, d);
    }
  }

  function Passed(s: State, c: Client, arguments: seq<string>): State
    requires c in s.client
  {
    if s.client[c].bExpired || s.client[c].bRegistered || arguments == [] then s
    else Register(Put(s, c, s.client[c].(serverPass := arguments[0])), c)
  }

  /** The arguments of USER that are looked at: four names. */
  predicate FourNames(arguments: seq<string>)
    requires |arguments| >= 4
  {
    forall i :: 0 <= i < 4 ==> IsUserName(arguments[i]) && arguments[i] != ""
  }

  /** An empty argument comes before any that is no name. */
  predicate MeetsEmptyName(arguments: seq<string>)
    requires |arguments| >= 4
  {
    exists i :: 0 <= i < 4 && arguments[i] == "" && forall j :: 0 <= j < i ==> IsUserName(arguments[j])
  }

  function Introduced(s: State, c: Client, arguments: seq<string>): State
    requires c in s.client
  {
    if s.client[c].bExpired || s.client[c].bRegistered || |arguments| < 4 || !FourNames(arguments) then s
    else Register(Put(s, c, s.client[c].(username := arguments[0], realname := arguments[3])), c)
  }

  lemma PassedKeeps(s: State, c: Client, arguments: seq<string>)
    requires Core(s) && Runs(s, c)
    ensures Core(Passed(s, c, arguments)) && (InSync(s) ==> InSync(Passed(s, c, arguments)))
  {
    if !(s.client[c].bExpired || s.client[c].bRegistered || arguments == []) {
      var k := s.client[c].(serverPass := arguments[0]);
      IntroducedKeeps(s, c, k);
      hide Core, InSync, Register;
      RegisterKeeps(Put(s, c, k), c);
    }
  }

  lemma IntroducedUserKeeps(s: State, c: Client, arguments: seq<string>)
    requires Core(s) && Runs(s, c)
    ensures Core(Introduced(s, c, arguments)) && (InSync(s) ==> InSync(Introduced(s, c, arguments)))
  {
    if !(s.client[c].bExpired || s.client[c].bRegistered || |arguments| < 4 || !FourNames(arguments)) {
      var k := s.client[c].(username := arguments[0], realname := arguments[3]);
      IntroducedKeeps(s, c, k);
      hide Core, InSync, Register;
      RegisterKeeps(Put(s, c, k), c);
    }
  }

  /** registerClient files the client under its nickname, whatever entry was there, takes it off the list of
      unregistered ones, and touches nobody else; or, if it may not, changes nothing. */
  lemma RegisterFiles(s: State, c: Client)
    requires Core(s) && Runs(s, c) && !s.client[c].bRegistered && !s.client[c].bExpired
    ensures var t, n := Register(s, c), s.client[c].nickname;
            if MayRegister(s, c)
            then && t.mClients == s.mClients[n := c] && c in t.client && t.client[c] == s.client[c].(bRegistered := true) && c !in t.unregistered
                 && (forall d :: d in t.client && d != c ==> d in s.client && t.client[d] == s.client[d])
                 && (forall d :: d in s.client && d !in t.client ==> n in s.mClients && s.mClients[n] == d && s.client[d].bExpired)
            else t == s
  {
    if MayRegister(s, c) {
      var n := s.client[c].nickname;
      LookupKeeps(s, n);
      LookupErases(s, n);
      CoreIsDistinct(s);
      LookupDestroysExpired(s, n);
      hide Core, Lookup, Distinct, InSync, Found, Complete;
      FilesIn(Lookup(s, n), c, n, s.client[c].(bRegistered := true));
      Overwritten(s.mClients, Lookup(s, n).mClients, n, c);
      hide Without;
    }
  }

  lemma FilesIn(s: State, c: Client, n: string, k: ClientState)
    requires Distinct(s.unregistered)
    ensures c !in Put(s, c, k).(mClients := s.mClients[n := c], unregistered := Without(s.unregistered, c)).unregistered
  {
    WithoutIs(s.unregistered, c);
  }

  lemma Overwritten(m: map<string, Client>, m': map<string, Client>, n: string, c: Client)
    requires m' - {n} == m - {n}
    ensures m'[n := c] == m[n := c]
  {
    assert (m' - {n})[n := c] == m'[n := c] && (m - {n})[n := c] == m[n := c];
  }

  lemma LookupDestroysExpired(s: State, n: string)
    requires Core(s)
    ensures forall d :: d in s.client && d !in Lookup(s, n).client ==> n in s.mClients && s.mClients[n] == d && s.client[d].bExpired
  {
    forall d | d in s.client && d !in Lookup(s, n).client ensures n in s.mClients && s.mClients[n] == d && s.client[d].bExpired {
      LookupDestroys(s, n, d);
    }
  }

  lemma CoreIsDistinct(s: State)
    requires Core(s)
    ensures Distinct(s.unregistered)
  {
  }

  lemma LookupErases(s: State, n: string)
    requires Core(s)
    ensures Lookup(s, n).unregistered == s.unregistered && Lookup(s, n).mClients - {n} == s.mClients - {n}
  {
  }

  /** PASS and USER register the client exactly if that was all it took. */
  lemma RegistersExactly(s: State, c: Client, arguments: seq<string>)
    requires Core(s) && Runs(s, c)
    ensures var t := Passed(s, c, arguments);
            c in t.client &&
            (t.client[c].bRegistered <==>
             s.client[c].bRegistered ||
             (!s.client[c].bExpired && arguments != [] && GaveAll(s.password, s.client[c].(serverPass := arguments[0]))
              && Found(s, s.client[c].nickname) == null))
    ensures var t := Introduced(s, c, arguments);
            c in t.client &&
            (t.client[c].bRegistered <==>
             s.client[c].bRegistered ||
             (!s.client[c].bExpired && |arguments| >= 4 && FourNames(arguments)
              && GaveAll(s.password, s.client[c].(username := arguments[0], realname := arguments[3]))
              && Found(s, s.client[c].nickname) == null))
  {
    if !s.client[c].bExpired && !s.client[c].bRegistered {
      if arguments != [] {
        GivenRegisters(s, c, s.client[c].(serverPass := arguments[0]));
      }
      if |arguments| >= 4 {
        GivenRegisters(s, c, s.client[c].(username := arguments[0], realname := arguments[3]));
      }
    }
    hide Core, Register, GaveAll, Found, FourNames;
  }

  lemma GivenRegisters(s: State, c: Client, k: ClientState)
    requires Core(s) && Runs(s, c) && !s.client[c].bRegistered && !s.client[c].bExpired
    requires k == s.client[c].(nickname := k.nickname, username := k.username, realname := k.realname, serverPass := k.serverPass)
    ensures var t := Register(Put(s, c, k), c);
            c in t.client && (t.client[c].bRegistered <==> GaveAll(s.password, k) && Found(s, k.nickname) == null)
  {
    var u := Put(s, c, k);
    IntroducedKeeps(s, c, k);
    RegisterFiles(u, c);
    FoundAfterPut(s, c, k);
    hide Core, InSync, Register, GaveAll, Found;
  }

  lemma FoundAfterPut(s: State, c: Client, k: ClientState)
    requires c in s.client && k.bExpired == s.client[c].bExpired
    ensures forall n :: Found(Put(s, c, k), n) == Found(s, n)
  {
  }

  // ----- NICK -----

  /** The rename of a registered client: the entry under the old name goes, whosever it is; each channel held drops
      the new key and then lists the client under it; the old key stays. */
  function Renamed(s: State, c: Client, n: string): State
    requires c in s.client
  {
    Swept(Refiled(s, c, n))
  }

  function Refiled(s: State, c: Client, n: string): State
    requires c in s.client
  {
    var k := s.client[c];
    Put(s, c, k.(nickname := n)).(
      mClients := (s.mClients - {k.nickname})[n := c],
      channel := Relisted(s.channel, k.channels.Values, n, c))
  }

  /** The channels in held list the client under the nickname too. */
  function Relisted(channel: map<Channel, ChannelState>, held: set<Channel>, n: string, c: Client): map<Channel, ChannelState> {
    map ch | ch in channel :: if ch in held then Listing(channel[ch], n, c) else channel[ch]
  }

  function Listing(x: ChannelState, n: string, c: Client): ChannelState {
    x.(clients := x.clients[n := c])
  }

  lemma RelistedNone(channel: map<Channel, ChannelState>, n: string, c: Client)
    ensures Relisted(channel, {}, n, c) == channel
  {
  }

  lemma RelistedMore(channel: map<Channel, ChannelState>, held: set<Channel>, ch: Channel, n: string, c: Client)
    ensures ch in channel ==> ch in Relisted(channel, held, n, c)
    ensures ch in channel ==>
      Relisted(channel, held, n, c)[ch := Listing(Relisted(channel, held, n, c)[ch], n, c)] == Relisted(channel, held + {ch}, n, c)
  {
    if ch in channel {
      var m: map<string, Client> := channel[ch].clients;
      assert m[n := c][n := c] == m[n := c];
    }
  }

  function Nicked(s: State, c: Client, arguments: seq<string>): State
    requires c in s.client
  {
    if s.client[c].bExpired || arguments == [] || !IsNickname(arguments[0]) || Found(s, arguments[0]) != null then s
    else
      var t := Lookup(s, arguments[0]);
      if c !in t.client then t
      else if !s.client[c].bRegistered then Register(Put(t, c, t.client[c].(nickname := arguments[0])), c)
      else Renamed(t, c, arguments[0])
  }

  /** NICK renames a client that is in a channel. */
  predicate RenamesMember(s: State, c: Client, arguments: seq<string>)
    requires c in s.client
  {
    && s.client[c].Active() && arguments != [] && IsNickname(arguments[0]) && Found(s, arguments[0]) == null
    && s.client[c].channels != map[]
  }

  lemma RefiledSound(s: State, c: Client, n: string)
    requires Core(s) && Runs(s, c) && s.client[c].Active() && n != "" && n !in s.mClients
    ensures Sound(Refiled(s, c, n))
  {
    hide Kept, OwnersExist, Directory, Waiting, AllDecent, Named, Keyed;
    var t := Refiled(s, c, n);
    KeptOwners(s);
    OneDecent(s, c);
    assert Decent(t.password, t.client[c]);
    hide Decent, GaveAll, Owned;
    RefiledOwners(s, c, n);
    RefiledDirectory(s, c, n);
    WaitingFrame(s, t);
    DecentFrame(s, t, c);
    NamedFrame(s, t);
    KeyedFrame(s, t);
  }

  lemma RefiledOwners(s: State, c: Client, n: string)
    requires OwnersExist(s) && c in s.client
    ensures OwnersExist(Refiled(s, c, n))
  {
    var t := Refiled(s, c, n);
    forall d | Owned(t, d) ensures d in t.client {
      if d in t.mClients.Values && d != c {
        var k :| k in t.mClients && t.mClients[k] == d;
        assert s.mClients[k] == d && d in s.mClients.Values;
      }
      assert d != c ==> Owned(s, d);
    }
  }

  lemma RefiledDirectory(s: State, c: Client, n: string)
    requires Directory(s) && c in s.client && s.client[c].bRegistered
    ensures Directory(Refiled(s, c, n))
  {
  }

  /** A client that holds nothing is listed nowhere, so its rename disturbs nothing. */
  lemma RefiledInSync(s: State, c: Client, n: string)
    requires Core(s) && InSync(s) && c in s.client && s.client[c].Active() && n !in s.mClients
    requires s.client[c].channels == map[]
    ensures InSync(Refiled(s, c, n))
  {
    var t := Refiled(s, c, n);
    assert t.channel == s.channel;
    hide Relisted;
    forall d, ch | d in t.client && ch in t.channel && t.client[d].Active() ensures Holds(t, d, ch) <==> Lists(t, ch, d) {
      assert Holds(s, d, ch) <==> Lists(s, ch, d);
      if d == c && n in s.channel[ch].clients {
        assert EntryFits(s, n, s.channel[ch].clients[n]);
        assert FiledUnder(s, c);
      }
    }
    forall ch, k | ch in t.channel && k in t.channel[ch].clients ensures EntryFits(t, k, t.channel[ch].clients[k]) {
      assert EntryFits(s, k, s.channel[ch].clients[k]);
      assert Holds(s, c, ch) <==> Lists(s, ch, c);
    }
    forall d | d in t.client && t.client[d].Active() ensures FiledUnder(t, d) {
      assert FiledUnder(s, d) && FiledUnder(s, c);
    }
  }

  /** The key left behind in a held channel. */
  lemma OldKeyLeft(s: State, c: Client, n: string)
    requires Core(s) && InSync(s) && c in s.client && s.client[c].Active() && n !in s.mClients && s.client[c].channels != map[]
    ensures !OneKey(Renamed(s, c, n))
  {
    var old_, t := s.client[c].nickname, Renamed(s, c, n);
    var k :| k in s.client[c].channels;
    var ch := s.client[c].channels[k];
    assert HoldsNamed(s, c) && FiledUnder(s, c) && ch in s.client[c].channels.Values;
    assert Holds(s, c, ch) && Lists(s, ch, c);
    assert Refiled(s, c, n).mClients[n] == c;
    assert Owned(Refiled(s, c, n), c) && c in t.client;
    assert t.channel[ch].clients[old_] == c && !EntryFits(t, old_, c);
  }

  lemma RenamedKeeps(s: State, c: Client, n: string)
    requires Core(s) && Runs(s, c) && s.client[c].Active() && n != "" && n !in s.mClients
    ensures Core(Renamed(s, c, n))
    ensures InSync(s) ==> (InSync(Renamed(s, c, n)) <==> s.client[c].channels == map[])
  {
    RefiledSound(s, c, n);
    SweptKeeps(Refiled(s, c, n));
    if InSync(s) {
      if s.client[c].channels == map[] {
        RefiledInSync(s, c, n);
      } else {
        OldKeyLeft(s, c, n);
      }
    }
  }

  /** NICK keeps the core, and keeps the rest exactly unless it renames a member. */
  lemma NickedKeeps(s: State, c: Client, arguments: seq<string>)
    requires Core(s) && Runs(s, c) && (arguments != [] ==> arguments[0] != "")
    ensures Core(Nicked(s, c, arguments))
    ensures InSync(s) ==> (InSync(Nicked(s, c, arguments)) <==> !RenamesMember(s, c, arguments))
  {
    if !(s.client[c].bExpired || arguments == [] || !IsNickname(arguments[0]) || Found(s, arguments[0]) != null) {
      var n := arguments[0];
      LookupKeeps(s, n);
      LookupFrees(s, n);
      var t := Lookup(s, n);
      hide Core, InSync, Lookup, Register, Renamed;
      if !s.client[c].bRegistered {
        IntroducedKeeps(t, c, t.client[c].(nickname := n));
        RegisterKeeps(Put(t, c, t.client[c].(nickname := n)), c);
      } else {
        RenamedKeeps(t, c, n);
      }
    }
  }

  /** NICK may take the nickname: it is well-formed, and no unexpired client is filed under it. */
  predicate TakesNickname(s: State, c: Client, arguments: seq<string>)
    requires c in s.client
  {
    !s.client[c].bExpired && arguments != [] && IsNickname(arguments[0]) && Found(s, arguments[0]) == null
  }

  /** What NICK does for the client: the nickname is taken exactly if it may be. The directory entry of a registered
      client moves to the new key, and each channel it holds lists it under that key too; nobody else is changed. */
  lemma NickedTakes(s: State, c: Client, arguments: seq<string>)
    requires Core(s) && Runs(s, c)
    ensures var t := Nicked(s, c, arguments);
            && c in t.client
            && t.client[c].nickname == (if TakesNickname(s, c, arguments) then arguments[0] else s.client[c].nickname)
            && t.client[c].channels == s.client[c].channels
            && (TakesNickname(s, c, arguments) && s.client[c].bRegistered ==>
                  && t.mClients == (s.mClients - {s.client[c].nickname})[arguments[0] := c]
                  && t.channel == Relisted(s.channel, s.client[c].channels.Values, arguments[0], c))
            && (TakesNickname(s, c, arguments) && !s.client[c].bRegistered ==>
                  t.channel == s.channel && (t.client[c].bRegistered <==> GaveAll(s.password, s.client[c].(nickname := arguments[0]))))
            && (!TakesNickname(s, c, arguments) ==> t == s)
            && forall d :: d in t.client && d != c ==> d in s.client && t.client[d] == s.client[d]
  {
    if TakesNickname(s, c, arguments) {
      var n := arguments[0];
      LookupKeeps(s, n);
      LookupFrees(s, n);
      LookupErases(s, n);
      hide Core, Lookup, Renamed, Register, Found, IsNickname, GaveAll, Relisted;
      if s.client[c].bRegistered {
        RenamedTakes(Lookup(s, n), c, n);
        Refiling(s.mClients, Lookup(s, n).mClients, s.client[c].nickname, n, c);
      } else {
        FirstNickname(Lookup(s, n), c, n);
      }
    } else {
      hide Core, Register, Renamed;
    }
  }

  lemma Refiling(m: map<string, Client>, m': map<string, Client>, old_: string, n: string, c: Client)
    requires m' - {n} == m - {n}
    ensures (m' - {old_})[n := c] == (m - {old_})[n := c]
  {
    assert forall k :: k != n ==> (k in m' <==> k in m' - {n}) && (k in m <==> k in m - {n});
    assert forall k :: k in m' && k != n ==> m'[k] == (m' - {n})[k];
    assert forall k :: k in m && k != n ==> m[k] == (m - {n})[k];
  }

  lemma FirstNickname(s: State, c: Client, n: string)
    requires Core(s) && Runs(s, c) && !s.client[c].bRegistered && !s.client[c].bExpired && Found(s, n) == null
    ensures var k := s.client[c].(nickname := n);
            var t := Register(Put(s, c, k), c);
            && c in t.client && t.client[c].nickname == n && t.client[c].channels == k.channels && t.channel == s.channel
            && (t.client[c].bRegistered <==> GaveAll(s.password, k))
            && forall d :: d in t.client && d != c ==> d in s.client && t.client[d] == s.client[d]
  {
    var k := s.client[c].(nickname := n);
    GivenRegisters(s, c, k);
    IntroducedKeeps(s, c, k);
    RegisterFiles(Put(s, c, k), c);
    RegisterChannels(Put(s, c, k), c);
    hide Core, InSync, Register, GaveAll, Found;
  }

  lemma RegisterChannels(s: State, c: Client)
    requires c in s.client
    ensures Register(s, c).channel == s.channel
  {
  }

  lemma RenamedTakes(s: State, c: Client, n: string)
    requires Core(s) && Runs(s, c)
    ensures var t := Renamed(s, c, n);
            && c in t.client && t.client[c] == s.client[c].(nickname := n)
            && t.mClients == (s.mClients - {s.client[c].nickname})[n := c]
            && t.channel == Relisted(s.channel, s.client[c].channels.Values, n, c)
            && forall d :: d in t.client && d != c ==> d in s.client && t.client[d] == s.client[d]
  {
    hide Core, Relisted;
  }

  /** After a lookup that found nobody the name is free. */
  lemma LookupFrees(s: State, n: string)
    requires Core(s) && Found(s, n) == null
    ensures n !in Lookup(s, n).mClients && Lookup(s, n).processing == s.processing && Lookup(s, n).channel == s.channel
  {
    if n in s.mClients {
      assert s.mClients[n] in s.mClients.Values;
    }
  }

  // ----- Joining and leaving one channel -----

  /** joinClientToChannel writes both directions. */
  function Linked(s: State, c: Client, ch: Channel): State
    requires c in s.client && ch in s.channel
  {
    var k, x := s.client[c], s.channel[ch];
    Put(s, c, k.(channels := k.channels[x.name := ch])).(channel := s.channel[ch := x.(clients := x.clients[k.nickname := c])])
  }

  /** partClientFromChannel takes both directions back, and the operator entry with them. */
  function Unlinked(s: State, c: Client, ch: Channel): State
    requires c in s.client && ch in s.channel
  {
    var k, x := s.client[c], s.channel[ch];
    Put(s, c, k.(channels := k.channels - {x.name})).(channel :=
      s.channel[ch := x.(clients := x.clients - {k.nickname}, operators := x.operators - {k.nickname})])
  }

  /** As TwoWay, but for the pair being joined. */
  ghost predicate TwoWayBut(s: State, c0: Client, ch0: Channel) {
    forall c, ch :: c in s.client && ch in s.channel && s.client[c].Active() && !(c == c0 && ch == ch0) ==>
      (Holds(s, c, ch) <==> Lists(s, ch, c))
  }

  lemma LinkedKeeps(s: State, c: Client, ch: Channel)
    requires Core(s) && c in s.client && s.client[c].Active() && ch in s.channel
    requires s.channel[ch].name in s.mChannels && s.mChannels[s.channel[ch].name] == ch
    ensures Core(Linked(s, c, ch))
    ensures Filed(s) && OneKey(s) && TwoWayBut(s, c, ch) ==> InSync(Linked(s, c, ch))
  {
    LinkedCore(s, c, ch);
    hide Core;
    if Filed(s) && OneKey(s) && TwoWayBut(s, c, ch) {
      OthersNamed(s, c);
      LinkedTwoWay(s, c, ch);
      LinkedOneKey(s, c, ch);
      LinkedFiled(s, c, ch);
    }
  }

  lemma LinkedCore(s: State, c: Client, ch: Channel)
    requires Core(s) && c in s.client && s.client[c].Active() && ch in s.channel
    requires s.channel[ch].name in s.mChannels && s.mChannels[s.channel[ch].name] == ch
    ensures Core(Linked(s, c, ch))
  {
    hide Kept, OwnersExist, Directory, Waiting, AllDecent, Named, Keyed;
    var t := Linked(s, c, ch);
    OneDecent(s, c);
    assert Decent(t.password, t.client[c]);
    hide Decent;
    OwnersFrame(s, t);
    KeptOwners(t);
    LinkedNamed(s, c, ch);
    DirectoryFrame(s, t);
    WaitingFrame(s, t);
    DecentFrame(s, t, c);
    KeyedFrame(s, t);
  }

  lemma LinkedNamed(s: State, c: Client, ch: Channel)
    requires Named(s) && c in s.client && ch in s.channel
    requires s.channel[ch].name in s.mChannels && s.mChannels[s.channel[ch].name] == ch
    ensures Named(Linked(s, c, ch))
  {
    var t := Linked(s, c, ch);
    forall d | d in t.client ensures HoldsNamed(t, d) {
      assert HoldsNamed(s, d);
    }
  }

  /** While every active client is filed, no other has this one's nickname. */
  lemma OthersNamed(s: State, c: Client)
    requires Filed(s) && c in s.client && s.client[c].Active()
    ensures SoleNickname(s, c)
  {
    assert FiledUnder(s, c);
    forall d | d in s.client && s.client[d].Active() && d != c ensures s.client[d].nickname != s.client[c].nickname {
      assert FiledUnder(s, d);
    }
  }

  ghost predicate SoleNickname(s: State, c: Client)
    requires c in s.client
  {
    forall d :: d in s.client && s.client[d].Active() && d != c ==> s.client[d].nickname != s.client[c].nickname
  }

  lemma LinkedTwoWay(s: State, c: Client, ch: Channel)
    requires c in s.client && s.client[c].Active() && ch in s.channel && TwoWayBut(s, c, ch) && SoleNickname(s, c)
    requires Named(s) && s.channel[ch].name in s.mChannels && s.mChannels[s.channel[ch].name] == ch
    ensures TwoWay(Linked(s, c, ch))
  {
    var t := Linked(s, c, ch);
    assert HoldsNamed(s, c);
    forall d, x | d in t.client && x in t.channel && t.client[d].Active() ensures Holds(t, d, x) <==> Lists(t, x, d) {
      if d != c || x != ch {
        assert Holds(s, d, x) <==> Lists(s, x, d);
      }
    }
  }

  lemma LinkedOneKey(s: State, c: Client, ch: Channel)
    requires OneKey(s) && c in s.client && s.client[c].Active() && ch in s.channel
    ensures OneKey(Linked(s, c, ch))
  {
    var t := Linked(s, c, ch);
    forall x, k | x in t.channel && k in t.channel[x].clients ensures EntryFits(t, k, t.channel[x].clients[k]) {
      assert k in s.channel[x].clients ==> EntryFits(s, k, s.channel[x].clients[k]);
    }
  }

  lemma LinkedFiled(s: State, c: Client, ch: Channel)
    requires Filed(s) && c in s.client && ch in s.channel
    ensures Filed(Linked(s, c, ch))
  {
    var t := Linked(s, c, ch);
    forall d | d in t.client && t.client[d].Active() ensures FiledUnder(t, d) {
      assert FiledUnder(s, d);
    }
  }

  lemma UnlinkedKeeps(s: State, c: Client, ch: Channel)
    requires Core(s) && c in s.client && ch in s.channel
    ensures Core(Unlinked(s, c, ch))
    ensures InSync(s) && s.client[c].Active() && s.channel[ch].name in s.mChannels && s.mChannels[s.channel[ch].name] == ch ==>
              InSync(Unlinked(s, c, ch))
  {
    UnlinkedCore(s, c, ch);
    if InSync(s) && s.client[c].Active() && s.channel[ch].name in s.mChannels && s.mChannels[s.channel[ch].name] == ch {
      hide Core;
      OthersNamed(s, c);
      UnlinkedInSync(s, c, ch);
    }
  }

  lemma UnlinkedCore(s: State, c: Client, ch: Channel)
    requires Core(s) && c in s.client && ch in s.channel
    ensures Core(Unlinked(s, c, ch))
  {
    hide Kept, OwnersExist, Directory, Waiting, AllDecent, Named, Keyed;
    var t := Unlinked(s, c, ch);
    OneDecent(s, c);
    assert Decent(t.password, t.client[c]) by {
      assert s.client[c].channels == map[] ==> t.client[c].channels == map[];
    }
    hide Decent;
    OwnersFrame(s, t);
    KeptOwners(t);
    UnlinkedNamed(s, c, ch);
    DirectoryFrame(s, t);
    WaitingFrame(s, t);
    DecentFrame(s, t, c);
    KeyedFrame(s, t);
  }

  lemma UnlinkedNamed(s: State, c: Client, ch: Channel)
    requires Named(s) && c in s.client && ch in s.channel
    ensures Named(Unlinked(s, c, ch))
  {
    var t := Unlinked(s, c, ch);
    forall d | d in t.client ensures HoldsNamed(t, d) {
      assert HoldsNamed(s, d);
    }
  }

  lemma UnlinkedInSync(s: State, c: Client, ch: Channel)
    requires c in s.client && s.client[c].Active() && ch in s.channel && InSync(s) && Named(s) && SoleNickname(s, c)
    requires s.channel[ch].name in s.mChannels && s.mChannels[s.channel[ch].name] == ch
    ensures InSync(Unlinked(s, c, ch))
  {
    var t := Unlinked(s, c, ch);
    assert HoldsNamed(s, c);
    forall d, x | d in t.client && x in t.channel && t.client[d].Active() ensures Holds(t, d, x) <==> Lists(t, x, d) {
      assert Holds(s, d, x) <==> Lists(s, x, d);
    }
    forall x, k | x in t.channel && k in t.channel[x].clients ensures EntryFits(t, k, t.channel[x].clients[k]) {
      assert EntryFits(s, k, s.channel[x].clients[k]);
    }
    forall d | d in t.client && t.client[d].Active() ensures FiledUnder(t, d) {
      assert FiledUnder(s, d);
    }
  }

  // ----- JOIN -----

  /** The channel's modes let the client in: key, limit, invitation. */
  predicate Admits(s: State, ch: Channel, c: Client, key: string)
    requires c in s.client && ch in s.channel
  {
    var x := s.channel[ch];
    && (x.bPrivate ==> x.password == key)
    && (x.maxClients != 0 ==> |x.clients| < x.maxClients)
    && (x.bInviteOnly ==> s.client[c].nickname in x.invited)
  }

  predicate IsChannelName(name: string) {
    name != "" && name[0] == '#'
  }

  /** The name calls for a new channel. */
  predicate Creates(s: State, c: Client, name: string)
    requires c in s.client
  {
    s.client[c].Active() && IsChannelName(name) && FoundChannel(s, name) == null && |name| <= MAX_CHANNEL_NAME_LENGTH
  }

  /** The client may enter the live channel: it is not found in it, and the modes admit it. */
  predicate Enters(s: State, c: Client, name: string, key: string)
    requires c in s.client
  {
    var ch := FoundChannel(s, name);
    && s.client[c].Active() && IsChannelName(name) && ch != null && ch in s.channel
    && !Finds(s, ch, s.client[c].nickname) && Admits(s, ch, c, key)
  }

  /** The new channel is filed with its creator as member and operator. */
  function Created(s: State, c: Client, name: string, ch: Channel): State
    requires c in s.client
  {
    Linked(s.(mChannels := s.mChannels[name := ch], channel := s.channel[ch := NewChannel(name, c, s.client[c].nickname)]), c, ch)
  }

  function Entered(s: State, c: Client, ch: Channel): State
    requires c in s.client && ch in s.channel
  {
    Linked(Uninvited(s, ch, s.client[c].nickname), c, ch)
  }

  /** An invitation is used up where one is needed. */
  function Uninvited(s: State, ch: Channel, n: string): State
    requires ch in s.channel
  {
    var x := s.channel[ch];
    if x.bInviteOnly then s.(channel := s.channel[ch := x.(invited := x.invited - {n})]) else s
  }

  /** One turn of JOIN's loop; made is the channel object made for it, if one is. */
  function JoinedOne(s: State, c: Client, name: string, key: string, made: Channel?): State
    requires c in s.client
  {
    if Creates(s, c, name) then (if made != null then Created(s, c, name, made) else s)
    else if Enters(s, c, name, key) then Entered(s, c, FoundChannel(s, name))
    else s
  }

  /** The channel object is new to the server. */
  ghost predicate NewObject(s: State, ch: Channel?) {
    ch != null && ch !in s.channel && !Alive(s, ch)
  }

  lemma JoinedOneKeeps(s: State, c: Client, name: string, key: string, made: Channel?)
    requires Core(s) && c in s.client && (Creates(s, c, name) ==> NewObject(s, made))
    ensures Core(JoinedOne(s, c, name, key, made)) && (InSync(s) ==> InSync(JoinedOne(s, c, name, key, made)))
    ensures JoinedOne(s, c, name, key, made).client.Keys == s.client.Keys
    ensures JoinedOne(s, c, name, key, made).processing == s.processing
  {
    hide Core, InSync, Creates, Enters, Created, Entered, FoundChannel;
    if Creates(s, c, name) {
      CreatingKeeps(s, c, name, made);
    } else if Enters(s, c, name, key) {
      EnteringKeeps(s, c, name, key);
    }
  }

  lemma CreatingKeeps(s: State, c: Client, name: string, made: Channel)
    requires Core(s) && c in s.client && Creates(s, c, name) && NewObject(s, made)
    ensures var t := Created(s, c, name, made);
            Core(t) && (InSync(s) ==> InSync(t)) && t.client.Keys == s.client.Keys && t.processing == s.processing
  {
    hide Core, InSync;
    CreatedKeeps(s, c, name, made);
  }

  lemma EnteringKeeps(s: State, c: Client, name: string, key: string)
    requires Core(s) && c in s.client && Enters(s, c, name, key)
    ensures FoundChannel(s, name) in s.channel
    ensures var t := Entered(s, c, FoundChannel(s, name));
            Core(t) && (InSync(s) ==> InSync(t)) && t.client.Keys == s.client.Keys && t.processing == s.processing
  {
    hide Core, InSync, Admits, Finds;
    EnteredKeeps(s, c, FoundChannel(s, name));
  }

  /** JOIN on the names that the splitter found; made[i] is the channel object made for the i-th. */
  function JoinedAll(s: State, c: Client, names: seq<string>, keys: seq<string>, made: seq<Channel?>): State
    requires |made| == |names|
  {
    if names == [] then s
    else
      var i := |names| - 1;
      var t := JoinedAll(s, c, names[..i], keys, made[..i]);
      if c !in t.client then t else JoinedOne(t, c, names[i], if i < |keys| then keys[i] else "", made[i])
  }

  /** The objects made are new where one is called for. */
  ghost predicate MadeFor(s: State, c: Client, names: seq<string>, keys: seq<string>, made: seq<Channel?>)
    requires |made| == |names|
  {
    forall i :: 0 <= i < |names| ==> MadeAt(JoinedAll(s, c, names[..i], keys, made[..i]), c, names[i], made[i])
  }

  ghost predicate MadeAt(s: State, c: Client, name: string, made: Channel?)
  {
    c in s.client && Creates(s, c, name) ==> NewObject(s, made)
  }

  lemma {:induction false} JoinedAllKeeps(s: State, c: Client, names: seq<string>, keys: seq<string>, made: seq<Channel?>)
    requires |made| == |names|
    requires Core(s) && c in s.client && MadeFor(s, c, names, keys, made)
    ensures var t := JoinedAll(s, c, names, keys, made);
            Core(t) && (InSync(s) ==> InSync(t)) && t.client.Keys == s.client.Keys && t.processing == s.processing
  {
    hide Core, InSync, JoinedOne, MadeAt;
    if names != [] {
      var i := |names| - 1;
      forall j | 0 <= j < i ensures MadeAt(JoinedAll(s, c, names[..i][..j], keys, made[..i][..j]), c, names[..i][j], made[..i][j]) {
        assert names[..i][..j] == names[..j] && made[..i][..j] == made[..j];
      }
      JoinedAllKeeps(s, c, names[..i], keys, made[..i]);
      var t := JoinedAll(s, c, names[..i], keys, made[..i]);
      assert MadeAt(t, c, names[i], made[i]);
      JoinedStep(t, c, names[i], if i < |keys| then keys[i] else "", made[i]);
    }
  }

  /** One name more. */
  lemma JoinedMore(s: State, c: Client, names: seq<string>, keys: seq<string>, made: seq<Channel?>, name: string, ch: Channel?)
    requires |made| == |names| && MadeFor(s, c, names, keys, made)
    requires MadeAt(JoinedAll(s, c, names, keys, made), c, name, ch)
    ensures MadeFor(s, c, names + [name], keys, made + [ch])
    ensures var t := JoinedAll(s, c, names, keys, made);
            c in t.client ==>
              JoinedAll(s, c, names + [name], keys, made + [ch])
              == JoinedOne(t, c, name, if |names| < |keys| then keys[|names|] else "", ch)
  {
    hide JoinedOne, MadeAt;
    var ns, ms := names + [name], made + [ch];
    assert ns[..|names|] == names && ms[..|names|] == made;
    forall i | 0 <= i < |ns| ensures MadeAt(JoinedAll(s, c, ns[..i], keys, ms[..i]), c, ns[i], ms[i]) {
      if i < |names| {
        assert ns[..i] == names[..i] && ms[..i] == made[..i];
      }
    }
  }

  /** JOIN does nothing for a client that is not active. */
  lemma {:induction false} NotJoining(s: State, c: Client, names: seq<string>, keys: seq<string>, made: seq<Channel?>)
    requires c in s.client && !s.client[c].Active() && |made| == |names|
    ensures JoinedAll(s, c, names, keys, made) == s && MadeFor(s, c, names, keys, made)
  {
    forall i | 0 <= i <= |names| ensures JoinedAll(s, c, names[..i], keys, made[..i]) == s {
      NotJoiningPrefix(s, c, names[..i], keys, made[..i]);
    }
    assert names[..|names|] == names && made[..|names|] == made;
  }

  lemma {:induction false} NotJoiningPrefix(s: State, c: Client, names: seq<string>, keys: seq<string>, made: seq<Channel?>)
    requires c in s.client && !s.client[c].Active() && |made| == |names|
    ensures JoinedAll(s, c, names, keys, made) == s
  {
    if names != [] {
      var i := |names| - 1;
      NotJoiningPrefix(s, c, names[..i], keys, made[..i]);
    }
  }

  lemma JoinedStep(s: State, c: Client, name: string, key: string, made: Channel?)
    requires Core(s) && c in s.client && MadeAt(s, c, name, made)
    ensures Core(JoinedOne(s, c, name, key, made)) && (InSync(s) ==> InSync(JoinedOne(s, c, name, key, made)))
    ensures JoinedOne(s, c, name, key, made).client.Keys == s.client.Keys
    ensures JoinedOne(s, c, name, key, made).processing == s.processing
  {
    hide Core, InSync, JoinedOne;
    JoinedOneKeeps(s, c, name, key, made);
  }

  /** What JOIN means for the client: it gains the channel exactly if it creates or enters it, and loses none. */
  lemma JoinedOneHolds(s: State, c: Client, name: string, key: string, made: Channel?)
    requires Core(s) && c in s.client && (Creates(s, c, name) ==> NewObject(s, made))
    ensures var t := JoinedOne(s, c, name, key, made);
            if Creates(s, c, name) || Enters(s, c, name, key) then c in t.client && Gained(s, t, c, name) else t == s
  {
    hide Core, InSync, Alive, Admits, FoundChannel;
    if Creates(s, c, name) {
      CreatedGains(s, c, name, made);
    } else if Enters(s, c, name, key) {
      EnteredGains(s, c, name);
    }
  }

  /** The channel in the directory under the name is added to what the client holds; it lists the client and lives. */
  predicate Gained(s: State, t: State, c: Client, name: string)
    requires c in s.client && c in t.client
  {
    && name in t.mChannels && t.client[c].channels == s.client[c].channels[name := t.mChannels[name]]
    && Finds(t, t.mChannels[name], s.client[c].nickname) && Alive(t, t.mChannels[name])
  }

  lemma CreatedGains(s: State, c: Client, name: string, ch: Channel)
    requires c in s.client
    ensures Gained(s, Created(s, c, name, ch), c, name)
  {
    var t := Created(s, c, name, ch);
    assert t.client[c].channels[name] == ch && ch in t.client[c].channels.Values;
  }

  lemma EnteredGains(s: State, c: Client, name: string)
    requires Core(s) && c in s.client && FoundChannel(s, name) != null && FoundChannel(s, name) in s.channel
    ensures Gained(s, Entered(s, c, FoundChannel(s, name)), c, name)
  {
    FoundChannelIsHeld(s, name);
    FoundIsMapped(s, name);
    LinkGains(s, c, FoundChannel(s, name), name);
  }

  lemma FoundIsMapped(s: State, name: string)
    requires FoundChannel(s, name) != null
    ensures name in s.mChannels && s.mChannels[name] == FoundChannel(s, name)
  {
  }

  lemma LinkGains(s: State, c: Client, ch: Channel, name: string)
    requires c in s.client && ch in s.channel && s.channel[ch].name == name && name in s.mChannels && s.mChannels[name] == ch
    ensures Gained(s, Entered(s, c, ch), c, name)
  {
    var t := Entered(s, c, ch);
    assert t.client[c].channels[name] == ch && ch in t.client[c].channels.Values;
  }

  lemma EnteredKeeps(s: State, c: Client, ch: Channel)
    requires Core(s) && c in s.client && s.client[c].Active() && Alive(s, ch) && ch in s.channel
    ensures Core(Entered(s, c, ch)) && (InSync(s) ==> InSync(Entered(s, c, ch)))
  {
    var x, n := s.channel[ch], s.client[c].nickname;
    var t := Uninvited(s, ch, n);
    LiveIsNamed(s, ch);
    KeyedAt(s, ch);
    if x.bInviteOnly {
      RetunedKeeps(s, ch, x.(invited := x.invited - {n}));
    }
    hide Core, InSync, Linked;
    LinkedKeeps(t, c, ch);
    SyncedBut(t, c, ch);
  }

  lemma SyncedBut(s: State, c: Client, ch: Channel)
    ensures InSync(s) ==> Filed(s) && OneKey(s) && TwoWayBut(s, c, ch)
  {
  }

  /** Changing what is neither name nor members of a channel disturbs nothing, if the key stays with the flag. */
  lemma RetunedKeeps(s: State, ch: Channel, y: ChannelState)
    requires Core(s) && ch in s.channel && y.name == s.channel[ch].name && y.clients == s.channel[ch].clients
    requires y.bPrivate || y.password == ""
    ensures var t := s.(channel := s.channel[ch := y]); Core(t) && (InSync(s) ==> InSync(t))
  {
    hide Kept, OwnersExist, Directory, Waiting, AllDecent, Named, Keyed, InSync;
    var t := s.(channel := s.channel[ch := y]);
    OwnersFrame(s, t);
    KeptOwners(t);
    if InSync(s) {
      RetunedInSync(s, ch, y);
    }
    RetunedKeyed(s, ch, y);
    DirectoryFrame(s, t);
    WaitingFrame(s, t);
    SameDecent(s, t);
    NamedFrame(s, t);
  }

  lemma RetunedKeyed(s: State, ch: Channel, y: ChannelState)
    requires Keyed(s) && (y.bPrivate || y.password == "")
    ensures Keyed(s.(channel := s.channel[ch := y]))
  {
  }

  lemma RetunedInSync(s: State, ch: Channel, y: ChannelState)
    requires InSync(s) && ch in s.channel && y.name == s.channel[ch].name && y.clients == s.channel[ch].clients
    ensures InSync(s.(channel := s.channel[ch := y]))
  {
    var t := s.(channel := s.channel[ch := y]);
    forall d, x | d in t.client && x in t.channel && t.client[d].Active() ensures Holds(t, d, x) <==> Lists(t, x, d) {
      assert Holds(s, d, x) <==> Lists(s, x, d);
    }
    forall x, k | x in t.channel && k in t.channel[x].clients ensures EntryFits(t, k, t.channel[x].clients[k]) {
      assert EntryFits(s, k, s.channel[x].clients[k]);
    }
    forall d | d in t.client && t.client[d].Active() ensures FiledUnder(t, d) {
      assert FiledUnder(s, d);
    }
  }

  lemma CreatedKeeps(s: State, c: Client, name: string, ch: Channel)
    requires Core(s) && c in s.client && s.client[c].Active() && FoundChannel(s, name) == null && NewObject(s, ch)
    ensures Core(Created(s, c, name, ch)) && (InSync(s) ==> InSync(Created(s, c, name, ch)))
  {
    var t := s.(mChannels := s.mChannels[name := ch], channel := s.channel[ch := NewChannel(name, c, s.client[c].nickname)]);
    OpenedCore(s, c, name, ch);
    if InSync(s) {
      OpenedInSync(s, c, name, ch);
    }
    hide Core, InSync;
    LinkedKeeps(t, c, ch);
  }

  lemma OpenedCore(s: State, c: Client, name: string, ch: Channel)
    requires Core(s) && c in s.client && FoundChannel(s, name) == null && NewObject(s, ch)
    ensures Core(s.(mChannels := s.mChannels[name := ch], channel := s.channel[ch := NewChannel(name, c, s.client[c].nickname)]))
  {
    var t := s.(mChannels := s.mChannels[name := ch], channel := s.channel[ch := NewChannel(name, c, s.client[c].nickname)]);
    FoundChannelIsHeld(s, name);
    hide Kept, OwnersExist, Directory, Waiting, AllDecent, Named, Keyed;
    OwnersFrame(s, t);
    KeptOwners(t);
    OpenedNamed(s, name, ch, NewChannel(name, c, s.client[c].nickname));
    OpenedKeyed(s, s.mChannels[name := ch], ch, NewChannel(name, c, s.client[c].nickname));
    DirectoryFrame(s, t);
    WaitingFrame(s, t);
    SameDecent(s, t);
  }

  lemma OpenedNamed(s: State, name: string, ch: Channel, y: ChannelState)
    requires Named(s) && ch !in s.channel && y.name == name
    requires forall c :: c in s.client ==> name !in s.client[c].channels
    ensures Named(s.(mChannels := s.mChannels[name := ch], channel := s.channel[ch := y]))
  {
    var t := s.(mChannels := s.mChannels[name := ch], channel := s.channel[ch := y]);
    forall d | d in t.client ensures HoldsNamed(t, d) {
      assert HoldsNamed(s, d);
    }
  }

  lemma OpenedKeyed(s: State, names: map<string, Channel>, ch: Channel, y: ChannelState)
    requires Keyed(s) && y.password == ""
    ensures Keyed(s.(mChannels := names, channel := s.channel[ch := y]))
  {
  }

  lemma OpenedInSync(s: State, c: Client, name: string, ch: Channel)
    requires InSync(s) && Core(s) && c in s.client && s.client[c].Active() && NewObject(s, ch)
    requires FoundChannel(s, name) == null
    ensures var t := s.(mChannels := s.mChannels[name := ch], channel := s.channel[ch := NewChannel(name, c, s.client[c].nickname)]);
            Filed(t) && OneKey(t) && TwoWayBut(t, c, ch)
  {
    var t := s.(mChannels := s.mChannels[name := ch], channel := s.channel[ch := NewChannel(name, c, s.client[c].nickname)]);
    FoundChannelIsHeld(s, name);
    OthersNamed(s, c);
    hide Core;
    forall d, x | d in t.client && x in t.channel && t.client[d].Active() && !(d == c && x == ch) ensures Holds(t, d, x) <==> Lists(t, x, d) {
      if x != ch {
        assert Holds(s, d, x) <==> Lists(s, x, d);
      }
    }
    forall x, k | x in t.channel && k in t.channel[x].clients ensures EntryFits(t, k, t.channel[x].clients[k]) {
      assert x != ch ==> EntryFits(s, k, s.channel[x].clients[k]);
    }
    forall d | d in t.client && t.client[d].Active() ensures FiledUnder(t, d) {
      assert FiledUnder(s, d);
    }
  }

  // ----- PART -----

  /** One turn of PART's loop. */
  function PartedOne(s: State, c: Client, name: string): State
    requires c in s.client
  {
    var ch := FoundChannel(s, name);
    if ch == null || ch !in s.channel || !Finds(s, ch, s.client[c].nickname) then s else Unlinked(s, c, ch)
  }

  function PartedAll(s: State, c: Client, names: seq<string>): State {
    if names == [] then s
    else
      var t := PartedAll(s, c, names[..|names| - 1]);
      if c !in t.client then t else PartedOne(t, c, names[|names| - 1])
  }

  function Parted(s: State, c: Client, names: seq<string>): State
    requires c in s.client
  {
    if s.client[c].Active() then PartedAll(s, c, names) else s
  }

  lemma PartedOneKeeps(s: State, c: Client, name: string)
    requires Core(s) && c in s.client && s.client[c].Active()
    ensures Core(PartedOne(s, c, name)) && (InSync(s) ==> InSync(PartedOne(s, c, name)))
    ensures PartedOne(s, c, name).client.Keys == s.client.Keys && PartedOne(s, c, name).processing == s.processing
    ensures PartedOne(s, c, name).client[c].Active()
  {
    var ch := FoundChannel(s, name);
    if ch != null && ch in s.channel && Finds(s, ch, s.client[c].nickname) {
      LiveIsNamed(s, ch);
      hide Core, InSync, Finds, Alive;
      UnlinkedKeeps(s, c, ch);
    }
  }

  /** While held channels list their holders, the client holds what it held less the name it gave. */
  lemma PartedOneHolds(s: State, c: Client, name: string)
    requires Core(s) && HeldListed(s) && c in s.client && s.client[c].Active()
    ensures var t := PartedOne(s, c, name); c in t.client && t.client[c].channels == s.client[c].channels - {name}
  {
    FoundChannelIsHeld(s, name);
    HeldIsFound(s, c, name);
    hide Core, HeldListed, Alive;
    assert name !in s.client[c].channels ==> s.client[c].channels - {name} == s.client[c].channels;
  }

  /** Then also a channel that an active client holds is found under its name and finds the client. */
  lemma HeldIsFound(s: State, c: Client, name: string)
    requires Core(s) && HeldListed(s) && c in s.client && s.client[c].Active()
    ensures name in s.client[c].channels ==>
              FoundChannel(s, name) == s.client[c].channels[name] && Finds(s, s.client[c].channels[name], s.client[c].nickname)
  {
    if name in s.client[c].channels {
      FoundChannelIsHeld(s, name);
      var ch := s.client[c].channels[name];
      assert HoldsNamed(s, c);
      assert Holds(s, c, ch) && Lists(s, ch, c);
    }
  }

  lemma PartedOneFirm(s: State, c: Client, name: string)
    requires Core(s) && Firm(s) && c in s.client && s.client[c].Active()
    ensures Firm(PartedOne(s, c, name))
  {
    var ch := FoundChannel(s, name);
    if ch != null && ch in s.channel && Finds(s, ch, s.client[c].nickname) {
      LiveIsNamed(s, ch);
      CoreIsNamed(s);
      hide Core, Alive, Finds;
      UnlinkedFirm(s, c, ch);
    }
  }

  lemma CoreIsNamed(s: State)
    requires Core(s)
    ensures Named(s)
  {
  }

  lemma UnlinkedFirm(s: State, c: Client, ch: Channel)
    requires Named(s) && Firm(s) && c in s.client && s.client[c].Active() && ch in s.channel
    requires s.channel[ch].name in s.mChannels && s.mChannels[s.channel[ch].name] == ch
    ensures Firm(Unlinked(s, c, ch))
  {
    var t := Unlinked(s, c, ch);
    OthersNamed(s, c);
    assert HoldsNamed(s, c);
    forall d, x | d in t.client && x in t.channel && t.client[d].Active() && Holds(t, d, x) ensures Lists(t, x, d) {
      assert Holds(s, d, x) && Lists(s, x, d);
    }
    forall d | d in t.client && t.client[d].Active() ensures FiledUnder(t, d) {
      assert FiledUnder(s, d);
    }
  }

  function SetOf(names: seq<string>): set<string> {
    set n | n in names
  }

  /** PART keeps the core; and while active clients are filed and listed where they are it leaves exactly the channels
      it names. */
  lemma {:induction false} PartedAllKeeps(s: State, c: Client, names: seq<string>)
    requires Core(s) && c in s.client && s.client[c].Active()
    ensures var t := PartedAll(s, c, names);
            && Core(t) && (InSync(s) ==> InSync(t)) && t.client.Keys == s.client.Keys && t.processing == s.processing
            && t.client[c].Active()
            && (Firm(s) ==> Firm(t) && t.client[c].channels == s.client[c].channels - SetOf(names))
  {
    hide Core, InSync, PartedOne, Filed, HeldListed;
    if names != [] {
      var i := |names| - 1;
      PartedAllKeeps(s, c, names[..i]);
      var t := PartedAll(s, c, names[..i]);
      PartedOneKeeps(t, c, names[i]);
      if Firm(s) {
        PartedOneFirm(t, c, names[i]);
        PartedOneHolds(t, c, names[i]);
      }
      assert names == names[..i] + [names[i]];
      assert SetOf(names) == SetOf(names[..i]) + {names[i]};
    }
  }

  // ----- KICK, INVITE, PRIVMSG -----

  /** The sender is an operator that the live channel finds. */
  predicate Commands(s: State, c: Client, name: string)
    requires c in s.client
  {
    var ch := FoundChannel(s, name);
    && s.client[c].Active() && ch != null && ch in s.channel
    && Finds(s, ch, s.client[c].nickname) && s.client[c].nickname in s.channel[ch].operators
  }

  function Kicked(s: State, c: Client, arguments: seq<string>): State
    requires c in s.client
  {
    if |arguments| < 2 || !Commands(s, c, arguments[0]) then s
    else
      var ch, target := FoundChannel(s, arguments[0]), Found(s, arguments[1]);
      var t := Lookup(s, arguments[1]);
      if target == null || target !in t.client || ch !in t.channel || !Finds(t, ch, arguments[1]) then t else Unlinked(t, target, ch)
  }

  predicate MayKick(s: State, c: Client, arguments: seq<string>)
    requires c in s.client
  {
    && |arguments| >= 2 && Commands(s, c, arguments[0])
    && Found(s, arguments[1]) != null && Finds(s, FoundChannel(s, arguments[0]), arguments[1])
  }

  lemma KickedKeeps(s: State, c: Client, arguments: seq<string>)
    requires Core(s) && Runs(s, c)
    ensures Core(Kicked(s, c, arguments)) && (InSync(s) ==> InSync(Kicked(s, c, arguments)))
  {
    if |arguments| >= 2 && Commands(s, c, arguments[0]) {
      var ch, target := FoundChannel(s, arguments[0]), Found(s, arguments[1]);
      LookupKeeps(s, arguments[1]);
      if target != null {
        LiveIsNamed(s, ch);
        FiledAreRegistered(s, target);
        UnlinkedKeeps(s, target, ch);
      }
    }
  }

  lemma FiledAreRegistered(s: State, c: Client)
    requires Directory(s) && c in s.mClients.Values
    ensures c in s.client && s.client[c].bRegistered
  {
  }

  /** A KICK that may be done takes the target out of exactly this channel, and changes nobody else. */
  lemma KickTakesOne(s: State, c: Client, arguments: seq<string>)
    requires Core(s) && Runs(s, c) && MayKick(s, c, arguments)
    ensures var t := Kicked(s, c, arguments);
            var target, ch := Found(s, arguments[1]), FoundChannel(s, arguments[0]);
            && target in s.client && s.client[target].nickname == arguments[1] && t.client.Keys == s.client.Keys
            && t.client[target].channels == s.client[target].channels - {arguments[0]}
            && (forall d :: d in s.client && d != target ==> t.client[d] == s.client[d])
            && ch in t.channel && arguments[1] !in t.channel[ch].clients && arguments[1] !in t.channel[ch].operators
            && (forall x :: x in s.channel && x != ch ==> x in t.channel && t.channel[x] == s.channel[x])
  {
    FoundChannelIsHeld(s, arguments[0]);
    RegisteredOf(s, arguments[1]);
    hide Core;
    assert Lookup(s, arguments[1]) == s;
  }

  /** Any other KICK changes no channel and no client; at most an expired target leaves the directory. */
  lemma KickRefused(s: State, c: Client, arguments: seq<string>)
    requires Core(s) && Runs(s, c) && !MayKick(s, c, arguments)
    ensures var t := Kicked(s, c, arguments);
            t.channel == s.channel && forall d :: d in t.client ==> d in s.client && t.client[d] == s.client[d]
  {
    if |arguments| >= 2 {
      LookupKeeps(s, arguments[1]);
      hide Core;
      assert Found(s, arguments[1]) != null ==> Lookup(s, arguments[1]) == s;
    }
  }

  function Invited(s: State, c: Client, arguments: seq<string>): State
    requires c in s.client
  {
    if |arguments| < 2 || !Commands(s, c, arguments[1]) then s
    else
      var ch, target := FoundChannel(s, arguments[1]), Found(s, arguments[0]);
      var t := Lookup(s, arguments[0]);
      if target == null || ch !in t.channel || Finds(t, ch, arguments[0]) || arguments[0] in t.channel[ch].invited then t
      else t.(channel := t.channel[ch := t.channel[ch].(invited := t.channel[ch].invited[arguments[0] := target])])
  }

  lemma InvitedKeeps(s: State, c: Client, arguments: seq<string>)
    requires Core(s) && Runs(s, c)
    ensures Core(Invited(s, c, arguments)) && (InSync(s) ==> InSync(Invited(s, c, arguments)))
  {
    if |arguments| >= 2 && Commands(s, c, arguments[1]) {
      var ch, target := FoundChannel(s, arguments[1]), Found(s, arguments[0]);
      LookupKeeps(s, arguments[0]);
      var t := Lookup(s, arguments[0]);
      if ch in t.channel && target != null {
        KeyedAt(t, ch);
        hide Core, InSync, Lookup;
        RetunedKeeps(t, ch, t.channel[ch].(invited := t.channel[ch].invited[arguments[0] := target]));
      }
    }
  }

  lemma KeyedAt(s: State, ch: Channel)
    requires Core(s) && ch in s.channel
    ensures s.channel[ch].bPrivate || s.channel[ch].password == ""
  {
  }

  /** Several lookups, one after another. */
  function LookedUp(s: State, names: seq<string>): State {
    if names == [] then s else Lookup(LookedUp(s, names[..|names| - 1]), names[|names| - 1])
  }

  lemma {:induction false} LookedUpKeeps(s: State, names: seq<string>)
    requires Core(s)
    ensures var t := LookedUp(s, names);
            && Core(t) && (InSync(s) ==> InSync(t)) && t.channel == s.channel && t.mChannels == s.mChannels && t.processing == s.processing
            && (forall m :: Found(t, m) == Found(s, m))
            && (forall c :: c in t.client ==> c in s.client && t.client[c] == s.client[c])
            && (forall c :: c in s.processing ==> c in t.client)
  {
    QueuedExist(s);
    hide Core, InSync, Found;
    if names != [] {
      var i := |names| - 1;
      LookedUpKeeps(s, names[..i]);
      LookupKeeps(LookedUp(s, names[..i]), names[i]);
    }
  }

  lemma QueuedExist(s: State)
    requires Core(s)
    ensures forall c :: c in s.processing ==> c in s.client
  {
    forall c | c in s.processing ensures c in s.client {
      assert Owned(s, c);
    }
  }

  /** The nicknames among the receivers of a PRIVMSG. */
  function Nicknames(receivers: seq<string>): seq<string> {
    if receivers == [] then []
    else Nicknames(receivers[..|receivers| - 1])
         + if IsChannelName(receivers[|receivers| - 1]) then [] else [receivers[|receivers| - 1]]
  }

  /** PRIVMSG, as far as the server's state goes: each receiver that is no channel is looked up. */
  function Messaged(s: State, c: Client, receivers: seq<string>): State
    requires c in s.client
  {
    if s.client[c].Active() then LookedUp(s, Nicknames(receivers)) else s
  }

  // ----- The end of a client -----

  /** What forceDisconnectClient changes before anything is destroyed. */
  function CutOff(s: State, c: Client): State
    requires c in s.client
  {
    var k := s.client[c];
    Put(s, c, k.(bExpired := true, bSocketClosed := true, channels := map[])).(
      mClients := s.mClients - {k.nickname},
      unregistered := Without(s.unregistered, c),
      released := s.released + [c],
      channel := Delisted(s.channel, k.channels.Values, k.nickname))
  }

  /** The channels in held no longer list the nickname, nor have it as operator. */
  function Delisted(channel: map<Channel, ChannelState>, held: set<Channel>, n: string): map<Channel, ChannelState> {
    map ch | ch in channel :: if ch in held then Stripped(channel[ch], n) else channel[ch]
  }

  lemma DelistedNone(channel: map<Channel, ChannelState>, n: string)
    ensures Delisted(channel, {}, n) == channel
  {
  }

  lemma DelistedMore(channel: map<Channel, ChannelState>, held: set<Channel>, ch: Channel, n: string)
    ensures ch in channel ==> ch in Delisted(channel, held, n)
    ensures ch in channel ==>
      Delisted(channel, held, n)[ch := Stripped(Delisted(channel, held, n)[ch], n)] == Delisted(channel, held + {ch}, n)
  {
    if ch in channel {
      var x := channel[ch];
      assert x.clients - {n} - {n} == x.clients - {n} && x.operators - {n} - {n} == x.operators - {n};
    }
  }

  function Stripped(x: ChannelState, n: string): ChannelState {
    x.(clients := x.clients - {n}, operators := x.operators - {n})
  }

  /** forceDisconnectClient. The directory entry is removed by name. */
  function ForceDisconnected(s: State, c: Client): State
    requires c in s.client
  {
    if s.client[c].bSocketClosed then s else Swept(CutOff(s, c))
  }

  /** disconnectClient; bDrained says whether nothing is left to send. */
  function Disconnected(s: State, c: Client, bDrained: bool): State
    requires c in s.client
  {
    if s.client[c].bExpired then s
    else if bDrained then ForceDisconnected(s, c)
    else Put(s, c, s.client[c].(bExpired := true, channels := map[]))
  }

  /** Another unexpired client is filed under c's nickname. */
  predicate NamesakeFiled(s: State, c: Client)
    requires c in s.client
  {
    Found(s, s.client[c].nickname) != null && Found(s, s.client[c].nickname) != c
  }

  /** Something other than the directory owns the client. */
  predicate OwnedOtherwise(s: State, c: Client) {
    c in s.unregistered || c in s.released || c in s.processing
  }

  /** The removal by name takes an active client out of the directory that goes on existing. */
  predicate Unfiles(s: State, c: Client)
    requires c in s.client
  {
    NamesakeFiled(s, c) && OwnedOtherwise(s, Found(s, s.client[c].nickname))
  }

  lemma CutOffSound(s: State, c: Client)
    requires Core(s) && c in s.client
    ensures Sound(CutOff(s, c))
  {
    hide Kept, OwnersExist, Directory, Waiting, AllDecent, Named, Keyed;
    var t := CutOff(s, c);
    OneDecent(s, c);
    assert Decent(t.password, t.client[c]);
    hide Decent, GaveAll;
    KeptOwners(s);
    CutOffOwners(s, c);
    CutOffDirectory(s, c);
    CutOffWaiting(s, c);
    DecentFrame(s, t, c);
    NamedFrame(s, t);
    KeyedFrame(s, t);
  }

  lemma CutOffOwners(s: State, c: Client)
    requires OwnersExist(s) && Waiting(s) && c in s.client
    ensures OwnersExist(CutOff(s, c))
  {
    var t := CutOff(s, c);
    WithoutIs(s.unregistered, c);
    hide Without, Distinct;
    forall d | Owned(t, d) ensures d in t.client {
      if d in t.mClients.Values {
        var k :| k in t.mClients && t.mClients[k] == d;
        assert s.mClients[k] in s.mClients.Values;
      }
      assert d != c ==> Owned(s, d);
    }
  }

  lemma CutOffDirectory(s: State, c: Client)
    requires Directory(s) && c in s.client
    ensures Directory(CutOff(s, c))
  {
  }

  lemma CutOffWaiting(s: State, c: Client)
    requires Waiting(s) && c in s.client
    ensures Waiting(CutOff(s, c))
  {
    WithoutIs(s.unregistered, c);
    hide Without;
  }

  lemma CutOffMembership(s: State, c: Client)
    requires Core(s) && InSync(s) && c in s.client
    ensures TwoWay(CutOff(s, c)) && OneKey(CutOff(s, c))
  {
    OneDecent(s, c);
    if s.client[c].Active() {
      OthersNamed(s, c);
    }
    hide Kept, Sound, Filed;
    CutOffTwoWay(s, c);
    CutOffOneKey(s, c);
  }

  lemma CutOffTwoWay(s: State, c: Client)
    requires TwoWay(s) && c in s.client && (SoleNickname(s, c) || s.client[c].channels == map[])
    ensures TwoWay(CutOff(s, c))
  {
    hide Without;
    var t := CutOff(s, c);
    forall d, x | d in t.client && x in t.channel && t.client[d].Active() ensures Holds(t, d, x) <==> Lists(t, x, d) {
      assert Holds(s, d, x) <==> Lists(s, x, d);
    }
  }

  lemma CutOffOneKey(s: State, c: Client)
    requires OneKey(s) && c in s.client
    ensures OneKey(CutOff(s, c))
  {
    hide Without;
    var t := CutOff(s, c);
    forall x, k | x in t.channel && k in t.channel[x].clients ensures EntryFits(t, k, t.channel[x].clients[k]) {
      assert EntryFits(s, k, s.channel[x].clients[k]);
    }
  }

  /** forceDisconnectClient keeps the core. It keeps the rest exactly unless it takes an active client out of the
      directory that something else still owns. */
  lemma ForceDisconnectedKeeps(s: State, c: Client)
    requires Core(s) && c in s.client
    ensures Core(ForceDisconnected(s, c))
    ensures InSync(s) ==> (InSync(ForceDisconnected(s, c)) <==> s.client[c].bSocketClosed || !Unfiles(s, c))
  {
    if !s.client[c].bSocketClosed {
      CutOffSound(s, c);
      SweptKeeps(CutOff(s, c));
      if InSync(s) {
        CutOffMembership(s, c);
        CutOffFiled(s, c);
      }
    }
  }

  lemma CutOffFiled(s: State, c: Client)
    requires Core(s) && InSync(s) && c in s.client && TwoWay(CutOff(s, c)) && OneKey(CutOff(s, c))
    ensures InSync(Swept(CutOff(s, c))) <==> !Unfiles(s, c)
  {
    var t := CutOff(s, c);
    var u := Swept(t);
    SweptMembership(t);
    var n := s.client[c].nickname;
    CutOffOwned(s, c);
    hide Without, Core, TwoWay, OneKey;
    if Unfiles(s, c) {
      var d := s.mClients[n];
      assert d in u.client && u.client[d].Active() && !FiledUnder(u, d) by { RegisteredOf(s, n); }
    } else {
      forall d | d in u.client && u.client[d].Active() ensures FiledUnder(u, d) {
        assert FiledUnder(s, d);
      }
    }
  }

  lemma RegisteredOf(s: State, n: string)
    requires Core(s) && n in s.mClients
    ensures s.mClients[n] in s.client && s.client[s.mClients[n]].bRegistered && s.client[s.mClients[n]].nickname == n
  {
  }

  lemma SweptMembership(s: State)
    requires TwoWay(s) && OneKey(s)
    ensures TwoWay(Swept(s)) && OneKey(Swept(s))
  {
    var t := Swept(s);
    forall c, ch | c in t.client && ch in t.channel && t.client[c].Active() ensures Holds(t, c, ch) <==> Lists(t, ch, c) {
      assert Holds(s, c, ch) <==> Lists(s, ch, c);
    }
    forall ch, k | ch in t.channel && k in t.channel[ch].clients ensures EntryFits(t, k, t.channel[ch].clients[k]) {
      assert EntryFits(s, k, s.channel[ch].clients[k]);
    }
  }

  /** Who is still owned after the removal by name. */
  lemma CutOffOwned(s: State, c: Client)
    requires Core(s) && c in s.client
    ensures var n := s.client[c].nickname;
            forall d :: d in s.client && d != c ==>
              (Owned(CutOff(s, c), d) <==> (!(n in s.mClients && s.mClients[n] == d) || OwnedOtherwise(s, d)))
    ensures Owned(CutOff(s, c), c)
  {
    var t, n := CutOff(s, c), s.client[c].nickname;
    WithoutIs(s.unregistered, c);
    hide Without, Distinct;
    forall d | d in s.client && d != c ensures Owned(t, d) <==> (!(n in s.mClients && s.mClients[n] == d) || OwnedOtherwise(s, d)) {
      if d in s.mClients.Values {
        var k :| k in s.mClients && s.mClients[k] == d;
        assert k != n ==> t.mClients[k] == d;
      }
      if d in t.mClients.Values {
        var k :| k in t.mClients && t.mClients[k] == d;
        assert s.mClients[k] == d && s.client[d].nickname == k;
      }
    }
  }

  /** forceDisconnectClient destroys exactly the other client filed under the nickname, and that only if nothing
      else owns it; then it is destroyed with its socket open. */
  lemma ForceDisconnectDestroys(s: State, c: Client, d: Client)
    requires Core(s) && c in s.client && d in s.client && !s.client[c].bSocketClosed
    ensures var n := s.client[c].nickname;
            d !in ForceDisconnected(s, c).client <==> d != c && n in s.mClients && s.mClients[n] == d && !OwnedOtherwise(s, d)
  {
    CutOffOwned(s, c);
    hide CutOff, Core;
    assert CutOff(s, c).client.Keys == s.client.Keys by { CutOffKeys(s, c); }
  }

  lemma CutOffKeys(s: State, c: Client)
    requires c in s.client
    ensures CutOff(s, c).client.Keys == s.client.Keys
  {
  }

  /** Afterwards the client is closed, in no channel and in no list but the release queue. */
  lemma ForceDisconnectEnds(s: State, c: Client)
    requires Core(s) && c in s.client
    ensures var t := ForceDisconnected(s, c);
            && c in t.client && t.client[c].bSocketClosed && t.client[c].bExpired && t.client[c].channels == map[]
            && (s.client[c].bSocketClosed ==> t == s)
            && (!s.client[c].bSocketClosed ==> c in t.released && c !in t.unregistered && c !in t.mClients.Values)
  {
    if s.client[c].bSocketClosed {
      OneDecent(s, c);
    } else {
      CutOffOwned(s, c);
      WithoutIs(s.unregistered, c);
      hide Without;
      CutOffKeys(s, c);
      var t := ForceDisconnected(s, c);
      forall k | k in t.mClients ensures t.mClients[k] != c {
        assert s.client[s.mClients[k]].nickname == k;
      }
    }
  }

  lemma DisconnectedKeeps(s: State, c: Client, bDrained: bool)
    requires Core(s) && c in s.client
    ensures Core(Disconnected(s, c, bDrained))
    ensures InSync(s) ==>
              (InSync(Disconnected(s, c, bDrained)) <==>
               s.client[c].bExpired || !bDrained || s.client[c].bSocketClosed || !Unfiles(s, c))
  {
    if !s.client[c].bExpired {
      if bDrained {
        hide Core, InSync, ForceDisconnected;
        ForceDisconnectedKeeps(s, c);
      } else {
        ExpiredCore(s, c);
        if InSync(s) {
          ExpiredInSync(s, c);
        }
      }
    }
  }

  lemma ExpiredCore(s: State, c: Client)
    requires Core(s) && c in s.client
    ensures Core(Put(s, c, s.client[c].(bExpired := true, channels := map[])))
  {
    hide Kept, OwnersExist, Directory, Waiting, AllDecent, Named, Keyed;
    var t := Put(s, c, s.client[c].(bExpired := true, channels := map[]));
    OneDecent(s, c);
    assert Decent(t.password, t.client[c]);
    hide Decent, GaveAll;
    OwnersFrame(s, t);
    KeptOwners(t);
    DirectoryFrame(s, t);
    WaitingFrame(s, t);
    DecentFrame(s, t, c);
    NamedFrame(s, t);
    KeyedFrame(s, t);
  }

  lemma ExpiredInSync(s: State, c: Client)
    requires InSync(s) && c in s.client
    ensures InSync(Put(s, c, s.client[c].(bExpired := true, channels := map[])))
  {
    var t := Put(s, c, s.client[c].(bExpired := true, channels := map[]));
    forall d, x | d in t.client && x in t.channel && t.client[d].Active() ensures Holds(t, d, x) <==> Lists(t, x, d) {
      assert Holds(s, d, x) <==> Lists(s, x, d);
    }
    forall x, k | x in t.channel && k in t.channel[x].clients ensures EntryFits(t, k, t.channel[x].clients[k]) {
      assert EntryFits(s, k, s.channel[x].clients[k]);
    }
    forall d | d in t.client && t.client[d].Active() ensures FiledUnder(t, d) {
      assert FiledUnder(s, d);
    }
  }
}
