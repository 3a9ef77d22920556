/** What outlives the rename of a channel's member: active clients stay filed, and the channels they hold list them under
    their present nickname. */
module Standing {
  import opened ServerState
  import opened Transitions
  import ModeCommand

  /** The active clients, what they hold and who is listed are as before. */
  lemma FirmFrame(s: State, t: State)
    requires Firm(s)
    requires forall c :: c in t.client && t.client[c].Active() ==>
               && c in s.client && s.client[c].Active() && t.client[c].nickname == s.client[c].nickname
               && t.client[c].channels == s.client[c].channels
    requires forall ch :: ch in t.channel ==> ch in s.channel && t.channel[ch].name == s.channel[ch].name && t.channel[ch].clients == s.channel[ch].clients
    requires forall c :: c in t.client && t.client[c].Active() && FiledUnder(s, c) ==> FiledUnder(t, c)
    ensures Firm(t)
  {
    forall c, ch | c in t.client && ch in t.channel && t.client[c].Active() && Holds(t, c, ch) ensures Lists(t, ch, c) {
      assert Holds(s, c, ch) && Lists(s, ch, c);
    }
    forall c | c in t.client && t.client[c].Active() ensures FiledUnder(t, c) {
      assert FiledUnder(s, c);
    }
  }

  lemma SweptFirm(s: State)
    requires Firm(s)
    ensures Firm(Swept(s))
  {
    FirmFrame(s, Swept(s));
  }

  lemma AcceptedFirm(s: State, c: Client)
    requires Firm(s) && c !in s.client
    ensures Firm(Accepted(s, c))
  {
    FirmFrame(s, Accepted(s, c));
  }

  lemma ListsFirm(s: State, t: State)
    requires Firm(s) && t == s.(processing := t.processing, released := t.released)
    ensures Firm(t)
  {
    FirmFrame(s, t);
  }

  lemma LookupFirm(s: State, n: string)
    requires Core(s) && Firm(s)
    ensures Firm(Lookup(s, n))
  {
    if FiledExpired(s, n) {
      hide Core;
      FirmFrame(s, s.(mClients := s.mClients - {n}));
      SweptFirm(s.(mClients := s.mClients - {n}));
    }
  }

  lemma {:induction false} LookedUpFirm(s: State, names: seq<string>)
    requires Core(s) && Firm(s)
    ensures Firm(LookedUp(s, names))
  {
    hide Core, Firm, InSync, Lookup;
    if names != [] {
      LookedUpFirm(s, names[..|names| - 1]);
      LookedUpKeeps(s, names[..|names| - 1]);
      LookupFirm(LookedUp(s, names[..|names| - 1]), names[|names| - 1]);
    }
  }

  // ----- Registration and NICK -----

  lemma GivenFirm(s: State, c: Client, k: ClientState)
    requires Firm(s) && c in s.client && !k.bRegistered && !s.client[c].bRegistered
    ensures Firm(Put(s, c, k))
  {
    FirmFrame(s, Put(s, c, k));
  }

  lemma RegisterFirm(s: State, c: Client)
    requires Core(s) && Runs(s, c) && !s.client[c].bRegistered && !s.client[c].bExpired && Firm(s)
    ensures Firm(Register(s, c))
  {
    if MayRegister(s, c) {
      var n := s.client[c].nickname;
      LookupKeeps(s, n);
      LookupFrees(s, n);
      LookupFirm(s, n);
      OneDecent(s, c);
      var t := Lookup(s, n);
      assert Register(s, c) == Admitted(t, c);
      hide Core, Lookup, Register, MayRegister, InSync;
      AdmittedFirm(t, c);
    }
  }

  lemma AdmittedFirm(s: State, c: Client)
    requires Firm(s) && c in s.client && s.client[c].channels == map[] && s.client[c].nickname !in s.mClients
    ensures Firm(Admitted(s, c))
  {
    hide Without;
    var t := Admitted(s, c);
    forall d, ch | d in t.client && ch in t.channel && t.client[d].Active() && Holds(t, d, ch) ensures Lists(t, ch, d) {
      assert d != c && Holds(s, d, ch) && Lists(s, ch, d);
    }
    forall d | d in t.client && t.client[d].Active() ensures FiledUnder(t, d) {
      assert d != c ==> FiledUnder(s, d);
    }
  }

  lemma GivenRegisterFirm(s: State, c: Client, k: ClientState)
    requires Core(s) && Core(Put(s, c, k)) && Runs(s, c) && !s.client[c].bRegistered && !k.bRegistered && !k.bExpired && Firm(s)
    ensures Firm(Register(Put(s, c, k), c))
  {
    GivenFirm(s, c, k);
    hide Core, Firm, Register;
    RegisterFirm(Put(s, c, k), c);
  }

  lemma PassedFirm(s: State, c: Client, arguments: seq<string>)
    requires Core(s) && Runs(s, c) && Firm(s)
    ensures Firm(Passed(s, c, arguments))
  {
    hide Core, Firm, InSync, Register;
    if !(s.client[c].bExpired || s.client[c].bRegistered || arguments == []) {
      var k := s.client[c].(serverPass := arguments[0]);
      IntroducedKeeps(s, c, k);
      GivenRegisterFirm(s, c, k);
    }
  }

  lemma IntroducedFirm(s: State, c: Client, arguments: seq<string>)
    requires Core(s) && Runs(s, c) && Firm(s)
    ensures Firm(Introduced(s, c, arguments))
  {
    hide Core, Firm, InSync, Register, FourNames;
    if !(s.client[c].bExpired || s.client[c].bRegistered || |arguments| < 4 || !FourNames(arguments)) {
      var k := s.client[c].(username := arguments[0], realname := arguments[3]);
      IntroducedKeeps(s, c, k);
      GivenRegisterFirm(s, c, k);
    }
  }

  /** The rename moves the entry and lists the client under the new key wherever it is. */
  lemma RefiledFirm(s: State, c: Client, n: string)
    requires Firm(s) && c in s.client && s.client[c].Active() && n !in s.mClients
    ensures Firm(Refiled(s, c, n))
  {
    var t := Refiled(s, c, n);
    assert FiledUnder(s, c);
    forall d, ch | d in t.client && ch in t.channel && t.client[d].Active() && Holds(t, d, ch) ensures Lists(t, ch, d) {
      assert Holds(s, d, ch) && Lists(s, ch, d) && FiledUnder(s, d);
      assert d == c ==> ch in s.client[c].channels.Values;
    }
    forall d | d in t.client && t.client[d].Active() ensures FiledUnder(t, d) {
      assert FiledUnder(s, d);
    }
  }

  lemma NickedFirm(s: State, c: Client, arguments: seq<string>)
    requires Core(s) && Runs(s, c) && Firm(s)
    ensures Firm(Nicked(s, c, arguments))
  {
    hide Firm, IsNickname;
    if !(s.client[c].bExpired || arguments == [] || !IsNickname(arguments[0]) || Found(s, arguments[0]) != null) {
      var n := arguments[0];
      LookupKeeps(s, n);
      LookupFrees(s, n);
      LookupFirm(s, n);
      var t := Lookup(s, n);
      hide Core, InSync, Lookup, Register, Found;
      if !s.client[c].bRegistered {
        var k := t.client[c].(nickname := n);
        IntroducedKeeps(t, c, k);
        GivenRegisterFirm(t, c, k);
      } else {
        RefiledFirm(t, c, n);
        SweptFirm(Refiled(t, c, n));
      }
    } else {
      hide Core, Lookup, Register, Renamed;
    }
  }

  // ----- Channels -----

  lemma LinkedFirm(s: State, c: Client, ch: Channel)
    requires Filed(s) && HeldBut(s, c, ch) && c in s.client && s.client[c].Active() && ch in s.channel
    requires Named(s) && s.channel[ch].name in s.mChannels && s.mChannels[s.channel[ch].name] == ch
    ensures Firm(Linked(s, c, ch))
  {
    var t := Linked(s, c, ch);
    OthersNamed(s, c);
    assert HoldsNamed(s, c);
    forall d, x | d in t.client && x in t.channel && t.client[d].Active() && Holds(t, d, x) ensures Lists(t, x, d) {
      if d != c || x != ch {
        assert Holds(s, d, x) && Lists(s, x, d);
      }
    }
    forall d | d in t.client && t.client[d].Active() ensures FiledUnder(t, d) {
      assert FiledUnder(s, d);
    }
  }

  /** As HeldListed, but for the pair being joined. */
  ghost predicate HeldBut(s: State, c0: Client, ch0: Channel) {
    forall c, ch :: c in s.client && ch in s.channel && s.client[c].Active() && !(c == c0 && ch == ch0) && Holds(s, c, ch) ==> Lists(s, ch, c)
  }

  lemma EnteredFirm(s: State, c: Client, ch: Channel)
    requires Core(s) && Firm(s) && c in s.client && s.client[c].Active() && Alive(s, ch) && ch in s.channel
    ensures Firm(Entered(s, c, ch))
  {
    LiveIsNamed(s, ch);
    CoreIsNamed(s);
    UninvitedFirm(s, ch, s.client[c].nickname);
    hide Core, Alive, Firm, Named, Linked, Uninvited;
    FirmHas(Uninvited(s, ch, s.client[c].nickname), c, ch);
    LinkedFirm(Uninvited(s, ch, s.client[c].nickname), c, ch);
  }

  lemma FirmHas(s: State, c: Client, ch: Channel)
    requires Firm(s)
    ensures Filed(s) && HeldBut(s, c, ch)
  {
  }

  lemma UninvitedFirm(s: State, ch: Channel, n: string)
    requires Firm(s) && Named(s) && ch in s.channel
    ensures var t := Uninvited(s, ch, n);
            && Firm(t) && Named(t) && t.client == s.client && t.mChannels == s.mChannels
            && ch in t.channel && t.channel[ch].name == s.channel[ch].name
  {
    var x := s.channel[ch];
    hide Firm;
    if x.bInviteOnly {
      RetunedFirm(s, ch, x.(invited := x.invited - {n}));
    }
    NamedFrame(s, Uninvited(s, ch, n));
  }

  lemma CreatedFirm(s: State, c: Client, name: string, ch: Channel)
    requires Core(s) && Firm(s) && c in s.client && s.client[c].Active() && FoundChannel(s, name) == null && NewObject(s, ch)
    ensures Firm(Created(s, c, name, ch))
  {
    var y := NewChannel(name, c, s.client[c].nickname);
    var t := s.(mChannels := s.mChannels[name := ch], channel := s.channel[ch := y]);
    FoundChannelIsHeld(s, name);
    CoreIsNamed(s);
    hide Core, FoundChannel;
    OpenedNamed(s, name, ch, y);
    OpenedFirm(s, c, name, ch, y);
    LinkedFirm(t, c, ch);
  }

  lemma OpenedFirm(s: State, c: Client, name: string, ch: Channel, y: ChannelState)
    requires Firm(s) && ch !in s.channel && !Alive(s, ch)
    ensures var t := s.(mChannels := s.mChannels[name := ch], channel := s.channel[ch := y]); Filed(t) && HeldBut(t, c, ch)
  {
    var t := s.(mChannels := s.mChannels[name := ch], channel := s.channel[ch := y]);
    NobodyHolds(s, ch);
    hide Alive;
    forall d, x | d in t.client && x in t.channel && t.client[d].Active() && Holds(t, d, x) ensures Lists(t, x, d) {
      assert Holds(s, d, x) && Lists(s, x, d);
    }
    forall d | d in t.client && t.client[d].Active() ensures FiledUnder(t, d) {
      assert FiledUnder(s, d);
    }
  }

  lemma NobodyHolds(s: State, ch: Channel)
    requires !Alive(s, ch)
    ensures forall d, n :: d in s.client && n in s.client[d].channels ==> s.client[d].channels[n] != ch
  {
    forall d, n | d in s.client && n in s.client[d].channels ensures s.client[d].channels[n] != ch {
      assert s.client[d].channels[n] in s.client[d].channels.Values;
    }
  }

  lemma JoinedOneFirm(s: State, c: Client, name: string, key: string, made: Channel?)
    requires Core(s) && Firm(s) && c in s.client && MadeAt(s, c, name, made)
    ensures Firm(JoinedOne(s, c, name, key, made))
  {
    hide Core, Firm, Admits, Finds, Created, Entered;
    if Creates(s, c, name) {
      CreatedFirm(s, c, name, made);
    } else if Enters(s, c, name, key) {
      EnteredFirm(s, c, FoundChannel(s, name));
    }
  }

  lemma {:induction false} JoinedAllFirm(s: State, c: Client, names: seq<string>, keys: seq<string>, made: seq<Channel?>)
    requires |made| == |names| && Core(s) && Firm(s) && c in s.client && MadeFor(s, c, names, keys, made)
    ensures Firm(JoinedAll(s, c, names, keys, made))
  {
    hide Core, Firm, InSync, JoinedOne, MadeAt;
    if names != [] {
      var i := |names| - 1;
      forall j | 0 <= j < i ensures MadeAt(JoinedAll(s, c, names[..i][..j], keys, made[..i][..j]), c, names[..i][j], made[..i][j]) {
        assert names[..i][..j] == names[..j] && made[..i][..j] == made[..j];
      }
      JoinedAllFirm(s, c, names[..i], keys, made[..i]);
      JoinedAllKeeps(s, c, names[..i], keys, made[..i]);
      var t := JoinedAll(s, c, names[..i], keys, made[..i]);
      assert MadeAt(t, c, names[i], made[i]);
      JoinedOneFirm(t, c, names[i], if i < |keys| then keys[i] else "", made[i]);
    }
  }

  lemma KickedFirm(s: State, c: Client, arguments: seq<string>)
    requires Core(s) && Runs(s, c) && Firm(s)
    ensures Firm(Kicked(s, c, arguments))
  {
    if |arguments| >= 2 && Commands(s, c, arguments[0]) {
      var ch, target := FoundChannel(s, arguments[0]), Found(s, arguments[1]);
      LookupFirm(s, arguments[1]);
      if target != null {
        LiveIsNamed(s, ch);
        FiledAreRegistered(s, target);
        CoreIsNamed(s);
        hide Core, Alive, Firm;
        UnlinkedFirm(s, target, ch);
      }
    }
  }

  lemma RetunedFirm(s: State, ch: Channel, y: ChannelState)
    requires Firm(s) && ch in s.channel && y.name == s.channel[ch].name && y.clients == s.channel[ch].clients
    ensures Firm(s.(channel := s.channel[ch := y]))
  {
    FirmFrame(s, s.(channel := s.channel[ch := y]));
  }

  lemma InvitedFirm(s: State, c: Client, arguments: seq<string>)
    requires Core(s) && Runs(s, c) && Firm(s)
    ensures Firm(Invited(s, c, arguments))
  {
    if |arguments| >= 2 && Commands(s, c, arguments[1]) {
      var ch, target := FoundChannel(s, arguments[1]), Found(s, arguments[0]);
      LookupFirm(s, arguments[0]);
      var t := Lookup(s, arguments[0]);
      if ch in t.channel && target != null {
        hide Core, Firm, Lookup;
        RetunedFirm(t, ch, t.channel[ch].(invited := t.channel[ch].invited[arguments[0] := target]));
      }
    }
  }

  lemma ModedFirm(s: State, c: Client, arguments: seq<string>)
    requires Core(s) && Runs(s, c) && Firm(s)
    ensures Firm(ModeCommand.Moded(s, c, arguments))
  {
    if ModeCommand.Reaches(s, c, arguments) {
      var ch, st := FoundChannel(s, arguments[0]), ModeCommand.TallyOf(s, c, arguments);
      LookedUpFirm(s, st.looked);
      LookedUpKeeps(s, st.looked);
      hide Core, Firm, InSync, LookedUp, ModeCommand.TallyOf, FoundChannel;
      RetunedFirm(LookedUp(s, st.looked), ch, ModeCommand.WithModes(s.channel[ch], st.modes));
    }
  }

  // ----- The end of a client -----

  lemma CutOffHeld(s: State, c: Client)
    requires Core(s) && Firm(s) && c in s.client
    ensures HeldListed(CutOff(s, c))
  {
    OneDecent(s, c);
    if s.client[c].Active() {
      OthersNamed(s, c);
    }
    hide Core, Filed;
    StrippedHeld(s, c);
  }

  lemma StrippedHeld(s: State, c: Client)
    requires HeldListed(s) && c in s.client && (SoleNickname(s, c) || s.client[c].channels == map[])
    ensures HeldListed(CutOff(s, c))
  {
    hide Without;
    var t := CutOff(s, c);
    forall d, x | d in t.client && x in t.channel && t.client[d].Active() && Holds(t, d, x) ensures Lists(t, x, d) {
      assert Holds(s, d, x) && Lists(s, x, d);
    }
  }

  lemma SweptHeld(s: State)
    requires HeldListed(s)
    ensures HeldListed(Swept(s))
  {
    var t := Swept(s);
    forall d, x | d in t.client && x in t.channel && t.client[d].Active() && Holds(t, d, x) ensures Lists(t, x, d) {
      assert Holds(s, d, x) && Lists(s, x, d);
    }
  }

  /** forceDisconnectClient leaves every active client filed exactly unless it takes another one that something else
      still owns out of the directory; it never disturbs who is listed where it is. */
  lemma ForceDisconnectedFirm(s: State, c: Client)
    requires Core(s) && Firm(s) && c in s.client
    ensures Firm(ForceDisconnected(s, c)) <==> s.client[c].bSocketClosed || !Unfiles(s, c)
  {
    if !s.client[c].bSocketClosed {
      CutOffHeld(s, c);
      SweptHeld(CutOff(s, c));
      FiledAfterCutOff(s, c);
    }
  }

  lemma FiledAfterCutOff(s: State, c: Client)
    requires Core(s) && Filed(s) && c in s.client
    ensures Filed(Swept(CutOff(s, c))) <==> !Unfiles(s, c)
  {
    var u, n := Swept(CutOff(s, c)), s.client[c].nickname;
    CutOffOwned(s, c);
    if Unfiles(s, c) {
      RegisteredOf(s, n);
      hide Core, Without;
      var d := s.mClients[n];
      assert d in u.client && u.client[d].Active() && !FiledUnder(u, d);
    } else {
      hide Core, Without;
      forall d | d in u.client && u.client[d].Active() ensures FiledUnder(u, d) {
        assert FiledUnder(s, d);
      }
    }
  }

  lemma ExpiredFirm(s: State, c: Client)
    requires Firm(s) && c in s.client
    ensures Firm(Put(s, c, s.client[c].(bExpired := true, channels := map[])))
  {
    FirmFrame(s, Put(s, c, s.client[c].(bExpired := true, channels := map[])));
  }

  lemma DisconnectedFirm(s: State, c: Client, bDrained: bool)
    requires Core(s) && Firm(s) && c in s.client
    ensures Firm(Disconnected(s, c, bDrained)) <==> s.client[c].bExpired || !bDrained || s.client[c].bSocketClosed || !Unfiles(s, c)
  {
    if !s.client[c].bExpired {
      if bDrained {
        hide Core, Firm, ForceDisconnected;
        ForceDisconnectedFirm(s, c);
      } else {
        ExpiredFirm(s, c);
      }
    }
  }

  /** Whoever it closes, forceDisconnectClient disturbs no entry that names somebody. */
  lemma ForceDisconnectedNeat(s: State, c: Client)
    requires Core(s) && InSync(s) && c in s.client
    ensures Neat(ForceDisconnected(s, c))
  {
    SyncParts(s);
    if !s.client[c].bSocketClosed {
      CutOffMembership(s, c);
      SweptMembership(CutOff(s, c));
      hide Core, CutOff, Swept, OneKey;
    }
  }
}
