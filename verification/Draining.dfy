/** The end of a client that still has bytes to send: it expires, and is closed when they are out, if it then still exists. */
module Draining {
  import opened ServerState
  import opened Transitions
  import ModeCommand
  import opened Sessions

  /** a is filed under the nickname n. */
  predicate FiledAs(s: State, a: Client, n: string) {
    n in s.mClients && s.mClients[n] == a
  }

  /** The client has expired and its socket is open. */
  predicate IsDraining(s: State, a: Client) {
    a in s.client && s.client[a].bExpired && !s.client[a].bSocketClosed
  }

  /** If the client still exists it is draining, under the nickname n. */
  predicate DrainsOrGone(s: State, a: Client, n: string) {
    a in s.client ==> IsDraining(s, a) && s.client[a].nickname == n
  }

  // ----- The nicknames an event looks up or erases -----

  /** The nicknames for which the event reaches a lookup, or an erase by name, in the directory. */
  function Looks(w: World, e: Event): set<string> {
    if e.Do? then
      if Runner(w, e) != null && Runner(w, e) in w.server.client then CommandLooks(w.server, Runner(w, e), e.command) else {}
    else if Closes(w, e) != null && Closes(w, e) in w.server.client then CloseLooks(w.server, Closes(w, e)) else {}
  }

  function CloseLooks(s: State, c: Client): set<string>
    requires c in s.client
  {
    if s.client[c].bSocketClosed then {} else {s.client[c].nickname}
  }

  function CommandLooks(s: State, c: Client, command: Command): set<string>
    requires c in s.client
  {
    match command
    case Nick(a) => NickLooks(s, c, a)
    case Pass(a) => if a == [] then {} else RegisterLooks(s, c, s.client[c].(serverPass := a[0]))
    case User(a) =>
      if |a| < 4 || !FourNames(a) then {} else RegisterLooks(s, c, s.client[c].(username := a[0], realname := a[3]))
    case Kick(a) => if |a| >= 2 && Commands(s, c, a[0]) then {a[1]} else {}
    case Invite(a) => if |a| >= 2 && Commands(s, c, a[1]) then {a[0]} else {}
    case PrivMsg(receivers) => if s.client[c].Active() then SetOf(Nicknames(receivers)) else {}
    case Mode(a) => if ModeCommand.Reaches(s, c, a) then SetOf(ModeCommand.TallyOf(s, c, a).looked) else {}
    case Quit(bDrained) => if s.client[c].bExpired || !bDrained then {} else CloseLooks(s, c)
    case _ => {}
  }

  /** The new nickname, and the old one if it is renamed. */
  function NickLooks(s: State, c: Client, a: seq<string>): set<string>
    requires c in s.client
  {
    if s.client[c].bExpired || a == [] || !IsNickname(a[0]) then {}
    else if s.client[c].bRegistered && Found(s, a[0]) == null then {a[0], s.client[c].nickname}
    else {a[0]}
  }

  /** What registerClient looks up once the client has become k. */
  function RegisterLooks(s: State, c: Client, k: ClientState): set<string>
    requires c in s.client
  {
    if !s.client[c].bExpired && !s.client[c].bRegistered && GaveAll(s.password, k) then {k.nickname} else {}
  }

  // ----- What an event leaves of the client's owners -----

  /** From s to t the client keeps its state while it exists, and each of its owners, but for the directory if its
      nickname is hit and the process queue if that is done. */
  predicate Stays(s: State, t: State, a: Client, n: string, bHit: bool, bDone: bool) {
    && (a in t.client ==> a in s.client && t.client[a] == s.client[a])
    && (a in t.unregistered <==> a in s.unregistered)
    && (a in t.processing <==> a in s.processing && !bDone)
    && (FiledAs(t, a, n) <==> FiledAs(s, a, n) && !bHit)
  }

  lemma StaysThen(s: State, t: State, u: State, a: Client, n: string, hit: bool, hit': bool)
    requires Stays(s, t, a, n, hit, false) && Stays(t, u, a, n, hit', false)
    ensures Stays(s, u, a, n, hit || hit', false)
  {
  }

  lemma StaysSame(s: State, a: Client, n: string)
    ensures Stays(s, s, a, n, false, false)
  {
  }

  lemma LookupStays(s: State, m: string, a: Client, n: string)
    requires Core(s) && DrainsOrGone(s, a, n)
    ensures Stays(s, Lookup(s, m), a, n, m == n, false)
    ensures DrainsOrGone(Lookup(s, m), a, n)
  {
    FiledExist(s, a, n);
    LookupKeeps(s, m);
    hide Core, Swept;
  }

  lemma FiledExist(s: State, a: Client, n: string)
    requires Core(s)
    ensures FiledAs(s, a, n) ==> a in s.client && a in s.mClients.Values
  {
    assert FiledAs(s, a, n) ==> Owned(s, a);
  }

  lemma {:induction false} LookedUpStays(s: State, names: seq<string>, a: Client, n: string)
    requires Core(s) && DrainsOrGone(s, a, n)
    ensures Stays(s, LookedUp(s, names), a, n, n in SetOf(names), false)
    ensures DrainsOrGone(LookedUp(s, names), a, n)
  {
    hide Core, InSync, Lookup, Stays, DrainsOrGone;
    if names == [] {
      StaysSame(s, a, n);
    } else {
      var init, m := names[..|names| - 1], names[|names| - 1];
      LookedUpStays(s, init, a, n);
      LookedUpKeeps(s, init);
      LookupStays(LookedUp(s, init), m, a, n);
      StaysThen(s, LookedUp(s, init), LookedUp(s, names), a, n, n in SetOf(init), m == n);
      assert names == init + [m];
    }
  }

  /** Only another client, or a channel, is changed. */
  lemma PutStays(s: State, c: Client, k: ClientState, a: Client, n: string)
    requires c in s.client && c != a
    ensures Stays(s, Put(s, c, k), a, n, false, false)
  {
  }

  lemma RegisterStays(s: State, c: Client, a: Client, n: string)
    requires Core(s) && c in s.client && c != a && DrainsOrGone(s, a, n)
    ensures Stays(s, Register(s, c), a, n, Complete(s, c) && s.client[c].nickname == n, false)
  {
    var m := s.client[c].nickname;
    if MayRegister(s, c) {
      LookupStays(s, m, a, n);
      LookupFrees(s, m);
      WaitingIsDistinct(s);
      LookupWaits(s, m);
      hide Core, Lookup, DrainsOrGone, Found, Complete, Without;
      AdmittedStays(Lookup(s, m), c, s.client[c].(bRegistered := true), m, a, n);
      assert Register(s, c) == Filing(Lookup(s, m), c, s.client[c].(bRegistered := true), m);
      StaysThen(s, Lookup(s, m), Register(s, c), a, n, m == n, false);
    } else {
      FiledExist(s, a, n);
      StaysSame(s, a, n);
      hide Core, Lookup, Without;
    }
  }

  function Filing(s: State, c: Client, k: ClientState, m: string): State {
    Put(s, c, k).(mClients := s.mClients[m := c], unregistered := Without(s.unregistered, c))
  }

  lemma AdmittedStays(s: State, c: Client, k: ClientState, m: string, a: Client, n: string)
    requires c != a && m !in s.mClients && Distinct(s.unregistered)
    ensures Stays(s, Filing(s, c, k, m), a, n, false, false)
  {
    WithoutIs(s.unregistered, c);
    hide Without, Distinct;
  }

  lemma LookupWaits(s: State, m: string)
    ensures Lookup(s, m).unregistered == s.unregistered
  {
  }

  lemma GivenStays(s: State, c: Client, k: ClientState, a: Client, n: string)
    requires Core(s) && c in s.client && c != a && DrainsOrGone(s, a, n) && Core(Put(s, c, k))
    ensures Stays(s, Register(Put(s, c, k), c), a, n, GaveAll(s.password, k) && k.nickname == n, false)
  {
    PutStays(s, c, k, a, n);
    RegisterStays(Put(s, c, k), c, a, n);
    hide Core, Register, Stays, GaveAll;
    StaysThen(s, Put(s, c, k), Register(Put(s, c, k), c), a, n, false, GaveAll(s.password, k) && k.nickname == n);
  }

  lemma PassedStays(s: State, c: Client, arguments: seq<string>, a: Client, n: string)
    requires Core(s) && c in s.client && c != a && DrainsOrGone(s, a, n)
    ensures Stays(s, Passed(s, c, arguments), a, n, n in CommandLooks(s, c, Pass(arguments)), false)
  {
    hide Core, InSync, Register, Stays, DrainsOrGone, GaveAll;
    if s.client[c].bExpired || s.client[c].bRegistered || arguments == [] {
      StaysSame(s, a, n);
    } else {
      IntroducedKeeps(s, c, s.client[c].(serverPass := arguments[0]));
      GivenStays(s, c, s.client[c].(serverPass := arguments[0]), a, n);
    }
  }

  lemma IntroducedStays(s: State, c: Client, arguments: seq<string>, a: Client, n: string)
    requires Core(s) && c in s.client && c != a && DrainsOrGone(s, a, n)
    ensures Stays(s, Introduced(s, c, arguments), a, n, n in CommandLooks(s, c, User(arguments)), false)
  {
    hide Core, InSync, Register, Stays, DrainsOrGone, GaveAll;
    if s.client[c].bExpired || s.client[c].bRegistered || |arguments| < 4 || !FourNames(arguments) {
      StaysSame(s, a, n);
    } else {
      hide FourNames;
      IntroducedKeeps(s, c, s.client[c].(username := arguments[0], realname := arguments[3]));
      GivenStays(s, c, s.client[c].(username := arguments[0], realname := arguments[3]), a, n);
    }
  }

  lemma RenamedStays(s: State, c: Client, m: string, a: Client, n: string)
    requires Core(s) && Runs(s, c) && c != a && s.client[c].Active() && DrainsOrGone(s, a, n) && m != "" && m !in s.mClients
    ensures Stays(s, Renamed(s, c, m), a, n, s.client[c].nickname == n, false)
  {
    FiledExist(s, a, n);
    hide Core, Owned, Relisted;
  }

  lemma NickedStays(s: State, c: Client, arguments: seq<string>, a: Client, n: string)
    requires Core(s) && Runs(s, c) && c != a && DrainsOrGone(s, a, n) && (arguments != [] ==> arguments[0] != "")
    ensures Stays(s, Nicked(s, c, arguments), a, n, n in NickLooks(s, c, arguments), false)
  {
    FiledExist(s, a, n);
    if s.client[c].bExpired || arguments == [] || !IsNickname(arguments[0]) || Found(s, arguments[0]) != null {
      hide Core, Lookup, Register, Renamed;
    } else {
      var m := arguments[0];
      LookupStays(s, m, a, n);
      LookupKeeps(s, m);
      LookupFrees(s, m);
      var t := Lookup(s, m);
      hide Core, InSync, Lookup, Register, Renamed, Stays, DrainsOrGone, Found, GaveAll, IsNickname;
      if !s.client[c].bRegistered {
        var k := t.client[c].(nickname := m);
        IntroducedKeeps(t, c, k);
        GivenStays(t, c, k, a, n);
        StaysThen(s, t, Register(Put(t, c, k), c), a, n, m == n, GaveAll(t.password, k) && m == n);
      } else {
        RenamedStays(t, c, m, a, n);
        StaysThen(s, t, Renamed(t, c, m), a, n, m == n, s.client[c].nickname == n);
      }
    }
  }

  /** The owners and the client are the same. */
  lemma SameStays(s: State, t: State, a: Client, n: string)
    requires t.mClients == s.mClients && t.unregistered == s.unregistered && t.processing == s.processing
    requires a in t.client ==> a in s.client && t.client[a] == s.client[a]
    ensures Stays(s, t, a, n, false, false)
  {
  }

  lemma JoinedOneStays(s: State, c: Client, name: string, key: string, made: Channel?, a: Client, n: string)
    requires c in s.client && c != a
    ensures Stays(s, JoinedOne(s, c, name, key, made), a, n, false, false)
  {
    hide FoundChannel, Admits, Finds;
  }

  lemma {:induction false} JoinedAllStays(s: State, c: Client, names: seq<string>, keys: seq<string>, made: seq<Channel?>, a: Client, n: string)
    requires c in s.client && c != a && |made| == |names|
    ensures Stays(s, JoinedAll(s, c, names, keys, made), a, n, false, false)
  {
    hide JoinedOne, Stays;
    if names == [] {
      StaysSame(s, a, n);
    } else {
      var i := |names| - 1;
      var t := JoinedAll(s, c, names[..i], keys, made[..i]);
      JoinedAllStays(s, c, names[..i], keys, made[..i], a, n);
      if c in t.client {
        var key := if i < |keys| then keys[i] else "";
        JoinedOneStays(t, c, names[i], key, made[i], a, n);
        StaysThen(s, t, JoinedOne(t, c, names[i], key, made[i]), a, n, false, false);
      }
    }
  }

  lemma UnlinkedStays(s: State, c: Client, ch: Channel, a: Client, n: string)
    requires c in s.client && ch in s.channel && c != a
    ensures Stays(s, Unlinked(s, c, ch), a, n, false, false)
  {
  }

  lemma {:induction false} PartedAllStays(s: State, c: Client, names: seq<string>, a: Client, n: string)
    requires c in s.client && c != a
    ensures Stays(s, PartedAll(s, c, names), a, n, false, false)
  {
    hide Stays, FoundChannel, Finds, Unlinked;
    if names == [] {
      StaysSame(s, a, n);
    } else {
      var t := PartedAll(s, c, names[..|names| - 1]);
      PartedAllStays(s, c, names[..|names| - 1], a, n);
      if c in t.client {
        var ch := FoundChannel(t, names[|names| - 1]);
        StaysSame(t, a, n);
        if ch != null && ch in t.channel && Finds(t, ch, t.client[c].nickname) {
          UnlinkedStays(t, c, ch, a, n);
        }
        StaysThen(s, t, PartedOne(t, c, names[|names| - 1]), a, n, false, false);
      }
    }
  }

  lemma KickedStays(s: State, c: Client, arguments: seq<string>, a: Client, n: string)
    requires Core(s) && c in s.client && c != a && DrainsOrGone(s, a, n)
    ensures Stays(s, Kicked(s, c, arguments), a, n, n in CommandLooks(s, c, Kick(arguments)), false)
  {
    hide Core, DrainsOrGone, Lookup, Stays, Found, FoundChannel, Commands, Finds, Unlinked;
    if |arguments| < 2 || !Commands(s, c, arguments[0]) {
      StaysSame(s, a, n);
    } else {
      var m := arguments[1];
      LookupStays(s, m, a, n);
      DrainingNotFound(s, m, a, n);
      TakenOutStays(Lookup(s, m), Found(s, m), FoundChannel(s, arguments[0]), m, a, n);
      StaysThen(s, Lookup(s, m), Kicked(s, c, arguments), a, n, m == n, false);
    }
  }

  lemma TakenOutStays(t: State, target: Client?, ch: Channel?, m: string, a: Client, n: string)
    requires target != a
    ensures Stays(t, if target == null || target !in t.client || ch !in t.channel || !Finds(t, ch, m) then t else Unlinked(t, target, ch),
                  a, n, false, false)
  {
    hide Finds, Unlinked, Stays;
    StaysSame(t, a, n);
    if target != null && target in t.client && ch in t.channel && Finds(t, ch, m) {
      UnlinkedStays(t, target, ch, a, n);
    }
  }

  lemma DrainingNotFound(s: State, m: string, a: Client, n: string)
    requires DrainsOrGone(s, a, n)
    ensures Found(s, m) != a
  {
  }

  lemma InvitedStays(s: State, c: Client, arguments: seq<string>, a: Client, n: string)
    requires Core(s) && c in s.client && c != a && DrainsOrGone(s, a, n)
    ensures Stays(s, Invited(s, c, arguments), a, n, n in CommandLooks(s, c, Invite(arguments)), false)
  {
    hide Core, Lookup, Stays, Found, FoundChannel, Commands, Finds;
    if |arguments| < 2 || !Commands(s, c, arguments[1]) {
      StaysSame(s, a, n);
    } else {
      var m := arguments[0];
      LookupStays(s, m, a, n);
      SameStays(Lookup(s, m), Invited(s, c, arguments), a, n);
      StaysThen(s, Lookup(s, m), Invited(s, c, arguments), a, n, m == n, false);
    }
  }

  lemma ModedStays(s: State, c: Client, arguments: seq<string>, a: Client, n: string)
    requires Core(s) && c in s.client && c != a && DrainsOrGone(s, a, n)
    ensures Stays(s, ModeCommand.Moded(s, c, arguments), a, n, n in CommandLooks(s, c, Mode(arguments)), false)
  {
    hide Core, Stays, LookedUp, ModeCommand.TallyOf, FoundChannel;
    if !ModeCommand.Reaches(s, c, arguments) {
      StaysSame(s, a, n);
    } else {
      var names := ModeCommand.TallyOf(s, c, arguments).looked;
      LookedUpStays(s, names, a, n);
      SameStays(LookedUp(s, names), ModeCommand.Moded(s, c, arguments), a, n);
      StaysThen(s, LookedUp(s, names), ModeCommand.Moded(s, c, arguments), a, n, n in SetOf(names), false);
    }
  }

  lemma ForceDisconnectedStays(s: State, c: Client, a: Client, n: string)
    requires Core(s) && c in s.client && c != a
    ensures Stays(s, ForceDisconnected(s, c), a, n, n in CloseLooks(s, c), false)
  {
    StaysSame(s, a, n);
    if !s.client[c].bSocketClosed {
      CoreWaits(s);
      CutOffStays(s, c, a, n);
      hide Core, CutOff;
      SweptSame(CutOff(s, c), a, n);
      StaysThen(s, CutOff(s, c), ForceDisconnected(s, c), a, n, s.client[c].nickname == n, false);
    }
  }

  lemma CutOffStays(s: State, c: Client, a: Client, n: string)
    requires c in s.client && c != a && Distinct(s.unregistered)
    ensures Stays(s, CutOff(s, c), a, n, s.client[c].nickname == n, false)
  {
    WithoutIs(s.unregistered, c);
    hide Without, Distinct, Delisted;
  }

  lemma SweptSame(s: State, a: Client, n: string)
    ensures Stays(s, Swept(s), a, n, false, false)
  {
  }

  lemma CoreWaits(s: State)
    requires Core(s)
    ensures Distinct(s.unregistered)
  {
  }

  lemma DisconnectedStays(s: State, c: Client, bDrained: bool, a: Client, n: string)
    requires Core(s) && c in s.client && c != a
    ensures Stays(s, Disconnected(s, c, bDrained), a, n, n in CommandLooks(s, c, Quit(bDrained)), false)
  {
    hide Core, ForceDisconnected;
    ForceDisconnectedStays(s, c, a, n);
  }

  /** No command of an expired client does anything. */
  lemma ExpiredIsDeaf(s: State, c: Client, command: Command, made: seq<Channel?>)
    requires c in s.client && s.client[c].bExpired
    ensures Commanded(s, c, command, made) == s && CommandLooks(s, c, command) == {}
  {
    if command.Join? && |made| == |command.names| {
      NotJoining(s, c, command.names, command.keys, made);
    }
    hide JoinedAll, FoundChannel, Found, Lookup, Register, GaveAll;
  }

  lemma CommandStays(s: State, c: Client, command: Command, made: seq<Channel?>, a: Client, n: string)
    requires Core(s) && Runs(s, c) && DrainsOrGone(s, a, n)
    requires command.Nick? && command.arguments != [] ==> command.arguments[0] != ""
    ensures Stays(s, Commanded(s, c, command, made), a, n, n in CommandLooks(s, c, command), false)
  {
    if c == a {
      ExpiredIsDeaf(s, c, command, made);
      StaysSame(s, a, n);
      return;
    }
    hide Core, Stays, DrainsOrGone, Nicked, Passed, Introduced, JoinedAll, PartedAll, Kicked, Invited, LookedUp, ModeCommand.Moded, Disconnected;
    hide NickLooks, RegisterLooks, CloseLooks, FourNames, Commands, ModeCommand.Reaches, ModeCommand.TallyOf, Nicknames;
    StaysSame(s, a, n);
    match command
    case Nick(x) => NickedStays(s, c, x, a, n);
    case Pass(x) => PassedStays(s, c, x, a, n);
    case User(x) => IntroducedStays(s, c, x, a, n);
    case Join(names, keys) =>
      if |made| == |names| {
        JoinedAllStays(s, c, names, keys, made, a, n);
      }
    case Part(names) => PartedAllStays(s, c, names, a, n);
    case Kick(x) => KickedStays(s, c, x, a, n);
    case Invite(x) => InvitedStays(s, c, x, a, n);
    case PrivMsg(receivers) => LookedUpStays(s, Nicknames(receivers), a, n);
    case Mode(x) => ModedStays(s, c, x, a, n);
    case Quit(bDrained) => DisconnectedStays(s, c, bDrained, a, n);
  }

  /** Whatever the event, unless it closes the client itself: a registration list never lets go of it, the process
      queue does when it is cleared, and the directory exactly when the event looks up or erases its nickname. */
  lemma EventStays(w: World, e: Event, made: Made, a: Client, n: string)
    requires Core(w.server) && Fresh(w, e, made) && Said(e) && a in w.connected && DrainsOrGone(w.server, a, n)
    requires Closes(w, e) != a
    ensures Stays(w.server, Apply(w, e, made).server, a, n, n in Looks(w, e), e.ProcessingDone?)
  {
    hide Core, Stays, DrainsOrGone, ForceDisconnected, Commanded, CommandLooks, CloseLooks, Unknown, MadeFor;
    var s := w.server;
    StaysSame(s, a, n);
    match e
    case Connect => AcceptedStays(s, made.client, a, n);
    case Receive(who) =>
      if Here(w, who) {
        ReceivedStays(s, w.connected[who], a, n);
      }
    case Do(who, command) =>
      if Runner(w, e) != null {
        CommandStays(s, Runner(w, e), command, made.channels, a, n);
      }
    case ProcessingDone => SweptStays(s, a, n);
    case ReleaseDone => SweptStays(s, a, n);
    case _ =>
      if Closes(w, e) != null {
        ForceDisconnectedStays(s, Closes(w, e), a, n);
      }
  }

  lemma AcceptedStays(s: State, c: Client, a: Client, n: string)
    requires c != a
    ensures Stays(s, Accepted(s, c), a, n, false, false)
  {
  }

  lemma ReceivedStays(s: State, c: Client, a: Client, n: string)
    requires c in s.client && DrainsOrGone(s, a, n)
    ensures Stays(s, Received(s, c), a, n, false, false)
  {
  }

  lemma SweptStays(s: State, a: Client, n: string)
    ensures Stays(s, Processed(s), a, n, false, true) && Stays(s, Released(s), a, n, false, false)
  {
  }

  // ----- Runs -----

  /** While the core holds, the client exists exactly while one of three containers owns it. */
  lemma DrainingOwners(s: State, a: Client, n: string)
    requires Core(s) && DrainsOrGone(s, a, n)
    ensures a in s.client <==> a in s.unregistered || a in s.processing || FiledAs(s, a, n)
  {
    assert a in s.client <==> Owned(s, a);
    if a in s.client && a in s.mClients.Values {
      var k :| k in s.mClients && s.mClients[k] == a;
      assert k == n;
    }
    assert FiledAs(s, a, n) ==> a in s.mClients.Values;
  }

  /** None of the events closes the client. */
  ghost predicate NoneCloses(trace: seq<World>, events: seq<Event>, a: Client)
    requires |trace| > |events|
  {
    forall i :: 0 <= i < |events| ==> Closes(trace[i], events[i]) != a
  }

  /** None of the events looks the nickname up, or erases it. */
  ghost predicate NoneLooks(trace: seq<World>, events: seq<Event>, n: string)
    requires |trace| > |events|
  {
    forall i :: 0 <= i < |events| ==> n !in Looks(trace[i], events[i])
  }

  /** What outlasts the events: the list of unregistered clients, the process queue if it is not cleared, the
      directory if the nickname is not looked up. */
  ghost predicate Outlasts(trace: seq<World>, events: seq<Event>, a: Client, n: string)
    requires |trace| > |events|
  {
    || a in trace[0].server.unregistered
    || (a in trace[0].server.processing && ProcessingDone !in events)
    || (FiledAs(trace[0].server, a, n) && NoneLooks(trace, events, n))
  }

  lemma {:induction false} RunStays(trace: seq<World>, events: seq<Event>, mades: seq<Made>, a: Client, n: string)
    requires IsRun(trace, events, mades) && Core(trace[0].server) && a in trace[0].connected && DrainsOrGone(trace[0].server, a, n)
    requires NoneCloses(trace, events, a)
    ensures var s, t := trace[0].server, trace[|events|].server;
            && Core(t) && a in trace[|events|].connected && DrainsOrGone(t, a, n)
            && Stays(s, t, a, n, !NoneLooks(trace, events, n), ProcessingDone in events)
  {
    hide Core, Looks;
    if events == [] {
      StaysSame(trace[0].server, a, n);
    } else {
      var k := |events| - 1;
      var init, last := events[..k], events[k];
      assert IsRun(trace[..k + 1], init, mades[..k]);
      RunStays(trace[..k + 1], init, mades[..k], a, n);
      assert IsStep(trace[k], last, mades[k], trace[k + 1]);
      hide IsStep, IsRun;
      StepKeepsAll(trace[k], last, mades[k], trace[k + 1], a, n);
      assert events == init + [last];
      assert NoneLooks(trace, events, n) <==> NoneLooks(trace[..k + 1], init, n) && n !in Looks(trace[k], last);
    }
  }

  lemma StepKeepsAll(w: World, e: Event, made: Made, next: World, a: Client, n: string)
    requires Core(w.server) && IsStep(w, e, made, next) && a in w.connected && DrainsOrGone(w.server, a, n) && Closes(w, e) != a
    ensures Core(next.server) && a in next.connected && DrainsOrGone(next.server, a, n)
    ensures Stays(w.server, next.server, a, n, n in Looks(w, e), e.ProcessingDone?)
  {
    EventStays(w, e, made, a, n);
    ApplyKeeps(w, e, made);
    hide Core, InSync, Looks, Commanded, ForceDisconnected;
  }

  /** Draining ends in a close exactly if an owner outlasts the events before. Take any run from a world in which the
      client is draining, in which nothing else closes it; then the write event that sends its last byte closes it if
      and only if the client was not registered, or is still queued for processing, or is in the directory and no event
      before looked its nickname up. Otherwise the client has been destroyed with its socket open. */
  lemma EndsInClose(trace: seq<World>, events: seq<Event>, mades: seq<Made>, who: nat, n: string)
    requires IsRun(trace, events, mades) && Core(trace[0].server) && who < |trace[0].connected|
    requires var a := trace[0].connected[who];
             IsDraining(trace[0].server, a) && trace[0].server.client[a].nickname == n && NoneCloses(trace, events, a)
    ensures var a, w := trace[0].connected[who], trace[|events|];
            && who < |w.connected| && w.connected[who] == a
            && (Closes(w, Drained(who)) == a <==> Outlasts(trace, events, a, n))
            && (!Outlasts(trace, events, a, n) ==> a !in w.server.client)
            && (Outlasts(trace, events, a, n) ==>
                  var t := Apply(w, Drained(who), Made(null, [])).server;
                  a in t.client && t.client[a].bSocketClosed && a in t.released)
  {
    var a, w := trace[0].connected[who], trace[|events|];
    RunStays(trace, events, mades, a, n);
    DrainingOwners(trace[0].server, a, n);
    DrainingOwners(w.server, a, n);
    SameIndex(trace, events, mades, who);
    if a in w.server.client {
      ForceDisconnectEnds(w.server, a);
    }
    hide Core, IsRun, NoneCloses, NoneLooks, ForceDisconnected;
  }

  lemma {:induction false} SameIndex(trace: seq<World>, events: seq<Event>, mades: seq<Made>, who: nat)
    requires IsRun(trace, events, mades) && who < |trace[0].connected|
    ensures who < |trace[|events|].connected| && trace[|events|].connected[who] == trace[0].connected[who]
  {
    if events != [] {
      var k := |events| - 1;
      assert IsRun(trace[..k + 1], events[..k], mades[..k]);
      SameIndex(trace[..k + 1], events[..k], mades[..k], who);
      assert IsStep(trace[k], events[k], mades[k], trace[k + 1]);
      hide Commanded, ForceDisconnected;
    }
  }
}
