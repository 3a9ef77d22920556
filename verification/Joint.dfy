/** The server's state and its sending side together: what the event loop does to both, so that when a client has drained
    is no longer a parameter but what is left of its bytes. */
module Joint {
  import opened ServerState
  import opened Transitions
  import ModeCommand
  import opened Sessions
  import opened Draining
  import S = Sending

  // ----- Which flags an event changes -----

  /** Whoever exists after was there before, as expired and as closed as before. */
  ghost predicate SameFlags(s: State, t: State) {
    forall d :: d in t.client ==>
      d in s.client && t.client[d].bExpired == s.client[d].bExpired && t.client[d].bSocketClosed == s.client[d].bSocketClosed
  }

  lemma SameFlagsThen(s: State, t: State, u: State)
    requires SameFlags(s, t) && SameFlags(t, u)
    ensures SameFlags(s, u)
  {
  }

  lemma LookupFlags(s: State, n: string)
    ensures SameFlags(s, Lookup(s, n))
  {
    hide Owned;
  }

  lemma PutFlags(s: State, c: Client, k: ClientState)
    requires c in s.client && k.bExpired == s.client[c].bExpired && k.bSocketClosed == s.client[c].bSocketClosed
    ensures SameFlags(s, Put(s, c, k))
  {
  }

  lemma {:induction false} LookedUpFlags(s: State, names: seq<string>)
    ensures SameFlags(s, LookedUp(s, names))
  {
    hide Lookup;
    if names != [] {
      var t := LookedUp(s, names[..|names| - 1]);
      LookedUpFlags(s, names[..|names| - 1]);
      LookupFlags(t, names[|names| - 1]);
      hide SameFlags;
      SameFlagsThen(s, t, LookedUp(s, names));
    }
  }

  lemma RegisterFlags(s: State, c: Client)
    requires c in s.client
    ensures SameFlags(s, Register(s, c))
  {
    LookupFlags(s, s.client[c].nickname);
    hide Lookup, Without, MayRegister;
  }

  lemma GivenFlags(s: State, c: Client, k: ClientState)
    requires c in s.client && k.bExpired == s.client[c].bExpired && k.bSocketClosed == s.client[c].bSocketClosed
    ensures SameFlags(s, Register(Put(s, c, k), c))
  {
    PutFlags(s, c, k);
    hide Register, SameFlags;
    RegisterFlags(Put(s, c, k), c);
    SameFlagsThen(s, Put(s, c, k), Register(Put(s, c, k), c));
  }

  lemma NickedFlags(s: State, c: Client, arguments: seq<string>)
    requires Core(s) && Runs(s, c)
    ensures SameFlags(s, Nicked(s, c, arguments))
  {
    if TakesNickname(s, c, arguments) {
      var n := arguments[0];
      LookupKeeps(s, n);
      LookupFlags(s, n);
      var t := Lookup(s, n);
      hide Core, InSync, Lookup, Register, Found, IsNickname, SameFlags;
      if !s.client[c].bRegistered {
        var k := t.client[c].(nickname := n);
        GivenFlags(t, c, k);
      } else {
        RenamedFlags(t, c, n);
      }
      SameFlagsThen(s, t, Nicked(s, c, arguments));
    } else {
      hide Core, Register, Renamed;
    }
  }

  lemma RenamedFlags(s: State, c: Client, n: string)
    requires c in s.client
    ensures SameFlags(s, Renamed(s, c, n))
  {
    hide Relisted, Owned;
  }

  lemma PassedFlags(s: State, c: Client, arguments: seq<string>)
    requires c in s.client
    ensures SameFlags(s, Passed(s, c, arguments))
  {
    if !(s.client[c].bExpired || s.client[c].bRegistered || arguments == []) {
      hide Core, InSync, Register, SameFlags;
      var k := s.client[c].(serverPass := arguments[0]);
      GivenFlags(s, c, k);
    }
  }

  lemma IntroducedFlags(s: State, c: Client, arguments: seq<string>)
    requires c in s.client
    ensures SameFlags(s, Introduced(s, c, arguments))
  {
    hide FourNames;
    if !(s.client[c].bExpired || s.client[c].bRegistered || |arguments| < 4 || !FourNames(arguments)) {
      hide Core, InSync, Register, SameFlags;
      var k := s.client[c].(username := arguments[0], realname := arguments[3]);
      GivenFlags(s, c, k);
    }
  }

  lemma JoinedOneFlags(s: State, c: Client, name: string, key: string, made: Channel?)
    requires c in s.client
    ensures SameFlags(s, JoinedOne(s, c, name, key, made))
  {
    hide FoundChannel, Admits, Finds;
  }

  lemma {:induction false} JoinedAllFlags(s: State, c: Client, names: seq<string>, keys: seq<string>, made: seq<Channel?>)
    requires |made| == |names|
    ensures SameFlags(s, JoinedAll(s, c, names, keys, made))
  {
    hide JoinedOne;
    if names != [] {
      var i := |names| - 1;
      var t := JoinedAll(s, c, names[..i], keys, made[..i]);
      JoinedAllFlags(s, c, names[..i], keys, made[..i]);
      if c in t.client {
        var key := if i < |keys| then keys[i] else "";
        JoinedOneFlags(t, c, names[i], key, made[i]);
        SameFlagsThen(s, t, JoinedOne(t, c, names[i], key, made[i]));
      }
      hide SameFlags;
    }
  }

  lemma UnlinkedFlags(s: State, c: Client, ch: Channel)
    requires c in s.client && ch in s.channel
    ensures SameFlags(s, Unlinked(s, c, ch))
  {
  }

  lemma {:induction false} PartedAllFlags(s: State, c: Client, names: seq<string>)
    ensures SameFlags(s, PartedAll(s, c, names))
  {
    hide FoundChannel, Finds, Unlinked;
    if names != [] {
      var t := PartedAll(s, c, names[..|names| - 1]);
      PartedAllFlags(s, c, names[..|names| - 1]);
      if c in t.client {
        var ch := FoundChannel(t, names[|names| - 1]);
        if ch != null && ch in t.channel && Finds(t, ch, t.client[c].nickname) {
          UnlinkedFlags(t, c, ch);
          SameFlagsThen(s, t, Unlinked(t, c, ch));
        }
      }
      hide SameFlags;
    }
  }

  lemma KickedFlags(s: State, c: Client, arguments: seq<string>)
    requires c in s.client
    ensures SameFlags(s, Kicked(s, c, arguments))
  {
    hide Lookup, Found, FoundChannel, Commands, Finds, Unlinked;
    if |arguments| >= 2 && Commands(s, c, arguments[0]) {
      LookupFlags(s, arguments[1]);
      var t, target, ch := Lookup(s, arguments[1]), Found(s, arguments[1]), FoundChannel(s, arguments[0]);
      if target != null && target in t.client && ch in t.channel && Finds(t, ch, arguments[1]) {
        UnlinkedFlags(t, target, ch);
        SameFlagsThen(s, t, Unlinked(t, target, ch));
      }
      hide SameFlags;
    }
  }

  lemma InvitedFlags(s: State, c: Client, arguments: seq<string>)
    requires c in s.client
    ensures SameFlags(s, Invited(s, c, arguments))
  {
    hide Lookup, Found, FoundChannel, Commands, Finds;
    if |arguments| >= 2 {
      LookupFlags(s, arguments[0]);
    }
  }

  lemma ModedFlags(s: State, c: Client, arguments: seq<string>)
    requires c in s.client
    ensures SameFlags(s, ModeCommand.Moded(s, c, arguments))
  {
    hide LookedUp, ModeCommand.TallyOf, FoundChannel;
    if ModeCommand.Reaches(s, c, arguments) {
      LookedUpFlags(s, ModeCommand.TallyOf(s, c, arguments).looked);
    }
  }

  lemma CommandFlags(s: State, c: Client, command: Command, made: seq<Channel?>)
    requires Core(s) && Runs(s, c) && !command.Quit?
    ensures SameFlags(s, Commanded(s, c, command, made))
  {
    CommandedAs(s, c, command, made);
    hide Core, Commanded, Nicked, Passed, Introduced, JoinedAll, PartedAll, Kicked, Invited, LookedUp, ModeCommand.Moded;
    match command
    case Nick(a) => NickedFlags(s, c, a);
    case Pass(a) => PassedFlags(s, c, a);
    case User(a) => IntroducedFlags(s, c, a);
    case Join(names, keys) =>
      if |made| == |names| {
        JoinedAllFlags(s, c, names, keys, made);
      } else {
        NotAsked(s, c, command, made);
      }
    case Part(names) => PartedAllFlags(s, c, names);
    case Kick(a) => KickedFlags(s, c, a);
    case Invite(a) => InvitedFlags(s, c, a);
    case PrivMsg(receivers) => LookedUpFlags(s, Nicknames(receivers));
    case Mode(a) => ModedFlags(s, c, a);
  }

  lemma NotAsked(s: State, c: Client, command: Command, made: seq<Channel?>)
    requires c in s.client && command.Join? && |made| != |command.names|
    ensures Commanded(s, c, command, made) == s
  {
  }

  /** Only the one closed is, and expires. */
  lemma ForceDisconnectedFlags(s: State, c: Client)
    requires Core(s) && c in s.client
    ensures var t := ForceDisconnected(s, c);
            && c in t.client && t.client[c].bExpired && t.client[c].bSocketClosed
            && forall d :: d in t.client && d != c ==>
                 d in s.client && t.client[d].bExpired == s.client[d].bExpired && t.client[d].bSocketClosed == s.client[d].bSocketClosed
  {
    ForceDisconnectEnds(s, c);
    hide Core, Without, Delisted, Owned;
  }

  // ----- The two together -----

  datatype Both = Both(world: World, box: S.Outbox)

  /** What happens in the event loop. mails are what a command sends, audience and text the members and the message of a
      QUIT, n what send returned. */
  datatype Happening =
    | Connects(sock: nat)
    | Receives(who: nat)
    | Asks(who: nat, command: Command, mails: seq<S.Act>)
    | Quits(who: nat, audience: seq<nat>, text: string)
    | Loses(who: nat, audience: seq<nat>, text: string)
    | Writes(who: nat, n: int, audience: seq<nat>, text: string)
    | Processes | Releases | Turns

  /** An event that does nothing. */
  function Idle(w: World): Event {
    Lost(|w.connected|)
  }

  /** What a happening is for the server. Whether a client that quits has drained, and which write event drains an expired
      one or fails, is read off its queue. */
  function EventOf(b: Both, h: Happening): Event {
    match h
    case Connects(_) => Connect
    case Receives(who) => Receive(who)
    case Asks(who, command, _) => Do(who, command)
    case Quits(who, _, _) => Do(who, Quit(who < |b.box.lines| && b.box.lines[who].texts == []))
    case Loses(who, _, _) => Lost(who)
    case Writes(who, n, audience, text) =>
      if !Here(b.world, who) || !S.Cuts(b.box, S.Write(who, n, audience, text), who) then Idle(b.world)
      else if n == -1 then SendFailed(who) else Drained(who)
    case Processes => ProcessingDone
    case Releases => ReleaseDone
    case Turns => Idle(b.world)
  }

  /** What it is for the sending side. */
  function BoxAfter(b: Both, h: Happening): S.Outbox {
    match h
    case Connects(sock) => S.Perform(b.box, S.Accept(sock))
    case Asks(who, command, mails) => if Acting(b.world, who) then S.After(b.box, mails) else b.box
    case Quits(who, audience, text) => if Acting(b.world, who) then S.Perform(b.box, S.Quit(who, audience, text)) else b.box
    case Loses(who, audience, text) =>
      if Closes(b.world, Lost(who)) != null then S.Perform(b.box, S.Close(who, audience, text)) else b.box
    case Writes(who, n, audience, text) => if Here(b.world, who) then S.Perform(b.box, S.Write(who, n, audience, text)) else b.box
    case Turns => S.Perform(b.box, S.Apply)
    case _ => b.box
  }

  /** The client exists, waits to be processed and has not expired: its commands are looked at. */
  predicate Acting(w: World, who: nat) {
    Here(w, who) && w.connected[who] in w.server.processing && !w.server.client[w.connected[who]].bExpired
  }

  predicate AllHere(w: World, members: seq<nat>) {
    forall m :: m in members ==> Here(w, m)
  }

  /** A message of a command, to clients that exist. */
  predicate IsMail(w: World, m: S.Act) {
    (m.SendTo? && Here(w, m.who)) || (m.SendToAll? && AllHere(w, m.members))
  }

  /** What the operating system and the handlers promise. */
  predicate Plausible(b: Both, h: Happening) {
    match h
    case Connects(sock) => S.Allowed(b.box, S.Accept(sock))
    case Asks(_, command, mails) => !command.Quit? && forall m :: m in mails ==> IsMail(b.world, m)
    case Quits(who, audience, text) => AllHere(b.world, audience) && (who < |b.box.lines| ==> S.Allowed(b.box, S.Quit(who, audience, text)))
    case Loses(who, audience, text) => AllHere(b.world, audience) && (who < |b.box.lines| ==> S.Allowed(b.box, S.Close(who, audience, text)))
    case Writes(who, n, audience, text) =>
      AllHere(b.world, audience) && (who < |b.box.lines| ==> S.Allowed(b.box, S.Write(who, n, audience, text)))
    case _ => true
  }

  ghost predicate IsJointStep(b: Both, h: Happening, made: Made, next: Both) {
    && Plausible(b, h) && IsStep(b.world, EventOf(b, h), made, next.world) && next.box == BoxAfter(b, h)
  }

  ghost predicate IsJointRun(trace: seq<Both>, hs: seq<Happening>, mades: seq<Made>) {
    && |trace| == |hs| + 1 && |mades| == |hs|
    && forall i :: 0 <= i < |hs| ==> IsJointStep(trace[i], hs[i], mades[i], trace[i + 1])
  }

  // ----- They stay together -----

  /** Each client that exists is expired and closed on the one side exactly if it is on the other. */
  predicate Agree(w: World, box: S.Outbox, who: nat) {
    Here(w, who) && who < |box.lines| ==>
      var k := w.server.client[w.connected[who]];
      k.bExpired == box.lines[who].bExpired && k.bSocketClosed == box.lines[who].bClosed
  }

  ghost predicate OneEach(w: World) {
    forall i, j :: 0 <= i < j < |w.connected| ==> w.connected[i] != w.connected[j]
  }

  ghost predicate Tied(b: Both) {
    && Core(b.world.server) && S.Sound(b.box) && |b.world.connected| == |b.box.lines| && OneEach(b.world)
    && forall who: nat :: Agree(b.world, b.box, who)
  }

  lemma StartTied(password: string)
    ensures Tied(Both(Sessions.Start(password), S.Start()))
  {
  }

  /** The same clients, with the same flags on both sides. */
  lemma SameFlagsAgree(b: Both, next: Both)
    requires Tied(b) && Core(next.world.server) && S.Sound(next.box)
    requires next.world.connected == b.world.connected && SameFlags(b.world.server, next.world.server)
    requires |next.box.lines| == |b.box.lines|
    requires forall v :: 0 <= v < |b.box.lines| ==>
               next.box.lines[v].bExpired == b.box.lines[v].bExpired && next.box.lines[v].bClosed == b.box.lines[v].bClosed
    ensures Tied(next)
  {
    hide Core, S.Sound;
    forall who: nat ensures Agree(next.world, next.box, who) {
      assert Agree(b.world, b.box, who);
    }
  }

  lemma {:induction false} MailsFlags(o: S.Outbox, mails: seq<S.Act>)
    requires S.Sound(o) && forall m :: m in mails ==> m.SendTo? || m.SendToAll?
    ensures var t := S.After(o, mails);
            && S.Sound(t) && |t.lines| == |o.lines|
            && forall v :: 0 <= v < |o.lines| ==> t.lines[v].bExpired == o.lines[v].bExpired && t.lines[v].bClosed == o.lines[v].bClosed
  {
    hide S.Sound, S.Perform;
    if mails != [] {
      var init, last := mails[..|mails| - 1], mails[|mails| - 1];
      assert last in mails;
      MailsFlags(o, init);
      MailFlags(S.After(o, init), last);
    }
  }

  lemma MailFlags(o: S.Outbox, m: S.Act)
    requires S.Sound(o) && (m.SendTo? || m.SendToAll?)
    ensures var t := S.Perform(o, m);
            && S.Sound(t) && |t.lines| == |o.lines|
            && forall v :: 0 <= v < |o.lines| ==> t.lines[v].bExpired == o.lines[v].bExpired && t.lines[v].bClosed == o.lines[v].bClosed
  {
    S.PerformKeeps(o, m);
    hide S.Sound, S.Perform, S.Allowed;
    forall v | 0 <= v < |o.lines|
      ensures S.Perform(o, m).lines[v].bExpired == o.lines[v].bExpired && S.Perform(o, m).lines[v].bClosed == o.lines[v].bClosed
    {
      S.PerformFlags(o, m, v);
    }
  }

  lemma AppliedFlags(o: S.Outbox)
    requires S.Sound(o)
    ensures S.Sound(S.Perform(o, S.Apply)) && S.Perform(o, S.Apply).lines == o.lines
  {
    S.PerformKeeps(o, S.Apply);
    hide S.Sound;
  }

  /** One client is closed, or only expires, on both sides. */
  lemma OneChanges(b: Both, next: Both, who: nat, bClosed: bool)
    requires Tied(b) && Core(next.world.server) && S.Sound(next.box) && Here(b.world, who)
    requires next.world.connected == b.world.connected && |next.box.lines| == |b.box.lines|
    requires forall v :: 0 <= v < |b.box.lines| && v != who ==>
               next.box.lines[v].bExpired == b.box.lines[v].bExpired && next.box.lines[v].bClosed == b.box.lines[v].bClosed
    requires next.box.lines[who].bExpired && next.box.lines[who].bClosed == bClosed
    requires var s, t, c := b.world.server, next.world.server, b.world.connected[who];
             && c in t.client && t.client[c].bExpired && t.client[c].bSocketClosed == bClosed
             && forall d :: d in t.client && d != c ==>
                  d in s.client && t.client[d].bExpired == s.client[d].bExpired && t.client[d].bSocketClosed == s.client[d].bSocketClosed
    ensures Tied(next)
  {
    hide Core, S.Sound;
    forall v: nat ensures Agree(next.world, next.box, v) {
      assert Agree(b.world, b.box, v);
    }
  }

  lemma QuitTied(b: Both, who: nat, audience: seq<nat>, text: string, made: Made, next: Both)
    requires Tied(b) && IsJointStep(b, Quits(who, audience, text), made, next)
    ensures Tied(next)
  {
    var h := Quits(who, audience, text);
    var w, e := b.world, EventOf(b, h);
    ApplyKeeps(w, e, made);
    QuitSteps(b, who, audience, text, made, next);
    if Acting(w, who) {
      var c := w.connected[who];
      assert Agree(w, b.box, who);
      var act := S.Quit(who, audience, text);
      BoxFlags(b.box, act);
      if b.box.lines[who].texts == [] {
        ForceDisconnectedFlags(w.server, c);
      }
      QuitOrNot(b.box, who, audience, text);
      hide Core, S.Sound, S.Perform, S.Cuts, S.Allowed, ForceDisconnected;
      OneChanges(b, next, who, b.box.lines[who].texts == []);
    } else {
      hide Core, S.Sound;
      SameFlagsAgree(b, next);
    }
  }

  lemma QuitSteps(b: Both, who: nat, audience: seq<nat>, text: string, made: Made, next: Both)
    requires Tied(b) && IsJointStep(b, Quits(who, audience, text), made, next)
    ensures next.world.connected == b.world.connected
    ensures !Acting(b.world, who) ==> next == b
    ensures Acting(b.world, who) ==>
              var s, c := b.world.server, b.world.connected[who];
              && S.Allowed(b.box, S.Quit(who, audience, text)) && next.box == S.Perform(b.box, S.Quit(who, audience, text))
              && next.world.server == if b.box.lines[who].texts == [] then ForceDisconnected(s, c)
                                      else Put(s, c, s.client[c].(bExpired := true, channels := map[]))
  {
    hide Core, S.Sound, S.Perform, S.Allowed, ForceDisconnected;
  }

  lemma BoxFlags(o: S.Outbox, act: S.Act)
    requires S.Sound(o)
    ensures var t := S.Perform(o, act);
            && S.Sound(t) && |t.lines| == |o.lines| + (if act.Accept? && S.Allowed(o, act) then 1 else 0)
            && forall v :: 0 <= v < |o.lines| ==>
                 && t.lines[v].bClosed == (o.lines[v].bClosed || S.Cuts(o, act, v))
                 && t.lines[v].bExpired == (o.lines[v].bExpired || S.Cuts(o, act, v) || (act.Quit? && act.who == v && S.Allowed(o, act)))
  {
    S.PerformKeeps(o, act);
    hide S.Sound, S.Perform, S.Allowed, S.Cuts;
    forall v | 0 <= v < |o.lines|
      ensures S.Perform(o, act).lines[v].bClosed == (o.lines[v].bClosed || S.Cuts(o, act, v))
      ensures S.Perform(o, act).lines[v].bExpired ==
              (o.lines[v].bExpired || S.Cuts(o, act, v) || (act.Quit? && act.who == v && S.Allowed(o, act)))
    {
      S.PerformFlags(o, act, v);
    }
  }

  lemma QuitOrNot(o: S.Outbox, who: nat, audience: seq<nat>, text: string)
    requires S.Sound(o) && S.Allowed(o, S.Quit(who, audience, text)) && !o.lines[who].bExpired
    ensures !o.lines[who].bClosed
    ensures forall v: nat :: S.Cuts(o, S.Quit(who, audience, text), v) <==> v == who && o.lines[who].texts == []
  {
    S.ExpiredIfClosed(o, who);
    hide S.Sound;
  }

  /** The client is closed on both sides: by a loss, or by a write event. */
  lemma CloseTied(b: Both, h: Happening, act: S.Act, c: Client, made: Made, next: Both)
    requires Tied(b) && IsJointStep(b, h, made, next) && (h.Loses? || h.Writes?) && Here(b.world, h.who) && c == b.world.connected[h.who]
    requires Closes(b.world, EventOf(b, h)) == c && !b.world.server.client[c].bSocketClosed
    requires act.Close? || act.Write?
    requires next.box == S.Perform(b.box, act) && forall v: nat :: S.Cuts(b.box, act, v) <==> v == h.who
    ensures Tied(next)
  {
    ApplyKeeps(b.world, EventOf(b, h), made);
    assert next.world == b.world.(server := ForceDisconnected(b.world.server, c));
    BoxFlags(b.box, act);
    ForceDisconnectedFlags(b.world.server, c);
    hide Core, S.Sound, S.Perform, S.Cuts, S.Allowed, ForceDisconnected, EventOf, BoxAfter;
    OneChanges(b, next, h.who, true);
  }

  lemma LossTied(b: Both, who: nat, audience: seq<nat>, text: string, made: Made, next: Both)
    requires Tied(b) && IsJointStep(b, Loses(who, audience, text), made, next)
    ensures Tied(next)
  {
    var h, act := Loses(who, audience, text), S.Close(who, audience, text);
    if Closes(b.world, Lost(who)) != null {
      assert Agree(b.world, b.box, who);
      S.ExpiredIfClosed(b.box, who);
      CloseCuts(b.box, who, audience, text);
      hide Core, S.Sound, S.Perform, S.Cuts, S.Allowed;
      CloseTied(b, h, act, b.world.connected[who], made, next);
    } else {
      assert next.world == b.world && next.box == b.box;
    }
  }

  lemma CloseCuts(o: S.Outbox, who: nat, audience: seq<nat>, text: string)
    requires S.Allowed(o, S.Close(who, audience, text)) && S.IsOpen(o, who)
    ensures forall v: nat :: S.Cuts(o, S.Close(who, audience, text), v) <==> v == who
  {
  }

  lemma WriteTied(b: Both, who: nat, n: int, audience: seq<nat>, text: string, made: Made, next: Both)
    requires Tied(b) && IsJointStep(b, Writes(who, n, audience, text), made, next)
    ensures Tied(next)
  {
    var h, act := Writes(who, n, audience, text), S.Write(who, n, audience, text);
    if !Here(b.world, who) {
      IdleStays(b.world, made);
      assert next == b;
    } else {
      assert Agree(b.world, b.box, who);
      WriteCuts(b.box, who, n, audience, text);
      if S.Cuts(b.box, act, who) {
        assert Closes(b.world, EventOf(b, h)) == b.world.connected[who] by { hide Core, S.Sound; }
        hide Core, S.Sound, S.Perform, S.Cuts, S.Allowed;
        CloseTied(b, h, act, b.world.connected[who], made, next);
      } else {
        IdleStays(b.world, made);
        BoxFlags(b.box, act);
        hide Core, S.Sound, S.Perform, S.Cuts, S.Allowed, Agree;
        assert next.world == b.world;
        SameFlagsAgree(b, next);
      }
    }
  }

  lemma IdleStays(w: World, made: Made)
    ensures Apply(w, Idle(w), made) == w
  {
  }

  lemma WriteCuts(o: S.Outbox, who: nat, n: int, audience: seq<nat>, text: string)
    ensures var act := S.Write(who, n, audience, text);
            && (forall v: nat :: S.Cuts(o, act, v) ==> v == who)
            && (S.Cuts(o, act, who) ==> S.IsOpen(o, who) && (n == -1 || o.lines[who].bExpired))
  {
  }

  /** Whatever happens, the two sides agree. */
  lemma StepTied(b: Both, h: Happening, made: Made, next: Both)
    requires Tied(b) && IsJointStep(b, h, made, next)
    ensures Tied(next)
  {
    match h
    case Connects(sock) => ConnectTied(b, sock, made, next);
    case Receives(who) => ReceiveTied(b, who, made, next);
    case Asks(who, command, mails) => AskTied(b, who, command, mails, made, next);
    case Quits(who, audience, text) => QuitTied(b, who, audience, text, made, next);
    case Loses(who, audience, text) => LossTied(b, who, audience, text, made, next);
    case Writes(who, n, audience, text) => WriteTied(b, who, n, audience, text, made, next);
    case Processes => ClearTied(b, h, made, next);
    case Releases => ClearTied(b, h, made, next);
    case Turns => TurnTied(b, made, next);
  }

  lemma ConnectTied(b: Both, sock: nat, made: Made, next: Both)
    requires Tied(b) && IsJointStep(b, Connects(sock), made, next)
    ensures Tied(next)
  {
    ApplyKeeps(b.world, Connect, made);
    BoxFlags(b.box, S.Accept(sock));
    assert next.box.lines == b.box.lines + [S.NewLine(sock)];
    assert next.world == World(Accepted(b.world.server, made.client), b.world.connected + [made.client]);
    hide Core, S.Sound, S.Perform, S.Cuts, Unknown;
    forall v: nat ensures Agree(next.world, next.box, v) {
      assert Agree(b.world, b.box, v);
    }
  }

  lemma ReceiveTied(b: Both, who: nat, made: Made, next: Both)
    requires Tied(b) && IsJointStep(b, Receives(who), made, next)
    ensures Tied(next)
  {
    ApplyKeeps(b.world, Receive(who), made);
    hide Core, S.Sound;
    SameFlagsAgree(b, next);
  }

  lemma AskTied(b: Both, who: nat, command: Command, mails: seq<S.Act>, made: Made, next: Both)
    requires Tied(b) && IsJointStep(b, Asks(who, command, mails), made, next)
    ensures Tied(next)
  {
    var e := Do(who, command);
    ApplyKeeps(b.world, e, made);
    forall m | m in mails ensures m.SendTo? || m.SendToAll? {
      assert IsMail(b.world, m);
    }
    MailsFlags(b.box, mails);
    if Runner(b.world, e) != null {
      CommandFlags(b.world.server, Runner(b.world, e), command, made.channels);
    }
    hide Core, S.Sound, S.After, Commanded;
    SameFlagsAgree(b, next);
  }

  lemma ClearTied(b: Both, h: Happening, made: Made, next: Both)
    requires Tied(b) && IsJointStep(b, h, made, next) && (h.Processes? || h.Releases?)
    ensures Tied(next)
  {
    ApplyKeeps(b.world, EventOf(b, h), made);
    hide Core, S.Sound, Owned;
    SameFlagsAgree(b, next);
  }

  lemma TurnTied(b: Both, made: Made, next: Both)
    requires Tied(b) && IsJointStep(b, Turns, made, next)
    ensures Tied(next)
  {
    IdleStays(b.world, made);
    AppliedFlags(b.box);
    hide Core, S.Sound, S.Perform;
    SameFlagsAgree(b, next);
  }

  // ----- Whole runs -----

  ghost function Worlds(trace: seq<Both>): seq<World> {
    seq(|trace|, i requires 0 <= i < |trace| => trace[i].world)
  }

  ghost function Events(trace: seq<Both>, hs: seq<Happening>): seq<Event>
    requires |trace| > |hs|
  {
    seq(|hs|, i requires 0 <= i < |hs| => EventOf(trace[i], hs[i]))
  }

  /** What is said of runs of the server is said of these. */
  lemma ServerRuns(trace: seq<Both>, hs: seq<Happening>, mades: seq<Made>)
    requires IsJointRun(trace, hs, mades)
    ensures IsRun(Worlds(trace), Events(trace, hs), mades)
  {
    hide IsStep, EventOf, BoxAfter, Plausible;
    forall i | 0 <= i < |hs| ensures IsStep(Worlds(trace)[i], Events(trace, hs)[i], mades[i], Worlds(trace)[i + 1]) {
      assert IsJointStep(trace[i], hs[i], mades[i], trace[i + 1]);
    }
  }

  lemma {:induction false} TiedAlways(trace: seq<Both>, hs: seq<Happening>, mades: seq<Made>, i: nat)
    requires IsJointRun(trace, hs, mades) && Tied(trace[0]) && i < |trace|
    ensures Tied(trace[i])
  {
    hide Tied, IsJointStep;
    if i > 0 {
      TiedAlways(trace, hs, mades, i - 1);
      StepTied(trace[i - 1], hs[i - 1], mades[i - 1], trace[i]);
    }
  }

  /** On either side nobody's number changes. */
  lemma StepOnward(b: Both, h: Happening, made: Made, next: Both, who: nat)
    requires Tied(b) && IsJointStep(b, h, made, next) && who < |b.box.lines|
    ensures who < |next.world.connected| && next.world.connected[who] == b.world.connected[who]
    ensures who < |next.box.lines| && S.Onward(b.box.lines[who], next.box.lines[who])
  {
    S.ExpiredIfClosed(b.box, who);
    BoxOnward(b, h, who);
    hide Core, S.Sound, S.Onward, BoxAfter, Commanded, ForceDisconnected;
    var e := EventOf(b, h);
    SameNumbers(b.world, e, made, who);
  }

  lemma SameNumbers(w: World, e: Event, made: Made, who: nat)
    requires who < |w.connected|
    ensures var t := Apply(w, e, made); who < |t.connected| && t.connected[who] == w.connected[who]
  {
    hide Commanded, ForceDisconnected;
  }

  lemma BoxOnward(b: Both, h: Happening, who: nat)
    requires S.Sound(b.box) && who < |b.box.lines|
    ensures who < |BoxAfter(b, h).lines| && S.Onward(b.box.lines[who], BoxAfter(b, h).lines[who])
  {
    S.ExpiredIfClosed(b.box, who);
    hide S.Sound, S.Perform, S.After, S.Ordered, S.Conserved;
    match h
    case Connects(sock) => S.StepOnward(b.box, S.Accept(sock), who);
    case Receives(_) =>
    case Asks(_, _, mails) => S.RunGoesOn(b.box, mails, who);
    case Quits(v, audience, text) => S.StepOnward(b.box, S.Quit(v, audience, text), who);
    case Loses(v, audience, text) => S.StepOnward(b.box, S.Close(v, audience, text), who);
    case Writes(v, n, audience, text) => S.StepOnward(b.box, S.Write(v, n, audience, text), who);
    case Processes =>
    case Releases =>
    case Turns => S.StepOnward(b.box, S.Apply, who);
  }

  // ----- Draining, by what is left to send -----

  /** The client has expired, and its line is open. */
  predicate LineDrains(box: S.Outbox, who: nat) {
    who < |box.lines| && box.lines[who].bExpired && !box.lines[who].bClosed
  }

  /** An event that does not close the client leaves its line open. */
  lemma StaysOpen(b: Both, h: Happening, made: Made, next: Both, who: nat)
    requires Tied(b) && IsJointStep(b, h, made, next) && LineDrains(b.box, who)
    requires Closes(b.world, EventOf(b, h)) != b.world.connected[who]
    ensures LineDrains(next.box, who)
  {
    assert Agree(b.world, b.box, who);
    if h.Asks? {
      forall m | m in h.mails ensures m.SendTo? || m.SendToAll? {
        assert IsMail(b.world, m);
      }
      MailsFlags(b.box, h.mails);
    } else if h.Receives? || h.Processes? || h.Releases? {
    } else {
      var act := ActOf(h);
      BoxFlags(b.box, act);
      NotCut(b, h, act, who);
      hide Core, S.Sound, S.Perform, S.Cuts, S.Allowed;
    }
  }

  function ActOf(h: Happening): S.Act {
    match h
    case Connects(sock) => S.Accept(sock)
    case Quits(who, audience, text) => S.Quit(who, audience, text)
    case Loses(who, audience, text) => S.Close(who, audience, text)
    case Writes(who, n, audience, text) => S.Write(who, n, audience, text)
    case _ => S.Apply
  }

  lemma NotCut(b: Both, h: Happening, act: S.Act, who: nat)
    requires Agree(b.world, b.box, who) && LineDrains(b.box, who) && |b.world.connected| == |b.box.lines| && OneEach(b.world)
    requires (h.Connects? || h.Quits? || h.Loses? || h.Writes? || h.Turns?) && act == ActOf(h)
    requires Closes(b.world, EventOf(b, h)) != b.world.connected[who]
    ensures BoxAfter(b, h) == b.box || (BoxAfter(b, h) == S.Perform(b.box, act) && !S.Cuts(b.box, act, who))
  {
    hide S.Perform, S.Takes, S.LastBytes;
  }

  lemma NoneBefore(trace: seq<Both>, hs: seq<Happening>, a: Client, k: nat)
    requires |trace| == |hs| + 1 && k <= |hs| && NoneCloses(Worlds(trace), Events(trace, hs), a)
    ensures NoneCloses(Worlds(trace[..k + 1]), Events(trace[..k + 1], hs[..k]), a)
  {
    var ws, es := Worlds(trace[..k + 1]), Events(trace[..k + 1], hs[..k]);
    assert ws == Worlds(trace)[..k + 1] && es == Events(trace, hs)[..k];
    hide Worlds, Events;
    forall i | 0 <= i < k ensures Closes(ws[i], es[i]) != a {
      assert Closes(Worlds(trace)[i], Events(trace, hs)[i]) != a;
    }
  }

  lemma {:induction false} DrainingGoesOn(trace: seq<Both>, hs: seq<Happening>, mades: seq<Made>, who: nat)
    requires IsJointRun(trace, hs, mades) && Tied(trace[0]) && LineDrains(trace[0].box, who)
    requires NoneCloses(Worlds(trace), Events(trace, hs), trace[0].world.connected[who])
    ensures var b0, b := trace[0], trace[|hs|];
            && Tied(b) && LineDrains(b.box, who) && b.world.connected[who] == b0.world.connected[who]
            && S.Onward(b0.box.lines[who], b.box.lines[who])
  {
    hide Core, S.Sound, EventOf, BoxAfter, Plausible, IsStep;
    if hs != [] {
      var k := |hs| - 1;
      var init, last := hs[..k], hs[k];
      assert IsJointRun(trace[..k + 1], init, mades[..k]);
      NoneBefore(trace, hs, trace[0].world.connected[who], k);
      DrainingGoesOn(trace[..k + 1], init, mades[..k], who);
      assert IsJointStep(trace[k], last, mades[k], trace[k + 1]);
      assert Closes(Worlds(trace)[k], Events(trace, hs)[k]) != trace[0].world.connected[who];
      StepTied(trace[k], last, mades[k], trace[k + 1]);
      StepOnward(trace[k], last, mades[k], trace[k + 1], who);
      StaysOpen(trace[k], last, mades[k], trace[k + 1], who);
      hide IsJointStep;
    }
  }

  /** A client that has quit with bytes to send, over any run in which nothing closes it: nothing is added, what is left
      only shrinks from the front, and is never nothing; and the client still exists, so that the write event with the
      last of it will close it, if and only if an owner outlasts the run. */
  lemma DrainsWhileOwned(trace: seq<Both>, hs: seq<Happening>, mades: seq<Made>, who: nat)
    requires IsJointRun(trace, hs, mades) && Tied(trace[0]) && who < |trace[0].world.connected|
    requires IsDraining(trace[0].world.server, trace[0].world.connected[who])
    requires NoneCloses(Worlds(trace), Events(trace, hs), trace[0].world.connected[who])
    ensures var a, b := trace[0].world.connected[who], trace[|hs|];
            && Tied(b) && LineDrains(trace[0].box, who) && LineDrains(b.box, who) && b.world.connected[who] == a
            && var k, k' := trace[0].box.lines[who], b.box.lines[who];
            && k'.enqueued == k.enqueued && k'.Unsent() != ""
            && |k'.Unsent()| <= |k.Unsent()| && k'.Unsent() == k.Unsent()[|k.Unsent()| - |k'.Unsent()|..]
            && (Here(b.world, who) <==>
                Outlasts(Worlds(trace), Events(trace, hs), a, trace[0].world.server.client[a].nickname))
  {
    var b0, b := trace[0], trace[|hs|];
    var a := b0.world.connected[who];
    assert Agree(b0.world, b0.box, who);
    DrainingGoesOn(trace, hs, mades, who);
    ServerRuns(trace, hs, mades);
    EndsInClose(Worlds(trace), Events(trace, hs), mades, who, b0.world.server.client[a].nickname);
    hide Core, IsJointRun, IsRun, NoneCloses, NoneLooks, ForceDisconnected, Closes;
    S.ExpiredIfClosed(b0.box, who);
    S.ExpiredIfClosed(b.box, who);
    var k, k' := b0.box.lines[who], b.box.lines[who];
    S.UnsentIsQueue(k');
    hide S.Sound, S.Concat;
    S.Suffix(k.wire, k.Unsent(), k'.wire, k'.Unsent());
  }

  /** Each write event that gives send n bytes leaves n fewer. */
  lemma WriteShrinks(b: Both, who: nat, n: nat, audience: seq<nat>, text: string)
    requires Tied(b) && Here(b.world, who) && LineDrains(b.box, who) && n > 0 && S.Takes(b.box, who, n)
    requires S.Allowed(b.box, S.Write(who, n, audience, text))
    ensures var k, k' := b.box.lines[who], BoxAfter(b, Writes(who, n, audience, text)).lines[who];
            |k'.Unsent()| == |k.Unsent()| - n && k'.wire == k.wire + k.Unsent()[..n] && (k'.bClosed <==> k'.Unsent() == "")
  {
    S.ExpiredIfClosed(b.box, who);
    S.AdvancedKeeps(b.box.lines[who], n);
    S.UnsentIsQueue(S.Advanced(b.box.lines[who], n));
    hide Core, S.Sound, S.Conserved, S.Advanced, S.Concat;
  }

  /** The write event with the last bytes of an expired client closes it, on both sides. */
  lemma LastWriteCloses(b: Both, who: nat, n: nat, audience: seq<nat>, text: string, made: Made, next: Both)
    requires Tied(b) && Here(b.world, who) && LineDrains(b.box, who) && n > 0 && n == |b.box.lines[who].Unsent()|
    requires S.Takes(b.box, who, n) && IsJointStep(b, Writes(who, n, audience, text), made, next)
    ensures var a := b.world.connected[who];
            && EventOf(b, Writes(who, n, audience, text)) == Drained(who)
            && who < |next.box.lines| && next.box.lines[who].bClosed && next.box.lines[who].Unsent() == ""
            && a in next.world.server.client && next.world.server.client[a].bSocketClosed && a in next.world.server.released
  {
    var a := b.world.connected[who];
    assert Agree(b.world, b.box, who);
    WriteShrinks(b, who, n, audience, text);
    LastIsLast(b.box, who, n, audience, text);
    ForceDisconnectEnds(b.world.server, a);
    hide Core, S.Sound, S.Perform, S.Cuts, S.Allowed, ForceDisconnected;
    StepOnward(b, Writes(who, n, audience, text), made, next, who);
  }

  lemma LastIsLast(o: S.Outbox, who: nat, n: nat, audience: seq<nat>, text: string)
    requires S.Sound(o) && LineDrains(o, who) && n > 0 && n == |o.lines[who].Unsent()| && S.Takes(o, who, n)
    requires S.Allowed(o, S.Write(who, n, audience, text))
    ensures S.Cuts(o, S.Write(who, n, audience, text), who)
  {
    S.ExpiredIfClosed(o, who);
    S.AdvancedKeeps(o.lines[who], n);
    S.UnsentIsQueue(S.Advanced(o.lines[who], n));
    hide S.Sound, S.Conserved, S.Advanced, S.Concat;
  }

  // ----- A destroyed client -----

  /** Nothing that happens touches the line of a client that no longer exists, nor brings the client back. */
  lemma GoneStep(b: Both, h: Happening, made: Made, next: Both, who: nat)
    requires Tied(b) && IsJointStep(b, h, made, next) && who < |b.box.lines| && !Here(b.world, who)
    ensures who < |next.box.lines| && next.box.lines[who] == b.box.lines[who] && !Here(next.world, who)
  {
    StepOnward(b, h, made, next, who);
    NobodyReturns(b.world, EventOf(b, h), made, who);
    hide Core, S.Sound, EventOf, Fresh;
    GoneLine(b, h, who);
    hide *;
  }

  lemma GoneLine(b: Both, h: Happening, who: nat)
    requires Plausible(b, h) && who < |b.box.lines| && !Here(b.world, who)
    ensures who < |BoxAfter(b, h).lines| && BoxAfter(b, h).lines[who] == b.box.lines[who]
  {
    hide S.Perform, S.After, S.Allowed;
    if h.Asks? {
      MailsToOthers(b, h.mails, who);
    } else if h.Receives? || h.Processes? || h.Releases? {
    } else {
      ActOthers(b, h, who);
      if IsAboutOthers(ActOf(h), who) {
        OthersOnly(b.box, ActOf(h), who);
      }
      hide IsAboutOthers, ActOf;
    }
  }

  lemma ActOthers(b: Both, h: Happening, who: nat)
    requires Plausible(b, h) && !Here(b.world, who) && !h.Asks? && !h.Receives? && !h.Processes? && !h.Releases?
    ensures BoxAfter(b, h) == b.box || (BoxAfter(b, h) == S.Perform(b.box, ActOf(h)) && IsAboutOthers(ActOf(h), who))
  {
    hide S.Perform, S.Allowed;
  }

  lemma NobodyReturns(w: World, e: Event, made: Made, who: nat)
    requires Core(w.server) && Fresh(w, e, made) && Said(e) && who < |w.connected| && !Here(w, who)
    ensures w.connected[who] !in Apply(w, e, made).server.client
  {
    EventStays(w, e, made, w.connected[who], "");
    hide Core, Commanded, ForceDisconnected;
  }

  /** The act is about other clients. */
  predicate IsAboutOthers(act: S.Act, who: nat) {
    match act
    case SendTo(v, _) => v != who
    case SendToAll(members, _, _) => who !in members
    case Write(v, _, audience, _) => v != who && who !in audience
    case Quit(v, audience, _) => v != who && who !in audience
    case Close(v, audience, _) => v != who && who !in audience
    case _ => true
  }

  lemma OthersOnly(o: S.Outbox, act: S.Act, who: nat)
    requires who < |o.lines| && IsAboutOthers(act, who)
    ensures who < |S.Perform(o, act).lines| && S.Perform(o, act).lines[who] == o.lines[who]
  {
    hide S.SentAll, S.Advanced;
    match act
    case Accept(_) =>
    case SendTo(_, _) =>
    case SendToAll(members, except, text) => S.ExceptedIsSame(o, members, except, text, who);
    case Write(v, _, audience, text) => S.ExceptedIsSame(o, audience, S.But(v), text, who);
    case Quit(v, audience, text) =>
      S.ExceptedIsSame(o, audience, S.But(v), text, who);
      if v < |o.lines| {
        S.ExceptedIsSame(S.SetLine(o, v, o.lines[v].(bExpired := true)), audience, S.But(v), text, who);
      }
    case Close(v, audience, text) => S.ExceptedIsSame(o, audience, S.But(v), text, who);
    case Apply =>
  }

  lemma {:induction false} MailsToOthers(b: Both, mails: seq<S.Act>, who: nat)
    requires who < |b.box.lines| && !Here(b.world, who) && forall m :: m in mails ==> IsMail(b.world, m)
    ensures var t := S.After(b.box, mails); who < |t.lines| && t.lines[who] == b.box.lines[who]
  {
    hide S.Perform;
    if mails != [] {
      var init, last := mails[..|mails| - 1], mails[|mails| - 1];
      assert last in mails && IsMail(b.world, last);
      MailsToOthers(b, init, who);
      OthersOnly(S.After(b.box, init), last, who);
    }
  }

  /** So what a destroyed client had left to send stays unsent for good, and its socket open. */
  lemma {:induction false} LostForGood(trace: seq<Both>, hs: seq<Happening>, mades: seq<Made>, who: nat)
    requires IsJointRun(trace, hs, mades) && Tied(trace[0]) && who < |trace[0].box.lines| && !Here(trace[0].world, who)
    ensures var b := trace[|hs|]; who < |b.box.lines| && b.box.lines[who] == trace[0].box.lines[who] && !Here(b.world, who)
  {
    hide Tied, IsJointStep, Here;
    if hs != [] {
      var k := |hs| - 1;
      assert IsJointRun(trace[..k + 1], hs[..k], mades[..k]);
      LostForGood(trace[..k + 1], hs[..k], mades[..k], who);
      TiedAlways(trace, hs, mades, k);
      GoneStep(trace[k], hs[k], mades[k], trace[k + 1], who);
    }
  }
}
