/** Whole runs of the server: any sequence of connections, received bytes, commands, disconnections and clearings of the
    server's queues. */
module Sessions {
  import opened ServerState
  import opened Transitions
  import opened Membership
  import ModeCommand
  import opened Standing

  datatype Command = Nick(arguments: seq<string>) | Pass(arguments: seq<string>) | User(arguments: seq<string>)
                   | Join(names: seq<string>, keys: seq<string>) | Part(names: seq<string>)
                   | Kick(arguments: seq<string>) | Invite(arguments: seq<string>) | PrivMsg(receivers: seq<string>)
                   | Mode(arguments: seq<string>) | Quit(bDrained: bool)

  /** A client is named by the order in which it connected. Lost is the end of a connection, Drained the write event that
      sends the last byte, SendFailed one that fails; the last two events are the clearings of the event loop's queues. */
  datatype Event = Connect | Receive(who: nat) | Do(who: nat, command: Command)
                 | Lost(who: nat) | Drained(who: nat) | SendFailed(who: nat) | ProcessingDone | ReleaseDone

  datatype World = World(server: State, connected: seq<Client>)

  /** The objects that an event makes. */
  datatype Made = Made(client: Client?, channels: seq<Channel?>)

  // ----- What an event does -----

  predicate Here(w: World, who: nat) {
    who < |w.connected| && w.connected[who] in w.server.client
  }

  function Commanded(s: State, c: Client, command: Command, made: seq<Channel?>): State
    requires c in s.client
  {
    match command
    case Nick(a) => Nicked(s, c, a)
    case Pass(a) => Passed(s, c, a)
    case User(a) => Introduced(s, c, a)
    case Join(names, keys) => if |made| == |names| then JoinedAll(s, c, names, keys, made) else s
    case Part(names) => Parted(s, c, names)
    case Kick(a) => Kicked(s, c, a)
    case Invite(a) => Invited(s, c, a)
    case PrivMsg(receivers) => Messaged(s, c, receivers)
    case Mode(a) => ModeCommand.Moded(s, c, a)
    case Quit(bDrained) => Disconnected(s, c, bDrained)
  }

  /** The client whose socket the event closes, if any. */
  function Closes(w: World, e: Event): Client? {
    match e
    case Lost(who) => if Here(w, who) && !w.server.client[w.connected[who]].bExpired then w.connected[who] else null
    case Drained(who) => if Here(w, who) && w.server.client[w.connected[who]].bExpired then w.connected[who] else null
    case SendFailed(who) => if Here(w, who) then w.connected[who] else null
    case _ => null
  }

  /** The client that runs a command: it exists and is queued for processing. */
  function Runner(w: World, e: Event): Client? {
    if e.Do? && Here(w, e.who) && w.connected[e.who] in w.server.processing then w.connected[e.who] else null
  }

  function Apply(w: World, e: Event, made: Made): World {
    match e
    case Connect => if made.client == null then w else World(Accepted(w.server, made.client), w.connected + [made.client])
    case Receive(who) => if Here(w, who) then w.(server := Received(w.server, w.connected[who])) else w
    case Do(who, command) =>
      if Runner(w, e) != null && Runner(w, e) in w.server.client
      then w.(server := Commanded(w.server, Runner(w, e), command, made.channels)) else w
    case ProcessingDone => w.(server := Processed(w.server))
    case ReleaseDone => w.(server := Released(w.server))
    case _ =>
      if Closes(w, e) != null && Closes(w, e) in w.server.client then w.(server := ForceDisconnected(w.server, Closes(w, e))) else w
  }

  /** The objects made are new. */
  ghost predicate Fresh(w: World, e: Event, made: Made) {
    match e
    case Connect => made.client != null && Unknown(w.server, made.client) && made.client !in w.connected
    case Do(who, Join(names, keys)) =>
      |made.channels| == |names| && (Runner(w, e) != null ==> MadeFor(w.server, Runner(w, e), names, keys, made.channels))
    case _ => true
  }

  /** What the tokeniser promises of NICK's arguments, and the splitter of JOIN's and PRIVMSG's names. */
  predicate Said(e: Event) {
    match e
    case Do(_, Nick(a)) => a != [] ==> a[0] != ""
    case Do(_, Join(names, _)) => forall n :: n in names ==> n != ""
    case Do(_, PrivMsg(receivers)) => forall r :: r in receivers ==> r != ""
    case _ => true
  }

  // ----- What every event keeps -----

  /** The ways in which an event takes the server out of sync. It renames a client that is in a channel; */
  predicate Renames(w: World, e: Event) {
    e.Do? && Runner(w, e) != null && Runner(w, e) in w.server.client && CommandRenames(w.server, Runner(w, e), e.command)
  }

  /** or it closes a client and takes another out of the directory by name that goes on existing. */
  predicate Unlists(w: World, e: Event) {
    if e.Do? then Runner(w, e) != null && Runner(w, e) in w.server.client && CommandUnlists(w.server, Runner(w, e), e.command)
    else Closes(w, e) != null && Closes(w, e) in w.server.client && CloseUnlists(w.server, Closes(w, e))
  }

  predicate CommandRenames(s: State, c: Client, command: Command)
    requires c in s.client
  {
    command.Nick? && RenamesMember(s, c, command.arguments)
  }

  predicate CommandUnlists(s: State, c: Client, command: Command)
    requires c in s.client
  {
    command.Quit? && command.bDrained && !s.client[c].bExpired && CloseUnlists(s, c)
  }

  predicate CloseUnlists(s: State, c: Client)
    requires c in s.client
  {
    !s.client[c].bSocketClosed && Unfiles(s, c)
  }

  lemma CommandedKeeps(s: State, c: Client, command: Command, made: seq<Channel?>)
    requires Core(s) && Runs(s, c)
    requires command.Nick? && command.arguments != [] ==> command.arguments[0] != ""
    requires command.Join? ==> |made| == |command.names| && MadeFor(s, c, command.names, command.keys, made)
    ensures Core(Commanded(s, c, command, made))
    ensures InSync(s) ==> (InSync(Commanded(s, c, command, made)) <==> !CommandRenames(s, c, command) && !CommandUnlists(s, c, command))
  {
    hide Core, InSync, Nicked, Passed, Introduced, JoinedAll, PartedAll, Kicked, Invited, LookedUp, ModeCommand.Moded, Disconnected;
    match command
    case Nick(a) => NickedKeeps(s, c, a);
    case Pass(a) => PassedKeeps(s, c, a);
    case User(a) => IntroducedUserKeeps(s, c, a);
    case Join(names, keys) => JoinedAllKeeps(s, c, names, keys, made);
    case Part(names) =>
      if s.client[c].Active() {
        PartedAllKeeps(s, c, names);
      }
    case Kick(a) => KickedKeeps(s, c, a);
    case Invite(a) => InvitedKeeps(s, c, a);
    case PrivMsg(receivers) => LookedUpKeeps(s, Nicknames(receivers));
    case Mode(a) => ModeCommand.ModedKeeps(s, c, a);
    case Quit(bDrained) => DisconnectedKeeps(s, c, bDrained);
  }

  /** Every event keeps the core; and from sync it keeps the sync exactly unless it renames a member or takes another
      client out of the directory. */
  lemma ApplyKeeps(w: World, e: Event, made: Made)
    requires Core(w.server) && Fresh(w, e, made) && Said(e)
    ensures Core(Apply(w, e, made).server)
    ensures InSync(w.server) ==> (InSync(Apply(w, e, made).server) <==> !Renames(w, e) && !Unlists(w, e))
  {
    hide Core, InSync, Accepted, Received, Processed, Released, ForceDisconnected, Commanded, CommandRenames, CommandUnlists, Unfiles, Unknown, MadeFor;
    match e
    case Connect => AcceptedKeeps(w.server, made.client);
    case Receive(who) =>
      if Here(w, who) {
        ReceivedKeeps(w.server, w.connected[who]);
      }
    case Do(who, command) =>
      if Runner(w, e) != null {
        CommandedKeeps(w.server, Runner(w, e), command, made.channels);
      }
    case ProcessingDone => ListsClearedKeep(w.server);
    case ReleaseDone => ListsClearedKeep(w.server);
    case _ =>
      if Closes(w, e) != null {
        ForceDisconnectedKeeps(w.server, Closes(w, e));
      }
  }

  lemma CommandedFirm(s: State, c: Client, command: Command, made: seq<Channel?>)
    requires Core(s) && Runs(s, c) && Firm(s)
    requires command.Join? ==> |made| == |command.names| && MadeFor(s, c, command.names, command.keys, made)
    ensures Firm(Commanded(s, c, command, made)) <==> !CommandUnlists(s, c, command)
  {
    CommandedAs(s, c, command, made);
    hide Core, InSync, Firm, Commanded, Nicked, Passed, Introduced, JoinedAll, PartedAll, Kicked, Invited, LookedUp, ModeCommand.Moded;
    hide Disconnected, MadeFor, Unfiles;
    match command
    case Nick(a) => NickedFirm(s, c, a);
    case Pass(a) => PassedFirm(s, c, a);
    case User(a) => IntroducedFirm(s, c, a);
    case Join(names, keys) => JoinedAllFirm(s, c, names, keys, made);
    case Part(names) =>
      if s.client[c].Active() {
        PartedAllKeeps(s, c, names);
      }
    case Kick(a) => KickedFirm(s, c, a);
    case Invite(a) => InvitedFirm(s, c, a);
    case PrivMsg(receivers) => LookedUpFirm(s, Nicknames(receivers));
    case Mode(a) => ModedFirm(s, c, a);
    case Quit(bDrained) => DisconnectedFirm(s, c, bDrained);
  }

  /** Active clients stay filed, and listed where they are, through every event but the second kind: renames do not
      disturb that. */
  lemma ApplyFirm(w: World, e: Event, made: Made)
    requires Core(w.server) && Fresh(w, e, made) && Firm(w.server)
    ensures Firm(Apply(w, e, made).server) <==> !Unlists(w, e)
  {
    hide Core, Firm, Accepted, ForceDisconnected, Commanded, CommandUnlists, Unfiles, MadeFor;
    match e
    case Connect => AcceptedFirm(w.server, made.client);
    case Receive(who) =>
      if Here(w, who) {
        ListsFirm(w.server, Received(w.server, w.connected[who]));
      }
    case Do(who, command) =>
      if Runner(w, e) != null {
        CommandedFirm(w.server, Runner(w, e), command, made.channels);
      }
    case ProcessingDone =>
      ListsFirm(w.server, w.server.(processing := []));
      SweptFirm(w.server.(processing := []));
    case ReleaseDone =>
      ListsFirm(w.server, w.server.(released := []));
      SweptFirm(w.server.(released := []));
    case _ =>
      if Closes(w, e) != null {
        ForceDisconnectedFirm(w.server, Closes(w, e));
      }
  }

  /** The rest, that nobody else is listed and nobody under another name, is lost exactly at a rename of the first kind. */
  lemma ApplyNeat(w: World, e: Event, made: Made)
    requires Core(w.server) && Fresh(w, e, made) && Said(e) && InSync(w.server)
    ensures Neat(Apply(w, e, made).server) <==> !Renames(w, e)
  {
    SyncParts(w.server);
    SyncParts(Apply(w, e, made).server);
    ApplyKeeps(w, e, made);
    ApplyFirm(w, e, made);
    NotBoth(w, e);
    hide Core, InSync, Firm, Neat, Apply, Renames, Said, Fresh;
    if Unlists(w, e) {
      UnlistsNeat(w, e, made);
    }
  }

  lemma NotBoth(w: World, e: Event)
    ensures !(Renames(w, e) && Unlists(w, e))
  {
  }

  lemma UnlistsNeat(w: World, e: Event, made: Made)
    requires Core(w.server) && InSync(w.server) && Unlists(w, e)
    ensures Neat(Apply(w, e, made).server)
  {
    hide Core, InSync, Neat, ForceDisconnected, Unfiles;
    if e.Do? {
      ForceDisconnectedNeat(w.server, Runner(w, e));
      QuitIsClose(w, e, made);
      hide Apply;
    } else {
      ForceDisconnectedNeat(w.server, Closes(w, e));
    }
  }

  lemma QuitIsClose(w: World, e: Event, made: Made)
    requires e.Do? && Unlists(w, e)
    ensures Runner(w, e) != null && Runner(w, e) in w.server.client
    ensures Apply(w, e, made).server == ForceDisconnected(w.server, Runner(w, e))
  {
    hide ForceDisconnected, Unfiles;
  }

  // ----- Whole runs -----

  function Start(password: string): World {
    World(State(password, map[], [], [], [], map[], map[], map[]), [])
  }

  /** One world before each event and one after the last; each event does what it is for. */
  ghost predicate IsRun(trace: seq<World>, events: seq<Event>, mades: seq<Made>) {
    && |trace| == |events| + 1 && |mades| == |events|
    && forall i :: 0 <= i < |events| ==> IsStep(trace[i], events[i], mades[i], trace[i + 1])
  }

  ghost predicate IsStep(w: World, e: Event, made: Made, next: World) {
    Fresh(w, e, made) && Said(e) && next == Apply(w, e, made)
  }

  lemma StartIsValid(password: string)
    ensures Valid(Start(password).server)
  {
  }

  /** In every world of every run the core holds: whatever renames and removals came before. */
  lemma {:induction false} CoreAlways(trace: seq<World>, events: seq<Event>, mades: seq<Made>, i: nat)
    requires IsRun(trace, events, mades) && Core(trace[0].server) && i < |trace|
    ensures Core(trace[i].server)
  {
    if i > 0 {
      CoreAlways(trace, events, mades, i - 1);
      assert IsStep(trace[i - 1], events[i - 1], mades[i - 1], trace[i]);
      hide Core;
      ApplyKeeps(trace[i - 1], events[i - 1], mades[i - 1]);
    }
  }

  /** The server is in sync up to the first event that takes it out of sync, and not right after it. */
  lemma {:induction false} InSyncUntil(trace: seq<World>, events: seq<Event>, mades: seq<Made>, i: nat)
    requires IsRun(trace, events, mades) && Valid(trace[0].server) && i < |events|
    requires forall j :: 0 <= j < i ==> !Renames(trace[j], events[j]) && !Unlists(trace[j], events[j])
    ensures Valid(trace[i].server) && (InSync(trace[i + 1].server) <==> !Renames(trace[i], events[i]) && !Unlists(trace[i], events[i]))
    ensures Neat(trace[i + 1].server) <==> !Renames(trace[i], events[i])
  {
    hide InSync, Neat;
    CoreAlways(trace, events, mades, i);
    hide Core;
    if i > 0 {
      InSyncUntil(trace, events, mades, i - 1);
    }
    assert IsStep(trace[i], events[i], mades[i], trace[i + 1]);
    ApplyKeeps(trace[i], events[i], mades[i]);
    ApplyNeat(trace[i], events[i], mades[i]);
  }

  /** Whatever renames there are, every active client is filed, so that active nicknames are unique, and listed wherever
      it is, up to the first event that takes another client out of the directory, and not right after it. */
  lemma {:induction false} FirmUntil(trace: seq<World>, events: seq<Event>, mades: seq<Made>, i: nat)
    requires IsRun(trace, events, mades) && Core(trace[0].server) && Firm(trace[0].server) && i < |events|
    requires forall j :: 0 <= j < i ==> !Unlists(trace[j], events[j])
    ensures Core(trace[i].server) && Firm(trace[i].server) && (Firm(trace[i + 1].server) <==> !Unlists(trace[i], events[i]))
  {
    hide Firm;
    CoreAlways(trace, events, mades, i);
    hide Core;
    if i > 0 {
      FirmUntil(trace, events, mades, i - 1);
    }
    assert IsStep(trace[i], events[i], mades[i], trace[i + 1]);
    ApplyFirm(trace[i], events[i], mades[i]);
  }

  /** The server itself, run from its start. The trace says what every event did to it. */
  method Run(password: string, events: seq<Event>) returns (s: Server, clients: seq<Client>, ghost trace: seq<World>, ghost mades: seq<Made>)
    requires forall e :: e in events ==> Said(e)
    ensures IsRun(trace, events, mades) && trace[0] == Start(password) && trace[|events|] == World(s.Snap(), clients)
    ensures forall i :: 0 <= i < |trace| ==> Core(trace[i].server)
  {
    hide Core, IsStep;
    s := new Server(password);
    clients := [];
    trace, mades := [World(s.Snap(), clients)], [];
    StartIsValid(password);
    CoreOf(Start(password).server);
    for i := 0 to |events|
      invariant fresh(s) && fresh(s.objects) && fresh(s.channels) && (forall c :: c in clients ==> fresh(c))
      invariant IsRun(trace, events[..i], mades) && trace[0] == Start(password) && trace[i] == World(s.Snap(), clients)
      invariant forall j :: 0 <= j <= i ==> Core(trace[j].server)
    {
      assert events[i] in events;
      ghost var made;
      clients, made := Step(s, clients, events[i]);
      StepCore(trace[i], events[i], made, World(s.Snap(), clients));
      OneMore(trace, events[..i], mades, events[i], made, World(s.Snap(), clients));
      trace, mades := trace + [World(s.Snap(), clients)], mades + [made];
      assert events[..i + 1] == events[..i] + [events[i]];
    }
    assert events[..|events|] == events;
  }

  lemma CoreOf(s: State)
    requires Valid(s)
    ensures Core(s)
  {
  }

  lemma StepCore(w: World, e: Event, made: Made, next: World)
    requires Core(w.server) && IsStep(w, e, made, next)
    ensures Core(next.server)
  {
    hide Core, InSync;
    ApplyKeeps(w, e, made);
  }

  lemma OneMore(trace: seq<World>, events: seq<Event>, mades: seq<Made>, e: Event, made: Made, next: World)
    requires IsRun(trace, events, mades) && IsStep(trace[|events|], e, made, next)
    ensures IsRun(trace + [next], events + [e], mades + [made])
  {
    hide IsStep;
  }

  /** One event. */
  method Step(s: Server, clients: seq<Client>, e: Event) returns (clients': seq<Client>, ghost made: Made)
    requires Core(s.Snap()) && Said(e)
    modifies s, s.objects, s.channels
    ensures IsStep(World(old(s.Snap()), clients), e, made, World(s.Snap(), clients'))
    ensures fresh(s.channels - old(s.channels)) && fresh(s.objects - old(s.objects)) && (forall c :: c in clients' ==> c in clients || fresh(c))
  {
    ghost var w := World(s.Snap(), clients);
    clients', made := clients, Made(null, []);
    if e.Connect? {
      var c := Accepting(s, clients);
      made := Made(c, []);
      clients' := clients + [c];
      return;
    }
    if e.ProcessingDone? {
      s.ClearProcessQueue();
      return;
    }
    if e.ReleaseDone? {
      s.ReleaseClients();
      return;
    }
    if e.who >= |clients| || clients[e.who] !in s.objects {
      NotHere(w, e);
      made := Unmade(e);
      return;
    }
    made := StepOf(s, clients, clients[e.who], e);
  }

  /** An event of an existing client. */
  method StepOf(s: Server, ghost clients: seq<Client>, c: Client, e: Event) returns (ghost made: Made)
    requires Core(s.Snap()) && Said(e) && (e.Receive? || e.Do? || e.Lost? || e.Drained? || e.SendFailed?)
    requires e.who < |clients| && clients[e.who] == c && c in s.objects
    modifies s, s.objects, s.channels
    ensures IsStep(World(old(s.Snap()), clients), e, made, World(s.Snap(), clients))
    ensures fresh(s.channels - old(s.channels)) && fresh(s.objects - old(s.objects))
  {
    hide *;
    s.ClientAt(c);
    QueuedIs(s, c);
    ghost var w := World(s.Snap(), clients);
    made := Made(null, []);
    if e.Receive? {
      s.Receive(c);
      ReceiveStep(w, e);
    } else if e.Do? {
      if c in s.receivedClientMsgProcessQueue {
        DoSaid(e);
        ghost var ms := Execute(s, c, e.command);
        made := Made(null, ms);
        DoStep(w, e, ms);
      } else {
        made := Unmade(e);
        IdleStep(w, e);
      }
    } else if (e.Lost? && !c.bExpired) || (e.Drained? && c.bExpired) || e.SendFailed? {
      s.ForceDisconnect(c);
      CloseStep(w, e);
    } else {
      NoCloseStep(w, e);
    }
  }

  lemma DoSaid(e: Event)
    requires Said(e) && e.Do?
    ensures Said(Do(0, e.command))
  {
  }

  lemma ReceiveStep(w: World, e: Event)
    requires e.Receive? && e.who < |w.connected| && w.connected[e.who] in w.server.client
    ensures IsStep(w, e, Made(null, []), w.(server := Received(w.server, w.connected[e.who])))
  {
  }

  lemma DoStep(w: World, e: Event, ms: seq<Channel?>)
    requires e.Do? && e.who < |w.connected| && w.connected[e.who] in w.server.client && w.connected[e.who] in w.server.processing && Said(e)
    requires e.command.Join? ==>
               |ms| == |e.command.names| && MadeFor(w.server, w.connected[e.who], e.command.names, e.command.keys, ms)
    ensures IsStep(w, e, Made(null, ms), w.(server := Commanded(w.server, w.connected[e.who], e.command, ms)))
  {
    hide Commanded, MadeFor;
  }

  lemma IdleStep(w: World, e: Event)
    requires e.Do? && e.who < |w.connected| && w.connected[e.who] !in w.server.processing && Said(e)
    ensures IsStep(w, e, Unmade(e), w)
  {
    hide Commanded, MadeFor;
  }

  lemma CloseStep(w: World, e: Event)
    requires e.Lost? || e.Drained? || e.SendFailed?
    requires e.who < |w.connected| && w.connected[e.who] in w.server.client
    requires (e.Lost? ==> !w.server.client[w.connected[e.who]].bExpired) && (e.Drained? ==> w.server.client[w.connected[e.who]].bExpired)
    ensures IsStep(w, e, Made(null, []), w.(server := ForceDisconnected(w.server, w.connected[e.who])))
  {
    hide ForceDisconnected;
  }

  lemma NoCloseStep(w: World, e: Event)
    requires e.Lost? || e.Drained?
    requires e.who < |w.connected| && w.connected[e.who] in w.server.client
    requires (e.Lost? ==> w.server.client[w.connected[e.who]].bExpired) && (e.Drained? ==> !w.server.client[w.connected[e.who]].bExpired)
    ensures IsStep(w, e, Made(null, []), w)
  {
  }

  function Unmade(e: Event): Made {
    Made(null, if e.Do? && e.command.Join? then seq(|e.command.names|, _ => null) else [])
  }

  lemma NotHere(w: World, e: Event)
    requires e.Receive? || e.Do? || e.Lost? || e.Drained? || e.SendFailed?
    requires Said(e) && !Here(w, e.who)
    ensures IsStep(w, e, Unmade(e), w)
  {
  }

  lemma QueuedIs(s: Server, c: Client)
    ensures c in s.Snap().processing <==> c in s.receivedClientMsgProcessQueue
  {
  }

  method Accepting(s: Server, clients: seq<Client>) returns (c: Client)
    requires Core(s.Snap())
    modifies s`objects, s`mUnregistedClients
    ensures fresh(c) && Unknown(old(s.Snap()), c) && c !in clients
    ensures s.Snap() == Accepted(old(s.Snap()), c) && s.objects == old(s.objects) + {c}
  {
    ghost var before := s.Snap();
    AllAllocated(s);
    c := new Client();
    assert Unknown(before, c);
    s.Accept(c);
  }

  lemma AllAllocated(s: Server)
    requires Core(s.Snap())
    ensures forall c :: Owned(s.Snap(), c) ==> c in s.objects
    ensures s.Snap().client.Keys == s.objects && s.Snap().channel.Keys == s.channels
    ensures forall ch :: ch in s.channels ==> s.Snap().channel[ch].clients == ch.Clients
  {
  }

  lemma CommandSaid(command: Command)
    requires Said(Do(0, command))
    ensures command.Nick? && command.arguments != [] ==> command.arguments[0] != ""
    ensures command.Join? ==> forall n :: n in command.names ==> n != ""
    ensures command.PrivMsg? ==> forall r :: r in command.receivers ==> r != ""
  {
  }

  lemma CommandedAs(s: State, c: Client, command: Command, made: seq<Channel?>)
    requires c in s.client
    ensures var t := Commanded(s, c, command, made);
            && (command.Nick? ==> t == Nicked(s, c, command.arguments))
            && (command.Pass? ==> t == Passed(s, c, command.arguments))
            && (command.User? ==> t == Introduced(s, c, command.arguments))
            && (command.Join? && |made| == |command.names| ==> t == JoinedAll(s, c, command.names, command.keys, made))
            && (command.Part? ==> t == Parted(s, c, command.names))
            && (command.Kick? ==> t == Kicked(s, c, command.arguments))
            && (command.Invite? ==> t == Invited(s, c, command.arguments))
            && (command.PrivMsg? ==> t == Messaged(s, c, command.receivers))
            && (command.Mode? ==> t == ModeCommand.Moded(s, c, command.arguments))
            && (command.Quit? ==> t == Disconnected(s, c, command.bDrained))
  {
    hide Nicked, Passed, Introduced, JoinedAll, Parted, Kicked, Invited, Messaged, ModeCommand.Moded, Disconnected;
  }

  method Execute(s: Server, c: Client, command: Command) returns (ghost made: seq<Channel?>)
    requires Core(s.Snap()) && c in s.objects && c in s.receivedClientMsgProcessQueue && Said(Do(0, command))
    modifies s, s.objects, s.channels
    ensures c in old(s.Snap()).client && s.Snap() == Commanded(old(s.Snap()), c, command, made)
    ensures command.Join? ==> |made| == |command.names| && MadeFor(old(s.Snap()), c, command.names, command.keys, made)
    ensures s.objects <= old(s.objects) && fresh(s.channels - old(s.channels))
  {
    hide *;
    s.ClientAt(c);
    CommandSaid(command);
    made := [];
    match command {
      case Nick(a) => s.Nick(c, a);
      case Pass(a) => s.Pass(c, a);
      case User(a) => var bTrapped := s.User(c, a);
      case Join(names, keys) => made := s.Join(c, names, keys);
      case Part(names) => s.Part(c, names);
      case Kick(a) => s.Kick(c, a);
      case Invite(a) => s.Invite(c, a);
      case PrivMsg(receivers) => s.PrivMsg(c, receivers);
      case Mode(a) => var answer := ModeCommand.Mode(s, c, a);
      case Quit(bDrained) => s.Disconnect(c, bDrained);
    }
    CommandedAs(old(s.Snap()), c, command, made);
  }
}
