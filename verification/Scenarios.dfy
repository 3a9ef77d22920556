/** Runs from the start of the server in which a promise fails. */
module Scenarios {
  import opened ServerState
  import opened Transitions
  import opened Sessions
  import opened Draining

  // ----- Registration, event by event -----

  /** A client connects, gives the password, a nickname and its names. */
  function Enrolment(who: nat, password: string, nickname: string): seq<Event> {
    [Connect, Receive(who), Do(who, Pass([password])), Do(who, Nick([nickname])), Do(who, User(["u", "h", "s", "r"]))]
  }

  function Given(nickname: string, username: string, realname: string, serverPass: string): ClientState {
    ClientState(nickname, username, realname, serverPass, false, false, false, map[])
  }

  /** The server with a client more that has not registered, and waits to be processed. */
  function WithNew(s: State, c: Client, k: ClientState): State {
    Put(s, c, k).(unregistered := s.unregistered + [c], processing := s.processing + [c])
  }

  function WithRegistered(s: State, c: Client, nickname: string): State {
    Put(s, c, Given(nickname, "u", "r", s.password).(bRegistered := true)).(
      mClients := s.mClients[nickname := c], processing := s.processing + [c])
  }

  lemma PutAgain(s: State, c: Client, k: ClientState, k': ClientState)
    ensures Put(WithNew(s, c, k), c, k') == WithNew(s, c, k')
  {
    assert s.client[c := k][c := k'] == s.client[c := k'];
  }

  lemma NewSteps(s: State, c: Client, nickname: string)
    requires IsNickname(nickname) && nickname !in s.mClients
    ensures var k, k1 := Given("", "", "", ""), Given("", "", "", s.password);
            && Received(Accepted(s, c), c) == WithNew(s, c, k)
            && Passed(WithNew(s, c, k), c, [s.password]) == WithNew(s, c, k1)
            && Nicked(WithNew(s, c, k), c, [nickname]) == WithNew(s, c, k.(nickname := nickname))
            && Nicked(WithNew(s, c, k1), c, [nickname]) == WithNew(s, c, k1.(nickname := nickname))
  {
    var k, k1 := Given("", "", "", ""), Given("", "", "", s.password);
    PutAgain(s, c, k, k1);
    PutAgain(s, c, k, k.(nickname := nickname));
    PutAgain(s, c, k1, k1.(nickname := nickname));
    hide IsNickname, Without;
  }

  lemma NewRegisters(s: State, c: Client, nickname: string)
    requires nickname != "" && nickname !in s.mClients && c !in s.unregistered
    ensures Introduced(WithNew(s, c, Given(nickname, "", "", s.password)), c, ["u", "h", "s", "r"]) == WithRegistered(s, c, nickname)
  {
    var k := Given(nickname, "u", "r", s.password);
    PutAgain(s, c, Given(nickname, "", "", s.password), k);
    PutAgain(s, c, k, k.(bRegistered := true));
    assert FourNames(["u", "h", "s", "r"]);
    hide FourNames;
    LastGoes(s.unregistered, c);
  }

  lemma LastGoes(s: seq<Client>, c: Client)
    requires c !in s
    ensures Without(s + [c], c) == s
  {
    var i := IndexOf(s + [c], c);
    assert i == |s|;
    assert (s + [c])[i := c][..|s|] == s;
  }

  /** The step from trace[i]. */
  lemma StepAt(trace: seq<World>, events: seq<Event>, mades: seq<Made>, i: nat)
    requires IsRun(trace, events, mades) && i < |events|
    ensures Fresh(trace[i], events[i], mades[i]) && trace[i + 1] == Apply(trace[i], events[i], mades[i])
  {
    assert IsStep(trace[i], events[i], mades[i], trace[i + 1]);
  }

  lemma FreshClient(w: World, made: Made)
    requires Fresh(w, Connect, made)
    ensures made.client != null && Unknown(w.server, made.client) && made.client !in w.connected && made.client !in w.server.unregistered
  {
  }

  lemma EnrolmentAt(events: seq<Event>, i: nat, who: nat, password: string, nickname: string)
    requires i + 5 <= |events| && events[i..i + 5] == Enrolment(who, password, nickname)
    ensures events[i] == Connect && events[i + 1] == Receive(who) && events[i + 2] == Do(who, Pass([password]))
    ensures events[i + 3] == Do(who, Nick([nickname])) && events[i + 4] == Do(who, User(["u", "h", "s", "r"]))
  {
    forall j | 0 <= j < 5 ensures events[i + j] == Enrolment(who, password, nickname)[j] {
      assert events[i..i + 5][j] == events[i + j];
    }
  }

  /** A command of the last client to connect. */
  lemma LastDoes(w: World, c: Client, k: ClientState, command: Command, made: Made)
    ensures var s := WithNew(w.server, c, k);
            && c in s.client
            && Apply(World(s, w.connected + [c]), Do(|w.connected|, command), made)
               == World(Commanded(s, c, command, made.channels), w.connected + [c])
  {
    hide Commanded;
  }

  lemma ConnectsAndReceives(w: World, made: Made)
    requires made.client != null
    ensures Apply(w, Connect, made) == World(Accepted(w.server, made.client), w.connected + [made.client])
    ensures forall m ::
      Apply(World(Accepted(w.server, made.client), w.connected + [made.client]), Receive(|w.connected|), m)
      == World(Received(Accepted(w.server, made.client), made.client), w.connected + [made.client])
  {
    hide Received;
  }

  /** After its enrolment the client is registered and filed. */
  lemma Enrols(trace: seq<World>, events: seq<Event>, mades: seq<Made>, i: nat, nickname: string)
    requires IsRun(trace, events, mades) && i + 5 <= |events| && Core(trace[i].server)
    requires IsNickname(nickname) && nickname != "" && nickname !in trace[i].server.mClients
    requires events[i..i + 5] == Enrolment(|trace[i].connected|, trace[i].server.password, nickname)
    ensures var w, c := trace[i], mades[i].client;
            c != null && Unknown(w.server, c) && c !in w.connected
            && trace[i + 5] == World(WithRegistered(w.server, c, nickname), w.connected + [c])
  {
    var w, p := trace[i], trace[i].server.password;
    EnrolmentAt(events, i, |w.connected|, p, nickname);
    hide *;
    StepAt(trace, events, mades, i);
    StepAt(trace, events, mades, i + 1);
    StepAt(trace, events, mades, i + 2);
    StepAt(trace, events, mades, i + 3);
    StepAt(trace, events, mades, i + 4);
    FreshClient(w, mades[i]);
    var c := mades[i].client;
    NewSteps(w.server, c, nickname);
    NewRegisters(w.server, c, nickname);
    ConnectsAndReceives(w, mades[i]);
    LastDoes(w, c, Given("", "", "", ""), Pass([p]), mades[i + 2]);
    LastDoes(w, c, Given("", "", "", p), Nick([nickname]), mades[i + 3]);
    LastDoes(w, c, Given(nickname, "", "", p), User(["u", "h", "s", "r"]), mades[i + 4]);
  }

  /** A command of a client that waits to be processed. */
  lemma Does(w: World, who: nat, command: Command, made: Made)
    requires who < |w.connected| && w.connected[who] in w.server.client && w.connected[who] in w.server.processing
    ensures Apply(w, Do(who, command), made) == w.(server := Commanded(w.server, w.connected[who], command, made.channels))
  {
    hide Commanded;
  }

  /** The other events of a client that exists. */
  lemma Happens(w: World, who: nat, made: Made)
    requires who < |w.connected| && w.connected[who] in w.server.client
    ensures var s, c := w.server, w.connected[who];
            && Apply(w, Receive(who), made) == w.(server := Received(s, c))
            && (!s.client[c].bExpired ==> Closes(w, Lost(who)) == c && Apply(w, Lost(who), made) == w.(server := ForceDisconnected(s, c)))
  {
    hide Received, ForceDisconnected;
  }

  lemma QueueIsDone(w: World, made: Made)
    ensures Apply(w, ProcessingDone, made) == w.(server := Processed(w.server))
  {
    hide Processed;
  }

  lemma NobodyCloses(w: World, who: nat)
    requires who < |w.connected| && w.connected[who] !in w.server.client
    ensures Closes(w, Drained(who)) == null
  {
  }

  // ----- A draining client is lost -----

  function LosingEvents(password: string): seq<Event> {
    Enrolment(0, password, "a") + Enrolment(1, password, "b")
    + [Do(0, Quit(false)), ProcessingDone, Receive(1), Do(1, PrivMsg(["a"]))]
  }

  /** A client quits with bytes unsent; then a message to its nickname destroys it, with its socket open. */
  lemma DrainingLost(password: string, trace: seq<World>, mades: seq<Made>)
    requires IsRun(trace, LosingEvents(password), mades) && trace[0] == Start(password)
    ensures var x := mades[0].client;
            && x != null && IsDraining(trace[13].server, x) && |trace[13].connected| == 2 && trace[13].connected[0] == x
            && x !in trace[14].server.client && Closes(trace[14], Drained(0)) == null
  {
    var events := LosingEvents(password);
    TwoEnrolled(password, trace, events, mades);
    var x, y := mades[0].client, mades[5].client;
    EventsEnd(Enrolment(0, password, "a"), Enrolment(1, password, "b"), events);
    StepAt(trace, events, mades, 10);
    StepAt(trace, events, mades, 11);
    StepAt(trace, events, mades, 12);
    StepAt(trace, events, mades, 13);
    hide IsRun;
    Quits(password, x, y, trace[10], mades[10], mades[11], mades[12], mades[13]);
  }

  lemma EventsEnd(a: seq<Event>, b: seq<Event>, events: seq<Event>)
    requires |a| == 5 && |b| == 5 && events == a + b + [Do(0, Quit(false)), ProcessingDone, Receive(1), Do(1, PrivMsg(["a"]))]
    ensures events[10] == Do(0, Quit(false)) && events[11] == ProcessingDone && events[12] == Receive(1) && events[13] == Do(1, PrivMsg(["a"]))
  {
  }

  /** The server with two registered clients. */
  function Two(password: string, x: Client, y: Client): State {
    WithRegistered(WithRegistered(Start(password).server, x, "a"), y, "b")
  }

  lemma TwoEnrolled(password: string, trace: seq<World>, events: seq<Event>, mades: seq<Made>)
    requires IsRun(trace, events, mades) && trace[0] == Start(password) && |events| >= 10
    requires events[..5] == Enrolment(0, password, "a") && events[5..10] == Enrolment(1, password, "b")
    ensures var x, y := mades[0].client, mades[5].client;
            x != null && y != null && x != y && trace[10] == World(Two(password, x, y), [x, y])
  {
    StartIsValid(password);
    CoreOf(Start(password).server);
    CoreAlways(trace, events, mades, 5);
    hide Core, IsRun, Enrolment;
    Enrols(trace, events, mades, 0, "a");
    Enrols(trace, events, mades, 5, "b");
  }

  lemma Quits(password: string, x: Client, y: Client, w: World, m: Made, m1: Made, m2: Made, m3: Made)
    requires x != y && w == World(Two(password, x, y), [x, y])
    ensures var w1 := Apply(w, Do(0, Quit(false)), m);
            var w3 := Apply(Apply(w1, ProcessingDone, m1), Receive(1), m2);
            var w4 := Apply(w3, Do(1, PrivMsg(["a"])), m3);
            && w3.connected == [x, y] && IsDraining(w3.server, x)
            && x !in w4.server.client && Closes(w4, Drained(0)) == null
  {
    hide *;
    TwoAre(password, x, y);
    QuitProcessed(password, x, y);
    LooksForA(password, x, y);
    var s1 := Disconnected(w.server, x, false);
    var s3 := Quitted(password, x, y).(processing := [y]);
    Does(w, 0, Quit(false), m);
    CommandedAs(w.server, x, Quit(false), m.channels);
    QueueIsDone(World(s1, [x, y]), m1);
    Happens(World(Quitted(password, x, y), [x, y]), 1, m2);
    Does(World(s3, [x, y]), 1, PrivMsg(["a"]), m3);
    CommandedAs(s3, y, PrivMsg(["a"]), m3.channels);
    NobodyCloses(World(Messaged(s3, y, ["a"]), [x, y]), 0);
  }

  lemma TwoAre(password: string, x: Client, y: Client)
    requires x != y
    ensures var s := Two(password, x, y);
            && s.client.Keys == {x, y} && s.processing == [x, y] && s.mClients == map["a" := x, "b" := y]
            && s.client[x].Active() && s.client[y].Active() && !s.client[x].bSocketClosed && s.unregistered == [] && s.released == []
            && s.client[x].channels == map[]
  {
  }

  /** x has quit and everything received was processed. */
  function Quitted(password: string, x: Client, y: Client): (s: State)
    requires x != y
    ensures x in s.client && y in s.client
  {
    TwoAre(password, x, y);
    var s := Two(password, x, y);
    Put(s, x, s.client[x].(bExpired := true, channels := map[])).(processing := [])
  }

  lemma QuitProcessed(password: string, x: Client, y: Client)
    requires x != y
    ensures var s, t := Two(password, x, y), Quitted(password, x, y);
            && x in s.client && Processed(Disconnected(s, x, false)) == t && Received(t, y) == t.(processing := [y])
            && IsDraining(t.(processing := [y]), x)
  {
    TwoAre(password, x, y);
    hide Two;
    var t := Quitted(password, x, y);
    assert t.mClients["a"] == x && t.mClients["b"] == y;
    assert Owned(t, x) && Owned(t, y);
    assert Swept(t).client == t.client;
  }

  lemma LooksForA(password: string, x: Client, y: Client)
    requires x != y
    ensures var t := Quitted(password, x, y).(processing := [y]); y in t.client && x !in Messaged(t, y, ["a"]).client
  {
    TwoAre(password, x, y);
    hide Two;
    var t := Quitted(password, x, y).(processing := [y]);
    var n := "a";
    assert [n][..0] == [] && Nicknames([]) == [] && Nicknames([n]) == [n];
    assert LookedUp(t, []) == t && LookedUp(t, [n]) == Lookup(t, n);
    var u := t.(mClients := t.mClients - {n});
    assert u.mClients == map["b" := y];
    assert !Owned(u, x);
  }

  // ----- A removal by name hits another client -----

  /** One client takes a nickname without registering, another registers with it. */
  function NamesakeEvents(password: string): seq<Event> {
    [Connect, Receive(0), Do(0, Nick(["a"]))] + Enrolment(1, password, "a")
  }

  function Namesakes(password: string, x: Client, y: Client): State {
    WithRegistered(WithNew(Start(password).server, x, Given("a", "", "", "")), y, "a")
  }

  lemma NamesakesAre(password: string, x: Client, y: Client)
    requires x != y
    ensures var s := Namesakes(password, x, y);
            && s.client.Keys == {x, y} && s.mClients == map["a" := y] && s.unregistered == [x] && s.released == [] && s.processing == [x, y]
            && s.client[x].nickname == "a" && !s.client[x].bExpired && !s.client[x].bSocketClosed && s.client[x].channels == map[]
            && s.client[y].nickname == "a" && s.client[y].Active() && !s.client[y].bSocketClosed
  {
  }

  lemma NamesakesEnrolled(password: string, trace: seq<World>, events: seq<Event>, mades: seq<Made>)
    requires IsRun(trace, events, mades) && trace[0] == Start(password) && |events| >= 8 && events[..8] == NamesakeEvents(password)
    ensures var x, y := mades[0].client, mades[3].client;
            x != null && y != null && x != y && trace[8] == World(Namesakes(password, x, y), [x, y])
  {
    StartIsValid(password);
    CoreOf(Start(password).server);
    CoreAlways(trace, events, mades, 3);
    NamesakeEventsAre(password, events);
    hide *;
    StepAt(trace, events, mades, 0);
    StepAt(trace, events, mades, 1);
    StepAt(trace, events, mades, 2);
    FreshClient(trace[0], mades[0]);
    var x := mades[0].client;
    NewSteps(trace[0].server, x, "a");
    ConnectsAndReceives(trace[0], mades[0]);
    LastDoes(trace[0], x, Given("", "", "", ""), Nick(["a"]), mades[2]);
    StartIs(password);
    Enrols(trace, events, mades, 3, "a");
  }

  lemma StartIs(password: string)
    ensures var s := Start(password).server; s.mClients == map[] && s.password == password && Start(password).connected == []
  {
  }

  lemma NamesakeEventsAre(password: string, events: seq<Event>)
    requires |events| >= 8 && events[..8] == NamesakeEvents(password)
    ensures events[0] == Connect && events[1] == Receive(0) && events[2] == Do(0, Nick(["a"])) && events[3..8] == Enrolment(1, password, "a")
  {
    assert events[..8][0] == events[0] && events[..8][1] == events[1] && events[..8][2] == events[2];
    assert events[..8][3..8] == events[3..8];
  }

  /** When the first is lost, the second is destroyed: it was active, and its socket is open. */
  lemma NamesakeDestroyed(password: string, trace: seq<World>, mades: seq<Made>)
    requires IsRun(trace, NamesakeEvents(password) + [ProcessingDone, Lost(0)], mades) && trace[0] == Start(password)
    ensures var y, s := mades[3].client, trace[9].server;
            && y != null && y in s.client && s.client[y].Active() && FiledUnder(s, y) && !s.client[y].bSocketClosed
            && y !in trace[10].server.client
  {
    var events := NamesakeEvents(password) + [ProcessingDone, Lost(0)];
    assert events[..8] == NamesakeEvents(password) && events[8] == ProcessingDone && events[9] == Lost(0);
    hide *;
    NamesakesEnrolled(password, trace, events, mades);
    StepAt(trace, events, mades, 8);
    StepAt(trace, events, mades, 9);
    var x, y := mades[0].client, mades[3].client;
    NamesakesAre(password, x, y);
    NamesakesProcessed(password, x, y);
    var s := Namesakes(password, x, y).(processing := []);
    OthersErased(s, x, y);
    QueueIsDone(trace[8], mades[8]);
    Happens(World(s, [x, y]), 0, mades[9]);
    IsFiledUnder(s, y, "a");
  }

  lemma IsFiledUnder(s: State, y: Client, n: string)
    requires y in s.client && s.client[y].nickname == n && s.mClients == map[n := y]
    ensures FiledUnder(s, y)
  {
  }

  lemma NamesakesProcessed(password: string, x: Client, y: Client)
    requires x != y
    ensures Processed(Namesakes(password, x, y)) == Namesakes(password, x, y).(processing := [])
  {
    NamesakesAre(password, x, y);
    hide Namesakes;
    var s := Namesakes(password, x, y).(processing := []);
    assert s.mClients["a"] == y && s.unregistered[0] == x && Owned(s, x) && Owned(s, y);
    assert Swept(s).client == s.client;
  }

  lemma OthersErased(s: State, x: Client, y: Client)
    requires x in s.client && !s.client[x].bSocketClosed && s.client[x].nickname == "a" && s.mClients == map["a" := y] && x != y
    requires s.unregistered == [x] && s.released == [] && s.processing == []
    ensures y !in ForceDisconnected(s, x).client
  {
    hide Delisted;
    var t := CutOff(s, x);
    assert t.mClients == map[];
    assert !Owned(t, y);
  }

  /** If it is still waiting to be processed it goes on, active and in no directory. */
  lemma NamesakeUnfiled(password: string, trace: seq<World>, mades: seq<Made>)
    requires IsRun(trace, NamesakeEvents(password) + [Lost(0)], mades) && trace[0] == Start(password)
    ensures var y, t := mades[3].client, trace[9].server;
            y != null && y in t.client && t.client[y].Active() && y !in t.mClients.Values && !InSync(t)
  {
    var events := NamesakeEvents(password) + [Lost(0)];
    NamesakesEnrolled(password, trace, events, mades);
    StepAt(trace, events, mades, 8);
    hide IsRun;
    var x, y := mades[0].client, mades[3].client;
    NamesakesAre(password, x, y);
    hide Namesakes;
    GoesOn(Namesakes(password, x, y), x, y);
    hide ForceDisconnected;
    assert !FiledUnder(trace[9].server, y);
  }

  lemma GoesOn(s: State, x: Client, y: Client)
    requires x in s.client && y in s.client && !s.client[x].bSocketClosed && s.client[x].nickname == "a" && s.mClients == map["a" := y] && x != y
    requires s.unregistered == [x] && s.released == [] && s.processing == [x, y]
    ensures var t := ForceDisconnected(s, x); y in t.client && t.client[y] == s.client[y] && t.mClients == map[]
  {
    hide Delisted;
    var t := CutOff(s, x);
    assert t.mClients == map[];
    assert s.processing[1] == y && Owned(t, y);
  }

  // ----- A rename leaves the old key -----

  function RenameEvents(password: string): seq<Event> {
    Enrolment(0, password, "a") + [Do(0, Join(["#c"], [])), Do(0, Nick(["b"]))]
  }

  /** A client joins a channel and takes another nickname: the channel lists it under both. */
  lemma RenameLeavesOldKey(password: string, trace: seq<World>, mades: seq<Made>)
    requires IsRun(trace, RenameEvents(password), mades) && trace[0] == Start(password)
    ensures |mades| == 7 && |mades[5].channels| == 1
    ensures var x, ch, t := mades[0].client, mades[5].channels[0], trace[7].server;
            && x != null && ch != null && ch in t.channel && t.channel[ch].clients == map["a" := x, "b" := x]
            && x in t.client && t.client[x].nickname == "b" && !InSync(t)
  {
    var events := RenameEvents(password);
    StartIsValid(password);
    CoreOf(Start(password).server);
    assert events[..5] == Enrolment(0, password, "a") && events[5] == Do(0, Join(["#c"], [])) && events[6] == Do(0, Nick(["b"]));
    hide Core, IsRun, Enrolment;
    Enrols(trace, events, mades, 0, "a");
    StepAt(trace, events, mades, 5);
    StepAt(trace, events, mades, 6);
    var x := mades[0].client;
    FreshJoin(password, x, trace[5], mades[5]);
    var ch := mades[5].channels[0];
    JoinsOne(password, x, ch);
    RenamesOne(password, x, ch);
    Does(trace[5], 0, Join(["#c"], []), mades[5]);
    Does(trace[6], 0, Nick(["b"]), mades[6]);
    hide *;
  }

  lemma FreshJoin(password: string, x: Client, w: World, made: Made)
    requires w == World(WithRegistered(Start(password).server, x, "a"), [x]) && Fresh(w, Do(0, Join(["#c"], [])), made)
    ensures |made.channels| == 1 && made.channels[0] != null && x in w.server.client && x in w.server.processing
  {
    var s, names, keys: seq<string> := w.server, ["#c"], [];
    assert x in s.processing && Runner(w, Do(0, Join(names, keys))) == x;
    assert MadeAt(JoinedAll(s, x, names[..0], keys, made.channels[..0]), x, names[0], made.channels[0]);
    assert Creates(s, x, "#c");
  }

  /** The server with the client in the channel that it made. */
  function Joined(password: string, x: Client, ch: Channel): State {
    Created(WithRegistered(Start(password).server, x, "a"), x, "#c", ch)
  }

  lemma JoinsOne(password: string, x: Client, ch: Channel)
    ensures var s := WithRegistered(Start(password).server, x, "a");
            x in s.client && Commanded(s, x, Join(["#c"], []), [ch]) == Joined(password, x, ch)
  {
    var s, names, made := WithRegistered(Start(password).server, x, "a"), ["#c"], [ch];
    assert names[..0] == [] && made[..0] == [] && made != [];
    assert Creates(s, x, "#c");
    hide Created, WithRegistered, Creates;
    assert JoinedAll(s, x, names[..0], [], made[..0]) == s;
    assert JoinedAll(s, x, names, [], made) == JoinedOne(s, x, names[0], "", made[0]);
  }

  lemma JoinedIs(password: string, x: Client, ch: Channel)
    ensures var s := Joined(password, x, ch);
            && s.client.Keys == {x} && s.mClients == map["a" := x] && s.processing == [x] && s.client[x].Active()
            && s.client[x].nickname == "a" && s.client[x].channels == map["#c" := ch]
            && ch in s.channel && s.channel[ch].clients == map["a" := x]
  {
  }

  lemma RenamesOne(password: string, x: Client, ch: Channel)
    ensures var s := Joined(password, x, ch);
            && x in s.client && x in s.processing
            && var t := Commanded(s, x, Nick(["b"]), []);
            && ch in t.channel && t.channel[ch].clients == map["a" := x, "b" := x]
            && x in t.client && t.client[x].nickname == "b" && !InSync(t)
  {
    JoinedIs(password, x, ch);
    hide Joined;
    var s := Joined(password, x, ch);
    assert ch in s.client[x].channels.Values by { assert s.client[x].channels["#c"] == ch; }
    var u := Refiled(s, x, "b");
    assert u.processing[0] == x && Owned(u, x);
    var t := Renamed(s, x, "b");
    assert t.channel[ch].clients == map["a" := x, "b" := x];
    assert Nicked(s, x, ["b"]) == t;
    assert !EntryFits(t, "a", t.channel[ch].clients["a"]);
  }
}
