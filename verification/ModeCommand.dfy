/** MODE on a channel: one loop over the letters of the mode string, which share a sign and draw their
    parameters from the remaining arguments. */
module ModeCommand {
  import opened ServerState
  import opened Transitions
  import opened Membership

  /** The mode fields of a channel. */
  datatype Modes = Modes(operators: map<string, Client>, bInviteOnly: bool, bTopicProtected: bool, password: string,
                         bPrivate: bool, maxClients: nat)

  function ModesOf(x: ChannelState): Modes {
    Modes(x.operators, x.bInviteOnly, x.bTopicProtected, x.password, x.bPrivate, x.maxClients)
  }

  function WithModes(x: ChannelState, m: Modes): ChannelState {
    x.(operators := m.operators, bInviteOnly := m.bInviteOnly, bTopicProtected := m.bTopicProtected,
       password := m.password, bPrivate := m.bPrivate, maxClients := m.maxClients)
  }

  datatype Change = Operator(nickname: string, target: Client) | InviteOnly | TopicProtected | Key(key: string) | Limit(text: string)

  datatype Refusal = NeedMoreParams | ChanOPrivsNeeded | NoSuchNick | UnknownMode

  function Letter(c: Change): char {
    match c
    case Operator(_, _) => 'o'
    case InviteOnly => 'i'
    case TopicProtected => 't'
    case Key(_) => 'k'
    case Limit(_) => 'l'
  }

  function Letters(cs: seq<Change>): (s: string)
    ensures |s| == |cs| && forall i :: 0 <= i < |cs| ==> s[i] == Letter(cs[i])
  {
    seq(|cs|, i requires 0 <= i < |cs| => Letter(cs[i]))
  }

  /** What a reported change means for the channel. */
  function Apply(m: Modes, bAdd: bool, c: Change): Modes {
    match c
    case Operator(n, t) => m.(operators := if bAdd then m.operators[n := t] else m.operators - {n})
    case InviteOnly => m.(bInviteOnly := bAdd)
    case TopicProtected => m.(bTopicProtected := bAdd)
    case Key(k) => m.(password := if bAdd then k else "", bPrivate := bAdd)
    case Limit(text) => m.(maxClients := if bAdd && Atoi(text) > 0 then Atoi(text) else 0)
  }

  function Replay(m: Modes, bAdd: bool, cs: seq<Change>): Modes {
    if cs == [] then m else Apply(Replay(m, bAdd, cs[..|cs| - 1]), bAdd, cs[|cs| - 1])
  }

  lemma ReplayPush(m: Modes, bAdd: bool, cs: seq<Change>, c: Change)
    ensures Replay(m, bAdd, cs + [c]) == Apply(Replay(m, bAdd, cs), bAdd, c)
    ensures Letters(cs + [c]) == Letters(cs) + [Letter(c)]
  {
    assert (cs + [c])[..|cs|] == cs;
  }

  // ----- atoi -----

  predicate IsSpace(c: char) {
    c == ' ' || '\t' <= c <= '\r'
  }

  function Digits(s: string, value: int): int {
    if s == "" || !('0' <= s[0] <= '9') then value else Digits(s[1..], value * 10 + (s[0] - '0') as int)
  }

  function Atoi(s: string): int {
    if s == "" then 0
    else if IsSpace(s[0]) then Atoi(s[1..])
    else if s[0] == '-' then -Digits(s[1..], 0)
    else if s[0] == '+' then Digits(s[1..], 0)
    else Digits(s, 0)
  }

  // ----- One letter -----

  /** What stays the same during the loop: the arguments, the sender's nickname, the sign and the unexpired
      clients of the directory. */
  datatype Call = Call(arguments: seq<string>, nickname: string, bAdd: bool, filed: map<string, Client>)

  /** looked lists the nicknames looked up; bOverrun is set where the program would read past its arguments, and
      nothing is said of what follows. */
  datatype Tally = Tally(modes: Modes, modeIndex: nat, changes: seq<Change>, refusals: seq<Refusal>, looked: seq<string>, bOverrun: bool)

  function Refuse(st: Tally, r: Refusal): Tally {
    st.(refusals := st.refusals + [r])
  }

  function Accept(call: Call, st: Tally, c: Change): Tally {
    st.(modes := Apply(st.modes, call.bAdd, c), changes := st.changes + [c])
  }

  function StepOperator(call: Call, st: Tally): Tally {
    if |call.arguments| < 3 then Refuse(st, NeedMoreParams)
    else if call.nickname !in st.modes.operators then Refuse(st, ChanOPrivsNeeded)
    else if st.modeIndex >= |call.arguments| then st.(bOverrun := true)
    else
      var n := call.arguments[st.modeIndex];
      var next := st.(modeIndex := st.modeIndex + 1, looked := st.looked + [n]);
      if n !in call.filed then Refuse(next, NoSuchNick) else Accept(call, next, Operator(n, call.filed[n]))
  }

  function StepKey(call: Call, st: Tally): Tally {
    if !call.bAdd then Accept(call, st, Key(""))
    else if st.modeIndex >= |call.arguments| then Refuse(st, NeedMoreParams)
    else Accept(call, st.(modeIndex := st.modeIndex + 1), Key(call.arguments[st.modeIndex]))
  }

  function StepLimit(call: Call, st: Tally): Tally {
    if !call.bAdd then Accept(call, st, Limit(""))
    else if st.modeIndex >= |call.arguments| then Refuse(st, NeedMoreParams)
    else
      var text := call.arguments[st.modeIndex];
      var next := st.(modeIndex := st.modeIndex + 1);
      if Atoi(text) <= 0 then Refuse(next, NeedMoreParams) else Accept(call, next, Limit(text))
  }

  function Step(call: Call, st: Tally, mode: char): Tally {
    if st.bOverrun then st
    else if mode == 'o' then StepOperator(call, st)
    else if mode !in "itkl" then Refuse(st, UnknownMode)
    else if call.nickname !in st.modes.operators then Refuse(st, ChanOPrivsNeeded)
    else if mode == 'i' then Accept(call, st, InviteOnly)
    else if mode == 't' then Accept(call, st, TopicProtected)
    else if mode == 'k' then StepKey(call, st)
    else StepLimit(call, st)
  }

  function Run(call: Call, m: Modes, letters: string): Tally {
    if letters == "" then Tally(m, 2, [], [], [], false)
    else Step(call, Run(call, m, letters[..|letters| - 1]), letters[|letters| - 1])
  }

  // ----- What a run does -----

  /** The letter made the change c, and the sender was an operator. */
  ghost predicate Made(call: Call, st: Tally, mode: char, next: Tally, c: Change) {
    && next.changes == st.changes + [c] && Letter(c) == mode && next.refusals == st.refusals
    && next.modes == Apply(st.modes, call.bAdd, c) && call.nickname in st.modes.operators
  }

  /** A letter makes one change, or is refused, or is lost to an overrun; only the first touches the channel. */
  lemma StepAnswers(call: Call, st: Tally, mode: char) returns (made: bool, c: Change)
    ensures var next := Step(call, st, mode);
            if made then !next.bOverrun && Made(call, st, mode, next, c)
            else next.changes == st.changes && next.modes == st.modes
                 && (next.bOverrun || |next.refusals| == |st.refusals| + 1)
    ensures st.bOverrun ==> Step(call, st, mode).bOverrun
  {
    hide Atoi;
    var next := Step(call, st, mode);
    made := next.changes != st.changes;
    c := if made then next.changes[|st.changes|] else InviteOnly;
  }

  /** The channel ends up as the reported changes, and nothing else, make it. */
  lemma {:induction false} RunIsReplay(call: Call, m: Modes, letters: string)
    ensures var st := Run(call, m, letters); st.modes == Replay(m, call.bAdd, st.changes)
  {
    hide Step, Apply;
    if letters != "" {
      var st := Run(call, m, letters[..|letters| - 1]);
      RunIsReplay(call, m, letters[..|letters| - 1]);
      var made, c := StepAnswers(call, st, letters[|letters| - 1]);
      ReplayPush(m, call.bAdd, st.changes, c);
    }
  }

  /** Every change is made while the sender is an operator of the channel. */
  lemma {:induction false} ChangedByOperator(call: Call, m: Modes, letters: string, i: nat)
    requires i < |Run(call, m, letters).changes|
    ensures call.nickname in Replay(m, call.bAdd, Run(call, m, letters).changes[..i]).operators
  {
    hide Step, Apply;
    if letters != "" {
      var init := letters[..|letters| - 1];
      var st, next := Run(call, m, init), Run(call, m, letters);
      var made, c := StepAnswers(call, st, letters[|letters| - 1]);
      assert next.changes[..|st.changes|] == st.changes;
      if i < |st.changes| {
        ChangedByOperator(call, m, init, i);
        assert next.changes[..i] == st.changes[..i];
      } else {
        RunIsReplay(call, m, init);
      }
    }
  }

  /** So a sender that takes the privilege from itself changes nothing more. */
  lemma NothingAfterSelf(call: Call, m: Modes, letters: string, i: nat)
    requires i < |Run(call, m, letters).changes| && !call.bAdd
    requires Run(call, m, letters).changes[i].Operator? && Run(call, m, letters).changes[i].nickname == call.nickname
    ensures i == |Run(call, m, letters).changes| - 1
  {
    var cs := Run(call, m, letters).changes;
    if i + 1 < |cs| {
      ReplayPush(m, call.bAdd, cs[..i], cs[i]);
      assert cs[..i + 1] == cs[..i] + [cs[i]];
      ChangedByOperator(call, m, letters, i + 1);
    }
  }

  /** The key is empty while the channel is not private. */
  predicate KeyOnlyIfPrivate(m: Modes) {
    m.bPrivate || m.password == ""
  }

  lemma {:induction false} KeyStaysWithPrivate(call: Call, m: Modes, letters: string)
    requires KeyOnlyIfPrivate(m)
    ensures KeyOnlyIfPrivate(Run(call, m, letters).modes)
  {
    if letters != "" {
      KeyStaysWithPrivate(call, m, letters[..|letters| - 1]);
    }
  }

  /** The elements of s in order, with some left out, make t. */
  predicate Subsequence<T(==)>(t: seq<T>, s: seq<T>) {
    if t == [] then true
    else if s == [] then false
    else if t[|t| - 1] == s[|s| - 1] then Subsequence(t[..|t| - 1], s[..|s| - 1])
    else Subsequence(t, s[..|s| - 1])
  }

  lemma {:induction false} SubsequenceSkips<T>(t: seq<T>, s: seq<T>)
    requires Subsequence(t, s) && t != []
    ensures Subsequence(t[..|t| - 1], s)
  {
    var u, r := t[..|t| - 1], s[..|s| - 1];
    if t[|t| - 1] == s[|s| - 1] {
      if u != [] {
        SubsequenceSkips(u, r);
      }
    } else {
      SubsequenceSkips(t, r);
      if u != [] && u[|u| - 1] == s[|s| - 1] {
        SubsequenceSkips(u, r);
      }
    }
  }

  /** Each letter is either reported or refused, once; the reported ones keep their order. */
  lemma {:induction false} EveryLetterAnswered(call: Call, m: Modes, letters: string)
    requires !Run(call, m, letters).bOverrun
    ensures var st := Run(call, m, letters);
            |st.changes| + |st.refusals| == |letters| && Subsequence(Letters(st.changes), letters)
  {
    hide Step, Letter;
    if letters != "" {
      var init, mode := letters[..|letters| - 1], letters[|letters| - 1];
      var st := Run(call, m, init);
      var made, c := StepAnswers(call, st, mode);
      EveryLetterAnswered(call, m, init);
      var t := Letters(st.changes);
      if made {
        ReplayPush(m, call.bAdd, st.changes, c);
        assert (t + [mode])[..|t|] == t;
      } else if t != "" && t[|t| - 1] == mode {
        SubsequenceSkips(t, init);
      }
    }
  }

  function Parameter(bAdd: bool, c: Change): seq<string> {
    match c
    case Operator(n, _) => [n]
    case Key(k) => if bAdd then [k] else []
    case Limit(text) => if bAdd then [text] else []
    case _ => []
  }

  /** The parameters of the changes. */
  function Parameters(bAdd: bool, cs: seq<Change>): seq<string> {
    if cs == [] then [] else Parameters(bAdd, cs[..|cs| - 1]) + Parameter(bAdd, cs[|cs| - 1])
  }

  ghost predicate TargetsFiled(call: Call, cs: seq<Change>) {
    forall c :: c in cs && c.Operator? ==> c.nickname in call.filed && c.target == call.filed[c.nickname]
  }

  lemma SubsequenceGrows<T>(t: seq<T>, s: seq<T>, x: T)
    requires Subsequence(t, s)
    ensures Subsequence(t, s + [x]) && Subsequence(t + [x], s + [x])
  {
    assert (s + [x])[..|s|] == s && (t + [x])[..|t|] == t;
    if t != [] && t[|t| - 1] == x {
      SubsequenceSkips(t, s);
    }
  }

  function Min(a: int, b: int): int {
    if a < b then a else b
  }

  /** A letter reads at most the argument the index is at, and a change takes its parameter from there. */
  lemma StepReads(call: Call, st: Tally, mode: char) returns (cs: seq<Change>)
    requires 2 <= st.modeIndex <= |call.arguments|
    ensures var next := Step(call, st, mode);
            && next.changes == st.changes + cs && |cs| <= 1 && TargetsFiled(call, cs)
            && st.modeIndex <= next.modeIndex <= st.modeIndex + 1 && next.modeIndex <= |call.arguments|
            && (cs != [] && Parameter(call.bAdd, cs[0]) != [] ==>
                next.modeIndex == st.modeIndex + 1 && Parameter(call.bAdd, cs[0]) == [call.arguments[st.modeIndex]])
  {
    hide Atoi;
    cs := Step(call, st, mode).changes[|st.changes|..];
  }

  /** Each argument is the parameter of at most one change, and they are used in order. */
  lemma {:induction false} ParametersInOrder(call: Call, m: Modes, letters: string)
    requires |call.arguments| >= 2
    ensures var st := Run(call, m, letters);
            && 2 <= st.modeIndex <= |call.arguments| && TargetsFiled(call, st.changes)
            && Subsequence(Parameters(call.bAdd, st.changes), call.arguments[2..st.modeIndex])
  {
    if letters != "" {
      var init := letters[..|letters| - 1];
      ParametersInOrder(call, m, init);
      ParametersStep(call, Run(call, m, init), letters[|letters| - 1]);
    } else {
      NothingIsSubsequence(call.arguments[2..2]);
    }
  }

  lemma ParametersStep(call: Call, st: Tally, mode: char)
    requires 2 <= st.modeIndex <= |call.arguments| && TargetsFiled(call, st.changes)
    requires Subsequence(Parameters(call.bAdd, st.changes), call.arguments[2..st.modeIndex])
    ensures var next := Step(call, st, mode);
            && 2 <= next.modeIndex <= |call.arguments| && TargetsFiled(call, next.changes)
            && Subsequence(Parameters(call.bAdd, next.changes), call.arguments[2..next.modeIndex])
  {
    hide *;
    var next := Step(call, st, mode);
    var cs := StepReads(call, st, mode);
    var i := st.modeIndex;
    var ps := Parameters(call.bAdd, st.changes);
    TargetsOfSum(call, st.changes, cs);
    if cs == [] {
      assert st.changes + cs == st.changes;
    } else {
      assert cs == [cs[0]];
      ParametersPush(call.bAdd, st.changes, cs[0]);
      assert ps + [] == ps;
    }
    if next.modeIndex != i {
      assert call.arguments[2..i + 1] == call.arguments[2..i] + [call.arguments[i]];
      SubsequenceGrows(ps, call.arguments[2..i], call.arguments[i]);
    }
  }

  lemma ParametersPush(bAdd: bool, cs: seq<Change>, c: Change)
    ensures Parameters(bAdd, cs + [c]) == Parameters(bAdd, cs) + Parameter(bAdd, c)
  {
    assert (cs + [c])[..|cs|] == cs;
  }

  lemma TargetsOfSum(call: Call, a: seq<Change>, b: seq<Change>)
    requires TargetsFiled(call, a) && TargetsFiled(call, b)
    ensures TargetsFiled(call, a + b)
  {
  }

  lemma NothingIsSubsequence(s: seq<string>)
    ensures Subsequence([], s)
  {
  }

  // ----- When the arguments run out -----

  /** The letters that take an argument. */
  function Takers(bAdd: bool, letters: string): nat {
    if letters == "" then 0
    else Takers(bAdd, letters[..|letters| - 1])
         + if letters[|letters| - 1] == 'o' || (bAdd && letters[|letters| - 1] in "kl") then 1 else 0
  }

  /** Some 'o' finds the arguments used up. */
  ghost predicate OutOfArguments(call: Call, letters: string) {
    exists p :: 0 <= p < |letters| && letters[p] == 'o' && Takers(call.bAdd, letters[..p]) >= |call.arguments| - 2
  }

  /** The program reads past its arguments. */
  ghost predicate Overruns(call: Call, m: Modes, letters: string) {
    call.nickname in m.operators && |call.arguments| >= 3 && OutOfArguments(call, letters) && !TakesOwn(call)
  }

  /** The sender takes the privilege from itself: it is found in the directory and named by a parameter. */
  predicate TakesOwn(call: Call)
    requires |call.arguments| >= 2
  {
    !call.bAdd && call.nickname in call.filed && call.nickname in call.arguments[2..]
  }

  lemma OutOfArgumentsStep(call: Call, letters: string)
    requires letters != ""
    ensures var init := letters[..|letters| - 1];
            OutOfArguments(call, letters) <==>
            OutOfArguments(call, init) || (letters[|letters| - 1] == 'o' && Takers(call.bAdd, init) >= |call.arguments| - 2)
  {
    var init := letters[..|letters| - 1];
    assert forall p :: 0 <= p < |init| ==> init[p] == letters[p] && init[..p] == letters[..p];
  }

  /** While the sender is an operator, each parameter-taking letter has used one argument, and none of the
      arguments used made it take the privilege from itself. */
  ghost predicate InStep(call: Call, st: Tally, taken: nat)
    requires |call.arguments| >= 3
  {
    var n := |call.arguments|;
    && 2 <= st.modeIndex <= n
    && if call.nickname in st.modes.operators
       then st.modeIndex == Min(2 + taken, n)
            && (call.bAdd || call.nickname !in call.filed || call.nickname !in call.arguments[2..st.modeIndex])
       else TakesOwn(call)
  }

  lemma StepInStep(call: Call, st: Tally, mode: char, taken: nat)
    requires |call.arguments| >= 3 && !st.bOverrun && InStep(call, st, taken)
    ensures var next := Step(call, st, mode);
            var takes := mode == 'o' || (call.bAdd && mode in "kl");
            && (!next.bOverrun ==> InStep(call, next, taken + if takes then 1 else 0))
            && (next.bOverrun <==> mode == 'o' && call.nickname in st.modes.operators && 2 + taken >= |call.arguments|)
            && (next.bOverrun ==> !TakesOwn(call))
  {
    hide Atoi;
    var i := st.modeIndex;
    if i < |call.arguments| {
      assert call.arguments[2..i + 1] == call.arguments[2..i] + [call.arguments[i]];
      assert call.arguments[i] in call.arguments[2..];
    } else {
      assert call.arguments[2..i] == call.arguments[2..];
    }
  }

  lemma {:induction false} RunInStep(call: Call, m: Modes, letters: string)
    requires |call.arguments| >= 3 && call.nickname in m.operators
    ensures var st := Run(call, m, letters);
            && (st.bOverrun <==> OutOfArguments(call, letters) && !TakesOwn(call))
            && (!st.bOverrun ==> InStep(call, st, Takers(call.bAdd, letters)))
  {
    if letters != "" {
      var init := letters[..|letters| - 1];
      RunInStep(call, m, init);
      OutOfArgumentsStep(call, letters);
      hide OutOfArguments;
      if !Run(call, m, init).bOverrun {
        StepInStep(call, Run(call, m, init), letters[|letters| - 1], Takers(call.bAdd, init));
      }
    }
  }

  /** Without the privilege, or without a parameter, nothing is read at all. */
  lemma {:induction false} RunNoReads(call: Call, m: Modes, letters: string)
    requires |call.arguments| == 2 || (|call.arguments| >= 3 && call.nickname !in m.operators)
    ensures var st := Run(call, m, letters); !st.bOverrun && st.modeIndex == 2
    ensures call.nickname !in m.operators ==> Run(call, m, letters).modes == m
  {
    if letters != "" {
      RunNoReads(call, m, letters[..|letters| - 1]);
    }
  }

  /** The program reads past its arguments exactly if the sender is an operator, there is a parameter, some
      'o' comes after as many parameter-taking letters as there are parameters, and the sender does not take
      the privilege from itself first. */
  lemma OverrunsExactly(call: Call, m: Modes, letters: string)
    requires |call.arguments| >= 2
    ensures Run(call, m, letters).bOverrun <==> Overruns(call, m, letters)
  {
    if |call.arguments| >= 3 && call.nickname in m.operators {
      RunInStep(call, m, letters);
    } else {
      RunNoReads(call, m, letters);
    }
  }

  /** Two letters and one parameter are enough. */
  lemma OneParameterForTwo(m: Modes, channelName: string, nickname: string, target: string, filed: map<string, Client>)
    requires nickname in m.operators
    ensures Run(Call([channelName, "+oo", target], nickname, true, filed), m, "oo").bOverrun
  {
    var call := Call([channelName, "+oo", target], nickname, true, filed);
    assert "oo"[..1] == "o" && "o"[..0] == "";
    assert Takers(true, "oo"[..1]) == 1;
    OverrunsExactly(call, m, "oo");
  }

  // ----- The handler -----

  /** The unexpired clients of the directory. */
  function FiledIn(s: State): map<string, Client> {
    map n | n in s.mClients && Found(s, n) != null :: s.mClients[n]
  }

  lemma FiledInIs(s: State, n: string)
    ensures n in FiledIn(s) <==> Found(s, n) != null
    ensures n in FiledIn(s) ==> FiledIn(s)[n] == Found(s, n)
  {
  }

  /** A lookup leaves the unexpired clients of the directory as they are. */
  lemma LookupKeepsFiled(s: State, n: string)
    requires Core(s)
    ensures FiledIn(Lookup(s, n)) == FiledIn(s)
  {
    LookupKeeps(s, n);
    var t := Lookup(s, n);
    forall m ensures m in FiledIn(t) <==> m in FiledIn(s) {
      assert Found(t, m) == Found(s, m);
    }
    forall m | m in FiledIn(s) ensures FiledIn(t)[m] == FiledIn(s)[m] {
      assert Found(t, m) == Found(s, m);
    }
  }

  /** The live channel of that name is reached, with a mode string that starts with a sign. */
  predicate Reaches(s: State, c: Client, arguments: seq<string>)
    requires c in s.client
  {
    && s.client[c].Active() && |arguments| >= 2 && IsChannelName(arguments[0])
    && FoundChannel(s, arguments[0]) != null && FoundChannel(s, arguments[0]) in s.channel
    && arguments[1] != "" && arguments[1][0] in "+-"
  }

  function CallOf(s: State, c: Client, arguments: seq<string>): Call
    requires c in s.client && |arguments| >= 2 && arguments[1] != ""
  {
    Call(arguments, s.client[c].nickname, arguments[1][0] == '+', FiledIn(s))
  }

  /** What the loop does to the channel reached. */
  function TallyOf(s: State, c: Client, arguments: seq<string>): Tally
    requires c in s.client && Reaches(s, c, arguments)
  {
    Run(CallOf(s, c, arguments), ModesOf(s.channel[FoundChannel(s, arguments[0])]), arguments[1][1..])
  }

  function Moded(s: State, c: Client, arguments: seq<string>): State
    requires c in s.client
  {
    if !Reaches(s, c, arguments) then s
    else
      var ch, st := FoundChannel(s, arguments[0]), TallyOf(s, c, arguments);
      LookedUp(s, st.looked).(channel := s.channel[ch := WithModes(s.channel[ch], st.modes)])
  }

  lemma ModedKeeps(s: State, c: Client, arguments: seq<string>)
    requires Core(s) && Runs(s, c)
    ensures Core(Moded(s, c, arguments)) && (InSync(s) ==> InSync(Moded(s, c, arguments)))
  {
    if Reaches(s, c, arguments) {
      var ch, st := FoundChannel(s, arguments[0]), TallyOf(s, c, arguments);
      LookedUpKeeps(s, st.looked);
      KeyedAt(s, ch);
      KeyStaysWithPrivate(CallOf(s, c, arguments), ModesOf(s.channel[ch]), arguments[1][1..]);
      hide Core, InSync, Run, LookedUp;
      RetunedKeeps(LookedUp(s, st.looked), ch, WithModes(s.channel[ch], st.modes));
    }
  }

  /** MODE on a reached channel changes no other channel, and makes of this one the replay of exactly the letters it
      reports, each of them reported while the sender was an operator; it reads past its arguments exactly as said. */
  lemma ModedReplays(s: State, c: Client, arguments: seq<string>)
    requires Core(s) && Runs(s, c) && Reaches(s, c, arguments)
    ensures var ch, st, t := FoundChannel(s, arguments[0]), TallyOf(s, c, arguments), Moded(s, c, arguments);
            var call, m := CallOf(s, c, arguments), ModesOf(s.channel[ch]);
            && t.channel == s.channel[ch := t.channel[ch]] && ModesOf(t.channel[ch]) == Replay(m, call.bAdd, st.changes)
            && t.channel[ch] == WithModes(s.channel[ch], ModesOf(t.channel[ch]))
            && (forall i :: 0 <= i < |st.changes| ==> s.client[c].nickname in Replay(m, call.bAdd, st.changes[..i]).operators)
            && (st.bOverrun <==> Overruns(call, m, arguments[1][1..]))
            && (forall d :: d in t.client ==> d in s.client && t.client[d] == s.client[d])
  {
    var ch, st := FoundChannel(s, arguments[0]), TallyOf(s, c, arguments);
    var call, m := CallOf(s, c, arguments), ModesOf(s.channel[ch]);
    LookedUpKeeps(s, st.looked);
    RunIsReplay(call, m, arguments[1][1..]);
    OverrunsExactly(call, m, arguments[1][1..]);
    forall i | 0 <= i < |st.changes| ensures call.nickname in Replay(m, call.bAdd, st.changes[..i]).operators {
      ChangedByOperator(call, m, arguments[1][1..], i);
    }
    hide Core, InSync, Run, Replay, LookedUp, Overruns;
  }

  // ----- The loop -----

  /** How a case of the switch ends. */
  datatype Outcome = Changed | Refused(r: Refusal) | ReadsPast

  /** end differs from st by the outcome, the channel's new modes, the index and the lookups. */
  ghost predicate Follows(st: Tally, end: Tally, mode: char, x: ChannelState, modeIndex: nat, outcome: Outcome) {
    && end.modes == ModesOf(x) && end.modeIndex == modeIndex
    && end.refusals == st.refusals + (if outcome.Refused? then [outcome.r] else [])
    && (if outcome.Changed? then Letters(end.changes) == Letters(st.changes) + [mode] else end.changes == st.changes)
    && end.bOverrun == outcome.ReadsPast?
  }

  lemma AcceptFollows(call: Call, st: Tally, c: Change, x: ChannelState)
    requires !st.bOverrun && ModesOf(x) == Apply(st.modes, call.bAdd, c)
    ensures var end := Accept(call, st, c); Follows(st, end, Letter(c), x, end.modeIndex, Changed)
  {
    ReplayPush(st.modes, call.bAdd, st.changes, c);
  }

  /** The channel's modes are m. */
  function Tuned(s: State, ch: Channel, m: Modes): State {
    if ch in s.channel then s.(channel := s.channel[ch := WithModes(s.channel[ch], m)]) else s
  }

  /** The server after a step from st to end: one more lookup perhaps, and new modes. */
  function Moved(s: State, ch: Channel, st: Tally, end: Tally): State {
    Tuned(if |end.looked| > |st.looked| then Lookup(s, end.looked[|st.looked|]) else s, ch, end.modes)
  }

  lemma TunedSame(s: State, ch: Channel)
    ensures ch in s.channel ==> Tuned(s, ch, ModesOf(s.channel[ch])) == s
  {
    if ch in s.channel {
      assert s.channel[ch := s.channel[ch]] == s.channel;
    }
  }

  lemma TunedTwice(s: State, ch: Channel, m: Modes, m': Modes)
    ensures Tuned(Tuned(s, ch, m), ch, m') == Tuned(s, ch, m')
  {
    if ch in s.channel {
      var x := WithModes(s.channel[ch], m);
      assert s.channel[ch := x][ch := WithModes(x, m')] == s.channel[ch := WithModes(x, m')];
    }
  }

  /** Lookups and modes do not meet. */
  lemma LookupTuned(s: State, ch: Channel, m: Modes, n: string)
    ensures Lookup(Tuned(s, ch, m), n) == Tuned(Lookup(s, n), ch, m)
  {
    var t := Tuned(s, ch, m);
    if FiledExpired(s, n) {
      var u := s.(mClients := s.mClients - {n});
      assert forall c :: Owned(t.(mClients := t.mClients - {n}), c) == Owned(u, c);
      assert Swept(t.(mClients := t.mClients - {n})).client == Swept(u).client;
    }
  }

  /** A step at the end of the loop so far. */
  lemma MovedOn(s: State, ch: Channel, st: Tally, end: Tally)
    requires end.looked == st.looked || (|end.looked| == |st.looked| + 1 && end.looked[..|st.looked|] == st.looked)
    ensures Moved(Tuned(LookedUp(s, st.looked), ch, st.modes), ch, st, end) == Tuned(LookedUp(s, end.looked), ch, end.modes)
  {
    var t := LookedUp(s, st.looked);
    if |end.looked| > |st.looked| {
      LookupTuned(t, ch, st.modes, end.looked[|st.looked|]);
    }
    hide LookedUp, Lookup, Tuned;
    TunedTwice(if |end.looked| > |st.looked| then Lookup(t, end.looked[|st.looked|]) else t, ch, st.modes, end.modes);
    assert |end.looked| > |st.looked| ==> LookedUp(s, end.looked) == Lookup(t, end.looked[|st.looked|]) by { LookedUpLast(s, end.looked); }
  }

  lemma LookedUpLast(s: State, names: seq<string>)
    ensures names != [] ==> LookedUp(s, names) == Lookup(LookedUp(s, names[..|names| - 1]), names[|names| - 1])
  {
  }

  lemma TunedKeepsFiled(s: State, ch: Channel, m: Modes)
    ensures FiledIn(Tuned(s, ch, m)) == FiledIn(s)
  {
    assert forall n :: Found(Tuned(s, ch, m), n) == Found(s, n);
  }

  /** How the case for 'o' ends before anybody is looked up. */
  function EarlyEnd(call: Call, st: Tally): (o: Outcome)
  {
    if |call.arguments| < 3 then Refused(NeedMoreParams)
    else if call.nickname !in st.modes.operators then Refused(ChanOPrivsNeeded)
    else if st.modeIndex >= |call.arguments| then ReadsPast
    else Changed
  }

  lemma OperatorEarly(s: State, ch: Channel, call: Call, st: Tally, x: ChannelState)
    requires !st.bOverrun && st.modes == ModesOf(x) && !EarlyEnd(call, st).Changed? && Tuned(s, ch, st.modes) == s
    ensures Follows(st, StepOperator(call, st), 'o', x, st.modeIndex, EarlyEnd(call, st)) && Moved(s, ch, st, StepOperator(call, st)) == s
  {
  }

  function WithOperator(x: ChannelState, bAdd: bool, n: string, target: Client): ChannelState {
    x.(operators := if bAdd then x.operators[n := target] else x.operators - {n})
  }

  lemma OperatorUnfound(s: State, ch: Channel, call: Call, st: Tally, x: ChannelState)
    requires !st.bOverrun && EarlyEnd(call, st).Changed? && ch in s.channel && s.channel[ch] == x && st.modes == ModesOf(x)
    requires call.filed == FiledIn(s) && Found(s, call.arguments[st.modeIndex]) == null
    ensures var n, end := call.arguments[st.modeIndex], StepOperator(call, st);
            Follows(st, end, 'o', x, st.modeIndex + 1, Refused(NoSuchNick)) && Moved(s, ch, st, end) == Lookup(s, n)
  {
    var n := call.arguments[st.modeIndex];
    FiledInIs(s, n);
    TunedSame(Lookup(s, n), ch);
    hide Found, FiledIn;
  }

  lemma OperatorFound(s: State, ch: Channel, call: Call, st: Tally, x: ChannelState)
    requires !st.bOverrun && EarlyEnd(call, st).Changed? && ch in s.channel && s.channel[ch] == x && st.modes == ModesOf(x)
    requires call.filed == FiledIn(s) && Found(s, call.arguments[st.modeIndex]) != null
    ensures var n, end := call.arguments[st.modeIndex], StepOperator(call, st);
            var y := WithOperator(x, call.bAdd, n, Found(s, n));
            && Follows(st, end, 'o', y, st.modeIndex + 1, Changed)
            && ch in Lookup(s, n).channel && Lookup(s, n).channel[ch] == x
            && Moved(s, ch, st, end) == Lookup(s, n).(channel := Lookup(s, n).channel[ch := y])
  {
    var n := call.arguments[st.modeIndex];
    FiledInIs(s, n);
    LookupChannels(s, n);
    hide Found, FiledIn, Lookup;
    var next := st.(modeIndex := st.modeIndex + 1, looked := st.looked + [n]);
    ReplayPush(next.modes, call.bAdd, next.changes, Operator(n, Found(s, n)));
  }

  lemma LookupChannels(s: State, n: string)
    ensures Lookup(s, n).channel == s.channel
  {
  }

  lemma OperatorEnds(s: State, ch: Channel, call: Call, st: Tally, x: ChannelState)
    requires !st.bOverrun && EarlyEnd(call, st).Changed? && ch in s.channel && s.channel[ch] == x && st.modes == ModesOf(x) && Core(s)
    requires call.filed == FiledIn(s)
    ensures var n, end := call.arguments[st.modeIndex], StepOperator(call, st);
            var t, target := Lookup(s, n), Found(s, n);
            && ch in t.channel && t.channel[ch] == x
            && (target == null ==> Follows(st, end, 'o', x, st.modeIndex + 1, Refused(NoSuchNick)) && Moved(s, ch, st, end) == t)
            && (target != null ==>
                  && target in t.client && t.client[target].nickname == n
                  && Follows(st, end, 'o', WithOperator(x, call.bAdd, n, target), st.modeIndex + 1, Changed)
                  && Moved(s, ch, st, end) == t.(channel := t.channel[ch := WithOperator(x, call.bAdd, n, target)]))
  {
    var n := call.arguments[st.modeIndex];
    LookupChannels(s, n);
    if Found(s, n) == null {
      OperatorUnfound(s, ch, call, st, x);
    } else {
      TargetNamed(s, n);
      OperatorFound(s, ch, call, st, x);
    }
    hide *;
  }

  lemma EarlyEndSays(call: Call, st: Tally, ch: Channel)
    requires st.modes == ModesOf(ch.State())
    ensures EarlyEnd(call, st) == if |call.arguments| < 3 then Refused(NeedMoreParams)
                                  else if call.nickname !in ch.Operators then Refused(ChanOPrivsNeeded)
                                  else if st.modeIndex >= |call.arguments| then ReadsPast else Changed
  {
  }

  /** The case for 'o'. */
  method ModeOperator(s: Server, c: Client, ch: Channel, arguments: seq<string>, bAddMode: bool, modeIndex: nat, ghost st: Tally)
    returns (outcome: Outcome, next: nat)
    requires Core(s.Snap()) && ch in s.channels
    requires st == Tally(ModesOf(ch.State()), modeIndex, st.changes, st.refusals, st.looked, false)
    modifies s`mClients, s`objects, ch`Operators
    ensures s.objects <= old(s.objects)
    ensures var call := Call(arguments, c.Nickname, bAddMode, old(FiledIn(s.Snap())));
            Follows(st, StepOperator(call, st), 'o', ch.State(), next, outcome) && s.Snap() == Moved(old(s.Snap()), ch, st, StepOperator(call, st))
  {
    hide *;
    ghost var call := Call(arguments, c.Nickname, bAddMode, FiledIn(s.Snap()));
    ghost var was := s.Snap();
    s.ChannelAt(ch);
    TunedSame(was, ch);
    EarlyEndSays(call, st, ch);
    next := modeIndex;
    if !EarlyEnd(call, st).Changed? {
      OperatorEarly(was, ch, call, st, ch.State());
    } else {
      OperatorEnds(was, ch, call, st, ch.State());
    }
    if |arguments| < 3 {
      return Refused(NeedMoreParams), next;
    }
    if c.Nickname !in ch.Operators {
      return Refused(ChanOPrivsNeeded), next;
    }
    if modeIndex >= |arguments| {
      return ReadsPast, next;
    }
    var nickname := arguments[modeIndex];
    next := modeIndex + 1;
    var target := s.FindClientGlobal(nickname);
    if target == null {
      return Refused(NoSuchNick), next;
    }
    s.ClientAt(target);
    SetOperator(s, ch, target, bAddMode);
    return Changed, next;
  }

  lemma TargetNamed(s: State, n: string)
    requires Core(s) && Found(s, n) != null
    ensures Lookup(s, n) == s && Found(s, n) in s.client && s.client[Found(s, n)].nickname == n
  {
  }

  method SetOperator(s: Server, ch: Channel, target: Client, bAddMode: bool)
    requires ch in s.channels
    modifies ch`Operators
    ensures ch.State() == WithOperator(old(ch.State()), bAddMode, target.Nickname, target)
    ensures s.Snap() == old(s.Snap()).(channel := old(s.Snap()).channel[ch := ch.State()])
  {
    hide Server.ClientStates;
    if bAddMode {
      ch.Operators := ch.Operators[target.Nickname := target];
    } else {
      ch.Operators := ch.Operators - {target.Nickname};
    }
    assert s.ChannelStates() == old(s.ChannelStates())[ch := ch.State()];
  }

  /** The rest of the cases: 'i', 't', 'k' and 'l' ask for the privilege first. */
  method ModeFlag(s: Server, c: Client, ch: Channel, mode: char, arguments: seq<string>, bAddMode: bool, modeIndex: nat, ghost st: Tally,
                  ghost filed: map<string, Client>)
    returns (outcome: Outcome, next: nat)
    requires mode in "itkl" && ch in s.channels
    requires st == Tally(ModesOf(ch.State()), modeIndex, st.changes, st.refusals, st.looked, false)
    modifies ch`bInviteOnly, ch`bTopicProtected, ch`Password, ch`bPrivate, ch`MaxClients
    ensures var call := Call(arguments, c.Nickname, bAddMode, filed);
            Follows(st, Step(call, st, mode), mode, ch.State(), next, outcome) && s.Snap() == Moved(old(s.Snap()), ch, st, Step(call, st, mode))
  {
    s.ChannelAt(ch);
    hide *;
    ghost var before, end := s.Snap(), Step(Call(arguments, c.Nickname, bAddMode, filed), st, mode);
    outcome, next := ChangeFlagIn(s, c, ch, mode, arguments, bAddMode, modeIndex, st, filed);
    FollowsSays(st, end, mode, ch.State(), next, outcome);
    MovedByModes(before, ch, st, end, ch.State());
  }

  lemma MovedByModes(s: State, ch: Channel, st: Tally, end: Tally, y: ChannelState)
    requires ch in s.channel && end.looked == st.looked && end.modes == ModesOf(y) && y == WithModes(s.channel[ch], ModesOf(y))
    ensures Moved(s, ch, st, end) == s.(channel := s.channel[ch := y])
  {
  }

  method ChangeFlagIn(s: Server, c: Client, ch: Channel, mode: char, arguments: seq<string>, bAddMode: bool, modeIndex: nat, ghost st: Tally,
                      ghost filed: map<string, Client>)
    returns (outcome: Outcome, next: nat)
    requires mode in "itkl" && ch in s.channels
    requires st == Tally(ModesOf(ch.State()), modeIndex, st.changes, st.refusals, st.looked, false)
    modifies ch`bInviteOnly, ch`bTopicProtected, ch`Password, ch`bPrivate, ch`MaxClients
    ensures s.Snap() == old(s.Snap()).(channel := old(s.Snap()).channel[ch := ch.State()])
    ensures ch.State() == WithModes(old(ch.State()), ModesOf(ch.State()))
    ensures var end := Step(Call(arguments, c.Nickname, bAddMode, filed), st, mode);
            Follows(st, end, mode, ch.State(), next, outcome) && end.looked == st.looked
  {
    hide Server.ClientStates, Follows, Step, ModesOf, WithModes;
    outcome, next := ChangeFlag(c, ch, mode, arguments, bAddMode, modeIndex, st, filed);
    assert s.ChannelStates() == old(s.ChannelStates())[ch := ch.State()];
  }

  method ChangeFlag(c: Client, ch: Channel, mode: char, arguments: seq<string>, bAddMode: bool, modeIndex: nat, ghost st: Tally,
                    ghost filed: map<string, Client>)
    returns (outcome: Outcome, next: nat)
    requires mode in "itkl"
    requires st == Tally(ModesOf(ch.State()), modeIndex, st.changes, st.refusals, st.looked, false)
    modifies ch`bInviteOnly, ch`bTopicProtected, ch`Password, ch`bPrivate, ch`MaxClients
    ensures ch.State() == WithModes(old(ch.State()), ModesOf(ch.State()))
    ensures var end := Step(Call(arguments, c.Nickname, bAddMode, filed), st, mode);
            Follows(st, end, mode, ch.State(), next, outcome) && end.looked == st.looked
  {
    hide Letters, Atoi;
    ghost var call := Call(arguments, c.Nickname, bAddMode, filed);
    outcome, next := Changed, modeIndex;
    if !ch.IsOperator(c.Nickname) {
      return Refused(ChanOPrivsNeeded), next;
    }
    match mode
    case 'i' =>
      ch.bInviteOnly := bAddMode;
      AcceptFollows(call, st, InviteOnly, ch.State());
    case 't' =>
      ch.bTopicProtected := bAddMode;
      AcceptFollows(call, st, TopicProtected, ch.State());
    case 'k' =>
      if bAddMode {
        if modeIndex >= |arguments| {
          return Refused(NeedMoreParams), next;
        }
        ch.Password := arguments[modeIndex];
        next := modeIndex + 1;
        ch.bPrivate := true;
        AcceptFollows(call, st.(modeIndex := next), Key(ch.Password), ch.State());
      } else {
        ch.Password := "";
        ch.bPrivate := false;
        AcceptFollows(call, st, Key(""), ch.State());
      }
    case _ =>
      if bAddMode {
        if modeIndex >= |arguments| {
          return Refused(NeedMoreParams), next;
        }
        var limit := Atoi(arguments[modeIndex]);
        next := modeIndex + 1;
        if limit <= 0 {
          return Refused(NeedMoreParams), next;
        }
        ch.MaxClients := limit;
        AcceptFollows(call, st.(modeIndex := next), Limit(arguments[next - 1]), ch.State());
      } else {
        ch.MaxClients := 0;
        AcceptFollows(call, st, Limit(""), ch.State());
      }
  }

  /** Once overrun, a run is over. */
  lemma {:induction false} OverrunStays(call: Call, m: Modes, letters: string, i: nat)
    requires i <= |letters| && Run(call, m, letters[..i]).bOverrun
    ensures Run(call, m, letters) == Run(call, m, letters[..i])
  {
    if i < |letters| {
      var init := letters[..|letters| - 1];
      assert init[..i] == letters[..i];
      OverrunStays(call, m, init, i);
    } else {
      assert letters[..i] == letters;
    }
  }

  /** One turn of the loop. */
  method OneLetter(s: Server, c: Client, ch: Channel, mode: char, arguments: seq<string>, bAddMode: bool, modeIndex: nat,
                   ghost was: State, ghost call: Call, ghost st: Tally)
    returns (outcome: Outcome, next: nat)
    requires ch in s.channels && InLoop(s.Snap(), was, ch, call, st)
    requires call == Call(arguments, c.Nickname, bAddMode, call.filed)
    requires st == Tally(ModesOf(ch.State()), modeIndex, st.changes, st.refusals, st.looked, false)
    modifies s`mClients, s`objects, ch`Operators, ch`bInviteOnly, ch`bTopicProtected, ch`Password, ch`bPrivate, ch`MaxClients
    ensures InLoop(s.Snap(), was, ch, call, Step(call, st, mode)) && s.objects <= old(s.objects)
    ensures Follows(st, Step(call, st, mode), mode, ch.State(), next, outcome)
  {
    hide Core, Server.ClientStates, Server.ChannelStates, Letters, Lookup, Found, FiledIn, Tuned, Moved, StepOperator, StepKey, StepLimit, Accept;
    ghost var now := s.Snap();
    s.ChannelAt(ch);
    TunedSame(now, ch);
    LoopStep(now, was, ch, call, st, mode);
    hide InLoop;
    if mode == 'o' {
      outcome, next := ModeOperator(s, c, ch, arguments, bAddMode, modeIndex, st);
    } else if mode in "itkl" {
      outcome, next := ModeFlag(s, c, ch, mode, arguments, bAddMode, modeIndex, st, call.filed);
    } else {
      outcome, next := Refused(UnknownMode), modeIndex;
      MovedNowhere(now, ch, st, Step(call, st, mode));
    }
  }

  lemma MovedNowhere(s: State, ch: Channel, st: Tally, end: Tally)
    requires end.looked == st.looked && end.modes == st.modes && Tuned(s, ch, st.modes) == s
    ensures Moved(s, ch, st, end) == s
  {
  }

  /** The loop over the letters. It stops where the program would read past its arguments. */
  method ChangeModes(s: Server, c: Client, ch: Channel, arguments: seq<string>)
    returns (changesStr: string, refusals: seq<Refusal>, bOverrun: bool, ghost end: Tally)
    requires Core(s.Snap()) && ch in s.channels && |arguments| >= 2 && arguments[1] != ""
    modifies s`mClients, s`objects, ch`Operators, ch`bInviteOnly, ch`bTopicProtected, ch`Password, ch`bPrivate, ch`MaxClients
    ensures s.objects <= old(s.objects)
    ensures end == Run(Call(arguments, c.Nickname, arguments[1][0] == '+', old(FiledIn(s.Snap()))), old(ModesOf(ch.State())), arguments[1][1..])
    ensures s.Snap() == Tuned(LookedUp(old(s.Snap()), end.looked), ch, end.modes)
    ensures end.refusals == refusals && end.bOverrun == bOverrun && changesStr == [arguments[1][0]] + Letters(end.changes)
  {
    hide *;
    var modeStr := arguments[1];
    var bAddMode := modeStr[0] == '+';
    ghost var was := s.Snap();
    ghost var call := Call(arguments, c.Nickname, bAddMode, FiledIn(was));
    ghost var m, letters := ModesOf(ch.State()), modeStr[1..];
    s.ChannelAt(ch);
    TunedSame(was, ch);
    var modeIndex := 2;
    changesStr, refusals, bOverrun, end := modeStr[..1], [], false, Tally(m, 2, [], [], [], false);
    NoLetters();
    LoopStarts(was, ch, call, end);
    assert letters[..0] == "";
    RunNone(call, m);
    for i := 1 to |modeStr|
      invariant InLoop(s.Snap(), was, ch, call, end) && s.objects <= old(s.objects)
      invariant end == Run(call, m, letters[..i - 1])
      invariant end == Tally(ModesOf(ch.State()), modeIndex, end.changes, refusals, end.looked, false) && !bOverrun
      invariant changesStr == modeStr[..1] + Letters(end.changes)
    {
      var mode := modeStr[i];
      RunOne(call, m, letters, i);
      ghost var st := end;
      var outcome;
      outcome, modeIndex := OneLetter(s, c, ch, mode, arguments, bAddMode, modeIndex, was, call, st);
      end := Step(call, st, mode);
      FollowsSays(st, end, mode, ch.State(), modeIndex, outcome);
      match outcome
      case Changed =>
        changesStr := changesStr + [mode];
      case Refused(r) =>
        refusals := refusals + [r];
      case ReadsPast =>
        bOverrun := true;
        OverrunStays(call, m, letters, i);
        LoopEnds(s.Snap(), was, ch, call, end);
        return;
    }
    LoopEnds(s.Snap(), was, ch, call, end);
    assert letters[..|letters|] == letters;
  }

  lemma RunNone(call: Call, m: Modes)
    ensures Run(call, m, "") == Tally(m, 2, [], [], [], false)
  {
  }

  lemma RunOne(call: Call, m: Modes, letters: string, i: nat)
    requires 0 < i <= |letters|
    ensures Run(call, m, letters[..i]) == Step(call, Run(call, m, letters[..i - 1]), letters[i - 1])
  {
    assert letters[..i][..i - 1] == letters[..i - 1];
  }

  lemma FollowsSays(st: Tally, end: Tally, mode: char, x: ChannelState, modeIndex: nat, outcome: Outcome)
    requires Follows(st, end, mode, x, modeIndex, outcome)
    ensures end == Tally(ModesOf(x), modeIndex, end.changes, st.refusals + (if outcome.Refused? then [outcome.r] else []), end.looked, outcome.ReadsPast?)
    ensures Letters(end.changes) == Letters(st.changes) + (if outcome.Changed? then [mode] else [])
  {
  }

  lemma LoopEnds(now: State, was: State, ch: Channel, call: Call, st: Tally)
    requires InLoop(now, was, ch, call, st)
    ensures now == Tuned(LookedUp(was, st.looked), ch, st.modes)
  {
  }

  ghost predicate InLoop(now: State, was: State, ch: Channel, call: Call, st: Tally) {
    Core(now) && FiledIn(now) == call.filed && now == Tuned(LookedUp(was, st.looked), ch, st.modes)
  }

  lemma LoopStarts(was: State, ch: Channel, call: Call, st: Tally)
    requires Core(was) && FiledIn(was) == call.filed && st.looked == [] && was == Tuned(was, ch, st.modes)
    ensures InLoop(was, was, ch, call, st)
  {
  }

  lemma LoopStep(now: State, was: State, ch: Channel, call: Call, st: Tally, mode: char)
    requires InLoop(now, was, ch, call, st) && ch in now.channel && st.modes == ModesOf(now.channel[ch])
    ensures InLoop(Moved(now, ch, st, Step(call, st, mode)), was, ch, call, Step(call, st, mode))
    ensures Moved(now, ch, st, Step(call, st, mode)) == Tuned(LookedUp(was, Step(call, st, mode).looked), ch, Step(call, st, mode).modes)
  {
    var end := Step(call, st, mode);
    StepLooks(call, st, mode);
    KeyedAt(now, ch);
    StepKeepsKey(call, st, mode);
    hide Step, Lookup, Core, InSync, FiledIn;
    MovedOn(was, ch, st, end);
    var t := if |end.looked| > |st.looked| then Lookup(now, end.looked[|st.looked|]) else now;
    if |end.looked| > |st.looked| {
      LookupKeeps(now, end.looked[|st.looked|]);
      LookupKeepsFiled(now, end.looked[|st.looked|]);
    }
    RetunedKeeps(t, ch, WithModes(t.channel[ch], end.modes));
    TunedKeepsFiled(t, ch, end.modes);
  }

  lemma StepLooks(call: Call, st: Tally, mode: char)
    ensures var end := Step(call, st, mode);
            end.looked == st.looked || (|end.looked| == |st.looked| + 1 && end.looked[..|st.looked|] == st.looked)
  {
  }

  lemma StepKeepsKey(call: Call, st: Tally, mode: char)
    requires KeyOnlyIfPrivate(st.modes)
    ensures KeyOnlyIfPrivate(Step(call, st, mode).modes)
  {
  }

  lemma NoLetters()
    ensures Letters([]) == ""
  {
  }

  datatype Answer = Silent | NotRegistered | TooFewParams | UnknownCommand | NoSuchChannel
                  | Report(changesStr: string, refusals: seq<Refusal>) | ReadPast

  /** MODE. */
  method Mode(s: Server, c: Client, arguments: seq<string>) returns (answer: Answer)
    requires Core(s.Snap()) && c in s.objects && c in s.receivedClientMsgProcessQueue
    modifies s`mClients, s`objects, s.channels`Operators, s.channels`bInviteOnly, s.channels`bTopicProtected, s.channels`Password
    modifies s.channels`bPrivate, s.channels`MaxClients
    ensures s.Snap() == Moded(old(s.Snap()), c, arguments) && s.objects <= old(s.objects)
    ensures c in old(s.Snap()).client
    ensures Reaches(old(s.Snap()), c, arguments) ==>
              var st := TallyOf(old(s.Snap()), c, arguments);
              answer == if st.bOverrun then ReadPast else Report([arguments[1][0]] + Letters(st.changes), st.refusals)
    ensures !Reaches(old(s.Snap()), c, arguments) ==> !answer.Report? && !answer.ReadPast?
  {
    s.ClientAt(c);
    hide Core, Server.ClientStates, Server.ChannelStates, FoundChannel, FiledIn, Tuned, Run, Letters, LookedUp;
    if c.bExpired {
      return Silent;
    }
    if !c.bRegistered {
      return NotRegistered;
    }
    if |arguments| < 2 {
      return TooFewParams;
    }
    if arguments[0] == "" || arguments[0][0] != '#' {
      return UnknownCommand;
    }
    var ch := s.FindChannelGlobal(arguments[0]);
    if ch == null {
      return NoSuchChannel;
    }
    var modeStr := arguments[1];
    if modeStr == "" || (modeStr[0] != '+' && modeStr[0] != '-') {
      return TooFewParams;
    }
    s.ChannelAt(ch);
    ghost var was := s.Snap();
    var changesStr, refusals, bOverrun;
    ghost var end;
    changesStr, refusals, bOverrun, end := ChangeModes(s, c, ch, arguments);
    ModedIs(was, c, arguments);
    answer := if bOverrun then ReadPast else Report(changesStr, refusals);
  }

  lemma ModedIs(s: State, c: Client, arguments: seq<string>)
    requires Core(s) && c in s.client && Reaches(s, c, arguments)
    ensures var st := TallyOf(s, c, arguments); Moded(s, c, arguments) == Tuned(LookedUp(s, st.looked), FoundChannel(s, arguments[0]), st.modes)
  {
    LookedUpKeeps(s, TallyOf(s, c, arguments).looked);
  }
}
