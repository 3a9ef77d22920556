/** What MODE means on the fields of the channel, letter by letter and as a whole. */
module ModeEffects {
  import opened ServerState
  import opened Transitions
  import opened Sessions
  import opened Effects
  import M = ModeCommand

  // ----- Numbers -----

  function Decimal(n: nat): string {
    if n < 10 then [('0' as int + n) as char] else Decimal(n / 10) + [('0' as int + n % 10) as char]
  }

  lemma {:induction false} DigitsOfSum(a: string, d: char, value: int)
    requires (forall i :: 0 <= i < |a| ==> '0' <= a[i] <= '9') && '0' <= d <= '9'
    ensures M.Digits(a + [d], value) == M.Digits(a, value) * 10 + (d - '0') as int
  {
    if a == "" {
      assert M.Digits([d], value) == M.Digits([d][1..], value * 10 + (d - '0') as int);
      assert a + [d] == [d];
    } else {
      assert (a + [d])[1..] == a[1..] + [d];
      DigitsOfSum(a[1..], d, value * 10 + (a[0] - '0') as int);
    }
  }

  lemma {:induction false} DecimalReads(n: nat)
    ensures Decimal(n) != "" && (forall i :: 0 <= i < |Decimal(n)| ==> '0' <= Decimal(n)[i] <= '9') && M.Digits(Decimal(n), 0) == n
  {
    var d := ('0' as int + n % 10) as char;
    if n < 10 {
      assert Decimal(n) == "" + [d];
      DigitsOfSum("", d, 0);
    } else {
      DecimalReads(n / 10);
      DigitsOfSum(Decimal(n / 10), d, 0);
    }
  }

  /** atoi reads a number back, after spaces, with a sign or none. */
  lemma AtoiReads(n: nat)
    ensures M.Atoi(Decimal(n)) == n && M.Atoi("-" + Decimal(n)) == 0 - n && M.Atoi("+" + Decimal(n)) == n
    ensures forall s :: M.Atoi(" " + s) == M.Atoi(s)
  {
    DecimalReads(n);
    var d := Decimal(n);
    assert ("-" + d)[1..] == d && ("+" + d)[1..] == d;
    forall s ensures M.Atoi(" " + s) == M.Atoi(s) {
      assert (" " + s)[1..] == s;
    }
  }

  // ----- A list of changes -----

  predicate IsLast(cs: seq<M.Change>, i: nat, letter: char) {
    i < |cs| && M.Letter(cs[i]) == letter && forall j :: i < j < |cs| ==> M.Letter(cs[j]) != letter
  }

  predicate Names(cs: seq<M.Change>, n: string) {
    exists i :: 0 <= i < |cs| && cs[i].Operator? && cs[i].nickname == n
  }

  /** From m to r the flags named by the letters are as the sign says, key and limit as their last letters say, and the
      operators gained or lost those named. */
  ghost predicate Changed(m: M.Modes, r: M.Modes, bAdd: bool, cs: seq<M.Change>) {
    && r.bInviteOnly == (if 'i' in M.Letters(cs) then bAdd else m.bInviteOnly)
    && r.bTopicProtected == (if 't' in M.Letters(cs) then bAdd else m.bTopicProtected)
    && r.bPrivate == (if 'k' in M.Letters(cs) then bAdd else m.bPrivate)
    && ('k' !in M.Letters(cs) ==> r.password == m.password)
    && (forall i: nat :: IsLast(cs, i, 'k') ==> cs[i].Key? && r.password == if bAdd then cs[i].key else "")
    && ('l' !in M.Letters(cs) ==> r.maxClients == m.maxClients)
    && (forall i: nat :: IsLast(cs, i, 'l') ==>
          cs[i].Limit? && r.maxClients == if bAdd && M.Atoi(cs[i].text) > 0 then M.Atoi(cs[i].text) else 0)
    && (forall n :: n in r.operators <==> if bAdd then n in m.operators || Names(cs, n) else n in m.operators && !Names(cs, n))
    && (forall n :: n in r.operators && !Names(cs, n) ==> n in m.operators && r.operators[n] == m.operators[n])
    && (forall n :: n in r.operators && Names(cs, n) ==> exists i :: 0 <= i < |cs| && cs[i] == M.Operator(n, r.operators[n]))
  }

  lemma {:induction false} ReplayChanges(m: M.Modes, bAdd: bool, cs: seq<M.Change>)
    ensures Changed(m, M.Replay(m, bAdd, cs), bAdd, cs)
  {
    hide M.Atoi;
    if cs != [] {
      var init, c := cs[..|cs| - 1], cs[|cs| - 1];
      ReplayChanges(m, bAdd, init);
      var r := M.Replay(m, bAdd, init);
      assert cs == init + [c];
      M.ReplayPush(m, bAdd, init, c);
      FlagsChange(m, r, bAdd, init, c);
      LastChanges(m, r, bAdd, init, c);
      OperatorsChange(m, r, bAdd, init, c);
      hide M.Apply, M.Replay, M.Letters, Names, IsLast;
    }
  }

  lemma FlagsChange(m: M.Modes, r: M.Modes, bAdd: bool, cs: seq<M.Change>, c: M.Change)
    requires Changed(m, r, bAdd, cs)
    ensures var t, ls := M.Apply(r, bAdd, c), M.Letters(cs + [c]);
            && t.bInviteOnly == (if 'i' in ls then bAdd else m.bInviteOnly)
            && t.bTopicProtected == (if 't' in ls then bAdd else m.bTopicProtected)
            && t.bPrivate == (if 'k' in ls then bAdd else m.bPrivate)
            && ('k' !in ls ==> t.password == m.password) && ('l' !in ls ==> t.maxClients == m.maxClients)
  {
    M.ReplayPush(m, bAdd, cs, c);
    hide M.Letters, Names, IsLast, M.Atoi;
  }

  lemma LastChanges(m: M.Modes, r: M.Modes, bAdd: bool, cs: seq<M.Change>, c: M.Change)
    requires Changed(m, r, bAdd, cs)
    ensures var t, ds := M.Apply(r, bAdd, c), cs + [c];
            && (forall i: nat :: IsLast(ds, i, 'k') ==> ds[i].Key? && t.password == if bAdd then ds[i].key else "")
            && (forall i: nat :: IsLast(ds, i, 'l') ==>
                  ds[i].Limit? && t.maxClients == if bAdd && M.Atoi(ds[i].text) > 0 then M.Atoi(ds[i].text) else 0)
  {
    hide M.Letters, Names, M.Atoi;
    var ds := cs + [c];
    forall i: nat, l | IsLast(ds, i, l) ensures if M.Letter(c) == l then i == |cs| else IsLast(cs, i, l) && ds[i] == cs[i] {
      assert ds[|cs|] == c;
      if M.Letter(c) != l {
        forall j | i < j < |cs| ensures M.Letter(cs[j]) != l {
          assert ds[j] == cs[j];
        }
      }
    }
  }

  lemma OperatorsChange(m: M.Modes, r: M.Modes, bAdd: bool, cs: seq<M.Change>, c: M.Change)
    requires Changed(m, r, bAdd, cs)
    ensures var t, ds := M.Apply(r, bAdd, c), cs + [c];
            && (forall n :: n in t.operators <==> if bAdd then n in m.operators || Names(ds, n) else n in m.operators && !Names(ds, n))
            && (forall n :: n in t.operators && !Names(ds, n) ==> n in m.operators && t.operators[n] == m.operators[n])
            && (forall n :: n in t.operators && Names(ds, n) ==> exists i :: 0 <= i < |ds| && ds[i] == M.Operator(n, t.operators[n]))
  {
    hide M.Letters, IsLast, M.Atoi;
    var t, ds := M.Apply(r, bAdd, c), cs + [c];
    assert ds[|cs|] == c;
    forall n ensures Names(ds, n) <==> Names(cs, n) || (c.Operator? && c.nickname == n) {
      if i :| 0 <= i < |cs| && cs[i].Operator? && cs[i].nickname == n {
        assert ds[i] == cs[i];
      }
    }
    forall n | n in t.operators && Names(ds, n) ensures exists i :: 0 <= i < |ds| && ds[i] == M.Operator(n, t.operators[n]) {
      if c.Operator? && c.nickname == n {
        assert ds[|cs|] == M.Operator(n, t.operators[n]);
      } else {
        assert n in r.operators && Names(cs, n);
        var i :| 0 <= i < |cs| && cs[i] == M.Operator(n, r.operators[n]);
        assert ds[i] == cs[i];
      }
    }
  }

  // ----- The command -----

  /** MODE reaches the channel: the sender is registered and unexpired, the channel exists, the mode string has a sign. */
  predicate ModeConditions(s: State, c: Client, a: seq<string>, ch: Channel) {
    && IsUp(s, c) && |a| >= 2 && a[0] != "" && a[0][0] == '#' && IsChannel(s, a[0], ch) && a[1] != "" && (a[1][0] == '+' || a[1][0] == '-')
  }

  lemma ReachesIs(s: State, c: Client, a: seq<string>, ch: Channel)
    requires Core(s) && c in s.client && ModeConditions(s, c, a, ch)
    ensures M.Reaches(s, c, a) && FoundChannel(s, a[0]) == ch
  {
    FoundIsChannel(s, a[0]);
    hide Core, FoundChannel, IsChannel;
  }

  /** A reached MODE that has its arguments: of the reported letters each sets or clears what it stands for, the last one
      of its kind where there are several; nothing else of the channel changes, no other channel, and no client that goes
      on existing. The operators named are clients filed under their names. */
  lemma ModeChanges(s: State, c: Client, a: seq<string>, made: seq<Channel?>, ch: Channel)
    requires Core(s) && Runs(s, c) && ModeConditions(s, c, a, ch)
    ensures M.Reaches(s, c, a)
    ensures var cs, t, x := M.TallyOf(s, c, a).changes, Commanded(s, c, Mode(a), made), s.channel[ch];
            && ch in t.channel && t.channel == s.channel[ch := t.channel[ch]] && t.mChannels == s.mChannels
            && Changed(M.ModesOf(x), M.ModesOf(t.channel[ch]), a[1][0] == '+', cs)
            && t.channel[ch].name == x.name && t.channel[ch].clients == x.clients && t.channel[ch].invited == x.invited
            && (forall i :: 0 <= i < |cs| && cs[i].Operator? ==>
                  cs[i].nickname in s.mClients && cs[i].target == s.mClients[cs[i].nickname] && IsTaken(s, cs[i].nickname))
            && (forall d :: d in t.client ==> d in s.client && t.client[d] == s.client[d])
  {
    ReachesIs(s, c, a, ch);
    M.ModedReplays(s, c, a);
    var st, call, m := M.TallyOf(s, c, a), M.CallOf(s, c, a), M.ModesOf(s.channel[ch]);
    ReplayChanges(m, call.bAdd, st.changes);
    M.ParametersInOrder(call, m, a[1][1..]);
    ModeRest(s, c, a, ch);
    FiledTargets(s, call, st.changes);
    CommandedAs(s, c, Mode(a), made);
    hide Core, Commanded, M.Moded, M.Run, M.Replay, Changed, FoundChannel, IsTaken, M.FiledIn, M.Overruns;
  }

  lemma ModeRest(s: State, c: Client, a: seq<string>, ch: Channel)
    requires Core(s) && c in s.client && M.Reaches(s, c, a) && FoundChannel(s, a[0]) == ch
    ensures var t := M.Moded(s, c, a);
            && t.mChannels == s.mChannels && ch in t.channel
            && t.channel[ch].name == s.channel[ch].name && t.channel[ch].clients == s.channel[ch].clients
            && t.channel[ch].invited == s.channel[ch].invited
  {
    LookedUpKeeps(s, M.TallyOf(s, c, a).looked);
    hide Core, LookedUp, M.Run, FoundChannel;
  }

  lemma FiledTargets(s: State, call: M.Call, cs: seq<M.Change>)
    requires call.filed == M.FiledIn(s) && M.TargetsFiled(call, cs)
    ensures forall i :: 0 <= i < |cs| && cs[i].Operator? ==>
              cs[i].nickname in s.mClients && cs[i].target == s.mClients[cs[i].nickname] && IsTaken(s, cs[i].nickname)
  {
    forall i | 0 <= i < |cs| && cs[i].Operator?
      ensures cs[i].nickname in s.mClients && cs[i].target == s.mClients[cs[i].nickname] && IsTaken(s, cs[i].nickname)
    {
      assert cs[i] in cs;
      TakenIsFound(s, cs[i].nickname);
    }
  }

  /** MODE that does not reach a channel does nothing. */
  lemma ModeElse(s: State, c: Client, a: seq<string>, made: seq<Channel?>)
    requires Core(s) && c in s.client && forall ch :: !ModeConditions(s, c, a, ch)
    ensures Commanded(s, c, Mode(a), made) == s
  {
    if |a| >= 2 {
      FoundIsChannel(s, a[0]);
      var ch := FoundChannel(s, a[0]);
      assert ch != null ==> !ModeConditions(s, c, a, ch);
    }
    hide Core, FoundChannel, LookedUp, M.TallyOf;
  }

  // ----- Letter by letter -----

  /** The same command with p letters of its mode string. */
  function Cut(a: seq<string>, p: nat): seq<string>
    requires |a| >= 2 && p < |a[1]|
  {
    a[1 := a[1][..p + 1]]
  }

  /** The report and the refusals once p letters are done. */
  function ReportAt(s: State, c: Client, a: seq<string>, p: nat): M.Tally
    requires c in s.client && |a| >= 2 && p < |a[1]|
  {
    if M.Reaches(s, c, Cut(a, p)) then M.TallyOf(s, c, Cut(a, p))
    else M.Tally(M.Modes(map[], false, false, "", false, 0), 2, [], [], [], false)
  }

  /** The run does not look at the channel name or the mode string among its arguments. */
  lemma {:induction false} SameRun(a: M.Call, b: M.Call, m: M.Modes, letters: string)
    requires b == a.(arguments := b.arguments) && |a.arguments| == |b.arguments| >= 2 && a.arguments[2..] == b.arguments[2..]
    ensures M.Run(a, m, letters) == M.Run(b, m, letters) && M.Run(a, m, letters).modeIndex >= 2
  {
    hide M.Atoi, M.Apply;
    if letters != "" {
      var init := letters[..|letters| - 1];
      SameRun(a, b, m, init);
      var st := M.Run(a, m, init);
      if st.modeIndex < |a.arguments| {
        assert a.arguments[st.modeIndex] == a.arguments[2..][st.modeIndex - 2] && b.arguments[st.modeIndex] == b.arguments[2..][st.modeIndex - 2];
      }
      hide M.Run;
      StepSame(a, b, st, letters[|letters| - 1]);
    }
  }

  lemma StepSame(a: M.Call, b: M.Call, st: M.Tally, mode: char)
    requires b == a.(arguments := b.arguments) && |a.arguments| == |b.arguments| && st.modeIndex >= 2
    requires st.modeIndex < |a.arguments| ==> a.arguments[st.modeIndex] == b.arguments[st.modeIndex]
    ensures M.Step(a, st, mode) == M.Step(b, st, mode) && M.Step(a, st, mode).modeIndex >= 2
  {
    hide M.Atoi, M.Apply;
  }

  lemma CutRuns(s: State, c: Client, a: seq<string>, ch: Channel, p: nat)
    requires c in s.client && M.Reaches(s, c, a) && FoundChannel(s, a[0]) == ch && p < |a[1]|
    ensures M.Reaches(s, c, Cut(a, p))
    ensures M.TallyOf(s, c, Cut(a, p)) == M.Run(M.CallOf(s, c, a), M.ModesOf(s.channel[ch]), a[1][1..][..p])
  {
    var b := Cut(a, p);
    assert b[0] == a[0] && b[1] == a[1][..p + 1] && b[1][1..] == a[1][1..][..p] && b[2..] == a[2..];
    hide FoundChannel, M.FiledIn, M.Run;
    SameRun(M.CallOf(s, c, b), M.CallOf(s, c, a), M.ModesOf(s.channel[ch]), b[1][1..]);
  }

  /** The sender is an operator of the channel once p letters are done. */
  ghost predicate OperatorAfter(s: State, c: Client, a: seq<string>, ch: Channel, p: nat)
    requires c in s.client && |a| >= 2 && p < |a[1]|
  {
    var t := Commanded(s, c, Mode(Cut(a, p)), []);
    ch in t.channel && s.client[c].nickname in t.channel[ch].operators
  }

  lemma OperatorIs(s: State, c: Client, a: seq<string>, ch: Channel, p: nat)
    requires Core(s) && Runs(s, c) && M.Reaches(s, c, a) && FoundChannel(s, a[0]) == ch && p < |a[1]|
    ensures M.Reaches(s, c, Cut(a, p))
    ensures OperatorAfter(s, c, a, ch, p) <==> s.client[c].nickname in M.TallyOf(s, c, Cut(a, p)).modes.operators
  {
    CutRuns(s, c, a, ch, p);
    LookedUpKeeps(s, M.TallyOf(s, c, Cut(a, p)).looked);
    CommandedAs(s, c, Mode(Cut(a, p)), []);
    hide Core, Commanded, LookedUp, M.Run, M.TallyOf, FoundChannel, Cut;
  }

  /** What the report gains, and what is refused, when letter p is met: after its p letters before, which used up as many
      arguments as there are parameter-taking letters among them. */
  ghost predicate Meets(s: State, a: seq<string>, before: M.Tally, after: M.Tally, mode: char, j: nat)
    requires |a| >= 2 && a[1] != ""
  {
    var bAdd := a[1][0] == '+';
    if mode == 'i' then Reports(before, after, M.InviteOnly)
    else if mode == 't' then Reports(before, after, M.TopicProtected)
    else if mode == 'k' then
      if !bAdd then Reports(before, after, M.Key(""))
      else if j < |a| then Reports(before, after, M.Key(a[j])) else Refuses(before, after, M.NeedMoreParams)
    else if mode == 'l' then
      if !bAdd then Reports(before, after, M.Limit(""))
      else if j < |a| && M.Atoi(a[j]) > 0 then Reports(before, after, M.Limit(a[j])) else Refuses(before, after, M.NeedMoreParams)
    else if mode == 'o' then
      if |a| < 3 then Refuses(before, after, M.NeedMoreParams)
      else if j >= |a| then after.bOverrun
      else if IsTaken(s, a[j]) then Reports(before, after, M.Operator(a[j], s.mClients[a[j]])) else Refuses(before, after, M.NoSuchNick)
    else Refuses(before, after, M.UnknownMode)
  }

  predicate Reports(before: M.Tally, after: M.Tally, c: M.Change) {
    after.changes == before.changes + [c] && after.refusals == before.refusals && !after.bOverrun
  }

  predicate Refuses(before: M.Tally, after: M.Tally, r: M.Refusal) {
    after.changes == before.changes && after.refusals == before.refusals + [r] && !after.bOverrun
  }

  /** Each letter, exactly. While the sender is an operator it is reported, with the argument that is its own, or refused
      for want of one; while it is not, it is refused. */
  lemma LetterMeans(s: State, c: Client, a: seq<string>, ch: Channel, p: nat)
    requires Core(s) && Runs(s, c) && ModeConditions(s, c, a, ch) && p < |a[1]| - 1 && !ReportAt(s, c, a, p).bOverrun
    ensures var before, after, mode := ReportAt(s, c, a, p), ReportAt(s, c, a, p + 1), a[1][p + 1];
            if OperatorAfter(s, c, a, ch, p) then Meets(s, a, before, after, mode, 2 + M.Takers(a[1][0] == '+', a[1][1..][..p]))
            else Refuses(before, after, if mode == 'o' && |a| < 3 then M.NeedMoreParams else if mode in "oitkl" then M.ChanOPrivsNeeded else M.UnknownMode)
  {
    ReachesIs(s, c, a, ch);
    CutRuns(s, c, a, ch, p);
    CutRuns(s, c, a, ch, p + 1);
    OperatorIs(s, c, a, ch, p);
    var call, m, ls := M.CallOf(s, c, a), M.ModesOf(s.channel[ch]), a[1][1..];
    M.RunOne(call, m, ls, p + 1);
    IndexIs(call, m, ls[..p]);
    var st := M.Run(call, m, ls[..p]);
    if 2 <= st.modeIndex < |a| {
      TakenIsFound(s, a[st.modeIndex]);
      M.FiledInIs(s, a[st.modeIndex]);
    }
    hide Core, Found, M.FiledIn, IsTaken, OperatorAfter, M.Reaches, M.TallyOf, M.Run, M.Takers, Cut;
    StepMeets(s, a, call, st, ls[p]);
  }

  lemma StepMeets(s: State, a: seq<string>, call: M.Call, st: M.Tally, mode: char)
    requires |a| >= 2 && a[1] != "" && call.arguments == a && call.bAdd == (a[1][0] == '+') && !st.bOverrun && st.modeIndex >= 2
    requires st.modeIndex < |a| ==>
               var n := a[st.modeIndex]; (n in call.filed <==> IsTaken(s, n)) && (n in call.filed ==> n in s.mClients && call.filed[n] == s.mClients[n])
    ensures var next := M.Step(call, st, mode);
            if call.nickname in st.modes.operators then forall j: nat :: j == st.modeIndex || (j >= |a| && st.modeIndex >= |a|) ==> Meets(s, a, st, next, mode, j)
            else Refuses(st, next, if mode == 'o' && |a| < 3 then M.NeedMoreParams else if mode in "oitkl" then M.ChanOPrivsNeeded else M.UnknownMode)
  {
    hide M.Atoi, M.Apply, IsTaken;
  }

  /** While the sender is an operator, as many arguments are used as letters took one. */
  lemma IndexIs(call: M.Call, m: M.Modes, letters: string)
    requires |call.arguments| >= 2
    ensures var st, j := M.Run(call, m, letters), 2 + M.Takers(call.bAdd, letters);
            st.modeIndex >= 2 &&
            (!st.bOverrun && call.nickname in st.modes.operators ==> j == st.modeIndex || (j >= |call.arguments| && st.modeIndex >= |call.arguments|))
  {
    M.ParametersInOrder(call, m, letters);
    if |call.arguments| >= 3 && call.nickname in m.operators {
      M.RunInStep(call, m, letters);
    } else {
      M.RunNoReads(call, m, letters);
    }
    hide M.Run, M.Takers, M.OutOfArguments, M.TakesOwn;
  }

  /** With all its letters it is the command itself. */
  lemma ReportIs(s: State, c: Client, a: seq<string>, ch: Channel)
    requires Core(s) && c in s.client && ModeConditions(s, c, a, ch)
    ensures M.Reaches(s, c, a) && ReportAt(s, c, a, |a[1]| - 1) == M.TallyOf(s, c, a)
  {
    ReachesIs(s, c, a, ch);
    assert a[1][..|a[1]|] == a[1] && Cut(a, |a[1]| - 1) == a;
    hide M.Reaches, M.TallyOf, Core;
  }
}
