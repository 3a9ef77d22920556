/** The NAMES lists that JOIN sends: the live members of a channel packed into lines that fit a message block. */
module Names {
  import opened MsgBlocks
  import ServerState

  const LINE_MAX := MESSAGE_LEN_MAX - CRLF_LEN_2

  /** An entry of the channel's member map, in map order; locking its weak handle succeeds while bLive. */
  datatype Slot = Slot(nickname: string, bLive: bool)

  /** What the receiver of a NAMES line learns of a member. */
  datatype Entry = Entry(nickname: string, bOperator: bool)

  function Live(clients: seq<Slot>, operators: set<string>): seq<Entry> {
    if clients == [] then []
    else (if clients[0].bLive then [Entry(clients[0].nickname, clients[0].nickname in operators)] else [])
         + Live(clients[1..], operators)
  }

  function Element(e: Entry): string {
    (if e.bOperator then "@" else "+") + e.nickname
  }

  /** An operator is marked with '@', another member with '+'. */
  lemma ElementMarks(e: Entry)
    ensures Element(e) != "" && Element(e)[0] == (if e.bOperator then '@' else '+') && Element(e)[1..] == e.nickname
  {
  }

  ghost predicate AllNicknames(clients: seq<Slot>) {
    forall s :: s in clients ==> ServerState.IsNickname(s.nickname)
  }

  lemma {:induction false} ListedAreLive(clients: seq<Slot>, operators: set<string>, e: Entry)
    ensures e in Live(clients, operators) <==> Slot(e.nickname, true) in clients && e.bOperator == (e.nickname in operators)
  {
    if clients != [] {
      ListedAreLive(clients[1..], operators, e);
      assert clients == [clients[0]] + clients[1..];
    }
  }

  predicate DistinctNames(clients: seq<Slot>) {
    forall i, j :: 0 <= i < j < |clients| ==> clients[i].nickname != clients[j].nickname
  }

  predicate DistinctEntries(l: seq<Entry>) {
    forall i, j :: 0 <= i < j < |l| ==> l[i].nickname != l[j].nickname
  }

  lemma {:induction false} ListedOnce(clients: seq<Slot>, operators: set<string>)
    requires DistinctNames(clients)
    ensures DistinctEntries(Live(clients, operators))
  {
    if clients != [] {
      var rest := clients[1..];
      ListedOnce(rest, operators);
      var l := Live(rest, operators);
      forall i | 0 <= i < |l| ensures l[i].nickname != clients[0].nickname {
        assert l[i] in l;
        ListedAreLive(rest, operators, l[i]);
        var k :| 0 <= k < |rest| && rest[k] == Slot(l[i].nickname, true);
        assert clients[k + 1] == rest[k];
      }
      var all := Live(clients, operators);
      if clients[0].bLive {
        assert all == [Entry(clients[0].nickname, clients[0].nickname in operators)] + l;
        forall i, j | 0 <= i < j < |all| ensures all[i].nickname != all[j].nickname {
          assert all[j] == l[j - 1];
          if i > 0 {
            assert all[i] == l[i - 1];
          }
        }
      } else {
        assert all == l;
      }
    }
  }

  /** The live members are listed once each, with the right operator mark, and nobody else is. */
  lemma {:induction false} ListedExactlyOnce(clients: seq<Slot>, operators: set<string>)
    requires DistinctNames(clients)
    ensures forall e :: e in Live(clients, operators) <==> Slot(e.nickname, true) in clients && e.bOperator == (e.nickname in operators)
    ensures DistinctEntries(Live(clients, operators))
  {
    forall e ensures e in Live(clients, operators) <==> Slot(e.nickname, true) in clients && e.bOperator == (e.nickname in operators) {
      ListedAreLive(clients, operators, e);
    }
    ListedOnce(clients, operators);
  }

  // ----- Reading a line back -----

  function FirstSpace(s: string): (n: nat)
    ensures n <= |s| && ' ' !in s[..n] && (n < |s| ==> s[n] == ' ')
  {
    if s == "" || s[0] == ' ' then 0 else 1 + FirstSpace(s[1..])
  }

  /** The words of a text in which every word is followed by a space. */
  function Words(s: string): seq<string> {
    if s == "" then []
    else var n := FirstSpace(s); if n == |s| then [s] else [s[..n]] + Words(s[n + 1..])
  }

  predicate Ended(s: string) {
    s == "" || s[|s| - 1] == ' '
  }

  lemma {:induction false} FirstSpaceIs(s: string, n: nat)
    requires n < |s| && s[n] == ' ' && ' ' !in s[..n]
    ensures FirstSpace(s) == n
  {
    if n > 0 {
      assert s[0] == s[..n][0] && s[1..][..n - 1] == s[..n][1..];
      FirstSpaceIs(s[1..], n - 1);
    }
  }

  lemma {:induction false} WordsPush(s: string, w: string)
    requires Ended(s) && ' ' !in w && w != ""
    ensures Words(s + w + " ") == Words(s) + [w]
    decreases |s|
  {
    var t := s + w + " ";
    if s == "" {
      assert t[..|w|] == w && t[|w|] == ' ';
      FirstSpaceIs(t, |w|);
      assert t[|w| + 1..] == "";
    } else {
      var m := FirstSpace(s);
      assert s[..|s|] == s && s[|s| - 1] in s;
      assert t[..m] == s[..m] && t[m] == ' ';
      FirstSpaceIs(t, m);
      var rest := s[m + 1..];
      assert t[m + 1..] == rest + w + " ";
      WordsPush(rest, w);
      assert Words(s) == [s[..m]] + Words(rest);
      assert Words(t) == [s[..m]] + Words(rest + w + " ");
    }
  }

  function ToEntry(w: string): Entry {
    if w == "" then Entry("", false) else Entry(w[1..], w[0] == '@')
  }

  function ToEntries(ws: seq<string>): (es: seq<Entry>)
    ensures |es| == |ws| && forall i :: 0 <= i < |ws| ==> es[i] == ToEntry(ws[i])
  {
    seq(|ws|, i requires 0 <= i < |ws| => ToEntry(ws[i]))
  }

  /** The members a line lists after its template. */
  function ReadLine(template: string, line: string): seq<Entry> {
    if |line| < |template| then [] else ToEntries(Words(line[|template|..]))
  }

  function ReadLines(template: string, lines: seq<string>): seq<Entry> {
    if lines == [] then []
    else ReadLines(template, lines[..|lines| - 1]) + ReadLine(template, lines[|lines| - 1])
  }

  /** Appending an element to a line adds that member to what is read. */
  lemma ReadPush(template: string, line: string, e: Entry)
    requires template <= line && Ended(line[|template|..]) && ServerState.IsNickname(e.nickname)
    ensures ReadLine(template, line + Element(e) + " ") == ReadLine(template, line) + [e]
  {
    var body := line[|template|..];
    var w := Element(e);
    assert ' ' !in w && w != "" && ToEntry(w) == e;
    hide Element, Ended, ServerState.IsNickname;
    WordsPush(body, w);
    hide Words;
    assert (line + w + " ")[|template|..] == body + w + " ";
    assert ToEntries(Words(body) + [w]) == ToEntries(Words(body)) + [ToEntry(w)];
  }

  // ----- How many lines -----

  /** An element and the space after it. */
  function Width(e: Entry): nat {
    |Element(e)| + 1
  }

  /** A template and any one member fit a line. */
  predicate Roomy(t: nat, live: seq<Entry>) {
    forall e :: e in live ==> t + Width(e) <= LINE_MAX
  }

  /** Lines needed for the members when the present line has used bytes and each line is filled up. */
  function LineCount(t: nat, used: nat, live: seq<Entry>): nat
    decreases |live|
  {
    if live == [] then 1
    else if used + Width(live[0]) > LINE_MAX then 1 + LineCount(t, t + Width(live[0]), live[1..])
    else LineCount(t, used + Width(live[0]), live[1..])
  }

  /** A fuller line never saves a line, and costs at most one. */
  lemma {:induction false} FullerLine(t: nat, v: nat, w: nat, live: seq<Entry>)
    requires t <= v <= w
    ensures LineCount(t, v, live) <= LineCount(t, w, live) <= LineCount(t, v, live) + 1
    decreases |live|
  {
    if live != [] {
      var d := Width(live[0]);
      if w + d <= LINE_MAX {
        FullerLine(t, v + d, w + d, live[1..]);
      } else if v + d <= LINE_MAX {
        FullerLine(t, t + d, v + d, live[1..]);
      }
    }
  }

  function Used(t: nat, g: seq<Entry>): nat
    decreases |g|
  {
    if g == [] then t else Used(t, g[1..]) + Width(g[0])
  }

  function Flat(groups: seq<seq<Entry>>): seq<Entry> {
    if groups == [] then [] else groups[0] + Flat(groups[1..])
  }

  /** Some way of spreading the members, in order, over lines that fit. */
  ghost predicate Spreads(t: nat, groups: seq<seq<Entry>>, live: seq<Entry>) {
    Flat(groups) == live && forall g :: g in groups ==> Used(t, g) <= LINE_MAX
  }

  lemma {:induction false} FillGroup(t: nat, used: nat, g: seq<Entry>, rest: seq<Entry>)
    requires Used(used, g) <= LINE_MAX
    ensures LineCount(t, used, g + rest) == LineCount(t, Used(used, g), rest)
    decreases |g|
  {
    if g == [] {
      assert g + rest == rest;
    } else {
      UsedShift(used, Width(g[0]), g[1..]);
      assert (g + rest)[1..] == g[1..] + rest;
      FillGroup(t, used + Width(g[0]), g[1..], rest);
    }
  }

  lemma {:induction false} UsedShift(t: nat, d: nat, g: seq<Entry>)
    ensures Used(t + d, g) == Used(t, g) + d && Used(t, g) >= t
  {
    if g != [] {
      UsedShift(t, d, g[1..]);
    }
  }

  /** Filling each line up needs no more lines than any other way. */
  lemma {:induction false} FewestLines(t: nat, groups: seq<seq<Entry>>)
    requires Spreads(t, groups, Flat(groups)) && groups != []
    ensures LineCount(t, t, Flat(groups)) <= |groups|
  {
    var g, rest := groups[0], groups[1..];
    FillGroup(t, t, g, Flat(rest));
    UsedShift(t, 0, g);
    if rest == [] {
      assert g + Flat(rest) == g;
    } else {
      FewestLines(t, rest);
      FullerLine(t, t, Used(t, g), Flat(rest));
    }
  }

  // ----- The packing loop -----

  function NamesTemplate(serverName: string, channelName: string): string {
    ":" + serverName + " 353 " + channelName + " :"
  }

  /** The limits that JOIN and NICK keep. */
  ghost predicate WithinLimits(channelName: string, live: seq<Entry>) {
    && |channelName| <= ServerState.MAX_CHANNEL_NAME_LENGTH
    && forall e: Entry :: e in live ==> |e.nickname| <= ServerState.MAX_NICKNAME_LENGTH
  }

  /** With the limits on channel names and nicknames there is room, for every server name up to 291 bytes and
      for no longer one. */
  lemma LimitsLeaveRoom(serverName: string)
    ensures |serverName| <= 291 <==>
            forall channelName, live :: WithinLimits(channelName, live) ==> Roomy(|NamesTemplate(serverName, channelName)|, live)
  {
    if |serverName| > 291 {
      var channelName := seq(200, _ => 'c');
      var e := Entry("nicknames", true);
      assert e in [e] && WithinLimits(channelName, [e]);
      assert !Roomy(|NamesTemplate(serverName, channelName)|, [e]);
    }
  }

  ghost predicate AllShort(lines: seq<string>) {
    forall l :: l in lines ==> |l| <= LINE_MAX
  }

  /** A line ends in a space after a name character or an operator mark. */
  predicate WellEnded(template: string, line: string) {
    template < line && |line| >= 2 && line[|line| - 1] == ' ' && line[|line| - 2] != '\r'
  }

  /** A short line gets its CR-LF and reaches the wire whole. */
  lemma ShortLineIsWhole(template: string, line: string)
    requires WellEnded(template, line) && |line| <= LINE_MAX
    ensures Normalised(line) == line + CRLF && |Normalised(line)| <= MESSAGE_LEN_MAX
  {
  }

  // ----- What the loop keeps; rest is the live members still to come -----

  ghost predicate Shaped(template: string, lines: seq<string>, line: string) {
    && template <= line && Ended(line[|template|..]) && (line == template || WellEnded(template, line))
    && forall l :: l in lines ==> template <= l && (l == template || WellEnded(template, l))
  }

  ghost predicate Listed(template: string, live: seq<Entry>, lines: seq<string>, line: string, rest: seq<Entry>) {
    ReadLines(template, lines) + ReadLine(template, line) + rest == live
  }

  ghost predicate ShortSoFar(template: string, live: seq<Entry>, lines: seq<string>, line: string, rest: seq<Entry>) {
    && (AllShort(lines) && (line == template || |line| <= LINE_MAX) && Roomy(|template|, rest) <==> Roomy(|template|, live))
    && (Roomy(|template|, live) ==> template !in lines)
  }

  ghost predicate Counted(template: string, live: seq<Entry>, lines: seq<string>, line: string, rest: seq<Entry>) {
    && |lines| + LineCount(|template|, |line|, rest) == LineCount(|template|, |template|, live)
    && (if line == template then lines == [] && rest == live else |rest| < |live|)
  }

  ghost predicate Packed(template: string, live: seq<Entry>, lines: seq<string>, line: string, rest: seq<Entry>) {
    && Shaped(template, lines, line) && Listed(template, live, lines, line, rest)
    && ShortSoFar(template, live, lines, line, rest) && Counted(template, live, lines, line, rest)
  }

  // One member is added, after a flush when it would not fit.

  predicate Flushes(line: string, e: Entry) {
    |line| + |Element(e)| + CRLF_LEN_2 >= MESSAGE_LEN_MAX
  }

  function NextLines(lines: seq<string>, line: string, e: Entry): seq<string> {
    if Flushes(line, e) then lines + [line] else lines
  }

  function NextLine(template: string, line: string, e: Entry): string {
    (if Flushes(line, e) then template else line) + Element(e) + " "
  }

  lemma ShapedStep(template: string, lines: seq<string>, line: string, e: Entry)
    requires Shaped(template, lines, line) && ServerState.IsNickname(e.nickname)
    ensures Shaped(template, NextLines(lines, line, e), NextLine(template, line, e)) && NextLine(template, line, e) != template
  {
    var x := if Flushes(line, e) then template else line;
    var w := Element(e);
    assert w[|w| - 1] != '\r';
    assert (x + w + " ")[|template|..] == x[|template|..] + w + " ";
  }

  lemma ReadLinesPush(template: string, lines: seq<string>, line: string)
    ensures ReadLines(template, lines + [line]) == ReadLines(template, lines) + ReadLine(template, line)
    ensures ReadLine(template, template) == []
  {
    assert (lines + [line])[..|lines|] == lines;
    assert template[|template|..] == "";
  }

  lemma ListedStep(template: string, live: seq<Entry>, lines: seq<string>, line: string, e: Entry, rest: seq<Entry>)
    requires Listed(template, live, lines, line, [e] + rest) && Shaped(template, lines, line) && ServerState.IsNickname(e.nickname)
    ensures Listed(template, live, NextLines(lines, line, e), NextLine(template, line, e), rest)
  {
    hide ReadLine, ReadLines, Flushes, Element, Words, ServerState.IsNickname;
    assert template[|template|..] == "";
    ReadPush(template, if Flushes(line, e) then template else line, e);
    ReadLinesPush(template, lines, line);
  }

  lemma ShortStep(template: string, live: seq<Entry>, lines: seq<string>, line: string, e: Entry, rest: seq<Entry>)
    requires ShortSoFar(template, live, lines, line, [e] + rest) && |template| <= |line|
    ensures ShortSoFar(template, live, NextLines(lines, line, e), NextLine(template, line, e), rest)
  {
    assert Roomy(|template|, [e] + rest) <==> |template| + Width(e) <= LINE_MAX && Roomy(|template|, rest) by {
      assert e in [e] + rest && forall x :: x in [e] + rest ==> x == e || x in rest;
      assert forall x :: x in rest ==> x in [e] + rest;
    }
    hide Roomy;
    var ls := NextLines(lines, line, e);
    assert |NextLine(template, line, e)| == (if Flushes(line, e) then |template| else |line|) + Width(e);
    assert AllShort(ls) <==> AllShort(lines) && (Flushes(line, e) ==> |line| <= LINE_MAX) by {
      assert forall l :: l in ls <==> l in lines || (Flushes(line, e) && l == line);
    }
  }

  lemma CountedStep(template: string, live: seq<Entry>, lines: seq<string>, line: string, e: Entry, rest: seq<Entry>)
    requires Counted(template, live, lines, line, [e] + rest) && |template| <= |line|
    ensures Counted(template, live, NextLines(lines, line, e), NextLine(template, line, e), rest)
  {
    assert ([e] + rest)[1..] == rest && |rest| < |live|;
    assert |NextLine(template, line, e)| == (if Flushes(line, e) then |template| else |line|) + Width(e);
  }

  lemma PackedStep(template: string, live: seq<Entry>, lines: seq<string>, line: string, e: Entry, rest: seq<Entry>)
    requires Packed(template, live, lines, line, [e] + rest) && ServerState.IsNickname(e.nickname)
    ensures Packed(template, live, NextLines(lines, line, e), NextLine(template, line, e), rest)
  {
    assert template <= line;
    ShapedStep(template, lines, line, e);
    ListedStep(template, live, lines, line, e, rest);
    ShortStep(template, live, lines, line, e, rest);
    CountedStep(template, live, lines, line, e, rest);
  }

  lemma Start(template: string, live: seq<Entry>)
    ensures Packed(template, live, [], template, live)
  {
    assert template[|template|..] == "";
  }

  lemma LiveStep(clients: seq<Slot>, operators: set<string>)
    ensures clients == [] ==> Live(clients, operators) == []
    ensures clients != [] && !clients[0].bLive ==> Live(clients, operators) == Live(clients[1..], operators)
    ensures clients != [] && clients[0].bLive ==>
              Live(clients, operators) == [Entry(clients[0].nickname, clients[0].nickname in operators)] + Live(clients[1..], operators)
  {
  }

  /** The promises of PackNames. */
  ghost predicate Delivers(template: string, live: seq<Entry>, lines: seq<string>) {
    && (forall l :: l in lines ==> template <= l)
    && ReadLines(template, lines) == live
    && (AllShort(lines) <==> Roomy(|template|, live))
    && (AllShort(lines) ==> forall l :: l in lines ==> l != template && Normalised(l) == l + CRLF)
    && (forall groups :: Spreads(|template|, groups, live) ==> |lines| <= |groups|)
  }

  function Sent(template: string, lines: seq<string>, line: string): seq<string> {
    if line != template then lines + [line] else lines
  }

  /** The last line is sent unless it is bare. */
  lemma Finish(template: string, live: seq<Entry>, lines: seq<string>, line: string)
    requires Packed(template, live, lines, line, [])
    ensures Delivers(template, live, Sent(template, lines, line))
  {
    FinishLists(template, live, lines, line);
    FinishShort(template, live, lines, line);
    FinishCount(template, live, lines, line);
  }

  lemma FinishLists(template: string, live: seq<Entry>, lines: seq<string>, line: string)
    requires Shaped(template, lines, line) && Listed(template, live, lines, line, [])
    requires line == template ==> lines == [] && live == []
    ensures ReadLines(template, Sent(template, lines, line)) == live
    ensures forall l :: l in Sent(template, lines, line) ==> template <= l
  {
    hide WellEnded, ReadLine;
    if line != template {
      assert (lines + [line])[..|lines|] == lines;
    }
  }

  lemma FinishShort(template: string, live: seq<Entry>, lines: seq<string>, line: string)
    requires Shaped(template, lines, line) && ShortSoFar(template, live, lines, line, [])
    ensures var all := Sent(template, lines, line);
            && (AllShort(all) <==> Roomy(|template|, live))
            && (AllShort(all) ==> forall l :: l in all ==> l != template && Normalised(l) == l + CRLF)
  {
    var all := Sent(template, lines, line);
    hide Normalised, WellEnded;
    assert forall l :: l in all <==> l in lines || (line != template && l == line);
    assert Roomy(|template|, []);
    if AllShort(all) {
      forall l | l in all ensures l != template && Normalised(l) == l + CRLF {
        ShortLineIsWhole(template, l);
      }
    }
  }

  lemma FinishCount(template: string, live: seq<Entry>, lines: seq<string>, line: string)
    requires Counted(template, live, lines, line, [])
    ensures forall groups :: Spreads(|template|, groups, live) ==> |Sent(template, lines, line)| <= |groups|
  {
    forall groups | Spreads(|template|, groups, live) ensures |Sent(template, lines, line)| <= |groups| {
      if groups != [] {
        FewestLines(|template|, groups);
      }
    }
  }

  /** The lines sent list the live members in map order, each with its mark; every line is short enough
      exactly when a template and any one member fit a line, and then none is empty, all reach the wire
      whole, and no way of spreading the members uses fewer. */
  method PackNames(template: string, clients: seq<Slot>, operators: set<string>) returns (lines: seq<string>)
    requires AllNicknames(clients)
    ensures forall l :: l in lines ==> template <= l
    ensures ReadLines(template, lines) == Live(clients, operators)
    ensures AllShort(lines) <==> Roomy(|template|, Live(clients, operators))
    ensures AllShort(lines) ==> forall l :: l in lines ==> l != template && Normalised(l) == l + CRLF
    ensures forall groups :: Spreads(|template|, groups, Live(clients, operators)) ==> |lines| <= |groups|
  {
    ghost var live := Live(clients, operators);
    hide Shaped, Listed, ShortSoFar, Counted, Live;
    lines := [];
    var namesMsg := template;
    Start(template, live);
    assert clients[0..] == clients;
    for i := 0 to |clients|
      invariant Packed(template, live, lines, namesMsg, Live(clients[i..], operators))
    {
      LiveStep(clients[i..], operators);
      assert clients[i..][1..] == clients[i + 1..];
      if !clients[i].bLive {
        continue;
      }
      var nickname := clients[i].nickname;
      var prefix := if nickname in operators then '@' else '+';
      var element := [prefix] + nickname;
      PackedStep(template, live, lines, namesMsg, Entry(nickname, nickname in operators), Live(clients[i + 1..], operators));
      if |namesMsg| + |element| + CRLF_LEN_2 >= MESSAGE_LEN_MAX {
        lines := lines + [namesMsg];
        namesMsg := template;
      }
      namesMsg := namesMsg + element + " ";
    }
    LiveStep(clients[|clients|..], operators);
    Finish(template, live, lines, namesMsg);
    if namesMsg != template {
      lines := lines + [namesMsg];
    }
  }
}
