/** The in-place tokeniser of processClientMsg, against the message format of section 2.3.1 of RFC 1459. */
module Tokeniser {
  import opened CString

  // ----- What the scan computes, on values -----

  datatype Parsed = Parsed(command: Option<string>, args: seq<string>)

  function SkipBlanks(s: string): (r: string)
    ensures |r| <= |s| && (r != "" ==> r[0] != ' ')
  {
    if s != "" && s[0] == ' ' then SkipBlanks(s[1..]) else s
  }

  /** The length of the word a string starts with. */
  function WordLength(s: string): (n: nat)
    ensures n <= |s| && (n < |s| ==> s[n] == ' ')
    ensures forall k :: 0 <= k < n ==> s[k] != ' '
  {
    if s == "" || s[0] == ' ' then 0 else 1 + WordLength(s[1..])
  }

  /** The tokens of s, given those already found. A ':' word met before the first argument is skipped
      once, even after the command; a ':' after an argument starts the trailing part. */
  function Tokens(s: string, found: Parsed, bPrefixIgnored: bool): Parsed
    decreases |s|
  {
    var t := SkipBlanks(s);
    if t == "" then found
    else
      var n := WordLength(t);
      if t[0] == ':' && found.args == [] && !bPrefixIgnored then Tokens(t[n..], found, true)
      else if t[0] == ':' && found.args != [] then found.(args := found.args + [t[1..]])
      else Tokens(t[n..], AddWord(found, t[..n]), bPrefixIgnored)
  }

  function AddWord(found: Parsed, w: string): Parsed {
    if found.command == None then found.(command := Some(w)) else found.(args := found.args + [w])
  }

  // ----- Messages and their printed form -----

  datatype Message = Message(prefix: Option<string>, command: string, middles: seq<string>, trailing: Option<string>)

  predicate IsWord(w: string) {
    w != "" && ' ' !in w && '\0' !in w
  }

  predicate WellFormed(m: Message) {
    && (m.prefix.Some? ==> ' ' !in m.prefix.value && '\0' !in m.prefix.value)
    && IsWord(m.command) && m.command[0] != ':'
    && (forall w :: w in m.middles ==> IsWord(w) && w[0] != ':')
    && (m.trailing.Some? ==> '\0' !in m.trailing.value)
  }

  /** One or more blanks. */
  function Blanks(extra: nat): string {
    if extra == 0 then " " else " " + Blanks(extra - 1)
  }

  function PrintMiddles(ws: seq<string>, extra: nat): string {
    if ws == [] then "" else Blanks(extra) + ws[0] + PrintMiddles(ws[1..], extra)
  }

  function PrintTrailing(t: Option<string>, extra: nat): string {
    if t.Some? then Blanks(extra) + ":" + t.value else ""
  }

  function PrintPrefix(p: Option<string>, extra: nat): string {
    if p.Some? then ":" + p.value + Blanks(extra) else ""
  }

  function Print(m: Message, extra: nat): string {
    PrintPrefix(m.prefix, extra) + (m.command + (PrintMiddles(m.middles, extra) + PrintTrailing(m.trailing, extra)))
  }

  function Parts(m: Message): Parsed {
    Parsed(Some(m.command), m.middles + if m.trailing.Some? then [m.trailing.value] else [])
  }

  lemma {:induction false} SkipBlanksOf(extra: nat, s: string)
    ensures SkipBlanks(Blanks(extra) + s) == SkipBlanks(s)
    ensures Blanks(extra) != "" && Blanks(extra)[0] == ' '
  {
    var b := Blanks(extra) + s;
    if extra == 0 {
      assert b[1..] == s;
    } else {
      assert b[1..] == Blanks(extra - 1) + s;
      SkipBlanksOf(extra - 1, s);
    }
  }

  lemma {:induction false} WordLengthOf(w: string, rest: string)
    requires ' ' !in w && (rest == "" || rest[0] == ' ')
    ensures WordLength(w + rest) == |w|
    ensures (w + rest)[..|w|] == w && (w + rest)[|w|..] == rest
  {
    if w != "" {
      assert (w + rest)[1..] == w[1..] + rest;
      WordLengthOf(w[1..], rest);
    } else {
      assert w + rest == rest;
    }
  }

  /** A word that is neither a prefix nor a trailing part is taken as it is. */
  lemma TakeWord(w: string, rest: string, found: Parsed, bPrefixIgnored: bool)
    requires IsWord(w) && (rest == "" || rest[0] == ' ')
    requires w[0] == ':' ==> found.args == [] && bPrefixIgnored
    ensures Tokens(w + rest, found, bPrefixIgnored) == Tokens(rest, AddWord(found, w), bPrefixIgnored)
  {
    WordLengthOf(w, rest);
    assert SkipBlanks(w + rest) == w + rest;
  }

  lemma SkipGap(extra: nat, rest: string, found: Parsed, bPrefixIgnored: bool)
    ensures Tokens(Blanks(extra) + rest, found, bPrefixIgnored) == Tokens(rest, found, bPrefixIgnored)
  {
    SkipBlanksOf(extra, rest);
  }

  lemma PrintNoMiddles(extra: nat)
    ensures PrintMiddles([], extra) == ""
  {
  }

  lemma PrintMiddlesSplit(ws: seq<string>, rest: string, extra: nat)
    requires ws != []
    ensures PrintMiddles(ws, extra) + rest == Blanks(extra) + (ws[0] + (PrintMiddles(ws[1..], extra) + rest))
  {
    hide Blanks;
  }

  lemma {:induction false} TakeMiddles(ws: seq<string>, rest: string, extra: nat, found: Parsed, bPrefixIgnored: bool)
    requires found.command.Some? && (rest == "" || rest[0] == ' ')
    requires forall w :: w in ws ==> IsWord(w) && w[0] != ':'
    ensures Tokens(PrintMiddles(ws, extra) + rest, found, bPrefixIgnored) == Tokens(rest, found.(args := found.args + ws), bPrefixIgnored)
  {
    hide Tokens, IsWord, Blanks, PrintMiddles;
    if ws == [] {
      assert PrintMiddles([], extra) + rest == rest by { PrintNoMiddles(extra); }
      assert found.args + ws == found.args;
    } else {
      var more := PrintMiddles(ws[1..], extra) + rest;
      PrintMiddlesSplit(ws, rest, extra);
      SkipGap(extra, ws[0] + more, found, bPrefixIgnored);
      MiddlesStartBlank(ws[1..], rest, extra);
      assert ws[0] in ws;
      TakeWord(ws[0], more, found, bPrefixIgnored);
      TakeMiddles(ws[1..], rest, extra, AddWord(found, ws[0]), bPrefixIgnored);
      assert found.args + [ws[0]] + ws[1..] == found.args + ws;
    }
  }

  lemma MiddlesStartBlank(ws: seq<string>, rest: string, extra: nat)
    requires rest == "" || rest[0] == ' '
    ensures var p := PrintMiddles(ws, extra) + rest; p == "" || p[0] == ' '
  {
    SkipBlanksOf(extra, "");
  }

  /** The prefix is dropped, and remembered as dropped. */
  lemma SkipPrefix(m: Message, extra: nat)
    requires WellFormed(m)
    ensures Tokens(Print(m, extra), Parsed(None, []), false) ==
            Tokens(PrintMiddles(m.middles, extra) + PrintTrailing(m.trailing, extra), Parsed(Some(m.command), []), m.prefix.Some?)
  {
    var tail := PrintMiddles(m.middles, extra) + PrintTrailing(m.trailing, extra);
    var none := Parsed(None, []);
    SkipBlanksOf(extra, "");
    MiddlesStartBlank(m.middles, PrintTrailing(m.trailing, extra), extra);
    TakeWord(m.command, tail, none, m.prefix.Some?);
    if m.prefix.Some? {
      var p := ":" + m.prefix.value;
      var rest := Blanks(extra) + (m.command + tail);
      assert Print(m, extra) == p + rest;
      WordLengthOf(p, rest);
      assert SkipBlanks(p + rest) == p + rest;
      SkipGap(extra, m.command + tail, none, true);
    } else {
      assert Print(m, extra) == m.command + tail;
    }
  }

  /** The scan undoes the printer exactly when there is no trailing part or at least one middle parameter.
      Otherwise the first word of the trailing part is dropped as a prefix, or keeps its ':'. */
  lemma TokensUndoPrint(m: Message, extra: nat)
    requires WellFormed(m)
    ensures Tokens(Print(m, extra), Parsed(None, []), false) == Parts(m) <==> m.trailing.None? || m.middles != []
  {
    hide Tokens, Blanks, IsWord;
    var t := PrintTrailing(m.trailing, extra);
    var found := Parsed(Some(m.command), []);
    SkipPrefix(m, extra);
    SkipBlanksOf(extra, "");
    TakeMiddles(m.middles, t, extra, found, m.prefix.Some?);
    assert found.(args := [] + m.middles) == Parsed(Some(m.command), m.middles);
    if m.trailing.Some? {
      SkipGap(extra, ":" + m.trailing.value, Parsed(Some(m.command), m.middles), m.prefix.Some?);
      assert t == Blanks(extra) + (":" + m.trailing.value);
      if m.middles == [] {
        LoneTrailingIsLost(m.command, m.trailing.value, m.prefix.Some?);
        assert [] + [m.trailing.value] == [m.trailing.value];
      } else {
        TakeTrailing(m.trailing.value, Parsed(Some(m.command), m.middles), m.prefix.Some?);
      }
    } else {
      NothingLeft(Parsed(Some(m.command), m.middles), m.prefix.Some?);
      assert m.middles + [] == m.middles;
    }
  }

  lemma TakeTrailing(t: string, found: Parsed, bPrefixIgnored: bool)
    requires found.args != []
    ensures Tokens(":" + t, found, bPrefixIgnored) == found.(args := found.args + [t])
  {
    assert (":" + t)[1..] == t;
    assert SkipBlanks(":" + t) == ":" + t;
  }

  lemma NothingLeft(found: Parsed, bPrefixIgnored: bool)
    ensures Tokens("", found, bPrefixIgnored) == found
  {
  }

  lemma LoneTrailingIsLost(command: string, t: string, bPrefixIgnored: bool)
    ensures Tokens(":" + t, Parsed(Some(command), []), bPrefixIgnored) != Parsed(Some(command), [t])
  {
    var s := ":" + t;
    var n := WordLength(s);
    var found := Parsed(Some(command), []);
    assert SkipBlanks(s) == s && n >= 1;
    if !bPrefixIgnored {
      var u := SkipBlanks(s[n..]);
      assert SkipBlanks(u) == u;
      assert Tokens(s, found, false) == Tokens(s[n..], found, true) == Tokens(u, found, true);
      ArgsAreShort(u, found, true);
      assert n == 1 ==> s[1..] == t;
      assert t == "" ==> u == "";
      assert t != "" ==> |u| < |t|;
      var r := Tokens(u, found, true).args;
      assert r != [] ==> |r[0]| <= |u|;
      assert [t][0] == t;
    } else {
      var w := s[..n];
      ArgsKept(s[n..], AddWord(found, w), true);
      assert [] + [w] == [w];
      assert Tokens(s, found, true) == Tokens(s[n..], AddWord(found, w), true);
      assert Tokens(s, found, true).args[0] == [w][0] == w;
      WordIsNotRest(s, t, n);
    }
  }

  lemma WordIsNotRest(s: string, t: string, n: nat)
    requires s == ":" + t && n == WordLength(s) && n >= 1
    ensures s[..n] != t
  {
    if |t| == n {
      assert t[n - 1] == s[n] == ' ';
      assert s[..n][n - 1] != ' ';
    }
  }

  /** Arguments found so far stay in front. */
  lemma {:induction false} ArgsKept(s: string, found: Parsed, bPrefixIgnored: bool)
    ensures found.args <= Tokens(s, found, bPrefixIgnored).args
    decreases |s|
  {
    var t := SkipBlanks(s);
    if t != "" {
      var n := WordLength(t);
      if t[0] == ':' && found.args == [] && !bPrefixIgnored {
        ArgsKept(t[n..], found, true);
      } else if !(t[0] == ':' && found.args != []) {
        ArgsKept(t[n..], AddWord(found, t[..n]), bPrefixIgnored);
      }
    }
  }

  /** No argument is longer than the text it came from. */
  lemma {:induction false} ArgsAreShort(s: string, found: Parsed, bPrefixIgnored: bool)
    ensures ShortFrom(Tokens(s, found, bPrefixIgnored).args, |found.args|, |s|)
    decreases |s|
  {
    var t := SkipBlanks(s);
    if t != "" {
      var n := WordLength(t);
      if t[0] == ':' && found.args == [] && !bPrefixIgnored {
        ArgsAreShort(t[n..], found, true);
      } else if !(t[0] == ':' && found.args != []) {
        var next := AddWord(found, t[..n]);
        ArgsKept(t[n..], next, bPrefixIgnored);
        ArgsAreShort(t[n..], next, bPrefixIgnored);
        ShortFromNext(Tokens(t[n..], next, bPrefixIgnored).args, found, t[..n], |t[n..]|, |s|);
      }
    }
  }

  ghost predicate ShortFrom(r: seq<string>, from: nat, bound: nat) {
    forall k :: from <= k < |r| ==> |r[k]| <= bound
  }

  lemma ShortFromNext(r: seq<string>, found: Parsed, w: string, small: nat, bound: nat)
    requires AddWord(found, w).args <= r && ShortFrom(r, |AddWord(found, w).args|, small)
    requires small <= bound && |w| <= bound
    ensures ShortFrom(r, |found.args|, bound)
  {
    forall k | |found.args| <= k < |r| ensures |r[k]| <= bound {
      if k < |AddWord(found, w).args| {
        assert r[k] == AddWord(found, w).args[k];
      }
    }
  }

  /** A first argument is never empty; only a trailing part can be. */
  lemma {:induction false} FirstArgumentNotEmpty(s: string, found: Parsed, bPrefixIgnored: bool)
    requires found.args != [] ==> found.args[0] != ""
    ensures var r := Tokens(s, found, bPrefixIgnored).args; r != [] ==> r[0] != ""
    decreases |s|
  {
    var t := SkipBlanks(s);
    if t != "" {
      var n := WordLength(t);
      if t[0] == ':' && found.args == [] && !bPrefixIgnored {
        FirstArgumentNotEmpty(t[n..], found, true);
      } else if !(t[0] == ':' && found.args != []) {
        FirstArgumentNotEmpty(t[n..], AddWord(found, t[..n]), bPrefixIgnored);
      }
    }
  }

  /** A trailing part may be empty, so the fourth argument of USER may be, which its handler asserts it is not. */
  lemma LastArgumentOfUserMayBeEmpty(user: string, host: string, server: string)
    requires IsWord(user) && IsWord(host) && IsWord(server)
    requires user[0] != ':' && host[0] != ':' && server[0] != ':'
    ensures var line := Print(Message(None, "USER", [user, host, server], Some("")), 0);
            Tokens(line, Parsed(None, []), false) == Parsed(Some("USER"), [user, host, server, ""])
  {
    var m := Message(None, "USER", [user, host, server], Some(""));
    assert WellFormed(m);
    TokensUndoPrint(m, 0);
    assert Parts(m).args == [user, host, server, ""];
  }

  // ----- Why the scan needs a message without NUL -----

  datatype Progress = Progress(rest: string, found: Parsed, bPrefixIgnored: bool, bDone: bool)

  /** A token ends at a blank or at a NUL. */
  function TokenLength(s: string): (n: nat)
    ensures n <= |s|
  {
    if s == "" || s[0] == ' ' || s[0] == '\0' then 0 else 1 + TokenLength(s[1..])
  }

  /** One pass of the outer loop, over any bytes. */
  function OnePass(p: Progress): Progress {
    var t := SkipBlanks(p.rest);
    if p.bDone || t == "" then p.(bDone := true)
    else if t[0] == ':' && p.found.args == [] && !p.bPrefixIgnored then
      p.(rest := Rest(t, WordLength(t) + 1), bPrefixIgnored := true)
    else if t[0] == ':' && p.found.args != [] then
      p.(found := p.found.(args := p.found.args + [t[1..]]), bDone := true)
    else
      p.(rest := t[TokenLength(t)..], found := AddWord(p.found, t[..TokenLength(t)]))
  }

  function Passes(p: Progress, n: nat): Progress
    decreases n
  {
    if n == 0 then p else Passes(OnePass(p), n - 1)
  }

  lemma {:induction false} DoneStays(p: Progress, n: nat)
    requires p.bDone
    ensures Passes(p, n) == p
    decreases n
  {
    if n > 0 { DoneStays(OnePass(p), n - 1); }
  }

  /** Some word that is taken as the command or as an argument holds a NUL. Prefixes and trailing parts may. */
  predicate TakesNul(s: string, found: Parsed, bPrefixIgnored: bool)
    decreases |s|
  {
    var t := SkipBlanks(s);
    if t == "" then false
    else
      var n := WordLength(t);
      if t[0] == ':' && found.args == [] && !bPrefixIgnored then TakesNul(t[n..], found, true)
      else if t[0] == ':' && found.args != [] then false
      else '\0' in t[..n] || TakesNul(t[n..], AddWord(found, t[..n]), bPrefixIgnored)
  }

  /** A token stops short of its word exactly when the word holds a NUL, and then it stops on one. */
  lemma {:induction false} TokenInWord(s: string)
    ensures var k, n := TokenLength(s), WordLength(s);
            k <= n && (k == n <==> '\0' !in s[..n]) && (k < n ==> s[k] == '\0')
  {
    if s != "" && s[0] != ' ' {
      var n := WordLength(s);
      assert s[..n] == [s[0]] + s[1..][..n - 1];
      TokenInWord(s[1..]);
    }
  }

  lemma NulPastGap(s: string, i: nat, found: Parsed, b: bool)
    requires i <= |s| && (i < |s| ==> s[i] == ' ')
    ensures TakesNul(s[i..], found, b) == TakesNul(Rest(s, i + 1), found, b)
  {
    if i < |s| {
      assert s[i..][1..] == s[i + 1..];
      assert SkipBlanks(s[i..]) == SkipBlanks(s[i + 1..]);
    }
  }

  /** A pass that takes no NUL finishes with the tokens, or gets on and leaves the rest of them to find. */
  lemma PassGetsOn(s: string, found: Parsed, b: bool)
    requires !TakesNul(s, found, b)
    ensures var p := OnePass(Progress(s, found, b, false));
            if p.bDone then p.found == Tokens(s, found, b)
            else
              && !TakesNul(p.rest, p.found, p.bPrefixIgnored) && |p.rest| < |s|
              && Tokens(p.rest, p.found, p.bPrefixIgnored) == Tokens(s, found, b)
  {
    var t := SkipBlanks(s);
    TokenInWord(t);
    if t != "" && t[0] == ':' && found.args == [] && !b {
      RestPastGap(t, WordLength(t), found, true);
      NulPastGap(t, WordLength(t), found, true);
    }
  }

  /** If no NUL is taken the loop is done after at most one pass more than there are bytes, with the tokens. */
  lemma {:induction false} LoopEndsWithTokens(s: string, found: Parsed, b: bool, n: nat)
    requires !TakesNul(s, found, b) && n > |s|
    ensures var p := Passes(Progress(s, found, b, false), n);
            p.bDone && p.found == Tokens(s, found, b)
    decreases |s|
  {
    hide Tokens, OnePass, TakesNul;
    PassGetsOn(s, found, b);
    var p := OnePass(Progress(s, found, b, false));
    if p.bDone {
      DoneStays(p, n - 1);
    } else {
      LoopEndsWithTokens(p.rest, p.found, p.bPrefixIgnored, n - 1);
    }
  }

  /** A pass from a message that takes a NUL leaves such a message: a NUL that a token starts on is never passed. */
  lemma PassKeepsNul(p: Progress)
    requires !p.bDone && TakesNul(p.rest, p.found, p.bPrefixIgnored)
    ensures var q := OnePass(p); !q.bDone && TakesNul(q.rest, q.found, q.bPrefixIgnored)
  {
    TakesNulSays(p.rest, p.found, p.bPrefixIgnored);
    var t := SkipBlanks(p.rest);
    var n, k := WordLength(t), TokenLength(t);
    TokenInWord(t);
    hide SkipBlanks, TokenLength, WordLength, TakesNul;
    if t[0] == ':' && p.found.args == [] && !p.bPrefixIgnored {
      NulPastGap(t, n, p.found, true);
    } else if k < n {
      StartsOnNul(t[k..], AddWord(p.found, t[..k]), p.bPrefixIgnored);
    }
  }

  lemma TakesNulSays(s: string, found: Parsed, b: bool)
    ensures var t := SkipBlanks(s);
            var n := WordLength(t);
            TakesNul(s, found, b) ==
            (t != "" &&
             if t[0] == ':' && found.args == [] && !b then TakesNul(t[n..], found, true)
             else !(t[0] == ':' && found.args != []) && ('\0' in t[..n] || TakesNul(t[n..], AddWord(found, t[..n]), b)))
  {
  }

  lemma StartsOnNul(s: string, found: Parsed, b: bool)
    requires s != "" && s[0] == '\0'
    ensures TakesNul(s, found, b)
  {
    assert SkipBlanks(s) == s && WordLength(s) >= 1;
    assert s[..WordLength(s)][0] == '\0';
    hide SkipBlanks, WordLength;
  }

  lemma {:induction false} NulNeverEnds(p: Progress, n: nat)
    requires !p.bDone && TakesNul(p.rest, p.found, p.bPrefixIgnored)
    ensures !Passes(p, n).bDone
    decreases n
  {
    hide OnePass, TakesNul;
    if n > 0 {
      PassKeepsNul(p);
      NulNeverEnds(OnePass(p), n - 1);
    }
  }

  /** The loop ends if and only if no NUL is taken. */
  lemma LoopEndsExactly(s: string)
    ensures (exists n :: Passes(Progress(s, Parsed(None, []), false, false), n).bDone) <==> !TakesNul(s, Parsed(None, []), false)
  {
    hide Passes, TakesNul;
    var p := Progress(s, Parsed(None, []), false, false);
    if TakesNul(s, p.found, false) {
      forall n: nat ensures !Passes(p, n).bDone {
        NulNeverEnds(p, n);
      }
    } else {
      LoopEndsWithTokens(s, p.found, false, |s| + 1);
    }
  }

  /** In particular it ends for every message without NUL. */
  lemma {:induction false} NoNulToTake(s: string, found: Parsed, b: bool)
    requires '\0' !in s
    ensures !TakesNul(s, found, b)
    decreases |s|
  {
    var t := SkipBlanks(s);
    SuffixOf(s);
    if t != "" {
      var n := WordLength(t);
      NoNulToTake(t[n..], found, true);
      NoNulToTake(t[n..], AddWord(found, t[..n]), b);
    }
  }

  lemma {:induction false} SuffixOf(s: string)
    ensures SkipBlanks(s) == s[|s| - |SkipBlanks(s)|..]
  {
    if s != "" && s[0] == ' ' { SuffixOf(s[1..]); }
  }

  // ----- The scan in place -----

  const MESSAGE_LEN_MAX := 512
  const CRLF_LEN_2 := 2

  /** The strings a command handler finds at the pointers the scan left. */
  function Reads(buf: seq<char>, command: Option<nat>, args: seq<nat>): Parsed {
    Parsed(if command.Some? then Some(At(buf, command.value)) else None, seq(|args|, k requires 0 <= k < |args| => At(buf, args[k])))
  }

  /** Token w was found at p and the scan has reached i: the token is intact, and it is closed by a NUL or
      by the blank, not yet overwritten, at which the scan stands. */
  ghost predicate Kept(buf: seq<char>, len: nat, p: nat, w: string, i: nat) {
    && p + |w| <= i && p + |w| <= len < |buf| && buf[p..p + |w|] == w && '\0' !in w
    && if p + |w| < i && p + |w| < len then buf[p + |w|] == '\0' else p + |w| == len || buf[p + |w|] == ' '
  }

  ghost predicate AllKept(buf: seq<char>, len: nat, command: Option<nat>, args: seq<nat>, found: Parsed, i: nat) {
    && (command.Some? <==> found.command.Some?)
    && (command.Some? ==> Kept(buf, len, command.value, found.command.value, i))
    && |args| == |found.args|
    && (forall k :: 0 <= k < |args| ==> Kept(buf, len, args[k], found.args[k], i))
  }

  function Rest(s: string, i: nat): string {
    if i <= |s| then s[i..] else ""
  }

  /** The bytes from i on are as they came. */
  ghost predicate Ahead(buf: seq<char>, s: string, i: nat) {
    |s| < |buf| && buf[|s|] == '\r' && (forall j :: i <= j < |s| ==> buf[j] == s[j])
  }

  lemma KeptPastBlank(buf: seq<char>, len: nat, p: nat, w: string, i: nat)
    requires Kept(buf, len, p, w, i) && i < len < |buf| && buf[i] == ' '
    ensures Kept(buf[i := '\0'], len, p, w, i + 1)
  {
    assert buf[i := '\0'][p..p + |w|] == buf[p..p + |w|];
  }

  lemma AllKeptPastBlank(buf: seq<char>, len: nat, command: Option<nat>, args: seq<nat>, found: Parsed, i: nat)
    requires AllKept(buf, len, command, args, found, i) && i < len < |buf| && buf[i] == ' '
    ensures AllKept(buf[i := '\0'], len, command, args, found, i + 1)
  {
    hide Kept;
    if command.Some? { KeptPastBlank(buf, len, command.value, found.command.value, i); }
    forall k | 0 <= k < |args| ensures Kept(buf[i := '\0'], len, args[k], found.args[k], i + 1) {
      KeptPastBlank(buf, len, args[k], found.args[k], i);
    }
  }

  /** Moving on from a byte that is not a blank disturbs no token. */
  lemma AllKeptFurther(buf: seq<char>, len: nat, command: Option<nat>, args: seq<nat>, found: Parsed, i: nat, j: nat)
    requires AllKept(buf, len, command, args, found, i) && i <= j && len < |buf|
    requires i < len ==> buf[i] != ' '
    ensures AllKept(buf, len, command, args, found, j)
  {
  }

  /** A word from i to j, not a prefix and not a trailing part, is a new token. */
  lemma AllKeptWord(buf: seq<char>, len: nat, command: Option<nat>, args: seq<nat>, found: Parsed, i: nat, j: nat)
    requires AllKept(buf, len, command, args, found, i) && i < j <= len < |buf|
    requires buf[i] != ' ' && '\0' !in buf[i..j] && (j < len ==> buf[j] == ' ')
    ensures var command' := if command == None then Some(i) else command;
            var args' := if command == None then args else args + [i];
            AllKept(buf, len, command', args', AddWord(found, buf[i..j]), j)
  {
    AllKeptFurther(buf, len, command, args, found, i, j);
    assert Kept(buf, len, i, buf[i..j], j);
  }

  /** Overwriting a ':' that follows a NUL, or the byte after the message, leaves every token readable. */
  lemma KeptIsRead(buf: seq<char>, len: nat, p: nat, w: string, i: nat)
    requires Kept(buf, len, p, w, i) && i >= len && buf[len] == '\0'
    ensures At(buf, p) == w
  {
    AtIs(buf, p, p + |w|);
  }

  lemma AllRead(buf: seq<char>, len: nat, command: Option<nat>, args: seq<nat>, found: Parsed, i: nat)
    requires AllKept(buf, len, command, args, found, i) && i >= len && len < |buf| && buf[len] == '\0'
    ensures Reads(buf, command, args) == found
  {
    if command.Some? { KeptIsRead(buf, len, command.value, found.command.value, i); }
    forall k | 0 <= k < |args| ensures Reads(buf, command, args).args[k] == found.args[k] {
      KeptIsRead(buf, len, args[k], found.args[k], i);
    }
    assert Reads(buf, command, args).args == found.args;
  }

  lemma KeptUnderWrite(buf: seq<char>, len: nat, p: nat, w: string, i: nat, at: nat, c: char)
    requires Kept(buf, len, p, w, i) && at < |buf|
    requires at == len || (at == i < len && buf[i] != ' ')
    ensures Kept(buf[at := c], len, p, w, i)
  {
    assert buf[at := c][p..p + |w|] == buf[p..p + |w|];
  }

  lemma AllKeptUnderWrite(buf: seq<char>, len: nat, command: Option<nat>, args: seq<nat>, found: Parsed, i: nat, at: nat, c: char)
    requires AllKept(buf, len, command, args, found, i) && at < |buf|
    requires at == len || (at == i < len && buf[i] != ' ')
    ensures AllKept(buf[at := c], len, command, args, found, i)
  {
    hide Kept;
    if command.Some? { KeptUnderWrite(buf, len, command.value, found.command.value, i, at, c); }
    forall k | 0 <= k < |args| ensures Kept(buf[at := c], len, args[k], found.args[k], i) {
      KeptUnderWrite(buf, len, args[k], found.args[k], i, at, c);
    }
  }

  /** The trailing part is the rest of the message. */
  lemma AllKeptTrailing(buf: seq<char>, s: string, command: Option<nat>, args: seq<nat>, found: Parsed, i: nat)
    requires AllKept(buf, |s|, command, args, found, i) && Ahead(buf, s, i) && '\0' !in s
    requires i < |s| && s[i] == ':'
    ensures AllKept(buf[i := '\0'], |s|, command, args + [i + 1], found.(args := found.args + [s[i..][1..]]), |s|)
  {
    var t := s[i..][1..];
    var buf' := buf[i := '\0'];
    AllKeptUnderWrite(buf, |s|, command, args, found, i, i, '\0');
    AllKeptFurther(buf', |s|, command, args, found, i, |s|);
    assert t == s[i + 1..];
    assert buf'[i + 1..|s|] == t;
    assert Kept(buf', |s|, i + 1, t, |s|);
  }

  /** The scan over a blank, and over a word of any kind, agrees with the functional scan. */
  lemma TokensPastBlank(s: string, i: nat, found: Parsed, b: bool)
    requires i < |s| && s[i] == ' '
    ensures Tokens(Rest(s, i), found, b) == Tokens(Rest(s, i + 1), found, b)
  {
    assert s[i..][1..] == s[i + 1..];
  }

  lemma TokensPastWord(s: string, i: nat, j: nat, found: Parsed, b: bool)
    requires i < j <= |s| && ' ' !in s[i..j] && (j < |s| ==> s[j] == ' ')
    ensures Tokens(s[i..], found, b) ==
            if s[i] == ':' && found.args == [] && !b then Tokens(s[j..], found, true)
            else if s[i] == ':' && found.args != [] then found.(args := found.args + [s[i..][1..]])
            else Tokens(s[j..], AddWord(found, s[i..j]), b)
  {
    var t := s[i..];
    assert t == s[i..j] + s[j..];
    WordLengthOf(s[i..j], s[j..]);
    assert s[i..j][0] == s[i];
    assert SkipBlanks(t) == t;
  }

  lemma Starts(buf: seq<char>, s: string)
    requires |s| < |buf| && s == buf[..|s|] && buf[|s|] == '\r'
    ensures AllKept(buf, |s|, None, [], Parsed(None, []), 0) && Ahead(buf, s, 0)
    ensures Rest(s, 0) == s
  {
  }

  lemma Shape(buf: seq<char>, len: nat, command: Option<nat>, args: seq<nat>, found: Parsed, i: nat)
    requires AllKept(buf, len, command, args, found, i)
    ensures |args| == |found.args| && (command.Some? <==> found.command.Some?)
  {
  }

  lemma RestPastGap(s: string, i: nat, found: Parsed, b: bool)
    requires i <= |s| && (i < |s| ==> s[i] == ' ')
    ensures Tokens(s[i..], found, b) == Tokens(Rest(s, i + 1), found, b)
  {
    if i < |s| { TokensPastBlank(s, i, found, b); }
  }

  lemma WordWithin(s: string, i: nat)
    requires i < |s| && s[i] != ' '
    ensures var j := i + WordLength(s[i..]); i < j <= |s| && ' ' !in s[i..j] && (j < |s| ==> s[j] == ' ')
  {
    var n := WordLength(s[i..]);
    assert s[i..i + n] == s[i..][..n];
  }

  /** The state of the scan at byte i: the tokens found are intact, the bytes from i on are untouched, and
      scanning them will complete the goal. */
  ghost predicate Scanning(buf: seq<char>, s: string, i: nat, command: Option<nat>, args: seq<nat>, found: Parsed, b: bool, goal: Parsed) {
    && |s| < |buf| && i <= |s| + 1 && '\0' !in s
    && AllKept(buf, |s|, command, args, found, i) && Ahead(buf, s, i)
    && Tokens(Rest(s, i), found, b) == goal
  }

  lemma ScanningFacts(buf: seq<char>, s: string, i: nat, command: Option<nat>, args: seq<nat>, found: Parsed, b: bool, goal: Parsed)
    requires Scanning(buf, s, i, command, args, found, b, goal)
    ensures |s| < |buf| && i <= |s| + 1 && buf[|s|] == '\r' && (i <= |s| ==> '\0' !in buf[i..|s|])
    ensures |args| == |found.args| && (command.Some? <==> found.command.Some?)
  {
  }

  lemma ScanStarts(buf: seq<char>, s: string)
    requires |s| < |buf| && s == buf[..|s|] && buf[|s|] == '\r' && '\0' !in s
    ensures Scanning(buf, s, 0, None, [], Parsed(None, []), false, Tokens(s, Parsed(None, []), false))
  {
    hide Tokens;
    Starts(buf, s);
  }

  lemma ScanBlank(buf: seq<char>, s: string, i: nat, command: Option<nat>, args: seq<nat>, found: Parsed, b: bool, goal: Parsed)
    requires Scanning(buf, s, i, command, args, found, b, goal) && i < |s| && buf[i] == ' '
    ensures Scanning(buf[i := '\0'], s, i + 1, command, args, found, b, goal)
  {
    hide AllKept, Tokens;
    AllKeptPastBlank(buf, |s|, command, args, found, i);
    TokensPastBlank(s, i, found, b);
  }

  lemma ScanPrefix(buf: seq<char>, s: string, i: nat, j: nat, command: Option<nat>, args: seq<nat>, found: Parsed, goal: Parsed)
    requires Scanning(buf, s, i, command, args, found, false, goal) && |args| == 0 && i < |s| && buf[i] == ':'
    requires i < j <= |s| && ' ' !in buf[i..j] && (j < |s| ==> buf[j] == ' ')
    ensures Scanning(buf, s, j + 1, command, args, found, true, goal)
  {
    hide AllKept, Tokens;
    Shape(buf, |s|, command, args, found, i);
    assert buf[i..j] == s[i..j];
    TokensPastWord(s, i, j, found, false);
    AllKeptFurther(buf, |s|, command, args, found, i, j + 1);
    RestPastGap(s, j, found, true);
  }

  lemma ScanTrailing(buf: seq<char>, s: string, i: nat, command: Option<nat>, args: seq<nat>, found: Parsed, b: bool, goal: Parsed)
    requires Scanning(buf, s, i, command, args, found, b, goal) && |args| > 0 && i < |s| && buf[i] == ':'
    ensures AllKept(buf[i := '\0'], |s|, command, args + [i + 1], goal, |s|)
  {
    hide AllKept, Tokens;
    Shape(buf, |s|, command, args, found, i);
    AllKeptTrailing(buf, s, command, args, found, i);
    WordWithin(s, i);
    TokensPastWord(s, i, i + WordLength(s[i..]), found, b);
  }

  lemma ScanWord(buf: seq<char>, s: string, i: nat, j: nat, command: Option<nat>, args: seq<nat>, found: Parsed, b: bool, goal: Parsed)
    requires Scanning(buf, s, i, command, args, found, b, goal) && i < |s|
    requires buf[i] == ':' ==> |args| == 0 && b
    requires i < j <= |s| && ' ' !in buf[i..j] && (j < |s| ==> buf[j] == ' ')
    ensures Scanning(buf, s, j, if command == None then Some(i) else command, if command == None then args else args + [i],
                     AddWord(found, s[i..j]), b, goal)
  {
    hide AllKept, Tokens, AddWord;
    Shape(buf, |s|, command, args, found, i);
    assert buf[i..j] == s[i..j];
    assert buf[i] == buf[i..j][0];
    assert '\0' !in buf[i..j];
    TokensPastWord(s, i, j, found, b);
    AllKeptWord(buf, |s|, command, args, found, i, j);
  }

  lemma ScanNothing(buf: seq<char>, s: string, command: Option<nat>, args: seq<nat>, found: Parsed, b: bool, goal: Parsed)
    requires Scanning(buf, s, |s|, command, args, found, b, goal)
    ensures Scanning(buf, s, |s| + 1, command, args, found, b, goal)
  {
    AllKeptFurther(buf, |s|, command, args, found, |s|, |s| + 1);
  }

  /** When the loop is over the tokens are complete. */
  lemma ScanOver(buf: seq<char>, s: string, i: nat, command: Option<nat>, args: seq<nat>, found: Parsed, b: bool, goal: Parsed)
    requires Scanning(buf, s, i, command, args, found, b, goal) && i >= |s|
    ensures AllKept(buf, |s|, command, args, goal, i)
  {
    assert Rest(s, i) == "";
  }

  lemma CloseMessage(buf: seq<char>, len: nat, i: nat, command: Option<nat>, args: seq<nat>, goal: Parsed)
    requires len < |buf| && i >= len && AllKept(buf, len, command, args, goal, i)
    ensures Reads(buf[len := '\0'], command, args) == goal
  {
    AllKeptUnderWrite(buf, len, command, args, goal, i, len, '\0');
    AllRead(buf[len := '\0'], len, command, args, goal, i);
  }

  /** The inner loops: the end of the word at i0. */
  method WordEnd(msg: array<char>, i0: nat, len: nat, bStopAtNul: bool) returns (i: nat)
    requires i0 < len <= msg.Length && msg[i0] != ' ' && '\0' !in msg[i0..len]
    ensures i0 < i <= len && ' ' !in msg[i0..i] && (i < len ==> msg[i] == ' ')
  {
    i := i0;
    while i < len && msg[i] != ' ' && !(bStopAtNul && msg[i] == '\0')
      invariant i0 <= i <= len && ' ' !in msg[i0..i]
    {
      i := i + 1;
    }
    if i < len {
      assert msg[i0..len][i - i0] == msg[i];
    }
  }

  /** The loops of processClientMsg over a message of at most 510 bytes without NUL, in a block that still
      holds the CR-LF after it. The strings at the pointers are the tokens of the message. */
  method Tokenise(msg: array<char>, len: nat) returns (command: Option<nat>, args: seq<nat>)
    requires msg.Length == MESSAGE_LEN_MAX && len <= MESSAGE_LEN_MAX - CRLF_LEN_2
    requires '\0' !in msg[..len] && msg[len] == '\r'
    modifies msg
    ensures Reads(msg[..], command, args) == Tokens(old(msg[..len]), Parsed(None, []), false)
  {
    hide Tokens, AllKept, Reads, Scanning, Rest, AddWord;
    ghost var s := msg[..len];
    ghost var found := Parsed(None, []);
    ghost var goal := Tokens(s, found, false);
    command, args := None, [];
    var bPrefixIgnored := false;
    var i: int := 0;
    ghost var bTrailing := false;
    ScanStarts(msg[..], s);
    while i < len
      invariant 0 <= i <= len + 1 && |s| == len && !bTrailing
      invariant Scanning(msg[..], s, i, command, args, found, bPrefixIgnored, goal)
      decreases len + 1 - i
    {
      ghost var start := i;
      while i < len && msg[i] == ' '
        invariant start <= i <= len
        invariant Scanning(msg[..], s, i, command, args, found, bPrefixIgnored, goal)
      {
        ScanBlank(msg[..], s, i, command, args, found, bPrefixIgnored, goal);
        ghost var buf := msg[..];
        msg[i] := '\0';
        assert msg[..] == buf[i := '\0'];
        i := i + 1;
      }
      ScanningFacts(msg[..], s, i, command, args, found, bPrefixIgnored, goal);
      if msg[i] == ':' && |args| == 0 && !bPrefixIgnored {
        var j := WordEnd(msg, i, len, false);
        ScanPrefix(msg[..], s, i, j, command, args, found, goal);
        i := j;
        bPrefixIgnored := true;
      } else if msg[i] == ':' && |args| > 0 {
        ScanTrailing(msg[..], s, i, command, args, found, bPrefixIgnored, goal);
        ghost var buf := msg[..];
        msg[i] := '\0';
        assert msg[..] == buf[i := '\0'];
        args := args + [i + 1];
        i := len;
        bTrailing := true;
        break;
      } else if i < len {
        var j := WordEnd(msg, i, len, true);
        ScanWord(msg[..], s, i, j, command, args, found, bPrefixIgnored, goal);
        found := AddWord(found, s[i..j]);
        if command == None {
          command := Some(i);
        } else {
          args := args + [i];
        }
        i := j - 1;
      } else {
        ScanNothing(msg[..], s, command, args, found, bPrefixIgnored, goal);
      }
      i := i + 1;
    }
    if !bTrailing {
      ScanOver(msg[..], s, i, command, args, found, bPrefixIgnored, goal);
    }
    ghost var buf := msg[..];
    CloseMessage(buf, len, i, command, args, goal);
    msg[len] := '\0';
    assert msg[..] == buf[len := '\0'];
  }
}
