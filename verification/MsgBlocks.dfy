/** Message blocks: a fixed buffer of 512 bytes and a length, and the CR-LF normalisation of outgoing messages. */
module MsgBlocks {

  const MESSAGE_LEN_MAX := 512
  const CRLF_LEN_2 := 2
  const CRLF: string := "\r\n"

  // ----- What building and normalising compute -----

  /** The truncating constructors: a length of exactly 511 is left as it is. */
  function Truncated(b: string): string {
    if |b| >= MESSAGE_LEN_MAX then b[..MESSAGE_LEN_MAX - CRLF_LEN_2] else b
  }

  /** The test before appending CR-LF; it asks for both bytes to differ. */
  predicate NeedsCrlf(b: string) {
    |b| < CRLF_LEN_2 || (b[|b| - 2] != '\r' && b[|b| - 1] != '\n')
  }

  function Normalised(b: string): string {
    var t := Truncated(b);
    if NeedsCrlf(t) then t + CRLF else t
  }

  /** The normalised message fits its block. */
  predicate Fits(b: string) {
    |Normalised(b)| <= MESSAGE_LEN_MAX
  }

  predicate EndsInCrlf(b: string) {
    |b| >= CRLF_LEN_2 && b[|b| - 2] == '\r' && b[|b| - 1] == '\n'
  }

  /** Normalising stays inside the block exactly unless 511 bytes need a CR-LF. */
  lemma FitsUnless511(b: string)
    ensures Fits(b) <==> !(|b| == MESSAGE_LEN_MAX - 1 && NeedsCrlf(b))
  {
  }

  /** A shared block may be normalised again at every enqueue, even when it is full, exactly when it fits. */
  lemma NormalisedTwice(b: string)
    ensures Normalised(Normalised(b)) == Normalised(b) <==> Fits(b)
  {
    var t := Truncated(b);
    var n := Normalised(b);
    if NeedsCrlf(t) {
      assert n[..|t|] == t;
      assert n[|n| - 2] == '\r' && n[|n| - 1] == '\n';
      if |t| == MESSAGE_LEN_MAX - CRLF_LEN_2 {
        assert Truncated(n) == t;
      } else if |t| < MESSAGE_LEN_MAX - CRLF_LEN_2 {
        assert Truncated(n) == n;
      } else {
        assert |Truncated(n)| == MESSAGE_LEN_MAX - CRLF_LEN_2;
      }
    } else {
      assert Truncated(n) == n;
    }
  }

  /** A message reaches the wire with its terminator exactly unless its last two bytes, after truncation,
      are half a terminator: a CR before another byte, or a LF after another byte. */
  lemma TerminatedUnlessHalf(b: string)
    ensures var t := Truncated(b);
            EndsInCrlf(Normalised(b)) <==>
            !(|t| >= CRLF_LEN_2 && ((t[|t| - 2] == '\r' && t[|t| - 1] != '\n') || (t[|t| - 2] != '\r' && t[|t| - 1] == '\n')))
  {
    var t := Truncated(b);
    if NeedsCrlf(t) {
      var n := t + CRLF;
      assert n[|n| - 2] == '\r' && n[|n| - 1] == '\n';
    }
  }

  /** Of a message of 512 bytes or more exactly the first 510 are sent, and of a shorter one all; at most CR-LF comes after. */
  lemma SentBytes(b: string)
    ensures var n, k := Normalised(b), if |b| >= 512 then 510 else |b|;
            k <= |n| && n[..k] == b[..k] && (n[k..] == "" || n[k..] == "\r\n")
  {
  }

  class MsgBlock {
    const Msg: array<char>
    var MsgLen: nat

    predicate Valid()
      reads this
    {
      Msg.Length == MESSAGE_LEN_MAX && MsgLen <= MESSAGE_LEN_MAX
    }

    function Bytes(): string
      requires Valid()
      reads this, Msg
    {
      Msg[..MsgLen]
    }

    /** A block built from a string, cut if it is too long for a block. */
    constructor (str: string)
      ensures Valid() && fresh(Msg) && Bytes() == Truncated(str)
    {
      var n := if |str| >= MESSAGE_LEN_MAX then MESSAGE_LEN_MAX - CRLF_LEN_2 else |str|;
      Msg := new char[MESSAGE_LEN_MAX](_ => '\0');
      MsgLen := n;
      new;
      for i := 0 to n
        invariant Msg.Length == MESSAGE_LEN_MAX && MsgLen == n
        invariant Msg[..i] == str[..i]
      {
        Msg[i] := str[i];
      }
    }

    /** The head of sendMsgToClient: cut an overlong message and put CR-LF at its end, in place. */
    method Normalise()
      requires Valid() && Fits(Bytes())
      modifies this, Msg
      ensures Valid() && Bytes() == Normalised(old(Bytes()))
    {
      if MsgLen >= MESSAGE_LEN_MAX {
        MsgLen := MESSAGE_LEN_MAX - CRLF_LEN_2;
      }
      ghost var t := Msg[..MsgLen];
      assert t == Truncated(old(Bytes()));
      if MsgLen < CRLF_LEN_2 || (Msg[MsgLen - 2] != '\r' && Msg[MsgLen - 1] != '\n') {
        assert NeedsCrlf(t);
        Msg[MsgLen] := '\r';
        Msg[MsgLen + 1] := '\n';
        MsgLen := MsgLen + CRLF_LEN_2;
        assert Msg[..MsgLen] == t + CRLF;
      }
    }
  }
}
