/** NUL-terminated strings inside a buffer. */
module CString {

  datatype Option<T> = None | Some(value: T)

  /** The C string that starts at offset p. */
  function At(buf: seq<char>, p: nat): string
    decreases |buf| - p
  {
    if p >= |buf| || buf[p] == '\0' then "" else [buf[p]] + At(buf, p + 1)
  }

  /** A stretch without NUL that is followed by one is a C string. */
  lemma {:induction false} AtIs(buf: seq<char>, p: nat, e: nat)
    requires p <= e < |buf| && buf[e] == '\0' && '\0' !in buf[p..e]
    ensures At(buf, p) == buf[p..e]
    decreases e - p
  {
    if p < e {
      assert buf[p] == buf[p..e][0];
      assert buf[p..e] == [buf[p]] + buf[p + 1..e];
      AtIs(buf, p + 1, e);
    }
  }
}
