/**
 * NUL-terminated character buffers, as the C library sees them:
 * `strlen` and the string a buffer holds.
 */
module CString {

  /** The byte that ends a C string. */
  const NUL: char := '\0'

  /** `strlen`: the index of the first NUL in `buf`, or `|buf|` when it has none. */
  function Strlen(buf: seq<char>): (n: nat)
    ensures n <= |buf|
    ensures forall i :: 0 <= i < n ==> buf[i] != NUL
    ensures n < |buf| ==> buf[n] == NUL
  {
    if buf == [] || buf[0] == NUL then 0 else 1 + Strlen(buf[1..])
  }

  /** The string held by a buffer: every character before its first NUL. */
  function Str(buf: seq<char>): (s: string)
    ensures s <= buf
    ensures NUL !in s
    ensures |s| < |buf| ==> buf[|s|] == NUL
  {
    buf[..Strlen(buf)]
  }

  /** The three facts in `Strlen`'s contract determine it. */
  lemma StrlenUnique(buf: seq<char>, k: nat)
    requires k <= |buf|
    requires forall i :: 0 <= i < k ==> buf[i] != NUL
    requires k < |buf| ==> buf[k] == NUL
    ensures Strlen(buf) == k
  {
  }

  /** A string that holds no NUL, written in front of a NUL, is exactly what the buffer holds. */
  lemma {:induction false} StrOfTerminated(s: string, tail: seq<char>)
    requires NUL !in s
    ensures Str(s + [NUL] + tail) == s
  {
    var buf := s + [NUL] + tail;
    forall i | 0 <= i < |s| ensures buf[i] != NUL {
      assert buf[i] == s[i];
    }
    StrlenUnique(buf, |s|);
  }
}
