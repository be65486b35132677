/** C strings: the characters of an array in front of its first NUL. */
module CStrings {
  const NUL: char := '\0'

  function TextOf(msg: seq<char>): (t: string)
    ensures |t| <= |msg| && t == msg[..|t|] && NUL !in t
    ensures |t| < |msg| ==> msg[|t|] == NUL
    ensures NUL in msg ==> |t| < |msg|
  {
    if msg == [] || msg[0] == NUL then "" else [msg[0]] + TextOf(msg[1..])
  }

  lemma {:induction false} TextIs(msg: seq<char>, n: nat)
    requires n < |msg| && NUL !in msg[..n] && msg[n] == NUL
    ensures TextOf(msg) == msg[..n]
    decreases n
  {
    if n > 0 {
      assert msg[0] in msg[..n] && msg[1..][..n - 1] == msg[1..n];
      TextIs(msg[1..], n - 1);
    }
  }
}
