/** Return codes, process states and the option type shared by the other modules. */
module Common {

  datatype Option<+T> = None | Some(value: T)

  const CODE_SUCCESS := 0
  const ERROR_NULL_ARG := -1
  const ERROR_ILLEGAL_ARG := -2

  const NULL_PID := 0
  const NUM_PRIORITIES := 3
  const NULL_PRIORITY := 3

  datatype ProcState = Ready | Executing | BlockedOnEnvRequest | BlockedOnReceive

  /** What a primitive hands back; NullDereference is the undefined behaviour of reading through NULL. */
  datatype Outcome = Code(value: int) | NullDereference

  predicate NoDuplicates<T(==)>(s: seq<T>) {
    forall i, j | 0 <= i < j < |s| :: s[i] != s[j]
  }

  lemma AppendKeepsNoDuplicates<T>(s: seq<T>, x: T)
    requires NoDuplicates(s) && x !in s
    ensures NoDuplicates(s + [x])
  {
  }
}
