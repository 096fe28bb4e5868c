/** The optional value and the refusal kinds shared by every module. */
module Prelude {
  datatype Option<+T> = None | Some(value: T)

  /** The HTTP exception a service call throws, without its sentence. */
  datatype Refusal = BadRequest | NotFound | Forbidden | Conflict

  /** A call either takes effect, replays an earlier one, or is refused. */
  datatype Outcome = Done | Replayed | Refused(why: Refusal)

  predicate Distinct<T(==)>(s: seq<T>) {
    forall i, j :: 0 <= i < j < |s| ==> s[i] != s[j]
  }

  lemma MultisetWithout<T>(s: seq<T>, i: nat)
    requires i < |s|
    ensures multiset(s[..i] + s[i + 1..]) == multiset(s) - multiset{s[i]}
  {
    assert s == s[..i] + [s[i]] + s[i + 1..];
  }

  /** What never falls from one step to the next never falls. */
  lemma {:induction false} NeverFalls(f: nat -> int, i: nat, n: nat)
    requires i <= n && forall k: nat :: i <= k < n ==> f(k) <= f(k + 1)
    ensures f(i) <= f(n)
    decreases n
  {
    if i < n {
      NeverFalls(f, i, n - 1);
      assert f(n - 1) <= f(n - 1 + 1);
    }
  }
}
