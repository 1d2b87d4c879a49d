/** Definitions shared by every component of the model. */
module Prelude {

  datatype Option<+T> = None | Some(value: T)

  /** The ways one I/O action (an HTTP exchange or a vault write) can end.
      `FailedBefore` raises with no effect, `FailedAfter` raises although the
      effect happened (a lost response, an error after `os.replace`), and the
      two crashes lose the process before or after the effect. */
  datatype Fault = Fine | FailedBefore | FailedAfter | CrashBefore | CrashAfter {
    predicate Effective() { Fine? || FailedAfter? || CrashAfter? }
    predicate Crashes() { CrashBefore? || CrashAfter? }
  }

  /** How an operation of a client ends. */
  datatype Ending<+T> = Returned(value: T) | Threw | Died

  /** The world an operation leaves behind, and how it ended; `:-` passes failures on. */
  datatype Result<+W, +T> = Result(world: W, ending: Ending<T>) {
    predicate IsFailure() { !ending.Returned? }
    function PropagateFailure<U>(): Result<W, U>
      requires IsFailure()
    {
      Result(world, if ending.Died? then Died else Threw)
    }
    function Extract(): (W, T)
      requires !IsFailure()
    {
      (world, ending.value)
    }
  }

  function Ok<W, T>(w: W, value: T): Result<W, T> { Result(w, Returned(value)) }
  function Raise<W, T>(w: W): Result<W, T> { Result(w, Threw) }

  function Repeat<T>(x: T, n: nat): (s: seq<T>)
    ensures |s| == n && forall i :: 0 <= i < n ==> s[i] == x
  {
    seq(n, i => x)
  }

  lemma SubsetSize<T>(a: set<T>, b: set<T>)
    requires a <= b
    ensures |a| <= |b|
  {
    assert b == a + (b - a);
  }

  /** No element occurs at two indices. */
  predicate Distinct<T(==)>(s: seq<T>) {
    forall i, j :: 0 <= i < j < |s| ==> s[i] != s[j]
  }

  lemma TakeOneMore<T>(s: seq<T>, n: nat)
    requires n < |s|
    ensures s[..n + 1] == s[..n] + [s[n]]
  {
  }

  lemma Associative<T>(a: seq<T>, b: seq<T>, c: seq<T>)
    ensures (a + b) + c == a + (b + c)
  {
  }
}
