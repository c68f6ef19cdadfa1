/** Failure-compatible wrappers shared by every module of the model:
    `Option` for Python's `Optional` values and `Result` for calls that
    either return a value or raise. */
module Common {

  datatype Option<+T> = None | Some(value: T) {
    function GetOr(default: T): T {
      match this
      case Some(v) => v
      case None => default
    }
  }

  /** A Python call that returns `value` or raises `error`. */
  datatype Result<+T, +E> = Success(value: T) | Failure(error: E) {
    predicate IsFailure() {
      Failure?
    }

    function PropagateFailure<U>(): Result<U, E>
      requires Failure?
    {
      Failure(error)
    }

    function Extract(): T
      requires Success?
    {
      value
    }
  }

  /** Python's `min` on two integers. */
  function Min(a: int, b: int): int {
    if a <= b then a else b
  }

  /** Python's `max` on two integers. */
  function Max(a: int, b: int): int {
    if a >= b then a else b
  }

  /** Number of elements of `s` for which `p` holds. */
  function CountWhere<T>(s: seq<T>, p: T -> bool): (n: nat)
    ensures n <= |s|
  {
    if s == [] then 0 else CountWhere(s[..|s| - 1], p) + (if p(s[|s| - 1]) then 1 else 0)
  }

  /** Counting the `true` flags counts the positions that hold one. */
  lemma {:induction false} CountTrueIsCardinality(flags: seq<bool>)
    ensures CountWhere(flags, (b: bool) => b) == |set i | 0 <= i < |flags| && flags[i]|
  {
    if flags != [] {
      var front := flags[..|flags| - 1];
      CountTrueIsCardinality(front);
      var before := set i | 0 <= i < |front| && front[i];
      var after := set i | 0 <= i < |flags| && flags[i];
      if flags[|flags| - 1] {
        assert after == before + {|flags| - 1};
      } else {
        assert after == before;
      }
    }
  }
}
