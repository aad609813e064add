/** The few JavaScript built-ins the transformer relies on: optional values
    (`undefined`/`null`), thrown exceptions, truthiness of strings, and the
    string methods `endsWith` and `includes`. */
module Js {

  /** A value that may be `undefined` (or `null`, where the source folds the two). */
  datatype Option<+T> = None | Some(value: T) {
    /** `x ?? default` */
    function GetOr(default: T): T {
      match this
      case Some(v) => v
      case None => default
    }
  }

  /** The outcome of a call that may throw. */
  datatype Result<+T, +E> = Success(value: T) | Failure(error: E)

  /** `!!s` for a string: only the empty string is falsy. */
  predicate Truthy(s: string) {
    s != ""
  }

  /** `!!s` for a string that may be `undefined`. */
  predicate TruthyOpt(s: Option<string>) {
    s.Some? && Truthy(s.value)
  }

  /** `s.startsWith(prefix)` */
  predicate StartsWith(s: string, prefix: string) {
    |prefix| <= |s| && s[..|prefix|] == prefix
  }

  /** `s.endsWith(suffix)` */
  predicate EndsWith(s: string, suffix: string) {
    |suffix| <= |s| && s[|s| - |suffix|..] == suffix
  }

  /** `s.endsWith(suffix)` holds exactly when `s` is some stem followed by `suffix`. */
  lemma EndsWithIff(s: string, suffix: string)
    ensures EndsWith(s, suffix) <==> exists stem :: s == stem + suffix
  {
    if EndsWith(s, suffix) {
      var stem := s[..|s| - |suffix|];
      assert s == stem + suffix;
    }
    if exists stem :: s == stem + suffix {
      var stem :| s == stem + suffix;
      assert s[|s| - |suffix|..] == suffix;
    }
  }

  /** A string that ends with a non-empty suffix ends with its last character. */
  lemma EndsWithLast(s: string, suffix: string)
    requires |suffix| > 0
    ensures EndsWith(s, suffix) ==> |s| > 0 && s[|s| - 1] == suffix[|suffix| - 1]
  {
  }

  /** `sub` occurs in `s` starting at index `i`. */
  predicate OccursAt(s: string, sub: string, i: int) {
    0 <= i && i + |sub| <= |s| && s[i..i + |sub|] == sub
  }

  /** `s.includes(sub)`: `sub` occurs somewhere in `s` (the empty string
      occurs in every string). */
  function Includes(s: string, sub: string): (r: bool)
    ensures r <==> exists i :: OccursAt(s, sub, i)
    decreases |s|
  {
    if StartsWith(s, sub) then
      assert OccursAt(s, sub, 0);
      true
    else if |s| <= |sub| then
      assert forall i :: OccursAt(s, sub, i) ==> i == 0;
      false
    else
      var r := Includes(s[1..], sub);
      assert forall i :: OccursAt(s[1..], sub, i) <==> OccursAt(s, sub, i + 1) by {
        forall i ensures OccursAt(s[1..], sub, i) <==> OccursAt(s, sub, i + 1) {
          if 0 <= i && i + |sub| <= |s[1..]| {
            assert s[1..][i..i + |sub|] == s[i + 1..i + 1 + |sub|];
          }
        }
      }
      assert forall i :: OccursAt(s, sub, i) ==> i > 0 ==> OccursAt(s[1..], sub, i - 1);
      r
  }
}
