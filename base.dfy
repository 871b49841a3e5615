/** Small value types shared by the models: optional values, thrown errors,
    outcomes of calls into the database driver, and string helpers. */
module Base {

  datatype Option<T> = None | Some(value: T) {
    /** The value, or `default` when absent (JavaScript's `??`). */
    function GetOr(default: T): T {
      if Some? then value else default
    }
  }

  /** An error object as the driver or the store throws it: a message, and
      for server errors a numeric `code` and a `codeName`. */
  datatype Error = Error(message: string, code: Option<int>, codeName: Option<string>)

  /** An error that carries only a message (`new Error(message)`). */
  function MessageError(message: string): Error {
    Error(message, None, None)
  }

  /** The outcome of one awaited driver call: it resolves with a value or
      rejects with an error. */
  datatype Outcome<T> = Ok(value: T) | Fail(error: Error)

  function Min(a: int, b: int): int {
    if a <= b then a else b
  }

  function Max(a: int, b: int): int {
    if a >= b then a else b
  }

  predicate StartsWith(s: string, prefix: string) {
    |prefix| <= |s| && s[..|prefix|] == prefix
  }

  /** `p` occurs in `s` as a contiguous substring (what a regular expression
      without metacharacters matches). */
  predicate Contains(s: string, p: string)
    decreases |s|
  {
    StartsWith(s, p) || (|s| > 0 && Contains(s[1..], p))
  }

  /** Contains means: some position of `s` starts a copy of `p`. */
  lemma {:induction false} ContainsAt(s: string, p: string, i: nat)
    requires i + |p| <= |s| && s[i..i + |p|] == p
    ensures Contains(s, p)
    decreases i
  {
    if i == 0 {
      assert s[..|p|] == s[i..i + |p|];
    } else {
      assert s[1..][i - 1..i - 1 + |p|] == s[i..i + |p|];
      ContainsAt(s[1..], p, i - 1);
    }
  }
}
