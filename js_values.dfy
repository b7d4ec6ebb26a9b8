/** JavaScript value vocabulary shared by every module of the model: nullable
    values, the two ways an awaited call can settle, string truthiness and
    `String.prototype.slice` with the argument shapes the front end uses. */
module JsValues {

  /** `T | null` (and `T | undefined`, which the source treats alike). */
  datatype Option<+T> = None | Some(value: T) {
    function GetOr(default: T): T {
      match this
      case Some(v) => v
      case None => default
    }
  }

  /** How an awaited call settles: it resolves with a value, or it throws.
      A thrown `Error` carries its message; any other thrown value carries none. */
  datatype Settled<+T> = Fulfilled(value: T) | Rejected(message: Option<string>)

  /** `error instanceof Error ? error.message : fallback`, the message every
      catch block of the front end derives from what it caught. */
  function ErrorText(message: Option<string>, fallback: string): string {
    message.GetOr(fallback)
  }

  /** A nullable string is truthy exactly when it is present and non-empty. */
  predicate Truthy(s: Option<string>) {
    s.Some? && s.value != ""
  }

  /** `s.slice(0, n)`: the first n characters, or all of s when it is shorter. */
  function SliceHead(s: string, n: nat): (r: string)
    ensures |r| == if n <= |s| then n else |s|
    ensures r == s[..|r|]
  {
    if n <= |s| then s[..n] else s
  }

  /** `s.slice(-k)`: the last k characters, or all of s when it is shorter
      (and all of s for k == 0, since `-0` is `0`). */
  function SliceTail(s: string, k: nat): (r: string)
    ensures |r| == if k == 0 || |s| < k then |s| else k
    ensures r == s[|s| - |r|..]
  {
    if k == 0 || |s| < k then s else s[|s| - k..]
  }
}
