/** Shared vocabulary of the auditor model: optional values, results that carry
    the Python exception an operation raises, and the few string operations the
    auditor applies to URLs, attribute values and names. */
module Common {

  datatype Option<T> = None | Some(value: T)

  /** The Python exceptions the modelled code raises or lets escape. */
  datatype PyError =
    | FileNotFound(path: string)
    | JsonDecodeError(path: string)
    | ValueError(message: string)
    | TypeError
    | AttributeError

  datatype Result<T> = Success(value: T) | Failure(error: PyError)

  /** `m.get(k)`: the value stored under `k`, if any. */
  function Lookup<K, V>(m: map<K, V>, k: K): (r: Option<V>)
  {
    if k in m then Some(m[k]) else None
  }

  /** `m.get(k, default)`. */
  function GetOr<K, V>(m: map<K, V>, k: K, default: V): (r: V)
  {
    if k in m then m[k] else default
  }

  /** The first option when it holds a value, the second otherwise. */
  function OrElse<T>(first: Option<T>, second: Option<T>): (r: Option<T>)
  {
    if first.Some? then first else second
  }

  function Last<T>(s: seq<T>): (x: T)
    requires |s| > 0
  {
    s[|s| - 1]
  }

  function Init<T>(s: seq<T>): (prefix: seq<T>)
    requires |s| > 0
  {
    s[..|s| - 1]
  }

  /** `str.lower()`, restricted to the ASCII letters. */
  function LowerChar(c: char): (lc: char)
  {
    if 'A' <= c <= 'Z' then (c as int - 'A' as int + 'a' as int) as char else c
  }

  function Lower(s: string): (lowered: string)
  {
    seq(|s|, i requires 0 <= i < |s| => LowerChar(s[i]))
  }

  /** `t` occurs in `s` at position `i`. */
  predicate StartsAt(s: string, i: int, t: string)
  {
    0 <= i && i + |t| <= |s| && s[i..i + |t|] == t
  }

  /** Python's `t in s` for strings. */
  predicate Contains(s: string, t: string)
  {
    exists i :: 0 <= i <= |s| - |t| && StartsAt(s, i, t)
  }

  lemma EmptyContainsNothing(t: string)
    requires t != ""
    ensures !Contains("", t)
  {
  }

  predicate IsDigit(c: char)
  {
    '0' <= c <= '9'
  }

  predicate AllDigits(s: string)
  {
    forall k :: 0 <= k < |s| ==> IsDigit(s[k])
  }
}
