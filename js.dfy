/** Small JavaScript notions shared by the models of the page, the avatar
    component, the audio worklet and the cache. */
module Js {

  datatype Option<+T> = None | Some(value: T)

  /** Outcome of a call into the avatar SDK or the browser that the
      controllers cannot see into: it completes, or it throws (or its
      promise rejects) with an error whose `message` is given. */
  datatype Outcome = Done | Threw(message: Option<string>)

  /** JavaScript truthiness of an optional string (an environment variable,
      an error's `message`): `undefined` and the empty string are falsy. */
  predicate Truthy(s: Option<string>)
  {
    s.Some? && s.value != ""
  }

  /** Decimal rendering of a non-negative integer, as a template literal
      shows a JavaScript number. */
  function Decimal(n: nat): (r: string)
    ensures |r| >= 1
    ensures forall i :: 0 <= i < |r| ==> '0' <= r[i] <= '9'
    ensures n < 10 <==> |r| == 1
  {
    if n < 10 then [Digit(n)] else Decimal(n / 10) + [Digit(n % 10)]
  }

  function Digit(d: nat): (c: char)
    requires d < 10
    ensures '0' <= c <= '9'
  {
    (48 + d) as char
  }

  /** A handle the browser or the SDK hands out: a client, a stream, an
      audio context, a processor or a timer. */
  type Handle = nat

  /** The set a nullable ref points into. */
  function RefSet(ref: Option<Handle>): set<Handle>
  {
    if ref.Some? then {ref.value} else {}
  }

  /** `haystack.includes(needle)` for strings. */
  predicate Includes(haystack: string, needle: string)
  {
    exists i | 0 <= i <= |haystack| - |needle| :: OccursAt(haystack, needle, i)
  }

  predicate OccursAt(haystack: string, needle: string, i: int)
  {
    0 <= i <= |haystack| - |needle| && haystack[i..i + |needle|] == needle
  }

  /** Any string that starts with `prefix` includes it. */
  lemma StartsWithIncludes(prefix: string, rest: string)
    ensures Includes(prefix + rest, prefix)
  {
    assert OccursAt(prefix + rest, prefix, 0);
  }
}
