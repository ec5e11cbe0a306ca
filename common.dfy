/** Values shared by the component models: optional values, JavaScript
    truthiness of optional strings, how an awaited call settled, and an
    opaque handle for a file the user picked. */
module Common {

  /** `null` / `undefined` versus a present value. */
  datatype Option<+T> = None | Some(value: T) {
    function GetOr(default: T): (r: T)
      ensures Some? ==> r == value
      ensures None? ==> r == default
    {
      match this
      case Some(v) => v
      case None => default
    }
  }

  /** JavaScript truthiness of a string that may be `null` or `undefined`:
      absent values and the empty string are falsy. */
  predicate Truthy(s: Option<string>) {
    s.Some? && s.value != ""
  }

  /** `a || b` on optional strings: the first operand when it is truthy,
      otherwise the second one, whatever it is. */
  function OrElse(a: Option<string>, b: Option<string>): (r: Option<string>)
    ensures Truthy(r) <==> Truthy(a) || Truthy(b)
    ensures Truthy(a) ==> r == a
    ensures !Truthy(a) ==> r == b
  {
    if Truthy(a) then a else b
  }

  /** `a ?? ""`: an absent value becomes the empty string, a present one
      (the empty string included) is kept. */
  function OrEmpty(a: Option<string>): (r: string)
    ensures a.Some? ==> r == a.value
    ensures a.None? ==> r == ""
  {
    a.GetOr("")
  }

  /** Reading a key of a map whose missing keys stand for `null` or
      `undefined`. */
  function Lookup<K, V>(m: map<K, V>, k: K): (r: Option<V>)
    ensures r.Some? <==> k in m
    ensures r.Some? ==> r.value == m[k]
  {
    if k in m then Some(m[k]) else None
  }

  /** How an awaited call (a GraphQL mutation, a REST request, a callback
      promise) settled: it resolved with a truthy or a falsy value, or it
      rejected (threw). */
  datatype Outcome = Resolved(truthy: bool) | Rejected {
    predicate Succeeded() {
      Resolved? && truthy
    }
  }

  /** A file the user picked in a file input; its bytes are never looked at. */
  datatype File = File(handle: nat)
}
