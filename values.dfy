/** Values as the request handlers see them: JavaScript's `undefined`, its
    truthiness, and the `v || fallback` idiom the handlers use for defaults
    and for merging settings. */
module Values {

  datatype Option<+T> = None | Some(value: T)

  /** A string field read from a request body; `None` is `undefined`
      (the client did not send the field). */
  type Field = Option<string>

  /** A value read from a JSON body (a multipart form only ever yields `Str`). */
  datatype Value = Undefined | Null | Bool(b: bool) | Num(n: real) | Str(s: string)

  /** JavaScript truthiness of a string that may be `undefined`:
      only `undefined` and `""` are falsy. */
  predicate Truthy(v: Field) {
    v.Some? && v.value != ""
  }

  /** `v || fallback` with a string fallback: the field when it is truthy,
      the fallback otherwise. The result is blank only when both are. */
  function Prefer(v: Field, fallback: string): (r: string)
    ensures Truthy(v) ==> Some(r) == v
    ensures !Truthy(v) ==> r == fallback
    ensures r != "" <==> Truthy(v) || fallback != ""
  {
    if Truthy(v) then v.value else fallback
  }

  /** One field of a `{ f: sent || settings.f }` merge: `merged` is the sent value
      when that is truthy and `current` otherwise. */
  predicate MergedField(sent: Field, current: string, merged: string) {
    (Truthy(sent) ==> merged == sent.value) && (!Truthy(sent) ==> merged == current)
  }

  /** Applying the same `||` default twice is the same as applying it once. */
  lemma PreferIdempotent(v: Field, fallback: string)
    ensures Prefer(v, Prefer(v, fallback)) == Prefer(v, fallback)
  {
  }
}
