/**
 * What the frontend's form pages share: the values a controlled input puts
 * into a form record, JavaScript truthiness and `||` / `??` on them, the
 * `err instanceof Error ? err.message : fallback` idiom, `Promise.all` over two
 * calls, and `String.prototype.length`.
 */
module Forms {
  import opened Common
  import opened ApiClient

  /** A value stored in a form record: a string, a number or a checkbox state. */
  datatype FormValue = Text(s: string) | Num(x: real) | Flag(b: bool)

  /** JavaScript truthiness of a form value (`''`, `0` and `false` are falsy). */
  predicate JsTruthy(v: FormValue) {
    match v
    case Text(s) => s != ""
    case Num(x) => x != 0.0
    case Flag(b) => b
  }

  /** `a || fallback` for a nullable string. */
  function OrString(a: Option<string>, fallback: string): (r: string)
    ensures Truthy(a) ==> r == a.value
    ensures !Truthy(a) ==> r == fallback
  {
    if Truthy(a) then a.value else fallback
  }

  /** `a ?? fallback` for a nullable boolean. */
  function OrBool(a: Option<bool>, fallback: bool): (r: bool)
    ensures a.Some? ==> r == a.value
    ensures a.None? ==> r == fallback
  {
    if a.Some? then a.value else fallback
  }

  /** `a || fallback` for a nullable boolean, the operator `??` is used instead of. */
  function JsOrBool(a: Option<bool>, fallback: bool): bool {
    if a.Some? && a.value then true else fallback
  }

  /** `??` keeps a stored `false` that `||` would replace by a `true` fallback. */
  lemma NullishKeepsFalse()
    ensures OrBool(Some(false), true) == false
    ensures JsOrBool(Some(false), true) == true
  {
  }

  /** `err instanceof Error ? err.message : fallback`. */
  function MessageOr(err: Caught, fallback: string): (r: string)
    ensures err.Object? && err.isError ==> r == err.message
    ensures !(err.Object? && err.isError) ==> r == fallback
  {
    if err.Object? && err.isError then err.message else fallback
  }

  /** For the errors the API client throws, the idiom and `getApiErrorMessage` agree. */
  lemma MessageOrAgrees(fallback: string)
    ensures forall status, detail :: MessageOr(ApiErrorValue(status, detail), fallback) ==
                                     GetApiErrorMessage(ApiErrorValue(status, detail), fallback)
    ensures forall message :: MessageOr(ErrorValue(message), fallback) ==
                              GetApiErrorMessage(ErrorValue(message), fallback)
    ensures MessageOr(NotObject, fallback) == GetApiErrorMessage(NotObject, fallback) == fallback
  {
  }

  /**
   * `Promise.all([a, b])`: resolves with both values, or rejects with the
   * reason of the call that rejects first (`aFirst` says which one when both do).
   */
  function PromiseAll<A, B>(a: Settled<A>, b: Settled<B>, aFirst: bool): (r: Settled<(A, B)>)
    ensures r.Resolved? <==> a.Resolved? && b.Resolved?
    ensures r.Resolved? ==> r.value == (a.value, b.value)
    ensures a.Rejected? && (b.Resolved? || aFirst) ==> r == Rejected(a.reason)
    ensures b.Rejected? && (a.Resolved? || !aFirst) ==> r == Rejected(b.reason)
  {
    match (a, b)
    case (Resolved(x), Resolved(y)) => Resolved((x, y))
    case (Rejected(e), Resolved(_)) => Rejected(e)
    case (Resolved(_), Rejected(e)) => Rejected(e)
    case (Rejected(e1), Rejected(e2)) => if aFirst then Rejected(e1) else Rejected(e2)
  }

  /**
   * `s.length` in JavaScript: the number of UTF-16 code units, so a
   * character outside the Basic Multilingual Plane counts twice.
   */
  function Utf16Length(s: string): (n: nat)
    ensures |s| <= n <= 2 * |s|
  {
    if s == [] then 0 else (if s[0] as int >= 0x1_0000 then 2 else 1) + Utf16Length(s[1..])
  }

  /** For text in the Basic Multilingual Plane the two lengths agree. */
  lemma {:induction false} Utf16LengthBmp(s: string)
    requires forall k :: 0 <= k < |s| ==> (s[k] as int) < 0x1_0000
    ensures Utf16Length(s) == |s|
  {
    if s != [] {
      Utf16LengthBmp(s[1..]);
    }
  }

  /** A string of two astral characters is four code units long. */
  lemma Utf16LengthAstral()
    ensures Utf16Length("\U{1F600}\U{1F600}") == 4
  {
    assert "\U{1F600}\U{1F600}"[1..] == "\U{1F600}";
  }
}
