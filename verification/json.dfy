/**
 Decoded JSON values as the servers and the client see them after `JSON.parse`,
 together with JavaScript truthiness, which selects fields throughout the
 dispatch code (`a || b`, `a && { ... }`).
 */
module Json {
  import opened Wrappers

  /** A decoded JSON value. Numbers are integers here; see the README for why. */
  datatype Value =
    | Null
    | Bool(b: bool)
    | Num(n: int)
    | Str(s: string)
    | Arr(items: seq<Value>)
    | Obj(members: seq<(string, Value)>)

  /** JavaScript truthiness: `null`, `false`, `0` and `""` are falsy, everything else is truthy. */
  predicate Truthy(v: Value)
  {
    match v
    case Null => false
    case Bool(b) => b
    case Num(n) => n != 0
    case Str(s) => s != ""
    case Arr(_) => true
    case Obj(_) => true
  }

  /** Truthiness of a property that may be missing: `undefined` is falsy. */
  predicate Present(v: Option<Value>)
  {
    v.Some? && Truthy(v.value)
  }

  /** JavaScript's `a || fallback` on a possibly missing property. */
  function OrElse(a: Option<Value>, fallback: Value): (r: Value)
    ensures Present(a) ==> r == a.value
    ensures !Present(a) ==> r == fallback
    ensures Truthy(fallback) ==> Truthy(r)
  {
    if Present(a) then a.value else fallback
  }

  /** The member named `key` among `members`; a later duplicate overrides an earlier one, as in an object literal. */
  function Member(members: seq<(string, Value)>, key: string): (r: Option<Value>)
    ensures r.Some? <==> exists i | 0 <= i < |members| :: members[i].0 == key
    ensures r.Some? ==> exists i | 0 <= i < |members| :: members[i] == (key, r.value)
  {
    if |members| == 0 then None
    else if members[|members| - 1].0 == key then Some(members[|members| - 1].1)
    else Member(members[..|members| - 1], key)
  }

  /** Property access `v.key`: `undefined` unless `v` is an object holding `key`. */
  function Get(v: Value, key: string): Option<Value>
  {
    match v
    case Obj(members) => Member(members, key)
    case _ => None
  }

  /** Property access on a property that may itself be missing. */
  function Field(v: Option<Value>, key: string): Option<Value>
  {
    if v.Some? then Get(v.value, key) else None
  }

  /** `Array.from(...)` of a list of strings, as it appears in error details. */
  function Strings(ss: seq<string>): Value
  {
    Arr(seq(|ss|, i requires 0 <= i < |ss| => Str(ss[i])))
  }

  /** Reads a JSON array of strings back, or `None` if `v` is anything else. */
  function AsStrings(v: Option<Value>): Option<seq<string>>
  {
    if v.Some? && v.value.Arr? && forall i | 0 <= i < |v.value.items| :: v.value.items[i].Str?
    then Some(seq(|v.value.items|, i requires 0 <= i < |v.value.items| && v.value.items[i].Str? => v.value.items[i].s))
    else None
  }

  /** Reading back a list of strings gives exactly the list that was written. */
  lemma StringsRoundTrip(ss: seq<string>)
    ensures AsStrings(Some(Strings(ss))) == Some(ss)
  {
    var items := Strings(ss).items;
    assert forall i | 0 <= i < |items| :: items[i] == Str(ss[i]);
    var back := seq(|items|, i requires 0 <= i < |items| && items[i].Str? => items[i].s);
    assert back == ss;
  }
}
