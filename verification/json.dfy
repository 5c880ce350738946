/** JSON values as the relay and the browser exchange them, with the two bits of
    JavaScript semantics the decision logic depends on: truthiness of a value
    that may be `undefined`, and reading an own property of a parsed value.
 */
module Json {

  /** An octet of an HTTP body. */
  newtype byte = x: int | 0 <= x < 256

  /** A possibly absent value; `None` plays the part of JavaScript's `undefined`. */
  datatype Option<+T> = None | Some(value: T)

  /** A value produced by `JSON.parse` (numbers kept exact, objects in source order). */
  datatype Json =
    | JNull
    | JBool(b: bool)
    | JNumber(n: real)
    | JString(s: string)
    | JArray(items: seq<Json>)
    | JObject(members: seq<(string, Json)>)

  /** The outcome of `JSON.parse`: a value, or the SyntaxError it throws. */
  datatype Parse = Parsed(value: Json) | SyntaxError(message: string)

  /** JavaScript falsiness restricted to what JSON (or an absent field) can hold:
      `undefined`, `null`, `false`, `0` and the empty string. */
  function Falsy(v: Option<Json>): (r: bool)
    ensures v.None? ==> r
    ensures v.Some? && v.value.JString? ==> (r <==> v.value.s == [])
    ensures v.Some? && (v.value.JArray? || v.value.JObject?) ==> !r
  {
    match v
    case None => true
    case Some(j) =>
      || j.JNull?
      || (j.JBool? && !j.b)
      || (j.JNumber? && j.n == 0.0)
      || (j.JString? && j.s == [])
  }

  /** The value JSON.parse keeps for `key` in an object: the last member with that key. */
  function Lookup(members: seq<(string, Json)>, key: string): (r: Option<Json>)
    ensures r.None? <==> forall i :: 0 <= i < |members| ==> members[i].0 != key
    ensures r.Some? ==> (key, r.value) in members
    decreases |members|
  {
    if |members| == 0 then None
    else
      var last := |members| - 1;
      if members[last].0 == key then Some(members[last].1)
      else
        var init := members[..last];
        assert forall j :: 0 <= j < last ==> init[j] == members[j];
        Lookup(init, key)
  }

  /** A member appended with the key wins over every earlier one; one appended
      with another key changes nothing. */
  lemma LookupLastWins(members: seq<(string, Json)>, k: string, v: Json, key: string)
    ensures Lookup(members + [(k, v)], key) == if k == key then Some(v) else Lookup(members, key)
  {
  }

  /** A key held by exactly one member reads as that member's value. */
  lemma LookupSingle(members: seq<(string, Json)>, key: string, i: nat)
    requires i < |members| && members[i].0 == key
    requires forall j :: 0 <= j < |members| && j != i ==> members[j].0 != key
    ensures Lookup(members, key) == Some(members[i].1)
  {
  }

  /** The string conversions JavaScript applies to a parsed value, as given
      functions: `number` is `Number.prototype.toString`, and `composite` converts
      an array or object, `None` when that throws a TypeError (an object whose own
      `toString` member is not callable, or an array holding one). Concatenation
      and template literals convert a parsed value alike. */
  datatype Conversion = Conversion(number: real -> string, composite: Json -> Option<string>)

  /** The string a value converts to, `None` when the conversion throws. */
  function ToText(v: Json, conv: Conversion): (r: Option<string>)
    ensures v.JString? ==> r == Some(v.s)
    ensures r.None? ==> v.JArray? || v.JObject?
  {
    match v
    case JNull => Some("null")
    case JBool(b) => Some(if b then "true" else "false")
    case JNumber(n) => Some(conv.number(n))
    case JString(s) => Some(s)
    case _ => conv.composite(v)
  }

  /** `v[key]` for a non-null value: an object's own member, and `undefined`
      for every other kind of value (none of the keys read here is inherited). */
  function Property(v: Json, key: string): (r: Option<Json>)
    requires !v.JNull?
    ensures !v.JObject? ==> r.None?
    ensures v.JObject? ==> (r.None? <==> forall i :: 0 <= i < |v.members| ==> v.members[i].0 != key)
  {
    match v
    case JObject(members) => Lookup(members, key)
    case _ => None
  }
}
