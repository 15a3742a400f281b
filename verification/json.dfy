/** An abstract JSON value tree, the shape `encoding/json` produces for the
    client's request structs. Objects keep their keys in emission order,
    which for a Go struct is field declaration order. */
module Json {
  import opened Wrappers

  datatype Json =
    | JNull
    | JBool(b: bool)
    | JNum(n: int)
    | JStr(s: string)
    | JArr(elems: seq<Json>)
    | JObj(members: seq<(string, Json)>)

  /** A Go slice: `nil` is distinct from an empty, non-nil slice, and
      `encoding/json` marshals the former as `null`. */
  datatype Slice<T> = Nil | Slice(items: seq<T>) {
    function Elements(): seq<T> {
      match this
      case Nil => []
      case Slice(xs) => xs
    }
  }

  /** The keys of an object, in order. */
  function Keys(members: seq<(string, Json)>): (ks: seq<string>)
    ensures |ks| == |members|
    ensures forall i :: 0 <= i < |members| ==> ks[i] == members[i].0
  {
    if |members| == 0 then [] else [members[0].0] + Keys(members[1..])
  }

  /** Looks a key up in an object value; the first occurrence wins. */
  function Get(v: Json, key: string): (r: Option<Json>)
    ensures r.Some? <==> v.JObj? && key in Keys(v.members)
  {
    match v
    case JObj(ms) => Lookup(ms, key)
    case _ => None
  }

  function Lookup(members: seq<(string, Json)>, key: string): (r: Option<Json>)
    ensures r.Some? <==> key in Keys(members)
    ensures r.Some? ==> (key, r.value) in members
  {
    if |members| == 0 then None
    else if members[0].0 == key then Some(members[0].1)
    else Lookup(members[1..], key)
  }

  /** Marshals a slice of strings: `null` for nil, an array of strings otherwise. */
  function StringSlice(s: Slice<string>): (j: Json)
    ensures s.Nil? <==> j == JNull
    ensures s.Slice? ==> j.JArr? && |j.elems| == |s.items|
                         && forall i :: 0 <= i < |s.items| ==> j.elems[i] == JStr(s.items[i])
  {
    match s
    case Nil => JNull
    case Slice(xs) => JArr(seq(|xs|, i requires 0 <= i < |xs| => JStr(xs[i])))
  }
}
