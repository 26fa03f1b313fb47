/**
 * JSON values as `JSON.parse` returns them and `JSON.stringify` consumes them.
 * Object members keep their insertion order. `JSON.stringify` writes them in
 * that order, except that JavaScript puts integer-like keys ("0", "17") first,
 * in ascending order; the objects this library builds have no such keys.
 */
module Json {
  import opened Wrappers

  datatype Json =
    | JNull
    | JBool(b: bool)
    | JNum(n: int)
    | JStr(s: string)
    | JArr(items: seq<Json>)
    | JObj(members: seq<(string, Json)>)

  /** The value of member `key`; when a parsed object repeats a key, the last one wins. */
  function Member(members: seq<(string, Json)>, key: string): Option<Json>
  {
    if members == [] then None
    else if members[|members| - 1].0 == key then Some(members[|members| - 1].1)
    else Member(members[..|members| - 1], key)
  }

  /** A member whose key does not occur again later is the one Member finds. */
  lemma {:induction false} MemberFindsLast(members: seq<(string, Json)>, i: nat)
    requires i < |members|
    requires forall j :: i < j < |members| ==> members[j].0 != members[i].0
    ensures Member(members, members[i].0) == Some(members[i].1)
    decreases |members|
  {
    if i < |members| - 1 {
      var init := members[..|members| - 1];
      MemberFindsLast(init, i);
    }
  }

  /** The property names "0", "1", "2" under which JavaScript looks up `v[0]`, `v[1]`, `v[2]`. */
  const IndexKeys: seq<string> := ["0", "1", "2"]

  /**
   * JavaScript's `v[k]` for k < 3 on a parsed value: an array element, an object
   * member named by the index, or a one-character string; `None` is `undefined`.
   * (On `null` the access throws; no caller can tell that apart from `undefined`
   * here, since both end the dispatch without a handler call.)
   */
  function Element(v: Json, k: nat): Option<Json>
    requires k < 3
  {
    match v
    case JArr(items) => if k < |items| then Some(items[k]) else None
    case JObj(members) => Member(members, IndexKeys[k])
    case JStr(s) => if k < |s| then Some(JStr([s[k]])) else None
    case _ => None
  }
}
