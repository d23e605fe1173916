/** Decoded JSON as the library sees it (the values `response.json()` and
    `json.loads` produce), and the Python dict and iteration operations the
    modelled code applies to them. */
module Json {
  import opened Runtime

  /** A JSON value. `JNull` is also Python's `None`, since `json.loads` maps
      null to `None`. An object keeps its members in document order; numbers
      are integers only. */
  datatype Json =
    | JNull
    | JBool(b: bool)
    | JNum(n: int)
    | JStr(s: string)
    | JArray(items: seq<Json>)
    | JObject(members: seq<Member>)

  datatype Member = Member(key: string, value: Json)

  /** Member `i` is the one a dict built from `ms` keeps for key `k`: the
      last member with that key. */
  ghost predicate IsLast(ms: seq<Member>, k: string, i: int) {
    0 <= i < |ms| && ms[i].key == k && forall j :: i < j < |ms| ==> ms[j].key != k
  }

  /** No key occurs twice, as in the member list of a Python dict. */
  predicate DistinctKeys(ms: seq<Member>) {
    forall i, j :: 0 <= i < j < |ms| ==> ms[i].key != ms[j].key
  }

  /** Lookup in the dict built from `ms`: `None` when the key is absent. */
  function Get(ms: seq<Member>, k: string): Option<Json> {
    if |ms| == 0 then None
    else if ms[|ms| - 1].key == k then Some(ms[|ms| - 1].value)
    else Get(ms[..|ms| - 1], k)
  }

  /** `Get` finds a key exactly when some member has it, and then returns
      the value of the last such member. */
  lemma {:induction false} GetSpec(ms: seq<Member>, k: string)
    ensures Get(ms, k).None? <==> forall i :: 0 <= i < |ms| ==> ms[i].key != k
    ensures Get(ms, k).Some? ==> exists i :: IsLast(ms, k, i) && ms[i].value == Get(ms, k).value
  {
    if |ms| > 0 && ms[|ms| - 1].key != k {
      var front := ms[..|ms| - 1];
      GetSpec(front, k);
      assert forall i :: 0 <= i < |front| ==> front[i] == ms[i];
      if Get(front, k).Some? {
        var i :| IsLast(front, k, i) && front[i].value == Get(front, k).value;
        assert IsLast(ms, k, i);
      }
    }
  }

  /** Whatever member the dict keeps for `k` is what `Get` returns. */
  lemma GetLast(ms: seq<Member>, k: string, i: int)
    requires IsLast(ms, k, i)
    ensures Get(ms, k) == Some(ms[i].value)
  {
    GetSpec(ms, k);
    var i' :| IsLast(ms, k, i') && ms[i'].value == Get(ms, k).value;
    assert !(i < i') && !(i' < i);
  }

  /** With distinct keys, the member with key `k` is the one `Get` returns. */
  lemma GetDistinct(ms: seq<Member>, i: int)
    requires DistinctKeys(ms) && 0 <= i < |ms|
    ensures Get(ms, ms[i].key) == Some(ms[i].value)
  {
    GetLast(ms, ms[i].key, i);
  }

  /** A property holds of what `Get` returns exactly when it holds of the
      member the dict keeps. */
  lemma GetMeaning(ms: seq<Member>, k: string)
    ensures (Get(ms, k).Some? && Get(ms, k).value != JNull) <==> HasNonNull(ms, k)
    ensures (Get(ms, k).Some? && Truthy(Get(ms, k).value)) <==> HasTruthy(ms, k)
  {
    GetSpec(ms, k);
    forall i | IsLast(ms, k, i) ensures Get(ms, k) == Some(ms[i].value) { GetLast(ms, k, i); }
  }

  /** `d.get(k)` on the dict built from `ms`: `None` (JSON null) when absent. */
  function GetOrNull(ms: seq<Member>, k: string): (r: Json)
    ensures r != JNull <==> HasNonNull(ms, k)
    ensures Truthy(r) <==> HasTruthy(ms, k)
  {
    GetMeaning(ms, k);
    match Get(ms, k)
    case None => JNull
    case Some(v) => v
  }

  /** `d.get(k) is not None`, stated on the document. */
  ghost predicate HasNonNull(ms: seq<Member>, k: string) {
    exists i :: IsLast(ms, k, i) && ms[i].value != JNull
  }

  /** `bool(d.get(k))`, stated on the document. */
  ghost predicate HasTruthy(ms: seq<Member>, k: string) {
    exists i :: IsLast(ms, k, i) && Truthy(ms[i].value)
  }

  /** Python truthiness: `None`, `False`, `0`, and empty strings, lists and
      dicts are false. */
  predicate Truthy(j: Json) {
    match j
    case JNull => false
    case JBool(b) => b
    case JNum(n) => n != 0
    case JStr(s) => |s| > 0
    case JArray(items) => |items| > 0
    case JObject(ms) => |ms| > 0
  }

  /** Decoded JSON strings are Python 2 `unicode`; one converts to a byte
      string (`str(u)`, an attribute name) under the default ASCII codec
      only when every code point is below 128. */
  predicate IsAscii(s: string) {
    forall i :: 0 <= i < |s| ==> s[i] as int < 128
  }

  /** The keys of an object, in document order. */
  function Keys(ms: seq<Member>): (r: seq<string>)
    ensures |r| == |ms| && forall i :: 0 <= i < |ms| ==> r[i] == ms[i].key
  {
    seq(|ms|, i requires 0 <= i < |ms| => ms[i].key)
  }

  /** `for x in j`: a list yields its items, a dict its keys, a string its
      characters (one-character strings); anything else is not iterable. */
  function Iterated(j: Json): Result<seq<Json>> {
    match j
    case JArray(items) => Success(items)
    case JObject(ms) => Success(seq(|ms|, i requires 0 <= i < |ms| => JStr(ms[i].key)))
    case JStr(s) => Success(seq(|s|, i requires 0 <= i < |s| => JStr([s[i]])))
    case _ => Failure(TypeError("object is not iterable"))
  }

  /** `d.get(k, default)`; a value that is not a dict has no `get`. */
  function DictGet(d: Json, k: string, default: Json): Result<Json> {
    match d
    case JObject(ms) => Success(Get(ms, k).GetOr(default))
    case _ => Failure(AttributeError("get"))
  }

  /** `d[k]`: a dict without `k` raises `KeyError`; nothing else can be
      indexed by a string key. */
  function Index(d: Json, k: string): Result<Json> {
    match d
    case JObject(ms) =>
      (match Get(ms, k)
       case Some(v) => Success(v)
       case None => Failure(KeyError(k)))
    case _ => Failure(TypeError("indices must be integers"))
  }
}
