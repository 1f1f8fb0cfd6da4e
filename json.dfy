/**
 * The Python values the core handles after json.loads / json.load: None, bool, int, str,
 * list and dict. A dict keeps its insertion order, so it is a sequence of key/value pairs
 * with distinct keys; reading takes the pair with that key, writing replaces its value in
 * place or appends a new pair, as `d[k] = v` does.
 */
module Json {
  import opened Wrappers
  import opened Text

  datatype Json =
    | JNull
    | JBool(b: bool)
    | JInt(i: int)
    | JStr(s: string)
    | JList(items: seq<Json>)
    | JObject(fields: seq<(string, Json)>)

  // ---------------------------------------------------------------------------
  // Ordered dictionaries
  // ---------------------------------------------------------------------------

  function Keys<V>(d: seq<(string, V)>): (ks: seq<string>)
    ensures |ks| == |d| && forall i :: 0 <= i < |d| ==> ks[i] == d[i].0
  {
    seq(|d|, i requires 0 <= i < |d| => d[i].0)
  }

  predicate DistinctKeys<V>(d: seq<(string, V)>) {
    forall i, j :: 0 <= i < j < |d| ==> d[i].0 != d[j].0
  }

  /** The position of the first pair with key k. */
  function IndexOf<V>(d: seq<(string, V)>, k: string): (r: Option<nat>)
    ensures r.None? <==> k !in Keys(d)
    ensures r.Some? ==> r.value < |d| && d[r.value].0 == k
    ensures r.Some? ==> forall i :: 0 <= i < r.value ==> d[i].0 != k
  {
    if d == [] then None
    else if d[0].0 == k then Some(0)
    else
      match IndexOf(d[1..], k)
      case None =>
        assert Keys(d) == [d[0].0] + Keys(d[1..]);
        None
      case Some(i) => Some(i + 1)
  }

  /** The first pair with key k stands at i. */
  lemma {:induction false} IndexOfAt<V>(d: seq<(string, V)>, k: string, i: nat)
    requires i < |d| && d[i].0 == k
    requires forall j :: 0 <= j < i ==> d[j].0 != k
    ensures IndexOf(d, k) == Some(i)
  {
    if i > 0 {
      IndexOfAt(d[1..], k, i - 1);
    }
  }

  /** d.get(k) on a dict, with None for a missing key. */
  function Get<V>(d: seq<(string, V)>, k: string): (r: Option<V>)
    ensures r.None? <==> k !in Keys(d)
    ensures r.Some? ==> exists i :: 0 <= i < |d| && d[i] == (k, r.value)
  {
    match IndexOf(d, k)
    case None => None
    case Some(i) => Some(d[i].1)
  }

  /** Reading a dict with one more pair at its end. */
  lemma GetSnoc<V>(d: seq<(string, V)>, k': string, v: V, k: string)
    ensures Get(d + [(k', v)], k) == if k in Keys(d) then Get(d, k) else if k == k' then Some(v) else None
  {
    var e := d + [(k', v)];
    match IndexOf(d, k)
    case Some(i) =>
      IndexOfAt(e, k, i);
    case None =>
      assert forall i :: 0 <= i < |d| ==> Keys(d)[i] != k;
      if k == k' {
        IndexOfAt(e, k, |d|);
      } else {
        assert forall i :: 0 <= i < |e| ==> Keys(e)[i] != k;
      }
  }

  /** d[k] = v: replaces the value of an existing key where it stands, else appends the pair. */
  function Put<V>(d: seq<(string, V)>, k: string, v: V): (r: seq<(string, V)>)
    ensures k in Keys(d) ==> |r| == |d|
    ensures k !in Keys(d) ==> r == d + [(k, v)]
  {
    match IndexOf(d, k)
    case None => d + [(k, v)]
    case Some(i) => d[i := (k, v)]
  }

  lemma GetPutSame<V>(d: seq<(string, V)>, k: string, v: V)
    ensures Get(Put(d, k, v), k) == Some(v)
  {
    var r := Put(d, k, v);
    match IndexOf(d, k)
    case None =>
      assert forall i :: 0 <= i < |d| ==> Keys(d)[i] != k;
      IndexOfAt(r, k, |d|);
    case Some(i) =>
      IndexOfAt(r, k, i);
  }

  lemma GetPutOther<V>(d: seq<(string, V)>, k: string, v: V, k': string)
    requires k' != k
    ensures Get(Put(d, k, v), k') == Get(d, k')
  {
    var r := Put(d, k, v);
    match IndexOf(d, k')
    case None =>
      assert forall i :: 0 <= i < |d| ==> Keys(d)[i] != k';
      assert forall i :: 0 <= i < |r| ==> Keys(r)[i] != k';
    case Some(i) =>
      IndexOfAt(r, k', i);
  }

  /** Writing a key keeps the other keys in their places and keeps the keys distinct. */
  lemma KeysPut<V>(d: seq<(string, V)>, k: string, v: V)
    requires DistinctKeys(d)
    ensures Keys(Put(d, k, v)) == if k in Keys(d) then Keys(d) else Keys(d) + [k]
    ensures DistinctKeys(Put(d, k, v))
  {
    var r := Put(d, k, v);
    if k !in Keys(d) {
      assert Keys(r) == Keys(d) + [k];
    } else {
      assert Keys(r) == Keys(d);
    }
  }

  // ---------------------------------------------------------------------------
  // Python's view of a JSON value
  // ---------------------------------------------------------------------------

  /** d.get(k) on a parsed JSON object: None for a missing key and for a JSON null alike. */
  function Lookup(d: seq<(string, Json)>, k: string): (r: Option<Json>)
    ensures r != Some(JNull)
    ensures r.None? <==> (k !in Keys(d) || Get(d, k) == Some(JNull))
    ensures r.Some? ==> Get(d, k) == r
  {
    var r := Get(d, k);
    if r == Some(JNull) then None else r
  }

  /** bool(v): false for None, False, 0, "", [] and {}. */
  predicate Truthy(v: Json) {
    match v
    case JNull => false
    case JBool(b) => b
    case JInt(i) => i != 0
    case JStr(s) => s != ""
    case JList(items) => items != []
    case JObject(fields) => fields != []
  }

  /** `x or default` on an optional value. */
  function OrElse(x: Option<Json>, default: Json): (r: Json)
    ensures x.Some? && Truthy(x.value) ==> r == x.value
    ensures !(x.Some? && Truthy(x.value)) ==> r == default
  {
    if x.Some? && Truthy(x.value) then x.value else default
  }

  /** repr(v), as str() shows a value nested in a list or dict. Strings are quoted with ' and not escaped. */
  function Repr(v: Json): (r: string)
    ensures r != []
    decreases v
  {
    match v
    case JNull => "None"
    case JBool(b) => if b then "True" else "False"
    case JInt(i) => IntToString(i)
    case JStr(s) => "'" + s + "'"
    case JList(items) =>
      "[" + Join(seq(|items|, i requires 0 <= i < |items| => Repr(items[i])), ", ") + "]"
    case JObject(fields) =>
      "{" + Join(seq(|fields|, i requires 0 <= i < |fields| =>
                       assert fields[i] in fields;
                       "'" + fields[i].0 + "': " + Repr(fields[i].1)), ", ") + "}"
  }

  /** str(v). */
  function PyStr(v: Json): string {
    match v
    case JStr(s) => s
    case _ => Repr(v)
  }

  /** int(v): None exactly where int() raises TypeError or ValueError. */
  function IntOf(v: Json): Option<int> {
    match v
    case JBool(b) => Some(if b then 1 else 0)
    case JInt(i) => Some(i)
    case JStr(s) => ParseInt(s)
    case _ => None
  }
}
