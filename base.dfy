/**
 * Shared value types: optional values, outcomes of calls that may raise,
 * JSON values, and Python's insertion-ordered dictionaries.
 */
module Base {

  datatype Option<T> = None | Some(value: T)

  /** The result of a Python call that either returns a value or lets an exception escape. */
  datatype Outcome<T> = Returned(value: T) | Raised(reason: string)

  newtype byte = x: int | 0 <= x < 256

  /** A non-empty sequence is its init followed by its last element. */
  lemma LastSplit<T>(s: seq<T>)
    requires |s| > 0
    ensures s == s[..|s| - 1] + [s[|s| - 1]]
  {
  }

  /** Sequence concatenation regroups freely. */
  lemma Associative<T>(a: seq<T>, b: seq<T>, c: seq<T>)
    ensures a + b + c == a + (b + c)
  {
  }

  type Bytes = seq<byte>

  /** A decoded JSON value; numbers are modelled as integers. */
  datatype Json =
    | JNull
    | JBool(b: bool)
    | JNum(n: int)
    | JStr(s: string)
    | JArr(items: seq<Json>)
    | JObj(fields: seq<(string, Json)>)

  /** Python truthiness of a JSON value. */
  predicate Truthy(j: Json)
  {
    match j
    case JNull => false
    case JBool(b) => b
    case JNum(n) => n != 0
    case JStr(s) => |s| > 0
    case JArr(items) => |items| > 0
    case JObj(fields) => |fields| > 0
  }

  /** No element occurs twice. */
  predicate Distinct<T(==)>(s: seq<T>)
  {
    forall i, j :: 0 <= i < j < |s| ==> s[i] != s[j]
  }

  /** The distinct keys in the order they first occur. */
  function FirstSeen<T(==,!new)>(ks: seq<T>): (r: seq<T>)
    ensures Distinct(r)
    ensures forall k :: k in r <==> k in ks
    decreases |ks|
  {
    if |ks| == 0 then []
    else
      var init, last := ks[..|ks| - 1], ks[|ks| - 1];
      assert ks == init + [last];
      var prev := FirstSeen(init);
      if last in prev then prev else prev + [last]
  }

  /**
   * A Python dict: entries in insertion order. Dictionaries built through Put keep
   * their keys unique (see PutKeepsUnique).
   */
  type Dict<V> = seq<(string, V)>

  predicate UniqueKeys<V>(d: Dict<V>)
  {
    forall i, j :: 0 <= i < j < |d| ==> d[i].0 != d[j].0
  }

  function Keys<V>(d: Dict<V>): (ks: seq<string>)
    ensures |ks| == |d|
    ensures forall i :: 0 <= i < |d| ==> ks[i] == d[i].0
  {
    seq(|d|, i requires 0 <= i < |d| => d[i].0)
  }

  /** Position of key `k`, if present (the first one, should keys repeat). */
  function Find<V>(d: Dict<V>, k: string): (r: Option<nat>)
    ensures r.Some? ==> r.value < |d| && d[r.value].0 == k
    ensures r.Some? ==> forall j :: 0 <= j < r.value ==> d[j].0 != k
    ensures r.None? <==> forall j :: 0 <= j < |d| ==> d[j].0 != k
  {
    if |d| == 0 then None
    else if d[0].0 == k then Some(0)
    else match Find(d[1..], k)
      case None => None
      case Some(i) => Some(i + 1)
  }

  lemma FindAt<V>(d: Dict<V>, k: string, i: nat)
    requires i < |d| && d[i].0 == k
    requires forall j :: 0 <= j < i ==> d[j].0 != k
    ensures Find(d, k) == Some(i)
  {
  }

  lemma FindSameKeys<V, W>(d: Dict<V>, r: Dict<W>, k: string)
    requires |d| == |r|
    requires forall j :: 0 <= j < |d| ==> d[j].0 == r[j].0
    ensures Find(d, k) == Find(r, k)
  {
    match Find(d, k)
    case Some(i) => FindAt(r, k, i);
    case None =>
  }

  lemma FindAppend<V>(d: Dict<V>, k: string, v: V, k': string)
    ensures Find(d + [(k, v)], k') == match Find(d, k') case Some(i) => Some(i)
                                       case None => if k == k' then Some(|d|) else None
  {
    var r := d + [(k, v)];
    match Find(d, k')
    case Some(i) => FindAt(r, k', i);
    case None =>
      if k == k' { FindAt(r, k', |d|); }
  }

  /** Looking a key up after appending an entry. */
  lemma GetAppend<V>(d: Dict<V>, k: string, v: V, k': string)
    ensures Get(d + [(k, v)], k') == if HasKey(d, k') then Get(d, k') else if k == k' then Some(v) else None
  {
    FindAppend(d, k, v, k');
  }

  predicate HasKey<V>(d: Dict<V>, k: string)
  {
    Find(d, k).Some?
  }

  /** `d.get(k)` */
  function Get<V>(d: Dict<V>, k: string): Option<V>
  {
    match Find(d, k)
    case None => None
    case Some(i) => Some(d[i].1)
  }

  /** `d[k] = v`: an existing key keeps its position, a new key goes last. */
  function Put<V>(d: Dict<V>, k: string, v: V): (r: Dict<V>)
    ensures HasKey(d, k) ==> |r| == |d| && Keys(r) == Keys(d)
    ensures HasKey(d, k) ==> r == d[Find(d, k).value := (k, v)]
    ensures !HasKey(d, k) ==> r == d + [(k, v)]
    ensures Get(r, k) == Some(v)
    ensures forall k' :: k' != k ==> Get(r, k') == Get(d, k')
  {
    match Find(d, k)
    case Some(i) =>
      var r := d[i := (k, v)];
      assert forall k' :: Find(r, k') == Find(d, k') by {
        forall k' { FindSameKeys(d, r, k'); }
      }
      r
    case None =>
      var r := d + [(k, v)];
      assert forall k' :: Find(r, k') == (if k' == k then Some(|d|) else Find(d, k')) by {
        forall k' { FindAppend(d, k, v, k'); }
      }
      r
  }

  /** A second `d[k] = v` on the same key replaces the first. */
  lemma PutTwice<V>(d: Dict<V>, k: string, v1: V, v2: V)
    ensures Put(Put(d, k, v1), k, v2) == Put(d, k, v2)
  {
    var once := Put(d, k, v1);
    match Find(d, k)
    case Some(i) =>
      FindSameKeys(d, once, k);
      assert once[i := (k, v2)] == d[i := (k, v2)];
    case None =>
      FindAppend(d, k, v1, k);
      assert once[|d| := (k, v2)] == d + [(k, v2)];
  }

  lemma PutKeepsUnique<V>(d: Dict<V>, k: string, v: V)
    requires UniqueKeys(d)
    ensures UniqueKeys(Put(d, k, v))
  {
    if HasKey(d, k) {
      var r := Put(d, k, v);
      forall i, j | 0 <= i < j < |r| ensures r[i].0 != r[j].0 {
        assert r[i].0 == Keys(r)[i] == Keys(d)[i];
        assert r[j].0 == Keys(r)[j] == Keys(d)[j];
      }
    }
  }

  /** `d.update(e)`: Put every entry of `e`, in order. */
  function Update<V>(d: Dict<V>, e: Dict<V>): (r: Dict<V>)
    requires UniqueKeys(e)
    ensures forall k :: Get(r, k) == (if HasKey(e, k) then Get(e, k) else Get(d, k))
    decreases |e|
  {
    if |e| == 0 then d
    else
      var e', last := e[..|e| - 1], e[|e| - 1];
      assert e == e' + [last];
      var r := Put(Update(d, e'), last.0, last.1);
      FindAt(e, last.0, |e| - 1);
      assert forall k :: k != last.0 ==> Find(e, k) == Find(e', k) by {
        forall k | k != last.0 { FindAppend(e', last.0, last.1, k); }
      }
      r
  }

  /** Updating a dictionary keeps its keys unique. */
  lemma {:induction false} UpdateKeepsUnique<V>(d: Dict<V>, e: Dict<V>)
    requires UniqueKeys(d) && UniqueKeys(e)
    ensures UniqueKeys(Update(d, e))
    decreases |e|
  {
    if |e| > 0 {
      var e' := e[..|e| - 1];
      UpdateKeepsUnique(d, e');
      PutKeepsUnique(Update(d, e'), e[|e| - 1].0, e[|e| - 1].1);
    }
  }

  /** Every value of an updated dictionary comes from one of the two, so a property of all of their values holds of it. */
  lemma {:induction false} UpdateValues<V>(d: Dict<V>, e: Dict<V>, P: V -> bool)
    requires UniqueKeys(e)
    requires forall i :: 0 <= i < |d| ==> P(d[i].1)
    requires forall i :: 0 <= i < |e| ==> P(e[i].1)
    ensures forall i :: 0 <= i < |Update(d, e)| ==> P(Update(d, e)[i].1)
    decreases |e|
  {
    if |e| > 0 {
      var e', last := e[..|e| - 1], e[|e| - 1];
      UpdateValues(d, e', P);
      var m := Update(d, e');
      assert Update(d, e) == Put(m, last.0, last.1);
    }
  }

  /** The entries of a JSON object, or none for any other value (Python `obj.get` on a dict). */
  function Fields(j: Json): Dict<Json>
  {
    if j.JObj? then j.fields else []
  }

  /** A string-valued field; absent, null and non-string values read as absent. */
  function StrField(m: Dict<Json>, key: string): Option<string>
  {
    var g: Option<Json> := Get(m, key);
    match g
    case Some(JStr(s)) => Some(s)
    case _ => None
  }

  /** `m.get(key, "") or ""` for a string field. */
  function StrOrEmpty(m: Dict<Json>, key: string): (r: string)
    ensures StrField(m, key).Some? ==> r == StrField(m, key).value
    ensures StrField(m, key).None? ==> r == ""
  {
    match StrField(m, key)
    case Some(s) => s
    case None => ""
  }

  /** `m.get(key, default)` for a string field whose absence is replaced by `default`. */
  function StrOr(m: Dict<Json>, key: string, default: string): (r: string)
    ensures !HasKey(m, key) ==> r == default
    ensures Get(m, key).Some? && Get(m, key).value.JStr? ==> r == Get(m, key).value.s
  {
    var g: Option<Json> := Get(m, key);
    match g
    case None => default
    case Some(JStr(s)) => s
    case Some(_) => default
  }

  function StrItems(items: seq<Json>): (r: seq<string>)
    ensures |r| <= |items|
  {
    if |items| == 0 then []
    else (if items[0].JStr? then [items[0].s] else []) + StrItems(items[1..])
  }

  /** A list-of-strings field (`m.get(key, [])`): non-string items are not modelled and dropped. */
  function StrList(m: Dict<Json>, key: string): seq<string>
  {
    var g: Option<Json> := Get(m, key);
    match g
    case Some(JArr(items)) => StrItems(items)
    case _ => []
  }

  /** `{k: f(v) for k, v in d.items()}` built by assignment, one entry at a time. */
  function MapValues<V, W>(d: Dict<V>, f: V -> W): (r: Dict<W>)
    decreases |d|
  {
    if |d| == 0 then []
    else Put(MapValues(d[..|d| - 1], f), d[|d| - 1].0, f(d[|d| - 1].1))
  }

  /** Over a dictionary with unique keys, MapValues keeps every key in place and maps its value. */
  lemma {:induction false} MapValuesUnique<V, W>(d: Dict<V>, f: V -> W)
    requires UniqueKeys(d)
    ensures |MapValues(d, f)| == |d|
    ensures forall i :: 0 <= i < |d| ==> MapValues(d, f)[i] == (d[i].0, f(d[i].1))
    decreases |d|
  {
    if |d| > 0 {
      var init := d[..|d| - 1];
      MapValuesUnique(init, f);
      var m := MapValues(init, f);
      var last := d[|d| - 1];
      assert Find(m, last.0).None? by {
        forall j | 0 <= j < |m| ensures m[j].0 != last.0 {
          assert m[j].0 == d[j].0;
        }
      }
      var r := MapValues(d, f);
      assert r == m + [(last.0, f(last.1))];
      forall i | 0 <= i < |d| ensures r[i] == (d[i].0, f(d[i].1)) {
        if i < |d| - 1 {
          assert r[i] == m[i] && init[i] == d[i];
        }
      }
    }
  }
}
