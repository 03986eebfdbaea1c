/** Shared vocabulary: optional values and results, JSON-like values for the
    opaque dictionaries the services pass around, and the list operations
    Python code writes as comprehensions and slices. */
module Base {

  datatype Option<+T> = None | Some(value: T) {
    function GetOr(default: T): T {
      match this
      case Some(v) => v
      case None => default
    }
  }

  datatype Result<+T, +E> = Success(value: T) | Failure(error: E)

  /** A JSON value, as carried by request bodies, metadata and flow inputs. */
  datatype Value =
    | Null
    | Bool(b: bool)
    | Num(n: int)
    | Str(s: string)
    | Arr(items: seq<Value>)
    | Obj(fields: map<string, Value>)

  type Dict = map<string, Value>

  /** `d.get(key)` of a Python dict: None for a missing key. */
  function Get(d: Dict, key: string): Value {
    if key in d then d[key] else Null
  }

  /** An optional string as the JSON value Python would put in a dict. */
  function OptStr(s: Option<string>): Value {
    match s
    case Some(t) => Str(t)
    case None => Null
  }

  /** Python truthiness of a JSON value: null, false, zero and empty
      strings, lists and objects are false. */
  predicate Truthy(v: Value) {
    match v
    case Null => false
    case Bool(b) => b
    case Num(n) => n != 0
    case Str(s) => s != ""
    case Arr(items) => items != []
    case Obj(fields) => fields != map[]
  }

  /** Python truthiness of an optional string: None and "" are both false. */
  predicate IsSet(s: Option<string>) {
    s.Some? && s.value != ""
  }

  /** `x or default` on a list argument: none and the empty list both fall
      back to the default. */
  function OrDefault<T>(x: Option<seq<T>>, default: seq<T>): (r: seq<T>)
    ensures (x.None? || x.value == []) ==> r == default
    ensures x.Some? && x.value != [] ==> r == x.value
  {
    if x.Some? && x.value != [] then x.value else default
  }

  // ---------------------------------------------------------------------
  // Comprehension filters and counts
  // ---------------------------------------------------------------------

  /** `[x for x in s if p(x)]`: the elements of `s` satisfying `p`, in order. */
  function Filter<T>(s: seq<T>, p: T -> bool): (r: seq<T>)
    ensures |r| <= |s|
    ensures forall i :: 0 <= i < |r| ==> r[i] in s && p(r[i])
    ensures forall i :: 0 <= i < |s| && p(s[i]) ==> s[i] in r
    decreases |s|
  {
    if s == [] then []
    else if p(s[0]) then [s[0]] + Filter(s[1..], p)
    else Filter(s[1..], p)
  }

  lemma {:induction false} FilterAppend<T>(a: seq<T>, b: seq<T>, p: T -> bool)
    ensures Filter(a + b, p) == Filter(a, p) + Filter(b, p)
    decreases |a|
  {
    if a == [] {
      assert a + b == b;
    } else {
      assert (a + b)[1..] == a[1..] + b;
      FilterAppend(a[1..], b, p);
    }
  }

  /** A filter keeps every selected element as often as it occurs, and no
      other element. */
  lemma {:induction false} FilterMultiset<T>(s: seq<T>, p: T -> bool)
    ensures forall x :: multiset(Filter(s, p))[x] == if p(x) then multiset(s)[x] else 0
    decreases |s|
  {
    if s != [] {
      FilterMultiset(s[1..], p);
      assert s == [s[0]] + s[1..];
    }
  }

  /** Filtering twice is filtering once by the conjunction, so a chain of
      list comprehensions keeps the order of the original list. */
  lemma {:induction false} FilterFilter<T>(s: seq<T>, p: T -> bool, q: T -> bool, both: T -> bool)
    requires forall i :: 0 <= i < |s| ==> both(s[i]) == (p(s[i]) && q(s[i]))
    ensures Filter(Filter(s, p), q) == Filter(s, both)
    decreases |s|
  {
    if s != [] {
      assert forall i :: 0 <= i < |s[1..]| ==> s[1..][i] == s[i + 1];
      FilterFilter(s[1..], p, q, both);
    }
  }

  /** Filtering with a predicate that every element satisfies changes nothing. */
  lemma {:induction false} FilterAll<T>(s: seq<T>, p: T -> bool)
    requires forall i :: 0 <= i < |s| ==> p(s[i])
    ensures Filter(s, p) == s
    decreases |s|
  {
    if s != [] {
      FilterAll(s[1..], p);
    }
  }

  /** Predicates that agree on every element select the same elements. */
  lemma {:induction false} FilterCongruent<T>(s: seq<T>, p: T -> bool, q: T -> bool)
    requires forall i :: 0 <= i < |s| ==> p(s[i]) == q(s[i])
    ensures Filter(s, p) == Filter(s, q)
    decreases |s|
  {
    if s != [] {
      assert forall i :: 0 <= i < |s[1..]| ==> s[1..][i] == s[i + 1];
      FilterCongruent(s[1..], p, q);
    }
  }

  /** `sum(1 for x in s if p(x))`. */
  function Count<T>(s: seq<T>, p: T -> bool): (n: nat)
    ensures n <= |s|
    ensures n == |Filter(s, p)|
    decreases |s|
  {
    if s == [] then 0 else (if p(s[0]) then 1 else 0) + Count(s[1..], p)
  }

  lemma {:induction false} CountAll<T>(s: seq<T>, p: T -> bool)
    ensures Count(s, p) == |s| <==> forall i :: 0 <= i < |s| ==> p(s[i])
    decreases |s|
  {
    if s != [] {
      CountAll(s[1..], p);
      assert forall i :: 0 < i < |s| ==> s[1..][i - 1] == s[i];
    }
  }

  lemma {:induction false} CountNone<T>(s: seq<T>, p: T -> bool)
    ensures Count(s, p) == 0 <==> forall i :: 0 <= i < |s| ==> !p(s[i])
    decreases |s|
  {
    if s != [] {
      CountNone(s[1..], p);
      assert forall i :: 0 < i < |s| ==> s[1..][i - 1] == s[i];
    }
  }

  lemma {:induction false} CountAppend<T>(a: seq<T>, b: seq<T>, p: T -> bool)
    ensures Count(a + b, p) == Count(a, p) + Count(b, p)
  {
    FilterAppend(a, b, p);
  }

  /** Counts of two predicates that never hold together add up to the count
      of either. */
  lemma {:induction false} CountDisjoint<T>(s: seq<T>, p: T -> bool, q: T -> bool, either: T -> bool)
    requires forall i :: 0 <= i < |s| ==> !(p(s[i]) && q(s[i])) && either(s[i]) == (p(s[i]) || q(s[i]))
    ensures Count(s, p) + Count(s, q) == Count(s, either)
    decreases |s|
  {
    if s != [] {
      assert forall i :: 0 <= i < |s[1..]| ==> s[1..][i] == s[i + 1];
      CountDisjoint(s[1..], p, q, either);
    }
  }

  /** `[f(x) for x in s]`. */
  function MapSeq<T, U>(s: seq<T>, f: T -> U): (r: seq<U>)
    ensures |r| == |s|
    ensures forall i :: 0 <= i < |s| ==> r[i] == f(s[i])
    decreases |s|
  {
    if s == [] then [] else MapSeq(s[..|s| - 1], f) + [f(s[|s| - 1])]
  }

  /** The values of the calls of `f` on `s` that returned, in order: a loop
      that keeps what each call returns and skips the calls that raised. */
  function Successes<T, U, E>(s: seq<T>, f: T -> Result<U, E>): (r: seq<U>)
    ensures |r| <= |s|
    decreases |s|
  {
    if s == [] then []
    else
      var a := f(s[|s| - 1]);
      Successes(s[..|s| - 1], f) + if a.Success? then [a.value] else []
  }

  /** When no call raised, there is one value per element, in order. */
  lemma {:induction false} SuccessesAll<T, U, E>(s: seq<T>, f: T -> Result<U, E>)
    requires forall i :: 0 <= i < |s| ==> f(s[i]).Success?
    ensures |Successes(s, f)| == |s|
    ensures forall i :: 0 <= i < |s| ==> Successes(s, f)[i] == f(s[i]).value
    decreases |s|
  {
    if s != [] {
      var init := s[..|s| - 1];
      assert forall i :: 0 <= i < |init| ==> init[i] == s[i];
      SuccessesAll(init, f);
    }
  }

  /** `[f(i, x) for i, x in enumerate(s)]`. */
  function MapIndexed<T, U>(s: seq<T>, f: (nat, T) -> U): (r: seq<U>)
    ensures |r| == |s|
    ensures forall i :: 0 <= i < |s| ==> r[i] == f(i, s[i])
    decreases |s|
  {
    if s == [] then [] else MapIndexed(s[..|s| - 1], f) + [f(|s| - 1, s[|s| - 1])]
  }

  /** `[(k, get(k)) for k in keys if get(k) is not None]`. */
  function Collect<K, V>(keys: seq<K>, get: K -> Option<V>): (r: seq<(K, V)>)
    ensures |r| <= |keys|
    ensures forall i :: 0 <= i < |r| ==> r[i].0 in keys && get(r[i].0) == Some(r[i].1)
    decreases |keys|
  {
    if keys == [] then []
    else
      var k := keys[|keys| - 1];
      Collect(keys[..|keys| - 1], get) + if get(k).Some? then [(k, get(k).value)] else []
  }

  /** The value a list of pairs gives a key, the last pairing winning as in
      `dict(pairs)[k]`. */
  function Lookup<K(==), V>(ps: seq<(K, V)>, k: K): Option<V>
    decreases |ps|
  {
    if ps == [] then None
    else if ps[|ps| - 1].0 == k then Some(ps[|ps| - 1].1)
    else Lookup(ps[..|ps| - 1], k)
  }

  predicate DistinctKeys<K(==), V>(ps: seq<(K, V)>) {
    forall i, j :: 0 <= i < j < |ps| ==> ps[i].0 != ps[j].0
  }

  /** A key no pair names is not looked up. */
  lemma {:induction false} LookupAbsent<K, V>(ps: seq<(K, V)>, k: K)
    requires forall i :: 0 <= i < |ps| ==> ps[i].0 != k
    ensures Lookup(ps, k).None?
    decreases |ps|
  {
    if ps != [] {
      LookupAbsent(ps[..|ps| - 1], k);
    }
  }

  /** Collected pairs give each listed key exactly what `get` gives it. */
  lemma {:induction false} CollectLookup<K, V>(keys: seq<K>, get: K -> Option<V>, k: K)
    ensures Lookup(Collect(keys, get), k) == if k in keys then get(k) else None
    decreases |keys|
  {
    if keys != [] {
      var init := keys[..|keys| - 1];
      var last := keys[|keys| - 1];
      var r := Collect(keys, get);
      CollectLookup(init, get, k);
      assert k in keys <==> k in init || k == last;
      if get(last).Some? {
        assert r[..|r| - 1] == Collect(init, get);
      } else {
        assert r == Collect(init, get);
        if k == last && k !in init {
          LookupAbsent(r, k);
        }
      }
    }
  }

  /** Distinct keys are collected once each. */
  lemma {:induction false} CollectDistinct<K, V>(keys: seq<K>, get: K -> Option<V>)
    requires forall i, j :: 0 <= i < j < |keys| ==> keys[i] != keys[j]
    ensures DistinctKeys(Collect(keys, get))
    decreases |keys|
  {
    if keys != [] {
      var init := keys[..|keys| - 1];
      assert forall i :: 0 <= i < |init| ==> init[i] == keys[i];
      CollectDistinct(init, get);
      assert keys[|keys| - 1] !in init;
    }
  }

  /** `set(s)`: the distinct elements of a list. */
  function Elements<T(!new)>(s: seq<T>): (r: set<T>)
    ensures forall x :: x in r <==> x in s
  {
    set i | 0 <= i < |s| :: s[i]
  }

  /** `sum(f(x) for x in s)`. */
  function Sum<T>(s: seq<T>, f: T -> int): int
    decreases |s|
  {
    if s == [] then 0 else Sum(s[..|s| - 1], f) + f(s[|s| - 1])
  }

  // ---------------------------------------------------------------------
  // Python slices
  // ---------------------------------------------------------------------

  /** Where a slice bound `i` lands in a list of length `n`: negative bounds
      count from the end, and both ends are clamped to the list. */
  function SliceBound(n: nat, i: int): (k: nat)
    ensures k <= n
    ensures 0 <= i <= n ==> k == i
    ensures i > n ==> k == n
    ensures i < 0 ==> k == if n + i < 0 then 0 else n + i
  {
    if i < 0 then (if n + i < 0 then 0 else n + i)
    else if i > n then n
    else i
  }

  /** `s[i:j]`. */
  function Slice<T>(s: seq<T>, i: int, j: int): seq<T> {
    var lo := SliceBound(|s|, i);
    var hi := SliceBound(|s|, j);
    if lo <= hi then s[lo..hi] else []
  }

  /** `s[-limit:]`: the last `limit` items for a positive limit, and (because
      `-0` is `0`) the whole list for a limit of zero. */
  function LastItems<T>(s: seq<T>, limit: int): (r: seq<T>)
    ensures limit == 0 ==> r == s
    ensures 0 < limit <= |s| ==> r == s[|s| - limit..]
    ensures limit >= |s| ==> r == s
    ensures limit < 0 ==> r == s[if -limit < |s| then -limit else |s|..]
  {
    Slice(s, -limit, |s|)
  }

  /** `s[:limit]`. */
  function FirstItems<T>(s: seq<T>, limit: int): (r: seq<T>)
    ensures 0 <= limit <= |s| ==> r == s[..limit]
    ensures limit >= |s| ==> r == s
    ensures limit < 0 ==> r == s[..if |s| + limit < 0 then 0 else |s| + limit]
  {
    Slice(s, 0, limit)
  }

  /** `s[offset:offset + limit]` for a non-negative offset and limit is the
      window of at most `limit` items starting at `offset`. */
  lemma Window<T>(s: seq<T>, offset: int, limit: int)
    requires 0 <= offset && 0 <= limit
    ensures var hi := if offset + limit <= |s| then offset + limit else |s|;
            Slice(s, offset, offset + limit) == if offset <= |s| then s[offset..hi] else []
    ensures |Slice(s, offset, offset + limit)| <= limit
    ensures var w := Slice(s, offset, offset + limit);
            forall i :: 0 <= i < |w| ==> w[i] == s[offset + i]
  {
  }

  // ---------------------------------------------------------------------
  // Percentages
  // ---------------------------------------------------------------------

  /** A percentage p of d out of t (p * t == 100 * d) lies in [0, 100], is
      100 exactly when d == t and 0 exactly when d == 0, and reaches 95 exactly when 100 * d >= 95 * t. */
  lemma PercentageFacts(p: real, d: real, t: real)
    requires t > 0.0 && 0.0 <= d <= t
    requires p * t == d * 100.0
    ensures 0.0 <= p <= 100.0
    ensures p == 100.0 <==> d == t
    ensures p == 0.0 <==> d == 0.0
    ensures p >= 95.0 <==> 100.0 * d >= 95.0 * t
  {
    ScaleOrder(p, 0.0, t);
    ScaleOrder(100.0, p, t);
    ScaleOrder(p, 95.0, t);
    ScaleOrder(p, 100.0, t);
    ScaleOrder(d, 0.0, 100.0);
    ScaleOrder(d, t, 100.0);
  }

  /** Multiplying by a positive number keeps order and equality. */
  lemma ScaleOrder(x: real, y: real, t: real)
    requires t > 0.0
    ensures x >= y <==> x * t >= y * t
    ensures x == y <==> x * t == y * t
  {
    assert x * t - y * t == (x - y) * t;
    if x > y {
      assert (x - y) * t > 0.0;
    } else if x < y {
      assert (y - x) * t > 0.0;
    }
  }
}
