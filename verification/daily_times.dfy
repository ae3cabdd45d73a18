/** Day buckets of a project (`dailyTimes`: date key -> seconds) and the trailing
    window sum that the renderer's two-week total computes.

    Days are integers (day numbers counted in the renderer's local calendar);
    `dateKey` stands for the conversion the renderer performs with `Date.setDate`
    and `toISOString().split("T")[0]`: the UTC calendar date, as a `YYYY-MM-DD`
    string, of the current clock time moved to that local day. */
module DailyTimes {

  type Buckets = map<string, int>

  /** `dailyTimes[key] || 0`: a missing bucket reads as 0. */
  function BucketValue(b: Buckets, key: string): int {
    if key in b then b[key] else 0
  }

  /** The sum of the buckets for the `n` days `today`, `today - 1`, ..., `today - (n - 1)`,
      accumulated in that order. */
  function WindowSum(b: Buckets, dateKey: int -> string, today: int, n: nat): int {
    if n == 0 then 0 else WindowSum(b, dateKey, today, n - 1) + BucketValue(b, dateKey(today - (n - 1)))
  }

  /** Distinct days give distinct keys. */
  ghost predicate InjectiveKeys(dateKey: int -> string) {
    forall d1, d2 :: dateKey(d1) == dateKey(d2) ==> d1 == d2
  }

  /** `key` is the key of one of the `n` days ending with `today`. */
  ghost predicate InWindow(dateKey: int -> string, today: int, n: nat, key: string) {
    exists d :: today - n < d <= today && dateKey(d) == key
  }

  /** The buckets whose keys fall inside the window. */
  ghost function WindowBuckets(b: Buckets, dateKey: int -> string, today: int, n: nat): (w: Buckets)
    ensures w.Keys <= b.Keys
    ensures forall k :: k in w ==> w[k] == b[k] && InWindow(dateKey, today, n, k)
    ensures forall k :: k in b && InWindow(dateKey, today, n, k) ==> k in w
  {
    map k | k in b && InWindow(dateKey, today, n, k) :: b[k]
  }

  /** Some key of a non-empty map. */
  ghost function PickKey(m: Buckets): (k: string)
    requires m != map[]
    ensures k in m
  {
    var k :| k in m; k
  }

  /** The sum of all values of a map. */
  ghost function Total(m: Buckets): int
    decreases |m|
  {
    if m == map[] then 0
    else
      var k := PickKey(m);
      assert |(m - {k}).Keys| < |m.Keys| by { assert (m - {k}).Keys == m.Keys - {k}; }
      m[k] + Total(m - {k})
  }

  /** The sum does not depend on which key is taken out first. */
  lemma {:induction false} TotalRemove(m: Buckets, k: string)
    requires k in m
    ensures Total(m) == m[k] + Total(m - {k})
    decreases |m|
  {
    var j := PickKey(m);
    if j != k {
      assert (m - {j}).Keys == m.Keys - {j};
      assert (m - {k}).Keys == m.Keys - {k};
      TotalRemove(m - {j}, k);
      TotalRemove(m - {k}, j);
      assert m - {j} - {k} == m - {k} - {j};
    }
  }

  /** Adding a new key adds its value to the total. */
  lemma TotalInsert(m: Buckets, k: string, v: int)
    requires k !in m
    ensures Total(m[k := v]) == Total(m) + v
  {
    TotalRemove(m[k := v], k);
    assert m[k := v] - {k} == m;
  }

  /** A sub-map of a map with non-negative values has no larger total. */
  lemma {:induction false} TotalOfSubmap(sub: Buckets, m: Buckets)
    requires sub.Keys <= m.Keys
    requires forall k :: k in sub ==> sub[k] == m[k]
    requires forall k :: k in m ==> m[k] >= 0
    ensures Total(sub) <= Total(m)
    decreases |m|
  {
    if m != map[] {
      var k := PickKey(m);
      assert (m - {k}).Keys == m.Keys - {k};
      if k in sub {
        TotalRemove(sub, k);
        TotalOfSubmap(sub - {k}, m - {k});
      } else {
        assert sub - {k} == sub;
        TotalOfSubmap(sub, m - {k});
      }
    } else {
      assert sub == map[];
    }
  }

  /** Keys outside the window do not affect the window sum, whether they are
      overwritten or removed. */
  lemma {:induction false} WindowIgnoresOutside(b: Buckets, dateKey: int -> string, today: int, n: nat, key: string, v: int)
    requires !InWindow(dateKey, today, n, key)
    ensures WindowSum(b[key := v], dateKey, today, n) == WindowSum(b, dateKey, today, n)
    ensures WindowSum(b - {key}, dateKey, today, n) == WindowSum(b, dateKey, today, n)
  {
    if n > 0 {
      InWindowStep(dateKey, today, n, key);
      WindowIgnoresOutside(b, dateKey, today, n - 1, key, v);
    }
  }

  /** An absent key contributes exactly what a zero bucket would. */
  lemma {:induction false} WindowMissingIsZero(b: Buckets, dateKey: int -> string, today: int, n: nat, key: string)
    requires key !in b
    ensures WindowSum(b[key := 0], dateKey, today, n) == WindowSum(b, dateKey, today, n)
  {
    if n > 0 {
      WindowMissingIsZero(b, dateKey, today, n - 1, key);
    }
  }

  /** With non-negative buckets the window sum is non-negative. */
  lemma {:induction false} WindowNonNegative(b: Buckets, dateKey: int -> string, today: int, n: nat)
    requires forall k :: k in b ==> b[k] >= 0
    ensures WindowSum(b, dateKey, today, n) >= 0
  {
    if n > 0 {
      WindowNonNegative(b, dateKey, today, n - 1);
    }
  }

  /** The window of `n` days is the window of `n - 1` days plus the day `today - (n - 1)`. */
  lemma InWindowStep(dateKey: int -> string, today: int, n: nat, key: string)
    requires n > 0
    ensures InWindow(dateKey, today, n, key)
            <==> InWindow(dateKey, today, n - 1, key) || key == dateKey(today - (n - 1))
  {
    if InWindow(dateKey, today, n, key) && key != dateKey(today - (n - 1)) {
      var e :| today - n < e <= today && dateKey(e) == key;
      assert today - (n - 1) < e;
    }
    if InWindow(dateKey, today, n - 1, key) {
      var e :| today - (n - 1) < e <= today && dateKey(e) == key;
      assert today - n < e;
    }
    assert today - n < today - (n - 1) <= today;
  }

  /** Widening the window by one day adds at most the bucket of that day, which was
      not in the narrower window. */
  lemma WindowBucketsStep(b: Buckets, dateKey: int -> string, today: int, n: nat)
    requires InjectiveKeys(dateKey)
    requires n > 0
    ensures var key := dateKey(today - (n - 1)); var w' := WindowBuckets(b, dateKey, today, n - 1);
            && key !in w'
            && WindowBuckets(b, dateKey, today, n) == if key in b then w'[key := b[key]] else w'
  {
    var key := dateKey(today - (n - 1));
    var w := WindowBuckets(b, dateKey, today, n);
    var w' := WindowBuckets(b, dateKey, today, n - 1);
    forall k ensures k in w <==> k in w' || (k == key && key in b) {
      InWindowStep(dateKey, today, n, k);
    }
  }

  /** With distinct keys per day, the window sum is exactly the total of the buckets
      dated inside the window: each of them is counted once and nothing else is. */
  lemma {:induction false} WindowSumIsWindowTotal(b: Buckets, dateKey: int -> string, today: int, n: nat)
    requires InjectiveKeys(dateKey)
    ensures WindowSum(b, dateKey, today, n) == Total(WindowBuckets(b, dateKey, today, n))
  {
    var w := WindowBuckets(b, dateKey, today, n);
    if n == 0 {
      assert w == map[];
    } else {
      WindowSumIsWindowTotal(b, dateKey, today, n - 1);
      WindowBucketsStep(b, dateKey, today, n);
      var key := dateKey(today - (n - 1));
      var w' := WindowBuckets(b, dateKey, today, n - 1);
      if key in b {
        TotalInsert(w', key, b[key]);
      }
    }
  }

  /** With distinct keys per day and non-negative buckets, the window sum is at most
      the total of all buckets. */
  lemma WindowAtMostTotal(b: Buckets, dateKey: int -> string, today: int, n: nat)
    requires InjectiveKeys(dateKey)
    requires forall k :: k in b ==> b[k] >= 0
    ensures 0 <= WindowSum(b, dateKey, today, n) <= Total(b)
  {
    WindowNonNegative(b, dateKey, today, n);
    WindowSumIsWindowTotal(b, dateKey, today, n);
    TotalOfSubmap(WindowBuckets(b, dateKey, today, n), b);
  }

  /** The window is inclusive of `today` and of `today - (n - 1)` and of nothing
      earlier or later: a single bucket recorded on day `day` is counted exactly when
      `today - n < day <= today`. */
  lemma {:induction false} WindowSingleBucket(dateKey: int -> string, day: int, v: int, today: int, n: nat)
    requires InjectiveKeys(dateKey)
    ensures WindowSum(map[dateKey(day) := v], dateKey, today, n) == if today - n < day <= today then v else 0
  {
    if n > 0 {
      WindowSingleBucket(dateKey, day, v, today, n - 1);
    }
  }
}
