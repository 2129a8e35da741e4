/**
 * The round-robin selection rule of the load balancer, on values.
 *
 * The registry's health flags are a `seq<bool>` in registry order and the
 * shared request counter is an unsigned 64-bit integer. A selection keeps the
 * healthy servers in registry order, fails when there are none, and otherwise
 * advances the counter by one (wrapping at 2^64) and picks the healthy server
 * whose position among the healthy ones is the new counter modulo their number.
 */
module RoundRobin {

  datatype Option<T> = None | Some(value: T)

  /** Go's `uint64` wraps modulo 2^64. */
  const UINT64_MODULUS: int := 0x1_0000_0000_0000_0000

  type Counter = c: int | 0 <= c < UINT64_MODULUS

  /** The value `atomic.AddUint64(&current, 1)` stores and returns. */
  function NextCounter(c: Counter): (n: Counter)
    ensures c < UINT64_MODULUS - 1 ==> n == c + 1
    ensures c == UINT64_MODULUS - 1 ==> n == 0
  {
    (c + 1) % UINT64_MODULUS
  }

  /** The number of healthy servers among `flags`. */
  function CountHealthy(flags: seq<bool>): (n: nat)
    ensures n <= |flags|
    ensures n == 0 <==> forall i :: 0 <= i < |flags| ==> !flags[i]
    decreases |flags|
  {
    if flags == [] then 0
    else
      var init := flags[..|flags| - 1];
      assert forall i :: 0 <= i < |init| ==> init[i] == flags[i];
      CountHealthy(init) + (if flags[|flags| - 1] then 1 else 0)
  }

  /**
   * The registry positions of the healthy servers, in registry order: the
   * filtered view `GetNextServer` rebuilds on every call.
   */
  function HealthyIndices(flags: seq<bool>): (r: seq<nat>)
    ensures |r| == CountHealthy(flags)
    ensures forall m :: 0 <= m < |r| ==> r[m] < |flags| && flags[r[m]]
    ensures forall m1, m2 :: 0 <= m1 < m2 < |r| ==> r[m1] < r[m2]
    decreases |flags|
  {
    if flags == [] then []
    else
      var last := |flags| - 1;
      var init := flags[..last];
      assert forall i :: 0 <= i < last ==> init[i] == flags[i];
      HealthyIndices(init) + (if flags[last] then [last] else [])
  }

  /** Extending the registry prefix by one server extends the filtered view by at most that server. */
  lemma HealthyIndicesExtend(flags: seq<bool>, i: nat)
    requires i < |flags|
    ensures HealthyIndices(flags[..i + 1]) ==
      HealthyIndices(flags[..i]) + (if flags[i] then [i] else [])
  {
    assert flags[..i + 1][..i] == flags[..i];
  }

  /** Every healthy server is in the filtered view. */
  lemma {:induction false} HealthyIndicesComplete(flags: seq<bool>, i: nat)
    requires i < |flags| && flags[i]
    ensures i in HealthyIndices(flags)
    decreases |flags|
  {
    var last := |flags| - 1;
    if i < last {
      var init := flags[..last];
      HealthyIndicesComplete(init, i);
      assert HealthyIndices(flags) == HealthyIndices(init) + (if flags[last] then [last] else []);
    }
  }

  /** Position `m` of the filtered view is the healthy server with exactly `m` healthy servers before it. */
  lemma {:induction false} HealthyIndicesRank(flags: seq<bool>, m: nat)
    requires m < |HealthyIndices(flags)|
    ensures CountHealthy(flags[..HealthyIndices(flags)[m]]) == m
    decreases |flags|
  {
    var last := |flags| - 1;
    var init := flags[..last];
    var prefix := HealthyIndices(init);
    assert HealthyIndices(flags) == prefix + (if flags[last] then [last] else []);
    if m < |prefix| {
      HealthyIndicesRank(init, m);
      assert flags[..prefix[m]] == init[..prefix[m]];
    } else {
      assert flags[..last] == init;
    }
  }

  /**
   * One selection: the registry index `GetNextServer` returns when the flags
   * are `flags` and the counter holds `c` before the call, or None when no
   * server is healthy.
   */
  function Choose(flags: seq<bool>, c: Counter): (r: Option<nat>)
    ensures r.None? <==> forall i :: 0 <= i < |flags| ==> !flags[i]
    ensures r.Some? ==> r.value < |flags| && flags[r.value]
    ensures r.Some? ==>
      CountHealthy(flags[..r.value]) == NextCounter(c) % CountHealthy(flags)
  {
    var healthy := HealthyIndices(flags);
    if |healthy| == 0 then None
    else
      HealthyIndicesRank(flags, NextCounter(c) % |healthy|);
      Some(healthy[NextCounter(c) % |healthy|])
  }

  /**
   * The indices returned by `n` consecutive calls of `GetNextServer`
   * starting with counter `c`, while no health flag changes in between. Once
   * a call fails the counter stays put and so does every later call.
   */
  function Rotation(flags: seq<bool>, c: Counter, n: nat): (r: seq<nat>)
    ensures |r| == if CountHealthy(flags) == 0 then 0 else n
    ensures forall j :: 0 <= j < |r| ==> r[j] < |flags| && flags[r[j]]
    decreases n
  {
    if n == 0 then []
    else match Choose(flags, c)
      case None => []
      case Some(i) => [i] + Rotation(flags, NextCounter(c), n - 1)
  }

  ghost predicate AllHealthy(flags: seq<bool>) {
    forall i :: 0 <= i < |flags| ==> flags[i]
  }

  /** When every server is healthy the filtered view is the whole registry. */
  lemma {:induction false} AllHealthyIndices(flags: seq<bool>)
    requires AllHealthy(flags)
    ensures HealthyIndices(flags) == seq(|flags|, i requires 0 <= i < |flags| => i)
  {
    var r := HealthyIndices(flags);
    var ids := seq(|flags|, i requires 0 <= i < |flags| => i);
    forall i | 0 <= i < |flags| ensures i in r {
      HealthyIndicesComplete(flags, i);
    }
    AllHealthyCount(flags);
    forall m | 0 <= m < |r| ensures r[m] == m {
      HealthyIndicesRank(flags, m);
      AllHealthyCount(flags[..r[m]]);
    }
  }

  lemma {:induction false} AllHealthyCount(flags: seq<bool>)
    requires AllHealthy(flags)
    ensures CountHealthy(flags) == |flags|
    decreases |flags|
  {
    if flags != [] {
      AllHealthyCount(flags[..|flags| - 1]);
    }
  }

  /** With all `k` servers healthy, one call picks index `(c + 1) mod k`. */
  lemma ChooseAllHealthy(flags: seq<bool>, c: Counter)
    requires |flags| > 0 && AllHealthy(flags)
    ensures Choose(flags, c) == Some(NextCounter(c) % |flags|)
  {
    AllHealthyIndices(flags);
  }

  /**
   * With all `k` servers healthy and no wrap of the counter inside the
   * window, the `j`-th of `n` consecutive picks is `(c + 1 + j) mod k`.
   */
  lemma {:induction false} RotationAt(flags: seq<bool>, c: Counter, n: nat, j: nat)
    requires |flags| > 0 && AllHealthy(flags)
    requires c + n < UINT64_MODULUS && j < n
    ensures |Rotation(flags, c, n)| == n
    ensures Rotation(flags, c, n)[j] == (c + 1 + j) % |flags|
    decreases n
  {
    ChooseAllHealthy(flags, c);
    if n > 1 {
      RotationAt(flags, NextCounter(c), n - 1, if j == 0 then 0 else j - 1);
    }
  }

  lemma MulAtLeast(d: int, k: int)
    requires d >= 1 && k > 0
    ensures d * k >= k
  {
  }

  /** The remainder is determined by any quotient-remainder split of `x`. */
  lemma ModUnique(x: int, k: int, q: int, r: int)
    requires k > 0 && 0 <= r < k && x == q * k + r
    ensures x % k == r
  {
    var q', r' := x / k, x % k;
    assert x == q' * k + r';
    if q' < q {
      assert (q - q') * k == q * k - q' * k;
      MulAtLeast(q - q', k);
    } else if q' > q {
      assert (q' - q) * k == q' * k - q * k;
      MulAtLeast(q' - q, k);
    }
  }

  /** Moving a counter on by one moves its residue cyclically. */
  lemma ModStep(x: nat, k: nat)
    requires k > 0
    ensures (x + 1) % k == if x % k == k - 1 then 0 else x % k + 1
  {
    var q, r := x / k, x % k;
    assert x == q * k + r;
    if r == k - 1 {
      assert x + 1 == (q + 1) * k + 0;
      ModUnique(x + 1, k, q + 1, 0);
    } else {
      ModUnique(x + 1, k, q, r + 1);
    }
  }

  /**
   * With all `k` servers healthy and no wrap inside the window, the `j`-th of
   * `k` consecutive picks is `s + j` brought back once below `k`, where `s` is
   * the first pick.
   */
  lemma RotationWrapped(flags: seq<bool>, c: Counter, j: nat)
    requires |flags| > 0 && AllHealthy(flags)
    requires c + |flags| < UINT64_MODULUS && j < |flags|
    ensures var k, s := |flags|, (c + 1) % |flags|;
      |Rotation(flags, c, k)| == k &&
      Rotation(flags, c, k)[j] == if s + j < k then s + j else s + j - k
  {
    RotationAt(flags, c, |flags|, j);
    WrappedResidue(c + 1, j, |flags|);
  }

  /**
   * Fairness: with all `k` servers healthy, `k` consecutive selections start
   * at index `(c + 1) mod k`, walk the registry cyclically, and so return
   * every server exactly once.
   */
  lemma FairRotation(flags: seq<bool>, c: Counter)
    requires |flags| > 0 && AllHealthy(flags)
    requires c + |flags| < UINT64_MODULUS
    ensures |Rotation(flags, c, |flags|)| == |flags|
    ensures Rotation(flags, c, |flags|)[0] == NextCounter(c) % |flags|
    ensures forall j :: 0 <= j < |flags| - 1 ==>
      Rotation(flags, c, |flags|)[j + 1] == (Rotation(flags, c, |flags|)[j] + 1) % |flags|
    ensures forall j1, j2 :: 0 <= j1 < j2 < |flags| ==>
      Rotation(flags, c, |flags|)[j1] != Rotation(flags, c, |flags|)[j2]
    ensures forall i :: 0 <= i < |flags| ==> i in Rotation(flags, c, |flags|)
  {
    var k := |flags|;
    var r := Rotation(flags, c, k);
    var s := (c + 1) % k;
    RotationAt(flags, c, k, 0);
    forall j | 0 <= j < k - 1
      ensures r[j + 1] == (r[j] + 1) % k
    {
      RotationAt(flags, c, k, j);
      RotationAt(flags, c, k, j + 1);
      ModStep(c + 1 + j, k);
      if r[j] == k - 1 {
        ModUnique(r[j] + 1, k, 1, 0);
      } else {
        ModUnique(r[j] + 1, k, 0, r[j] + 1);
      }
    }
    forall j1, j2 | 0 <= j1 < j2 < k
      ensures r[j1] != r[j2]
    {
      RotationWrapped(flags, c, j1);
      RotationWrapped(flags, c, j2);
    }
    forall i | 0 <= i < k
      ensures i in r
    {
      var j := if s <= i then i - s else i - s + k;
      RotationWrapped(flags, c, j);
    }
  }

  /** `(a + j) mod k` is `(a mod k) + j`, brought back once below `k`. */
  lemma {:induction false} WrappedResidue(a: nat, j: nat, k: nat)
    requires k > 0 && j < k
    ensures (a + j) % k == if a % k + j < k then a % k + j else a % k + j - k
    decreases j
  {
    if j > 0 {
      WrappedResidue(a, j - 1, k);
      ModStep(a + j - 1, k);
    }
  }

  /**
   * Three healthy servers and the counter at 0: the counter is incremented
   * before indexing, so the first selection lands on index 1.
   */
  lemma FirstRotation()
    ensures Choose([true, true, true], 0) == Some(1)
    ensures Choose([true, true, true], 1) == Some(2)
    ensures Choose([true, true, true], 2) == Some(0)
  {
    ChooseAllHealthy([true, true, true], 0);
    ChooseAllHealthy([true, true, true], 1);
    ChooseAllHealthy([true, true, true], 2);
  }

  /**
   * Fairness needs a window without wrap-around: with three healthy servers,
   * the two calls on either side of the 2^64 wrap both return index 0.
   */
  lemma WrapRepeatsServer()
    ensures Rotation([true, true, true], UINT64_MODULUS - 2, 3) == [0, 0, 1]
  {
    ChooseAllHealthy([true, true, true], UINT64_MODULUS - 2);
    ChooseAllHealthy([true, true, true], UINT64_MODULUS - 1);
    ChooseAllHealthy([true, true, true], 0);
  }
}
