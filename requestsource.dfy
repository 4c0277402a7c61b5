/** How a request source picks the inner source it delegates to: the cumulative weight
    table and its binary search, weighted-random choice with a uniform fallback,
    round-robin over a shared counter, and an explicitly selected index.
    The inner sources are opaque values; every `NewRequest` returns the index of the
    source whose own `NewRequest` would be called. */
module RequestSource {
  import opened Wrappers

  /** The run-time panics of the Go code, as values. */
  datatype Panic =
    | InvalidRange      // intn called with n <= 0
    | IndexOutOfRange   // indexing Sources outside its bounds
    | DivideByZero      // `% len(Sources)` with no sources

  // ---------------------------------------------------------------------------
  // 64-bit integers (the counters are int64 and Go's int is 64 bits wide)

  const MinInt64: int := -0x8000_0000_0000_0000
  const MaxInt64: int := 0x7fff_ffff_ffff_ffff

  predicate IsInt64(x: int) {
    MinInt64 <= x <= MaxInt64
  }

  /** Two's-complement wrap-around of a 64-bit addition or subtraction. */
  function Wrap64(x: int): (r: int)
    ensures IsInt64(r)
    ensures IsInt64(x) ==> r == x
    ensures x == MaxInt64 + 1 ==> r == MinInt64
    ensures x == MinInt64 - 1 ==> r == MaxInt64
  {
    (x - MinInt64) % 0x1_0000_0000_0000_0000 + MinInt64
  }

  /** Go's `%`: truncated division, so the remainder has the sign of the dividend. */
  function Rem(a: int, b: int): (r: int)
    requires b > 0
    ensures -b < r < b
    ensures a >= 0 ==> r == a % b
    ensures a < 0 ==> r <= 0
  {
    if a >= 0 then a % b else -((-a) % b)
  }

  // ---------------------------------------------------------------------------
  // Random draws

  /** The contract of `Random` (and of math/rand.Intn): a number in [0, n) for n > 0. */
  ghost predicate ValidRandom(random: int -> int) {
    forall n :: n > 0 ==> 0 <= random(n) < n
  }

  /** `intn`: a draw in [0, n), or a panic when the range is empty. */
  function Intn(n: int, random: int -> int): (r: Result<nat, Panic>)
    requires ValidRandom(random)
    ensures r.Ok? <==> n > 0
    ensures r.Err? ==> r.error == InvalidRange
    ensures r.Ok? ==> r.value < n
  {
    if n <= 0 then Err(InvalidRange) else Ok(random(n))
  }

  // ---------------------------------------------------------------------------
  // The cumulative weight table

  /** What a weight adds to the table: weights below 1 add nothing. */
  function Positive(w: int): nat {
    if w > 0 then w else 0
  }

  /** The sum of the positive weights. */
  function PosSum(ws: seq<int>): nat
    decreases |ws|
  {
    if ws == [] then 0 else PosSum(ws[..|ws| - 1]) + Positive(ws[|ws| - 1])
  }

  /** The table `makeCdf` is meant to build: entry i sums the positive weights at 0..i. */
  function CdfOf(ws: seq<int>): seq<int> {
    seq(|ws|, i requires 0 <= i < |ws| => PosSum(ws[..i + 1]))
  }

  /** `makeCdf`: fills a fresh array with the running sum of the positive weights. */
  method MakeCdf(weights: seq<int>) returns (cdf: array<int>, total: int)
    ensures fresh(cdf)
    ensures cdf.Length == |weights|
    ensures cdf[..] == CdfOf(weights)
    ensures total == PosSum(weights)
  {
    cdf := new int[|weights|];
    var n := 0;
    for i := 0 to |weights|
      invariant n == PosSum(weights[..i])
      invariant forall k :: 0 <= k < i ==> cdf[k] == PosSum(weights[..k + 1])
    {
      assert weights[..i + 1][..i] == weights[..i];
      if weights[i] > 0 {
        n := n + weights[i];
      }
      cdf[i] := n;
    }
    assert weights[..|weights|] == weights;
    total := n;
  }

  lemma {:induction false} PosSumPrefixMonotone(ws: seq<int>, i: nat, j: nat)
    requires i <= j <= |ws|
    ensures PosSum(ws[..i]) <= PosSum(ws[..j])
    decreases j
  {
    if i < j {
      assert ws[..j][..j - 1] == ws[..j - 1];
      PosSumPrefixMonotone(ws, i, j - 1);
    }
  }

  /** The table never decreases, so `selectCdf` may binary-search it. */
  lemma CdfNonDecreasing(ws: seq<int>)
    ensures NonDecreasing(CdfOf(ws))
  {
    forall i, j | 0 <= i <= j < |ws|
      ensures CdfOf(ws)[i] <= CdfOf(ws)[j]
    {
      PosSumPrefixMonotone(ws, i + 1, j + 1);
    }
  }

  /** Entry i is the entry before it plus the weight at i when positive; a weight
      below 1 repeats the previous entry (0 at the start). */
  lemma CdfStep(ws: seq<int>, i: nat)
    requires i < |ws|
    ensures CdfOf(ws)[i] == (if i == 0 then 0 else CdfOf(ws)[i - 1]) + Positive(ws[i])
    ensures ws[i] <= 0 ==> CdfOf(ws)[i] == (if i == 0 then 0 else CdfOf(ws)[i - 1])
  {
    assert ws[..i + 1][..i] == ws[..i];
    assert CdfOf(ws)[i] == PosSum(ws[..i]) + Positive(ws[i]);
    if i > 0 {
      assert CdfOf(ws)[i - 1] == PosSum(ws[..i]);
    }
  }

  /** The total equals the last entry of the table. */
  lemma CdfLastIsTotal(ws: seq<int>)
    requires |ws| > 0
    ensures CdfOf(ws)[|ws| - 1] == PosSum(ws)
  {
    assert ws[..|ws|] == ws;
  }

  /** The total is 0 exactly when no weight is positive. */
  lemma {:induction false} PosSumZeroIffNoPositive(ws: seq<int>)
    ensures PosSum(ws) == 0 <==> forall k :: 0 <= k < |ws| ==> ws[k] <= 0
    decreases |ws|
  {
    if ws != [] {
      var init := ws[..|ws| - 1];
      PosSumZeroIffNoPositive(init);
      assert forall k :: 0 <= k < |init| ==> init[k] == ws[k];
    }
  }

  // ---------------------------------------------------------------------------
  // Searching the table

  ghost predicate NonDecreasing(cdf: seq<int>) {
    forall i, j :: 0 <= i <= j < |cdf| ==> cdf[i] <= cdf[j]
  }

  /** i is the smallest index whose entry exceeds val, or |cdf| when none does. */
  ghost predicate IsFirstAbove(cdf: seq<int>, val: int, i: int) {
    && 0 <= i <= |cdf|
    && (forall k :: 0 <= k < i ==> cdf[k] <= val)
    && (i < |cdf| ==> cdf[i] > val)
  }

  /** `selectCdf`: sort.Search for the first entry above val. Like sort.Search, it
      needs the predicate `cdf[i] > val` to be false then true, i.e. a sorted table. */
  method SelectCdf(cdf: seq<int>, val: int) returns (i: nat)
    requires NonDecreasing(cdf)
    ensures IsFirstAbove(cdf, val, i)
  {
    var lo, hi := 0, |cdf|;
    while lo < hi
      invariant 0 <= lo <= hi <= |cdf|
      invariant forall k :: 0 <= k < lo ==> cdf[k] <= val
      invariant forall k :: hi <= k < |cdf| ==> cdf[k] > val
      decreases hi - lo
    {
      var h := (lo + hi) / 2;
      if cdf[h] <= val {
        lo := h + 1;
      } else {
        hi := h;
      }
    }
    i := lo;
  }

  /** A draw in [0, total) selects an in-range index whose weight is positive: the one
      whose slice [PosSum(ws[..i]), PosSum(ws[..i]) + ws[i]) holds the draw. */
  lemma SelectionWithinWeight(ws: seq<int>, val: int, i: int)
    requires 0 <= val < PosSum(ws)
    requires IsFirstAbove(CdfOf(ws), val, i)
    ensures i < |ws| && ws[i] > 0
    ensures PosSum(ws[..i]) <= val < PosSum(ws[..i]) + ws[i]
  {
    if i == |ws| {
      assert |ws| > 0;
      CdfLastIsTotal(ws);
      assert false;
    }
    CdfStep(ws, i);
    if i > 0 {
      assert CdfOf(ws)[i - 1] <= val;
    }
  }

  /** Conversely, every draw in the slice of a positive weight selects that index, so
      exactly ws[i] of the PosSum(ws) possible draws select source i. */
  lemma DrawsSelectingIndex(ws: seq<int>, i: nat, val: int)
    requires i < |ws| && ws[i] > 0
    requires PosSum(ws[..i]) <= val < PosSum(ws[..i]) + ws[i]
    ensures 0 <= val < PosSum(ws)
    ensures IsFirstAbove(CdfOf(ws), val, i)
  {
    CdfStep(ws, i);
    CdfNonDecreasing(ws);
    PosSumPrefixMonotone(ws, i + 1, |ws|);
    assert ws[..|ws|] == ws;
    forall k | 0 <= k < i
      ensures CdfOf(ws)[k] <= val
    {
      PosSumPrefixMonotone(ws, k + 1, i);
    }
  }

  // ---------------------------------------------------------------------------
  // RoundRobinRequestSource

  /** The index used by the call that moved the counter to k: `(int(k)-1) % len`,
      with 64-bit wrap-around and Go's remainder. */
  function RoundRobinSlot(k: int, count: nat): (r: Result<nat, Panic>)
    requires IsInt64(k)
    ensures r == Err(DivideByZero) <==> count == 0
    ensures r.Ok? ==> r.value < count
    ensures 1 <= k && count > 0 ==> r == Ok((k - 1) % count)
  {
    if count == 0 then Err(DivideByZero)
    else
      var i := Rem(Wrap64(k - 1), count);
      if i < 0 then Err(IndexOutOfRange) else Ok(i)
  }

  /** The indices chosen by m successive calls starting from counter n. */
  function RoundRobinRun(n: int, m: nat, count: nat): (slots: seq<Result<nat, Panic>>)
    requires IsInt64(n)
    decreases m
  {
    if m == 0 then []
    else
      var k := Wrap64(n + 1);
      [RoundRobinSlot(k, count)] + RoundRobinRun(k, m - 1, count)
  }

  /** Sequential calls visit the sources cyclically: call j after counter n uses
      (n + j) mod count, so from a fresh source 0, 1, ..., count-1, 0, ... */
  lemma {:induction false} RoundRobinVisitsInOrder(n: int, m: nat, count: nat)
    requires 0 <= n && n + m <= MaxInt64 && count > 0
    ensures |RoundRobinRun(n, m, count)| == m
    ensures forall j :: 0 <= j < m ==> RoundRobinRun(n, m, count)[j] == Ok((n + j) % count)
    decreases m
  {
    if m > 0 {
      assert Wrap64(n + 1) == n + 1;
      RoundRobinVisitsInOrder(n + 1, m - 1, count);
      var rest := RoundRobinRun(n + 1, m - 1, count);
      assert RoundRobinRun(n, m, count) == [Ok(n % count)] + rest;
      forall j | 0 <= j < m
        ensures RoundRobinRun(n, m, count)[j] == Ok((n + j) % count)
      {
        if j > 0 {
          assert RoundRobinRun(n, m, count)[j] == rest[j - 1];
        }
      }
    }
  }

  /** Once the int64 counter has wrapped, `int(i)-1` is negative and Go's `%` keeps the
      sign, so indexing panics: the second call after the wrap with three sources. */
  lemma RoundRobinFailsAfterWrap()
    ensures RoundRobinSlot(MinInt64, 3) == Ok(1)
    ensures RoundRobinSlot(MinInt64 + 1, 3) == Err(IndexOutOfRange)
  {
  }

  class RoundRobinRequestSource<S> {
    var sources: seq<S>
    var n: int

    ghost predicate Valid()
      reads this
    {
      IsInt64(n)
    }

    constructor (sources: seq<S>)
      ensures Valid() && this.sources == sources && n == 0
    {
      this.sources := sources;
      n := 0;
    }

    /** Increments the counter and uses the source it designates. */
    method NewRequest() returns (r: Result<nat, Panic>)
      requires Valid()
      modifies this
      ensures Valid() && sources == old(sources)
      ensures n == Wrap64(old(n) + 1)
      ensures r == RoundRobinSlot(n, |sources|)
      ensures r.Ok? ==> r.value < |sources|
    {
      n := Wrap64(n + 1);
      r := RoundRobinSlot(n, |sources|);
    }
  }

  // ---------------------------------------------------------------------------
  // RandomRequestSource

  class RandomRequestSource<S> {
    var sources: seq<S>
    var cdfWeights: Option<seq<int>>  // None is Go's nil slice: weighting disabled
    var cdfTotal: int
    ghost var weights: seq<int>       // the weights the table was last built from

    ghost predicate Valid()
      reads this
    {
      cdfWeights.Some? ==> cdfWeights.value == CdfOf(weights) && cdfTotal == PosSum(weights)
    }

    constructor (sources: seq<S>)
      ensures Valid() && this.sources == sources
      ensures cdfWeights == None && cdfTotal == 0
    {
      this.sources := sources;
      cdfWeights := None;
      cdfTotal := 0;
      weights := [];
    }

    /** `SetWeights`: nil disables weighting (the stale total is kept but unused);
        any other list, even an empty one, replaces table and total by its cdf. The
        length of the list is not compared with the number of sources. */
    method SetWeights(ws: Option<seq<int>>)
      requires Valid()
      modifies this
      ensures Valid() && sources == old(sources)
      ensures ws.None? ==> cdfWeights == None && cdfTotal == old(cdfTotal)
      ensures ws.Some? ==> cdfWeights == Some(CdfOf(ws.value)) && cdfTotal == PosSum(ws.value)
      ensures ws.Some? ==> weights == ws.value
    {
      if ws.None? {
        cdfWeights := None;
      } else {
        var cdf, total := MakeCdf(ws.value);
        cdfWeights, cdfTotal := Some(cdf[..]), total;
        weights := ws.value;
      }
    }

    /** `NewRequest`: a weighted draw through the table when one is set, otherwise a
        uniform draw over the sources; `random` plays the part of `Random`. */
    method NewRequest(random: int -> int) returns (r: Result<nat, Panic>)
      requires Valid() && ValidRandom(random)
      ensures r.Ok? ==> r.value < |sources|
      ensures cdfWeights.None? ==> (r.Ok? <==> |sources| > 0) && (r.Err? ==> r.error == InvalidRange)
      ensures cdfWeights.None? && |sources| > 0 ==> r == Ok(random(|sources|))
      ensures cdfWeights.Some? && cdfTotal <= 0 ==> r == Err(InvalidRange)
      ensures cdfWeights.Some? && cdfTotal > 0 && r.Ok? ==>
        IsFirstAbove(cdfWeights.value, random(cdfTotal), r.value)
        && r.value < |weights| && weights[r.value] > 0
      ensures cdfWeights.Some? && cdfTotal > 0 && r.Err? ==>
        r.error == IndexOutOfRange && |sources| < |weights|
        && forall k :: 0 <= k < |sources| ==> cdfWeights.value[k] <= random(cdfTotal)
    {
      var index: nat;
      if cdfWeights.Some? {
        var draw := Intn(cdfTotal, random);
        if draw.Err? {
          return Err(draw.error);
        }
        CdfNonDecreasing(weights);
        index := SelectCdf(cdfWeights.value, draw.value);
        SelectionWithinWeight(weights, draw.value, index);
      } else {
        var draw := Intn(|sources|, random);
        if draw.Err? {
          return Err(draw.error);
        }
        index := draw.value;
      }
      if index < |sources| {
        r := Ok(index);
      } else {
        r := Err(IndexOutOfRange);
      }
    }
  }

  // ---------------------------------------------------------------------------
  // SelectableRequestSource

  class SelectableRequestSource<S> {
    var sources: seq<S>
    var n: int

    /** The index starts at 0 and is only ever set to an in-range value. */
    ghost predicate Valid()
      reads this
    {
      0 <= n && (n < |sources| || n == 0)
    }

    constructor (sources: seq<S>)
      ensures Valid() && this.sources == sources && n == 0
    {
      this.sources := sources;
      n := 0;
    }

    /** `Index`: the selected index, in range whenever there is a source at all. */
    function Index(): (i: int)
      reads this
      requires Valid()
      ensures 0 <= i && (i < |sources| || |sources| == 0)
    {
      n
    }

    /** `SetIndex`: panics outside [0, len(Sources)), otherwise selects the index. */
    method SetIndex(index: int) returns (r: Result<(), Panic>)
      requires Valid()
      modifies this
      ensures Valid() && sources == old(sources)
      ensures r.Ok? <==> 0 <= index < |sources|
      ensures r.Ok? ==> Index() == index
      ensures r.Err? ==> r.error == IndexOutOfRange && n == old(n)
    {
      if index < 0 || index >= |sources| {
        return Err(IndexOutOfRange);
      }
      n := index;
      r := Ok(());
    }

    /** `NewRequest`: delegates to the selected source; panics only with no sources. */
    method NewRequest() returns (r: Result<nat, Panic>)
      requires Valid()
      ensures r.Ok? <==> |sources| > 0
      ensures r.Ok? ==> r.value == Index() && r.value < |sources|
      ensures r.Err? ==> r.error == IndexOutOfRange
    {
      if n < |sources| {
        r := Ok(n);
      } else {
        r := Err(IndexOutOfRange);
      }
    }
  }
}
