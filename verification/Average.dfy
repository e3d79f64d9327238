/** The sliding average a task keeps of its speed and remaining time (burn-task-ctx.c): samples are squeezed into
    32-bit integers, small ones scaled up, large ones scaled down and stored negative. */
module Average {
  import opened Flags

  const MAX_VALUE_AVERAGE: nat := 16
  const SCALE: real := 10000.0
  const G_MAXINT: real := 2147483647.0

  function Ceil(r: real): (c: int)
    ensures c as real - 1.0 < r <= c as real
  {
    -((-r).Floor)
  }

  /** None if the sample is too large to be stored at all. */
  function Encode(value: real): Option<int> {
    if value * SCALE < G_MAXINT then Some(Ceil(SCALE * value))
    else if value / SCALE < G_MAXINT then Some(Ceil(-1.0 * value / SCALE))
    else None
  }

  function Decode(i: int): real {
    if i < 0 then i as real * SCALE * -1.0 else i as real / SCALE
  }

  predicate Small(value: real) {
    value * SCALE < G_MAXINT
  }

  /** A sample comes back from 32 bits a little larger if it was small, at most 10000 smaller if it was not. */
  lemma {:induction false} EncodingError(value: real)
    requires value >= 0.0 && Encode(value).Some?
    ensures -2147483648 <= Encode(value).value <= 2147483647
    ensures Small(value) ==> value <= Decode(Encode(value).value) < value + 1.0 / SCALE
    ensures !Small(value) ==> value - SCALE < Decode(Encode(value).value) <= value
  {
    var e := Encode(value).value;
    if Small(value) {
      assert SCALE * value >= 0.0;
      assert e >= 0;
      assert e as real / SCALE * SCALE == e as real;
    } else {
      var q := value / SCALE;
      assert q * SCALE == value;
      assert -1.0 * value / SCALE == -q;
      assert -G_MAXINT < -q && q > 20.0;
      assert e < 0 && -q <= e as real < -q + 1.0;
    }
  }

  /** Sum of the stored samples. */
  function Total(values: seq<int>): real {
    if values == [] then 0.0 else Total(values[..|values| - 1]) + Decode(values[|values| - 1])
  }

  function Sum(samples: seq<real>): real {
    if samples == [] then 0.0 else Sum(samples[..|samples| - 1]) + samples[|samples| - 1]
  }

  /** What the loop leaves of the list: only ever the seventeenth entry is dropped. */
  function Kept(values: seq<int>): seq<int> {
    if |values| <= MAX_VALUE_AVERAGE then values
    else values[..MAX_VALUE_AVERAGE] + values[MAX_VALUE_AVERAGE + 1..]
  }

  datatype Averaged = Averaged(values: seq<int>, average: real)

  function Remember(values: seq<int>, value: real): Averaged {
    match Encode(value)
    case None => Averaged(values, value)
    case Some(e) =>
      var kept := Kept([e] + values);
      Averaged(kept, Total(kept) / |kept| as real)
  }

  method DecodeSample(i: int) returns (r: real)
    ensures r == Decode(i)
  {
    r := i as real;
    if r < 0.0 {
      r := r * SCALE * -1.0;
    } else {
      r := r / SCALE;
    }
  }

  lemma {:induction false} DropSeventeenth(l: seq<int>)
    requires |l| > MAX_VALUE_AVERAGE
    ensures |Kept(l)| == |l| - 1 && Kept(l)[..MAX_VALUE_AVERAGE] == l[..MAX_VALUE_AVERAGE]
  {
  }

  lemma {:induction false} TotalNext(l: seq<int>, n: nat)
    requires n < |l|
    ensures Total(l[..n + 1]) == Total(l[..n]) + Decode(l[n])
  {
    assert l[..n + 1][..n] == l[..n];
  }

  /** rejilla_task_ctx_get_average. */
  method GetAverage(values: seq<int>, value: real) returns (values': seq<int>, average: real)
    ensures Averaged(values', average) == Remember(values, value)
    ensures |values| <= MAX_VALUE_AVERAGE ==> |values'| <= MAX_VALUE_AVERAGE
  {
    var encoded;
    if value * SCALE < G_MAXINT {
      encoded := Ceil(SCALE * value);
    } else if value / SCALE < G_MAXINT {
      encoded := Ceil(-1.0 * value / SCALE);
    } else {
      return values, value;
    }
    var l := [encoded] + values;
    ghost var all := l;
    average := 0.0;
    var num := 0;
    while num < |l|
      invariant num <= |l| && average == Total(l[..num])
      invariant l == if num < MAX_VALUE_AVERAGE then all else Kept(all)
      decreases |l| - num
    {
      var r := DecodeSample(l[num]);
      TotalNext(l, num);
      average := average + r;
      num := num + 1;
      if num == MAX_VALUE_AVERAGE && num < |l| {
        DropSeventeenth(l);
        l := l[..num] + l[num + 1..];
      }
    }
    assert l[..num] == l;
    return l, average / num as real;
  }

  // ----- a whole run of samples -----

  /** The list after these samples, starting from none. */
  function Listed(samples: seq<real>): seq<int> {
    if samples == [] then []
    else Remember(Listed(samples[..|samples| - 1]), samples[|samples| - 1]).values
  }

  /** The samples that could be stored, newest first. */
  function Storable(samples: seq<real>): (r: seq<real>)
    ensures forall k :: 0 <= k < |r| ==> Encode(r[k]).Some? && r[k] in samples
  {
    if samples == [] then []
    else
      var before, last := Storable(samples[..|samples| - 1]), samples[|samples| - 1];
      if Encode(last).Some? then [last] + before else before
  }

  function LatestOf(all: seq<real>): seq<real> {
    if |all| <= MAX_VALUE_AVERAGE then all else all[..MAX_VALUE_AVERAGE]
  }

  function Latest(samples: seq<real>): seq<real> {
    LatestOf(Storable(samples))
  }

  predicate ListsOf(values: seq<int>, samples: seq<real>) {
    |values| == |samples| && forall k :: 0 <= k < |samples| ==> Encode(samples[k]) == Some(values[k])
  }

  lemma {:induction false} OneMoreListed(values: seq<int>, samples: seq<real>, sample: real, e: int)
    requires ListsOf(values, samples) && |samples| <= MAX_VALUE_AVERAGE && Encode(sample) == Some(e)
    ensures ListsOf(Kept([e] + values), LatestOf([sample] + samples))
  {
  }

  /** The list holds the latest storable samples, sixteen at most, newest first. */
  lemma {:induction false} ListedAreLatest(samples: seq<real>)
    ensures ListsOf(Listed(samples), Latest(samples)) && |Latest(samples)| <= MAX_VALUE_AVERAGE
  {
    if samples != [] {
      var init, last := samples[..|samples| - 1], samples[|samples| - 1];
      ListedAreLatest(init);
      if Encode(last).Some? {
        OneMoreListed(Listed(init), Latest(init), last, Encode(last).value);
        assert Latest(samples) == LatestOf([last] + Latest(init));
      }
    }
  }

  lemma {:induction false} TotalNearSum(values: seq<int>, samples: seq<real>)
    requires |values| == |samples|
    requires forall k :: 0 <= k < |samples| ==> samples[k] >= 0.0 && Encode(samples[k]) == Some(values[k])
    ensures Sum(samples) - SCALE * |samples| as real <= Total(values) <= Sum(samples) + |samples| as real / SCALE
    ensures (forall k :: 0 <= k < |samples| ==> Small(samples[k])) ==> Sum(samples) <= Total(values)
  {
    if values != [] {
      var n := |values| - 1;
      TotalNearSum(values[..n], samples[..n]);
      EncodingError(samples[n]);
      assert Encode(samples[n]) == Some(values[n]);
      assert (n + 1) as real / SCALE == n as real / SCALE + 1.0 / SCALE;
    }
  }

  /** After any run of non-negative samples, a storable one yields the mean of the latest sixteen, up to the
      error of the encoding: 1/10000 too much, 10000 too little, and not too little at all if all are small. */
  lemma {:induction false} AverageIsMeanOfLatest(samples: seq<real>, value: real)
    requires forall v :: v in samples ==> v >= 0.0
    requires value >= 0.0 && Encode(value).Some?
    ensures var latest := Latest(samples + [value]);
            var mean := Sum(latest) / |latest| as real;
            var r := Remember(Listed(samples), value).average;
            && 0 < |latest| && latest[0] == value
            && mean - SCALE <= r <= mean + 1.0 / SCALE
            && ((forall k :: 0 <= k < |latest| ==> Small(latest[k])) ==> mean <= r)
  {
    var all := samples + [value];
    assert all[..|samples|] == samples;
    ListedAreLatest(all);
    var latest, values := Latest(all), Listed(all);
    TotalNearSum(values, latest);
    var n := |latest| as real;
    assert Remember(Listed(samples), value).average == Total(values) / n;
    Divided(Sum(latest), Total(values), n);
  }

  lemma {:induction false} Divided(sum: real, total: real, n: real)
    requires n >= 1.0 && sum - SCALE * n <= total <= sum + n / SCALE
    ensures sum / n - SCALE <= total / n <= sum / n + 1.0 / SCALE
    ensures sum <= total ==> sum / n <= total / n
  {
    var q, e := total / n - sum / n, 1.0 / SCALE;
    assert q * n == total - sum;
    assert q < -SCALE ==> q * n < -SCALE * n;
    assert n / SCALE == e * n;
    assert q > e ==> q * n > e * n;
    assert q < 0.0 ==> q * n < 0.0;
  }
}
