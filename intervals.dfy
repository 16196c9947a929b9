/** cinco_aviones_1hora of ejercicio2y3.py: one Bernoulli draw per minute
    decides whether an aircraft appears, the day is cut into 60-minute
    windows, and the estimate is the share of windows holding exactly five
    arrivals. The draws of `random.random()` are the sequence `draws`, one
    per minute, so `total_minutes` is `|draws|`. */
module Intervals {
  import opened Options

  const IntervalMinutes: nat := 60
  const TargetCount: nat := 5

  predicate Increasing(s: seq<int>)
  {
    forall i, j :: 0 <= i < j < |s| ==> s[i] < s[j]
  }

  /** The minutes t < n whose draw falls below `lambda`, in the order the
      loop appends them. */
  function ArrivalTicks(draws: seq<real>, lambda: real, n: nat): seq<int>
    requires n <= |draws|
  {
    if n == 0 then []
    else ArrivalTicks(draws, lambda, n - 1) + (if draws[n - 1] < lambda then [n - 1] else [])
  }

  /** The arrival list holds exactly the successful minutes of [0, n), each
      once and in strictly increasing order. */
  lemma {:induction false} ArrivalTicksExact(draws: seq<real>, lambda: real, n: nat)
    requires n <= |draws|
    ensures Increasing(ArrivalTicks(draws, lambda, n))
    ensures forall t :: t in ArrivalTicks(draws, lambda, n) <==> 0 <= t < n && draws[t] < lambda
  {
    if n > 0 {
      ArrivalTicksExact(draws, lambda, n - 1);
      var p := ArrivalTicks(draws, lambda, n - 1);
      assert forall k :: 0 <= k < |p| ==> p[k] in p;
    }
  }

  /** The first loop of cinco_aviones_1hora. */
  method DrawArrivals(draws: seq<real>, lambda: real) returns (planes: seq<int>)
    ensures planes == ArrivalTicks(draws, lambda, |draws|)
    ensures Increasing(planes)
    ensures forall t :: t in planes <==> 0 <= t < |draws| && draws[t] < lambda
  {
    planes := [];
    var t := 0;
    while t < |draws|
      invariant t <= |draws| && planes == ArrivalTicks(draws, lambda, t)
    {
      if draws[t] < lambda {
        planes := planes + [t];
      }
      t := t + 1;
    }
    ArrivalTicksExact(draws, lambda, |draws|);
  }

  /** `[p for p in planes if start <= p < end]`. */
  function InWindow(planes: seq<int>, start: int, end: int): (r: seq<int>)
    ensures |r| <= |planes|
    ensures forall p :: p in r <==> p in planes && start <= p < end
  {
    if planes == [] then []
    else (if start <= planes[0] < end then [planes[0]] else []) + InWindow(planes[1..], start, end)
  }

  /** Cutting [a, c) at b splits the arrivals between the two halves. */
  lemma {:induction false} WindowSplit(planes: seq<int>, a: int, b: int, c: int)
    requires a <= b <= c
    ensures |InWindow(planes, a, c)| == |InWindow(planes, a, b)| + |InWindow(planes, b, c)|
  {
    if planes != [] {
      WindowSplit(planes[1..], a, b, c);
    }
  }

  /** A window none of the arrivals falls in is empty. */
  lemma {:induction false} OutsideWindow(planes: seq<int>, start: int, end: int)
    requires forall k :: 0 <= k < |planes| ==> !(start <= planes[k] < end)
    ensures InWindow(planes, start, end) == []
  {
    if planes != [] {
      OutsideWindow(planes[1..], start, end);
    }
  }

  /** Strictly increasing minutes put at most one arrival in each minute. */
  lemma {:induction false} OnePerMinute(planes: seq<int>, m: int)
    requires Increasing(planes)
    ensures |InWindow(planes, m, m + 1)| <= 1
  {
    if planes != [] {
      var rest := planes[1..];
      assert Increasing(rest);
      if planes[0] == m {
        OutsideWindow(rest, m, m + 1);
      } else {
        OnePerMinute(rest, m);
      }
    }
  }

  /** A window of w minutes holds at most w of the arrivals. */
  lemma {:induction false} WindowBound(planes: seq<int>, start: int, w: nat)
    requires Increasing(planes)
    ensures |InWindow(planes, start, start + w)| <= w
  {
    if w == 0 {
      OutsideWindow(planes, start, start);
    } else {
      WindowBound(planes, start, w - 1);
      WindowSplit(planes, start, start + w - 1, start + w);
      OnePerMinute(planes, start + w - 1);
    }
  }

  /** The arrivals of window i: the half-open minutes [60i, 60i + 60). */
  function Window(planes: seq<int>, i: int): seq<int>
  {
    InWindow(planes, i * IntervalMinutes, i * IntervalMinutes + IntervalMinutes)
  }

  predicate HasTarget(planes: seq<int>, i: int)
  {
    |Window(planes, i)| == TargetCount
  }

  /** The number of windows i < n with exactly five arrivals. */
  function FiveWindows(planes: seq<int>, n: nat): (r: nat)
    ensures r <= n
  {
    if n == 0 then 0
    else FiveWindows(planes, n - 1) + (if HasTarget(planes, n - 1) then 1 else 0)
  }

  /** The count is the size of the set of windows with exactly five
      arrivals. */
  lemma {:induction false} FiveWindowsSet(planes: seq<int>, n: nat)
    ensures FiveWindows(planes, n) == |set i | 0 <= i < n && HasTarget(planes, i)|
  {
    var S := set i | 0 <= i < n && HasTarget(planes, i);
    if n > 0 {
      FiveWindowsSet(planes, n - 1);
      var P := set i | 0 <= i < n - 1 && HasTarget(planes, i);
      if HasTarget(planes, n - 1) {
        assert S == P + {n - 1};
      } else {
        assert S == P;
      }
    } else {
      assert S == {};
    }
  }

  /** The total arrivals over the first n windows. */
  function Binned(planes: seq<int>, n: nat): nat
  {
    if n == 0 then 0 else Binned(planes, n - 1) + |Window(planes, n - 1)|
  }

  /** The windows partition [0, 60n): every arrival before minute 60n is in
      exactly one of them. */
  lemma {:induction false} WindowsPartition(planes: seq<int>, n: nat)
    ensures Binned(planes, n) == |InWindow(planes, 0, n * IntervalMinutes)|
  {
    if n > 0 {
      WindowsPartition(planes, n - 1);
      assert (n - 1) * IntervalMinutes + IntervalMinutes == n * IntervalMinutes;
      WindowSplit(planes, 0, (n - 1) * IntervalMinutes, n * IntervalMinutes);
    } else {
      OutsideWindow(planes, 0, 0);
    }
  }

  /** Each counted window holds five of the arrivals and the windows do not
      overlap, so five times count_target never exceeds the arrivals in the
      first n hours, which in turn never exceed the 60n minutes. */
  lemma {:induction false} TargetArrivals(planes: seq<int>, n: nat)
    requires Increasing(planes)
    ensures TargetCount * FiveWindows(planes, n) <= Binned(planes, n)
    ensures Binned(planes, n) == |InWindow(planes, 0, n * IntervalMinutes)| <= n * IntervalMinutes
  {
    TargetBinned(planes, n);
    WindowsPartition(planes, n);
    WindowBound(planes, 0, n * IntervalMinutes);
  }

  lemma {:induction false} TargetBinned(planes: seq<int>, n: nat)
    ensures TargetCount * FiveWindows(planes, n) <= Binned(planes, n)
  {
    if n > 0 {
      TargetBinned(planes, n - 1);
    }
  }

  /** The second loop of cinco_aviones_1hora: `total_minutes // 60`
      windows, each counted when it holds exactly five arrivals. */
  method CountTarget(planes: seq<int>, totalMinutes: nat) returns (totalIntervals: nat, count: nat)
    ensures totalIntervals == totalMinutes / IntervalMinutes
    ensures count == FiveWindows(planes, totalIntervals) && count <= totalIntervals
  {
    totalIntervals := totalMinutes / IntervalMinutes;
    count := 0;
    var i := 0;
    while i < totalIntervals
      invariant i <= totalIntervals && count == FiveWindows(planes, i)
    {
      var start := i * IntervalMinutes;
      var end := start + IntervalMinutes;
      var inInterval := InWindow(planes, start, end);
      if |inInterval| == TargetCount {
        count := count + 1;
      }
      i := i + 1;
    }
  }

  /** cinco_aviones_1hora: the share of whole hours with exactly five
      arrivals. With fewer than 60 minutes there is no window and the
      division raises, which is None here. */
  method CincoAviones(lambda: real, draws: seq<real>) returns (probability: Option<real>)
    ensures probability.None? <==> |draws| < IntervalMinutes
    ensures probability.Some? ==>
      var n := |draws| / IntervalMinutes;
      && probability.value == FiveWindows(ArrivalTicks(draws, lambda, |draws|), n) as real / n as real
      && 0.0 <= probability.value <= 1.0
  {
    var planes := DrawArrivals(draws, lambda);
    var totalIntervals, count := CountTarget(planes, |draws|);
    if totalIntervals == 0 {
      probability := None;
    } else {
      ShareBounds(count, totalIntervals);
      probability := Some(count as real / totalIntervals as real);
    }
  }

  lemma {:induction false} ShareBounds(k: nat, n: nat)
    requires 0 < n && k <= n
    ensures 0.0 <= k as real / n as real <= 1.0
  {
    assert k as real <= n as real;
  }
}
