/** The rolling window of the biometrics hook: an arrival-ordered sequence
    that keeps the newest DataWindowSize points and drops the oldest. */
module Window {
  import opened Types

  function Min(a: int, b: int): int { if a <= b then a else b }

  /** The newest n elements of s, or all of s when it is shorter. */
  function LastN<T>(s: seq<T>, n: nat): (r: seq<T>)
    ensures |r| == Min(|s|, n)
  {
    if |s| <= n then s else s[|s| - n..]
  }

  lemma LastNAt<T>(s: seq<T>, n: nat, i: int)
    requires 0 <= i < Min(|s|, n)
    ensures LastN(s, n)[i] == s[|s| - Min(|s|, n) + i]
  {
  }

  /** Appends one point and trims the window back to its capacity. */
  function AddDataPoint<T>(prev: seq<T>, point: T): (r: seq<T>)
    ensures |r| == Min(|prev| + 1, DataWindowSize)
    ensures r[|r| - 1] == point
    ensures |prev| < DataWindowSize ==> r == prev + [point]
  {
    var next := prev + [point];
    if |next| > DataWindowSize then next[|next| - DataWindowSize..] else next
  }

  /** Appending points one at a time, in arrival order. */
  function AppendAll<T>(w: seq<T>, points: seq<T>): seq<T>
    decreases |points|
  {
    if points == [] then w else AppendAll(AddDataPoint(w, points[0]), points[1..])
  }

  /** At or over capacity an append drops only the oldest elements and keeps
      the order of the rest. */
  lemma AddDropsOldest<T>(prev: seq<T>, point: T)
    requires |prev| >= DataWindowSize
    ensures AddDataPoint(prev, point) == prev[|prev| + 1 - DataWindowSize..] + [point]
  {
  }

  /** One append keeps exactly the newest DataWindowSize elements of the old window plus the point. */
  lemma AddIsLastN<T>(prev: seq<T>, point: T)
    ensures AddDataPoint(prev, point) == LastN(prev + [point], DataWindowSize)
  {
  }

  /** Trimming before appending more does not change what the final trim keeps. */
  lemma LastNAppend<T>(s: seq<T>, t: seq<T>, n: nat)
    ensures LastN(LastN(s, n) + t, n) == LastN(s + t, n)
  {
    // The element-wise argument below is not strictly needed by the solver;
    // it keeps the proof cheap and stable across solver seeds.
    var ls := LastN(s, n);
    var u := ls + t;
    var a := LastN(u, n);
    var b := LastN(s + t, n);
    var m := |a|;
    assert |b| == m;
    forall i | 0 <= i < m
      ensures a[i] == b[i]
    {
      var j := |u| - m + i;
      var k := |s| + |t| - m + i;
      LastNAt(u, n, i);
      LastNAt(s + t, n, i);
      assert a[i] == u[j];
      assert b[i] == (s + t)[k];
      if j < |ls| {
        LastNAt(s, n, j);
        assert u[j] == ls[j] == s[|s| - |ls| + j];
        assert |s| - |ls| + j == k;
      } else {
        assert u[j] == t[j - |ls|];
        assert j - |ls| == k - |s|;
      }
    }
    assert a == b;
  }

  /** FIFO law: after any run of appends to a window within capacity, the window
      is exactly the newest DataWindowSize elements of everything appended. */
  lemma {:induction false} AppendAllKeepsNewest<T>(w: seq<T>, points: seq<T>)
    requires |w| <= DataWindowSize
    ensures AppendAll(w, points) == LastN(w + points, DataWindowSize)
    decreases |points|
  {
    if points == [] {
      assert w + points == w;
    } else {
      var p, rest := points[0], points[1..];
      var w' := AddDataPoint(w, p);
      assert w' == LastN(w + [p], DataWindowSize) by { AddIsLastN(w, p); }
      assert AppendAll(w', rest) == LastN(w' + rest, DataWindowSize) by {
        AppendAllKeepsNewest(w', rest);
      }
      assert LastN(w' + rest, DataWindowSize) == LastN(w + points, DataWindowSize) by {
        LastNAppend(w + [p], rest, DataWindowSize);
        assert (w + [p]) + rest == w + points;
      }
    }
  }

  /** Sixty-five appends to an empty window leave points 6..65: the newest
      point is present and the five oldest are gone. */
  lemma SixtyFiveAppends<T>(points: seq<T>)
    requires |points| == 65
    ensures AppendAll([], points) == points[5..]
    ensures |AppendAll([], points)| == DataWindowSize
  {
    AppendAllKeepsNewest([], points);
    assert [] + points == points;
  }
}
