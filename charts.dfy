/** The history kept by a resource chart: a sliding window of the latest
    values and the (index, value) series drawn from it. */
module Charts {

  /** A point of the line series. */
  datatype Point = Point(x: int, y: real)

  /** `deque(maxlen=maxPoints).append(v)`: the value goes at the end and, once
      the window is full, the oldest value drops out at the front. */
  function Window(data: seq<real>, v: real, maxPoints: nat): (r: seq<real>)
    ensures |r| == if |data| + 1 <= maxPoints then |data| + 1 else maxPoints
    ensures maxPoints > 0 ==> r[|r| - 1] == v
    ensures |data| < maxPoints ==> r == data + [v]
    ensures 0 < |data| == maxPoints ==> r == data[1..] + [v]
  {
    var all := data + [v];
    if |all| <= maxPoints then all else all[|all| - maxPoints..]
  }

  /** The series rebuilt from the window: point k is (k, k-th value). */
  function Enumerate(data: seq<real>): (r: seq<Point>)
    ensures |r| == |data|
    ensures forall k :: 0 <= k < |data| ==> r[k] == Point(k, data[k])
  {
    if data == [] then []
    else Enumerate(data[..|data| - 1]) + [Point(|data| - 1, data[|data| - 1])]
  }

  class ResourceChart {
    const maxPoints: nat
    var data: seq<real>
    var series: seq<Point>

    ghost predicate Valid()
      reads this
    {
      |data| <= maxPoints && series == Enumerate(data)
    }

    /** A chart with an empty history of capacity `maxPoints` (60 in every
        chart the application creates). */
    constructor (maxPoints: nat)
      ensures Valid() && this.maxPoints == maxPoints && data == []
    {
      this.maxPoints := maxPoints;
      data := [];
      series := [];
    }

    /** `add_data_point`: slide the window, then clear the series and append
        one point per value, in order. */
    method AddDataPoint(value: real)
      requires Valid()
      modifies this
      ensures Valid()
      ensures data == Window(old(data), value, maxPoints)
    {
      data := Window(data, value, maxPoints);
      series := [];
      var i := 0;
      while i < |data|
        invariant data == Window(old(data), value, maxPoints)
        invariant 0 <= i <= |data|
        invariant series == Enumerate(data[..i])
      {
        assert data[..i + 1][..i] == data[..i];
        series := series + [Point(i, data[i])];
        i := i + 1;
      }
      assert data[..|data|] == data;
    }
  }
}
