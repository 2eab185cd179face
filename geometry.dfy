/**
 * `getCentroid` (utils/fetchWeatherData.ts): the vertex mean of a polygon. It is defined beside
 * the weather fetch, and no component covered here calls it. Coordinates are exact reals here.
 */
module Geometry {
  import opened Types

  datatype Axis = Latitude | Longitude

  function Coord(p: LatLng, axis: Axis): real
  {
    if axis == Latitude then p.lat else p.lng
  }

  /** The sum of one coordinate over the vertices, added up front to back as the loop does. */
  function Sum(s: seq<LatLng>, axis: Axis): real
    decreases |s|
  {
    if s == [] then 0.0 else Sum(s[..|s| - 1], axis) + Coord(s[|s| - 1], axis)
  }

  /** The mean vertex: the sum of each coordinate divided by the number of vertices. */
  function Centroid(s: seq<LatLng>): LatLng
    requires |s| > 0
  {
    LatLng(Sum(s, Latitude) / |s| as real, Sum(s, Longitude) / |s| as real)
  }

  /** `getCentroid`: two running sums over the vertices, then one division each. */
  method GetCentroid(coords: seq<LatLng>) returns (c: LatLng)
    requires |coords| > 0
    ensures c == Centroid(coords)
    ensures c.lat * |coords| as real == Sum(coords, Latitude)
    ensures c.lng * |coords| as real == Sum(coords, Longitude)
  {
    var latSum, lngSum := 0.0, 0.0;
    var i := 0;
    while i < |coords|
      invariant 0 <= i <= |coords|
      invariant latSum == Sum(coords[..i], Latitude)
      invariant lngSum == Sum(coords[..i], Longitude)
    {
      assert coords[..i + 1][..i] == coords[..i];
      latSum := latSum + coords[i].lat;
      lngSum := lngSum + coords[i].lng;
      i := i + 1;
    }
    assert coords[..i] == coords;
    c := LatLng(latSum / |coords| as real, lngSum / |coords| as real);
  }

  /** A one-vertex polygon's centroid is that vertex. */
  lemma CentroidOfOnePoint(p: LatLng)
    ensures Centroid([p]) == p
  {
    assert [p][..0] == [];
    assert Sum([p], Latitude) == p.lat;
    assert Sum([p], Longitude) == p.lng;
  }

  /** Sums split over concatenation. */
  lemma {:induction false} SumAppend(u: seq<LatLng>, v: seq<LatLng>, axis: Axis)
    ensures Sum(u + v, axis) == Sum(u, axis) + Sum(v, axis)
    decreases |v|
  {
    if v == [] {
      assert u + v == u;
    } else {
      var w := v[..|v| - 1];
      SumAppend(u, w, axis);
      assert (u + v)[..|u + v| - 1] == u + w;
    }
  }

  /** Taking the element at `k` out of a sequence takes its coordinate out of the sum. */
  lemma SumRemove(b: seq<LatLng>, k: nat, axis: Axis)
    requires k < |b|
    ensures Sum(b, axis) == Sum(b[..k] + b[k + 1..], axis) + Coord(b[k], axis)
  {
    assert b == (b[..k] + [b[k]]) + b[k + 1..];
    SumAppend(b[..k] + [b[k]], b[k + 1..], axis);
    SumAppend(b[..k], [b[k]], axis);
    SumAppend(b[..k], b[k + 1..], axis);
    assert [b[k]][..0] == [];
  }

  /** Equal multisets stay equal when one occurrence of the same element leaves both. */
  lemma MultisetRemove(a: seq<LatLng>, b: seq<LatLng>, k: nat)
    requires multiset(a) == multiset(b) && |a| > 0 && k < |b| && b[k] == a[|a| - 1]
    ensures multiset(a[..|a| - 1]) == multiset(b[..k] + b[k + 1..])
  {
    var x := a[|a| - 1];
    assert a == a[..|a| - 1] + [x];
    assert b == b[..k] + [x] + b[k + 1..];
    assert multiset(a[..|a| - 1]) == multiset(a) - multiset{x};
    assert multiset(b[..k] + b[k + 1..]) == multiset(b) - multiset{x};
  }

  /** Reordering the vertices does not change either sum. */
  lemma {:induction false} SumPermutation(a: seq<LatLng>, b: seq<LatLng>, axis: Axis)
    requires multiset(a) == multiset(b)
    ensures Sum(a, axis) == Sum(b, axis)
    decreases |a|
  {
    if a != [] {
      var x := a[|a| - 1];
      assert x in multiset(b) by { assert x in multiset(a); }
      var k :| 0 <= k < |b| && b[k] == x;
      MultisetRemove(a, b, k);
      SumPermutation(a[..|a| - 1], b[..k] + b[k + 1..], axis);
      SumRemove(b, k, axis);
    }
  }

  /** The centroid does not depend on the order of the vertices. */
  lemma CentroidPermutation(a: seq<LatLng>, b: seq<LatLng>)
    requires |a| > 0 && multiset(a) == multiset(b)
    ensures |b| == |a| && Centroid(a) == Centroid(b)
  {
    assert |multiset(a)| == |a| && |multiset(b)| == |b|;
    SumPermutation(a, b, Latitude);
    SumPermutation(a, b, Longitude);
  }

  /** Bounds on every vertex bound the sum. */
  lemma {:induction false} SumBounds(s: seq<LatLng>, axis: Axis, lo: real, hi: real)
    requires forall k :: 0 <= k < |s| ==> lo <= Coord(s[k], axis) <= hi
    ensures lo * |s| as real <= Sum(s, axis) <= hi * |s| as real
    decreases |s|
  {
    if s != [] {
      SumBounds(s[..|s| - 1], axis, lo, hi);
    }
  }

  /** When every vertex lies within [lo, hi] along an axis, so does the centroid. */
  lemma CentroidWithin(s: seq<LatLng>, axis: Axis, lo: real, hi: real)
    requires |s| > 0
    requires forall k :: 0 <= k < |s| ==> lo <= Coord(s[k], axis) <= hi
    ensures lo <= Coord(Centroid(s), axis) <= hi
  {
    SumBounds(s, axis, lo, hi);
    var n := |s| as real;
    var m := Sum(s, axis) / n;
    assert Coord(Centroid(s), axis) == m;
    assert Sum(s, axis) == m * n;
  }

  /** The position of a vertex with the least coordinate along an axis. */
  function ArgMin(s: seq<LatLng>, axis: Axis): (i: nat)
    requires |s| > 0
    ensures i < |s| && forall k :: 0 <= k < |s| ==> Coord(s[i], axis) <= Coord(s[k], axis)
    decreases |s|
  {
    if |s| == 1 then 0
    else
      var j := ArgMin(s[..|s| - 1], axis);
      assert forall k :: 0 <= k < |s| - 1 ==> s[k] == s[..|s| - 1][k];
      if Coord(s[|s| - 1], axis) < Coord(s[j], axis) then |s| - 1 else j
  }

  /** The position of a vertex with the greatest coordinate along an axis. */
  function ArgMax(s: seq<LatLng>, axis: Axis): (i: nat)
    requires |s| > 0
    ensures i < |s| && forall k :: 0 <= k < |s| ==> Coord(s[k], axis) <= Coord(s[i], axis)
    decreases |s|
  {
    if |s| == 1 then 0
    else
      var j := ArgMax(s[..|s| - 1], axis);
      assert forall k :: 0 <= k < |s| - 1 ==> s[k] == s[..|s| - 1][k];
      if Coord(s[j], axis) < Coord(s[|s| - 1], axis) then |s| - 1 else j
  }

  /** The centroid lies between the least and the greatest vertex coordinate, on each axis. */
  lemma CentroidBetweenExtremes(s: seq<LatLng>, axis: Axis)
    requires |s| > 0
    ensures Coord(s[ArgMin(s, axis)], axis) <= Coord(Centroid(s), axis) <= Coord(s[ArgMax(s, axis)], axis)
  {
    CentroidWithin(s, axis, Coord(s[ArgMin(s, axis)], axis), Coord(s[ArgMax(s, axis)], axis));
  }

  /** Every vertex moved by (dLat, dLng). */
  function Translated(s: seq<LatLng>, dLat: real, dLng: real): (t: seq<LatLng>)
    ensures |t| == |s|
  {
    seq(|s|, k requires 0 <= k < |s| => LatLng(s[k].lat + dLat, s[k].lng + dLng))
  }

  lemma {:induction false} SumTranslated(s: seq<LatLng>, dLat: real, dLng: real)
    ensures Sum(Translated(s, dLat, dLng), Latitude) == Sum(s, Latitude) + |s| as real * dLat
    ensures Sum(Translated(s, dLat, dLng), Longitude) == Sum(s, Longitude) + |s| as real * dLng
    decreases |s|
  {
    if s != [] {
      var t := Translated(s, dLat, dLng);
      assert t[..|t| - 1] == Translated(s[..|s| - 1], dLat, dLng);
      SumTranslated(s[..|s| - 1], dLat, dLng);
    }
  }

  /** Moving every vertex by an offset moves the centroid by the same offset. */
  lemma CentroidTranslated(s: seq<LatLng>, dLat: real, dLng: real)
    requires |s| > 0
    ensures Centroid(Translated(s, dLat, dLng)) ==
            LatLng(Centroid(s).lat + dLat, Centroid(s).lng + dLng)
  {
    SumTranslated(s, dLat, dLng);
    var n := |s| as real;
    ShiftedMean(Sum(s, Latitude), n, dLat);
    ShiftedMean(Sum(s, Longitude), n, dLng);
  }

  lemma ShiftedMean(total: real, n: real, d: real)
    requires n > 0.0
    ensures (total + n * d) / n == total / n + d
  {
    assert (total / n + d) * n == total + n * d;
  }
}
