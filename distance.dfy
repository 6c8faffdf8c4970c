/**
 * The length of a route as the reports screen computes it: the sum of
 * the great-circle distances between consecutive points.
 */
module Distance {
  import opened Domain
  import opened Seqs

  /**
   * The path length of `coordinates` when `segment(p, q)` is the length
   * of the leg from p to q (the app uses the haversine formula with
   * R = 6371e3 metres).
   */
  function PathLength(coordinates: seq<Coord>, segment: (Coord, Coord) -> real): (r: real)
    ensures |coordinates| < 2 ==> r == 0.0
    ensures |coordinates| == 2 ==> r == segment(coordinates[0], coordinates[1])
  {
    if |coordinates| < 2 then 0.0
    else
      var n := |coordinates|;
      PathLength(coordinates[..n - 1], segment) + segment(coordinates[n - 2], coordinates[n - 1])
  }

  /** `calculateDistance`: adds up the legs from the first point on. */
  method CalculateDistance(coordinates: seq<Coord>, segment: (Coord, Coord) -> real) returns (total: real)
    ensures total == PathLength(coordinates, segment)
    ensures |coordinates| < 2 ==> total == 0.0
  {
    total := 0.0;
    var i := 0;
    while i < |coordinates| - 1
      invariant 0 <= i <= if |coordinates| == 0 then 0 else |coordinates| - 1
      invariant |coordinates| == 0 ==> total == 0.0
      invariant |coordinates| > 0 ==> total == PathLength(coordinates[..i + 1], segment)
    {
      assert coordinates[..i + 2][..i + 1] == coordinates[..i + 1];
      total := total + segment(coordinates[i], coordinates[i + 1]);
      i := i + 1;
    }
    assert |coordinates| >= 1 ==> coordinates[..i + 1] == coordinates;
  }

  /** The path length is also the first leg plus the length of the rest. */
  lemma {:induction false} PathLengthFromFront(coordinates: seq<Coord>, segment: (Coord, Coord) -> real)
    requires |coordinates| >= 2
    ensures PathLength(coordinates, segment)
         == segment(coordinates[0], coordinates[1]) + PathLength(coordinates[1..], segment)
  {
    var n := |coordinates|;
    if n > 2 {
      PathLengthFromFront(coordinates[..n - 1], segment);
      assert coordinates[..n - 1][1..] == coordinates[1..][..n - 2];
    } else {
      assert coordinates[..n - 1] == [coordinates[0]];
    }
  }

  /** A symmetric leg length gives the same total in both directions. */
  lemma {:induction false} PathLengthReverse(coordinates: seq<Coord>, segment: (Coord, Coord) -> real)
    requires forall p, q :: segment(p, q) == segment(q, p)
    ensures PathLength(Reverse(coordinates), segment) == PathLength(coordinates, segment)
  {
    var c := coordinates;
    if |c| >= 2 {
      var r := Reverse(c);
      var n := |r|;
      assert r == Reverse(c[1..]) + [c[0]];
      assert r[..n - 1] == Reverse(c[1..]);
      PathLengthReverse(c[1..], segment);
      PathLengthFromFront(c, segment);
      assert r[n - 2] == c[1] && r[n - 1] == c[0];
    }
  }

  /** With legs of non-negative length the total is non-negative. */
  lemma {:induction false} PathLengthNonNegative(coordinates: seq<Coord>, segment: (Coord, Coord) -> real)
    requires forall p, q :: segment(p, q) >= 0.0
    ensures PathLength(coordinates, segment) >= 0.0
  {
    if |coordinates| >= 2 {
      PathLengthNonNegative(coordinates[..|coordinates| - 1], segment);
    }
  }
}
