/**
  Two-dimensional points over `real`, and the arithmetic the clustering
  engine performs on them: squared Euclidean distance, coordinate sums and
  the mean of a non-empty sequence of points.
 */
module Points {

  /** A point of the plane; `x` and `y` stand for the source's `f32` fields. */
  datatype Point = Point(x: real, y: real)

  /** The position every centroid records as its `previous` before any update. */
  const Origin: Point := Point(0.0, 0.0)

  function Abs(r: real): (a: real)
    ensures a >= 0.0
    ensures a == r || a == -r
  {
    if r < 0.0 then -r else r
  }

  function Square(r: real): real
  {
    r * r
  }

  /** Squared Euclidean distance. Square root is monotone, so every comparison
      of distances gives the same answer on squared distances. */
  function SqDist(a: Point, b: Point): real
  {
    Square(a.x - b.x) + Square(a.y - b.y)
  }

  /** Sum of the x coordinates, in sequence order. */
  function SumX(ps: seq<Point>): real
  {
    if ps == [] then 0.0 else ps[0].x + SumX(ps[1..])
  }

  /** Sum of the y coordinates, in sequence order. */
  function SumY(ps: seq<Point>): real
  {
    if ps == [] then 0.0 else ps[0].y + SumY(ps[1..])
  }

  /** The centre of mass of a non-empty sequence of points. */
  function Mean(ps: seq<Point>): Point
    requires |ps| > 0
  {
    Point(SumX(ps) / |ps| as real, SumY(ps) / |ps| as real)
  }

  /** The mean of a single point is that point. */
  lemma MeanSingleton(p: Point)
    ensures Mean([p]) == p
  {
    assert [p][1..] == [];
    assert SumX([p]) == p.x && SumY([p]) == p.y;
    assert |[p]| as real == 1.0;
  }
}
