/** The swipe-path buffer: the points of one continuous thumb path, in the
    order they were added. */
module Swipe {

  datatype Point = Point(x: real, y: real)

  class SwipePath {
    var points: seq<Point>

    constructor ()
      ensures points == []
    {
      points := [];
    }

    method Clear()
      modifies this
      ensures points == []
    {
      points := [];
    }

    method AddPoint(p: Point)
      modifies this
      ensures points == old(points) + [p]
      ensures |points| == |old(points)| + 1 && points[|points| - 1] == p
      ensures points[..|old(points)|] == old(points)
      ensures !Empty()
    {
      points := points + [p];
    }

    /** empty(): true exactly when no point is stored. */
    function Empty(): (r: bool)
      reads this
      ensures r <==> |points| == 0
    {
      |points| == 0
    }
  }

  /** Filling a path: after clearing and adding ps in order, the buffer holds
      exactly ps and is non-empty whenever ps is. */
  method Collect(ps: seq<Point>) returns (path: SwipePath)
    ensures fresh(path)
    ensures path.points == ps
    ensures path.Empty() <==> ps == []
  {
    path := new SwipePath();
    path.Clear();
    var i := 0;
    while i < |ps|
      invariant 0 <= i <= |ps|
      invariant path.points == ps[..i]
    {
      path.AddPoint(ps[i]);
      assert ps[..i + 1] == ps[..i] + [ps[i]];
      i := i + 1;
    }
    assert ps[..|ps|] == ps;
  }
}
