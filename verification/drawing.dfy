/**
 * What the visible canvas shows after `draw()`: the canvas is cleared and,
 * when point data exists, one circle of the current radius and colour is
 * filled around each complete (x, y) pair of the flat point buffer.
 */
module Drawing {
  import opened Wrappers

  datatype Point = Point(x: real, y: real)

  /** The contents of the canvas after one `draw()` call. */
  datatype Frame =
    | Blank
    | Dots(centres: seq<Point>, radius: nat, color: string)

  /**
   * Reference definition: the circle centres of a flat buffer, one per
   * complete pair, a trailing odd value ignored.
   */
  function Pairs(d: seq<real>): (cs: seq<Point>)
    ensures |cs| == |d| / 2
    ensures forall k :: 0 <= k < |cs| ==> cs[k] == Point(d[2 * k], d[2 * k + 1])
  {
    if |d| < 2 then []
    else
      var rest := Pairs(d[2..]);
      assert forall k :: 1 <= k < |rest| + 1 ==> d[2..][2 * (k - 1)] == d[2 * k];
      [Point(d[0], d[1])] + rest
  }

  /** Two centre lists that agree pointwise with a buffer are the same list. */
  lemma PairsUnique(d: seq<real>, cs: seq<Point>)
    requires |cs| == |d| / 2
    requires forall k :: 0 <= k < |cs| ==> cs[k] == Point(d[2 * k], d[2 * k + 1])
    ensures cs == Pairs(d)
  {
  }

  /**
   * The drawing loop as written: `i` runs over 0, 2, 4, ... while
   * `i < length - 1`, and each step adds the centre `(d[i], d[i + 1])`.
   */
  method Centres(d: seq<real>) returns (cs: seq<Point>)
    ensures cs == Pairs(d)
  {
    cs := [];
    var i := 0;
    while i < |d| - 1
      invariant 0 <= i <= |d|
      invariant i % 2 == 0
      invariant |cs| == i / 2
      invariant forall k :: 0 <= k < |cs| ==> cs[k] == Point(d[2 * k], d[2 * k + 1])
    {
      cs := cs + [Point(d[i], d[i + 1])];
      i := i + 2;
    }
    PairsUnique(d, cs);
  }

  /** `draw()`: a cleared canvas when there is no point data, the circles otherwise. */
  function Draw(data: Option<seq<real>>, radius: nat, color: string): (f: Frame)
    ensures data.None? <==> f == Blank
    ensures data.Some? ==>
      && f.radius == radius && f.color == color
      && |f.centres| == |data.value| / 2
      && forall k :: 0 <= k < |f.centres| ==>
           f.centres[k] == Point(data.value[2 * k], data.value[2 * k + 1])
  {
    match data
    case None => Blank
    case Some(d) => Dots(Pairs(d), radius, color)
  }
}
