/**
 * The configuration store of the stippled-image element: the seven attribute
 * fields, the setters that compare before writing and classify each change,
 * and the getters that derive the effective width, height and point count.
 */
module Config {
  import opened Wrappers
  import opened JsNumber

  /** The point count is clamped to this value both when stored and when read. */
  const MaxPoints: nat := 20000

  /** A decoded image: the URL the image element reports and its natural size. */
  datatype Image = Image(src: string, width: nat, height: nat)

  /**
   * The stored configuration. `width` and `height` start undefined; `points`
   * equal to 0 means "no explicit count".
   */
  datatype Config = Config(
    width: Option<nat>,
    height: Option<nat>,
    src: string,
    points: nat,
    color: string,
    radius: nat,
    sampling: nat)

  const Default: Config := Config(None, None, "", 0, "#000000", 3, 50)

  /** One property assignment, as performed by one of the seven setters. */
  datatype Field =
    | Width(w: nat)
    | Height(h: nat)
    | Points(n: nat)
    | Src(url: string)
    | Color(c: string)
    | Radius(r: nat)
    | Sampling(s: nat)

  /** What a setter call leads to. */
  datatype Effect = Unchanged | Recompute | Redraw

  /** Colour and radius only affect how the existing points are painted. */
  predicate IsStyle(f: Field) {
    f.Color? || f.Radius?
  }

  /** `c` already holds the value the setter for `f` would store (the `!==` test fails). */
  predicate Holds(c: Config, f: Field) {
    match f
    case Width(w) => c.width == Some(w)
    case Height(h) => c.height == Some(h)
    case Points(n) => c.points == MinNat(MaxPoints, n)
    case Src(url) => c.src == url
    case Color(col) => c.color == col
    case Radius(r) => c.radius == r
    case Sampling(s) => c.sampling == s
  }

  /** `c` and `d` agree on every field other than the one `f` assigns. */
  predicate Agree(c: Config, d: Config, f: Field) {
    && (!f.Width? ==> c.width == d.width)
    && (!f.Height? ==> c.height == d.height)
    && (!f.Points? ==> c.points == d.points)
    && (!f.Src? ==> c.src == d.src)
    && (!f.Color? ==> c.color == d.color)
    && (!f.Radius? ==> c.radius == d.radius)
    && (!f.Sampling? ==> c.sampling == d.sampling)
  }

  function Assign(c: Config, f: Field): Config {
    match f
    case Width(w) => c.(width := Some(w))
    case Height(h) => c.(height := Some(h))
    case Points(n) => c.(points := MinNat(MaxPoints, n))
    case Src(url) => c.(src := url)
    case Color(col) => c.(color := col)
    case Radius(r) => c.(radius := r)
    case Sampling(s) => c.(sampling := s)
  }

  /**
   * A setter: compare, and only on a difference store the value and report
   * whether a full refresh or only a redraw is due.
   */
  function Apply(c: Config, f: Field): (r: (Config, Effect))
    ensures Holds(r.0, f)
    ensures Agree(c, r.0, f)
    ensures r.1 == Unchanged <==> r.0 == c
    ensures r.1 == Redraw <==> IsStyle(f) && r.0 != c
    ensures r.1 == Recompute <==> !IsStyle(f) && r.0 != c
    ensures r.0.points <= MaxPoints || r.0.points == c.points
  {
    if Holds(c, f) then (c, Unchanged)
    else (Assign(c, f), if IsStyle(f) then Redraw else Recompute)
  }

  /**
   * The `width` getter: a truthy explicit width, else the loaded image's
   * width, else 0.
   */
  function EffectiveWidth(c: Config, image: Option<Image>): (w: nat)
    ensures c.width.Some? && c.width.value > 0 ==> w == c.width.value
    ensures w > 0 ==> c.width == Some(w) || (image.Some? && image.value.width == w)
    ensures w == 0 <==> (c.width.None? || c.width.value == 0) && (image.None? || image.value.width == 0)
  {
    if c.width.Some? && c.width.value > 0 then c.width.value
    else if image.Some? then image.value.width
    else 0
  }

  /** The `height` getter, by the same rule as the width. */
  function EffectiveHeight(c: Config, image: Option<Image>): (h: nat)
    ensures c.height.Some? && c.height.value > 0 ==> h == c.height.value
    ensures h > 0 ==> c.height == Some(h) || (image.Some? && image.value.height == h)
    ensures h == 0 <==> (c.height.None? || c.height.value == 0) && (image.None? || image.value.height == 0)
  {
    if c.height.Some? && c.height.value > 0 then c.height.value
    else if image.Some? then image.value.height
    else 0
  }

  /**
   * The `points` getter: the explicit count when it is nonzero, otherwise
   * width * height / sampling, clamped to MaxPoints.
   */
  function EffectivePoints(c: Config, image: Option<Image>): (n: Num)
    ensures n != PosInfinity
    ensures n.Finite? ==> 0.0 <= n.value <= MaxPoints as real
    ensures c.points > 0 ==> n == Finite(MinNat(MaxPoints, c.points) as real)
    ensures c.points == 0 && c.sampling > 0 ==>
      var area := (EffectiveWidth(c, image) * EffectiveHeight(c, image)) as real;
      n.Finite? && (n.value == MaxPoints as real || n.value * c.sampling as real == area)
        && n.value * c.sampling as real <= area
    ensures n == NaN <==>
      c.points == 0 && c.sampling == 0 && EffectiveWidth(c, image) * EffectiveHeight(c, image) == 0
    ensures c.points == 0 && c.sampling == 0 && EffectiveWidth(c, image) * EffectiveHeight(c, image) > 0 ==>
      n == Finite(MaxPoints as real)
  {
    var requested :=
      if c.points != 0 then Finite(c.points as real)
      else Divide(EffectiveWidth(c, image) * EffectiveHeight(c, image), c.sampling);
    Min(MaxPoints as real, requested)
  }
}
