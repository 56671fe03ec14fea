/** Wrapped bounding boxes: membership, the two box centres of the repository,
    and the viewport-dependent entity limit. Coordinates are exact reals. */
module Geometry {
  import opened Wrappers

  datatype BBox = BBox(west: real, south: real, east: real, north: real) {
    predicate Contains(lat: real, lon: real) {
      if lat < south || lat > north then false
      else if west <= east then west <= lon <= east
      else lon >= west || lon <= east
    }

    /** The boxes the repository's own checks let through. */
    ghost predicate InRange() {
      && -180.0 <= west <= 180.0
      && -180.0 <= east <= 180.0
      && south <= north
    }
  }

  /** `domain.BBoxCenter`, the centre used by the domain package. */
  function BBoxCenter(b: BBox): (real, real) {
    var lat := (b.north + b.south) / 2.0;
    if b.west > b.east then
      var lon := b.west + (b.east + 360.0 - b.west) / 2.0;
      (lat, if lon > 180.0 then lon - 360.0 else lon)
    else
      (lat, (b.west + b.east) / 2.0)
  }

  function Trunc(x: real): int {
    if x >= 0.0 then x.Floor else -((-x).Floor)
  }

  /** `math.Mod`: the remainder with the sign of the dividend. */
  function Mod(x: real, y: real): real
    requires y != 0.0
  {
    x - y * (Trunc(x / y) as real)
  }

  /** `realtime.bboxCenter`, the centre used for a single on-demand fetch point. */
  function OnDemandCenter(b: BBox): (real, real) {
    var lat := (b.south + b.north) / 2.0;
    if b.west <= b.east then
      (lat, (b.west + b.east) / 2.0)
    else
      (lat, Mod((b.west + b.east + 360.0) / 2.0, 360.0) - 180.0)
  }

  lemma ModOfSmall(x: real)
    requires 0.0 <= x < 360.0
    ensures Mod(x, 360.0) == x
  {
    assert 0.0 <= x / 360.0 < 1.0;
    assert (x / 360.0).Floor == 0;
  }

  lemma CenterIsInside(b: BBox)
    requires b.InRange()
    ensures var (lat, lon) := BBoxCenter(b); b.Contains(lat, lon) && -180.0 <= lon <= 180.0
  {
  }

  /** It is the middle: as far from the north as from the south, and as far from the west, going
      east, as from the east, going west. */
  lemma CenterIsMiddle(b: BBox)
    requires b.InRange()
    ensures (
      var (lat, lon) := BBoxCenter(b);
      var (toWest, toEast) := (lon - b.west, b.east - lon);
      && b.north - lat == lat - b.south
      && (if toWest >= 0.0 then toWest else toWest + 360.0) == (if toEast >= 0.0 then toEast else toEast + 360.0))
  {
  }

  /** The on-demand centre equals the domain centre exactly for unwrapped boxes; for a
      wrapped box it is half a turn away and outside. */
  lemma OnDemandCenterInsideIffUnwrapped(b: BBox)
    requires b.InRange()
    ensures b.west <= b.east <==> OnDemandCenter(b) == BBoxCenter(b)
    ensures b.west <= b.east <==> b.Contains(OnDemandCenter(b).0, OnDemandCenter(b).1)
    ensures b.west > b.east ==>
              && OnDemandCenter(b).0 == BBoxCenter(b).0
              && (|| OnDemandCenter(b).1 == BBoxCenter(b).1 + 180.0
                  || OnDemandCenter(b).1 == BBoxCenter(b).1 - 180.0)
  {
    if b.west > b.east {
      ModOfSmall((b.west + b.east + 360.0) / 2.0);
    }
  }

  function Area(b: BBox): real {
    var lonSpan := b.east - b.west;
    (b.north - b.south) * (if lonSpan < 0.0 then lonSpan + 360.0 else lonSpan)
  }

  /** `baseLimit / 5` with Go's truncating division. */
  function Fifth(n: int): int {
    if n >= 0 then n / 5 else -((-n) / 5)
  }

  /** The share of the limit kept between 500 and 10000 square degrees: from 1 down to 0.2. */
  function Fraction(area: real): real {
    1.0 - 0.8 * (area - 500.0) / 9500.0
  }

  function Scaled(base: int, area: real): int {
    Trunc(base as real * Fraction(area))
  }

  function AtLeast500(limit: int): int {
    if limit < 500 then 500 else limit
  }

  function LimitForArea(area: real, base: int): int {
    if area <= 500.0 then base
    else if area <= 10000.0 then AtLeast500(Scaled(base, area))
    else AtLeast500(Fifth(base))
  }

  function ViewportEntityLimit(viewport: Option<BBox>, base: int): int {
    if viewport.None? then base else LimitForArea(Area(viewport.value), base)
  }

  lemma MulNonNegative(a: real, b: real)
    requires a >= 0.0 && b >= 0.0
    ensures a * b >= 0.0
  {
  }

  lemma ScaledBounds(base: nat, area: real)
    requires 500.0 <= area <= 10000.0
    ensures base / 5 <= Scaled(base, area) <= base
  {
    var r, frac := base as real, Fraction(area);
    MulNonNegative(r, 1.0 - frac);
    MulNonNegative(r, frac - 0.2);
    var x := r * frac;
    assert x == r - r * (1.0 - frac);
    assert x == r * 0.2 + r * (frac - 0.2);
    assert r * 0.2 >= (base / 5) as real;
    assert x.Floor <= base;
    assert x.Floor >= base / 5;
  }

  lemma ScaledAntitone(base: nat, a: real, b: real)
    requires a <= b <= 10000.0
    ensures Scaled(base, b) <= Scaled(base, a)
  {
    var r, f, g := base as real, Fraction(b), Fraction(a);
    MulNonNegative(r, f);
    MulNonNegative(r, g - f);
    assert r * g == r * f + r * (g - f);
  }

  /** A limit of at most 500 is never reduced (it can only be raised to 500), a larger one
      is reduced to no less than both 500 and a fifth, and is never raised. */
  lemma LimitBounds(viewport: Option<BBox>, base: nat)
    ensures var limit := ViewportEntityLimit(viewport, base);
            && (base <= 500 ==> base <= limit <= 500)
            && (base > 500 ==> 500 <= limit <= base && limit >= base / 5)
  {
    if viewport.Some? && 500.0 < Area(viewport.value) <= 10000.0 {
      ScaledBounds(base, Area(viewport.value));
    }
  }

  lemma LimitByCase(area: real, base: nat)
    ensures area <= 500.0 ==> LimitForArea(area, base) == base
    ensures area > 10000.0 ==> LimitForArea(area, base) == AtLeast500(base / 5)
    ensures 500.0 < area <= 10000.0 ==>
              LimitForArea(area, base) == AtLeast500(Scaled(base, area)) && base / 5 <= Scaled(base, area) <= base
  {
    hide Scaled;
    if 500.0 < area <= 10000.0 {
      ScaledBounds(base, area);
    }
  }

  /** The limit in terms of the box: the whole base up to 500 square degrees, a fifth of it above
      10000, and in between a share that falls evenly from all to a fifth, rounded down; the last
      two at least 500. A box that wraps around spans what is left of the circle. */
  lemma LimitOfBox(b: BBox, base: nat)
    ensures (
      var area := (b.north - b.south) * if b.east >= b.west then b.east - b.west else 360.0 - (b.west - b.east);
      var share := base as real * (1.0 - 0.8 * (area - 500.0) / 9500.0);
      ViewportEntityLimit(Some(b), base)
      == if area <= 500.0 then base
         else if area > 10000.0 then (if base >= 2500 then base / 5 else 500)
         else if share >= 500.0 then share.Floor else 500)
  {
    AreaOf(b);
    hide Area;
    LimitOfArea(Area(b), base);
    hide LimitForArea;
  }

  lemma AreaOf(b: BBox)
    ensures Area(b) == (b.north - b.south) * if b.east >= b.west then b.east - b.west else 360.0 - (b.west - b.east)
  {
    assert 360.0 - (b.west - b.east) == b.east - b.west + 360.0;
  }

  lemma LimitOfArea(area: real, base: nat)
    ensures (
      var share := base as real * (1.0 - 0.8 * (area - 500.0) / 9500.0);
      LimitForArea(area, base)
      == if area <= 500.0 then base
         else if area > 10000.0 then (if base >= 2500 then base / 5 else 500)
         else if share >= 500.0 then share.Floor else 500)
  {
    LimitByCase(area, base);
    if 500.0 < area <= 10000.0 {
      var x := base as real * Fraction(area);
      MulNonNegative(base as real, Fraction(area));
      assert Scaled(base, area) == x.Floor;
      assert x >= 500.0 <==> x.Floor >= 500;
    }
    hide LimitForArea, Scaled;
  }

  /** A larger area gets a larger limit in exactly one case: it takes a base below the floor of
      500 over the first threshold, where the floor applies. */
  lemma LimitGrowsIff(a: real, b: real, base: nat)
    requires a <= b
    ensures LimitForArea(b, base) > LimitForArea(a, base) <==> base < 500 && a <= 500.0 < b
  {
    hide LimitForArea, Scaled;
    LimitByCase(a, base);
    LimitByCase(b, base);
    if b <= 10000.0 {
      ScaledAntitone(base, a, b);
    }
  }

  /** Such as this one: zooming out by one square degree raises the limit from 100 to 500. */
  lemma LimitGrowsAt()
    ensures LimitForArea(500.0, 100) == 100 && LimitForArea(501.0, 100) == 500
  {
    LimitByCase(500.0, 100);
    LimitByCase(501.0, 100);
    hide LimitForArea, Scaled;
  }
}
