/**
 * The star-rating widget: how many full, half and empty star icons a
 * rating value is drawn with.
 */
module Stars {

  /** Rating drawn when the caller gives none. */
  const DefaultRating: real := 4.5
  /** Number of icon slots the widget is designed around. */
  const Slots: int := 5

  /** `Math.trunc`: rounds toward zero. */
  function Trunc(v: real): (t: int)
    ensures 0.0 <= v ==> t == v.Floor
    ensures v < 0.0 ==> v <= t as real < v + 1.0
  {
    if v >= 0.0 then v.Floor else -((-v).Floor)
  }

  /**
   * JavaScript's `v % 1`: the remainder takes the sign of `v`, so it is the
   * fractional part for non-negative `v` and non-positive for negative `v`.
   */
  function JsRemOne(v: real): (f: real)
    ensures 0.0 <= v ==> f == v - v.Floor as real && 0.0 <= f < 1.0
    ensures v < 0.0 ==> -1.0 < f <= 0.0
  {
    v - Trunc(v) as real
  }

  /** Counts as the component computes them, before any icon is drawn. */
  datatype StarCounts = StarCounts(full: int, half: bool, empty: int)

  function Icons(value: real): (c: StarCounts)
    ensures c.full as real <= value < c.full as real + 1.0
    ensures c.half <==> JsRemOne(value) >= 0.5
    ensures 0.0 <= value ==> (c.half <==> value - value.Floor as real >= 0.5)
    ensures value < 0.0 ==> !c.half
    ensures c.full + (if c.half then 1 else 0) + c.empty == Slots
  {
    var full := value.Floor;
    var half := JsRemOne(value) >= 0.5;
    StarCounts(full, half, Slots - full - (if half then 1 else 0))
  }

  /**
   * `Array.from({ length: x })` makes `max(0, x)` elements, so a negative
   * count draws nothing.
   */
  function Drawn(x: int): (k: nat)
    ensures x <= 0 ==> k == 0
    ensures 0 <= x ==> k == x
  {
    if x < 0 then 0 else x
  }

  /** Total number of icons on screen. */
  function DrawnTotal(value: real): nat {
    var c := Icons(value);
    Drawn(c.full) + (if c.half then 1 else 0) + Drawn(c.empty)
  }

  /** A rating between 0 and 5 draws non-negative counts and exactly five icons. */
  lemma RatingInRangeDrawsFive(value: real)
    requires 0.0 <= value <= 5.0
    ensures 0 <= Icons(value).full <= Slots
    ensures 0 <= Icons(value).empty <= Slots
    ensures Icons(value).half ==> Icons(value).full < Slots
    ensures DrawnTotal(value) == Slots
  {
  }

  /**
   * From 5.5 up the five slots overflow: the empty count is negative and more
   * than five icons are drawn (5.5 draws five full stars and a half star).
   */
  lemma RatingAboveRangeOverflows(value: real)
    requires value >= 5.5
    ensures Icons(value).empty < 0
    ensures DrawnTotal(value) > Slots
  {
  }

  /** The page's hero shows 4.6: four full stars, one half star, no empty star. */
  lemma HeroRating()
    ensures Icons(4.6) == StarCounts(4, true, 0)
    ensures Icons(DefaultRating) == StarCounts(4, true, 0)
  {
  }
}
