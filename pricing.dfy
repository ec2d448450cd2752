/** The static price table: for each waste category a display name and an
    indicative rate in rupees per kilogram, and the estimate for a weight.
    Numbers are exact reals here; the floating-point error of the browser's
    arithmetic is not modelled. */
module Pricing {

  datatype WasteCategory = Paper | Plastic | Glass | Metal | Mixed

  /** Every category, in the order the table lists them. */
  const Categories: seq<WasteCategory> := [Paper, Plastic, Glass, Metal, Mixed]

  lemma CategoriesComplete(c: WasteCategory)
    ensures c in Categories
  {
  }

  function CategoryDisplay(c: WasteCategory): (name: string)
    ensures name != ""
  {
    match c
    case Paper => "Paper / Newspaper"
    case Plastic => "Plastic (Bottles & More)"
    case Glass => "Glass (Bottles & Jars)"
    case Metal => "Metal (Steel/Aluminum)"
    case Mixed => "Mixed Scrap"
  }

  /** Different categories are shown under different names. */
  lemma DisplayNamesDistinct(c: WasteCategory, d: WasteCategory)
    requires c != d
    ensures CategoryDisplay(c) != CategoryDisplay(d)
  {
  }

  /** Rupees per kilogram. The table is total and every rate is positive,
      so the `?? 0` fallback of the estimate never applies. */
  function PricePerKg(c: WasteCategory): (rate: nat)
    ensures rate > 0
  {
    match c
    case Paper => 12
    case Plastic => 18
    case Glass => 3
    case Metal => 45
    case Mixed => 8
  }

  /** Math.round: the nearest integer, halves rounded up. */
  function Round(x: real): (n: int)
    ensures x - 0.5 < n as real <= x + 0.5
  {
    (x + 0.5).Floor
  }

  /** `r` is a whole number of paise (hundredths of a rupee). */
  predicate TwoDecimals(r: real)
  {
    (r * 100.0).Floor as real == r * 100.0
  }

  /** Math.round(rate * weightKg * 100) / 100: the rate times the weight,
      rounded half-up to two decimal places. */
  function EstimatePrice(c: WasteCategory, weightKg: real := 1.0): (r: real)
    ensures TwoDecimals(r)
    ensures PricePerKg(c) as real * weightKg - 0.005 < r <= PricePerKg(c) as real * weightKg + 0.005
  {
    var rate := PricePerKg(c);
    (Round(rate as real * weightKg * 100.0) as real) / 100.0
  }

  /** At most one two-decimal amount lies less than half a paisa below, or
      at most half a paisa above, a given amount: the two ensures of
      EstimatePrice determine its result. */
  lemma TwoDecimalRoundingUnique(x: real, r: real, q: real)
    requires TwoDecimals(r) && x - 0.005 < r <= x + 0.005
    requires TwoDecimals(q) && x - 0.005 < q <= x + 0.005
    ensures r == q
  {
    var a, b := (r * 100.0).Floor, (q * 100.0).Floor;
    assert a as real - b as real < 1.0 && b as real - a as real < 1.0;
    assert a == b;
  }

  lemma EstimateOfNothing(c: WasteCategory)
    ensures EstimatePrice(c, 0.0) == 0.0
  {
    TwoDecimalRoundingUnique(0.0, EstimatePrice(c, 0.0), 0.0);
  }

  /** With the default weight of one kilogram the estimate is the rate
      itself, since every rate is a whole number of rupees. */
  lemma EstimateOfOneKilogram(c: WasteCategory)
    ensures EstimatePrice(c) == PricePerKg(c) as real
  {
    var rate := PricePerKg(c) as real;
    assert TwoDecimals(rate) by {
      assert rate * 100.0 == (PricePerKg(c) * 100) as real;
    }
    TwoDecimalRoundingUnique(rate, EstimatePrice(c), rate);
  }

  lemma EstimateNonNegative(c: WasteCategory, weightKg: real)
    requires weightKg >= 0.0
    ensures EstimatePrice(c, weightKg) >= 0.0
  {
    var x := PricePerKg(c) as real * weightKg * 100.0;
    assert x >= 0.0;
    assert Round(x) >= 0;
  }

  /** A heavier load never gets a lower estimate. */
  lemma EstimateMonotone(c: WasteCategory, lighter: real, heavier: real)
    requires lighter <= heavier
    ensures EstimatePrice(c, lighter) <= EstimatePrice(c, heavier)
  {
    var rate := PricePerKg(c) as real;
    var x, y := rate * lighter * 100.0, rate * heavier * 100.0;
    assert x <= y;
    assert Round(x) <= Round(y);
  }
}
