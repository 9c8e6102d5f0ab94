/** What an image costs in tokens.  Floats are reals. */
module ImageTokens {
  import opened Wrappers

  const LOW_DETAIL_COST := 85
  const HIGH_DETAIL_COST_PER_TILE := 170
  const ADDITIONAL_COST := 85
  const MINI_LOW_DETAIL_COST := 2833
  const MINI_HIGH_DETAIL_COST := 5667
  const MINI_ADDITIONAL_COST := 2833

  function Max(a: nat, b: nat): nat {
    if a >= b then a else b
  }

  function Min(a: nat, b: nat): nat {
    if a <= b then a else b
  }

  /** `side * (target / by)`, cut off to an integer. */
  function Scaled(side: nat, target: nat, whole: nat): nat
    requires whole > 0
  {
    ScaledPositive(side, target, whole);
    (side as real * (target as real / whole as real)).Floor
  }

  /** The size after both scalings. */
  function Fitted(width: nat, height: nat): (nat, nat) {
    var most := Max(width, height);
    var (w, h) := if most > 2048 then (Scaled(width, 2048, most), Scaled(height, 2048, most)) else (width, height);
    var least := Min(w, h);
    if least > 768 then (Scaled(w, 768, least), Scaled(h, 768, least)) else (w, h)
  }

  /** The tiles of 512 pixels that cover a side. */
  function TilesAlong(side: nat): nat {
    (side + 511) / 512
  }

  function Tiles(width: nat, height: nat): nat {
    var (w, h) := Fitted(width, height);
    TilesAlong(w) * TilesAlong(h)
  }

  function Ceil(x: real): int {
    0 - (0.0 - x).Floor
  }

  lemma CeilIsTiles(side: nat)
    ensures Ceil(side as real / 512.0) == TilesAlong(side)
  {
    var n := TilesAlong(side);
    assert side <= 512 * n < side + 512;
    var x := side as real / 512.0;
    assert x * 512.0 == side as real;
    assert x <= n as real < x + 1.0;
    assert (0.0 - x).Floor == 0 - n;
  }

  predicate IsMini(model: string) {
    "gpt-4o-mini" <= model
  }

  /** `size` is None when the size of the image cannot be read. */
  method CountImageTokens(detail: string, model: string, size: Option<(nat, nat)>) returns (cost: Result<int>)
    ensures detail == "low" ==> cost == Ok(if "gpt-4o-mini" <= model then 2833 else 85)
    ensures detail in ["", "auto", "high"] && size.Some? ==>
              var tiles := Tiles(size.value.0, size.value.1);
              cost == Ok(if "gpt-4o-mini" <= model then tiles * 5667 + 2833 else tiles * 170 + 85)
    ensures cost.Err? <==> if detail in ["", "auto", "high"] then size.None? else detail != "low"
  {
    var level := detail;
    if level == "" || level == "auto" {
      level := "high";
    }
    if level == "low" {
      return Ok(if IsMini(model) then MINI_LOW_DETAIL_COST else LOW_DETAIL_COST);
    } else if level == "high" {
      if size.None? {
        return Err("image size");
      }
      var (width, height) := size.value;
      if width > 2048 || height > 2048 {
        var most := Max(width, height);
        width, height := Scaled(width, 2048, most), Scaled(height, 2048, most);
      }
      if width > 768 && height > 768 {
        var least := Min(width, height);
        width, height := Scaled(width, 768, least), Scaled(height, 768, least);
      }
      assert (width, height) == Fitted(size.value.0, size.value.1);
      CeilIsTiles(width);
      CeilIsTiles(height);
      var numSquares := Ceil(width as real / 512.0) * Ceil(height as real / 512.0);
      if IsMini(model) {
        return Ok(numSquares * MINI_HIGH_DETAIL_COST + MINI_ADDITIONAL_COST);
      }
      return Ok(numSquares * HIGH_DETAIL_COST_PER_TILE + ADDITIONAL_COST);
    } else {
      return Err("invalid detail option");
    }
  }

  lemma ScaledPositive(side: nat, target: nat, whole: nat)
    requires whole > 0
    ensures side as real * (target as real / whole as real) >= 0.0
  {
    var ratio := target as real / whole as real;
    assert ratio >= 0.0;
  }

  /** Exact scaling is monotone and takes `whole` to `target`; cutting off keeps comparisons with integers. */
  lemma ScaledBounds(side: nat, target: nat, whole: nat, n: nat)
    requires whole > 0
    ensures Scaled(side, target, whole) >= n <==> side * target >= n * whole
  {
    var ratio := target as real / whole as real;
    var exact := side as real * ratio;
    assert ratio * whole as real == target as real;
    assert exact * whole as real == (side * target) as real by {
      assert exact * whole as real == side as real * (ratio * whole as real);
    }
    assert exact >= n as real <==> exact * whole as real >= n as real * whole as real;
    assert n as real * whole as real == (n * whole) as real;
  }

  /** After both scalings one side is at most 768 and none is above 2048. */
  lemma FittedFits(width: nat, height: nat)
    ensures var (w, h) := Fitted(width, height); Min(w, h) <= 768 && Max(w, h) <= 2048
  {
    var most := Max(width, height);
    if most > 2048 {
      ShrinksTo(width, 2048, most);
      ShrinksTo(height, 2048, most);
    }
    var (w, h) := if most > 2048 then (Scaled(width, 2048, most), Scaled(height, 2048, most)) else (width, height);
    assert w <= 2048 && h <= 2048;
    var least := Min(w, h);
    if least > 768 {
      ShrinksTo(least, 768, least);
      NeverGrows(w, 768, least);
      NeverGrows(h, 768, least);
    }
  }

  lemma ShrinksTo(side: nat, target: nat, whole: nat)
    requires side <= whole && whole > 0
    ensures Scaled(side, target, whole) <= target
  {
    ScaledBounds(side, target, whole, target + 1);
    assert side * target <= whole * target < (target + 1) * whole;
  }

  lemma NeverGrows(side: nat, target: nat, whole: nat)
    requires target <= whole && whole > 0
    ensures Scaled(side, target, whole) <= side
  {
    ScaledBounds(side, target, whole, side + 1);
    assert side * target <= side * whole < (side + 1) * whole;
  }

  /** An image of any size has at most 8 tiles. */
  lemma AtMostEightTiles(width: nat, height: nat)
    ensures Tiles(width, height) <= 8
  {
    FittedFits(width, height);
    hide Fitted;
    var (w, h) := Fitted(width, height);
    assert TilesAlong(w) <= 4 && TilesAlong(h) <= 4 && Min(TilesAlong(w), TilesAlong(h)) <= 2;
    assert TilesAlong(w) * TilesAlong(h) <= 8 by {
      if TilesAlong(w) <= 2 {
        assert TilesAlong(w) * TilesAlong(h) <= 2 * TilesAlong(h);
      } else {
        assert TilesAlong(w) * TilesAlong(h) <= TilesAlong(w) * 2;
      }
    }
  }

  function HighDetailCost(mini: bool, width: nat, height: nat): int {
    if mini then Tiles(width, height) * MINI_HIGH_DETAIL_COST + MINI_ADDITIONAL_COST
    else Tiles(width, height) * HIGH_DETAIL_COST_PER_TILE + ADDITIONAL_COST
  }

  /** The bounds on the cost, both of which are met. */
  lemma HighDetailCostBounded(mini: bool, width: nat, height: nat)
    ensures if mini then 2833 <= HighDetailCost(mini, width, height) <= 48169
            else 85 <= HighDetailCost(mini, width, height) <= 1445
    ensures HighDetailCost(mini, 768, 2048) == (if mini then 48169 else 1445)
  {
    AtMostEightTiles(width, height);
    assert Fitted(768, 2048) == (768, 2048);
  }

  /** An image has no tiles, and costs no more than in low detail, exactly when its short side scales to nothing. */
  lemma NoTilesIff(width: nat, height: nat)
    ensures Tiles(width, height) == 0 <==>
              var (most, least) := (Max(width, height), Min(width, height));
              least == 0 || (most > 2048 && least * 2048 < most)
  {
    var (most, least) := (Max(width, height), Min(width, height));
    if most > 2048 {
      ScaledBounds(width, 2048, most, 1);
      ScaledBounds(height, 2048, most, 1);
    }
    var (w, h) := if most > 2048 then (Scaled(width, 2048, most), Scaled(height, 2048, most)) else (width, height);
    var small := Min(w, h);
    if small > 768 {
      ScaledBounds(w, 768, small, 1);
      ScaledBounds(h, 768, small, 1);
    }
    hide Scaled;
    var (x, y) := Fitted(width, height);
    assert x == 0 <==> w == 0;
    assert y == 0 <==> h == 0;
    assert w == 0 || h == 0 <==> least == 0 || (most > 2048 && least * 2048 < most);
    TilesVanish(x, y);
  }

  lemma TilesVanish(x: nat, y: nat)
    ensures TilesAlong(x) * TilesAlong(y) == 0 <==> x == 0 || y == 0
  {
    if x > 0 && y > 0 {
      assert TilesAlong(x) >= 1 && TilesAlong(y) >= 1;
      assert TilesAlong(x) * TilesAlong(y) >= 1;
    }
  }

  /** `scaled` is to `target` as `side` is to `whole`, cut off to a whole number. */
  predicate InProportion(scaled: nat, side: nat, target: nat, whole: nat) {
    scaled * whole <= side * target < (scaled + 1) * whole
  }

  lemma ScaledInProportion(side: nat, target: nat, whole: nat)
    requires whole > 0
    ensures InProportion(Scaled(side, target, whole), side, target, whole)
  {
    var scaled := Scaled(side, target, whole);
    hide Scaled;
    ScaledBounds(side, target, whole, scaled);
    ScaledBounds(side, target, whole, scaled + 1);
  }

  /**
    Both scalings keep the proportion up to cutting off: first to a long side of 2048, if it is longer,
    and then to a short side of exactly 768, if it is longer.
   */
  lemma FittedIsProportional(width: nat, height: nat) returns (w: nat, h: nat)
    ensures var most := if width >= height then width else height;
            if most > 2048 then InProportion(w, width, 2048, most) && InProportion(h, height, 2048, most)
            else (w, h) == (width, height)
    ensures var ((x, y), least) := (Fitted(width, height), if w <= h then w else h);
            if least > 768 then
              && InProportion(x, w, 768, least) && InProportion(y, h, 768, least)
              && (if w <= h then x == 768 else y == 768)
            else (x, y) == (w, h)
  {
    var most := Max(width, height);
    w, h := width, height;
    if most > 2048 {
      w, h := Scaled(width, 2048, most), Scaled(height, 2048, most);
      ScaledInProportion(width, 2048, most);
      ScaledInProportion(height, 2048, most);
    }
    var least := Min(w, h);
    if least > 768 {
      ScaledInProportion(w, 768, least);
      ScaledInProportion(h, 768, least);
      ShortSideIs(least);
    }
  }

  lemma ShortSideIs(least: nat)
    requires least > 0
    ensures Scaled(least, 768, least) == 768
  {
    ScaledInProportion(least, 768, least);
    var scaled := Scaled(least, 768, least);
    hide Scaled;
    Cancel(scaled, 768, least);
    Cancel(scaled + 1, 768, least);
  }

  lemma Cancel(a: nat, b: nat, m: nat)
    requires m > 0
    ensures a * m <= b * m <==> a <= b
  {
    if a <= b {
      MultipliedLess(a, b, m);
    } else {
      MultipliedLess(b + 1, a, m);
      OneMore(b, m);
    }
  }

  lemma MultipliedLess(a: nat, b: nat, m: nat)
    requires a <= b
    ensures a * m <= b * m
  {
  }

  lemma OneMore(b: nat, m: nat)
    ensures (b + 1) * m == b * m + m
  {
  }

  /** A size that fits is left alone, and tiles cover a side with less than one to spare. */
  lemma FittingIsUnchanged(width: nat, height: nat)
    requires width <= 2048 && height <= 2048 && (width <= 768 || height <= 768)
    ensures Fitted(width, height) == (width, height)
    ensures Tiles(width, height) == TilesAlong(width) * TilesAlong(height)
    ensures 512 * TilesAlong(width) - 512 < width <= 512 * TilesAlong(width)
    ensures 512 * TilesAlong(height) - 512 < height <= 512 * TilesAlong(height)
  {
  }
}
