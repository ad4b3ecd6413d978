/** Scaling a pixel of the observed frame to absolute pointer coordinates. */
module PixelScaling {
  import opened Common

  const HID_MAX := 32767

  /** The quotient rounded to the nearest integer, and to the even one of two. */
  function RoundHalfEven(n: nat, d: nat): (r: nat)
    requires 0 < d
    ensures -(d as int) <= 2 * (r * d - n) <= d
    ensures (2 * (r * d - n) == d || 2 * (n - r * d) == d) ==> r % 2 == 0
  {
    var q, rest := n / d, n % d;
    Division(n, d, q, rest);
    if 2 * rest < d || (2 * rest == d && q % 2 == 0) then q else q + 1
  }

  lemma Division(n: nat, d: nat, q: nat, rest: nat)
    requires 0 < d && q == n / d && rest == n % d
    ensures n == q * d + rest && (q + 1) * d == q * d + d && rest < d
  {
  }

  /** An integer closer than a half is the rounded one. */
  lemma NearestIsRounded(n: nat, d: nat, k: nat)
    requires 0 < d && -(d as int) < 2 * (k * d - n) < d
    ensures RoundHalfEven(n, d) == k
  {
    var r := RoundHalfEven(n, d);
    Apart(r, k, d);
    Apart(k, r, d);
  }

  lemma Apart(a: nat, b: nat, d: nat)
    ensures a < b ==> a * d + d <= b * d
  {
    if a < b {
      var k := b - a - 1;
      assert b * d == a * d + d + k * d;
    }
  }

  function Coordinate(x: nat, width: nat): nat {
    if width <= 1 then 0 else RoundHalfEven(x * HID_MAX, width - 1)
  }

  /** The pointer position for a pixel; pixels outside the frame are refused. */
  function ClickPixel(x: nat, y: nat, width: nat, height: nat): Option<(nat, nat)> {
    if x >= width || y >= height then None else Some((Coordinate(x, width), Coordinate(y, height)))
  }

  /** Within half a count of the exact position. */
  lemma Accurate(x: nat, width: nat)
    requires 2 <= width
    ensures -(width as int - 1) <= 2 * (Coordinate(x, width) * (width - 1) - x * HID_MAX) <= width - 1
  {
  }

  lemma EndpointsKept(width: nat)
    requires 2 <= width
    ensures Coordinate(0, width) == 0 && Coordinate(width - 1, width) == HID_MAX
  {
    NearestIsRounded(0 * HID_MAX, width - 1, 0);
    NearestIsRounded((width - 1) * HID_MAX, width - 1, HID_MAX);
  }

  lemma Monotone(x: nat, y: nat, width: nat)
    requires x <= y
    ensures Coordinate(x, width) <= Coordinate(y, width)
  {
    if 2 <= width && x < y {
      RoundMonotone(x * HID_MAX, y * HID_MAX, width - 1);
    }
  }

  lemma RoundMonotone(m: nat, n: nat, d: nat)
    requires 0 < d && m <= n
    ensures RoundHalfEven(m, d) <= RoundHalfEven(n, d)
  {
    var r, s := RoundHalfEven(m, d), RoundHalfEven(n, d);
    Apart(s, r, d);
  }

  /**
   The coordinate for position x of an edge of this many pixels: the whole range is spread over the edge, to within half a
   count, and half counts go to the even one.
   */
  ghost predicate Scaled(c: nat, x: nat, edge: nat) {
    && c <= 32767
    && (if edge <= 1 then c == 0
        else
          var error := 2 * (c * (edge - 1) - x * 32767);
          -(edge - 1) <= error <= edge - 1 && (error == edge - 1 || error == -(edge - 1) ==> c % 2 == 0))
  }

  /** A pixel is accepted exactly within the frame; its column then gives the first coordinate, its row the second. */
  lemma ClicksInRange(x: nat, y: nat, width: nat, height: nat)
    ensures match ClickPixel(x, y, width, height)
            case Some(p) => x < width && y < height && Scaled(p.0, x, width) && Scaled(p.1, y, height)
            case None => x >= width || y >= height
  {
    if x < width { CoordinateInRange(x, width); }
    if y < height { CoordinateInRange(y, height); }
  }

  lemma CoordinateInRange(x: nat, width: nat)
    requires x < width
    ensures Coordinate(x, width) <= HID_MAX
  {
    if 2 <= width {
      Monotone(x, width - 1, width);
      EndpointsKept(width);
    }
  }

  ghost predicate StrictlyIncreasing(width: nat) {
    forall x, y :: 0 <= x < y < width ==> Coordinate(x, width) < Coordinate(y, width)
  }

  lemma Increases(x: nat, y: nat, width: nat)
    requires 2 <= width <= HID_MAX + 1 && x < y < width
    ensures Coordinate(x, width) < Coordinate(y, width)
  {
    var d := width - 1;
    if d == HID_MAX {
      NearestIsRounded(x * HID_MAX, d, x);
      NearestIsRounded(y * HID_MAX, d, y);
    } else {
      Accurate(x, width);
      Accurate(y, width);
      Apart(Coordinate(y, width), Coordinate(x, width), d);
    }
  }

  lemma {:induction false} StrictIsFast(x: nat, width: nat)
    requires StrictlyIncreasing(width) && x < width
    ensures x <= Coordinate(x, width)
  {
    if 0 < x {
      StrictIsFast(x - 1, width);
    }
  }

  /** Different columns have different coordinates exactly up to 32768 columns, as many as there are coordinates. */
  lemma DistinctExactlyUpToRange(width: nat)
    ensures StrictlyIncreasing(width) <==> width <= HID_MAX + 1
  {
    if width <= HID_MAX + 1 {
      forall x, y | 0 <= x < y < width ensures Coordinate(x, width) < Coordinate(y, width) {
        Increases(x, y, width);
      }
    } else if StrictlyIncreasing(width) {
      StrictIsFast(width - 1, width);
      EndpointsKept(width);
    }
  }

  /** And up to there the pixel can be recovered from its coordinate by scaling back. */
  lemma PixelRecovered(x: nat, width: nat)
    requires 2 <= width <= HID_MAX + 1 && x < width
    ensures RoundHalfEven(Coordinate(x, width) * (width - 1), HID_MAX) == x
  {
    if width == HID_MAX + 1 {
      NearestIsRounded(x * HID_MAX, width - 1, x);
    } else {
      Accurate(x, width);
    }
    NearestIsRounded(Coordinate(x, width) * (width - 1), HID_MAX, x);
  }
}
