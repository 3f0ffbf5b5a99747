/** The partition of an image's rows into horizontal bands
    (src/App.jsx:65 and :79-80). */
module Bands {

  /** Number of bands the height is cut into. */
  const Steps: nat := 10

  /** First row of band `i`. The source computes Math.floor((i / steps) * height)
      in double precision; the model uses the exact value floor(i * height / 10). */
  function BandStart(i: nat, height: nat): nat {
    i * height / Steps
  }

  /** One past the last row of band `i`: Math.floor(((i + 1) / steps) * height). */
  function BandEnd(i: nat, height: nat): nat {
    (i + 1) * height / Steps
  }

  /** Row `y` lies in band `i`. */
  predicate InBand(y: nat, i: nat, height: nat) {
    BandStart(i, height) <= y < BandEnd(i, height)
  }

  /** The band that row `y` falls in, in closed form. It is a definition
      independent of the band loop; BandMembership shows the two agree. */
  function BandOf(y: nat, height: nat): nat
    requires y < height
  {
    (Steps * y + Steps - 1) / height
  }

  /** Floor division characterised by multiplication. */
  lemma FloorDivAtLeast(a: int, b: int, q: int)
    requires b > 0
    ensures q <= a / b <==> q * b <= a
  {
    var d := a / b;
    assert a == d * b + a % b;
    if q <= d {
      MulMonotone(q, d, b);
    } else {
      MulMonotone(d + 1, q, b);
    }
  }

  lemma MulMonotone(x: int, y: int, b: int)
    requires x <= y && b >= 0
    ensures x * b <= y * b
  {
    assert y * b - x * b == (y - x) * b;
  }

  /** The first band starts at row 0, the last ends at the full height, and
      each band ends exactly where the next one starts. */
  lemma BandEndpoints(height: nat)
    ensures BandStart(0, height) == 0
    ensures BandEnd(Steps - 1, height) == height
    ensures forall i: nat :: i < Steps - 1 ==> BandEnd(i, height) == BandStart(i + 1, height)
  {
  }

  /** Band boundaries never decrease with the band index, so every band is a
      (possibly empty) range of rows inside [0, height). */
  lemma {:induction false} BandStartMonotone(i: nat, j: nat, height: nat)
    requires i <= j
    ensures BandStart(i, height) <= BandStart(j, height)
    ensures j <= Steps ==> BandStart(j, height) <= height
  {
    MulMonotone(i, j, height);
    FloorDivAtLeast(j * height, Steps, BandStart(i, height));
    if j <= Steps {
      MulMonotone(j, Steps, height);
      FloorDivAtLeast(Steps * height, Steps, BandStart(j, height));
    }
  }

  /** Every band is well formed: it starts no later than it ends and it ends
      inside the image. */
  lemma BandWithinImage(i: nat, height: nat)
    requires i < Steps
    ensures BandStart(i, height) <= BandEnd(i, height) <= height
  {
    BandStartMonotone(i, i + 1, height);
  }

  /** Bands differ in height by at most one row: each holds height / 10 rows
      or one more. */
  lemma BandHeight(i: nat, height: nat)
    ensures height / Steps <= BandEnd(i, height) - BandStart(i, height) <= height / Steps + 1
  {
    var s, q := BandStart(i, height), height / Steps;
    var e := BandEnd(i, height);
    assert (i + 1) * height == i * height + height;
    FloorDivAtLeast(i * height, Steps, s);
    FloorDivAtLeast(height, Steps, q);
    FloorDivAtLeast((i + 1) * height, Steps, s + q);
    FloorDivAtLeast((i + 1) * height, Steps, s + q + 2);
    FloorDivAtLeast(i * height, Steps, s + 1);
    FloorDivAtLeast(height, Steps, q + 1);
  }

  /** The bands tile the image: row `y` lies in band `i` exactly when `i` is
      BandOf(y), so no row is in two bands, and BandOf(y) is one of the ten
      bands, so no row is in none. */
  lemma BandMembership(y: nat, i: nat, height: nat)
    requires y < height
    ensures BandOf(y, height) < Steps
    ensures InBand(y, i, height) <==> i == BandOf(y, height)
  {
    var k := Steps * y + Steps - 1;
    FloorDivAtLeast(k, height, Steps);
    FloorDivAtLeast(i * height, Steps, y + 1);
    FloorDivAtLeast(k, height, i);
    FloorDivAtLeast((i + 1) * height, Steps, y + 1);
    FloorDivAtLeast(k, height, i + 1);
  }

  /** Coverage stated on its own: every row of the image is in some band. */
  lemma BandsCover(y: nat, height: nat)
    requires y < height
    ensures exists i: nat :: i < Steps && InBand(y, i, height)
  {
    BandMembership(y, BandOf(y, height), height);
  }

  /** Disjointness stated on its own: no row is in two different bands. */
  lemma BandsDisjoint(y: nat, i: nat, j: nat, height: nat)
    requires i < Steps && j < Steps
    requires InBand(y, i, height) && InBand(y, j, height)
    ensures i == j
  {
    BandWithinImage(i, height);
    BandMembership(y, i, height);
    BandMembership(y, j, height);
  }
}
