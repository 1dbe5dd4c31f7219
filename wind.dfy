/** The conversion of a wind bearing to one of eight compass labels. */
module Wind {

  /** The labels in the order the source indexes them, 45 degrees apart. */
  const Compass: seq<string> := ["N", "NE", "E", "SE", "S", "SW", "W", "NW"]

  /** Python's round(d / 45) for a whole number of degrees d. The quotient
      is never exactly halfway between two integers (that would need 2d to
      be an odd multiple of 45), so round-half-to-even never applies and the
      result is simply the integer nearest to d / 45. This is Python's
      result for |d| < 2^52, where the floating-point quotient cannot stray
      across a half. */
  function RoundDiv45(d: int): (q: int)
    ensures -45 < 2 * d - 90 * q < 45
  {
    var q := (2 * d + 45) / 90;
    assert 2 * d + 45 == 90 * q + (2 * d + 45) % 90;
    assert (2 * d + 45) % 90 != 0;
    q
  }

  /** The index into Compass: round(d / 45) % 8, with Python's floor modulo. */
  function WindIndex(d: int): (i: int)
    ensures 0 <= i < 8
  {
    RoundDiv45(d) % 8
  }

  /** get_wind_direction on whole degrees. */
  function WindDirection(d: int): (name: string)
    ensures name in Compass
  {
    Compass[WindIndex(d)]
  }

  /** The rounded quotient is q exactly when d lies within 22 degrees of 45 * q. */
  lemma RoundDiv45Sector(d: int, q: int)
    ensures RoundDiv45(d) == q <==> 45 * q - 22 <= d <= 45 * q + 22
  {
    var r := RoundDiv45(d);
    assert 45 * r - 22 <= d <= 45 * r + 22;
  }

  /** The integer formula for the index: ((d + 22) / 45) % 8. */
  lemma WindIndexClosedForm(d: int)
    ensures WindIndex(d) == ((d + 22) / 45) % 8
  {
    var q := (d + 22) / 45;
    assert 45 * q <= d + 22 < 45 * q + 45;
    RoundDiv45Sector(d, q);
  }

  lemma ModShift8(q: int, m: int)
    ensures (q + 8 * m) % 8 == q % 8
  {
  }

  /** Bearings one full turn apart give the same label. */
  lemma WindPeriodic(d: int)
    ensures WindDirection(d + 360) == WindDirection(d)
  {
    var q := RoundDiv45(d);
    RoundDiv45Sector(d, q);
    RoundDiv45Sector(d + 360, q + 8);
    ModShift8(q, 1);
  }

  /** Any bearing, negative or beyond a full turn, gives the label of its
      remainder modulo 360. */
  lemma WindModulo360(d: int)
    ensures WindDirection(d) == WindDirection(d % 360)
  {
    var m := d / 360;
    var q := RoundDiv45(d % 360);
    RoundDiv45Sector(d % 360, q);
    assert d == d % 360 + 360 * m;
    RoundDiv45Sector(d, q + 8 * m);
    ModShift8(q, m);
  }

  /** The eight labels are pairwise distinct, so a label names one sector. */
  lemma CompassDistinct(i: int, j: int)
    requires 0 <= i < 8 && 0 <= j < 8 && i != j
    ensures Compass[i] != Compass[j]
  {
    assert Compass[i][0] != Compass[j][0] || |Compass[i]| != |Compass[j]| || Compass[i][1] != Compass[j][1];
  }

  /** The sectors of a bearing between 0 and 360: label k covers
      45k - 22 .. 45k + 22, and 338 .. 360 wraps back to N. */
  lemma WindSector(d: int, k: int)
    requires 0 <= d <= 360 && 0 <= k < 8
    ensures WindDirection(d) == Compass[k] <==>
              (45 * k - 22 <= d <= 45 * k + 22 || (k == 0 && 338 <= d))
  {
    var q := RoundDiv45(d);
    RoundDiv45Sector(d, q);
    assert 0 <= q <= 8;
    if WindIndex(d) != k {
      CompassDistinct(WindIndex(d), k);
    }
  }
}
