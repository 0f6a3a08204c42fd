/** Zone usage intensities: the equipment-load scalar each zone of a new
    building gets, 1000 divided by the zone's share of the leased area. */
module Usage {
  import opened Patterns

  /** The share of the leased area assigned to each zone. */
  function Factor(z: Zone): real
  {
    match z
    case 0 => 0.25
    case 1 => 0.20
    case 2 => 0.15
    case 3 => 0.20
    case 4 => 0.20
  }

  /** The five intensities of a building with the given leased area. The
      division fails (Python raises ZeroDivisionError) for a zero area, which
      callers rule out first. */
  function Intensities(area: real): (r: seq<real>)
    requires area != 0.0
    ensures |r| == ZoneCount
    ensures forall z: Zone :: r[z] * (Factor(z) * area) == 1000.0
  {
    seq(ZoneCount, z requires 0 <= z < ZoneCount => 1000.0 / (Factor(z) * area))
  }

  /** Zone 2, with the smallest share, gets the largest intensity; zones 1,
      3 and 4 share their intensity; zone 0 gets the smallest. */
  lemma IntensityOrder(area: real)
    requires area > 0.0
    ensures var r := Intensities(area);
            r[0] < r[1] && r[1] == r[3] == r[4] && r[1] < r[2]
  {
    var r := Intensities(area);
    assert r[0] * (0.25 * area) == 1000.0 && r[1] * (0.20 * area) == 1000.0;
    assert r[2] * (0.15 * area) == 1000.0;
    assert r[3] * (0.20 * area) == 1000.0 && r[4] * (0.20 * area) == 1000.0;
  }

  /** Intensity is inversely proportional to the leased area: a building k
      times as large gets a k-th of the intensity in every zone. */
  lemma IntensityScaling(area: real, k: real, z: Zone)
    requires area != 0.0 && k != 0.0
    ensures Intensities(k * area)[z] * k == Intensities(area)[z]
  {
    var a, b := Intensities(k * area)[z], Intensities(area)[z];
    var f := Factor(z) * area;
    assert Factor(z) * (k * area) == k * f;
    assert a * (k * f) == 1000.0;
    assert (a * k) * f == a * (k * f);
    assert b * f == 1000.0;
    Cancel(a * k, b, f);
  }

  lemma Cancel(x: real, y: real, f: real)
    requires f != 0.0 && x * f == y * f
    ensures x == y
  {
    assert (x - y) * f == 0.0;
  }
}
