/** The static country-centroid table of InfoPhone.py and its lookup with a
    default. Coordinates are decimal degrees, exactly as written in the table. */
module Centroids {

  /** A (latitude, longitude) pair in degrees. */
  datatype Coord = Coord(lat: real, lon: real)

  /** The point `(0.0, 0.0)` used for every region the table does not list. */
  const Origin := Coord(0.0, 0.0)

  // `COUNTRY_CENTROIDS` is one dictionary literal; it is written here as the
  // union of three literals with disjoint keys, which is the same map, so that
  // the verifier can unfold each part.

  /** The first entries of the table, US to RU. */
  const OriginalCentroidsA: map<string, Coord> := map[
    "US" := Coord(39.8283, -98.5795),
    "CA" := Coord(56.1304, -106.3468),
    "MX" := Coord(23.6345, -102.5528),
    "BR" := Coord(-14.2350, -51.9253),
    "AR" := Coord(-38.4161, -63.6167),
    "CO" := Coord(4.7110, -74.0721),
    "PE" := Coord(-9.1900, -75.0152),
    "CL" := Coord(-35.6751, -71.5430),
    "EC" := Coord(-1.8312, -78.1834),
    "VE" := Coord(6.4238, -66.5897),
    "GB" := Coord(55.3781, -3.4360),
    "FR" := Coord(46.2276, 2.2137),
    "DE" := Coord(51.1657, 10.4515),
    "ES" := Coord(40.4637, -3.7492),
    "IT" := Coord(41.8719, 12.5674),
    "PT" := Coord(39.3999, -8.2245),
    "NL" := Coord(52.1326, 5.2913),
    "BE" := Coord(50.5039, 4.4699),
    "SE" := Coord(60.1282, 18.6435),
    "NO" := Coord(60.4720, 8.4689),
    "FI" := Coord(61.9241, 25.7482),
    "RU" := Coord(61.5240, 105.3188)
  ]

  /** The remaining original entries, UA to IR. */
  const OriginalCentroidsB: map<string, Coord> := map[
    "UA" := Coord(48.3794, 31.1656),
    "PL" := Coord(51.9194, 19.1451),
    "RO" := Coord(45.9432, 24.9668),
    "TR" := Coord(38.9637, 35.2433),
    "CN" := Coord(35.8617, 104.1954),
    "JP" := Coord(36.2048, 138.2529),
    "KR" := Coord(35.9078, 127.7669),
    "IN" := Coord(20.5937, 78.9629),
    "PK" := Coord(30.3753, 69.3451),
    "ID" := Coord(-0.7893, 113.9213),
    "AU" := Coord(-25.2744, 133.7751),
    "NZ" := Coord(-40.9006, 174.8860),
    "ZA" := Coord(-30.5595, 22.9375),
    "EG" := Coord(26.8206, 30.8025),
    "NG" := Coord(9.0820, 8.6753),
    "KE" := Coord(0.0236, 37.9062),
    "MA" := Coord(31.7917, -7.0926),
    "SA" := Coord(23.8859, 45.0792),
    "AE" := Coord(23.4241, 53.8478),
    "IR" := Coord(32.4279, 53.6880)
  ]

  /** The entries added below the comment in the table, UY to BH. */
  const AddedCentroids: map<string, Coord> := map[
    "UY" := Coord(-32.5228, -55.7658),
    "PY" := Coord(-23.4425, -58.4438),
    "BO" := Coord(-16.2902, -63.5887),
    "DK" := Coord(56.2639, 9.5018),
    "IS" := Coord(64.9631, -19.0208),
    "IE" := Coord(53.1424, -7.6921),
    "GR" := Coord(39.0742, 23.8093),
    "BG" := Coord(42.7339, 25.4858),
    "HR" := Coord(45.1000, 15.2000),
    "RS" := Coord(44.0165, 21.0059),
    "BD" := Coord(23.6850, 90.3563),
    "TH" := Coord(15.8700, 100.9925),
    "VN" := Coord(14.0583, 108.2772),
    "MY" := Coord(4.2105, 101.9758),
    "SG" := Coord(1.3521, 103.8198),
    "PH" := Coord(12.8797, 121.7740),
    "DZ" := Coord(28.0339, 1.6596),
    "TN" := Coord(33.8869, 9.5375),
    "IQ" := Coord(33.2232, 43.6793),
    "IL" := Coord(31.0461, 34.8516),
    "JO" := Coord(30.5852, 36.2384),
    "LB" := Coord(33.8547, 35.8623),
    "SY" := Coord(34.8021, 38.9968),
    "QA" := Coord(25.3548, 51.1839),
    "KW" := Coord(29.3117, 47.4818),
    "OM" := Coord(21.4735, 55.9754),
    "BH" := Coord(25.9304, 50.6378)
  ]

  /** `COUNTRY_CENTROIDS`: ISO 3166 alpha-2 region code to an approximate centroid. */
  const CountryCentroids: map<string, Coord> := OriginalCentroidsA + OriginalCentroidsB + AddedCentroids

  /** `COUNTRY_CENTROIDS.get(region, (0.0, 0.0))`. */
  function CentroidFor(region: string): (c: Coord)
    ensures region in CountryCentroids ==> c == CountryCentroids[region]
    ensures region !in CountryCentroids ==> c == Origin
  {
    if region in CountryCentroids then CountryCentroids[region] else Origin
  }

  /** A latitude and longitude within the usual ranges. */
  predicate OnGlobe(c: Coord) {
    -90.0 <= c.lat <= 90.0 && -180.0 <= c.lon <= 180.0
  }

  lemma OriginalCentroidsAOnGlobe()
    ensures forall r | r in OriginalCentroidsA :: OnGlobe(OriginalCentroidsA[r])
  {
  }

  lemma OriginalCentroidsBOnGlobe()
    ensures forall r | r in OriginalCentroidsB :: OnGlobe(OriginalCentroidsB[r])
  {
  }

  lemma AddedCentroidsOnGlobe()
    ensures forall r | r in AddedCentroids :: OnGlobe(AddedCentroids[r])
  {
  }

  /** Every centroid the lookup can return, the default included, is a point
      on the globe. */
  lemma CentroidsOnGlobe(region: string)
    ensures OnGlobe(CentroidFor(region))
  {
    OriginalCentroidsAOnGlobe();
    OriginalCentroidsBOnGlobe();
    AddedCentroidsOnGlobe();
  }

  /** The placeholder region of a number whose region is unknown has no table
      entry, so such a number is placed at the origin. */
  lemma UnknownRegionAtOrigin()
    ensures "UNKNOWN" !in CountryCentroids
    ensures CentroidFor("UNKNOWN") == Origin
  {
    UnknownNotInA();
    UnknownNotInB();
    UnknownNotInAdded();
  }

  // One lemma per part of the table keeps each proof small.

  lemma UnknownNotInA()
    ensures "UNKNOWN" !in OriginalCentroidsA
  {
  }

  lemma UnknownNotInB()
    ensures "UNKNOWN" !in OriginalCentroidsB
  {
  }

  lemma UnknownNotInAdded()
    ensures "UNKNOWN" !in AddedCentroids
  {
  }
}
