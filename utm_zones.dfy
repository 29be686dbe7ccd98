/**
 * The exact rules of the UTM grid that surround the projection: longitude
 * normalisation, zone numbers with the Norway and Svalbard exceptions, zone
 * central meridians and the 8-degree latitude-band letters. These are the
 * static helpers of the latitude/longitude point class.
 */
module UTMZones {
  import opened Wrappers

  /** PHP's `(integer)` cast of a float: truncation toward zero. */
  function Trunc(x: real): (r: int)
    ensures x >= 0.0 ==> 0 <= r && r as real <= x < r as real + 1.0
    ensures x < 0.0 ==> r <= 0 && r as real - 1.0 < x <= r as real
  {
    if x >= 0.0 then x.Floor else -((-x).Floor)
  }

  predicate IsWhole(x: real) { x.Floor as real == x }

  /**
   * Brings a longitude into [-180, 180) by removing whole turns; the result
   * always differs from the input by a whole multiple of 360. Because the cast
   * truncates toward zero, longitudes below -180 are not brought up.
   */
  function SanitizeLongitude(lon: real): (r: real)
    ensures lon >= -180.0 ==> -180.0 <= r < 180.0
    ensures lon < -180.0 ==> -540.0 < r <= -180.0
    ensures IsWhole((lon - r) / 360.0)
    ensures -180.0 <= lon < 180.0 ==> r == lon
    ensures lon == 180.0 ==> r == -180.0
  {
    var t := Trunc((lon + 180.0) / 360.0);
    assert (lon - ((lon + 180.0) - (t * 360) as real - 180.0)) / 360.0 == t as real;
    (lon + 180.0) - (t * 360) as real - 180.0
  }

  /**
   * Longitude normalisation by floor division, which brings every longitude
   * into [-180, 180); it agrees with SanitizeLongitude from -180 upwards.
   */
  function SanitizeLongitudeFloor(lon: real): (r: real)
    ensures -180.0 <= r < 180.0
    ensures IsWhole((lon - r) / 360.0)
    ensures lon >= -180.0 ==> r == SanitizeLongitude(lon)
  {
    var t := ((lon + 180.0) / 360.0).Floor;
    assert (lon - ((lon + 180.0) - (t * 360) as real - 180.0)) / 360.0 == t as real;
    (lon + 180.0) - (t * 360) as real - 180.0
  }

  /** The sanitiser as written leaves longitudes below -180 out of range: -190 stays -190. */
  lemma SanitizeBelowRange()
    ensures SanitizeLongitude(-190.0) == -190.0
    ensures SanitizeLongitudeFloor(-190.0) == 170.0
  {
    assert Trunc(-10.0 / 360.0) == 0;
    assert ((-10.0) / 360.0).Floor == -1;
  }

  /**
   * The base zone number: zone n covers the 6-degree strip
   * [6(n-1) - 180, 6n - 180). At exactly 180 the strip is "zone 61", and
   * truncation puts (-186, -180) into zone 1 as well.
   */
  function CalculateUTMZoneNumber(lon: real): (r: int)
    ensures lon >= -180.0 ==> (6 * (r - 1) - 180) as real <= lon < (6 * r - 180) as real
    ensures -180.0 <= lon < 180.0 ==> 1 <= r <= 60
    ensures lon == 180.0 ==> r == 61
    ensures -186.0 < lon < -180.0 ==> r == 1
  {
    Trunc((lon + 180.0) / 6.0) + 1
  }

  /** The Norway exception region, where zone 32 is widened. */
  predicate ZoneIs32(lat: real, lon: real) {
    lat >= 56.0 && lat < 64.0 && lon >= 3.0 && lon < 12.0
  }

  /** The Svalbard latitude band. */
  predicate ZoneIsSvalbard(lat: real) {
    lat >= 72.0 && lat < 84.0
  }

  /**
   * The Svalbard zones: 31, 33, 35 and 37, each the odd zone whose 12-degree
   * window around its central meridian holds the longitude. No zone is
   * assigned outside [0, 42).
   */
  function GetSvalbardZone(lon: real): (r: Option<int>)
    ensures r.Some? <==> 0.0 <= lon < 42.0
    ensures r.Some? ==> r.value in {31, 33, 35, 37}
    ensures r.Some? ==> (LongitudeOfOrigin(r.value) - 6) as real <= lon < (LongitudeOfOrigin(r.value) + 6) as real
  {
    if lon >= 0.0 && lon < 9.0 then Some(31)
    else if lon >= 9.0 && lon < 21.0 then Some(33)
    else if lon >= 21.0 && lon < 33.0 then Some(35)
    else if lon >= 33.0 && lon < 42.0 then Some(37)
    else None
  }

  /**
   * The zone number of a point: the base zone, overridden to 32 in the Norway
   * region and by the Svalbard zone in the Svalbard band (where it may be
   * undefined).
   */
  function ZoneNumber(lat: real, lon: real): (r: Option<int>)
    ensures !ZoneIsSvalbard(lat) ==> r.Some?
    ensures ZoneIsSvalbard(lat) ==> (r.Some? <==> 0.0 <= lon < 42.0)
    ensures r.Some? && -180.0 <= lon < 180.0 ==> 1 <= r.value <= 60
    ensures r.Some? && lon >= -180.0 ==>
              (LongitudeOfOrigin(r.value) - 6) as real <= lon < (LongitudeOfOrigin(r.value) + 6) as real
  {
    var zone := Some(CalculateUTMZoneNumber(lon));
    var zone := if ZoneIs32(lat, lon) then Some(32) else zone;
    if ZoneIsSvalbard(lat) then GetSvalbardZone(lon) else zone
  }

  /** The central meridian of zone n (3 degrees into its strip). */
  function LongitudeOfOrigin(n: int): int
  {
    (n - 1) * 6 - 180 + 3
  }

  /** The 20 band letters from south to north; I and O are not used. */
  const Letters: string := "CDEFGHJKLMNPQRSTUVWX"

  /** The band letters: C to X without I and O. */
  predicate IsBandLetter(c: char) { 'C' <= c <= 'X' && c != 'I' && c != 'O' }

  /**
   * The latitude-band letter: 8-degree bands from C at [-80, -72) to X, which
   * alone is 12 degrees wide and closed at both ends, [72, 84]; 'Z' flags a
   * latitude outside [-80, 84].
   */
  function UTMLetterDesignator(lat: real): (r: char)
    ensures r == 'Z' <==> !(-80.0 <= lat <= 84.0)
    ensures r == 'X' <==> 72.0 <= lat <= 84.0
    ensures r != 'Z' ==> IsBandLetter(r)
  {
    if 84.0 >= lat && lat >= 72.0 then 'X'
    else if 72.0 > lat && lat >= 64.0 then 'W'
    else if 64.0 > lat && lat >= 56.0 then 'V'
    else if 56.0 > lat && lat >= 48.0 then 'U'
    else if 48.0 > lat && lat >= 40.0 then 'T'
    else if 40.0 > lat && lat >= 32.0 then 'S'
    else if 32.0 > lat && lat >= 24.0 then 'R'
    else if 24.0 > lat && lat >= 16.0 then 'Q'
    else if 16.0 > lat && lat >= 8.0 then 'P'
    else if 8.0 > lat && lat >= 0.0 then 'N'
    else if 0.0 > lat && lat >= -8.0 then 'M'
    else if -8.0 > lat && lat >= -16.0 then 'L'
    else if -16.0 > lat && lat >= -24.0 then 'K'
    else if -24.0 > lat && lat >= -32.0 then 'J'
    else if -32.0 > lat && lat >= -40.0 then 'H'
    else if -40.0 > lat && lat >= -48.0 then 'G'
    else if -48.0 > lat && lat >= -56.0 then 'F'
    else if -56.0 > lat && lat >= -64.0 then 'E'
    else if -64.0 > lat && lat >= -72.0 then 'D'
    else if -72.0 > lat && lat >= -80.0 then 'C'
    else 'Z'
  }

  // ---------------------------------------------------------------------------
  // Reference definition of the latitude bands

  /** Southern edge of band k (0 is C, 19 is X). */
  function BandLow(k: int): real { (-80 + 8 * k) as real }

  /** Northern edge of band k; X reaches 84. */
  function BandHigh(k: int): real { if k == 19 then 84.0 else (-72 + 8 * k) as real }

  /** Which of the 20 bands a latitude in [-80, 84] falls in, by arithmetic. */
  function BandIndex(lat: real): (k: int)
    requires -80.0 <= lat <= 84.0
    ensures 0 <= k < 20
    ensures BandLow(k) <= lat < BandHigh(k) || (k == 19 && lat == 84.0)
  {
    var k := ((lat + 80.0) / 8.0).Floor;
    if k > 19 then 19 else k
  }

  lemma BandIndexMonotone(x: real, y: real)
    requires -80.0 <= x <= y <= 84.0
    ensures BandIndex(x) <= BandIndex(y)
  {
    assert (x + 80.0) / 8.0 <= (y + 80.0) / 8.0;
  }

  lemma LettersIncreasing()
    ensures |Letters| == 20
    ensures forall i, j :: 0 <= i < j < |Letters| ==> Letters[i] < Letters[j]
    ensures forall i :: 0 <= i < |Letters| ==> IsBandLetter(Letters[i])
  {
  }

  /** A latitude in band k gets letter k. */
  lemma DesignatorInBand(lat: real, k: int)
    requires 0 <= k < 20
    requires BandLow(k) <= lat < BandHigh(k) || (k == 19 && lat == 84.0)
    ensures UTMLetterDesignator(lat) == Letters[k]
  {
    if k == 0 { assert Letters[0] == 'C'; }
    else if k == 1 { assert Letters[1] == 'D'; }
    else if k == 2 { assert Letters[2] == 'E'; }
    else if k == 3 { assert Letters[3] == 'F'; }
    else if k == 4 { assert Letters[4] == 'G'; }
    else if k == 5 { assert Letters[5] == 'H'; }
    else if k == 6 { assert Letters[6] == 'J'; }
    else if k == 7 { assert Letters[7] == 'K'; }
    else if k == 8 { assert Letters[8] == 'L'; }
    else if k == 9 { assert Letters[9] == 'M'; }
    else if k == 10 { assert Letters[10] == 'N'; }
    else if k == 11 { assert Letters[11] == 'P'; }
    else if k == 12 { assert Letters[12] == 'Q'; }
    else if k == 13 { assert Letters[13] == 'R'; }
    else if k == 14 { assert Letters[14] == 'S'; }
    else if k == 15 { assert Letters[15] == 'T'; }
    else if k == 16 { assert Letters[16] == 'U'; }
    else if k == 17 { assert Letters[17] == 'V'; }
    else if k == 18 { assert Letters[18] == 'W'; }
    else if k == 19 { assert Letters[19] == 'X'; }
  }

  /** The if-chain of the designator agrees with the arithmetic band index everywhere. */
  lemma DesignatorIsBandLetter(lat: real)
    ensures UTMLetterDesignator(lat) == if -80.0 <= lat <= 84.0 then Letters[BandIndex(lat)] else 'Z'
  {
    if -80.0 <= lat <= 84.0 {
      DesignatorInBand(lat, BandIndex(lat));
    }
  }

  /** Letter k of the table designates exactly band k. */
  lemma LetterBand(lat: real, k: int)
    requires 0 <= k < 20
    ensures UTMLetterDesignator(lat) == Letters[k] <==> BandLow(k) <= lat < BandHigh(k) || (k == 19 && lat == 84.0)
  {
    DesignatorIsBandLetter(lat);
    LettersIncreasing();
    if -80.0 <= lat <= 84.0 {
      var j := BandIndex(lat);
      if BandLow(k) <= lat < BandHigh(k) || (k == 19 && lat == 84.0) {
        assert j == k;
      } else {
        assert j != k;
      }
    }
  }

  /** Within the UTM limits, the band letter never decreases as latitude grows. */
  lemma DesignatorMonotone(x: real, y: real)
    requires -80.0 <= x <= y <= 84.0
    ensures UTMLetterDesignator(x) <= UTMLetterDesignator(y)
  {
    DesignatorIsBandLetter(x);
    DesignatorIsBandLetter(y);
    BandIndexMonotone(x, y);
    LettersIncreasing();
  }

  // ---------------------------------------------------------------------------
  // Zone numbers

  /** Zone n's central meridian lies in zone n's own strip. */
  lemma CentralMeridianRoundTrip(n: int)
    requires 1 <= n <= 60
    ensures -177 <= LongitudeOfOrigin(n) <= 177
    ensures CalculateUTMZoneNumber(LongitudeOfOrigin(n) as real) == n
  {
    var z := CalculateUTMZoneNumber(LongitudeOfOrigin(n) as real);
    assert 6 * (z - 1) - 180 <= LongitudeOfOrigin(n) < 6 * z - 180;
  }

  /** Every sanitised longitude is within 3 degrees of its base zone's central meridian. */
  lemma CentralMeridianNear(lon: real)
    requires -180.0 <= lon < 180.0
    ensures (LongitudeOfOrigin(CalculateUTMZoneNumber(lon)) - 3) as real <= lon < (LongitudeOfOrigin(CalculateUTMZoneNumber(lon)) + 3) as real
  {
  }

  /** The Norway region is zone 32. */
  lemma NorwayOverride(lat: real, lon: real)
    requires 56.0 <= lat < 64.0 && 3.0 <= lon < 12.0
    ensures ZoneNumber(lat, lon) == Some(32)
  {
  }

  /** The Svalbard band is split into zones 31, 33, 35 and 37 and nothing else. */
  lemma SvalbardOverride(lat: real, lon: real)
    requires 72.0 <= lat < 84.0
    ensures 0.0 <= lon < 9.0 ==> ZoneNumber(lat, lon) == Some(31)
    ensures 9.0 <= lon < 21.0 ==> ZoneNumber(lat, lon) == Some(33)
    ensures 21.0 <= lon < 33.0 ==> ZoneNumber(lat, lon) == Some(35)
    ensures 33.0 <= lon < 42.0 ==> ZoneNumber(lat, lon) == Some(37)
    ensures !(0.0 <= lon < 42.0) ==> ZoneNumber(lat, lon) == None
  {
  }

  /** Away from both exceptions the zone is the base zone. */
  lemma NoException(lat: real, lon: real)
    requires !ZoneIs32(lat, lon) && !ZoneIsSvalbard(lat)
    ensures ZoneNumber(lat, lon) == Some(CalculateUTMZoneNumber(lon))
  {
  }

  /** The fixture point of the tests lies in zone 10, band S. */
  lemma FixtureZone()
    ensures ZoneNumber(37.42104, -121.85831) == Some(10)
    ensures UTMLetterDesignator(37.42104) == 'S'
    ensures ZoneNumber(60.0, 5.0) == Some(32)
    ensures ZoneNumber(75.0, 10.0) == Some(33)
  {
  }

  /**
   * Re-deriving the zone from its own central meridian gives the zone back,
   * except in the Norway band west of 3E, where zone 31's meridian falls in
   * the zone 32 extension.
   */
  lemma ZoneAtOwnMeridian(lat: real, lon: real)
    requires -180.0 <= lon < 180.0 && ZoneNumber(lat, lon).Some?
    ensures var z := ZoneNumber(lat, lon).value;
            ZoneNumber(lat, LongitudeOfOrigin(z) as real) == Some(z) <==> !(56.0 <= lat < 64.0 && 0.0 <= lon < 3.0)
  {
    var z := ZoneNumber(lat, lon).value;
    var m := LongitudeOfOrigin(z) as real;
    if ZoneIsSvalbard(lat) {
      assert z == 31 || z == 33 || z == 35 || z == 37;
    } else {
      var b := CalculateUTMZoneNumber(lon);
      CentralMeridianRoundTrip(b);
      if ZoneIs32(lat, lon) {
        assert z == 32 && m == 9.0;
      } else if 56.0 <= lat < 64.0 && 0.0 <= lon < 3.0 {
        assert b == 31 && m == 3.0;
      } else {
        assert z == b;
        CentralMeridianRoundTrip(z);
      }
    }
  }
}
