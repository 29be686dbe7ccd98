/**
 * A point in Universal (or Local) Transverse Mercator coordinates: easting
 * and northing in metres plus the zone bookkeeping needed to invert it.
 */
module UTM {
  import opened Wrappers
  import opened DecimalText
  import opened GeographicPoint
  import opened UTMZones
  import opened Geodetic

  /** The false easting of standard UTM, in metres. */
  const FalseEasting: real := 500000.0

  /** The offset added to southern-hemisphere northings, in metres. */
  const SouthernOffset: real := 10000000.0

  datatype UTMPoint = UTMPoint(
    easting: real,
    northing: real,
    zone: string,
    latitudeOfOrigin: real,
    longitudeOfOrigin: real,
    datum: Ellipsoid)

  /** The constructor's zone argument: a designator such as "10S", or an explicit origin. */
  datatype ZoneSpec =
    | ZoneString(designator: string)
    | Origin(latitudeOfOrigin: real, longitudeOfOrigin: real)

  /** The central meridian of zone n, as the UTM class computes it. */
  function CalculateLongitudeOfOrigin(n: int): (r: int)
    ensures r == LongitudeOfOrigin(n)
  {
    (n - 1) * 6 - 180 + 3
  }

  /**
   * Despite its name, maps a zone letter to the latitude at the middle of its
   * band; any other character is an error.
   */
  function LatitudeToZoneLetter(letter: char): (r: Result<real, Error>)
    ensures r.Success? <==> IsBandLetter(letter)
    ensures r.Failure? ==> r.error == InvalidZoneLetter([letter])
    ensures r.Success? ==> UTMLetterDesignator(r.value) == letter
    ensures r.Success? ==> -80.0 <= r.value <= 84.0 && r.value == MidBand(BandIndex(r.value))
  {
    match letter
    case 'X' => Success((84.0 + 72.0) / 2.0)
    case 'W' => Success((72.0 + 64.0) / 2.0)
    case 'V' => Success((64.0 + 56.0) / 2.0)
    case 'U' => Success((56.0 + 48.0) / 2.0)
    case 'T' => Success((48.0 + 40.0) / 2.0)
    case 'S' => Success((40.0 + 32.0) / 2.0)
    case 'R' => Success((32.0 + 24.0) / 2.0)
    case 'Q' => Success((24.0 + 16.0) / 2.0)
    case 'P' => Success((16.0 + 8.0) / 2.0)
    case 'N' => Success((8.0 + 0.0) / 2.0)
    case 'M' => Success((0.0 - 8.0) / 2.0)
    case 'L' => Success((-8.0 - 16.0) / 2.0)
    case 'K' => Success((-16.0 - 24.0) / 2.0)
    case 'J' => Success((-24.0 - 32.0) / 2.0)
    case 'H' => Success((-32.0 - 40.0) / 2.0)
    case 'G' => Success((-40.0 - 48.0) / 2.0)
    case 'F' => Success((-48.0 + -56.0) / 2.0)
    case 'E' => Success((-56.0 - 64.0) / 2.0)
    case 'D' => Success((-64.0 - 72.0) / 2.0)
    case 'C' => Success((-72.0 - 80.0) / 2.0)
    case _ => Failure(InvalidZoneLetter([letter]))
  }

  /** The latitude halfway between the edges of band k. */
  function MidBand(k: int): real { (BandLow(k) + BandHigh(k)) / 2.0 }

  /** Every band letter maps to the midpoint of its band. */
  lemma LetterMidBand(k: int)
    requires 0 <= k < 20
    ensures LatitudeToZoneLetter(Letters[k]) == Success(MidBand(k))
  {
    if k < 5 { MidBandC(k); }
    else if k < 10 { MidBandH(k); }
    else if k < 15 { MidBandN(k); }
    else { MidBandT(k); }
  }

  lemma MidBandC(k: int)
    requires 0 <= k < 5
    ensures LatitudeToZoneLetter(Letters[k]) == Success(MidBand(k))
  {
    if k == 0 { assert Letters[0] == 'C'; }
    else if k == 1 { assert Letters[1] == 'D'; }
    else if k == 2 { assert Letters[2] == 'E'; }
    else if k == 3 { assert Letters[3] == 'F'; }
    else if k == 4 { assert Letters[4] == 'G'; }
  }

  lemma MidBandH(k: int)
    requires 5 <= k < 10
    ensures LatitudeToZoneLetter(Letters[k]) == Success(MidBand(k))
  {
    if k == 5 { assert Letters[5] == 'H'; }
    else if k == 6 { assert Letters[6] == 'J'; }
    else if k == 7 { assert Letters[7] == 'K'; }
    else if k == 8 { assert Letters[8] == 'L'; }
    else if k == 9 { assert Letters[9] == 'M'; }
  }

  lemma MidBandN(k: int)
    requires 10 <= k < 15
    ensures LatitudeToZoneLetter(Letters[k]) == Success(MidBand(k))
  {
    if k == 10 { assert Letters[10] == 'N'; }
    else if k == 11 { assert Letters[11] == 'P'; }
    else if k == 12 { assert Letters[12] == 'Q'; }
    else if k == 13 { assert Letters[13] == 'R'; }
    else if k == 14 { assert Letters[14] == 'S'; }
  }

  lemma MidBandT(k: int)
    requires 15 <= k < 20
    ensures LatitudeToZoneLetter(Letters[k]) == Success(MidBand(k))
  {
    if k == 15 { assert Letters[15] == 'T'; }
    else if k == 16 { assert Letters[16] == 'U'; }
    else if k == 17 { assert Letters[17] == 'V'; }
    else if k == 18 { assert Letters[18] == 'W'; }
    else if k == 19 { assert Letters[19] == 'X'; }
  }

  /**
   * a sorts before b at position k: the two agree on their first k
   * characters, and there a is either exhausted or has the smaller one.
   */
  ghost predicate LessAt(a: string, b: string, k: int)
  {
    0 <= k <= |a| && k < |b| && a[..k] == b[..k] && (k == |a| || a[k] < b[k])
  }

  /** PHP's `<` on two non-numeric strings: byte-wise lexicographic order. */
  function StrLess(a: string, b: string): (r: bool)
    ensures r <==> exists k :: LessAt(a, b, k)
  {
    if |b| == 0 then false
    else if |a| == 0 then assert LessAt(a, b, 0); true
    else if a[0] != b[0] then
      if a[0] < b[0] then assert LessAt(a, b, 0); true
      else FirstDifference(a, b); false
    else
      CommonHead(a, b);
      StrLess(a[1..], b[1..])
  }

  /** Two strings that differ in their first character, with a's the larger, are not lexicographically less. */
  lemma FirstDifference(a: string, b: string)
    requires |a| > 0 && |b| > 0 && a[0] > b[0]
    ensures !exists k :: LessAt(a, b, k)
  {
  }

  /** A common first character does not decide the order: it is decided by the tails. */
  lemma CommonHead(a: string, b: string)
    requires |a| > 0 && |b| > 0 && a[0] == b[0]
    ensures (exists k :: LessAt(a, b, k)) <==> (exists k :: LessAt(a[1..], b[1..], k))
  {
    if k :| LessAt(a, b, k) {
      assert k > 0;
      assert a[1..][..k - 1] == a[..k][1..];
      assert b[1..][..k - 1] == b[..k][1..];
      assert LessAt(a[1..], b[1..], k - 1);
    }
    if k :| LessAt(a[1..], b[1..], k) {
      assert a[..k + 1] == [a[0]] + a[1..][..k];
      assert b[..k + 1] == [b[0]] + b[1..][..k];
      assert LessAt(a, b, k + 1);
    }
  }

  /** A zone letter denotes the southern hemisphere when it sorts before "N". */
  function IsSouthernHemisphere(letter: string): (r: bool)
    ensures r <==> |letter| == 0 || letter[0] < 'N'
  {
    StrLessOneChar(letter, 'N');
    StrLess(letter, "N")
  }

  lemma StrLessOneChar(a: string, c: char)
    ensures StrLess(a, [c]) <==> |a| == 0 || a[0] < c
  {
    if |a| > 0 && a[0] == c { assert [c][1..] == []; }
  }

  /** Among the band letters, exactly C..M (the first ten) are southern; 'Z' is northern. */
  lemma SouthernLetters(k: int)
    requires 0 <= k < 20
    ensures IsSouthernHemisphere([Letters[k]]) <==> k < 10
    ensures !IsSouthernHemisphere("Z")
  {
    LettersIncreasing();
    assert Letters[10] == 'N' && Letters[9] == 'M';
  }

  /** Within the UTM limits the designated letter is southern exactly for negative latitudes. */
  lemma SouthernIffNegativeLatitude(lat: real)
    requires -80.0 <= lat <= 84.0
    ensures IsSouthernHemisphere([UTMLetterDesignator(lat)]) <==> lat < 0.0
  {
    DesignatorIsBandLetter(lat);
    var k := BandIndex(lat);
    SouthernLetters(k);
  }

  /** The zone designator: the decimal zone number (nothing when undefined) and the band letter. */
  function FormatZone(number: Option<int>, letter: char): string
  {
    (if number.Some? then IntToString(number.value) else "") + [letter]
  }

  /** The designator the UTM class derives from an origin. */
  function Zone(lat: real, lon: real): string
  {
    FormatZone(ZoneNumber(lat, lon), UTMLetterDesignator(lat))
  }

  /** The letter that `sscanf("%d%s")` reads from the designator. */
  function ZoneLetter(p: UTMPoint): Option<string>
  {
    ScanZone(p.zone).letter
  }

  /** The number that `sscanf("%d%s")` reads from the designator. */
  function ZoneNumberOf(p: UTMPoint): Option<int>
  {
    ScanZone(p.zone).number
  }

  /** A lone band letter holds no number for `%d`. */
  lemma ScanZoneOfLetter(c: char)
    requires c == 'Z' || IsBandLetter(c)
    ensures ScanZone([c]) == ZoneFields(None, None)
  {
    assert [c][0..] == [c];
  }

  /** Every designator the class derives reads back as its zone number and letter. */
  lemma ScanDerivedZone(lat: real, lon: real)
    ensures ScanZone(Zone(lat, lon)) ==
              if ZoneNumber(lat, lon).Some? then ZoneFields(ZoneNumber(lat, lon), Some([UTMLetterDesignator(lat)]))
              else ZoneFields(None, None)
  {
    var c := UTMLetterDesignator(lat);
    assert !IsDigit(c) && !IsSpace(c);
    match ZoneNumber(lat, lon)
    case Some(n) => ScanZoneOfFormatted(n, [c]);
    case None =>
      assert Zone(lat, lon) == [c];
      ScanZoneOfLetter(c);
  }

  /**
   * The array variant of the constructor: the origin is stored as given and
   * the designator is re-derived from it.
   */
  function FromOrigin(easting: real, northing: real, lat: real, lon: real, datum: Ellipsoid): (p: UTMPoint)
    ensures p.easting == easting && p.northing == northing && p.datum == datum
    ensures p.latitudeOfOrigin == lat && p.longitudeOfOrigin == lon
    ensures ZoneNumberOf(p) == ZoneNumber(lat, lon)
    ensures ZoneNumber(lat, lon).Some? ==> ZoneLetter(p) == Some([UTMLetterDesignator(lat)])
    ensures ZoneNumber(lat, lon).None? ==> p.zone == [UTMLetterDesignator(lat)]
  {
    ScanDerivedZone(lat, lon);
    UTMPoint(easting, northing, Zone(lat, lon), lat, lon, datum)
  }

  /** The mid-band latitude named by the last character of a designator. */
  function ZoneLetterLatitude(zone: string): (r: Result<real, Error>)
    ensures r.Success? <==> |zone| > 0 && IsBandLetter(zone[|zone| - 1])
    ensures r.Success? ==> UTMLetterDesignator(r.value) == zone[|zone| - 1]
    ensures r.Success? ==> -80.0 <= r.value <= 84.0 && r.value == MidBand(BandIndex(r.value))
    ensures r.Failure? ==> r.error == InvalidZoneLetter(if |zone| == 0 then "" else [zone[|zone| - 1]])
  {
    if |zone| == 0 then Failure(InvalidZoneLetter("")) else LatitudeToZoneLetter(zone[|zone| - 1])
  }

  /**
   * The string variant of the constructor: the designator is stored as given,
   * the latitude of origin is the middle of the last character's band and the
   * longitude of origin the centre of the leading integer's zone.
   */
  function FromZoneString(easting: real, northing: real, zone: string, datum: Ellipsoid): (r: Result<UTMPoint, Error>)
    ensures r.Success? <==> |zone| > 0 && IsBandLetter(zone[|zone| - 1])
    ensures r.Failure? ==> r.error == ZoneLetterLatitude(zone).error
    ensures r.Success? ==> r.value.easting == easting && r.value.northing == northing
    ensures r.Success? ==> r.value.zone == zone && r.value.datum == datum
    ensures r.Success? ==> r.value.longitudeOfOrigin == LongitudeOfOrigin(IntVal(zone)) as real
    ensures r.Success? ==> UTMLetterDesignator(r.value.latitudeOfOrigin) == zone[|zone| - 1]
    ensures r.Success? ==>
              var lat := r.value.latitudeOfOrigin;
              -80.0 <= lat <= 84.0 && lat == MidBand(BandIndex(lat))
  {
    match ZoneLetterLatitude(zone)
    case Failure(err) => Failure(err)
    case Success(lat) =>
      Success(UTMPoint(easting, northing, zone, lat, CalculateLongitudeOfOrigin(IntVal(zone)) as real, datum))
  }

  /** A designator "nL" as the library writes it gives back zone n's meridian, n and L. */
  lemma FromZoneStringOfFormatted(easting: real, northing: real, n: int, letter: char, datum: Ellipsoid)
    requires IsBandLetter(letter)
    ensures FromZoneString(easting, northing, IntToString(n) + [letter], datum).Success?
    ensures var p := FromZoneString(easting, northing, IntToString(n) + [letter], datum).value;
            p.longitudeOfOrigin == LongitudeOfOrigin(n) as real
            && ZoneNumberOf(p) == Some(n) && ZoneLetter(p) == Some([letter])
  {
    assert !IsDigit(letter) && !IsSpace(letter);
    assert (IntToString(n) + [letter])[|IntToString(n) + [letter]| - 1] == letter;
    ScanZoneOfFormatted(n, [letter]);
  }

  /**
   * The full constructor: the zone argument is processed first (an invalid
   * letter is fatal), then the datum is selected.
   */
  function NewUTM(easting: real, northing: real, zone: ZoneSpec, datum: string): (r: Result<UTMPoint, Error>)
    ensures zone.ZoneString? && ZoneLetterLatitude(zone.designator).Failure? ==>
              r == Failure(ZoneLetterLatitude(zone.designator).error)
    ensures (zone.Origin? || ZoneLetterLatitude(zone.designator).Success?) && SelectDatum(datum).Failure? ==>
              r == Failure(UnknownDatum(datum))
    ensures (zone.Origin? || ZoneLetterLatitude(zone.designator).Success?) && SelectDatum(datum).Success? ==>
              r.Success?
    ensures r.Success? && zone.ZoneString? ==>
              r == FromZoneString(easting, northing, zone.designator, SelectDatum(datum).value)
    ensures r.Success? && zone.Origin? ==>
              SelectDatum(datum).Success? &&
              r.value == FromOrigin(easting, northing, zone.latitudeOfOrigin, zone.longitudeOfOrigin, SelectDatum(datum).value)
  {
    match zone
    case ZoneString(s) =>
      (match ZoneLetterLatitude(s)
       case Failure(err) => Failure(err)
       case Success(_) =>
         match SelectDatum(datum)
         case Failure(err) => Failure(err)
         case Success(e) => FromZoneString(easting, northing, s, e))
    case Origin(lat, lon) =>
      match SelectDatum(datum)
      case Failure(err) => Failure(err)
      case Success(e) => Success(FromOrigin(easting, northing, lat, lon, e))
  }

  // ---------------------------------------------------------------------------
  // Inverse projection

  /** The latitude and the longitude offset from the origin, in degrees. */
  datatype Geo = Geo(latitude: real, longitudeOffset: real)

  /** The inverse transverse-Mercator series: (a, e2, x, y) to latitude and longitude offset. */
  type InverseSeries = (int, real, real, real) -> Geo

  /** The plane coordinates the inverse series is fed, and the origin the offset is added to. */
  datatype SeriesInput = SeriesInput(x: real, y: real, origin: real)

  /**
   * The offset and mode handling of the inverse: with no origin (standard UTM)
   * the false easting is removed, the southern offset is removed when the
   * zone letter sorts before "N", and the stored origin is used; with an
   * origin (local TM) neither offset is removed.
   */
  function InverseInput(p: UTMPoint, longOrigin: Option<real>): (r: SeriesInput)
    ensures longOrigin.Some? ==> r == SeriesInput(p.easting, p.northing, longOrigin.value)
    ensures longOrigin.None? ==> r.x == p.easting - FalseEasting && r.origin == p.longitudeOfOrigin
    ensures longOrigin.None? ==>
              (r.y == p.northing - SouthernOffset <==> IsSouthernHemisphere(ZoneLetter(p).GetOr("")))
    ensures longOrigin.None? ==>
              (r.y == p.northing <==> !IsSouthernHemisphere(ZoneLetter(p).GetOr("")))
  {
    match longOrigin
    case Some(origin) => SeriesInput(p.easting, p.northing, origin)
    case None =>
      // An unassigned letter compares as the empty string, which is southern.
      var y := if IsSouthernHemisphere(ZoneLetter(p).GetOr("")) then p.northing - SouthernOffset else p.northing;
      SeriesInput(p.easting - FalseEasting, y, p.longitudeOfOrigin)
  }

  /** `toLatitudeLongitude` as written: the result is always built on the default datum. */
  function ToLatitudeLongitudeAsWritten(p: UTMPoint, longOrigin: Option<real>, inverse: InverseSeries): (r: LatLon)
    ensures r.datum == DefaultEllipsoid()
    ensures var i := InverseInput(p, longOrigin);
            r.latitude == inverse(p.datum.a, p.datum.e2, i.x, i.y).latitude
            && r.longitude == i.origin + inverse(p.datum.a, p.datum.e2, i.x, i.y).longitudeOffset
  {
    var i := InverseInput(p, longOrigin);
    var g := inverse(p.datum.a, p.datum.e2, i.x, i.y);
    LatLon(g.latitude, i.origin + g.longitudeOffset, DefaultEllipsoid())
  }

  /** `toLatitudeLongitude` keeping the UTM point's datum. */
  function ToLatitudeLongitude(p: UTMPoint, longOrigin: Option<real>, inverse: InverseSeries): (r: LatLon)
    ensures r.datum == p.datum
    ensures var i := InverseInput(p, longOrigin);
            r.latitude == inverse(p.datum.a, p.datum.e2, i.x, i.y).latitude
            && r.longitude == i.origin + inverse(p.datum.a, p.datum.e2, i.x, i.y).longitudeOffset
  {
    var i := InverseInput(p, longOrigin);
    var g := inverse(p.datum.a, p.datum.e2, i.x, i.y);
    LatLon(g.latitude, i.origin + g.longitudeOffset, p.datum)
  }

  /** The inverse as written loses the datum: an "Airy" point comes back on WGS 84. */
  lemma ToLatitudeLongitudeDropsDatum(p: UTMPoint, longOrigin: Option<real>, inverse: InverseSeries)
    requires p.datum == Ellipsoids[0]
    ensures ToLatitudeLongitudeAsWritten(p, longOrigin, inverse).datum != p.datum
    ensures ToLatitudeLongitude(p, longOrigin, inverse).datum == p.datum
  {
  }

  lemma FormatTenS()
    ensures IntToString(10) + ['S'] == "10S"
  {
    assert NatToString(1) == "1" && NatToString(0) == "0";
    assert NatToString(10) == NatToString(1) + [DigitChar(0)];
  }

  /** The test fixture "10S": zone 10's meridian -123, band S's middle 36, northern. */
  lemma FixtureDesignator(easting: real, northing: real, datum: Ellipsoid)
    ensures FromZoneString(easting, northing, "10S", datum).Success?
    ensures var p := FromZoneString(easting, northing, "10S", datum).value;
            p.longitudeOfOrigin == -123.0 && p.latitudeOfOrigin == 36.0
            && !IsSouthernHemisphere(ZoneLetter(p).GetOr(""))
  {
    var z := IntToString(10) + ['S'];
    FormatTenS();
    FromZoneStringOfFormatted(easting, northing, 10, 'S', datum);
    FixtureLetter(z);
  }

  lemma FixtureLetter(z: string)
    requires z == "10S"
    ensures ZoneLetterLatitude(z) == Success(36.0)
  {
    assert z[|z| - 1] == 'S';
  }
}
