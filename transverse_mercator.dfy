/**
 * The conversion of a latitude/longitude point to transverse-Mercator
 * coordinates (`toTM`): the choice between standard UTM and a local
 * transverse Mercator on a caller's meridian, the false easting, the
 * southern-hemisphere offset and the UTM point it builds. The series
 * itself is a parameter.
 */
module TransverseMercator {
  import opened Wrappers
  import opened DecimalText
  import opened GeographicPoint
  import opened UTMZones
  import opened Geodetic
  import opened UTM

  /** Plane coordinates in metres, without false easting or southern offset. */
  datatype Plane = Plane(x: real, y: real)

  /** The forward series: (a, e2, latitude, longitude, longitude of origin) to the plane. */
  type ForwardSeries = (int, real, real, real, real) -> Plane

  /** The northing the series gives, moved up by the southern offset south of the equator. */
  function OffsetNorthing(lat: real, y: real): (r: real)
    ensures lat < 0.0 ==> r == y + SouthernOffset
    ensures lat >= 0.0 ==> r == y
  {
    if lat < 0.0 then y + SouthernOffset else y
  }

  /**
   * `toTM` as written. In standard mode (no origin) the origin is the central
   * meridian of the zone of the sanitised longitude (an undefined zone counts
   * as 0) and the false easting is 500000; in local mode the origin is the
   * given one and there is no false easting. In both modes a point south of
   * the equator gets the 10,000,000 m offset. The point is built by the
   * origin form of the UTM constructor, which re-derives the zone from the
   * origin, and carries no datum, so it is on WGS 84.
   */
  function ToTMAsWritten(p: LatLon, longOrigin: Option<real>, forward: ForwardSeries): (r: UTMPoint)
    ensures var lon := SanitizeLongitude(p.longitude);
            r.longitudeOfOrigin ==
              if longOrigin.Some? then longOrigin.value
              else LongitudeOfOrigin(ZoneNumber(p.latitude, lon).GetOr(0)) as real
    ensures var plane := forward(p.datum.a, p.datum.e2, p.latitude, SanitizeLongitude(p.longitude), r.longitudeOfOrigin);
            r.easting == (if longOrigin.Some? then plane.x else plane.x + FalseEasting)
            && r.northing == OffsetNorthing(p.latitude, plane.y)
    ensures r.latitudeOfOrigin == p.latitude
    ensures r.zone == Zone(p.latitude, r.longitudeOfOrigin)
    ensures r.datum == DefaultEllipsoid()
  {
    var lon := SanitizeLongitude(p.longitude);
    var origin := match longOrigin
      case Some(o) => o
      case None => LongitudeOfOrigin(ZoneNumber(p.latitude, lon).GetOr(0)) as real;
    var falseEasting := if longOrigin.None? then FalseEasting else 0.0;
    var plane := forward(p.datum.a, p.datum.e2, p.latitude, lon, origin);
    FromOrigin(plane.x + falseEasting, OffsetNorthing(p.latitude, plane.y), p.latitude, origin, DefaultEllipsoid())
  }

  /**
   * `toTM` corrected: the longitude is always brought into [-180, 180), a
   * standard-mode point that no zone covers is an explicit error instead of
   * "zone 0", the standard-mode designator is the one `toTM` computes from
   * the zone that gave the origin, the local-mode designator is that of the
   * point's own longitude, and the point keeps its datum.
   */
  function ToTM(p: LatLon, longOrigin: Option<real>, forward: ForwardSeries): (r: Result<UTMPoint, Error>)
    ensures r.Failure? <==> longOrigin.None? && ZoneNumber(p.latitude, SanitizeLongitudeFloor(p.longitude)).None?
    ensures r.Failure? ==> r.error == UndefinedZone(p.latitude, p.longitude)
    ensures var lon := SanitizeLongitudeFloor(p.longitude);
            r.Success? && longOrigin.None? ==>
              var z := ZoneNumber(p.latitude, lon).value;
              r.value.longitudeOfOrigin == LongitudeOfOrigin(z) as real
              && -6.0 <= lon - r.value.longitudeOfOrigin < 6.0
              && ZoneNumberOf(r.value) == Some(z)
              && ZoneLetter(r.value) == Some([UTMLetterDesignator(p.latitude)])
              && r.value.zone == IntToString(z) + [UTMLetterDesignator(p.latitude)]
    ensures r.Success? && longOrigin.Some? ==>
              var lon := SanitizeLongitudeFloor(p.longitude);
              r.value.longitudeOfOrigin == longOrigin.value && r.value.zone == Zone(p.latitude, lon)
              && ZoneNumberOf(r.value) == ZoneNumber(p.latitude, lon)
    ensures r.Success? ==>
              var plane := forward(p.datum.a, p.datum.e2, p.latitude, SanitizeLongitudeFloor(p.longitude), r.value.longitudeOfOrigin);
              r.value.easting == (if longOrigin.Some? then plane.x else plane.x + FalseEasting)
              && r.value.northing == OffsetNorthing(p.latitude, plane.y)
    ensures r.Success? ==> r.value.latitudeOfOrigin == p.latitude && r.value.datum == p.datum
  {
    var lon := SanitizeLongitudeFloor(p.longitude);
    match longOrigin
    case Some(origin) =>
      var plane := forward(p.datum.a, p.datum.e2, p.latitude, lon, origin);
      ScanDerivedZone(p.latitude, lon);
      Success(UTMPoint(plane.x, OffsetNorthing(p.latitude, plane.y), Zone(p.latitude, lon), p.latitude, origin, p.datum))
    case None =>
      match ZoneNumber(p.latitude, lon)
      case None => Failure(UndefinedZone(p.latitude, p.longitude))
      case Some(z) =>
        var origin := LongitudeOfOrigin(z) as real;
        var plane := forward(p.datum.a, p.datum.e2, p.latitude, lon, origin);
        var c := UTMLetterDesignator(p.latitude);
        assert !IsDigit(c) && !IsSpace(c);
        ScanZoneOfFormatted(z, [c]);
        Success(UTMPoint(plane.x + FalseEasting, OffsetNorthing(p.latitude, plane.y), FormatZone(Some(z), c), p.latitude, origin, p.datum))
  }

  /** The inverse series undoes the forward series on every ellipsoid, returning the offset from the origin. */
  ghost predicate SeriesInverse(forward: ForwardSeries, inverse: InverseSeries)
  {
    forall a, e2, lat, lon, origin ::
      inverse(a, e2, forward(a, e2, lat, lon, origin).x, forward(a, e2, lat, lon, origin).y) == Geo(lat, lon - origin)
  }

  /** The forward series undoes the inverse series on every ellipsoid and origin. */
  ghost predicate SeriesForward(forward: ForwardSeries, inverse: InverseSeries)
  {
    forall a, e2, x, y, lon, origin ::
      lon == origin + inverse(a, e2, x, y).longitudeOffset ==>
        forward(a, e2, inverse(a, e2, x, y).latitude, lon, origin) == Plane(x, y)
  }

  /**
   * In standard mode the inverse removes exactly the offsets the forward
   * conversion added, and works from the same origin, precisely when the
   * latitude is not south of the UTM limit of 80S (below it the letter is
   * 'Z', which is not southern, so the southern offset stays).
   */
  lemma StandardOffsetsCancel(p: LatLon, forward: ForwardSeries)
    requires ToTM(p, None, forward).Success?
    ensures var r := ToTM(p, None, forward).value;
            var plane := forward(p.datum.a, p.datum.e2, p.latitude, SanitizeLongitudeFloor(p.longitude), r.longitudeOfOrigin);
            InverseInput(r, None) == SeriesInput(plane.x, plane.y, r.longitudeOfOrigin) <==> p.latitude >= -80.0
  {
    var r := ToTM(p, None, forward).value;
    var c := UTMLetterDesignator(p.latitude);
    assert ZoneLetter(r).GetOr("") == [c];
    if -80.0 <= p.latitude <= 84.0 {
      SouthernIffNegativeLatitude(p.latitude);
    } else {
      assert c == 'Z';
      SouthernLetters(0);
    }
  }

  /**
   * In local mode the inverse removes no offset, so a southern point comes
   * back with the 10,000,000 m offset still in its northing.
   */
  lemma LocalOffsets(p: LatLon, origin: real, forward: ForwardSeries)
    ensures ToTM(p, Some(origin), forward).Success?
    ensures var r := ToTM(p, Some(origin), forward).value;
            var plane := forward(p.datum.a, p.datum.e2, p.latitude, SanitizeLongitudeFloor(p.longitude), origin);
            InverseInput(r, Some(origin)) == SeriesInput(plane.x, OffsetNorthing(p.latitude, plane.y), origin)
  {
  }

  /**
   * The round trip, corrected: wherever the conversion succeeds, converting
   * to UTM and back gives the latitude, the sanitised longitude and the
   * datum, in standard mode from 80S northwards and in local mode (with the
   * same origin both ways) north of the equator.
   */
  lemma RoundTrip(p: LatLon, longOrigin: Option<real>, forward: ForwardSeries, inverse: InverseSeries)
    requires SeriesInverse(forward, inverse)
    requires if longOrigin.None? then p.latitude >= -80.0 else p.latitude >= 0.0
    ensures var r := ToTM(p, longOrigin, forward);
            r.Success? ==>
              ToLatitudeLongitude(r.value, longOrigin, inverse) == LatLon(p.latitude, SanitizeLongitudeFloor(p.longitude), p.datum)
  {
    var t := ToTM(p, longOrigin, forward);
    if t.Success? {
      var r := t.value;
      var lon := SanitizeLongitudeFloor(p.longitude);
      var plane := forward(p.datum.a, p.datum.e2, p.latitude, lon, r.longitudeOfOrigin);
      if longOrigin.None? {
        StandardOffsetsCancel(p, forward);
      }
      assert InverseInput(r, longOrigin) == SeriesInput(plane.x, plane.y, r.longitudeOfOrigin);
      assert inverse(p.datum.a, p.datum.e2, plane.x, plane.y) == Geo(p.latitude, lon - r.longitudeOfOrigin);
    }
  }

  /**
   * The round trip of the tests, on the code as written: on WGS 84,
   * converting to UTM and back gives the latitude and the sanitised
   * longitude, in standard mode from 80S northwards wherever the zone is
   * defined, and in local mode north of the equator.
   */
  lemma RoundTripAsWritten(p: LatLon, longOrigin: Option<real>, forward: ForwardSeries, inverse: InverseSeries)
    requires SeriesInverse(forward, inverse)
    requires p.datum == DefaultEllipsoid()
    requires if longOrigin.None? then p.latitude >= -80.0 && ZoneNumber(p.latitude, SanitizeLongitude(p.longitude)).Some?
             else p.latitude >= 0.0
    ensures ToLatitudeLongitudeAsWritten(ToTMAsWritten(p, longOrigin, forward), longOrigin, inverse) ==
              LatLon(p.latitude, SanitizeLongitude(p.longitude), p.datum)
  {
    var r := ToTMAsWritten(p, longOrigin, forward);
    var lon := SanitizeLongitude(p.longitude);
    var plane := forward(p.datum.a, p.datum.e2, p.latitude, lon, r.longitudeOfOrigin);
    if longOrigin.None? {
      AsWrittenOffsetsCancel(p, forward);
    }
    assert InverseInput(r, longOrigin) == SeriesInput(plane.x, plane.y, r.longitudeOfOrigin);
    assert inverse(p.datum.a, p.datum.e2, plane.x, plane.y) == Geo(p.latitude, lon - r.longitudeOfOrigin);
  }

  /**
   * The reverse round trip of the tests, on the code as written: a WGS 84
   * point given as "nL" with an easting and a northing, converted to
   * latitude/longitude and back in standard mode, gets the same easting,
   * northing and meridian back, provided the recovered longitude lies in
   * [-180, 180) in zone n and the recovered latitude is on the hemisphere
   * the letter names. The designator comes back exactly when the recovered
   * latitude is designated L and lies outside the Norway band west of 3E.
   */
  lemma ReverseRoundTripAsWritten(easting: real, northing: real, n: int, letter: char,
                                  forward: ForwardSeries, inverse: InverseSeries)
    requires SeriesForward(forward, inverse)
    requires IsBandLetter(letter)
    requires FromZoneString(easting, northing, IntToString(n) + [letter], DefaultEllipsoid()).Success?
    requires var q := FromZoneString(easting, northing, IntToString(n) + [letter], DefaultEllipsoid()).value;
             var g := ToLatitudeLongitudeAsWritten(q, None, inverse);
             -180.0 <= g.longitude < 180.0 && ZoneNumber(g.latitude, g.longitude) == Some(n)
             && (g.latitude < 0.0 <==> IsSouthernHemisphere([letter]))
    ensures var q := FromZoneString(easting, northing, IntToString(n) + [letter], DefaultEllipsoid()).value;
            var g := ToLatitudeLongitudeAsWritten(q, None, inverse);
            var w := ToTMAsWritten(g, None, forward);
            w.easting == easting && w.northing == northing && w.longitudeOfOrigin == q.longitudeOfOrigin
            && (w.zone == q.zone <==>
                  UTMLetterDesignator(g.latitude) == letter && !(56.0 <= g.latitude < 64.0 && 0.0 <= g.longitude < 3.0))
  {
    var z := IntToString(n) + [letter];
    FromZoneStringOfFormatted(easting, northing, n, letter, DefaultEllipsoid());
    var q := FromZoneString(easting, northing, z, DefaultEllipsoid()).value;
    var g := ToLatitudeLongitudeAsWritten(q, None, inverse);
    var w := ToTMAsWritten(g, None, forward);
    var m := LongitudeOfOrigin(n) as real;
    assert SanitizeLongitude(g.longitude) == g.longitude;
    assert w.longitudeOfOrigin == m;
    SeriesUndone(q, g.latitude, g.longitude, forward, inverse);
    ZoneAtOwnMeridian(g.latitude, g.longitude);
    LabelOfZone(g.latitude, n, letter);
  }

  /** Under SeriesForward the standard-mode forward series gives back exactly the inverse's input. */
  lemma SeriesUndone(q: UTMPoint, lat: real, lon: real, forward: ForwardSeries, inverse: InverseSeries)
    requires SeriesForward(forward, inverse)
    requires var g := ToLatitudeLongitude(q, None, inverse); lat == g.latitude && lon == g.longitude
    requires ZoneNumberOf(q).Some? && q.longitudeOfOrigin == LongitudeOfOrigin(ZoneNumberOf(q).value) as real
    requires lat < 0.0 <==> IsSouthernHemisphere(ZoneLetter(q).GetOr(""))
    ensures var plane := forward(q.datum.a, q.datum.e2, lat, lon, q.longitudeOfOrigin);
            plane.x + FalseEasting == q.easting && OffsetNorthing(lat, plane.y) == q.northing
  {
    var i := InverseInput(q, None);
    var plane := forward(q.datum.a, q.datum.e2, lat, lon, q.longitudeOfOrigin);
    assert plane == Plane(i.x, i.y);
  }

  /**
   * The reverse round trip on the corrected conversions: a point on any
   * datum given as "nL", converted to latitude/longitude and back, gets the
   * same easting, northing, meridian and datum back under the same
   * conditions as above, and the designator comes back exactly when the
   * recovered latitude is designated L.
   */
  lemma ReverseRoundTrip(easting: real, northing: real, n: int, letter: char, datum: Ellipsoid,
                         forward: ForwardSeries, inverse: InverseSeries)
    requires SeriesForward(forward, inverse)
    requires IsBandLetter(letter)
    requires FromZoneString(easting, northing, IntToString(n) + [letter], datum).Success?
    requires var q := FromZoneString(easting, northing, IntToString(n) + [letter], datum).value;
             var g := ToLatitudeLongitude(q, None, inverse);
             -180.0 <= g.longitude < 180.0 && ZoneNumber(g.latitude, g.longitude) == Some(n)
             && (g.latitude < 0.0 <==> IsSouthernHemisphere([letter]))
    ensures var q := FromZoneString(easting, northing, IntToString(n) + [letter], datum).value;
            var g := ToLatitudeLongitude(q, None, inverse);
            ToTM(g, None, forward).Success?
            && var w := ToTM(g, None, forward).value;
               w.easting == easting && w.northing == northing && w.longitudeOfOrigin == q.longitudeOfOrigin
               && w.datum == datum && (w.zone == q.zone <==> UTMLetterDesignator(g.latitude) == letter)
  {
    var z := IntToString(n) + [letter];
    FromZoneStringOfFormatted(easting, northing, n, letter, datum);
    var q := FromZoneString(easting, northing, z, datum).value;
    var g := ToLatitudeLongitude(q, None, inverse);
    assert SanitizeLongitudeFloor(g.longitude) == g.longitude;
    SeriesUndone(q, g.latitude, g.longitude, forward, inverse);
    assert q.zone == z;
    var c := UTMLetterDesignator(g.latitude);
    assert (IntToString(n) + [c])[|IntToString(n)|] == c;
  }

  /** The designator derived at zone n's meridian is "nL" exactly when that meridian is in zone n and the letter is L. */
  lemma LabelOfZone(lat: real, n: int, letter: char)
    requires IsBandLetter(letter)
    ensures Zone(lat, LongitudeOfOrigin(n) as real) == IntToString(n) + [letter] <==>
              ZoneNumber(lat, LongitudeOfOrigin(n) as real) == Some(n) && UTMLetterDesignator(lat) == letter
  {
    var m := LongitudeOfOrigin(n) as real;
    assert !IsDigit(letter) && !IsSpace(letter);
    ScanZoneOfFormatted(n, [letter]);
    ScanDerivedZone(lat, m);
  }

  /**
   * In standard mode as written the inverse removes exactly the offsets the
   * forward conversion added when the zone is defined and the latitude is
   * not south of 80S: the origin's own zone is then defined, so the
   * designator carries the latitude's letter.
   */
  lemma AsWrittenOffsetsCancel(p: LatLon, forward: ForwardSeries)
    requires p.latitude >= -80.0 && ZoneNumber(p.latitude, SanitizeLongitude(p.longitude)).Some?
    ensures var r := ToTMAsWritten(p, None, forward);
            var plane := forward(p.datum.a, p.datum.e2, p.latitude, SanitizeLongitude(p.longitude), r.longitudeOfOrigin);
            InverseInput(r, None) == SeriesInput(plane.x, plane.y, r.longitudeOfOrigin)
  {
    var lat := p.latitude;
    var z := ZoneNumber(lat, SanitizeLongitude(p.longitude)).value;
    var m := LongitudeOfOrigin(z) as real;
    if ZoneIsSvalbard(lat) {
      assert z == 31 || z == 33 || z == 35 || z == 37;
    }
    assert ZoneNumber(lat, m).Some?;
    var r := ToTMAsWritten(p, None, forward);
    var c := UTMLetterDesignator(lat);
    assert ZoneLetter(r).GetOr("") == [c];
    if lat <= 84.0 {
      SouthernIffNegativeLatitude(lat);
    } else {
      assert c == 'Z';
      SouthernLetters(0);
    }
  }

  /**
   * A southern point converted in local mode does not come back: the
   * inverse is fed a northing 10,000,000 m too large.
   */
  lemma LocalSouthernOffsetRemains(p: LatLon, origin: real, forward: ForwardSeries)
    requires p.latitude < 0.0
    ensures var plane := forward(p.datum.a, p.datum.e2, p.latitude, SanitizeLongitudeFloor(p.longitude), origin);
            InverseInput(ToTM(p, Some(origin), forward).value, Some(origin)).y == plane.y + SouthernOffset
  {
  }

  /** A point whose designator is "nL" reads back through the string constructor exactly when L is a band letter. */
  lemma ReadBackFormatted(r: UTMPoint, n: int, c: char, inverse: InverseSeries)
    requires r.zone == IntToString(n) + [c] && r.longitudeOfOrigin == LongitudeOfOrigin(n) as real
    ensures FromZoneString(r.easting, r.northing, r.zone, r.datum).Success? <==> IsBandLetter(c)
    ensures var q := FromZoneString(r.easting, r.northing, r.zone, r.datum);
            q.Success? ==>
              q.value.longitudeOfOrigin == r.longitudeOfOrigin
              && ToLatitudeLongitude(q.value, None, inverse) == ToLatitudeLongitude(r, None, inverse)
  {
    assert r.zone[|r.zone| - 1] == c;
    if IsBandLetter(c) {
      FromZoneStringOfFormatted(r.easting, r.northing, n, c, r.datum);
      var q := FromZoneString(r.easting, r.northing, r.zone, r.datum).value;
      SameInverse(q, r, inverse);
    }
  }

  /** The inverse reads only the offsets, the designator, the meridian and the datum of a point. */
  lemma SameInverse(q: UTMPoint, r: UTMPoint, inverse: InverseSeries)
    requires q.easting == r.easting && q.northing == r.northing && q.zone == r.zone
    requires q.longitudeOfOrigin == r.longitudeOfOrigin && q.datum == r.datum
    ensures ToLatitudeLongitude(q, None, inverse) == ToLatitudeLongitude(r, None, inverse)
  {
    assert InverseInput(q, None) == InverseInput(r, None);
  }

  /**
   * The designator of a standard-mode result, read back by the string
   * constructor, is accepted exactly within the UTM latitudes, and then gives
   * the same meridian and the same inverse as the point itself.
   */
  lemma DesignatorReadBack(p: LatLon, forward: ForwardSeries, inverse: InverseSeries)
    requires ToTM(p, None, forward).Success?
    ensures var r := ToTM(p, None, forward).value;
            FromZoneString(r.easting, r.northing, r.zone, r.datum).Success? <==> -80.0 <= p.latitude <= 84.0
    ensures var r := ToTM(p, None, forward).value;
            var q := FromZoneString(r.easting, r.northing, r.zone, r.datum);
            q.Success? ==>
              q.value.longitudeOfOrigin == r.longitudeOfOrigin
              && ToLatitudeLongitude(q.value, None, inverse) == ToLatitudeLongitude(r, None, inverse)
  {
    var r := ToTM(p, None, forward).value;
    var z := ZoneNumber(p.latitude, SanitizeLongitudeFloor(p.longitude)).value;
    ReadBackFormatted(r, z, UTMLetterDesignator(p.latitude), inverse);
  }

  // ---------------------------------------------------------------------------
  // How the conversion as written departs from the corrected one

  /**
   * With the WGS 84 datum and a longitude from 180W on, local mode as written
   * is the corrected local mode exactly when the origin and the point's own
   * longitude give the same designator.
   */
  lemma AsWrittenAgreesLocal(p: LatLon, origin: real, forward: ForwardSeries)
    requires p.datum == DefaultEllipsoid() && p.longitude >= -180.0
    ensures ToTM(p, Some(origin), forward) == Success(ToTMAsWritten(p, Some(origin), forward)) <==>
              Zone(p.latitude, origin) == Zone(p.latitude, SanitizeLongitude(p.longitude))
  {
    assert SanitizeLongitudeFloor(p.longitude) == SanitizeLongitude(p.longitude);
  }

  /**
   * Local mode, as written: the test point 37.42104N 121.85831W lies in zone
   * 10, but converted on the meridian 100W it is labelled "14S", the zone of
   * the meridian. Corrected, it is labelled "10S", its own zone.
   */
  lemma LocalLabelAsWritten(datum: Ellipsoid, forward: ForwardSeries)
    ensures ZoneNumber(37.42104, -121.85831) == Some(10)
    ensures ToTMAsWritten(LatLon(37.42104, -121.85831, datum), Some(-100.0), forward).zone == "14S"
    ensures ToTM(LatLon(37.42104, -121.85831, datum), Some(-100.0), forward).Success?
    ensures ToTM(LatLon(37.42104, -121.85831, datum), Some(-100.0), forward).value.zone == "10S"
  {
    FixtureZone();
    FormatTenS();
    assert ZoneNumber(37.42104, -100.0) == Some(14);
    assert NatToString(1) == "1" && NatToString(4) == "4";
    assert NatToString(14) == NatToString(1) + [DigitChar(4)];
    assert SanitizeLongitudeFloor(-121.85831) == -121.85831;
  }

  /**
   * With the WGS 84 datum and a longitude from 180W on, standard mode as
   * written agrees with the corrected one exactly when the zone is defined
   * (otherwise the corrected one fails) and the point is not in the Norway
   * band west of 3E.
   */
  lemma AsWrittenAgreesStandard(p: LatLon, forward: ForwardSeries)
    requires p.datum == DefaultEllipsoid() && p.longitude >= -180.0
    ensures var lon := SanitizeLongitude(p.longitude);
            ToTM(p, None, forward) == Success(ToTMAsWritten(p, None, forward)) <==>
              ZoneNumber(p.latitude, lon).Some? && !(56.0 <= p.latitude < 64.0 && 0.0 <= lon < 3.0)
  {
    var lon := SanitizeLongitude(p.longitude);
    var lat := p.latitude;
    assert SanitizeLongitudeFloor(p.longitude) == lon;
    if ZoneNumber(lat, lon).Some? {
      var w := ToTMAsWritten(p, None, forward);
      var r := ToTM(p, None, forward).value;
      StandardFieldsAgree(p, forward);
      var z := ZoneNumber(lat, lon).value;
      CentralMeridianRoundTrip(z);
      ZoneAtOwnMeridian(lat, lon);
      SameZoneSameLabel(w, r, lat, z);
    }
  }

  /** Under the same datum and longitude the two standard-mode results differ only in origin and label. */
  lemma StandardFieldsAgree(p: LatLon, forward: ForwardSeries)
    requires p.datum == DefaultEllipsoid() && p.longitude >= -180.0
    requires ToTM(p, None, forward).Success?
    ensures var w := ToTMAsWritten(p, None, forward);
            var r := ToTM(p, None, forward).value;
            w == r <==> w.longitudeOfOrigin == r.longitudeOfOrigin && w.zone == r.zone
  {
    assert SanitizeLongitudeFloor(p.longitude) == SanitizeLongitude(p.longitude);
  }

  /** Two points labelled with the same zone number read back alike; the same number and letter give the same label. */
  lemma SameZoneSameLabel(w: UTMPoint, r: UTMPoint, lat: real, z: int)
    requires w.zone == Zone(lat, LongitudeOfOrigin(z) as real)
    requires ZoneNumberOf(r) == Some(z) && r.zone == FormatZone(Some(z), UTMLetterDesignator(lat))
    ensures w.zone == r.zone <==> ZoneNumber(lat, LongitudeOfOrigin(z) as real) == Some(z)
  {
    var m := LongitudeOfOrigin(z) as real;
    ScanDerivedZone(lat, m);
  }

  /**
   * Norway, as written: 60N 1.5E is in zone 31 (meridian 3E), but the point
   * built from that meridian is labelled zone 32, whose meridian is 9E, so
   * reading the label back moves the point by a zone. The corrected
   * conversion labels it zone 31.
   */
  lemma NorwayLabelAsWritten(datum: Ellipsoid, forward: ForwardSeries)
    ensures var r := ToTMAsWritten(LatLon(60.0, 1.5, datum), None, forward);
            r.longitudeOfOrigin == 3.0 && ZoneNumberOf(r) == Some(32)
            && FromZoneString(r.easting, r.northing, r.zone, r.datum).Success?
            && FromZoneString(r.easting, r.northing, r.zone, r.datum).value.longitudeOfOrigin == 9.0
    ensures ToTM(LatLon(60.0, 1.5, datum), None, forward).Success?
    ensures var r := ToTM(LatLon(60.0, 1.5, datum), None, forward).value;
            r.longitudeOfOrigin == 3.0 && ZoneNumberOf(r) == Some(31)
  {
    var r := ToTMAsWritten(LatLon(60.0, 1.5, datum), None, forward);
    assert ZoneNumber(60.0, 1.5) == Some(31);
    assert ZoneNumber(60.0, 3.0) == Some(32);
    assert UTMLetterDesignator(60.0) == 'V';
    assert r.zone == IntToString(32) + ['V'];
    FromZoneStringOfFormatted(r.easting, r.northing, 32, 'V', r.datum);
  }

  /**
   * Svalbard, as written: 75N 50E has no zone, so the origin is that of
   * "zone 0", 183W, the label is the bare letter "X", and the inverse,
   * finding no letter after a number, treats the point as southern and
   * removes the 10,000,000 m offset it never had. Corrected, the conversion
   * reports that no zone covers the point.
   */
  lemma SvalbardGapAsWritten(datum: Ellipsoid, forward: ForwardSeries)
    ensures var r := ToTMAsWritten(LatLon(75.0, 50.0, datum), None, forward);
            r.longitudeOfOrigin == -183.0 && r.zone == "X"
            && InverseInput(r, None).y == r.northing - SouthernOffset
    ensures ToTM(LatLon(75.0, 50.0, datum), None, forward) == Failure(UndefinedZone(75.0, 50.0))
  {
    var r := ToTMAsWritten(LatLon(75.0, 50.0, datum), None, forward);
    assert ZoneNumber(75.0, 50.0) == None;
    assert ZoneNumber(75.0, -183.0) == None;
    assert UTMLetterDesignator(75.0) == 'X';
    ScanZoneOfLetter('X');
    assert ZoneLetter(r).GetOr("") == "";
  }

  /** The conversion as written puts every result on WGS 84; an "Airy" point loses its datum. */
  lemma ToTMDropsDatum(p: LatLon, longOrigin: Option<real>, forward: ForwardSeries)
    requires p.datum == Ellipsoids[0]
    ensures ToTMAsWritten(p, longOrigin, forward).datum != p.datum
    ensures ToTM(p, longOrigin, forward).Success? ==> ToTM(p, longOrigin, forward).value.datum == p.datum
  {
  }

  /** The test point 37.42104N 121.85831W: "10S" in both modes, meridian 123W in standard mode. */
  lemma FixtureToTM(forward: ForwardSeries)
    ensures var p := LatLon(37.42104, -121.85831, DefaultEllipsoid());
            var r := ToTMAsWritten(p, None, forward);
            r.zone == "10S" && r.longitudeOfOrigin == -123.0
    ensures var p := LatLon(37.42104, -121.85831, DefaultEllipsoid());
            var r := ToTMAsWritten(p, Some(-122.0), forward);
            r.zone == "10S" && r.longitudeOfOrigin == -122.0
  {
    FixtureZone();
    FormatTenS();
    assert ZoneNumber(37.42104, -123.0) == Some(10);
    assert ZoneNumber(37.42104, -122.0) == Some(10);
  }
}
