# Math_GeographicPoint: the UTM bookkeeping, as a verified Dafny model

This project models the exact, non-trigonometric part of the PHP library
Math_GeographicPoint. That part surrounds its transverse-Mercator projection:

- the reference-ellipsoid table and the datum lookup of the point constructor;
- the UTM grid rules of `Math_GeographicPoint_LatitudeLongitude`: longitude
  normalisation, the base zone number, the Norway and Svalbard exceptions, the
  central meridian of a zone and the 8-degree latitude-band letter;
- the mode and offset handling of `toTM`. In standard UTM the origin comes
  from the zone and the false easting is 500000 m. In local TM the caller's
  meridian is used and there is no false easting. South of the equator the
  northing gets a 10,000,000 m offset;
- the `Math_GeographicPoint_UTM` point. Its two constructor forms take either
  a designator such as "10S" or an origin from which the designator is
  re-derived. The point reads its designator back with `sscanf("%d%s")` and
  `intval`, maps a band letter to the middle of its band, and tests the
  hemisphere with `letter < 'N'`. `toLatitudeLongitude` then removes the
  offsets.

The forward and inverse series are function-valued parameters
(`TransverseMercator.ForwardSeries`, `UTM.InverseSeries`). The model says
nothing about their arithmetic: it fixes only what goes into them and what
is done with what comes out. The round-trip lemmas assume the inverse series
undoes the forward one (`TransverseMercator.SeriesInverse`). The reverse
round trips, from a designator to latitude/longitude and back, assume the
forward series undoes the inverse one (`TransverseMercator.SeriesForward`).

Modules, leaves first:

- `Wrappers` holds `Option` and `Result`.
- `DecimalText` models PHP's decimal formatting and `sscanf("%d%s")` / `intval`.
- `GeographicPoint` is the ellipsoid table and the datum lookup (src/Math/GeographicPoint.php).
- `UTMZones` holds the static grid helpers of GeographicPoint/LatitudeLongitude.php.
- `Geodetic` is the latitude/longitude point.
- `UTM` is src/Math/GeographicPoint/UTM.php.
- `TransverseMercator` is `toTM`.

The PHP classes refer to each other, so the helpers sit in modules of their
own: Dafny modules cannot import each other in a cycle.

PHP semantics written out explicitly:

- `(integer)` truncates toward zero (`UTMZones.Trunc`).
- `empty("0")` holds, so the datum "0" selects WGS 84.
- An unassigned variable is 0 in arithmetic and "" in a string.
- `null < 'N'` compares "" with "N", so it holds.
- Two non-numeric strings compare byte by byte (`UTM.StrLess`).

Points where the model follows the code closely:

- The code adds the 10,000,000 m southern offset in local mode as well as in
  standard mode. The inverse in local mode does not remove it.
- The ellipsoid table has 23 entries (src/Math/GeographicPoint.php:75-99).
- In local mode the origin form of the UTM constructor re-derives the
  designator from the origin, so the test point with origin -122 is labelled
  "10S". The corrected `TransverseMercator.ToTM` labels a local-mode point
  by the zone of its own longitude, as the doc comment of `toTM` promises.
- An unknown datum is not reported: PHP reads `null` for `a` and `e2`. The
  model returns `Failure(UnknownDatum(name))` instead of inventing values.
- In the Svalbard band (72 <= lat < 84) the code assigns no zone to a
  longitude outside [0, 42). The corrected `TransverseMercator.ToTM` reports
  this as `Failure(UndefinedZone(lat, lon))`. It does not pick a zone, since
  the library states none: the code leaves `$ZoneNumber` unassigned there.

## Model

| member | source | states |
|---|---|---|
| GeographicPoint.SelectDatum | src/Math/GeographicPoint.php:138-147 | An empty datum ("" or "0") selects the WGS 84 entry. Any other name succeeds exactly when the table lists it, and then gives the entry carrying that name. Otherwise the result is UnknownDatum(name). |
| GeographicPoint.DefaultEllipsoid | src/Math/GeographicPoint.php:99 | No contract: the WGS 84 entry. DefaultEllipsoidSelected states that an empty datum selects it. |
| GeographicPoint.IsEmptyDatum | src/Math/GeographicPoint.php:140 | No contract: PHP `empty()` on a string, true for "" and "0". SelectDatum states its effect. |
| GeographicPoint.DefaultEllipsoidSelected | src/Math/GeographicPoint.php:140-145 | "", "0" and "WGS 84" all select the WGS 84 entry (a = 6378137, e2 = 0.00669438). |
| GeographicPoint.Find | src/Math/GeographicPoint.php:143-144 | Lookup by key gives an entry of the table with that name; it gives nothing exactly when no entry has the name. |
| GeographicPoint.DefaultDatumListed | src/Math/GeographicPoint.php:99 | Looking up "WGS 84" gives a = 6378137 and e2 = 0.00669438. |
| GeographicPoint.FindFirst | src/Math/GeographicPoint.php:143-144 | An entry whose name no earlier entry carries is what the lookup finds for that name. |
| GeographicPoint.FindDistinct | src/Math/GeographicPoint.php:143-144 | In a table without repeated names, every entry is found by its own name. |
| GeographicPoint.EllipsoidTableSize | src/Math/GeographicPoint.php:75-99 | The table has 23 entries. |
| GeographicPoint.EllipsoidParametersValid | src/Math/GeographicPoint.php:75-99 | Every entry has a > 0 and 0 < e2 < 1. |
| GeographicPoint.EllipsoidNamesDistinct | src/Math/GeographicPoint.php:75-99 | The 23 names are pairwise distinct, so no key of the associative array is overwritten. |
| GeographicPoint.EllipsoidNamesNotEmpty | src/Math/GeographicPoint.php:75-99 | Every name has at least two characters, so no name is one that `empty()` treats as missing. |
| GeographicPoint.TableEntries | src/Math/GeographicPoint.php:87-99 | The GRS 1980 and WGS 84 entries hold the values the source lists. |
| GeographicPoint.Grs1980IsWgs84 | src/Math/GeographicPoint.php:87-99 | Selecting "GRS 1980" and selecting "WGS 84" give the same a and e2. |
| GeographicPoint.SelectListedDatum | src/Math/GeographicPoint.php:143-145 | Naming any table entry selects exactly that entry: its a, its e2 and its name. |
| Geodetic.NewLatLon | GeographicPoint/LatitudeLongitude.php:72-78 | The point constructor stores latitude and longitude unchanged and carries the selected datum. It fails exactly when the datum lookup fails. |
| UTMZones.Trunc | GeographicPoint/LatitudeLongitude.php:248 | `(integer)` truncates toward zero: r ≤ x < r + 1 for x ≥ 0, and r - 1 < x ≤ r for x < 0. |
| UTMZones.SanitizeLongitude | GeographicPoint/LatitudeLongitude.php:246-249 | For lon ≥ -180 the result lies in [-180, 180). For lon < -180 it stays in (-540, -180]. It always differs from lon by a whole number of turns. It is the identity on [-180, 180) and maps 180 to -180. |
| UTMZones.SanitizeLongitudeFloor | GeographicPoint/LatitudeLongitude.php:236-249 | Corrected normalisation: always in [-180, 180), a whole number of turns from lon, and equal to the code's result for lon ≥ -180. |
| UTMZones.SanitizeBelowRange | GeographicPoint/LatitudeLongitude.php:246-249 | -190 is left at -190 as written; corrected, it becomes 170. |
| UTMZones.CalculateUTMZoneNumber | GeographicPoint/LatitudeLongitude.php:258-261 | For lon ≥ -180, zone r is the 6-degree strip [6(r-1) - 180, 6r - 180) holding lon. On [-180, 180) the zone is in 1..60. At 180 it is 61. Just below -180 truncation toward zero still gives 1. |
| UTMZones.GetSvalbardZone | GeographicPoint/LatitudeLongitude.php:317-329 | A zone is assigned exactly for 0 ≤ lon < 42. It is one of 31, 33, 35, 37, and its central meridian is within 6 degrees of lon. |
| UTMZones.ZoneNumber | GeographicPoint/LatitudeLongitude.php:263-273 | The zone is always defined outside the Svalbard band. Inside the band it is defined exactly for 0 <= lon < 42. A defined zone is in 1..60 on [-180, 180), and for lon >= -180 its meridian is within 6 degrees of lon. |
| UTMZones.ZoneIs32 | GeographicPoint/LatitudeLongitude.php:293-296 | No contract: the Norway region 56 <= lat < 64, 3 <= lon < 12, half-open as in the code. NorwayOverride states its effect. |
| UTMZones.ZoneIsSvalbard | GeographicPoint/LatitudeLongitude.php:305-308 | No contract: the Svalbard band 72 <= lat < 84. SvalbardOverride states its effect. |
| UTMZones.LongitudeOfOrigin | GeographicPoint/LatitudeLongitude.php:275-278 | No contract: the meridian (n - 1)·6 - 177. CentralMeridianRoundTrip and CentralMeridianNear state its properties. |
| UTMZones.NorwayOverride | GeographicPoint/LatitudeLongitude.php:293-296 | For 56 ≤ lat < 64 and 3 ≤ lon < 12 the zone is 32. |
| UTMZones.SvalbardOverride | GeographicPoint/LatitudeLongitude.php:305-329 | For 72 ≤ lat < 84 the zone is 31, 33, 35 or 37 for lon in [0,9), [9,21), [21,33) or [33,42). For other longitudes it is undefined. |
| UTMZones.NoException | GeographicPoint/LatitudeLongitude.php:263-273 | Outside the Norway region and the Svalbard band the zone is the base zone. |
| UTMZones.FixtureZone | GeographicPoint/LatitudeLongitude.php:263-273 | 37.42104N 121.85831W is zone 10, band S; 60N 5E is zone 32; 75N 10E is zone 33. |
| UTMZones.CentralMeridianRoundTrip | GeographicPoint/LatitudeLongitude.php:275-278 | For n in 1..60 the meridian 6n - 183 lies in [-177, 177], and the base zone of that meridian is n. |
| UTMZones.CentralMeridianNear | GeographicPoint/LatitudeLongitude.php:275-278 | Every longitude in [-180, 180) lies within 3 degrees of its base zone's meridian. |
| UTMZones.ZoneAtOwnMeridian | GeographicPoint/LatitudeLongitude.php:263-278 | Re-deriving a defined zone from its own meridian gives it back, except exactly in the Norway band west of 3E. |
| UTMZones.UTMLetterDesignator | GeographicPoint/LatitudeLongitude.php:344-369 | 'Z' exactly outside [-80, 84]. 'X' exactly on [72, 84], closed at both ends. Every other result is a band letter. |
| UTMZones.BandIndex | GeographicPoint/LatitudeLongitude.php:344-365 | A reference numbering of the bands: on [-80, 84] it gives the k in 0..19 with lat in [-80 + 8k, -72 + 8k), or 19 at 84. |
| UTMZones.BandIndexMonotone | GeographicPoint/LatitudeLongitude.php:344-365 | The band number does not decrease as latitude grows. |
| UTMZones.LettersIncreasing | GeographicPoint/LatitudeLongitude.php:346-365 | The 20 letters C..X without I and O are strictly increasing and are all band letters. |
| UTMZones.DesignatorInBand | GeographicPoint/LatitudeLongitude.php:346-365 | A latitude in band k gets the k-th letter. |
| UTMZones.DesignatorIsBandLetter | GeographicPoint/LatitudeLongitude.php:344-369 | The designator is the letter of the latitude's band on [-80, 84], and 'Z' elsewhere. |
| UTMZones.LetterBand | GeographicPoint/LatitudeLongitude.php:346-365 | The designator is the k-th letter if and only if the latitude lies in the half-open band k (closed at 84 for 'X'). |
| UTMZones.DesignatorMonotone | GeographicPoint/LatitudeLongitude.php:344-369 | On [-80, 84] the letter does not decrease as latitude grows. |
| UTM.CalculateLongitudeOfOrigin | src/Math/GeographicPoint/UTM.php:113-117 | The UTM class's meridian (n - 1)·6 - 177 is the grid helper's meridian of zone n. |
| UTM.LatitudeToZoneLetter | src/Math/GeographicPoint/UTM.php:119-208 | A character is accepted exactly when it is a band letter; any other is the error InvalidZoneLetter. The latitude returned lies in [-80, 84], is the midpoint of its own band, and is designated by the letter itself, so it is the middle of that letter's band. |
| UTM.LetterMidBand | src/Math/GeographicPoint/UTM.php:119-201 | The k-th letter maps to the midpoint of band k: 'C' to -76, 'M' to -4, 'N' to 4, 'S' to 36, 'X' to 78. |
| UTM.MidBand | src/Math/GeographicPoint/UTM.php:119-201 | No contract: the latitude halfway between the edges of band k, the reference the letter mapping is compared with. |
| UTM.MidBandC | src/Math/GeographicPoint/UTM.php:182-201 | Letters C to G map to the midpoints of their bands. |
| UTM.MidBandH | src/Math/GeographicPoint/UTM.php:162-181 | Letters H to M map to the midpoints of their bands. |
| UTM.MidBandN | src/Math/GeographicPoint/UTM.php:142-161 | Letters N to S map to the midpoints of their bands. |
| UTM.MidBandT | src/Math/GeographicPoint/UTM.php:122-141 | Letters T to X map to the midpoints of their bands. |
| UTM.IsSouthernHemisphere | src/Math/GeographicPoint/UTM.php:351-354 | A letter string is southern exactly when it is empty (an unassigned letter) or starts below 'N'. |
| UTM.StrLessOneChar | src/Math/GeographicPoint/UTM.php:351-354 | Comparing with a one-character string compares the first character, and the empty string is below it. |
| UTM.SouthernLetters | src/Math/GeographicPoint/UTM.php:351-354 | Among the band letters exactly C..M are southern; 'Z' is northern. |
| UTM.SouthernIffNegativeLatitude | src/Math/GeographicPoint/UTM.php:351-354 | On [-80, 84] the designated letter is southern exactly when the latitude is negative. |
| UTM.StrLess | src/Math/GeographicPoint/UTM.php:353 | PHP's `<` on two strings holds exactly when, for some k, the two agree on their first k characters and there the left one has ended or has the smaller character (lexicographic order). |
| UTM.CommonHead | src/Math/GeographicPoint/UTM.php:353 | A common first character leaves the order to the tails. |
| UTM.FormatZone | GeographicPoint/LatitudeLongitude.php:199 | No contract: `sprintf("%d%s")` of a zone number and a letter, or PHP's concatenation of an unassigned number (nothing) and the letter. ScanZoneOfFormatted reads it back. |
| UTM.Zone | src/Math/GeographicPoint/UTM.php:91-95 | No contract: the origin's zone number and letter concatenated. ScanDerivedZone reads it back. |
| UTM.ZoneLetter | src/Math/GeographicPoint/UTM.php:97-101 | No contract: the letter `sscanf("%d%s")` reads from the designator. ScanDerivedZone and FromOrigin state its value. |
| UTM.ZoneNumberOf | src/Math/GeographicPoint/UTM.php:103-107 | No contract: the number `sscanf("%d%s")` reads from the designator. ScanDerivedZone and FromOrigin state its value. |
| UTM.ScanZoneOfLetter | src/Math/GeographicPoint/UTM.php:97-107 | `sscanf("%d%s")` on a lone letter assigns neither the number nor the letter. |
| UTM.ScanDerivedZone | src/Math/GeographicPoint/UTM.php:91-107 | A designator the class derives reads back as the zone number and the letter; with no zone, as nothing. |
| UTM.FromOrigin | src/Math/GeographicPoint/UTM.php:82-95 | The origin form stores easting, northing, both origins and the datum unchanged. Its designator reads back as the zone of the origin and, when that zone is defined, the origin latitude's letter. With no zone the designator is the bare letter. |
| UTM.ZoneLetterLatitude | src/Math/GeographicPoint/UTM.php:80 | The last character of the designator is accepted exactly when it is a band letter. It then gives the latitude at the middle of that letter's band: a latitude designated by the letter that is the midpoint of its own band. Otherwise the error names that character, or "" for an empty designator. |
| UTM.FromZoneString | src/Math/GeographicPoint/UTM.php:75-81 | The string form succeeds exactly when the last character is a band letter. It stores easting, northing, designator and datum unchanged, which is what the getters return. The longitude of origin is the meridian of the designator's leading integer. The latitude of origin is the middle of the last letter's band. |
| UTM.FromZoneStringOfFormatted | src/Math/GeographicPoint/UTM.php:75-107 | A designator formatted as decimal n followed by a band letter L is accepted. It gives zone n's meridian, and reads back as n and L. |
| UTM.NewUTM | src/Math/GeographicPoint/UTM.php:73-89 | An invalid zone letter is reported before the datum. An unknown datum is UnknownDatum. With a valid letter (or an origin) and a known datum the point is always built: the string form or the origin form on the selected ellipsoid. |
| UTM.InverseInput | src/Math/GeographicPoint/UTM.php:299-310 | Standard mode removes the 500000 false easting and uses the stored meridian. It subtracts 10,000,000 from the northing if and only if the designator's letter is southern. Local mode passes easting and northing through and uses the given meridian. |
| UTM.ToLatitudeLongitudeAsWritten | src/Math/GeographicPoint/UTM.php:292-341 | Latitude is the series latitude on the point's ellipsoid. Longitude is the origin plus the series offset. The result is always on WGS 84. |
| UTM.ToLatitudeLongitude | src/Math/GeographicPoint/UTM.php:292-341 | Corrected inverse: as above, but the result keeps the point's datum. |
| UTM.ToLatitudeLongitudeDropsDatum | src/Math/GeographicPoint/UTM.php:340 | A point on the "Airy" ellipsoid comes back on another datum as written, and on its own datum corrected. |
| UTM.FormatTenS | src/Math/GeographicPoint/UTM.php:93-94 | Zone 10 followed by 'S' is formatted as "10S". |
| UTM.FixtureLetter | src/Math/GeographicPoint/UTM.php:80 | The last letter of "10S" gives latitude 36. |
| UTM.FixtureDesignator | src/Math/GeographicPoint/UTM.php:75-81 | "10S" is accepted, with meridian -123, latitude of origin 36, and a northern letter. |
| DecimalText.NatToString | src/Math/GeographicPoint/UTM.php:93-94 | The decimal text of a natural number is a non-empty run of digits. |
| DecimalText.IntToString | GeographicPoint/LatitudeLongitude.php:199 | `%d` text is non-empty and starts with no white space: digits for n ≥ 0, and a minus sign then digits for n < 0. |
| DecimalText.DigitRun | src/Math/GeographicPoint/UTM.php:99 | The run of digits `%d` consumes lies within the string. |
| DecimalText.SpaceRun | src/Math/GeographicPoint/UTM.php:99 | The white space `%d` and `%s` skip lies within the string. |
| DecimalText.WordRun | src/Math/GeographicPoint/UTM.php:99 | The word `%s` consumes lies within the string, holds no white space, and ends at white space or at the end of the string. |
| DecimalText.ScanSigned | src/Math/GeographicPoint/UTM.php:99 | An optional sign and digits, read without skipping white space, lie within the string. |
| DecimalText.ScanInt | src/Math/GeographicPoint/UTM.php:99 | What `%d` reads lies within the string. ScanIntOfFormatted states its value. |
| DecimalText.IntVal | src/Math/GeographicPoint/UTM.php:81 | No contract: `intval`, the leading integer or 0. ScanZoneOfFormatted states its value on a formatted designator. |
| DecimalText.ValueOfNatToString | src/Math/GeographicPoint/UTM.php:97-107 | Reading the digits of n back gives n. |
| DecimalText.DigitRunOfDigits | src/Math/GeographicPoint/UTM.php:99 | `%d` stops exactly at the end of a run of digits followed by a non-digit. |
| DecimalText.DigitRunIsDigits | src/Math/GeographicPoint/UTM.php:99 | What `%d` consumes as digits are digits. |
| DecimalText.ScanDigits | src/Math/GeographicPoint/UTM.php:99 | A digit run read is non-empty, inside the string, and made of digits. |
| DecimalText.ScanDigitsOfDigits | src/Math/GeographicPoint/UTM.php:99 | Digits followed by a non-digit read as their value and their count. |
| DecimalText.ScanIntNoSpace | src/Math/GeographicPoint/UTM.php:99 | With no leading white space `%d` reads from the first character. |
| DecimalText.ScanIntOfDigits | src/Math/GeographicPoint/UTM.php:99 | Digits followed by a non-digit read as their value. |
| DecimalText.ScanSignedNegative | src/Math/GeographicPoint/UTM.php:99 | A leading minus sign negates the digits that follow and counts one character, and `%d` reads the string from that sign. |
| DecimalText.ScanIntOfFormatted | src/Math/GeographicPoint/UTM.php:97-107 | `%d` reads back exactly the integer that `%d` wrote, whatever non-digit follows. |
| DecimalText.WordRunOfWord | src/Math/GeographicPoint/UTM.php:99 | `%s` consumes a whole word that has no white space. |
| DecimalText.ScanWord | src/Math/GeographicPoint/UTM.php:99 | A word read by `%s` is non-empty and has no white space. |
| DecimalText.ScanWordOfWord | src/Math/GeographicPoint/UTM.php:99 | `%s` reads exactly the word that follows. |
| DecimalText.ScanZone | src/Math/GeographicPoint/UTM.php:97-107 | The letter is never assigned without the number. |
| DecimalText.ScanZoneOfFormatted | src/Math/GeographicPoint/UTM.php:97-107 | `sscanf("%d%s")` and `intval` read back n and the word, for any word with no white space that does not start with a digit. |
| TransverseMercator.OffsetNorthing | GeographicPoint/LatitudeLongitude.php:224-226 | South of the equator the northing is raised by 10,000,000 m; elsewhere it is unchanged. |
| TransverseMercator.ToTMAsWritten | GeographicPoint/LatitudeLongitude.php:181-234 | Standard mode: the origin is the meridian of the zone of the sanitised longitude, with an undefined zone read as 0, and the false easting is 500000. Local mode: the given origin, no false easting. In both modes the southern offset is applied when lat < 0. The latitude of origin is the point's latitude. The designator is re-derived from the origin. The datum is WGS 84. |
| TransverseMercator.ToTM | GeographicPoint/LatitudeLongitude.php:181-234 | Corrected `toTM`. It fails, with UndefinedZone, exactly in standard mode when no zone covers the sanitised longitude. Otherwise, in standard mode the origin is the meridian of that zone, within 6 degrees of the longitude, and the designator is that zone followed by the latitude's letter and reads back as both. In local mode the origin is the caller's, and the designator is that of the point's own latitude and sanitised longitude, with that zone number. The offsets are as in the code, and the datum is the point's own. |
| TransverseMercator.StandardOffsetsCancel | src/Math/GeographicPoint/UTM.php:299-310 | When the corrected conversion succeeds in standard mode, the inverse is fed exactly the forward series output and origin, if and only if lat >= -80. |
| TransverseMercator.LocalOffsets | src/Math/GeographicPoint/UTM.php:299-310 | Local mode always succeeds, and the inverse is fed the forward easting unchanged and the northing with the forward's southern offset still in it. |
| TransverseMercator.LocalSouthernOffsetRemains | GeographicPoint/LatitudeLongitude.php:224-226 | A southern point in local mode reaches the inverse 10,000,000 m too far north. |
| TransverseMercator.RoundTrip | tests/LatitudeLongitudeTest.php:80-122 | For the corrected pair: if the inverse series undoes the forward one, then wherever the corrected `toTM` succeeds, converting to UTM and back gives the latitude, the sanitised longitude and the datum. This holds in standard mode for lat >= -80, and in local mode with the same origin for lat >= 0. |
| TransverseMercator.RoundTripAsWritten | tests/LatitudeLongitudeTest.php:80-122 | For the code as written: on WGS 84, if the inverse series undoes the forward one, converting to UTM and back gives the latitude and the sanitised longitude. This holds in standard mode for lat >= -80 wherever the zone is defined (the Norway band west of 3E included), and in local mode for lat >= 0. |
| TransverseMercator.AsWrittenOffsetsCancel | src/Math/GeographicPoint/UTM.php:299-310 | In standard mode as written, with a defined zone and lat >= -80, the inverse is fed exactly the forward series output and origin. |
| TransverseMercator.ReadBackFormatted | src/Math/GeographicPoint/UTM.php:75-81 | A point labelled "nL" with zone n's meridian is accepted by the string form exactly when L is a band letter; it then has the same meridian and the same inverse. |
| TransverseMercator.SameInverse | src/Math/GeographicPoint/UTM.php:292-341 | The inverse depends only on easting, northing, designator, meridian and datum. |
| TransverseMercator.DesignatorReadBack | GeographicPoint/LatitudeLongitude.php:194-202 | When the corrected standard-mode conversion succeeds, its designator is accepted by the string form exactly within [-80, 84]. It then gives back the same meridian and the same inverse. |
| TransverseMercator.AsWrittenAgreesLocal | GeographicPoint/LatitudeLongitude.php:181-234 | On WGS 84 and for lon >= -180, the corrected local mode succeeds with exactly the result of local mode as written if and only if the designator derived from the origin equals the one derived from the point's own longitude. |
| TransverseMercator.LocalLabelAsWritten | GeographicPoint/LatitudeLongitude.php:157-159 | At 37.42104N 121.85831W, which is in zone 10, local mode with origin -100 is labelled "14S" as written, the zone of the origin. Corrected, it is labelled "10S". |
| TransverseMercator.AsWrittenAgreesStandard | GeographicPoint/LatitudeLongitude.php:181-234 | On WGS 84 and for lon >= -180, the corrected standard mode succeeds with the result as written exactly when the zone is defined and the point is not in the Norway band west of 3E. |
| TransverseMercator.StandardFieldsAgree | GeographicPoint/LatitudeLongitude.php:181-234 | There, when the corrected conversion succeeds, the two standard-mode results differ at most in meridian and designator. |
| TransverseMercator.SameZoneSameLabel | src/Math/GeographicPoint/UTM.php:91-95 | The re-derived designator equals the formatted one exactly when re-deriving gives the same zone. |
| TransverseMercator.NorwayLabelAsWritten | src/Math/GeographicPoint/UTM.php:91-95 | At 60N 1.5E the code's origin is 3 but the point is labelled zone 32, which reads back as meridian 9. Corrected, the conversion succeeds with zone 31. |
| TransverseMercator.SvalbardGapAsWritten | GeographicPoint/LatitudeLongitude.php:317-329 | At 75N 50E the code's origin is -183 and the label is "X". The inverse then removes a southern offset that the forward never added. Corrected, the conversion fails with UndefinedZone(75, 50). |
| TransverseMercator.ToTMDropsDatum | GeographicPoint/LatitudeLongitude.php:228-233 | A point on the "Airy" ellipsoid converted as written is on another datum. Corrected, whenever the conversion succeeds, it keeps its datum. |
| TransverseMercator.FixtureToTM | tests/LatitudeLongitudeTest.php:47-77 | The test point is labelled "10S" in both modes, with meridian -123 in standard mode and -122 in local mode. |
| TransverseMercator.SeriesUndone | src/Math/GeographicPoint/UTM.php:299-310 | If the forward series undoes the inverse one, projecting the inverse's standard-mode result from the point's meridian and adding the false easting and southern offset gives back the point's easting and northing. |
| TransverseMercator.LabelOfZone | src/Math/GeographicPoint/UTM.php:91-95 | The designator derived at zone n's meridian is "nL" exactly when that meridian lies in zone n at that latitude and the latitude is designated L. |
| TransverseMercator.ReverseRoundTripAsWritten | tests/UTMTest.php:63-79 | For the code as written, on WGS 84: if the forward series undoes the inverse one, a point given by easting, northing and "nL" converted to latitude/longitude and back gets the same easting, northing and meridian back, provided the recovered longitude is in zone n and the recovered latitude is on the hemisphere L names. The designator comes back exactly when the recovered latitude is designated L and is not in the Norway band west of 3E. |
| TransverseMercator.ReverseRoundTrip | tests/UTMTest.php:63-79 | The same for the corrected pair, on any datum: the conversion back succeeds, gives the same easting, northing, meridian and datum, and gives back the designator exactly when the recovered latitude is designated L. |

## Left out

- The transverse-Mercator series bodies (GeographicPoint/LatitudeLongitude.php:204-223, src/Math/GeographicPoint/UTM.php:312-335) are floating-point trigonometry. They are function parameters, so the numeric fixtures of the tests (eastings and northings) are not stated.
- Floating point as a whole: coordinates are exact reals, and the constant 0.9996 is not used.
- The Lambert Conformal Conic conversions (`toLambert`, src/Math/GeographicPoint/Lambert.php) and GeographicPoint/Lambert/Config.php are log/pow/atan numerics, outside this model.
- GeographicPoint/DistanceCalculator.php is not part of this model: it stops at its first line and is floating point only.
- The `toString` methods are not modelled; they only produce human-readable text.
- The empty `utmZone()` stub (GeographicPoint/LatitudeLongitude.php:280-283) is not modelled: it does nothing.
- UTM.NewUTM: a zone argument that is neither a string nor an array leaves the zone fields unset in PHP. The model's `ZoneSpec` type only offers the two handled forms.
- UTM.ZoneLetterLatitude: `trigger_error(..., E_USER_ERROR)` ends the PHP script. The model returns `Failure(InvalidZoneLetter(c))` instead. The model takes the last character of the designator where `substr($zone, -1, 1)` takes the last byte, so for a designator that ends in a multi-byte character the rejected letter differs (the rejection itself does not, since no band letter is multi-byte).
- GeographicPoint.SelectDatum: PHP sets `a` and `e2` to null for an unknown name and records the name. The model returns `Failure(UnknownDatum(name))`, so it does not model computing with those nulls.
- PHP's integer overflow into floats is not modelled: zone numbers and meridians are unbounded integers.
- DecimalText.ScanInt: only the decimal `%d` forms the library produces and parses are modelled. Overflow, and locale-dependent white space, are not.
- The longitude field of the point constructor is written twice (`$this->longitude = $this->longitude = ...`). That has no effect and is modelled as one assignment.
- The tests and examples are drivers. Only their fixture values appear, as lemmas.

## Findings

| source | as written | input that shows it | evidently intended | confidence | as-written member | corrected member |
|---|---|---|---|---|---|---|
| GeographicPoint/LatitudeLongitude.php:248 | `(integer)` truncates toward zero, so longitudes below -180 are not brought into range | lon = -190 is returned unchanged | every longitude mapped into [-180, 180), as the doc comment says (-190 to 170) | not executed | UTMZones.SanitizeBelowRange | UTMZones.SanitizeLongitudeFloor |
| GeographicPoint/LatitudeLongitude.php:199 | `toTM` computes its own designator and discards it; the UTM constructor re-derives the designator from the origin it is given | 60N 1.5E: zone 31, origin 3, but labelled "32V", which reads back as meridian 9 | the designator of the zone that gave the origin ("31V") | not executed | TransverseMercator.NorwayLabelAsWritten | TransverseMercator.DesignatorReadBack |
| GeographicPoint/LatitudeLongitude.php:317-329 | in the Svalbard band outside 0..42E no zone is assigned, so the origin is -183 and the label is "X", and the inverse treats the point as southern | 75N 50E | a conversion that reports the missing zone instead of producing a point on meridian -183; the code names no zone for these longitudes | not executed | TransverseMercator.SvalbardGapAsWritten | TransverseMercator.ToTM |
| GeographicPoint/LatitudeLongitude.php:233 | the UTM point is built without the datum, so it is always on WGS 84 | any point on the "Airy" ellipsoid | the UTM point keeps the datum it was projected on | not executed | TransverseMercator.ToTMDropsDatum | TransverseMercator.RoundTrip |
| GeographicPoint/LatitudeLongitude.php:157-159 | in local mode the UTM point re-derives its designator from the caller's origin, so it names the origin's zone | 37.42104N 121.85831W with origin -100: labelled "14S", though the point is in zone 10 | the designator valid for the given latitude and longitude ("10S"), as the doc comment says | not executed | TransverseMercator.LocalLabelAsWritten | TransverseMercator.ToTM |
| src/Math/GeographicPoint/UTM.php:340 | the latitude/longitude point is built without the datum, so it is always on WGS 84 | any UTM point on the "Airy" ellipsoid | the result keeps the datum the inverse was computed on | not executed | UTM.ToLatitudeLongitudeDropsDatum | UTM.ToLatitudeLongitude |
