/**
 * The abstract base of every point: the fixed table of reference
 * ellipsoids and the datum selection its constructor performs.
 */
module GeographicPoint {
  import opened Wrappers

  /**
   * The errors the library raises or, for an unknown datum and for a point
   * that no UTM zone covers, should raise.
   */
  datatype Error =
    | UnknownDatum(name: string)
    | InvalidZoneLetter(letter: string)
    | UndefinedZone(latitude: real, longitude: real)

  /** A named reference ellipsoid: equatorial radius `a` in metres, eccentricity squared `e2`. */
  datatype Ellipsoid = Ellipsoid(name: string, a: int, e2: real)

  /** The reference-ellipsoid table, in the order the source lists it. */
  const Ellipsoids: seq<Ellipsoid> := [
    Ellipsoid("Airy", 6377563, 0.00667054),
    Ellipsoid("Australian National", 6378160, 0.006694542),
    Ellipsoid("Bessel 1841", 6377397, 0.006674372),
    Ellipsoid("Bessel 1841 Nambia", 6377484, 0.006674372),
    Ellipsoid("Clarke 1866", 6378206, 0.006768658),
    Ellipsoid("Clarke 1880", 6378249, 0.006803511),
    Ellipsoid("Everest", 6377276, 0.006637847),
    Ellipsoid("Fischer 1960 Mercury", 6378166, 0.006693422),
    Ellipsoid("Fischer 1968", 6378150, 0.006693422),
    Ellipsoid("GRS 1967", 6378160, 0.006694605),
    Ellipsoid("GRS 1980", 6378137, 0.00669438),
    Ellipsoid("Helmert 1906", 6378200, 0.006693422),
    Ellipsoid("Hough", 6378270, 0.00672267),
    Ellipsoid("International", 6378388, 0.00672267),
    Ellipsoid("Krassovsky", 6378245, 0.006693422),
    Ellipsoid("Modified Airy", 6377340, 0.00667054),
    Ellipsoid("Modified Everest", 6377304, 0.006637847),
    Ellipsoid("Modified Fischer 1960", 6378155, 0.006693422),
    Ellipsoid("South American 1969", 6378160, 0.006694542),
    Ellipsoid("WGS 60", 6378165, 0.006693422),
    Ellipsoid("WGS 66", 6378145, 0.006694542),
    Ellipsoid("WGS 72", 6378135, 0.006694318),
    Ellipsoid("WGS 84", 6378137, 0.00669438)
  ]

  const DefaultDatum: string := "WGS 84"

  /** The WGS 84 entry, which an empty datum selects. */
  function DefaultEllipsoid(): Ellipsoid
  {
    Ellipsoid("WGS 84", 6378137, 0.00669438)
  }

  /** An empty or omitted datum, and the name "WGS 84", both select the default ellipsoid. */
  lemma DefaultEllipsoidSelected()
    ensures SelectDatum("") == Success(DefaultEllipsoid())
    ensures SelectDatum("0") == Success(DefaultEllipsoid())
    ensures SelectDatum(DefaultDatum) == Success(DefaultEllipsoid())
  {
    DefaultDatumListed();
  }

  /** PHP `empty()` on a string: true for "" and for "0". */
  predicate IsEmptyDatum(datum: string) { datum == "" || datum == "0" }

  /**
   * The entry of `table` named `name`, if there is one. This returns the
   * first entry with that name, whereas a PHP array literal that repeats a
   * key keeps the last value; the two agree on `Ellipsoids` because its
   * names are distinct (EllipsoidNamesDistinct).
   */
  function Find(table: seq<Ellipsoid>, name: string): (r: Option<Ellipsoid>)
    ensures r.Some? ==> r.value in table && r.value.name == name
    ensures r.None? <==> forall i :: 0 <= i < |table| ==> table[i].name != name
  {
    if |table| == 0 then None
    else if table[0].name == name then Some(table[0])
    else Find(table[1..], name)
  }

  /**
   * The datum lookup of the point constructor: an empty datum selects
   * WGS 84; otherwise the named entry, whose radius and eccentricity become
   * the point's `a` and `e2`. A name outside the table is an error.
   */
  function SelectDatum(datum: string): (r: Result<Ellipsoid, Error>)
    ensures IsEmptyDatum(datum) ==> r == Success(Ellipsoid("WGS 84", 6378137, 0.00669438))
    ensures !IsEmptyDatum(datum) ==>
              (r.Success? <==> exists i :: 0 <= i < |Ellipsoids| && Ellipsoids[i].name == datum)
    ensures r.Success? ==> r.value in Ellipsoids
    ensures r.Success? && !IsEmptyDatum(datum) ==> r.value.name == datum
    ensures r.Failure? ==> r.error == UnknownDatum(datum)
  {
    var name := if IsEmptyDatum(datum) then DefaultDatum else datum;
    DefaultDatumListed();
    match Find(Ellipsoids, name)
    case Some(e) => Success(e)
    case None => Failure(UnknownDatum(datum))
  }

  /** The default name is in the table, with the WGS 84 parameters. */
  lemma DefaultDatumListed()
    ensures Find(Ellipsoids, DefaultDatum) == Some(Ellipsoid("WGS 84", 6378137, 0.00669438))
  {
    EllipsoidNamesDistinct();
    FindFirst(Ellipsoids, 22);
  }

  predicate DistinctNames(table: seq<Ellipsoid>) {
    forall i, j :: 0 <= i < j < |table| ==> table[i].name != table[j].name
  }

  /** Lookup finds an entry whose name no earlier entry carries. */
  lemma {:induction false} FindFirst(table: seq<Ellipsoid>, k: nat)
    requires k < |table|
    requires forall i :: 0 <= i < k ==> table[i].name != table[k].name
    ensures Find(table, table[k].name) == Some(table[k])
  {
    if k > 0 {
      assert table[0].name != table[k].name;
      assert table[1..][k - 1] == table[k];
      FindFirst(table[1..], k - 1);
    }
  }

  /** In a table without repeated names, lookup finds every entry by its name. */
  lemma FindDistinct(table: seq<Ellipsoid>, k: nat)
    requires k < |table| && DistinctNames(table)
    ensures Find(table, table[k].name) == Some(table[k])
  {
    FindFirst(table, k);
  }

  /** The table holds 23 entries. */
  lemma EllipsoidTableSize()
    ensures |Ellipsoids| == 23
  {
  }

  /** Every entry is a proper oblate ellipsoid: positive radius, eccentricity squared strictly between 0 and 1. */
  lemma EllipsoidParametersValid()
    ensures forall i :: 0 <= i < |Ellipsoids| ==> Ellipsoids[i].a > 0 && 0.0 < Ellipsoids[i].e2 < 1.0
  {
  }

  /** No name occurs twice, so the associative array loses no entry. */
  lemma EllipsoidNamesDistinct()
    ensures forall i, j :: 0 <= i < j < |Ellipsoids| ==> Ellipsoids[i].name != Ellipsoids[j].name
  {
  }

  /** GRS 1980 and WGS 84 carry identical parameters. */
  lemma Grs1980IsWgs84()
    ensures SelectDatum("GRS 1980") == Success(Ellipsoid("GRS 1980", 6378137, 0.00669438))
    ensures SelectDatum("WGS 84") == Success(Ellipsoid("WGS 84", 6378137, 0.00669438))
  {
    TableEntries();
    SelectListedDatum(10);
    SelectListedDatum(22);
  }

  lemma TableEntries()
    ensures Ellipsoids[10] == Ellipsoid("GRS 1980", 6378137, 0.00669438)
    ensures Ellipsoids[22] == Ellipsoid("WGS 84", 6378137, 0.00669438)
  {
  }

  /** Naming any entry of the table selects exactly that entry. */
  lemma SelectListedDatum(k: nat)
    requires k < |Ellipsoids|
    ensures SelectDatum(Ellipsoids[k].name) == Success(Ellipsoids[k])
  {
    EllipsoidNamesDistinct();
    EllipsoidNamesNotEmpty();
    assert DistinctNames(Ellipsoids);
    FindDistinct(Ellipsoids, k);
  }

  lemma EllipsoidNamesNotEmpty()
    ensures forall i :: 0 <= i < |Ellipsoids| ==> |Ellipsoids[i].name| > 1
  {
  }
}
