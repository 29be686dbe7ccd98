/**
 * The PHP string primitives the UTM bookkeeping relies on: decimal
 * formatting of an integer (`sprintf("%d")` and string concatenation of an
 * int), `intval` of a string, and `sscanf($zone, "%d%s")`.
 */
module DecimalText {
  import opened Wrappers

  predicate IsDigit(c: char) { '0' <= c <= '9' }

  /** The characters PHP's scanner skips as white space. */
  predicate IsSpace(c: char) {
    c == ' ' || c == '\t' || c == '\n' || c == '\r' || c == '\U{000B}' || c == '\U{000C}'
  }

  predicate AllDigits(s: string) { forall i :: 0 <= i < |s| ==> IsDigit(s[i]) }

  function DigitChar(d: nat): char
    requires d < 10
  {
    ('0' as int + d) as char
  }

  function DigitValue(c: char): nat
  {
    if IsDigit(c) then c as int - '0' as int else 0
  }

  /** Decimal digits of a natural number, without leading zeros. */
  function NatToString(n: nat): (s: string)
    ensures |s| > 0 && AllDigits(s)
    decreases n
  {
    if n < 10 then [DigitChar(n)] else NatToString(n / 10) + [DigitChar(n % 10)]
  }

  /** `sprintf("%d", n)`: a minus sign for negative numbers, then the digits. */
  function IntToString(n: int): (s: string)
    ensures |s| > 0 && !IsSpace(s[0])
    ensures n >= 0 ==> AllDigits(s)
    ensures n < 0 ==> s[0] == '-' && AllDigits(s[1..])
  {
    if n >= 0 then NatToString(n) else "-" + NatToString(-n)
  }

  /** The value of a string of decimal digits, read from left to right. */
  function Value(ds: string): nat
  {
    if |ds| == 0 then 0 else Value(ds[..|ds| - 1]) * 10 + DigitValue(ds[|ds| - 1])
  }

  /** Length of the run of digits that starts s. */
  function DigitRun(s: string): (r: nat)
    ensures r <= |s|
  {
    if |s| > 0 && IsDigit(s[0]) then 1 + DigitRun(s[1..]) else 0
  }

  /** Length of the run of white space that starts s. */
  function SpaceRun(s: string): (r: nat)
    ensures r <= |s|
  {
    if |s| > 0 && IsSpace(s[0]) then 1 + SpaceRun(s[1..]) else 0
  }

  /** Length of the run of non-white-space characters that starts s. */
  function WordRun(s: string): (r: nat)
    ensures r <= |s| && (forall i :: 0 <= i < r ==> !IsSpace(s[i]))
    ensures r < |s| ==> IsSpace(s[r])
  {
    if |s| > 0 && !IsSpace(s[0]) then 1 + WordRun(s[1..]) else 0
  }

  /** A non-empty run of digits at the start of u: its value and its length. */
  function ScanDigits(u: string): (r: Option<(nat, nat)>)
    ensures r.Some? ==> 0 < r.value.1 <= |u| && AllDigits(u[..r.value.1])
  {
    var d := DigitRun(u);
    if d == 0 then None
    else
      DigitRunIsDigits(u);
      Some((Value(u[..d]), d))
  }

  /** An optional sign and a non-empty run of digits at the start of t: the value and the length read. */
  function ScanSigned(t: string): (r: Option<(int, nat)>)
    ensures r.Some? ==> r.value.1 <= |t|
  {
    var sign := if |t| > 0 && (t[0] == '-' || t[0] == '+') then 1 else 0;
    match ScanDigits(t[sign..])
    case None => None
    case Some((v, d)) => Some((if sign == 1 && t[0] == '-' then -(v as int) else v, sign + d))
  }

  /**
   * The `%d` conversion: skip white space, read an optional sign and a
   * non-empty run of digits. Yields the value and the index just after the
   * digits, or None when no digit follows.
   */
  function ScanInt(s: string): (r: Option<(int, nat)>)
    ensures r.Some? ==> r.value.1 <= |s|
  {
    var k := SpaceRun(s);
    match ScanSigned(s[k..])
    case None => None
    case Some((v, n)) => Some((v, k + n))
  }

  /** The `%s` conversion at index i: skip white space, read a non-empty word. */
  function ScanWord(s: string, i: nat): (r: Option<string>)
    requires i <= |s|
    ensures r.Some? ==> |r.value| > 0 && forall j :: 0 <= j < |r.value| ==> !IsSpace(r.value[j])
  {
    var rest := s[i..];
    var k := SpaceRun(rest);
    var w := WordRun(rest[k..]);
    if w == 0 then None else Some(rest[k..][..w])
  }

  /** What `sscanf($s, "%d%s", $number, $letter)` leaves in its two variables (None: unassigned). */
  datatype ZoneFields = ZoneFields(number: Option<int>, letter: Option<string>)

  function ScanZone(s: string): (r: ZoneFields)
    ensures r.number.None? ==> r.letter.None?
  {
    match ScanInt(s)
    case None => ZoneFields(None, None)
    case Some((v, i)) => ZoneFields(Some(v), ScanWord(s, i))
  }

  /** PHP `intval` of a string: its leading integer, or 0 when there is none. */
  function IntVal(s: string): int
  {
    match ScanInt(s)
    case None => 0
    case Some((v, _)) => v
  }

  lemma {:induction false} ValueOfNatToString(n: nat)
    ensures Value(NatToString(n)) == n
    decreases n
  {
    var s := NatToString(n);
    if n >= 10 {
      var p := NatToString(n / 10);
      assert s == p + [DigitChar(n % 10)];
      assert s[..|s| - 1] == p;
      ValueOfNatToString(n / 10);
    }
  }

  lemma {:induction false} DigitRunOfDigits(ds: string, rest: string)
    requires AllDigits(ds)
    requires |rest| == 0 || !IsDigit(rest[0])
    ensures DigitRun(ds + rest) == |ds|
  {
    if |ds| > 0 {
      assert (ds + rest)[1..] == ds[1..] + rest;
      DigitRunOfDigits(ds[1..], rest);
    } else {
      assert ds + rest == rest;
    }
  }

  lemma {:induction false} WordRunOfWord(w: string)
    requires forall j :: 0 <= j < |w| ==> !IsSpace(w[j])
    ensures WordRun(w) == |w|
  {
    if |w| > 0 {
      WordRunOfWord(w[1..]);
    }
  }

  lemma {:induction false} DigitRunIsDigits(u: string)
    ensures AllDigits(u[..DigitRun(u)])
  {
    if |u| > 0 && IsDigit(u[0]) {
      DigitRunIsDigits(u[1..]);
      assert u[..DigitRun(u)] == [u[0]] + u[1..][..DigitRun(u[1..])];
    }
  }

  lemma ScanDigitsOfDigits(ds: string, rest: string)
    requires |ds| > 0 && AllDigits(ds)
    requires |rest| == 0 || !IsDigit(rest[0])
    ensures ScanDigits(ds + rest) == Some((Value(ds), |ds|))
  {
    DigitRunOfDigits(ds, rest);
    assert (ds + rest)[..|ds|] == ds;
  }

  /** With no leading white space, `%d` reads from the first character on. */
  lemma ScanIntNoSpace(s: string)
    requires |s| > 0 && !IsSpace(s[0])
    ensures ScanInt(s) == ScanSigned(s)
  {
    assert SpaceRun(s) == 0;
    assert s[0..] == s;
  }

  /** `%d` on a string that starts with the digits ds, followed by a non-digit. */
  lemma ScanIntOfDigits(ds: string, rest: string)
    requires |ds| > 0 && AllDigits(ds)
    requires |rest| == 0 || !IsDigit(rest[0])
    ensures ScanInt(ds + rest) == Some((Value(ds) as int, |ds|))
  {
    var s := ds + rest;
    assert s[0] == ds[0];
    ScanIntNoSpace(s);
    ScanDigitsOfDigits(ds, rest);
  }

  /** A leading minus sign negates the digits that follow and counts one character, and `%d` reads from it. */
  lemma ScanSignedNegative(u: string, v: nat, d: nat)
    requires ScanDigits(u) == Some((v, d))
    ensures ScanSigned("-" + u) == Some((-(v as int), 1 + d))
    ensures ScanInt("-" + u) == Some((-(v as int), 1 + d))
  {
    var s := "-" + u;
    assert s[1..] == u;
    assert s[0] == '-';
    ScanIntNoSpace(s);
  }

  /** `%d` reads back exactly the number that `sprintf("%d")` wrote, stopping at the first non-digit. */
  lemma ScanIntOfFormatted(n: int, rest: string)
    requires |rest| == 0 || !IsDigit(rest[0])
    ensures ScanInt(IntToString(n) + rest) == Some((n, |IntToString(n)|))
  {
    if n >= 0 {
      ValueOfNatToString(n);
      ScanIntOfDigits(NatToString(n), rest);
    } else {
      var ds := NatToString(-n);
      ValueOfNatToString(-n);
      assert IntToString(n) + rest == "-" + (ds + rest);
      ScanDigitsOfDigits(ds, rest);
      ScanSignedNegative(ds + rest, -n, |ds|);
    }
  }

  /** `%s` reads a whole word that follows directly. */
  lemma ScanWordOfWord(prefix: string, word: string)
    requires |word| > 0 && forall j :: 0 <= j < |word| ==> !IsSpace(word[j])
    ensures ScanWord(prefix + word, |prefix|) == Some(word)
  {
    var rest := (prefix + word)[|prefix|..];
    assert rest == word;
    assert SpaceRun(rest) == 0;
    assert rest[0..] == word;
    WordRunOfWord(word);
    assert word[..|word|] == word;
  }

  /**
   * Reading back a formatted zone: `sscanf("%d%s")` and `intval` recover the
   * number and the trailing word from `sprintf("%d%s", n, word)` whenever the
   * word does not begin with a digit and contains no white space.
   */
  lemma ScanZoneOfFormatted(n: int, word: string)
    requires |word| > 0 && !IsDigit(word[0])
    requires forall j :: 0 <= j < |word| ==> !IsSpace(word[j])
    ensures ScanZone(IntToString(n) + word) == ZoneFields(Some(n), Some(word))
    ensures IntVal(IntToString(n) + word) == n
  {
    ScanIntOfFormatted(n, word);
    ScanWordOfWord(IntToString(n), word);
  }
}
