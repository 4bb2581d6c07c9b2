/**
 * The part of the `semver` library the release generator relies on.
 *
 * The generator only calls `semver.valid` and `semver.inc`.  The pipeline is
 * parametric in a `Library` value holding these two functions; `Plain` is a
 * concrete instance for plain MAJOR.MINOR.PATCH versions that follows items 2,
 * 6, 7, 8 and 11 of Semantic Versioning 2.0.0 and leaves prerelease versions
 * and the `prerelease` increment to an abstract fallback library.
 */
module Semver {
  import opened Wrappers

  /** The increment kinds the generator recognises. */
  datatype Increment = Major | Minor | Patch | Prerelease | Custom

  /** The word that selects each kind on the command line or in the snapshot. */
  function Keyword(k: Increment): string {
    match k
    case Major => "major"
    case Minor => "minor"
    case Patch => "patch"
    case Prerelease => "prerelease"
    case Custom => "custom"
  }

  /** Recognises one of the five increment keywords, case-sensitively. */
  function ParseIncrement(s: string): (r: Option<Increment>)
    ensures r.Some? ==> Keyword(r.value) == s
  {
    if s == "major" then Some(Major)
    else if s == "minor" then Some(Minor)
    else if s == "patch" then Some(Patch)
    else if s == "prerelease" then Some(Prerelease)
    else if s == "custom" then Some(Custom)
    else None
  }

  /** `ParseIncrement` recognises exactly the five keywords. */
  lemma ParseKeyword(k: Increment)
    ensures ParseIncrement(Keyword(k)) == Some(k)
  {
    match k
    case Major =>
    case Minor =>
    case Patch =>
    case Prerelease =>
    case Custom =>
  }

  /** `semver.valid` (truthy result) and `semver.inc` (`null` is `None`). */
  datatype Library = Library(valid: string -> bool, inc: (string, Increment) -> Option<string>)

  // ---------------------------------------------------------------------
  // Plain versions: MAJOR.MINOR.PATCH

  datatype Triple = Triple(major: nat, minor: nat, patch: nat)

  /** Precedence of plain versions (item 11): compare the fields numerically, left to right. */
  predicate Precedes(a: Triple, b: Triple) {
    a.major < b.major
    || (a.major == b.major && a.minor < b.minor)
    || (a.major == b.major && a.minor == b.minor && a.patch < b.patch)
  }

  /** Increments a plain version (items 6, 7 and 8); only major, minor and patch apply. */
  function Bump(t: Triple, k: Increment): Option<Triple> {
    match k
    case Major => Some(Triple(t.major + 1, 0, 0))
    case Minor => Some(Triple(t.major, t.minor + 1, 0))
    case Patch => Some(Triple(t.major, t.minor, t.patch + 1))
    case _ => None
  }

  /** Every bump yields a version of strictly higher precedence. */
  lemma BumpIncreases(t: Triple, k: Increment)
    requires Bump(t, k).Some?
    ensures Precedes(t, Bump(t, k).value)
  {
  }

  predicate IsDigit(c: char) {
    '0' <= c <= '9'
  }

  function DigitChar(d: nat): (c: char)
    requires d < 10
    ensures IsDigit(c)
  {
    ('0' as int + d) as char
  }

  function DigitValue(c: char): (d: nat)
    requires IsDigit(c)
    ensures d < 10 && DigitChar(d) == c
  {
    c as int - '0' as int
  }

  predicate AllDigits(s: string) {
    forall i :: 0 <= i < |s| ==> IsDigit(s[i])
  }

  /** A numeric identifier (item 2): non-empty decimal digits without a leading zero. */
  predicate IsNumeral(s: string) {
    |s| > 0 && AllDigits(s) && (s[0] == '0' ==> |s| == 1)
  }

  /** The decimal text of a natural number. */
  function NatToString(n: nat): string
    decreases n
  {
    if n < 10 then [DigitChar(n)] else NatToString(n / 10) + [DigitChar(n % 10)]
  }

  /** The value of a string of decimal digits. */
  function StringToNat(s: string): nat
    requires AllDigits(s)
    decreases |s|
  {
    if s == [] then 0 else 10 * StringToNat(s[..|s| - 1]) + DigitValue(s[|s| - 1])
  }

  lemma {:induction false} NatToStringDigits(n: nat)
    ensures |NatToString(n)| > 0 && AllDigits(NatToString(n))
    ensures n > 0 ==> NatToString(n)[0] != '0'
    decreases n
  {
    if n >= 10 {
      NatToStringDigits(n / 10);
      var p := NatToString(n / 10);
      assert NatToString(n) == p + [DigitChar(n % 10)];
      assert NatToString(n)[0] == p[0];
    } else if n > 0 {
      assert NatToString(n) == [DigitChar(n)];
    }
  }

  /** The decimal text of a number is a numeric identifier with that value. */
  lemma {:induction false} NatToStringRoundTrip(n: nat)
    ensures IsNumeral(NatToString(n))
    ensures StringToNat(NatToString(n)) == n
    decreases n
  {
    NatToStringDigits(n);
    var s := NatToString(n);
    if n < 10 {
      assert s[..0] == [];
    } else {
      NatToStringRoundTrip(n / 10);
      var p := NatToString(n / 10);
      assert s == p + [DigitChar(n % 10)];
      assert s[..|s| - 1] == p;
    }
  }

  lemma {:induction false} ZeroValueAllZeros(s: string)
    requires AllDigits(s) && |s| > 0 && StringToNat(s) == 0
    ensures s[0] == '0'
    decreases |s|
  {
    if |s| > 1 {
      var p := s[..|s| - 1];
      assert p[0] == s[0];
      ZeroValueAllZeros(p);
    }
  }

  /** A numeric identifier is the decimal text of its own value. */
  lemma {:induction false} StringToNatRoundTrip(s: string)
    requires IsNumeral(s)
    ensures NatToString(StringToNat(s)) == s
    decreases |s|
  {
    if |s| == 1 {
      assert s[..0] == [];
      assert s == [s[0]];
    } else {
      var p := s[..|s| - 1];
      assert p[0] == s[0];
      assert IsNumeral(p);
      StringToNatRoundTrip(p);
      if StringToNat(p) == 0 {
        ZeroValueAllZeros(p);
        assert false;
      }
      var n := StringToNat(s);
      assert n == 10 * StringToNat(p) + DigitValue(s[|s| - 1]);
      assert n / 10 == StringToNat(p) && n % 10 == DigitValue(s[|s| - 1]);
      assert s == p + [s[|s| - 1]];
    }
  }

  /** Splits a string at every '.'. */
  function Split(s: string): (parts: seq<string>)
    ensures |parts| >= 1
    decreases |s|
  {
    if s == [] then [""]
    else
      var rest := Split(s[1..]);
      if s[0] == '.' then [""] + rest else [[s[0]] + rest[0]] + rest[1..]
  }

  /** Joins non-empty sequences of parts with '.'. */
  function Join(parts: seq<string>): string
    requires |parts| >= 1
    decreases |parts|
  {
    if |parts| == 1 then parts[0] else parts[0] + "." + Join(parts[1..])
  }

  lemma {:induction false} SplitPartsHaveNoDot(s: string)
    ensures forall i :: 0 <= i < |Split(s)| ==> '.' !in Split(s)[i]
    decreases |s|
  {
    if s != [] {
      SplitPartsHaveNoDot(s[1..]);
    }
  }

  lemma {:induction false} SplitPrefix(a: string, rest: string)
    requires '.' !in a
    ensures Split(a + rest) == [a + Split(rest)[0]] + Split(rest)[1..]
    decreases |a|
  {
    var tail := Split(rest);
    if a != [] {
      SplitPrefix(a[1..], rest);
      assert (a + rest)[1..] == a[1..] + rest;
      var inner := Split(a[1..] + rest);
      assert inner[0] == a[1..] + tail[0] && inner[1..] == tail[1..];
      assert (a + rest)[0] == a[0] && a[0] != '.';
      assert Split(a + rest) == [[a[0]] + inner[0]] + inner[1..];
      assert [a[0]] + (a[1..] + tail[0]) == a + tail[0];
    } else {
      assert a + rest == rest;
      assert a + tail[0] == tail[0];
      assert [tail[0]] + tail[1..] == tail;
    }
  }

  /** Splitting undoes joining parts that contain no '.'. */
  lemma {:induction false} SplitJoin(parts: seq<string>)
    requires |parts| >= 1
    requires forall i :: 0 <= i < |parts| ==> '.' !in parts[i]
    ensures Split(Join(parts)) == parts
    decreases |parts|
  {
    if |parts| == 1 {
      SplitPrefix(parts[0], "");
      assert parts[0] + "" == parts[0];
    } else {
      SplitJoin(parts[1..]);
      var tail := "." + Join(parts[1..]);
      assert Join(parts) == parts[0] + tail;
      SplitPrefix(parts[0], tail);
      assert tail[0] == '.' && tail[1..] == Join(parts[1..]);
      assert Split(tail) == [""] + parts[1..];
      assert Split(tail)[0] == "" && Split(tail)[1..] == parts[1..];
      assert parts[0] + "" == parts[0];
      assert parts == [parts[0]] + parts[1..];
    }
  }

  /** Joining undoes splitting. */
  lemma {:induction false} JoinSplit(s: string)
    ensures Join(Split(s)) == s
    decreases |s|
  {
    if s != [] {
      JoinSplit(s[1..]);
      var rest := Split(s[1..]);
      if s[0] == '.' {
        assert ([""] + rest)[1..] == rest;
        assert s == "." + s[1..];
      } else if |rest| == 1 {
        assert s == [s[0]] + s[1..];
      } else {
        var parts := [[s[0]] + rest[0]] + rest[1..];
        assert parts[1..] == rest[1..];
        assert Join(rest) == rest[0] + "." + Join(rest[1..]);
        assert s == [s[0]] + s[1..];
      }
    }
  }

  /** The text of a plain version. */
  function Format(t: Triple): string {
    Join([NatToString(t.major), NatToString(t.minor), NatToString(t.patch)])
  }

  /** Recognises the text of a plain version: three numeric identifiers separated by '.'. */
  function Parse(s: string): Option<Triple> {
    var parts := Split(s);
    if |parts| == 3 && IsNumeral(parts[0]) && IsNumeral(parts[1]) && IsNumeral(parts[2])
    then Some(Triple(StringToNat(parts[0]), StringToNat(parts[1]), StringToNat(parts[2])))
    else None
  }

  /** Parsing the text of a plain version gives it back. */
  lemma ParseFormat(t: Triple)
    ensures Parse(Format(t)) == Some(t)
  {
    var parts := [NatToString(t.major), NatToString(t.minor), NatToString(t.patch)];
    NatToStringRoundTrip(t.major);
    NatToStringRoundTrip(t.minor);
    NatToStringRoundTrip(t.patch);
    assert forall i :: 0 <= i < 3 ==> AllDigits(parts[i]);
    SplitJoin(parts);
  }

  /** Every text `Parse` accepts is the canonical text of its version. */
  lemma FormatParse(s: string)
    requires Parse(s).Some?
    ensures Format(Parse(s).value) == s
  {
    var parts := Split(s);
    StringToNatRoundTrip(parts[0]);
    StringToNatRoundTrip(parts[1]);
    StringToNatRoundTrip(parts[2]);
    JoinSplit(s);
    assert parts == [parts[0], parts[1], parts[2]];
  }

  /**
   * `semver.valid` and `semver.inc` on plain versions.  Texts that are not plain
   * versions (prerelease tags, build metadata, a leading 'v' or '=') and the
   * `prerelease` increment are left to `fallback`.  `semver.inc` rejects an
   * unknown release type such as "custom" with `null`.
   */
  function Plain(fallback: Library): Library {
    Library(
      s => Parse(s).Some? || fallback.valid(s),
      (s, k) =>
        match Parse(s)
        case Some(t) =>
          if k == Prerelease then fallback.inc(s, k)
          else if k == Custom then None
          else Some(Format(Bump(t, k).value))
        case None => fallback.inc(s, k))
  }

  /** On a plain version, `Plain` increments by the rules of items 6 to 8 and validates. */
  lemma PlainIncrements(fallback: Library, t: Triple, k: Increment)
    requires k in {Major, Minor, Patch}
    ensures Plain(fallback).valid(Format(t))
    ensures Plain(fallback).inc(Format(t), k) == Some(Format(Bump(t, k).value))
    ensures Parse(Plain(fallback).inc(Format(t), k).value) == Bump(t, k)
    ensures Precedes(t, Parse(Plain(fallback).inc(Format(t), k).value).value)
  {
    ParseFormat(t);
    ParseFormat(Bump(t, k).value);
  }

  /** Bumping minor on 1.2.3 gives 1.3.0. */
  lemma MinorExample(fallback: Library)
    ensures Plain(fallback).inc("1.2.3", Minor) == Some("1.3.0")
  {
    assert Format(Triple(1, 2, 3)) == "1.2.3";
    assert Format(Triple(1, 3, 0)) == "1.3.0";
    PlainIncrements(fallback, Triple(1, 2, 3), Minor);
  }

  /** Bumping patch on 0.0.0 gives 0.0.1. */
  lemma PatchExample(fallback: Library)
    ensures Plain(fallback).inc("0.0.0", Patch) == Some("0.0.1")
  {
    assert Format(Triple(0, 0, 0)) == "0.0.0";
    assert Format(Triple(0, 0, 1)) == "0.0.1";
    PlainIncrements(fallback, Triple(0, 0, 0), Patch);
  }
}
