/** Versions as they are written (store.py): which texts the version pattern accepts, what it reads from
    them, and how two written versions compare, in terms of their numbers. */
module Versions {
  import opened Common
  import opened Canonical
  import opened Governance

  /** major.minor or major.minor.patch, after an optional v, and before an optional pre-release or build mark. */
  datatype Version = Version(mark: string, major: nat, minor: nat, patch: Option<nat>, suffix: string) {
    function Rest(): string {
      (if patch.Some? then "." + Decimal(patch.value) else "") + suffix
    }

    function Print(): string {
      mark + Decimal(major) + "." + Decimal(minor) + Rest()
    }

    predicate Proper() {
      && (mark == "" || mark == "v" || mark == "V")
      && (suffix == "" || (|suffix| > 1 && (suffix[0] == '+' || suffix[0] == '-') && forall k :: 1 <= k < |suffix| ==> IsMarkChar(suffix[k])))
    }
  }

  predicate IsMarkChar(c: char) {
    c == '.' || c == '-' || 'a' <= c <= 'z' || 'A' <= c <= 'Z' || '0' <= c <= '9'
  }

  // ----- numerals -----

  ghost predicate AllDigits(s: string) {
    forall k :: 0 <= k < |s| ==> IsDigit(s[k])
  }

  lemma {:induction false} DecimalIsNumeral(n: nat)
    ensures Decimal(n) != "" && AllDigits(Decimal(n)) && (Decimal(n)[0] == '0' <==> n == 0) && (n == 0 ==> Decimal(n) == "0")
    ensures IsNumeral(Decimal(n))
  {
    if n >= 10 {
      DecimalIsNumeral(n / 10);
      assert Decimal(n)[0] == Decimal(n / 10)[0];
    }
  }

  lemma {:induction false} NumeralIsDecimal(s: string)
    requires IsNumeral(s)
    ensures DecimalValue(s) >= 0 && Decimal(DecimalValue(s)) == s
    ensures s[0] != '0' ==> DecimalValue(s) > 0
    decreases |s|
  {
    if |s| == 1 {
      DigitIsDecimal(s);
    } else {
      var init, c := s[..|s| - 1], s[|s| - 1];
      assert c in s && init[0] == s[0];
      NumeralIsDecimal(init);
      assert DecimalValue(s) == 10 * DecimalValue(init) + (c as int - '0' as int);
      assert s == init + [c];
    }
  }

  lemma DigitIsDecimal(s: string)
    requires |s| == 1 && IsDigit(s[0])
    ensures DecimalValue(s) == s[0] as int - '0' as int && Decimal(DecimalValue(s)) == s
  {
    assert DecimalValue(s[..0]) == 0;
  }

  /** The digits a text starts with, when they are followed by none. */
  lemma {:induction false} DigitsAreTaken(d: string, rest: string)
    requires AllDigits(d) && (rest != "" ==> !IsDigit(rest[0]))
    ensures DigitPrefix(d + rest) == |d|
  {
    if d == "" {
      assert d + rest == rest;
    } else {
      assert (d + rest)[1..] == d[1..] + rest;
      DigitsAreTaken(d[1..], rest);
    }
  }

  lemma NumberIsRead(n: nat, rest: string)
    requires rest != "" ==> !IsDigit(rest[0])
    ensures LeadingNumeral(Decimal(n) + rest) == Some((Decimal(n), rest))
  {
    DecimalIsNumeral(n);
    DigitsAreTaken(Decimal(n), rest);
  }

  function Number(s: string): nat {
    if DecimalValue(s) >= 0 then DecimalValue(s) else 0
  }

  lemma ReadIsNumber(s: string)
    requires LeadingNumeral(s).Some?
    ensures var (d, rest) := LeadingNumeral(s).value; s == d + rest && d == Decimal(Number(d))
  {
    NumeralIsDecimal(LeadingNumeral(s).value.0);
  }

  // ----- suffixes -----

  predicate ProperSuffix(s: string) {
    Version("", 0, 0, None, s).Proper()
  }

  lemma SuffixIsProper(s: string)
    ensures IsSuffix(s) <==> ProperSuffix(s)
  {
    if |s| > 1 {
      forall k | 1 <= k < |s|
        ensures s[k] in s[1..]
      {
        assert s[k] == s[1..][k - 1];
      }
    }
  }

  // ----- the pattern -----

  lemma MarkIsSkipped(x: Version)
    requires x.Proper()
    ensures Unmarked(x.Print()) == Decimal(x.major) + ("." + (Decimal(x.minor) + x.Rest()))
  {
    DecimalIsNumeral(x.major);
    assert x.Print() == x.mark + (Decimal(x.major) + ("." + (Decimal(x.minor) + x.Rest())));
  }

  lemma PatchIsSkipped(x: Version)
    requires x.Proper()
    ensures AfterPatch(x.Rest()) == Some(x.suffix) && (x.Rest() != "" ==> !IsDigit(x.Rest()[0]))
  {
    if x.patch.Some? {
      NumberIsRead(x.patch.value, x.suffix);
      assert x.Rest()[1..] == Decimal(x.patch.value) + x.suffix;
    } else {
      assert x.Rest() == x.suffix;
    }
  }

  /** A written version is read back as its two numbers. */
  lemma PrintedIsParsed(x: Version)
    requires x.Proper()
    ensures ParseSemver(x.Print()) == Some(Semver(Decimal(x.major), Decimal(x.minor)))
  {
    var t := Decimal(x.minor) + x.Rest();
    MarkIsSkipped(x);
    SuffixIsProper(x.suffix);
    PatchIsSkipped(x);
    NumberIsRead(x.major, "." + t);
    NumberIsRead(x.minor, x.Rest());
    assert ("." + t)[1..] == t;
  }

  lemma RestIsRead(u: string) returns (patch: Option<nat>, suffix: string)
    requires AfterPatch(u).Some? && IsSuffix(AfterPatch(u).value)
    ensures ProperSuffix(suffix) && u == Version("", 0, 0, patch, suffix).Rest()
  {
    suffix := AfterPatch(u).value;
    SuffixIsProper(suffix);
    if u != "" && u[0] == '.' {
      ReadIsNumber(u[1..]);
      patch := Some(Number(LeadingNumeral(u[1..]).value.0));
      assert u == "." + u[1..];
    } else {
      patch := None;
    }
  }

  lemma NumbersAreRead(s: string) returns (major: nat, minor: nat)
    requires LeadingNumeral(s).Some? && LeadingNumeral(s).value.1 != "" && LeadingNumeral(s).value.1[0] == '.'
    requires LeadingNumeral(LeadingNumeral(s).value.1[1..]).Some?
    ensures s == Decimal(major) + ("." + (Decimal(minor) + LeadingNumeral(LeadingNumeral(s).value.1[1..]).value.1))
  {
    var after := LeadingNumeral(s).value.1;
    ReadIsNumber(s);
    ReadIsNumber(after[1..]);
    major, minor := Number(LeadingNumeral(s).value.0), Number(LeadingNumeral(after[1..]).value.0);
    assert after == "." + after[1..];
  }

  lemma PrintsTo(x: Version, rest: string)
    requires x.Rest() == rest
    ensures x.Print() == x.mark + (Decimal(x.major) + ("." + (Decimal(x.minor) + rest)))
  {
  }

  lemma MarkIsRead(text: string) returns (mark: string)
    ensures text == mark + Unmarked(text) && (mark == "" || mark == "v" || mark == "V")
  {
    mark := text[..|text| - |Unmarked(text)|];
    if mark != "" {
      assert mark == [text[0]];
    }
  }

  lemma PartsAreRead(s: string) returns (major: nat, minor: nat, patch: Option<nat>, suffix: string, rest: string)
    requires LeadingNumeral(s).Some? && LeadingNumeral(s).value.1 != "" && LeadingNumeral(s).value.1[0] == '.'
    requires LeadingNumeral(LeadingNumeral(s).value.1[1..]).Some?
    requires var u := LeadingNumeral(LeadingNumeral(s).value.1[1..]).value.1; AfterPatch(u).Some? && IsSuffix(AfterPatch(u).value)
    ensures s == Decimal(major) + ("." + (Decimal(minor) + rest))
    ensures ProperSuffix(suffix) && rest == Version("", 0, 0, patch, suffix).Rest()
  {
    major, minor := NumbersAreRead(s);
    rest := LeadingNumeral(LeadingNumeral(s).value.1[1..]).value.1;
    patch, suffix := RestIsRead(rest);
  }

  lemma ParsedIsPrinted(text: string) returns (x: Version)
    requires ParseSemver(text).Some?
    ensures x.Proper() && x.Print() == text
  {
    var mark := MarkIsRead(text);
    var major, minor, patch, suffix, rest := PartsAreRead(Unmarked(text));
    x := Version(mark, major, minor, patch, suffix);
    PrintsTo(x, rest);
  }

  /** A text parses exactly when it is a written version, and then to that version's numbers. */
  lemma ParsesExactlyVersions(text: string)
    ensures ParseSemver(text).Some? <==> exists x: Version :: x.Proper() && x.Print() == text
    ensures forall x: Version :: x.Proper() && x.Print() == text ==>
              ParseSemver(text) == Some(Semver(Decimal(x.major), Decimal(x.minor)))
  {
    forall x: Version | x.Proper() && x.Print() == text
      ensures ParseSemver(text) == Some(Semver(Decimal(x.major), Decimal(x.minor)))
    {
      PrintedIsParsed(x);
    }
    if ParseSemver(text).Some? {
      var x := ParsedIsPrinted(text);
    }
  }

  /** Two written versions of different texts are compared by their numbers and the memory's policy. */
  lemma VersionsCompareByNumbers(x: Version, y: Version, policy: CompatibilityPolicy)
    requires x.Proper() && y.Proper() && x.Print() != y.Print()
    ensures VersionCompatibility(x.Print(), y.Print(), policy)
            == if x.major != y.major then 0.0
               else if policy == SemverMinor || (policy == SemverPatch && x.minor == y.minor) then 1.0
               else if x.minor != y.minor then 0.35
               else 0.8
  {
    PrintedIsParsed(x);
    PrintedIsParsed(y);
    DecimalRoundTrip(x.major);
    DecimalRoundTrip(y.major);
    DecimalRoundTrip(x.minor);
    DecimalRoundTrip(y.minor);
  }

  /** A text that writes no version is only compatible with itself. */
  lemma OtherTextsCompareByEquality(a: string, b: string, policy: CompatibilityPolicy)
    requires forall x: Version :: x.Proper() ==> x.Print() != a
    ensures VersionCompatibility(a, b, policy) == VersionCompatibility(b, a, policy) == if a == b then 1.0 else 0.2
  {
    ParsesExactlyVersions(a);
  }
}
