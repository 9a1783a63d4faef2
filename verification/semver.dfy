/** The order of releases (internal/system/update.go: semverPattern, newerVersion,
    comparePrerelease, isNumeric, prereleaseManifests), against section 11 of Semantic
    Versioning 2.0.0. */
module Semver {
  import opened Prelude

  // ----- Text -----

  predicate IsDigit(c: char) {
    '0' <= c <= '9'
  }

  predicate IsIdentifierChar(c: char) {
    IsDigit(c) || 'A' <= c <= 'Z' || 'a' <= c <= 'z' || c == '-'
  }

  predicate AllDigits(s: string) {
    forall i | 0 <= i < |s| :: IsDigit(s[i])
  }

  /** Go's byte-wise three-way comparison of two strings. */
  function CompareText(a: string, b: string): (r: int)
    ensures -1 <= r <= 1
  {
    if a == [] && b == [] then 0
    else if a == [] then -1
    else if b == [] then 1
    else if a[0] < b[0] then -1
    else if a[0] > b[0] then 1
    else CompareText(a[1..], b[1..])
  }

  /** Length first, then text: how the program compares numerals. */
  function CompareNumerals(a: string, b: string): int {
    if |a| != |b| then (if |a| < |b| then -1 else 1) else CompareText(a, b)
  }

  function Split(s: string): (parts: seq<string>)
    ensures parts != []
  {
    if s == [] then [""]
    else
      var rest := Split(s[1..]);
      if s[0] == '.' then [""] + rest else [[s[0]] + rest[0]] + rest[1..]
  }

  function Join(parts: seq<string>): string
    requires parts != []
  {
    if |parts| == 1 then parts[0] else parts[0] + "." + Join(parts[1..])
  }

  lemma {:induction false} JoinSplit(s: string)
    ensures Join(Split(s)) == s
  {
    if s != [] {
      JoinSplit(s[1..]);
      var rest := Split(s[1..]);
      if s[0] == '.' {
        assert ([""] + rest)[1..] == rest;
      } else {
        var parts := [[s[0]] + rest[0]] + rest[1..];
        assert parts[1..] == rest[1..];
        if |rest| > 1 {
          assert Join(parts) == [s[0]] + rest[0] + "." + Join(rest[1..]);
          assert Join(parts) == [s[0]] + Join(rest);
        }
      }
      assert [s[0]] + s[1..] == s;
    }
  }

  // ----- Versions -----

  /** What the pattern captures; an absent pre-release is empty. */
  datatype Version = Version(major: string, minor: string, patch: string, prerelease: string)

  predicate IsNumeral(s: string) {
    s != "" && AllDigits(s) && (|s| > 1 ==> s[0] != '0')
  }

  predicate IsNumeric(id: string) {
    id != "" && AllDigits(id)
  }

  method IsNumericId(value: string) returns (numeric: bool)
    ensures numeric == IsNumeric(value)
  {
    for i := 0 to |value|
      invariant AllDigits(value[..i])
    {
      if value[i] < '0' || value[i] > '9' { return false; }
    }
    assert value[..|value|] == value;
    numeric := value != "";
  }

  function CompareIdentifiers(a: string, b: string): int {
    if IsNumeric(a) && IsNumeric(b) then CompareNumerals(a, b)
    else if IsNumeric(a) then -1
    else if IsNumeric(b) then 1
    else CompareText(a, b)
  }

  function CompareLists(a: seq<string>, b: seq<string>): int {
    if a == [] && b == [] then 0
    else if a == [] then -1
    else if b == [] then 1
    else if CompareIdentifiers(a[0], b[0]) != 0 then CompareIdentifiers(a[0], b[0])
    else CompareLists(a[1..], b[1..])
  }

  function ComparePrereleases(a: string, b: string): int {
    if a == b then 0 else if a == "" then 1 else if b == "" then -1 else CompareLists(Split(a), Split(b))
  }

  /** The first difference decides. */
  function Then(first: int, second: int): int {
    if first != 0 then first else second
  }

  function Compare(a: Version, b: Version): int {
    Then(CompareNumerals(a.major, b.major), Then(CompareNumerals(a.minor, b.minor),
      Then(CompareNumerals(a.patch, b.patch), ComparePrereleases(a.prerelease, b.prerelease))))
  }

  method CompareParts(left: seq<string>, right: seq<string>) returns (r: int)
    requires left != right
    ensures r == CompareLists(left, right)
  {
    var i := 0;
    while i < |left| && i < |right|
      invariant i <= |left| && i <= |right| && left[..i] == right[..i]
      invariant CompareLists(left, right) == CompareLists(left[i..], right[i..])
    {
      if left[i] == right[i] {
        SameIdentifier(left[i]);
        assert left[i..][1..] == left[i + 1..] && right[i..][1..] == right[i + 1..];
        i := i + 1;
        continue;
      }
      OrderOfText(left[i], right[i], left[i]);
      OrderOfIdentifiers(left[i], right[i], left[i]);
      var leftNumber := IsNumericId(left[i]);
      var rightNumber := IsNumericId(right[i]);
      if leftNumber != rightNumber {
        return if leftNumber then -1 else 1;
      }
      if leftNumber && |left[i]| != |right[i]| {
        return if |left[i]| > |right[i]| then 1 else -1;
      }
      return if CompareText(left[i], right[i]) > 0 then 1 else -1;
    }
    assert left[..|left|] == left && right[..|right|] == right;
    r := if |left| > |right| then 1 else -1;
  }

  method ComparePrerelease(candidate: string, current: string) returns (r: int)
    ensures r == ComparePrereleases(candidate, current)
  {
    if candidate == current { return 0; }
    if candidate == "" { return 1; }
    if current == "" { return -1; }
    JoinSplit(candidate);
    JoinSplit(current);
    r := CompareParts(Split(candidate), Split(current));
  }

  /** `newerVersion` on the submatches of the pattern, None where a tag does not match. */
  method NewerVersion(candidate: Option<Version>, current: Option<Version>) returns (newer: bool)
    ensures newer == Newer(candidate, current)
  {
    if candidate.None? || current.None? { return false; }
    var a, b := candidate.value, current.value;
    var left, right := [a.major, a.minor, a.patch], [b.major, b.minor, b.patch];
    for i := 0 to 3
      invariant left[..i] == right[..i]
    {
      OrderOfText(left[i], right[i], left[i]);
      if |left[i]| != |right[i]| {
        Difference(a, b, left, right, i);
        return |left[i]| > |right[i]|;
      }
      if left[i] != right[i] {
        Difference(a, b, left, right, i);
        return CompareText(left[i], right[i]) > 0;
      }
    }
    assert left[..3] == left && right[..3] == right;
    OrderOfText(a.major, a.major, a.major);
    OrderOfText(a.minor, a.minor, a.minor);
    OrderOfText(a.patch, a.patch, a.patch);
    var r := ComparePrerelease(a.prerelease, b.prerelease);
    newer := r > 0;
  }

  predicate Newer(candidate: Option<Version>, current: Option<Version>) {
    candidate.Some? && current.Some? && Compare(candidate.value, current.value) > 0
  }

  lemma Difference(a: Version, b: Version, left: seq<string>, right: seq<string>, i: nat)
    requires left == [a.major, a.minor, a.patch] && right == [b.major, b.minor, b.patch]
    requires i < 3 && left[..i] == right[..i] && left[i] != right[i]
    ensures Compare(a, b) == CompareNumerals(left[i], right[i])
  {
    assert forall k | 0 <= k < i :: left[k] == left[..i][k] == right[..i][k];
    OrderOfText(left[0], right[0], left[0]);
    OrderOfText(left[1], right[1], left[1]);
    OrderOfText(left[2], right[2], left[2]);
  }

  // ----- A total order -----

  lemma {:induction false} OrderOfText(a: string, b: string, c: string)
    ensures CompareText(a, b) == -CompareText(b, a)
    ensures CompareText(a, b) == 0 <==> a == b
    ensures CompareText(a, b) < 0 && CompareText(b, c) < 0 ==> CompareText(a, c) < 0
    decreases |a| + |b|
  {
    if a != [] && b != [] {
      assert a == [a[0]] + a[1..] && b == [b[0]] + b[1..];
      OrderOfText(a[1..], b[1..], if c == [] then [] else c[1..]);
    }
  }

  lemma SameIdentifier(a: string)
    ensures CompareIdentifiers(a, a) == 0
  {
    OrderOfText(a, a, a);
  }

  lemma OrderOfIdentifiers(a: string, b: string, c: string)
    ensures CompareIdentifiers(a, b) == -CompareIdentifiers(b, a)
    ensures CompareIdentifiers(a, b) == 0 <==> a == b
    ensures CompareIdentifiers(a, b) < 0 && CompareIdentifiers(b, c) < 0 ==> CompareIdentifiers(a, c) < 0
  {
    OrderOfText(a, b, c);
  }

  lemma {:induction false} OrderOfLists(a: seq<string>, b: seq<string>, c: seq<string>)
    ensures CompareLists(a, b) == -CompareLists(b, a)
    ensures CompareLists(a, b) == 0 <==> a == b
    ensures CompareLists(a, b) < 0 && CompareLists(b, c) < 0 ==> CompareLists(a, c) < 0
    decreases |a| + |b|
  {
    if a != [] && b != [] {
      assert a == [a[0]] + a[1..] && b == [b[0]] + b[1..];
      OrderOfIdentifiers(a[0], b[0], if c == [] then "" else c[0]);
      if c != [] {
        OrderOfIdentifiers(b[0], c[0], a[0]);
      }
      OrderOfLists(a[1..], b[1..], if c == [] then [] else c[1..]);
    }
  }

  lemma OrderOfPrereleases(a: string, b: string, c: string)
    ensures ComparePrereleases(a, b) == -ComparePrereleases(b, a)
    ensures ComparePrereleases(a, b) == 0 <==> a == b
    ensures ComparePrereleases(a, b) < 0 && ComparePrereleases(b, c) < 0 ==> ComparePrereleases(a, c) < 0
  {
    JoinSplit(a);
    JoinSplit(b);
    JoinSplit(c);
    OrderOfLists(Split(a), Split(b), Split(c));
    OrderOfLists(Split(a), Split(c), Split(b));
  }

  /** The comparison is a total order on what the pattern captures, whatever the identifiers, so
      sorting by newerVersion is well defined: it is irreflexive and transitive, and two matching
      versions neither of which is newer are the same version. */
  lemma VersionsAreOrdered(a: Version, b: Version, c: Version)
    ensures Compare(a, b) == -Compare(b, a)
    ensures Compare(a, b) == 0 <==> a == b
    ensures Compare(a, b) < 0 && Compare(b, c) < 0 ==> Compare(a, c) < 0
  {
    OrderOfText(a.major, b.major, c.major);
    OrderOfText(a.minor, b.minor, c.minor);
    OrderOfText(a.patch, b.patch, c.patch);
    OrderOfText(b.major, c.major, a.major);
    OrderOfText(b.minor, c.minor, a.minor);
    OrderOfText(b.patch, c.patch, a.patch);
    OrderOfPrereleases(a.prerelease, b.prerelease, c.prerelease);
    OrderOfPrereleases(b.prerelease, c.prerelease, a.prerelease);
  }

  // ----- Precedence as the standard states it -----

  function Value(numeral: string): nat
    requires AllDigits(numeral)
  {
    if numeral == [] then 0
    else 10 * Value(numeral[..|numeral| - 1]) + (numeral[|numeral| - 1] - '0') as nat
  }

  function Sign(d: int): int {
    if d < 0 then -1 else if d > 0 then 1 else 0
  }

  function Power10(n: nat): nat {
    if n == 0 then 1 else 10 * Power10(n - 1)
  }

  lemma {:induction false} ValueBounds(a: string)
    requires AllDigits(a)
    ensures Value(a) < Power10(|a|)
    ensures a != [] && a[0] != '0' ==> Power10(|a| - 1) <= Value(a)
  {
    if a != [] {
      ValueBounds(a[..|a| - 1]);
    }
  }

  lemma {:induction false} CompareTextByLast(a: string, b: string)
    requires |a| == |b| > 0
    ensures
      var front := CompareText(a[..|a| - 1], b[..|b| - 1]);
      CompareText(a, b) == if front != 0 then front else Sign(a[|a| - 1] as int - b[|b| - 1] as int)
  {
    if |a| > 1 {
      CompareTextByLast(a[1..], b[1..]);
      assert a[..|a| - 1][1..] == a[1..][..|a| - 2] && b[..|b| - 1][1..] == b[1..][..|b| - 2];
    }
  }

  lemma {:induction false} SameLengthNumerals(a: string, b: string)
    requires |a| == |b| && AllDigits(a) && AllDigits(b)
    ensures CompareText(a, b) == Sign(Value(a) - Value(b))
  {
    if a != [] {
      SameLengthNumerals(a[..|a| - 1], b[..|b| - 1]);
      CompareTextByLast(a, b);
    }
  }

  lemma {:induction false} Power10Monotone(m: nat, n: nat)
    requires m <= n
    ensures Power10(m) <= Power10(n)
  {
    if m < n {
      Power10Monotone(m, n - 1);
    }
  }

  /** Without leading zeros, length-then-text is numeric order. */
  lemma NumeralsCompareByValue(a: string, b: string)
    requires IsNumeral(a) && IsNumeral(b)
    ensures CompareNumerals(a, b) == Sign(Value(a) - Value(b))
  {
    ValueBounds(a);
    ValueBounds(b);
    if |a| == |b| {
      SameLengthNumerals(a, b);
    } else if |a| < |b| {
      Power10Monotone(|a|, |b| - 1);
    } else {
      Power10Monotone(|b|, |a| - 1);
    }
  }

  /** With a leading zero, which the pattern lets through, it is not. */
  lemma LeadingZeroMisorders()
    ensures IsNumeric("01") && IsNumeric("2") && Value("01") < Value("2") && CompareIdentifiers("01", "2") > 0
  {
    assert "01"[..1] == "0" && "0"[..0] == "" && "2"[..0] == "";
  }

  function WithoutZeros(numeral: string): string {
    if |numeral| > 1 && numeral[0] == '0' then WithoutZeros(numeral[1..]) else numeral
  }

  lemma {:induction false} LeadingZeroIsWorthless(numeral: string)
    requires AllDigits(numeral) && |numeral| > 1 && numeral[0] == '0'
    ensures Value(numeral) == Value(numeral[1..])
  {
    var front := numeral[..|numeral| - 1];
    assert numeral[1..][..|numeral| - 2] == front[1..];
    if |numeral| > 2 {
      LeadingZeroIsWorthless(front);
    } else {
      assert front == "0" && front[..0] == "" && front[1..] == "";
    }
  }

  lemma {:induction false} WithoutZerosKeepsValue(numeral: string)
    requires IsNumeric(numeral)
    ensures IsNumeral(WithoutZeros(numeral)) && Value(WithoutZeros(numeral)) == Value(numeral)
  {
    if |numeral| > 1 && numeral[0] == '0' {
      LeadingZeroIsWorthless(numeral);
      WithoutZerosKeepsValue(numeral[1..]);
    }
  }

  /** Equally long, or the longer one is still the greater without its leading zeros. */
  predicate LengthTells(a: string, b: string) {
    |a| == |b| || Sign(|a| - |b|) == CompareNumerals(WithoutZeros(a), WithoutZeros(b))
  }

  /** On numeric identifiers of any form, the program's order is numeric order exactly when their
      lengths tell. */
  lemma NumericOrderExactly(a: string, b: string)
    requires IsNumeric(a) && IsNumeric(b)
    ensures CompareNumerals(a, b) == Sign(Value(a) - Value(b))
       <==> LengthTells(a, b)
  {
    if |a| == |b| {
      SameLengthNumerals(a, b);
    } else {
      AnyNumeralsByValue(a, b);
    }
  }

  lemma AnyNumeralsByValue(a: string, b: string)
    requires IsNumeric(a) && IsNumeric(b)
    ensures CompareNumerals(WithoutZeros(a), WithoutZeros(b)) == Sign(Value(a) - Value(b))
  {
    WithoutZerosKeepsValue(a);
    WithoutZerosKeepsValue(b);
    NumeralsCompareByValue(WithoutZeros(a), WithoutZeros(b));
  }

  /** Section 9: a pre-release identifier is not empty and a numeric one has no leading zeros. */
  predicate ValidIdentifier(id: string) {
    id != "" && (IsNumeric(id) ==> IsNumeral(id))
  }

  predicate ValidPrerelease(prerelease: string) {
    prerelease == "" || forall i | 0 <= i < |Split(prerelease)| :: ValidIdentifier(Split(prerelease)[i])
  }

  predicate ValidVersion(v: Version) {
    IsNumeral(v.major) && IsNumeral(v.minor) && IsNumeral(v.patch) && ValidPrerelease(v.prerelease)
  }

  /** Section 11.4: numeric identifiers by value and below the others, which go by ASCII order. */
  function IdentifierPrecedence(a: string, b: string): int
  {
    if IsNumeric(a) && IsNumeric(b) then Sign(Value(a) - Value(b))
    else if IsNumeric(a) != IsNumeric(b) then (if IsNumeric(a) then -1 else 1)
    else CompareText(a, b)
  }

  /** Section 11.4.4: the first difference decides, and a longer list wins over its own prefix. */
  function ListPrecedence(a: seq<string>, b: seq<string>): int {
    if a == [] || b == [] then Sign(|a| - |b|)
    else Then(IdentifierPrecedence(a[0], b[0]), ListPrecedence(a[1..], b[1..]))
  }

  /** Section 11: numeric fields by value, and a pre-release below its release. */
  function Precedence(a: Version, b: Version): int
    requires AllDigits(a.major) && AllDigits(a.minor) && AllDigits(a.patch)
    requires AllDigits(b.major) && AllDigits(b.minor) && AllDigits(b.patch)
  {
    Then(Sign(Value(a.major) - Value(b.major)), Then(Sign(Value(a.minor) - Value(b.minor)),
      Then(Sign(Value(a.patch) - Value(b.patch)),
        if a.prerelease == "" || b.prerelease == ""
        then Sign((if a.prerelease == "" then 1 else 0) - (if b.prerelease == "" then 1 else 0))
        else ListPrecedence(Split(a.prerelease), Split(b.prerelease)))))
  }

  lemma {:induction false} ListsFollowPrecedence(a: seq<string>, b: seq<string>)
    requires forall i | 0 <= i < |a| :: ValidIdentifier(a[i])
    requires forall i | 0 <= i < |b| :: ValidIdentifier(b[i])
    ensures CompareLists(a, b) == ListPrecedence(a, b)
  {
    if a != [] && b != [] {
      if IsNumeric(a[0]) && IsNumeric(b[0]) {
        NumeralsCompareByValue(a[0], b[0]);
      }
      ListsFollowPrecedence(a[1..], b[1..]);
    }
  }

  /** Up to the first two identifiers that differ: unless both are numeric the program and the standard
      agree; if they differ in value their lengths must tell; if they are one number written twice, the
      program goes by length, and that must be what the standard finds in the identifiers after them. */
  predicate ListsTell(a: seq<string>, b: seq<string>) {
    if a == [] || b == [] then true
    else if a[0] == b[0] then ListsTell(a[1..], b[1..])
    else if !IsNumeric(a[0]) || !IsNumeric(b[0]) then true
    else if WithoutZeros(a[0]) != WithoutZeros(b[0]) then LengthTells(a[0], b[0])
    else Sign(|a[0]| - |b[0]|) == ListPrecedence(a[1..], b[1..])
  }

  lemma SameValueIsSameNumeral(a: string, b: string)
    requires IsNumeric(a) && IsNumeric(b)
    ensures Value(a) == Value(b) <==> WithoutZeros(a) == WithoutZeros(b)
    ensures a != b && Value(a) == Value(b) ==> |a| != |b|
  {
    AnyNumeralsByValue(a, b);
    OrderOfText(WithoutZeros(a), WithoutZeros(b), a);
    if |a| == |b| {
      SameLengthNumerals(a, b);
      OrderOfText(a, b, a);
    }
  }

  lemma NumbersTell(a: string, b: string)
    requires IsNumeric(a) && IsNumeric(b) && a != b
    ensures WithoutZeros(a) == WithoutZeros(b) ==>
              IdentifierPrecedence(a, b) == 0 && CompareIdentifiers(a, b) == Sign(|a| - |b|) != 0
    ensures WithoutZeros(a) != WithoutZeros(b) ==>
              IdentifierPrecedence(a, b) != 0
              && (CompareIdentifiers(a, b) == IdentifierPrecedence(a, b) <==> LengthTells(a, b))
    ensures CompareIdentifiers(a, b) != 0
  {
    SameValueIsSameNumeral(a, b);
    NumericOrderExactly(a, b);
    OrderOfText(a, b, a);
  }

  /** On lists of identifiers of any form, the program's order is the standard's exactly when the lists
      tell. */
  lemma {:induction false} ListsOrderedExactly(a: seq<string>, b: seq<string>)
    ensures CompareLists(a, b) == ListPrecedence(a, b) <==> ListsTell(a, b)
  {
    if a != [] && b != [] {
      if a[0] == b[0] {
        SameIdentifier(a[0]);
        OrderOfText(a[0], a[0], a[0]);
        ListsOrderedExactly(a[1..], b[1..]);
      } else if IsNumeric(a[0]) && IsNumeric(b[0]) {
        NumbersTell(a[0], b[0]);
      } else {
        OrderOfText(a[0], b[0], a[0]);
        OrderOfIdentifiers(a[0], b[0], a[0]);
      }
    }
  }

  /** On valid versions the program's order is the precedence of the standard. */
  lemma NewerIsHigherPrecedence(a: Version, b: Version)
    requires ValidVersion(a) && ValidVersion(b)
    ensures Newer(Some(a), Some(b)) <==> Precedence(a, b) > 0
  {
    NumeralsCompareByValue(a.major, b.major);
    NumeralsCompareByValue(a.minor, b.minor);
    NumeralsCompareByValue(a.patch, b.patch);
    if a.prerelease != "" && b.prerelease != "" {
      ListsFollowPrecedence(Split(a.prerelease), Split(b.prerelease));
      OrderOfLists(Split(a.prerelease), Split(b.prerelease), []);
    }
  }
}
