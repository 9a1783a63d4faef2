/** Release tags (internal/system/update.go: semverPattern, prereleaseManifests).

    The regular expression is a library call; `Submatch` is what it captures, and the lemmas tie that
    to the grammar the pattern spells out. */
module ReleaseTags {
  import opened Prelude
  import opened S = Semver
  import Sort = StableSort

  predicate IsBuildChar(c: char) {
    IsIdentifierChar(c) || c == '.'
  }

  predicate All(s: string, p: char -> bool) {
    forall i | 0 <= i < |s| :: p(s[i])
  }

  /** How many leading characters satisfy `p`. */
  function Span(s: string, p: char -> bool): (n: nat)
    ensures n <= |s| && All(s[..n], p) && (n < |s| ==> !p(s[n]))
  {
    if s == [] || !p(s[0]) then 0
    else
      var n := 1 + Span(s[1..], p);
      assert s[..n] == [s[0]] + s[1..][..n - 1];
      n
  }

  lemma {:induction false} SpanIs(a: string, b: string, p: char -> bool)
    requires All(a, p) && (b != [] ==> !p(b[0]))
    ensures Span(a + b, p) == |a|
  {
    if a != [] {
      assert a[0] == (a + b)[0] && (a + b)[1..] == a[1..] + b;
      SpanIs(a[1..], b, p);
    } else {
      assert a + b == b;
    }
  }

  /** Dot-separated identifiers, none of them empty. */
  predicate IsPrerelease(s: string) {
    && All(s, IsBuildChar)
    && forall i | 0 <= i < |Split(s)| :: Split(s)[i] != ""
  }

  predicate IsBuild(s: string) {
    s == "" || (|s| > 1 && s[0] == '+' && All(s[1..], IsBuildChar))
  }

  predicate IsVersion(v: Version) {
    IsNumeral(v.major) && IsNumeral(v.minor) && IsNumeral(v.patch) && (v.prerelease == "" || IsPrerelease(v.prerelease))
  }

  function Suffix(prerelease: string, build: string): string {
    (if prerelease == "" then "" else "-" + prerelease) + build
  }

  /** The tags of the pattern: an optional v, three numerals, a pre-release and build metadata. */
  function Tag(prefix: bool, v: Version, build: string): string {
    (if prefix then "v" else "") + (v.major + ("." + (v.minor + ("." + (v.patch + Suffix(v.prerelease, build))))))
  }

  /** A numeral up to a dot, and what follows the dot. */
  function TakeField(s: string): Option<(string, string)> {
    var n := Span(s, IsDigit);
    if IsNumeral(s[..n]) && n < |s| && s[n] == '.' then Some((s[..n], s[n + 1..])) else None
  }

  /** The optional pre-release, provided the rest is build metadata. */
  function TakeSuffix(s: string): Option<string> {
    if s != "" && s[0] == '-' then
      var n := Span(s[1..], IsBuildChar);
      if n > 0 && IsPrerelease(s[1..][..n]) && IsBuild(s[1..][n..]) then Some(s[1..][..n]) else None
    else if IsBuild(s) then Some("") else None
  }

  function SubmatchAfterPrefix(s: string): Option<Version> {
    if TakeField(s).None? then None
    else
      var (major, s1) := TakeField(s).value;
      if TakeField(s1).None? then None
      else
        var (minor, s2) := TakeField(s1).value;
        var n := Span(s2, IsDigit);
        if !IsNumeral(s2[..n]) || TakeSuffix(s2[n..]).None? then None
        else Some(Version(major, minor, s2[..n], TakeSuffix(s2[n..]).value))
  }

  /** The four captured groups of the pattern. */
  function Submatch(tag: string): Option<Version> {
    SubmatchAfterPrefix(if tag != "" && tag[0] == 'v' then tag[1..] else tag)
  }

  lemma TakeFieldIs(field: string, rest: string)
    requires IsNumeral(field)
    ensures TakeField(field + ("." + rest)) == Some((field, rest))
  {
    var s := field + ("." + rest);
    assert All(field, IsDigit);
    SpanIs(field, "." + rest, IsDigit);
    assert s[..|field|] == field && s[|field| + 1..] == rest;
  }

  lemma TakeSuffixIs(prerelease: string, build: string)
    requires (prerelease == "" || IsPrerelease(prerelease)) && IsBuild(build)
    ensures TakeSuffix(Suffix(prerelease, build)) == Some(prerelease)
  {
    var s := Suffix(prerelease, build);
    if prerelease != "" {
      assert s[1..] == prerelease + build;
      SpanIs(prerelease, build, IsBuildChar);
      assert s[1..][..|prerelease|] == prerelease && s[1..][|prerelease|..] == build;
    } else {
      assert s == build;
    }
  }

  /** A tag of the grammar is matched, and what it captures ignores the v and the build metadata. */
  lemma TagIsMatched(prefix: bool, v: Version, build: string)
    requires IsVersion(v) && IsBuild(build)
    ensures Submatch(Tag(prefix, v, build)) == Some(v)
  {
    var tail := v.patch + Suffix(v.prerelease, build);
    var rest := v.minor + ("." + tail);
    FieldsAreMatched(v, tail);
    PatchAndSuffixAreMatched(v, build);
    FieldsAreSubmatch(v, v.major + ("." + rest), rest, tail);
    PrefixIsSkipped(prefix, v.major, "." + rest);
  }

  lemma FieldsAreSubmatch(v: Version, body: string, rest: string, tail: string)
    requires TakeField(body) == Some((v.major, rest)) && TakeField(rest) == Some((v.minor, tail))
    requires IsNumeral(v.patch)
    requires
      var n := Span(tail, IsDigit);
      tail[..n] == v.patch && TakeSuffix(tail[n..]) == Some(v.prerelease)
    ensures SubmatchAfterPrefix(body) == Some(v)
  {
  }

  lemma PrefixIsSkipped(prefix: bool, major: string, rest: string)
    requires IsNumeral(major)
    ensures Submatch((if prefix then "v" else "") + (major + rest)) == SubmatchAfterPrefix(major + rest)
  {
    var body := major + rest;
    if prefix {
      assert ("v" + body)[1..] == body;
    } else {
      assert "" + body == body && body[0] == major[0];
    }
  }

  lemma FieldsAreMatched(v: Version, tail: string)
    requires IsVersion(v)
    ensures TakeField(v.major + ("." + (v.minor + ("." + tail)))) == Some((v.major, v.minor + ("." + tail)))
    ensures TakeField(v.minor + ("." + tail)) == Some((v.minor, tail))
  {
    TakeFieldIs(v.major, v.minor + ("." + tail));
    TakeFieldIs(v.minor, tail);
  }

  lemma PatchAndSuffixAreMatched(v: Version, build: string)
    requires IsVersion(v) && IsBuild(build)
    ensures
      var tail := v.patch + Suffix(v.prerelease, build);
      var n := Span(tail, IsDigit);
      tail[..n] == v.patch && TakeSuffix(tail[n..]) == Some(v.prerelease)
  {
    var tail := v.patch + Suffix(v.prerelease, build);
    assert All(v.patch, IsDigit);
    SpanIs(v.patch, Suffix(v.prerelease, build), IsDigit);
    assert tail[..|v.patch|] == v.patch && tail[|v.patch|..] == Suffix(v.prerelease, build);
    TakeSuffixIs(v.prerelease, build);
  }

  lemma SuffixIsMatched(s: string) returns (build: string)
    requires TakeSuffix(s).Some?
    ensures IsBuild(build) && s == Suffix(TakeSuffix(s).value, build)
    ensures TakeSuffix(s).value == "" || IsPrerelease(TakeSuffix(s).value)
  {
    if s != "" && s[0] == '-' {
      var n := Span(s[1..], IsBuildChar);
      build := s[1..][n..];
      assert s == "-" + s[1..] && s[1..] == s[1..][..n] + build;
    } else {
      build := s;
    }
  }

  lemma FieldIsMatched(s: string)
    requires TakeField(s).Some?
    ensures IsNumeral(TakeField(s).value.0) && s == TakeField(s).value.0 + ("." + TakeField(s).value.1)
  {
    var n := Span(s, IsDigit);
    assert s == s[..n] + ([s[n]] + s[n + 1..]);
  }

  lemma PatchIsMatched(s: string, n: nat) returns (build: string)
    requires n == Span(s, IsDigit) && TakeSuffix(s[n..]).Some?
    ensures IsBuild(build) && s == s[..n] + Suffix(TakeSuffix(s[n..]).value, build)
    ensures TakeSuffix(s[n..]).value == "" || IsPrerelease(TakeSuffix(s[n..]).value)
  {
    build := SuffixIsMatched(s[n..]);
    assert s == s[..n] + s[n..];
  }

  lemma BodyIsMatched(s: string) returns (build: string)
    requires SubmatchAfterPrefix(s).Some?
    ensures IsVersion(SubmatchAfterPrefix(s).value) && IsBuild(build)
    ensures s == Tag(false, SubmatchAfterPrefix(s).value, build)
  {
    var (major, s1) := TakeField(s).value;
    FieldIsMatched(s);
    var (minor, s2) := TakeField(s1).value;
    FieldIsMatched(s1);
    var n := Span(s2, IsDigit);
    build := PatchIsMatched(s2, n);
    var v := Version(major, minor, s2[..n], TakeSuffix(s2[n..]).value);
    assert SubmatchAfterPrefix(s) == Some(v);
    assert Tag(false, v, build) == "" + (major + ("." + (minor + ("." + s2))));
  }

  /** And only tags of the grammar are. */
  lemma OnlyTagsAreMatched(tag: string) returns (prefix: bool, build: string)
    requires Submatch(tag).Some?
    ensures IsVersion(Submatch(tag).value) && IsBuild(build)
    ensures tag == Tag(prefix, Submatch(tag).value, build)
  {
    prefix := tag != "" && tag[0] == 'v';
    var s := if prefix then tag[1..] else tag;
    assert tag == (if prefix then "v" else "") + s;
    build := BodyIsMatched(s);
    TagPrefix(prefix, Submatch(tag).value, build);
  }

  lemma TagPrefix(prefix: bool, v: Version, build: string)
    ensures Tag(prefix, v, build) == (if prefix then "v" else "") + Tag(false, v, build)
  {
  }

  /** Neither the v nor the build metadata of either tag changes which release is newer. */
  lemma NewerIgnoresDecoration(p: bool, q: bool, a: Version, b: Version, x: string, y: string)
    requires IsVersion(a) && IsVersion(b) && IsBuild(x) && IsBuild(y)
    ensures Newer(Submatch(Tag(p, a, x)), Submatch(Tag(q, b, y))) <==> Compare(a, b) > 0
  {
    TagIsMatched(p, a, x);
    TagIsMatched(q, b, y);
  }

  // ----- The list of pre-releases -----

  datatype Manifest = Manifest(tag: string, prerelease: bool)

  predicate NewerTag(a: string, b: string) {
    Newer(Submatch(a), Submatch(b))
  }

  predicate Matches(m: Manifest) {
    Submatch(m.tag).Some?
  }

  predicate Listed(m: Manifest) {
    m.prerelease && Matches(m)
  }

  /** On tags that match the pattern, newer-than is a strict weak order, so sorting by it is sound. */
  lemma NewerRanksTags()
    ensures Sort.Ranks((a: Manifest, b: Manifest) => NewerTag(a.tag, b.tag), Matches)
  {
    forall x: Manifest, y: Manifest | Matches(x) && Matches(y) && NewerTag(x.tag, y.tag)
      ensures !NewerTag(y.tag, x.tag)
      ensures forall z: Manifest | Matches(z) :: NewerTag(x.tag, z.tag) || NewerTag(z.tag, y.tag)
    {
      var u, v := Submatch(x.tag).value, Submatch(y.tag).value;
      VersionsAreOrdered(u, v, u);
      forall z: Manifest | Matches(z)
        ensures NewerTag(x.tag, z.tag) || NewerTag(z.tag, y.tag)
      {
        VersionsSplit(u, v, Submatch(z.tag).value);
      }
    }
  }

  lemma VersionsSplit(u: Version, v: Version, w: Version)
    requires Compare(u, v) > 0
    ensures Compare(u, w) > 0 || Compare(w, v) > 0
  {
    VersionsAreOrdered(u, w, v);
    VersionsAreOrdered(w, v, u);
    VersionsAreOrdered(u, v, w);
  }

  lemma {:induction false} SplitWhole(id: string)
    requires '.' !in id
    ensures Split(id) == [id]
  {
    if id != [] {
      assert '.' !in id[1..] && id[0] in id;
      SplitWhole(id[1..]);
      assert [id[0]] + id[1..] == id;
    }
  }

  lemma FirstReleaseIsMatched(prerelease: string)
    requires prerelease != "" && AllDigits(prerelease)
    ensures Submatch("1.0.0-" + prerelease) == Some(Version("1", "0", "0", prerelease))
  {
    var v := Version("1", "0", "0", prerelease);
    SplitWhole(prerelease);
    TagIsMatched(false, v, "");
    assert Tag(false, v, "") == "1.0.0-" + prerelease;
  }

  lemma NumericPrereleases(a: string, b: string)
    requires IsNumeric(a) && IsNumeric(b) && Value(a) < Value(b) && CompareIdentifiers(a, b) > 0
    ensures ComparePrereleases(a, b) > 0 && ListPrecedence(Split(a), Split(b)) < 0
  {
    SplitWhole(a);
    SplitWhole(b);
  }

  /** The numeric fields differ, a pre-release is missing, or the pre-release lists tell. */
  predicate VersionsTell(a: Version, b: Version) {
    || a.major != b.major || a.minor != b.minor || a.patch != b.patch
    || a.prerelease == "" || b.prerelease == "" || ListsTell(Split(a.prerelease), Split(b.prerelease))
  }

  lemma CoreByValue(a: string, b: string)
    requires IsNumeral(a) && IsNumeral(b)
    ensures CompareNumerals(a, b) == Sign(Value(a) - Value(b)) && (CompareNumerals(a, b) == 0 <==> a == b)
  {
    NumeralsCompareByValue(a, b);
    OrderOfText(a, b, a);
  }

  lemma ListRange(a: seq<string>, b: seq<string>)
    ensures -1 <= CompareLists(a, b) <= 1 && -1 <= ListPrecedence(a, b) <= 1
  {
  }

  lemma PrereleasesRanked(a: string, b: string)
    requires a != "" && b != ""
    ensures ComparePrereleases(a, b) == CompareLists(Split(a), Split(b))
  {
    OrderOfLists(Split(a), Split(b), []);
  }

  lemma PrecedenceRange(a: Version, b: Version)
    requires IsVersion(a) && IsVersion(b)
    ensures -1 <= Compare(a, b) <= 1 && -1 <= Precedence(a, b) <= 1
  {
    CoreByValue(a.major, b.major);
    CoreByValue(a.minor, b.minor);
    CoreByValue(a.patch, b.patch);
    ListRange(Split(a.prerelease), Split(b.prerelease));
  }

  lemma SameRankExactly(a: Version, b: Version)
    requires IsVersion(a) && IsVersion(b)
    ensures Compare(a, b) == Precedence(a, b) <==> VersionsTell(a, b)
  {
    CoreByValue(a.major, b.major);
    CoreByValue(a.minor, b.minor);
    CoreByValue(a.patch, b.patch);
    if a.prerelease != "" && b.prerelease != "" {
      PrereleasesRanked(a.prerelease, b.prerelease);
      ListsOrderedExactly(Split(a.prerelease), Split(b.prerelease));
    }
  }

  /** On any two matching tags, newer-than both ways is the precedence of section 11 exactly when their
      versions tell. */
  lemma TagsRankedExactly(x: string, y: string)
    requires Submatch(x).Some? && Submatch(y).Some?
    ensures
      var a, b := Submatch(x).value, Submatch(y).value;
      IsVersion(a) && IsVersion(b) &&
      var ranked := (NewerTag(x, y) <==> Precedence(a, b) > 0) && (NewerTag(y, x) <==> Precedence(a, b) < 0);
      ranked <==> VersionsTell(a, b)
  {
    var _, _ := OnlyTagsAreMatched(x);
    var _, _ := OnlyTagsAreMatched(y);
    var a, b := Submatch(x).value, Submatch(y).value;
    VersionsAreOrdered(a, b, a);
    PrecedenceRange(a, b);
    SameRankExactly(a, b);
  }

  /** The pattern lets leading zeros through, and they misrank tags: the first of these two counts as
      the newer and has the lower precedence. */
  lemma LeadingZeroMisranksTags()
    ensures NewerTag("1.0.0-01", "1.0.0-2")
    ensures Submatch("1.0.0-01") == Some(Version("1", "0", "0", "01")) && Submatch("1.0.0-2") == Some(Version("1", "0", "0", "2"))
    ensures Precedence(Version("1", "0", "0", "01"), Version("1", "0", "0", "2")) < 0
  {
    LeadingZeroMisorders();
    FirstReleaseIsMatched("01");
    FirstReleaseIsMatched("2");
    assert "1.0.0-" + "01" == "1.0.0-01" && "1.0.0-" + "2" == "1.0.0-2";
    NumericPrereleases("01", "2");
    MisrankedPair("01", "2");
  }

  lemma MisrankedPair(a: string, b: string)
    requires a != "" && b != "" && ComparePrereleases(a, b) > 0 && ListPrecedence(Split(a), Split(b)) < 0
    ensures Compare(Version("1", "0", "0", a), Version("1", "0", "0", b)) > 0
    ensures Precedence(Version("1", "0", "0", a), Version("1", "0", "0", b)) < 0
  {
    SameIdentifier("1");
    SameIdentifier("0");
  }

  /** It is not one on all tags: a tag the pattern rejects is unranked against everything, so it
      cannot sit between two releases. */
  lemma UnmatchedTagBreaksRanking(a: string, b: string, c: string)
    requires NewerTag(a, b) && Submatch(c).None?
    ensures !NewerTag(a, c) && !NewerTag(c, a) && !NewerTag(c, b) && !NewerTag(b, c)
  {
  }

  /** The pre-releases of the list, newest first, equal versions in the order they came. */
  method PrereleaseManifests(manifests: seq<Manifest>) returns (prereleases: seq<Manifest>)
    ensures Sort.StablySorted((a: Manifest, b: Manifest) => NewerTag(a.tag, b.tag), Matches,
                              Sort.Where(manifests, Listed), prereleases)
  {
    var matching := MatchingPrereleases(manifests);
    NewerRanksTags();
    prereleases := Sort.Sort((a: Manifest, b: Manifest) => NewerTag(a.tag, b.tag), Matches, matching);
  }

  method MatchingPrereleases(manifests: seq<Manifest>) returns (matching: seq<Manifest>)
    ensures matching == Sort.Where(manifests, Listed) && Sort.Every(Matches, matching)
  {
    matching := [];
    for i := 0 to |manifests|
      invariant matching == Sort.Where(manifests[..i], Listed) && Sort.Every(Matches, matching)
    {
      assert manifests[..i + 1][..i] == manifests[..i];
      if manifests[i].prerelease && Submatch(manifests[i].tag).Some? {
        matching := matching + [manifests[i]];
      }
    }
    assert manifests[..|manifests|] == manifests;
  }
}
