// Telling old Authorino images, configured by environment variables, from newer ones by
// their tag (pkg/reconcilers/deployment.go:413-427).
module ImageTag {
  import opened Text

  // authorinoVersionFromImageTag: what follows the last ':'.
  function VersionFromImage(image: string): string {
    var parts := Split(image, ':');
    parts[|parts| - 1]
  }

  function DigitRun(s: string): (n: nat)
    ensures n <= |s|
    ensures Digits(s[..n])
    ensures n < |s| ==> !Digit(s[n])
  {
    if s == "" || !Digit(s[0]) then 0 else 1 + DigitRun(s[1..])
  }

  // The pattern `v0\.(\d)+\..+` at the start of `s`; '.' in a pattern is any character but
  // a line break.
  predicate MatchesHere(s: string) {
    && |s| >= 3 && s[..3] == "v0."
    && var n := DigitRun(s[3..]);
    && n > 0
    && |s| > 3 + n + 1
    && s[3 + n] == '.'
    && s[3 + n + 1] != '\n'
  }

  // The pattern is not anchored: it may match anywhere.
  predicate Matches(s: string) {
    exists k | 0 <= k <= |s| :: MatchesHere(s[k..])
  }

  // Splitting a matching text at its dots gives at least three parts, so that the code's
  // access to the second is always safe.
  lemma MatchHasParts(s: string)
    requires Matches(s)
    ensures |Split(s, '.')| >= 3
  {
    var k :| 0 <= k <= |s| && MatchesHere(s[k..]);
    var i, j := k + 2, k + 3 + DigitRun(s[k..][3..]);
    assert s[i] == s[k..][2] == '.';
    assert s[j] == s[k..][j - k] == '.';
    TwoSeparators(s, '.', i, j);
  }

  lemma TwoSeparators(s: string, c: char, i: nat, j: nat)
    requires i < j < |s| && s[i] == c && s[j] == c
    ensures |Split(s, c)| >= 3
  {
    var middle, right := s[i + 1..j], s[j + 1..];
    assert s == s[..i] + [c] + (middle + [c] + right);
    PartsGrow(s[..i], c, middle + [c] + right);
    PartsGrow(middle, c, right);
  }

  lemma {:induction false} PartsGrow(left: string, c: char, right: string)
    ensures |Split(left + [c] + right, c)| >= 1 + |Split(right, c)|
    decreases |left|
  {
    if c !in left {
      SplitHead(left, c, right);
    } else {
      var k := IndexOf(left, c);
      var rest := left[k + 1..];
      assert left + [c] + right == left[..k] + [c] + (rest + [c] + right);
      SplitHead(left[..k], c, rest + [c] + right);
      PartsGrow(rest, c, right);
    }
  }

  // detectEnvVarAuthorinoVersion
  predicate DetectEnvVarVersion(version: string) {
    if !Matches(version) then false
    else
      MatchHasParts(version);
      var minor := Atoi(Split(version, '.')[1]);
      minor.Some? && minor.value <= 10
  }

  lemma {:induction false} LastPart(left: string, c: char, right: string)
    requires c !in right
    ensures var parts := Split(left + [c] + right, c); parts[|parts| - 1] == right
    decreases |left|
  {
    if c !in left {
      SplitHead(left, c, right);
      SplitNone(right, c);
    } else {
      var k := IndexOf(left, c);
      var rest := left[k + 1..];
      assert left + [c] + right == left[..k] + [c] + (rest + [c] + right);
      SplitHead(left[..k], c, rest + [c] + right);
      LastPart(rest, c, right);
    }
  }

  lemma {:induction false} DigitRunUpTo(m: string, rest: string)
    requires Digits(m)
    requires rest != "" && !Digit(rest[0])
    ensures DigitRun(m + rest) == |m|
  {
    if m == "" {
      assert m + rest == rest;
    } else {
      assert (m + rest)[1..] == m[1..] + rest;
      DigitRunUpTo(m[1..], rest);
    }
  }

  lemma {:induction false} ReleaseTagMatches(m: string, r: string)
    requires m != "" && Digits(m)
    requires r != "" && r[0] != '\n'
    ensures Matches("v0." + m + "." + r)
  {
    var v := "v0." + m + "." + r;
    var rest := "." + r;
    assert v[3..] == m + rest;
    DigitRunUpTo(m, rest);
    assert v[..3] == "v0.";
    assert v[3 + |m|] == '.' && v[3 + |m| + 1] == r[0];
    assert v[0..] == v;
    assert MatchesHere(v[0..]);
  }

  lemma {:induction false} ReleaseTagMinor(m: string, r: string)
    requires Digits(m)
    ensures |Split("v0." + m + "." + r, '.')| >= 2
    ensures Split("v0." + m + "." + r, '.')[1] == m
  {
    var tail := m + ['.'] + r;
    assert "v0." + m + "." + r == "v0" + ['.'] + tail;
    assert '.' !in "v0";
    SplitHead("v0", '.', tail);
    assert '.' !in m by {
      assert !Digit('.');
    }
    SplitHead(m, '.', r);
  }

  lemma {:induction false} NoColon(m: string, r: string)
    requires Digits(m) && ':' !in r
    ensures ':' !in "v0." + m + "." + r
  {
    assert !Digit(':');
  }

  lemma VersionAfterPrefix(prefix: string, v: string)
    requires ':' !in v
    ensures VersionFromImage(prefix + ":" + v) == v
  {
    assert prefix + ":" + v == prefix + [':'] + v;
    LastPart(prefix, ':', v);
  }

  // A digit string too long for a machine integer is refused, hence not at most 10.
  lemma DigitsAtoi(m: string)
    requires m != "" && Digits(m)
    ensures Atoi(m) == if DigitsValue(m) <= MAX_INT64 then Some(DigitsValue(m)) else None
  {
    assert Digit(m[0]);
  }

  // Once the pattern matches, only the part between the first two dots counts.
  lemma DetectByPart(version: string, m: string)
    requires Matches(version)
    requires |Split(version, '.')| >= 2 && Split(version, '.')[1] == m
    requires m != "" && Digits(m)
    ensures DetectEnvVarVersion(version) <==> DigitsValue(m) <= 10
  {
    DigitsAtoi(m);
  }

  // A release image is configured by environment variables exactly when its minor version
  // is at most 10, however many digits that has, and whatever registry it comes from.
  lemma OldImageDetection(prefix: string, m: string, r: string)
    requires m != "" && Digits(m)
    requires r != "" && ':' !in r && r[0] != '\n'
    ensures DetectEnvVarVersion(VersionFromImage(prefix + ":" + ("v0." + m + "." + r))) <==> DigitsValue(m) <= 10
  {
    var v := "v0." + m + "." + r;
    NoColon(m, r);
    VersionAfterPrefix(prefix, v);
    ReleaseTagMatches(m, r);
    ReleaseTagMinor(m, r);
    DetectByPart(v, m);
  }

  lemma MatchFurtherOn(left: string, s: string)
    requires Matches(s)
    ensures Matches(left + s)
  {
    var k :| 0 <= k <= |s| && MatchesHere(s[k..]);
    assert (left + s)[|left| + k..] == s[k..];
  }

  lemma SecondPart(a: string, m: string, rest: string)
    requires '.' !in a && '.' !in m
    ensures |Split(a + ['.'] + (m + ['.'] + rest), '.')| >= 2
    ensures Split(a + ['.'] + (m + ['.'] + rest), '.')[1] == m
  {
    SplitHead(a, '.', m + ['.'] + rest);
    SplitHead(m, '.', rest);
  }

  lemma UnanchoredMatches(a: string, other: string, release: string)
    requires Matches(release)
    ensures Matches(a + ['.'] + (other + ['.'] + release))
  {
    MatchFurtherOn(other + ['.'], release);
    MatchFurtherOn(a + ['.'], other + ['.'] + release);
  }

  // The pattern is not anchored, so the number compared need not be the one that matched:
  // behind another version number, that of the release itself does not matter.
  lemma UnanchoredPattern(a: string, other: string, release: string)
    requires '.' !in a && other != "" && Digits(other)
    requires Matches(release)
    ensures DetectEnvVarVersion(a + ['.'] + (other + ['.'] + release)) <==> DigitsValue(other) <= 10
  {
    UnanchoredMatches(a, other, release);
    assert !Digit('.');
    SecondPart(a, other, release);
    DetectByPart(a + ['.'] + (other + ['.'] + release), other);
  }
}
