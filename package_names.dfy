/** The title pattern of the duplicate filter, `[bB]ump ([a-zA-Z@/-]+)`,
    written out: the leftmost position where the whole pattern matches, then
    the greedy, maximal run of name characters as the captured package name. */
module PackageNames {
  import opened PullRequests

  /** The character class `[a-zA-Z@/-]`; digits are not in it. */
  predicate IsNameChar(c: char) {
    ('a' <= c <= 'z') || ('A' <= c <= 'Z') || c == '@' || c == '/' || c == '-'
  }

  /** The whole pattern matches at `i`: `b` or `B`, then `ump `, then at least
      one name character. */
  predicate MatchesAt(t: string, i: nat) {
    && i + 6 <= |t|
    && (t[i] == 'b' || t[i] == 'B')
    && t[i + 1] == 'u' && t[i + 2] == 'm' && t[i + 3] == 'p' && t[i + 4] == ' '
    && IsNameChar(t[i + 5])
  }

  /** Reference definition of a successful match: `i` is the leftmost match and
      `name` is the maximal run of name characters after its `ump `. */
  ghost predicate NameMatchAt(t: string, i: nat, name: string) {
    && MatchesAt(t, i)
    && (forall j :: 0 <= j < i ==> !MatchesAt(t, j))
    && i + 5 + |name| <= |t|
    && t[i + 5..i + 5 + |name|] == name
    && (forall c :: c in name ==> IsNameChar(c))
    && (i + 5 + |name| == |t| || !IsNameChar(t[i + 5 + |name|]))
  }

  /** End of the run of name characters that starts at `j`. */
  function RunEnd(t: string, j: nat): (e: nat)
    requires j <= |t|
    ensures j <= e <= |t|
    ensures forall m :: j <= m < e ==> IsNameChar(t[m])
    ensures e == |t| || !IsNameChar(t[e])
    decreases |t| - j
  {
    if j == |t| || !IsNameChar(t[j]) then j else RunEnd(t, j + 1)
  }

  /** The leftmost match at or after `from`. */
  function FindMatch(t: string, from: nat): (r: Option<nat>)
    ensures r.Some? ==> from <= r.value && MatchesAt(t, r.value)
    ensures r.Some? ==> forall i :: from <= i < r.value ==> !MatchesAt(t, i)
    ensures r.None? ==> forall i :: from <= i ==> !MatchesAt(t, i)
    decreases |t| - from
  {
    if |t| < from + 6 then None
    else if MatchesAt(t, from) then Some(from)
    else FindMatch(t, from + 1)
  }

  /** The package name captured from a title, or None when the pattern does
      not match anywhere in it. */
  function PackageName(t: string): (r: Option<string>)
    ensures r.None? <==> forall i :: !MatchesAt(t, i)
    ensures r.Some? ==> |r.value| >= 1 && exists i :: NameMatchAt(t, i, r.value)
  {
    match FindMatch(t, 0)
    case None => None
    case Some(i) =>
      var e := RunEnd(t, i + 5);
      var name := t[i + 5..e];
      assert |name| == e - (i + 5);
      assert forall c :: c in name ==> IsNameChar(c) by {
        forall c | c in name ensures IsNameChar(c) {
          var m :| 0 <= m < |name| && name[m] == c;
          assert t[i + 5 + m] == c;
        }
      }
      assert NameMatchAt(t, i, name);
      Some(name)
  }

  /** The match is unique: at most one position and one name satisfy the
      reference definition. */
  lemma NameMatchUnique(t: string, i1: nat, n1: string, i2: nat, n2: string)
    requires NameMatchAt(t, i1, n1) && NameMatchAt(t, i2, n2)
    ensures i1 == i2 && n1 == n2
  {
    if i1 != i2 {
      // the smaller of the two would be an earlier match for the other
      assert false;
    }
    if |n1| != |n2| {
      // the shorter name would end at a name character of the longer one
      assert false;
    }
  }

  /** PackageName agrees with the reference definition, in both directions. */
  lemma PackageNameIsNameMatch(t: string, name: string)
    ensures PackageName(t) == Some(name) <==> exists i :: NameMatchAt(t, i, name)
  {
    if i :| NameMatchAt(t, i, name) {
      var r := PackageName(t);
      assert r.Some?;
      var i' :| NameMatchAt(t, i', r.value);
      NameMatchUnique(t, i, name, i', r.value);
    }
  }

  /** Every character of `s` is a name character, checked one at a time. */
  predicate AllNameChars(s: string)
    decreases |s|
  {
    s == [] || (IsNameChar(s[0]) && AllNameChars(s[1..]))
  }

  lemma {:induction false} AllNameCharsMeans(s: string)
    requires AllNameChars(s)
    ensures forall c :: c in s ==> IsNameChar(c)
    decreases |s|
  {
    if s != [] {
      AllNameCharsMeans(s[1..]);
      assert s == [s[0]] + s[1..];
    }
  }

  /** A title that starts with `Bump ` or `bump `, then a name, then
      anything that does not start with a name character, yields that name. */
  lemma BumpName(t: string, name: string, rest: string)
    requires |name| >= 1 && AllNameChars(name)
    requires rest == [] || !IsNameChar(rest[0])
    requires t == "Bump " + name + rest || t == "bump " + name + rest
    ensures PackageName(t) == Some(name)
  {
    AllNameCharsMeans(name);
    assert t[5..5 + |name|] == name;
    assert t[5] == name[0];
    assert rest != [] ==> t[5 + |name|] == rest[0];
    assert NameMatchAt(t, 0, name);
    PackageNameIsNameMatch(t, name);
  }

  /** The pattern is not anchored. */
  lemma MatchNotAnchored()
    ensures PackageName("chore: bump foo") == Some("foo")
  {
    var t := "chore: bump foo";
    assert NameMatchAt(t, 7, "foo") by {
      forall j | 0 <= j < 7 ensures !MatchesAt(t, j) {
        assert t[j] != 'b' && t[j] != 'B';
      }
    }
    PackageNameIsNameMatch(t, "foo");
  }

  /** Only the first letter's case is free: `BUMP` does not match. */
  lemma UpperCaseBumpDoesNotMatch()
    ensures PackageName("BUMP foo") == None
  {
    var t := "BUMP foo";
    forall i: nat ensures !MatchesAt(t, i) {
      if i + 6 <= |t| {
        assert i <= 2;
        assert t[i + 1] != 'u';
      }
    }
  }

  /** A digit ends the name. */
  lemma DigitEndsName(name: string, rest: string)
    requires |name| >= 1 && AllNameChars(name)
    requires rest != [] && '0' <= rest[0] <= '9'
    ensures PackageName("Bump " + name + rest) == Some(name)
  {
    var t := "Bump " + name + rest;
    assert !IsNameChar(rest[0]);
    BumpName(t, name, rest);
  }

  lemma {:induction false} AllNameCharsConcat(s: string, t: string)
    requires AllNameChars(s) && AllNameChars(t)
    ensures AllNameChars(s + t)
    decreases |s|
  {
    if s != [] {
      AllNameCharsConcat(s[1..], t);
      assert (s + t)[0] == s[0] && (s + t)[1..] == s[1..] + t;
    } else {
      assert s + t == t;
    }
  }

  /** Scoped package names (`@types/node`) keep their `@` and `/`; the space
      before `from` ends them. */
  lemma ScopedName(scope: string, package: string, rest: string)
    requires AllNameChars(scope) && AllNameChars(package)
    requires rest != [] && rest[0] == ' '
    ensures PackageName("Bump " + ("@" + scope + "/" + package) + rest) == Some("@" + scope + "/" + package)
  {
    var name := "@" + scope + "/" + package;
    assert AllNameChars("@") && AllNameChars("/");
    AllNameCharsConcat("@", scope);
    AllNameCharsConcat("@" + scope, "/");
    AllNameCharsConcat("@" + scope + "/", package);
    BumpName("Bump " + name + rest, name, rest);
  }
}
