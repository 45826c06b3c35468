/** Version specifiers and the choice of a concrete version id from the list
    of published versions. */
module Catalog {
  import opened FirmwareTypes
  import opened Strings

  /** The three symbolic specifiers. */
  predicate IsAlias(version: string) {
    version == "release" || version == "nightly" || version == "nightly-babel"
  }

  predicate IsDigit(c: char) {
    '0' <= c <= '9'
  }

  /** re.match(r"^\d\.\d\.\d\.\d$", version): four single digits separated by
      dots; Python's `$` also matches just before a final newline. */
  predicate MatchesVersionPattern(version: string) {
    (|version| == 7 || (|version| == 8 && version[7] == '\n')) &&
    IsDigit(version[0]) && version[1] == '.' &&
    IsDigit(version[2]) && version[3] == '.' &&
    IsDigit(version[4]) && version[5] == '.' &&
    IsDigit(version[6])
  }

  /** The pattern admits exactly single-digit components: 3.25.5.1 style
      versions with a two-digit component are refused, and no alias is a
      version string. */
  lemma VersionPatternExamples()
    ensures MatchesVersionPattern("3.5.5.1")
    ensures MatchesVersionPattern("3.5.5.1\n")
    ensures !MatchesVersionPattern("3.25.5.1")
    ensures !MatchesVersionPattern("3.24.10.0")
    ensures !MatchesVersionPattern("3.5.5.1\n\n")
  {
  }

  /** An alias never has the shape of an explicit version, and an explicit
      version never holds a character the cache name would have to replace. */
  lemma AliasAndPatternDisjoint(version: string)
    ensures IsAlias(version) ==> !MatchesVersionPattern(version)
    ensures MatchesVersionPattern(version) ==>
      forall i :: 0 <= i < |version| ==> version[i] != '/' && version[i] != ','
  {
    if IsAlias(version) && |version| >= 7 {
      assert !IsDigit(version[0]);
    }
  }

  /** Lines 126-153: the choice over the sorted list `releases`. An empty list
      is an error; "release" takes releases[-2], which is an IndexError on a
      one-element list; an explicit version must be in the list. */
  function SelectVersion(version: string, releases: seq<string>): (r: Result<string, Error>)
    ensures r.Success? ==> r.value in releases
    ensures |releases| == 0 <==> r == Failure(NoReleases)
    ensures !IsAlias(version) && |releases| > 0 ==>
      r == (if version in releases then Success(version) else Failure(VersionNotFound(version)))
  {
    if |releases| == 0 then Failure(NoReleases)
    else if version == "release" then
      (if |releases| >= 2 then Success(releases[|releases| - 2]) else Failure(ReleaseIndexError))
    else if version == "nightly" then Success(releases[0])
    else if version == "nightly-babel" then Success(releases[|releases| - 1])
    else if version in releases then Success(version)
    else Failure(VersionNotFound(version))
  }

  /** The version chosen for a catalog whose keys are `keys`. */
  function Choose(version: string, keys: seq<string>): Result<string, Error> {
    SelectVersion(version, SortStrings(keys))
  }

  lemma SortedHasSameKeys(keys: seq<string>, k: string)
    ensures |SortStrings(keys)| == |keys|
    ensures k in SortStrings(keys) <==> k in keys
  {
    SortStringsCorrect(keys);
    assert |multiset(SortStrings(keys))| == |multiset(keys)|;
    assert k in multiset(SortStrings(keys)) <==> k in multiset(keys);
  }

  /** "nightly" yields the least key in code-point order. */
  lemma NightlyIsMinimum(keys: seq<string>)
    requires |keys| > 0
    ensures Choose("nightly", keys).Success?
    ensures var v := Choose("nightly", keys).value;
      v in keys && forall k :: k in keys ==> LexLe(v, k)
  {
    var s := SortStrings(keys);
    SortStringsCorrect(keys);
    SortedHasSameKeys(keys, s[0]);
    forall k | k in keys ensures LexLe(s[0], k) {
      SortedHasSameKeys(keys, k);
      var j :| 0 <= j < |s| && s[j] == k;
      if j == 0 { LexLeTotal(k, k); }
    }
  }

  /** "nightly-babel" yields the greatest key in code-point order. */
  lemma BabelIsMaximum(keys: seq<string>)
    requires |keys| > 0
    ensures Choose("nightly-babel", keys).Success?
    ensures var v := Choose("nightly-babel", keys).value;
      v in keys && forall k :: k in keys ==> LexLe(k, v)
  {
    var s := SortStrings(keys);
    SortStringsCorrect(keys);
    SortedHasSameKeys(keys, s[|s| - 1]);
    forall k | k in keys ensures LexLe(k, s[|s| - 1]) {
      SortedHasSameKeys(keys, k);
      var j :| 0 <= j < |s| && s[j] == k;
      if j == |s| - 1 { LexLeTotal(k, k); }
    }
  }

  /** In a sorted list of two or more strings, the next-to-last one is the
      greatest of the list without its last element. */
  lemma NextToLastOfSorted(s: seq<string>)
    requires Sorted(s) && |s| >= 2
    ensures var rest := multiset(s) - multiset{s[|s| - 1]};
      s[|s| - 2] in rest && LexLe(s[|s| - 2], s[|s| - 1]) &&
      forall k :: k in rest ==> LexLe(k, s[|s| - 2])
  {
    var n := |s|;
    var front := s[..n - 1];
    assert s == front + [s[n - 1]];
    assert multiset(s) - multiset{s[n - 1]} == multiset(front);
    assert s[n - 2] == front[n - 2];
    forall k | k in multiset(front) ensures LexLe(k, s[n - 2]) {
      assert k in front;
      var j :| 0 <= j < n - 1 && front[j] == k;
      if j == n - 2 { LexLeTotal(k, k); }
    }
  }

  /** "release" yields the second-largest key: taking one copy of the greatest
      key out of the catalog, it is the greatest of what is left. With a single
      key it is the IndexError of releases[-2]. */
  lemma ReleaseIsSecondLargest(keys: seq<string>)
    requires |keys| > 0
    ensures |keys| == 1 <==> Choose("release", keys) == Failure(ReleaseIndexError)
    ensures |keys| >= 2 ==> Choose("release", keys).Success?
    ensures |keys| >= 2 ==>
      var v := Choose("release", keys).value;
      var top := Choose("nightly-babel", keys).value;
      var rest := multiset(keys) - multiset{top};
      v in rest && LexLe(v, top) && forall k :: k in rest ==> LexLe(k, v)
  {
    var s := SortStrings(keys);
    SortStringsCorrect(keys);
    SortedHasSameKeys(keys, "");
    if |s| >= 2 {
      assert Choose("release", keys) == Success(s[|s| - 2]);
      assert Choose("nightly-babel", keys) == Success(s[|s| - 1]);
      NextToLastOfSorted(s);
    }
  }

  /** Whatever the specifier, a chosen version is a key of the catalog, and an
      explicit version is chosen exactly when it is a key. */
  lemma ChosenIsKey(version: string, keys: seq<string>)
    ensures Choose(version, keys).Success? ==> Choose(version, keys).value in keys
    ensures |keys| == 0 <==> Choose(version, keys) == Failure(NoReleases)
    ensures !IsAlias(version) && |keys| > 0 ==>
      Choose(version, keys) == (if version in keys then Success(version) else Failure(VersionNotFound(version)))
  {
    var s := SortStrings(keys);
    SortedHasSameKeys(keys, version);
    if Choose(version, keys).Success? {
      SortedHasSameKeys(keys, Choose(version, keys).value);
    }
  }

  /** The worked catalog: release, nightly and nightly-babel over four keys. */
  lemma FourKeyCatalog()
    ensures Choose("release", ["2.0.0.0", "babel-x", "1.0.0.0", "3.0.0.0"]) == Success("3.0.0.0")
    ensures Choose("nightly", ["2.0.0.0", "babel-x", "1.0.0.0", "3.0.0.0"]) == Success("1.0.0.0")
    ensures Choose("nightly-babel", ["2.0.0.0", "babel-x", "1.0.0.0", "3.0.0.0"]) == Success("babel-x")
  {
    var keys := ["2.0.0.0", "babel-x", "1.0.0.0", "3.0.0.0"];
    assert LexLe("3.0.0.0", "babel-x");
    assert !LexLe("babel-x", "3.0.0.0");
    assert !LexLe("2.0.0.0", "1.0.0.0") && LexLe("1.0.0.0", "2.0.0.0");
    assert !LexLe("3.0.0.0", "1.0.0.0") && !LexLe("3.0.0.0", "2.0.0.0");
    assert SortStrings(["3.0.0.0"]) == ["3.0.0.0"];
    assert SortStrings(["1.0.0.0", "3.0.0.0"]) == ["1.0.0.0", "3.0.0.0"];
    assert SortStrings(["babel-x", "1.0.0.0", "3.0.0.0"]) == ["1.0.0.0", "3.0.0.0", "babel-x"];
    assert SortStrings(keys) == ["1.0.0.0", "2.0.0.0", "3.0.0.0", "babel-x"];
  }
}
