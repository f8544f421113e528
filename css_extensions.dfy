/** `KNOWN_CSS_EXTENSIONS` and `CSS_EXTENSIONS_REGEX` of src/constants.ts, as
    bundled in dist/index.js. */
module CssExtensions {
  import opened Text
  import Paths

  const KnownCssExtensions: seq<string> :=
    ["css", "less", "sass", "scss", "styl", "stylus", "pcss", "postcss"]

  /** What `.` matches in a JavaScript regular expression without the `s` flag. */
  predicate IsLineTerminator(c: char) {
    c == '\n' || c == '\r' || c == '\U{2028}' || c == '\U{2029}'
  }

  predicate NoLineTerminator(s: string) {
    forall i :: 0 <= i < |s| ==> !IsLineTerminator(s[i])
  }

  /** `t` is matched whole by the alternative for extension `e`: a dot, `e`,
      and optionally a `?` followed by at least one character that is not a
      line terminator. */
  predicate AlternativeMatches(t: string, e: string) {
    t == "." + e ||
    (StartsWith(t, "." + e + "?") && |t| > |e| + 2 && NoLineTerminator(t[|e| + 2..]))
  }

  predicate SomeAlternativeMatches(t: string, exts: seq<string>) {
    |exts| > 0 && (AlternativeMatches(t, exts[0]) || SomeAlternativeMatches(t, exts[1..]))
  }

  /** `t` is matched whole by `\.(css|...|postcss)(\?.+)?$` anchored at its start. */
  predicate CssSuffix(t: string) {
    SomeAlternativeMatches(t, KnownCssExtensions)
  }

  /** `CSS_EXTENSIONS_REGEX.test(s)`: the pattern is unanchored on the left and
      anchored at the end, so it matches when some suffix of `s` is a CssSuffix. */
  predicate MatchesCssRegex(s: string) {
    exists i :: 0 <= i <= |s| && CssSuffix(s[i..])
  }

  /** `path.extname(src).match(CSS_EXTENSIONS_REGEX)`: the classification of a
      manifest key as a stylesheet entry. */
  predicate IsCssKey(key: string) {
    MatchesCssRegex(Paths.Extname(key))
  }

  lemma {:induction false} MatchStartsWithDot(t: string, exts: seq<string>)
    requires SomeAlternativeMatches(t, exts)
    ensures |t| > 0 && t[0] == '.'
    decreases |exts|
  {
    if !AlternativeMatches(t, exts[0]) {
      MatchStartsWithDot(t, exts[1..]);
    }
  }

  /** An extension holds a single '.', at its start, so the regex can only match
      the extension as a whole. */
  lemma ExtnameMatchIsWhole(key: string)
    ensures IsCssKey(key) <==> CssSuffix(Paths.Extname(key))
  {
    var x := Paths.Extname(key);
    assert x[0..] == x;
    if IsCssKey(key) {
      var i :| 0 <= i <= |x| && CssSuffix(x[i..]);
      MatchStartsWithDot(x[i..], KnownCssExtensions);
    }
  }

  /** A manifest key `<dir/>stem.ext` is classified by its extension alone. */
  lemma ClassifyByExtension(dir: string, stem: string, ext: string)
    requires dir == "" || EndsWith(dir, "/")
    requires |stem| > 0 && stem != "." && NoChar(stem, '/')
    requires NoChar(ext, '/') && NoChar(ext, '.')
    ensures IsCssKey(dir + (stem + "." + ext)) <==> CssSuffix("." + ext)
  {
    Paths.ExtnameOfFile(dir, stem, ext);
    ExtnameMatchIsWhole(dir + (stem + "." + ext));
  }

  lemma {:induction false} SomeAlternativeAt(t: string, exts: seq<string>)
    ensures SomeAlternativeMatches(t, exts) <==>
            exists k :: 0 <= k < |exts| && AlternativeMatches(t, exts[k])
    decreases |exts|
  {
    if |exts| > 0 {
      SomeAlternativeAt(t, exts[1..]);
      if exists k :: 0 <= k < |exts| && AlternativeMatches(t, exts[k]) {
        var k :| 0 <= k < |exts| && AlternativeMatches(t, exts[k]);
        if k > 0 { assert exts[1..][k - 1] == exts[k]; }
      }
    }
  }

  /** A plain stylesheet extension matches. */
  lemma PlainCssAccepted()
    ensures CssSuffix(".css")
  {
    var exts := KnownCssExtensions;
    SomeAlternativeAt(".css", exts);
    assert AlternativeMatches(".css", exts[0]);
  }

  /** An extension followed by a query matches. */
  lemma QueriedScssAccepted()
    ensures CssSuffix(".scss?inline")
  {
    var exts := KnownCssExtensions;
    SomeAlternativeAt(".scss?inline", exts);
    assert ".scss?inline"[..6] == ".scss?";
    assert AlternativeMatches(".scss?inline", exts[3]);
  }

  /** The last alternative of the list matches too. */
  lemma PostcssAccepted()
    ensures CssSuffix(".postcss")
  {
    var exts := KnownCssExtensions;
    SomeAlternativeAt(".postcss", exts);
    assert AlternativeMatches(".postcss", exts[7]);
  }

  /** A script extension does not match. */
  lemma ScriptSuffixRejected()
    ensures !CssSuffix(".ts")
  {
    var exts := KnownCssExtensions;
    SomeAlternativeAt(".ts", exts);
    assert forall k :: 0 <= k < |exts| ==> |exts[k]| >= 3;
  }

  /** A query needs at least one character after the `?`. */
  lemma EmptyQueryRejected()
    ensures !CssSuffix(".css?")
  {
    var exts := KnownCssExtensions;
    var t := ".css?";
    SomeAlternativeAt(t, exts);
    assert !AlternativeMatches(t, exts[0]) by {
      assert |t| == |exts[0]| + 2;
    }
    forall k | 1 <= k < |exts|
      ensures !AlternativeMatches(t, exts[k])
    {
      assert |exts[k]| >= 4 && exts[k][0] != 'c';
      assert ("." + exts[k])[1] == exts[k][0];
    }
  }

  /** An extension with a known one as a proper prefix does not match. */
  lemma LongerExtensionRejected()
    ensures !CssSuffix(".cssx")
  {
    var exts := KnownCssExtensions;
    var t := ".cssx";
    SomeAlternativeAt(t, exts);
    assert !AlternativeMatches(t, exts[0]) by {
      assert t[..5] != ".css?" by { assert t[4] != ".css?"[4]; }
    }
    forall k | 1 <= k < |exts|
      ensures !AlternativeMatches(t, exts[k])
    {
      assert |exts[k]| >= 4 && exts[k][0] != 'c';
      assert ("." + exts[k])[1] == exts[k][0];
    }
  }
}
