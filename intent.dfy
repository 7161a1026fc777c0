/** The two query classifiers of app.py: `get_intent` and `is_math_query`. */
module Intent {
  import opened Text

  datatype Intent = Price | Advisor | General

  const PriceKeywords: seq<string> := ["price", "ticker", "$"]
  const AdvisorKeywords: seq<string> := ["should i", "invest", "advice", "plan"]
  const MathKeywords: seq<string> := ["solve", "integrate", "differentiate", "derivative", "integral", "limit"]

  /** `get_intent`: lower-case the query, then price keywords win over
      advisor keywords, and anything else is general. */
  function GetIntent(q: string): Intent {
    var l := Lower(q);
    if ContainsAny(l, PriceKeywords) then Price
    else if ContainsAny(l, AdvisorKeywords) then Advisor
    else General
  }

  /** One character of the regex class `[0-9\s\+\-\*\/\^\.(\)x=]`. */
  predicate IsMathChar(c: char) {
    ('0' <= c <= '9') || IsSpace(c) || c in "+-*/^.()x="
  }

  predicate AllMathChars(u: string) {
    forall i :: 0 <= i < |u| ==> IsMathChar(u[i])
  }

  /** `re.fullmatch(r"[0-9\s\+\-\*\/\^\.(\)x=]+", u)` succeeds. */
  predicate FullMatchMathClass(u: string) {
    |u| > 0 && AllMathChars(u)
  }

  /** `is_math_query`. */
  function IsMathQuery(s: string): bool {
    var t := Strip(s);
    if t == [] then false
    else if ContainsAny(Lower(t), MathKeywords) then true
    else FullMatchMathClass(ReplaceAll(t, "**", "^"))
  }

  lemma AllMathCharsAppend(a: string, b: string)
    ensures AllMathChars(a + b) <==> AllMathChars(a) && AllMathChars(b)
  {
    if AllMathChars(a + b) {
      forall i | 0 <= i < |a| ensures IsMathChar(a[i]) {
        assert (a + b)[i] == a[i];
      }
      forall i | 0 <= i < |b| ensures IsMathChar(b[i]) {
        assert (a + b)[|a| + i] == b[i];
      }
    }
  }

  /** Replacing one run of regex-class characters by another keeps or breaks
      membership in the class exactly as the original string does. */
  lemma {:induction false} ReplaceKeepsMathClass(s: string, pat: string, rep: string)
    requires |pat| > 0 && AllMathChars(pat) && AllMathChars(rep)
    ensures AllMathChars(ReplaceAll(s, pat, rep)) <==> AllMathChars(s)
    ensures |s| > 0 && |rep| > 0 ==> |ReplaceAll(s, pat, rep)| > 0
    decreases |s|
  {
    if |s| < |pat| {
    } else if s[..|pat|] == pat {
      var rest := s[|pat|..];
      ReplaceKeepsMathClass(rest, pat, rep);
      assert s == pat + rest;
      AllMathCharsAppend(pat, rest);
      AllMathCharsAppend(rep, ReplaceAll(rest, pat, rep));
    } else {
      var rest := s[1..];
      ReplaceKeepsMathClass(rest, pat, rep);
      assert s == [s[0]] + rest;
      AllMathCharsAppend([s[0]], rest);
      AllMathCharsAppend([s[0]], ReplaceAll(rest, pat, rep));
    }
  }

  /** `is_math_query` without the `'**' -> '^'` rewrite: the rewrite never
      changes the verdict, because both `*` and `^` are in the class. The
      query is mathematical exactly when its stripped form is non-empty and
      either names a math keyword (case-insensitively) or consists only of
      class characters. */
  lemma IsMathQueryIff(s: string)
    ensures IsMathQuery(s) <==>
      var t := Strip(s);
      t != [] && (ContainsAny(Lower(t), MathKeywords) || AllMathChars(t))
  {
    var t := Strip(s);
    assert AllMathChars("**") && AllMathChars("^");
    ReplaceKeepsMathClass(t, "**", "^");
  }

  /** Empty and whitespace-only input is never a math query. */
  lemma BlankIsNotMath(s: string)
    requires AllSpace(s)
    ensures !IsMathQuery(s)
  {
    StripEmptyIff(s);
  }

  /** `get_intent` is insensitive to ASCII case. */
  lemma GetIntentIgnoresCase(q: string)
    ensures GetIntent(Lower(q)) == GetIntent(q)
    ensures GetIntent(Upper(q)) == GetIntent(q)
  {
    assert Lower(Lower(q)) == Lower(q);
    assert Lower(Upper(q)) == Lower(q);
  }

  /** A query naming both a price keyword and an advisor keyword is a price
      query: price keywords are checked first. */
  lemma PriceBeforeAdvisor(q: string, p: string, a: string)
    requires p in PriceKeywords && a in AdvisorKeywords
    requires Contains(Lower(q), p) && Contains(Lower(q), a)
    ensures GetIntent(q) == Price
  {
  }
}
