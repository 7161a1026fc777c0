/** The Python string primitives the core relies on: `str.isspace`, `strip`,
    ASCII `lower`/`upper`, the `in` operator on strings, `str.replace`,
    `str.split()` without arguments, and decimal rendering of a non-negative int. */
module Text {
  import opened Seqs

  /** Python's `str.isspace()` for one character (also what `\s` matches in a `str` regex). */
  predicate IsSpace(c: char) {
    || c == ' '
    || ('\t' <= c <= '\r')
    || ('\U{1C}' <= c <= '\U{1F}')
    || c == '\U{85}' || c == '\U{A0}' || c == '\U{1680}'
    || ('\U{2000}' <= c <= '\U{200A}')
    || c == '\U{2028}' || c == '\U{2029}' || c == '\U{202F}' || c == '\U{205F}' || c == '\U{3000}'
  }

  predicate AllSpace(s: string) {
    forall i :: 0 <= i < |s| ==> IsSpace(s[i])
  }

  predicate NoSpace(s: string) {
    forall i :: 0 <= i < |s| ==> !IsSpace(s[i])
  }

  /** No element occurs twice. */
  predicate Distinct<T(==)>(s: seq<T>) {
    forall i, j :: 0 <= i < j < |s| ==> s[i] != s[j]
  }

  // ---------------------------------------------------------------------------
  // Substrings: Python's `needle in haystack`
  // ---------------------------------------------------------------------------

  predicate IsPrefix(p: string, s: string) {
    |p| <= |s| && s[..|p|] == p
  }

  /** `n` occurs in `s` starting at index `i`. */
  predicate OccursAt(s: string, n: string, i: int) {
    0 <= i && i + |n| <= |s| && s[i..i + |n|] == n
  }

  /** Python's `n in s`, scanning left to right. */
  function Contains(s: string, n: string): bool
    decreases |s|
  {
    IsPrefix(n, s) || (|s| > 0 && Contains(s[1..], n))
  }

  /** The scan finds `n` exactly when `n` occurs somewhere in `s`. */
  lemma {:induction false} ContainsIff(s: string, n: string)
    ensures Contains(s, n) <==> exists i :: OccursAt(s, n, i)
    decreases |s|
  {
    if IsPrefix(n, s) {
      assert OccursAt(s, n, 0);
    } else if |s| == 0 {
    } else {
      ContainsIff(s[1..], n);
      if Contains(s[1..], n) {
        var i :| OccursAt(s[1..], n, i);
        assert s[1..][i..i + |n|] == s[i + 1..i + 1 + |n|];
        assert OccursAt(s, n, i + 1);
      }
      if i :| OccursAt(s, n, i) {
        if i == 0 {
          assert false;
        } else {
          assert s[1..][i - 1..i - 1 + |n|] == s[i..i + |n|];
          assert OccursAt(s[1..], n, i - 1);
        }
      }
    }
  }

  /** A string always contains each of its infixes. */
  lemma ContainsInfix(a: string, n: string, b: string)
    ensures Contains(a + n + b, n)
  {
    var s := a + n + b;
    assert s[|a|..|a| + |n|] == n;
    assert OccursAt(s, n, |a|);
    ContainsIff(s, n);
  }

  /** Whatever a string contains, any string around it contains too. */
  lemma ContainsWithin(a: string, s: string, b: string, n: string)
    requires Contains(s, n)
    ensures Contains(a + s + b, n)
  {
    ContainsIff(s, n);
    var i :| OccursAt(s, n, i);
    var w := a + s + b;
    assert w[|a| + i..|a| + i + |n|] == s[i..i + |n|];
    assert OccursAt(w, n, |a| + i);
    ContainsIff(w, n);
  }

  /** Python's `any(k in s for k in ks)`. */
  predicate ContainsAny(s: string, ks: seq<string>) {
    exists k :: k in ks && Contains(s, k)
  }

  // ---------------------------------------------------------------------------
  // strip()
  // ---------------------------------------------------------------------------

  function TrimLeft(s: string): (r: string)
    ensures |r| <= |s|
    ensures r != [] ==> !IsSpace(r[0])
  {
    if |s| > 0 && IsSpace(s[0]) then TrimLeft(s[1..]) else s
  }

  /** `TrimLeft(s)` is a suffix of `s`, and what it drops is whitespace. */
  lemma {:induction false} TrimLeftSpec(s: string)
    ensures var r := TrimLeft(s);
      && r == s[|s| - |r|..]
      && AllSpace(s[..|s| - |r|])
    decreases |s|
  {
    if |s| > 0 && IsSpace(s[0]) {
      var t := s[1..];
      TrimLeftSpec(t);
      var r := TrimLeft(t);
      assert t[|t| - |r|..] == s[|s| - |r|..];
      var k := |s| - |r|;
      forall i | 0 <= i < k ensures IsSpace(s[..k][i]) {
        if i > 0 { assert s[..k][i] == t[..k - 1][i - 1]; }
      }
    } else {
      assert s[..0] == [];
    }
  }

  function TrimRight(s: string): (r: string)
    ensures |r| <= |s|
  {
    if |s| > 0 && IsSpace(s[|s| - 1]) then TrimRight(s[..|s| - 1]) else s
  }

  /** `TrimRight(s)` is a prefix of `s`, what it drops is whitespace, and it
      does not end with whitespace. */
  lemma {:induction false} TrimRightSpec(s: string)
    ensures var r := TrimRight(s);
      && r == s[..|r|]
      && AllSpace(s[|r|..])
      && (r != [] ==> !IsSpace(r[|r| - 1]))
    decreases |s|
  {
    if |s| > 0 && IsSpace(s[|s| - 1]) {
      var t := s[..|s| - 1];
      TrimRightSpec(t);
      var r := TrimRight(t);
      assert t[..|r|] == s[..|r|];
      var k := |r|;
      forall j | 0 <= j < |s| - k ensures IsSpace(s[k..][j]) {
        if k + j < |s| - 1 { assert s[k..][j] == t[k..][j]; }
      }
    } else {
      assert s[|s|..] == [];
    }
  }

  /** Python's `s.strip()`. */
  function Strip(s: string): string {
    TrimRight(TrimLeft(s))
  }

  /** `Strip(s)` is the infix of `s` left after removing the whitespace at
      both ends, and it neither begins nor ends with whitespace. */
  lemma StripSpec(s: string)
    ensures var r := Strip(s);
      && (r != [] ==> !IsSpace(r[0]) && !IsSpace(r[|r| - 1]))
      && exists i :: OccursAt(s, r, i) && AllSpace(s[..i]) && AllSpace(s[i + |r|..])
  {
    var l := TrimLeft(s);
    TrimLeftSpec(s);
    TrimRightSpec(l);
    var r := TrimRight(l);
    var i := |s| - |l|;
    assert l == s[i..];
    assert s[i..i + |r|] == l[..|r|];
    assert s[i + |r|..] == l[|r|..];
    if r != [] {
      assert r[0] == l[0];
    }
    assert OccursAt(s, r, i) && AllSpace(s[..i]) && AllSpace(s[i + |r|..]);
  }

  /** Only an all-whitespace string strips to the empty string. */
  lemma StripEmptyIff(s: string)
    ensures Strip(s) == [] <==> AllSpace(s)
  {
    var l := TrimLeft(s);
    TrimLeftSpec(s);
    var k := |s| - |l|;
    if l == [] {
      assert s[..k] == s;
    } else {
      TrimRightSpec(l);
      assert s[k] == l[0];
      assert l[0..] == l;
    }
  }

  /** Stripping twice changes nothing more. */
  lemma StripIdempotent(s: string)
    ensures Strip(Strip(s)) == Strip(s)
  {
    var l := TrimLeft(s);
    TrimRightSpec(l);
    var r := TrimRight(l);
    if r != [] {
      assert r[0] == l[0];
    }
    assert TrimLeft(r) == r;
    assert TrimRight(r) == r;
  }

  // ---------------------------------------------------------------------------
  // lower() / upper() on ASCII letters
  // ---------------------------------------------------------------------------

  function LowerChar(c: char): char {
    if 'A' <= c <= 'Z' then (c as int + 32) as char else c
  }

  function UpperChar(c: char): char {
    if 'a' <= c <= 'z' then (c as int - 32) as char else c
  }

  function Lower(s: string): (r: string)
    ensures |r| == |s|
    ensures forall i :: 0 <= i < |s| ==> r[i] == LowerChar(s[i])
  {
    seq(|s|, i requires 0 <= i < |s| => LowerChar(s[i]))
  }

  function Upper(s: string): (r: string)
    ensures |r| == |s|
    ensures forall i :: 0 <= i < |s| ==> r[i] == UpperChar(s[i])
  {
    seq(|s|, i requires 0 <= i < |s| => UpperChar(s[i]))
  }

  // ---------------------------------------------------------------------------
  // str.replace(pat, rep): left to right, non-overlapping
  // ---------------------------------------------------------------------------

  function ReplaceAll(s: string, pat: string, rep: string): string
    requires |pat| > 0
    decreases |s|
  {
    if |s| < |pat| then s
    else if s[..|pat|] == pat then rep + ReplaceAll(s[|pat|..], pat, rep)
    else [s[0]] + ReplaceAll(s[1..], pat, rep)
  }

  /** Python's `s.replace(pat, '')`. */
  function Remove(s: string, pat: string): string
    requires |pat| > 0
  {
    ReplaceAll(s, pat, "")
  }

  // ---------------------------------------------------------------------------
  // str.split() without arguments
  // ---------------------------------------------------------------------------

  /** The longest prefix of `t` without whitespace. */
  function TakeWord(t: string): (w: string)
    ensures |w| <= |t| && w == t[..|w|] && NoSpace(w)
    ensures |w| < |t| ==> IsSpace(t[|w|])
    ensures t != [] && !IsSpace(t[0]) ==> |w| >= 1
  {
    if t == [] || IsSpace(t[0]) then [] else [t[0]] + TakeWord(t[1..])
  }

  /** Python's `s.split()`: the maximal runs of non-whitespace characters. */
  function Words(s: string): seq<string>
    decreases |s|
  {
    var t := TrimLeft(s);
    if t == [] then []
    else
      var w := TakeWord(t);
      [w] + Words(t[|w|..])
  }

  function Concat(ws: seq<string>): string {
    if ws == [] then [] else ws[0] + Concat(ws[1..])
  }

  /** `s` with every whitespace character dropped. */
  function RemoveSpaces(s: string): string {
    if s == [] then [] else (if IsSpace(s[0]) then [] else [s[0]]) + RemoveSpaces(s[1..])
  }

  lemma {:induction false} RemoveSpacesAppend(a: string, b: string)
    ensures RemoveSpaces(a + b) == RemoveSpaces(a) + RemoveSpaces(b)
    decreases |a|
  {
    if a != [] {
      var h := if IsSpace(a[0]) then [] else [a[0]];
      assert (a + b)[0] == a[0];
      assert (a + b)[1..] == a[1..] + b;
      RemoveSpacesAppend(a[1..], b);
      calc {
        RemoveSpaces(a + b);
        h + RemoveSpaces(a[1..] + b);
        h + (RemoveSpaces(a[1..]) + RemoveSpaces(b));
        (h + RemoveSpaces(a[1..])) + RemoveSpaces(b);
        RemoveSpaces(a) + RemoveSpaces(b);
      }
    } else {
      assert a + b == b;
    }
  }

  lemma {:induction false} RemoveSpacesOf(s: string)
    ensures AllSpace(s) ==> RemoveSpaces(s) == []
    ensures NoSpace(s) ==> RemoveSpaces(s) == s
    decreases |s|
  {
    if s != [] {
      RemoveSpacesOf(s[1..]);
    }
  }

  /** Every word is non-empty and free of whitespace, and the words, read in
      order, are exactly the non-whitespace characters of `s`. */
  lemma {:induction false} WordsSpec(s: string)
    ensures forall w :: w in Words(s) ==> w != [] && NoSpace(w)
    ensures Concat(Words(s)) == RemoveSpaces(s)
    decreases |s|
  {
    var t := TrimLeft(s);
    TrimLeftSpec(s);
    var k := |s| - |t|;
    assert s == s[..k] + t;
    RemoveSpacesAppend(s[..k], t);
    RemoveSpacesOf(s[..k]);
    if t != [] {
      var w := TakeWord(t);
      var rest := t[|w|..];
      assert t == w + rest;
      RemoveSpacesAppend(w, rest);
      RemoveSpacesOf(w);
      WordsSpec(rest);
      var ws := Words(rest);
      assert Words(s) == [w] + ws;
      assert ([w] + ws)[1..] == ws;
      assert Concat([w] + ws) == w + Concat(ws);
    }
  }

  /** A single run of non-whitespace characters is one word: `split()`
      never breaks a word apart. */
  lemma WordsOfWord(w: string)
    requires w != [] && NoSpace(w)
    ensures Words(w) == [w]
  {
    assert TrimLeft(w) == w;
    var k := TakeWord(w);
    assert |k| == |w|;
    assert k == w[..|w|] == w;
    assert w[|w|..] == [];
  }

  /** A string of whitespace only has no words. */
  lemma WordsOfSpace(s: string)
    requires AllSpace(s)
    ensures Words(s) == []
  {
    TrimLeftSpec(s);
  }

  /** A whitespace character in front does not change the words. */
  lemma WordsSkipSpace(c: char, r: string)
    requires IsSpace(c)
    ensures Words([c] + r) == Words(r)
  {
    assert ([c] + r)[1..] == r;
  }

  /** The word at the front of `a` is the word at the front of `a + r`
      when `a` ends it, or when `r` begins with whitespace. */
  lemma {:induction false} TakeWordAppend(a: string, r: string)
    ensures |TakeWord(a)| < |a| ==> TakeWord(a + r) == TakeWord(a)
    ensures TakeWord(a) == a && (r == [] || IsSpace(r[0])) ==> TakeWord(a + r) == a
    decreases |a|
  {
    if a == [] {
      assert a + r == r;
    } else {
      assert (a + r)[0] == a[0] && (a + r)[1..] == a[1..] + r;
      if !IsSpace(a[0]) {
        TakeWordAppend(a[1..], r);
      }
    }
  }

  /** `split()` cuts at every whitespace character: the words of
      `a + [c] + b` are the words of `a` followed by the words of `b`.
      With `WordsOfWord` and `WordsOfSpace` this fixes `Words` on every
      string, so the words are exactly the maximal non-whitespace runs. */
  lemma {:induction false} WordsSplitAtSpace(a: string, c: char, b: string)
    requires IsSpace(c)
    ensures Words(a + [c] + b) == Words(a) + Words(b)
    decreases |a|
  {
    if a == [] {
      assert a + [c] + b == [c] + b;
      WordsSkipSpace(c, b);
    } else if IsSpace(a[0]) {
      WordsSplitAtSpace(a[1..], c, b);
      SplitAfterSpace(a, c, b);
    } else if |TakeWord(a)| < |a| {
      WordsSplitAtSpace(a[|TakeWord(a)|..], c, b);
      SplitAfterWord(a, c, b);
    } else {
      SplitWholeWord(a, c, b);
    }
  }

  /** `WordsSplitAtSpace` for an `a` that starts with whitespace, from the
      same fact for the rest of `a`. */
  lemma SplitAfterSpace(a: string, c: char, b: string)
    requires a != [] && IsSpace(a[0])
    requires Words(a[1..] + [c] + b) == Words(a[1..]) + Words(b)
    ensures Words(a + [c] + b) == Words(a) + Words(b)
  {
    var a' := a[1..];
    ConsSplit(a, [c], b);
    WordsSkipSpace(a[0], a' + [c] + b);
    WordsSkipSpace(a[0], a');
  }

  /** `WordsSplitAtSpace` for an `a` whose first word ends inside `a`, from
      the same fact for what follows that word. */
  lemma SplitAfterWord(a: string, c: char, b: string)
    requires a != [] && !IsSpace(a[0]) && IsSpace(c) && |TakeWord(a)| < |a|
    requires Words(a[|TakeWord(a)|..] + [c] + b) == Words(a[|TakeWord(a)|..]) + Words(b)
    ensures Words(a + [c] + b) == Words(a) + Words(b)
  {
    var w, s := TakeWord(a), a + [c] + b;
    var a' := a[|w|..];
    DropSplit(a, |w|, [c], b);
    TakeWordAppend(a, [c] + b);
    WordsCons(a);
    WordsCons(s);
    AppendAssoc([w], Words(a'), Words(b));
  }

  /** `WordsSplitAtSpace` for an `a` that is a single word. */
  lemma SplitWholeWord(a: string, c: char, b: string)
    requires a != [] && !IsSpace(a[0]) && IsSpace(c) && |TakeWord(a)| >= |a|
    ensures Words(a + [c] + b) == Words(a) + Words(b)
  {
    var s := a + [c] + b;
    DropSplit(a, |a|, [c], b);
    assert TakeWord(a) == a[..|a|] == a;
    TakeWordAppend(a, [c] + b);
    WordsCons(s);
    WordsOfWord(a);
    WordsSkipSpace(c, b);
  }

  /** A string that starts with a non-whitespace character starts with its
      first word. */
  lemma WordsCons(t: string)
    requires t != [] && !IsSpace(t[0])
    ensures Words(t) == [TakeWord(t)] + Words(t[|TakeWord(t)|..])
  {
    assert TrimLeft(t) == t;
  }

  // ---------------------------------------------------------------------------
  // Decimal rendering of a non-negative int (f"{k}")
  // ---------------------------------------------------------------------------

  function DigitChar(d: nat): char
    requires d < 10
  {
    ('0' as int + d) as char
  }

  function Digits(n: nat): (r: string)
    ensures |r| >= 1
    ensures n >= 10 ==> |r| >= 2
    ensures forall c :: c in r ==> '0' <= c <= '9'
  {
    if n < 10 then [DigitChar(n)] else Digits(n / 10) + [DigitChar(n % 10)]
  }

  /** Distinct numbers render as distinct decimal strings. */
  lemma {:induction false} DigitsInjective(a: nat, b: nat)
    requires Digits(a) == Digits(b)
    ensures a == b
    decreases a
  {
    if a < 10 && b < 10 {
    } else if a < 10 || b < 10 {
      assert false;
    } else {
      var da, db := Digits(a), Digits(b);
      assert da[|da| - 1] == DigitChar(a % 10) && db[|db| - 1] == DigitChar(b % 10);
      assert da[..|da| - 1] == Digits(a / 10) && db[..|db| - 1] == Digits(b / 10);
      DigitsInjective(a / 10, b / 10);
    }
  }
}
