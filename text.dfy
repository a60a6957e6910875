/** Character classes and the string operations the Coinbase parser uses: Python's `str.strip`,
    `str.replace(c, "")`, `re.sub` with a character class, the `in` substring test and
    `list.index`, plus the longest-run splitting on which the regular expressions rest. */
module Text {
  import opened Wrappers

  /** Python's `\d`, restricted to ASCII digits. */
  predicate IsDigit(c: char) { '0' <= c <= '9' }

  /** Python's `\w`, restricted to ASCII letters, digits and underscore. */
  predicate IsWordChar(c: char) { 'a' <= c <= 'z' || 'A' <= c <= 'Z' || IsDigit(c) || c == '_' }

  /** The ASCII characters Python's `str.strip()` removes by default: space, tab, line feed,
      vertical tab, form feed, carriage return and the four separators U+001C to U+001F. */
  predicate IsWhitespace(c: char) {
    c == ' ' || c == '\t' || c == '\n' || c == '\r' || c as int == 11 || c as int == 12
    || 28 <= c as int <= 31
  }

  /** The regular-expression class `[\d|,]`: a digit, a comma, or a literal vertical bar. */
  predicate IsGroupedDigitChar(c: char) { IsDigit(c) || c == '|' || c == ',' }

  /** A character that can occur in an amount of either extractor: `[\d|,]` or the point. */
  predicate IsAmountChar(c: char) { IsGroupedDigitChar(c) || c == '.' }

  predicate IsSpace(c: char) { c == ' ' }

  /** The symbols `[£€$]` that may precede an amount. */
  predicate IsCurrencySymbol(c: char) { c == '£' || c == '€' || c == '$' }

  predicate AllChars(s: string, cls: char -> bool) {
    forall i :: 0 <= i < |s| ==> cls(s[i])
  }

  predicate AllDigits(s: string) { AllChars(s, IsDigit) }

  /** `\w+`: a non-empty run of word characters. */
  predicate IsWord(s: string) { |s| > 0 && AllChars(s, IsWordChar) }

  /** Splits `s` into its longest prefix of characters in `cls` and the rest. */
  function TakeWhile(s: string, cls: char -> bool): (r: (string, string))
    ensures r.0 + r.1 == s
    ensures AllChars(r.0, cls)
    ensures r.1 == [] || !cls(r.1[0])
  {
    if s == [] || !cls(s[0]) then ([], s)
    else
      var tail := TakeWhile(s[1..], cls);
      ConsSplit(s, tail.0, tail.1, cls);
      ([s[0]] + tail.0, tail.1)
  }

  /** Putting back the first character of `s` in front of a split of the rest of `s`. */
  lemma ConsSplit(s: string, run: string, rest: string, cls: char -> bool)
    requires s != [] && cls(s[0]) && run + rest == s[1..] && AllChars(run, cls)
    ensures ([s[0]] + run) + rest == s && AllChars([s[0]] + run, cls)
  {
    assert [s[0]] + s[1..] == s;
    forall i | 0 < i <= |run| ensures cls(([s[0]] + run)[i]) {
      assert ([s[0]] + run)[i] == run[i - 1];
    }
  }

  /** The longest run is unique: any split into a run and a rest that does not continue it is
      the one `TakeWhile` finds. */
  lemma {:induction false} TakeWhileOfConcat(run: string, rest: string, cls: char -> bool)
    requires AllChars(run, cls)
    requires rest == [] || !cls(rest[0])
    ensures TakeWhile(run + rest, cls) == (run, rest)
  {
    if run != [] {
      assert (run + rest)[0] == run[0] && cls(run[0]);
      assert (run + rest)[1..] == run[1..] + rest;
      assert AllChars(run[1..], cls) by {
        forall i | 0 <= i < |run[1..]| ensures cls(run[1..][i]) {
          assert run[1..][i] == run[i + 1];
        }
      }
      TakeWhileOfConcat(run[1..], rest, cls);
      var s := run + rest;
      assert s != [] && cls(s[0]);
      assert TakeWhile(s, cls) == ([s[0]] + TakeWhile(s[1..], cls).0, TakeWhile(s[1..], cls).1);
      assert [run[0]] + run[1..] == run;
    } else {
      assert run + rest == rest;
    }
  }

  /** The rest of `s` after `prefix`, when `s` starts with `prefix`. */
  function DropPrefix(s: string, prefix: string): (r: Option<string>)
    ensures r.Some? <==> |prefix| <= |s| && s[..|prefix|] == prefix
    ensures r.Some? ==> s == prefix + r.value
  {
    if |prefix| <= |s| && s[..|prefix|] == prefix then Some(s[|prefix|..]) else None
  }

  lemma DropPrefixOfConcat(prefix: string, rest: string)
    ensures DropPrefix(prefix + rest, prefix) == Some(rest)
  {
    assert (prefix + rest)[..|prefix|] == prefix;
  }

  /** `sub` occurs in `s` starting at position `i`. */
  predicate OccursAt(s: string, sub: string, i: int) {
    0 <= i && i + |sub| <= |s| && s[i..i + |sub|] == sub
  }

  /** Python's `sub in s`. */
  function Contains(s: string, sub: string): (r: bool)
    ensures r <==> exists i :: OccursAt(s, sub, i)
    decreases |s|
  {
    if |sub| <= |s| && s[..|sub|] == sub then
      assert OccursAt(s, sub, 0);
      true
    else if |s| <= |sub| then
      assert forall i :: OccursAt(s, sub, i) ==> i == 0;
      false
    else
      var r := Contains(s[1..], sub);
      assert forall i :: OccursAt(s, sub, i) && i > 0 ==> OccursAt(s[1..], sub, i - 1) by {
        forall i | OccursAt(s, sub, i) && i > 0 ensures OccursAt(s[1..], sub, i - 1) {
          assert s[1..][i - 1..i - 1 + |sub|] == s[i..i + |sub|];
        }
      }
      assert r ==> exists i :: OccursAt(s, sub, i) by {
        if r {
          var j :| OccursAt(s[1..], sub, j);
          assert s[1..][j..j + |sub|] == s[j + 1..j + 1 + |sub|];
          assert OccursAt(s, sub, j + 1);
        }
      }
      r
  }

  /** Python's `xs.index(x)`: the first position of `x`, or `None` where Python raises. */
  function IndexOf<T(==)>(xs: seq<T>, x: T): (r: Option<nat>)
    ensures r.None? <==> x !in xs
    ensures r.Some? ==> r.value < |xs| && xs[r.value] == x && x !in xs[..r.value]
  {
    if xs == [] then None
    else if xs[0] == x then Some(0)
    else
      match IndexOf(xs[1..], x)
      case None => None
      case Some(i) =>
        assert xs[..i + 1] == [xs[0]] + xs[1..][..i];
        Some(i + 1)
  }

  /** Python's `s.lstrip(chars)`: the longest suffix of `s` that does not start with a character
      of `cls`. */
  function StripLeft(s: string, cls: char -> bool): (r: string)
    ensures |r| <= |s| && r == s[|s| - |r|..]
    ensures AllChars(s[..|s| - |r|], cls)
    ensures r == [] || !cls(r[0])
  {
    TakeWhile(s, cls).1
  }

  /** Python's `s.rstrip(chars)`: the longest prefix of `s` that does not end with a character
      of `cls`. */
  function StripRight(s: string, cls: char -> bool): (r: string)
    ensures |r| <= |s| && r == s[..|r|]
    ensures AllChars(s[|r|..], cls)
    ensures r == [] || !cls(r[|r| - 1])
    decreases |s|
  {
    if s == [] || !cls(s[|s| - 1]) then s
    else
      var r := StripRight(s[..|s| - 1], cls);
      assert s[|r|..] == s[..|s| - 1][|r|..] + [s[|s| - 1]];
      r
  }

  /** `r` is `s` with the characters before `i` and after `i + |r|` removed, all of them in `cls`. */
  predicate IsTrimmedAt(s: string, r: string, cls: char -> bool, i: int) {
    0 <= i <= |s| - |r| && r == s[i..i + |r|] && AllChars(s[..i], cls) && AllChars(s[i + |r|..], cls)
  }

  /** Python's `s.strip(chars)`. */
  function Strip(s: string, cls: char -> bool): (r: string)
    ensures r == [] || (!cls(r[0]) && !cls(r[|r| - 1]))
    ensures exists i :: IsTrimmedAt(s, r, cls, i)
  {
    var left := StripLeft(s, cls);
    StripBothEnds(s, cls);
    StripRight(left, cls)
  }

  lemma StripBothEnds(s: string, cls: char -> bool)
    ensures var left := StripLeft(s, cls);
      IsTrimmedAt(s, StripRight(left, cls), cls, |s| - |left|)
  {
    var left := StripLeft(s, cls);
    var r := StripRight(left, cls);
    var i := |s| - |left|;
    assert s[i..][..|r|] == s[i..i + |r|];
    assert s[i + |r|..] == left[|r|..];
  }

  /** Stripping a string that neither starts nor ends with a stripped character changes nothing. */
  lemma StripUnchanged(s: string, cls: char -> bool)
    requires s == [] || (!cls(s[0]) && !cls(s[|s| - 1]))
    ensures Strip(s, cls) == s
  {
    var r := Strip(s, cls);
    var i :| IsTrimmedAt(s, r, cls, i);
    if s != [] {
      assert i == 0;
      assert |r| == |s|;
    }
  }

  /** `s` without the characters that fail `keep`, in their original order: Python's
      `s.replace(",", "")` and `re.sub(r"[^...]+", "", s)` are both of this form. */
  function Filter(s: string, keep: char -> bool): (r: string)
    ensures AllChars(r, keep) && |r| <= |s|
  {
    if s == [] then []
    else
      var rest := Filter(s[1..], keep);
      if keep(s[0]) then [s[0]] + rest else rest
  }

  /** A character survives the filter exactly when it occurs and is kept. */
  lemma {:induction false} FilterMembers(s: string, keep: char -> bool, c: char)
    ensures c in Filter(s, keep) <==> c in s && keep(c)
  {
    if s != [] {
      FilterMembers(s[1..], keep, c);
      assert s == [s[0]] + s[1..];
    }
  }

  lemma {:induction false} FilterOfConcat(a: string, b: string, keep: char -> bool)
    ensures Filter(a + b, keep) == Filter(a, keep) + Filter(b, keep)
  {
    if a == [] {
      assert a + b == b;
    } else {
      assert (a + b)[0] == a[0];
      assert (a + b)[1..] == a[1..] + b;
      FilterOfConcat(a[1..], b, keep);
    }
  }

  lemma {:induction false} FilterKeepsAll(s: string, keep: char -> bool)
    requires AllChars(s, keep)
    ensures Filter(s, keep) == s
  {
    if s != [] {
      FilterKeepsAll(s[1..], keep);
    }
  }

  /** `c * n`. */
  function Repeat(c: char, n: nat): (r: string)
    ensures |r| == n && forall i :: 0 <= i < n ==> r[i] == c
  {
    if n == 0 then [] else [c] + Repeat(c, n - 1)
  }
}
