/** Character classes and the string operations the classifier relies on:
    Python's `str.strip()`, `str.split('\n')`, the `in` substring test and
    `str.endswith`. Characters are ASCII; see README for what that leaves out. */
module Text {

  /** Python's `str.isspace()` (and the regex class `\s`) on ASCII:
      space, tab, line feed, vertical tab, form feed, carriage return and
      the four separators 0x1C-0x1F. */
  predicate IsSpace(c: char) {
    c == ' ' || (9 <= c as int <= 13) || (28 <= c as int <= 31)
  }

  predicate IsNewline(c: char) { c == '\n' }

  /** The regex class `\d`. */
  predicate IsDigit(c: char) { '0' <= c <= '9' }

  /** The regex range `A-Z`. */
  predicate IsUpper(c: char) { 'A' <= c <= 'Z' }

  /** `str.islower()` on a single ASCII character. */
  predicate IsLower(c: char) { 'a' <= c <= 'z' }

  predicate IsLetter(c: char) { IsUpper(c) || IsLower(c) }

  /** The regex class `\w`. */
  predicate IsWordChar(c: char) { IsLetter(c) || IsDigit(c) || c == '_' }

  /** ASCII case folding, as `re.IGNORECASE` compares letters. */
  function ToLower(c: char): (r: char)
    ensures IsUpper(c) ==> IsLower(r) && r as int == c as int + 32
    ensures !IsUpper(c) ==> r == c
  {
    if IsUpper(c) then (c as int + 32) as char else c
  }

  predicate AllSpace(s: string) {
    forall k :: 0 <= k < |s| ==> IsSpace(s[k])
  }

  /** A string as `strip()` leaves it: no whitespace at either end. */
  predicate Trimmed(s: string) {
    s == [] || (!IsSpace(s[0]) && !IsSpace(s[|s| - 1]))
  }

  /** `lstrip()`: the longest suffix that does not start with whitespace. */
  function TrimStart(s: string): (r: string)
    ensures |r| <= |s| && r == s[|s| - |r|..]
    ensures AllSpace(s[..|s| - |r|])
    ensures r == [] || !IsSpace(r[0])
  {
    if s != [] && IsSpace(s[0]) then TrimStart(s[1..]) else s
  }

  /** `rstrip()`: the longest prefix that does not end with whitespace. */
  function TrimEnd(s: string): (r: string)
    ensures |r| <= |s| && r == s[..|r|]
    ensures AllSpace(s[|r|..])
    ensures r == [] || !IsSpace(r[|r| - 1])
  {
    if s != [] && IsSpace(s[|s| - 1]) then TrimEnd(s[..|s| - 1]) else s
  }

  /** `strip()`: leading whitespace dropped one character at a time, then
      `rstrip()`. `StripIsBothTrims` relates it to `lstrip()` and
      `StripRemovesPadding` says what was removed. */
  function Strip(s: string): (r: string)
    ensures Trimmed(r)
    ensures |r| <= |s|
  {
    if s != [] && IsSpace(s[0]) then Strip(s[1..]) else TrimEnd(s)
  }

  /** `strip()` is `rstrip()` after `lstrip()`. */
  lemma {:induction false} StripIsBothTrims(s: string)
    ensures Strip(s) == TrimEnd(TrimStart(s))
  {
    if s != [] && IsSpace(s[0]) {
      StripIsBothTrims(s[1..]);
    }
  }

  /** The stripped line is an infix of the line with only whitespace
      around it. */
  lemma StripRemovesPadding(s: string)
    ensures exists i :: PaddedBy(s, i, Strip(s))
  {
    StripIsBothTrims(s);
    var t := TrimStart(s);
    var r := TrimEnd(t);
    var i := |s| - |t|;
    assert s[i..i + |r|] == r;
    assert s[i + |r|..] == t[|r|..];
    assert PaddedBy(s, i, r);
    assert r == Strip(s);
  }

  /** `s` is whitespace, then `r` starting at index `i`, then whitespace. */
  predicate PaddedBy(s: string, i: nat, r: string) {
    i + |r| <= |s| && AllSpace(s[..i]) && s[i..i + |r|] == r && AllSpace(s[i + |r|..])
  }

  lemma {:induction false} TrimEndSpaces(t: string, b: string)
    requires AllSpace(b)
    ensures TrimEnd(t + b) == TrimEnd(t)
  {
    if b != [] {
      assert IsSpace((t + b)[|t + b| - 1]);
      assert AllSpace(b[..|b| - 1]);
      assert (t + b)[..|t + b| - 1] == t + b[..|b| - 1];
      assert TrimEnd(t + b) == TrimEnd((t + b)[..|t + b| - 1]);
      TrimEndSpaces(t, b[..|b| - 1]);
    } else {
      assert t + b == t;
    }
  }

  /** Leading whitespace does not change what `strip()` gives. */
  lemma {:induction false} StripSpaces(a: string, t: string)
    requires AllSpace(a)
    ensures Strip(a + t) == Strip(t)
  {
    if a != [] {
      assert (a + t)[0] == a[0];
      assert (a + t)[1..] == a[1..] + t;
      StripSpaces(a[1..], t);
    } else {
      assert a + t == t;
    }
  }

  /** The reference reading of `strip()`: whitespace, then a trimmed core,
      then whitespace, strips to the core. */
  lemma StripPadded(a: string, r: string, b: string)
    requires AllSpace(a) && AllSpace(b) && Trimmed(r)
    ensures Strip(a + r + b) == r
  {
    assert a + r + b == a + (r + b);
    StripSpaces(a, r + b);
    if r == [] {
      assert r + b == b + [];
      StripSpaces(b, []);
    } else {
      assert (r + b)[0] == r[0];
      TrimEndSpaces(r, b);
      assert TrimEnd(r) == r;
    }
  }

  /** Stripping a stripped line changes nothing. */
  lemma StripTrimmed(s: string)
    requires Trimmed(s)
    ensures Strip(s) == s
  {
    StripPadded([], s, []);
    assert [] + s + [] == s;
  }

  lemma StripIdempotent(s: string)
    ensures Strip(Strip(s)) == Strip(s)
  {
    StripTrimmed(Strip(s));
  }

  /** `s.split('\n')`: the pieces between line feeds, never empty as a list. */
  function SplitLines(s: string): (r: seq<string>)
    ensures |r| >= 1
    ensures forall k :: 0 <= k < |r| ==> '\n' !in r[k]
  {
    if s == [] then [""]
    else
      var rest := SplitLines(s[1..]);
      if s[0] == '\n' then [""] + rest
      else [[s[0]] + rest[0]] + rest[1..]
  }

  /** `'\n'.join(ls)`, the inverse of `SplitLines`. */
  function JoinLines(ls: seq<string>): string
    requires |ls| >= 1
  {
    if |ls| == 1 then ls[0] else ls[0] + "\n" + JoinLines(ls[1..])
  }

  lemma {:induction false} JoinSplit(s: string)
    ensures JoinLines(SplitLines(s)) == s
  {
    if s != [] {
      var rest := SplitLines(s[1..]);
      JoinSplit(s[1..]);
      if s[0] == '\n' {
        assert ([""] + rest)[1..] == rest;
      } else if |rest| == 1 {
        assert [s[0]] + s[1..] == s;
      } else {
        var r := [[s[0]] + rest[0]] + rest[1..];
        assert r[1..] == rest[1..];
        assert JoinLines(rest) == rest[0] + "\n" + JoinLines(rest[1..]);
        assert [s[0]] + s[1..] == s;
      }
    }
  }

  lemma {:induction false} SplitNoNewline(w: string, t: string)
    requires '\n' !in w
    ensures SplitLines(w + t) == [w + SplitLines(t)[0]] + SplitLines(t)[1..]
  {
    if w != [] {
      assert (w + t)[0] == w[0];
      assert (w + t)[1..] == w[1..] + t;
      SplitNoNewline(w[1..], t);
      assert [w[0]] + (w[1..] + SplitLines(t)[0]) == w + SplitLines(t)[0];
    } else {
      var r := SplitLines(t);
      assert w + t == t;
      assert w + r[0] == r[0];
      assert [r[0]] + r[1..] == r;
    }
  }

  lemma {:induction false} SplitJoin(ls: seq<string>)
    requires |ls| >= 1
    requires forall k :: 0 <= k < |ls| ==> '\n' !in ls[k]
    ensures SplitLines(JoinLines(ls)) == ls
  {
    if |ls| == 1 {
      SplitNoNewline(ls[0], "");
      assert ls[0] + "" == ls[0];
    } else {
      var t := "\n" + JoinLines(ls[1..]);
      SplitJoin(ls[1..]);
      SplitNoNewline(ls[0], t);
      assert ls[0] + "\n" + JoinLines(ls[1..]) == ls[0] + t;
      assert SplitLines(t) == [""] + ls[1..];
      assert ls[0] + "" == ls[0];
    }
  }

  /** The substring test `pat in s`. */
  predicate Contains(s: string, pat: string) {
    pat <= s || (s != [] && Contains(s[1..], pat))
  }

  /** `pat` occurs in `s` starting at index `i`. */
  predicate OccursAt(s: string, pat: string, i: nat) {
    i + |pat| <= |s| && s[i..i + |pat|] == pat
  }

  lemma {:induction false} ContainsMeansOccurrence(s: string, pat: string)
    ensures Contains(s, pat) <==> exists i :: OccursAt(s, pat, i)
  {
    if pat <= s {
      assert OccursAt(s, pat, 0);
    } else if s == [] {
    } else {
      ContainsMeansOccurrence(s[1..], pat);
      if Contains(s[1..], pat) {
        var i: nat :| OccursAt(s[1..], pat, i);
        assert s[1..][i..i + |pat|] == s[i + 1..i + 1 + |pat|];
        assert OccursAt(s, pat, i + 1);
      }
      if i: nat :| OccursAt(s, pat, i) {
        assert i != 0;
        assert s[1..][i - 1..i - 1 + |pat|] == s[i..i + |pat|];
        assert OccursAt(s[1..], pat, i - 1);
      }
    }
  }

  /** `s.endswith(suffix)`. */
  predicate EndsWith(s: string, suffix: string) {
    |suffix| <= |s| && s[|s| - |suffix|..] == suffix
  }

  /** The end of the longest run of characters satisfying `p` from `i`. */
  function RunEnd(s: string, i: nat, p: char -> bool): (j: nat)
    requires i <= |s|
    ensures i <= j <= |s|
    ensures forall k :: i <= k < j ==> p(s[k])
    ensures j == |s| || !p(s[j])
    decreases |s| - i
  {
    if i < |s| && p(s[i]) then RunEnd(s, i + 1, p) else i
  }

  /** A run that ends where `p` first fails is the one `RunEnd` finds. */
  lemma {:induction false} RunEndUnique(s: string, i: nat, j: nat, p: char -> bool)
    requires i <= j <= |s|
    requires forall k :: i <= k < j ==> p(s[k])
    requires j == |s| || !p(s[j])
    ensures RunEnd(s, i, p) == j
    decreases j - i
  {
    if i < j {
      RunEndUnique(s, i + 1, j, p);
    }
  }
}
