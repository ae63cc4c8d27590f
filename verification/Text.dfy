/** String functions of the Go standard library that the code relies on. */
module Text {
  // strings.Split for a one-character separator: always at least one part.
  function Split(s: string, sep: char): (parts: seq<string>)
    ensures |parts| > 0
  {
    if s == "" then [""]
    else
      var rest := Split(s[1..], sep);
      if s[0] == sep then [""] + rest else [[s[0]] + rest[0]] + rest[1..]
  }

  // strings.Join for a one-character separator.
  function Join(parts: seq<string>, sep: char): string {
    if |parts| == 0 then ""
    else if |parts| == 1 then parts[0]
    else parts[0] + [sep] + Join(parts[1..], sep)
  }

  predicate Free(s: string, sep: char) { sep !in s }

  predicate AllFree(parts: seq<string>, sep: char) {
    forall i :: 0 <= i < |parts| ==> Free(parts[i], sep)
  }

  lemma {:induction false} SplitFree(s: string, sep: char)
    ensures AllFree(Split(s, sep), sep)
  {
    if s != "" {
      SplitFree(s[1..], sep);
    }
  }

  lemma {:induction false} SplitHead(p: string, rest: string, sep: char)
    requires Free(p, sep)
    ensures Split(p + [sep] + rest, sep) == [p] + Split(rest, sep)
  {
    var s := p + [sep] + rest;
    if p == "" {
      assert s[1..] == rest;
    } else {
      assert s[1..] == p[1..] + [sep] + rest;
      SplitHead(p[1..], rest, sep);
      assert [p[0]] + p[1..] == p;
    }
  }

  lemma {:induction false} SplitWhole(p: string, sep: char)
    requires Free(p, sep)
    ensures Split(p, sep) == [p]
  {
    if p != "" {
      SplitWhole(p[1..], sep);
      assert [p[0]] + p[1..] == p;
    }
  }

  /** Splitting undoes joining, for any non-empty list of parts without the separator. */
  lemma {:induction false} SplitJoin(parts: seq<string>, sep: char)
    requires |parts| > 0 && AllFree(parts, sep)
    ensures Split(Join(parts, sep), sep) == parts
  {
    if |parts| == 1 {
      SplitWhole(parts[0], sep);
    } else {
      SplitHead(parts[0], Join(parts[1..], sep), sep);
      SplitJoin(parts[1..], sep);
      assert [parts[0]] + parts[1..] == parts;
    }
  }

  /** Joining undoes splitting, for every string. */
  lemma {:induction false} JoinSplit(s: string, sep: char)
    ensures Join(Split(s, sep), sep) == s
  {
    if s != "" {
      JoinSplit(s[1..], sep);
      var rest := Split(s[1..], sep);
      if s[0] == sep {
        assert ([""] + rest)[1..] == rest;
      } else {
        assert ([[s[0]] + rest[0]] + rest[1..])[1..] == rest[1..];
      }
    }
  }

  // The lower case of a character, exact wherever the result is an ASCII letter.
  function LowerChar(c: char): char {
    if 'A' <= c <= 'Z' then ((c as int) + 32) as char
    else if c == '\U{212A}' then 'k'
    else if c == '\U{0130}' then 'i'
    else c
  }

  function ToLower(s: string): string {
    seq(|s|, i requires 0 <= i < |s| => LowerChar(s[i]))
  }

  // The characters whose lower case is this small ASCII letter.
  predicate LowersTo(c: char, small: char) {
    || c == small
    || (c as int + 32 == small as int)
    || (small == 'k' && c == '\U{212A}')
    || (small == 'i' && c == '\U{0130}')
  }

  predicate Small(s: string) { forall i :: 0 <= i < |s| ==> 'a' <= s[i] <= 'z' }

  /** The lower case of a string is a word of small letters exactly when each character is the letter
    * at its place or a capital form of it. */
  lemma LowerExact(s: string, word: string)
    requires Small(word)
    ensures ToLower(s) == word <==> |s| == |word| && forall i :: 0 <= i < |s| ==> LowersTo(s[i], word[i])
  {
    if |s| == |word| {
      assert forall i :: 0 <= i < |s| ==> (ToLower(s)[i] == word[i] <==> LowersTo(s[i], word[i]));
    }
  }

  // Unicode simple folding, exact for comparison with ASCII letters.
  function FoldChar(c: char): char {
    if 'A' <= c <= 'Z' then ((c as int) + 32) as char
    else if c == '\U{212A}' then 'k'
    else if c == '\U{017F}' then 's'
    else c
  }

  // strings.EqualFold, for an ASCII string on the right.
  predicate EqualFold(s: string, ascii: string) {
    |s| == |ascii| && forall i :: 0 <= i < |s| ==> FoldChar(s[i]) == FoldChar(ascii[i])
  }

  // The two letters are the same but for their case. Two characters beyond ASCII count as well.
  predicate SameLetter(c: char, ascii: char) {
    || c == ascii
    || ('a' <= c <= 'z' && c as int == ascii as int + 32)
    || ('A' <= c <= 'Z' && c as int + 32 == ascii as int)
    || ((ascii == 'k' || ascii == 'K') && c == '\U{212A}')
    || ((ascii == 's' || ascii == 'S') && c == '\U{017F}')
  }

  // The strings have the same letters, in whatever case.
  predicate SameWord(s: string, word: string) {
    |s| == |word| && forall i :: 0 <= i < |s| ==> SameLetter(s[i], word[i])
  }

  predicate Ascii(s: string) { forall i :: 0 <= i < |s| ==> s[i] as int < 128 }

  /** Two strings are equal under folding exactly when they have the same letters but for their case. */
  lemma FoldExact(s: string, ascii: string)
    requires Ascii(ascii)
    ensures EqualFold(s, ascii) <==> SameWord(s, ascii)
  {
    if |s| == |ascii| {
      assert forall i :: 0 <= i < |s| ==> (FoldChar(s[i]) == FoldChar(ascii[i]) <==> SameLetter(s[i], ascii[i]));
    }
  }

  // strings.Trim for one character: takes it off both ends.
  function Trim(s: string, c: char): string
    decreases |s|
  {
    if s == "" then ""
    else if s[0] == c then Trim(s[1..], c)
    else if s[|s| - 1] == c then Trim(s[..|s| - 1], c)
    else s
  }

  // t is what is left of s when the character is taken off both ends.
  predicate Trimmed(s: string, c: char, t: string) {
    && (t == "" || (t[0] != c && t[|t| - 1] != c))
    && exists i, j :: 0 <= i <= j <= |s| && Middle(s, c, i, j) && t == s[i..j]
  }

  // Only the character stands before i and from j on.
  predicate Middle(s: string, c: char, i: nat, j: nat)
    requires i <= j <= |s|
  {
    (forall k :: 0 <= k < i ==> s[k] == c) && (forall k :: j <= k < |s| ==> s[k] == c)
  }

  /** Trimming takes the character off both ends, all of it and nothing else, and only one string is
    * left of any by that description. */
  lemma {:induction false} TrimExact(s: string, c: char, t: string)
    ensures t == Trim(s, c) <==> Trimmed(s, c, t)
  {
    TrimMiddle(s, c);
    if Trimmed(s, c, t) {
      TrimmedOnce(s, c, t, Trim(s, c));
    }
  }

  lemma {:induction false} TrimMiddle(s: string, c: char)
    ensures Trimmed(s, c, Trim(s, c))
    decreases |s|
  {
    if s == "" {
      assert Middle(s, c, 0, 0) && s[0..0] == "";
    } else if s[0] == c {
      TrimMiddle(s[1..], c);
      MoreInFront(s, c, Trim(s[1..], c));
    } else if s[|s| - 1] == c {
      TrimMiddle(s[..|s| - 1], c);
      MoreBehind(s, c, Trim(s[..|s| - 1], c));
    } else {
      assert Middle(s, c, 0, |s|) && s[0..|s|] == s;
    }
  }

  lemma MoreInFront(s: string, c: char, t: string)
    requires s != "" && s[0] == c && Trimmed(s[1..], c, t)
    ensures Trimmed(s, c, t)
  {
    var i, j :| 0 <= i <= j <= |s[1..]| && Middle(s[1..], c, i, j) && t == s[1..][i..j];
    assert s[1..][i..j] == s[i + 1..j + 1];
    forall k | 0 <= k < i + 1 || j + 1 <= k < |s|
      ensures s[k] == c
    {
      if k > 0 { assert s[k] == s[1..][k - 1]; }
    }
    assert Middle(s, c, i + 1, j + 1);
  }

  lemma MoreBehind(s: string, c: char, t: string)
    requires s != "" && s[|s| - 1] == c && Trimmed(s[..|s| - 1], c, t)
    ensures Trimmed(s, c, t)
  {
    var n := |s| - 1;
    var i, j :| 0 <= i <= j <= |s[..n]| && Middle(s[..n], c, i, j) && t == s[..n][i..j];
    assert s[..n][i..j] == s[i..j];
    forall k | 0 <= k < i || j <= k < |s|
      ensures s[k] == c
    {
      if k < n { assert s[k] == s[..n][k]; }
    }
    assert Middle(s, c, i, j);
  }

  lemma TrimmedOnce(s: string, c: char, t: string, t': string)
    requires Trimmed(s, c, t) && Trimmed(s, c, t')
    ensures t == t'
  {
    var i, j :| 0 <= i <= j <= |s| && Middle(s, c, i, j) && t == s[i..j];
    var k, l :| 0 <= k <= l <= |s| && Middle(s, c, k, l) && t' == s[k..l];
    Inside(s, c, i, j, k, l);
    Inside(s, c, k, l, i, j);
    hide Middle;
  }

  // A part with other characters at its ends lies within every middle part.
  lemma Inside(s: string, c: char, i: nat, j: nat, k: nat, l: nat)
    requires i <= j <= |s| && k <= l <= |s| && Middle(s, c, k, l)
    ensures i < j && s[i] != c && s[j - 1] != c ==> k <= i && j <= l
  {
  }
}
