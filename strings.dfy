/** Python string operations the service relies on, over `seq<char>`.
    Case mapping covers the ASCII letters only (Python 2 `str` semantics). */
module Strings {

  /** `sep.join(parts)` */
  function Join(sep: string, parts: seq<string>): string
    decreases |parts|
  {
    if |parts| == 0 then ""
    else if |parts| == 1 then parts[0]
    else parts[0] + sep + Join(sep, parts[1..])
  }

  /** `s.split(c)` for a one-character separator: always at least one part,
      empty parts kept. */
  function Split(s: string, c: char): (parts: seq<string>)
    ensures |parts| >= 1
    decreases |s|
  {
    if |s| == 0 then [""]
    else
      var rest := Split(s[1..], c);
      if s[0] == c then [""] + rest else [[s[0]] + rest[0]] + rest[1..]
  }

  /** No part of a split contains the separator. */
  lemma {:induction false} SplitPartsLackSeparator(s: string, c: char)
    ensures forall i :: 0 <= i < |Split(s, c)| ==> c !in Split(s, c)[i]
    decreases |s|
  {
    if |s| > 0 {
      SplitPartsLackSeparator(s[1..], c);
    }
  }

  /** Joining the parts with the separator gives the string back. */
  lemma {:induction false} JoinSplit(s: string, c: char)
    ensures Join([c], Split(s, c)) == s
    decreases |s|
  {
    if |s| > 0 {
      var rest := Split(s[1..], c);
      JoinSplit(s[1..], c);
      assert Join([c], rest) == s[1..];
      if s[0] == c {
        assert Split(s, c) == [""] + rest;
        assert s == [s[0]] + s[1..];
      } else {
        var parts := Split(s, c);
        assert parts == [[s[0]] + rest[0]] + rest[1..];
        if |rest| == 1 {
          assert Join([c], parts) == [s[0]] + rest[0];
        } else {
          assert parts[1..] == rest[1..];
          assert Join([c], parts) == [s[0]] + rest[0] + [c] + Join([c], rest[1..]);
        }
        assert s == [s[0]] + s[1..];
      }
    }
  }

  /** A string without the separator splits into itself alone. */
  lemma {:induction false} SplitWithoutSeparator(s: string, c: char)
    requires c !in s
    ensures Split(s, c) == [s]
    decreases |s|
  {
    if |s| > 0 {
      assert c !in s[1..];
      SplitWithoutSeparator(s[1..], c);
      assert s[0] != c;
      assert s == [s[0]] + s[1..];
    }
  }

  /** The last element of `s.split(c)`, as in `s.split(c)[-1]`. */
  function LastSegment(s: string, c: char): string {
    var parts := Split(s, c);
    parts[|parts| - 1]
  }

  /** Index of the first occurrence of `c` in `s`. */
  function FirstIndex(s: string, c: char): (i: nat)
    requires c in s
    ensures i < |s| && s[i] == c && c !in s[..i]
  {
    if s[0] == c then 0
    else
      var j := FirstIndex(s[1..], c);
      assert s[1..][..j] == s[1..j + 1];
      1 + j
  }

  /** `s.split(c, 1)` for a string that contains `c`: the part before the
      first `c` and everything after it. */
  function SplitFirst(s: string, c: char): (ht: (string, string))
    requires c in s
    ensures s == ht.0 + [c] + ht.1 && c !in ht.0
    ensures |ht.1| < |s|
  {
    var i := FirstIndex(s, c);
    assert s == s[..i] + [c] + s[i + 1..];
    (s[..i], s[i + 1..])
  }

  /** `s.rstrip(c)` for one character. */
  function RStrip(s: string, c: char): (r: string)
    decreases |s|
  {
    if |s| > 0 && s[|s| - 1] == c then RStrip(s[..|s| - 1], c) else s
  }

  /** `rstrip` keeps a prefix, removes only copies of `c`, and leaves no
      trailing `c`. */
  lemma {:induction false} RStripProperties(s: string, c: char)
    ensures |RStrip(s, c)| <= |s| && RStrip(s, c) == s[..|RStrip(s, c)|]
    ensures forall k :: |RStrip(s, c)| <= k < |s| ==> s[k] == c
    ensures |RStrip(s, c)| == 0 || RStrip(s, c)[|RStrip(s, c)| - 1] != c
    decreases |s|
  {
    if |s| > 0 && s[|s| - 1] == c {
      RStripProperties(s[..|s| - 1], c);
    }
  }

  predicate StartsWith(s: string, prefix: string) {
    |prefix| <= |s| && s[..|prefix|] == prefix
  }

  /** Python's `s[n:]`, empty when `n` is past the end. */
  function SliceFrom(s: string, n: nat): string {
    if n <= |s| then s[n..] else ""
  }

  /** Python's substring test `t in s`. */
  predicate Contains(s: string, t: string)
    decreases |s|
  {
    StartsWith(s, t) || (s != [] && Contains(s[1..], t))
  }

  /** `t` occurs in `s` starting at index `i`. */
  predicate OccursAt(s: string, t: string, i: int) {
    0 <= i && i + |t| <= |s| && s[i..i + |t|] == t
  }

  /** `t in s` holds exactly when `t` occurs at some position of `s`. */
  lemma {:induction false} ContainsAt(s: string, t: string)
    ensures Contains(s, t) <==> exists i :: OccursAt(s, t, i)
    decreases |s|
  {
    if StartsWith(s, t) {
      assert OccursAt(s, t, 0);
    } else if s != [] {
      ContainsAt(s[1..], t);
      if Contains(s[1..], t) {
        var j :| OccursAt(s[1..], t, j);
        assert s[j + 1..j + 1 + |t|] == s[1..][j..j + |t|];
        assert OccursAt(s, t, j + 1);
      }
      if exists i :: OccursAt(s, t, i) {
        var i :| OccursAt(s, t, i);
        assert i != 0;
        assert s[1..][i - 1..i - 1 + |t|] == s[i..i + |t|];
        assert OccursAt(s[1..], t, i - 1);
      }
    } else {
      assert forall i :: !OccursAt(s, t, i);
    }
  }

  predicate IsUpperAscii(ch: char) { 'A' <= ch <= 'Z' }
  predicate IsLowerAscii(ch: char) { 'a' <= ch <= 'z' }
  predicate IsLetterAscii(ch: char) { IsUpperAscii(ch) || IsLowerAscii(ch) }

  function LowerChar(ch: char): char {
    if IsUpperAscii(ch) then (ch as int + 32) as char else ch
  }

  function UpperChar(ch: char): char {
    if IsLowerAscii(ch) then (ch as int - 32) as char else ch
  }

  /** `s.lower()` */
  function Lower(s: string): (r: string)
    ensures |r| == |s|
    ensures forall k :: 0 <= k < |s| ==> r[k] == LowerChar(s[k])
  {
    if |s| == 0 then "" else [LowerChar(s[0])] + Lower(s[1..])
  }

  /** `s.upper()` */
  function Upper(s: string): (r: string)
    ensures |r| == |s|
    ensures forall k :: 0 <= k < |s| ==> r[k] == UpperChar(s[k])
  {
    if |s| == 0 then "" else [UpperChar(s[0])] + Upper(s[1..])
  }

  /** `s.title()`: a letter is upper-cased when the character before it is
      not a letter and lower-cased otherwise; other characters stay. */
  function Title(s: string): string {
    TitleAfter(s, false)
  }

  function TitleAfter(s: string, previousCased: bool): (r: string)
    ensures |r| == |s|
    ensures forall k :: 0 <= k < |s| ==> LowerChar(r[k]) == LowerChar(s[k])
  {
    if |s| == 0 then ""
    else
      var ch := s[0];
      var out := if !IsLetterAscii(ch) then ch
                 else if previousCased then LowerChar(ch) else UpperChar(ch);
      [out] + TitleAfter(s[1..], IsLetterAscii(ch))
  }

  /** `s.lower().title() == word.title()` holds exactly when `s` equals the
      lower-case word `w` ignoring case, for the words 'true' and 'false'. */
  lemma TitleOfLowerIsWord(s: string, w: string)
    requires w == "true" || w == "false"
    ensures Title(Lower(s)) == Title(w) <==> Lower(s) == w
  {
    var t := Title(Lower(s));
    if t == Title(w) {
      assert |Lower(s)| == |w|;
      forall k | 0 <= k < |w| ensures Lower(s)[k] == w[k] {
        assert LowerChar(t[k]) == LowerChar(Lower(s)[k]);
        assert LowerChar(Title(w)[k]) == LowerChar(w[k]);
        assert LowerChar(Lower(s)[k]) == Lower(s)[k];
      }
    }
  }

  /** `'true'.title()` and `'false'.title()`. */
  lemma TitleOfWords()
    ensures Title("true") == "True" && Title("false") == "False"
  {
    TitleAfterLowerCase("rue");
    TitleAfterLowerCase("alse");
    assert "true" == ['t'] + "rue" && "True" == ['T'] + "rue";
    assert "false" == ['f'] + "alse" && "False" == ['F'] + "alse";
  }

  /** After a letter, a run of lower-case letters stays as it is. */
  lemma {:induction false} TitleAfterLowerCase(s: string)
    requires forall k :: 0 <= k < |s| ==> IsLowerAscii(s[k])
    ensures TitleAfter(s, true) == s
    decreases |s|
  {
    if |s| > 0 {
      TitleAfterLowerCase(s[1..]);
      assert s == [s[0]] + s[1..];
    }
  }

  /** Unicode whitespace as Python 2.7's `unicode.isspace` and
      `unicode.strip` see it. */
  predicate IsSpace(ch: char) {
    var c := ch as int;
    (9 <= c <= 13) || (28 <= c <= 32) || c == 0x85 || c == 0xa0 || c == 0x1680 || c == 0x180e
    || (0x2000 <= c <= 0x200a) || c == 0x2028 || c == 0x2029 || c == 0x202f || c == 0x205f || c == 0x3000
  }

  /** `s.lstrip()` */
  function LStrip(s: string): string
    decreases |s|
  {
    if |s| > 0 && IsSpace(s[0]) then LStrip(s[1..]) else s
  }

  /** `s.rstrip()` */
  function RStripSpace(s: string): string
    decreases |s|
  {
    if |s| > 0 && IsSpace(s[|s| - 1]) then RStripSpace(s[..|s| - 1]) else s
  }

  /** `s.strip()` */
  function Strip(s: string): string {
    RStripSpace(LStrip(s))
  }

  /** `s[i..j]` is what is left of `s` once the whitespace before `i` and
      from `j` on is cut away, and it neither starts nor ends with
      whitespace. */
  predicate Trims(s: string, i: int, j: int) {
    && 0 <= i <= j <= |s|
    && (forall k :: 0 <= k < i ==> IsSpace(s[k]))
    && (forall k :: j <= k < |s| ==> IsSpace(s[k]))
    && (i < j ==> !IsSpace(s[i]) && !IsSpace(s[j - 1]))
  }

  lemma {:induction false} LStripProperties(s: string)
    ensures |LStrip(s)| <= |s| && LStrip(s) == s[|s| - |LStrip(s)|..]
    ensures forall k :: 0 <= k < |s| - |LStrip(s)| ==> IsSpace(s[k])
    ensures LStrip(s) != "" ==> !IsSpace(LStrip(s)[0])
    decreases |s|
  {
    if |s| > 0 && IsSpace(s[0]) {
      LStripProperties(s[1..]);
    }
  }

  lemma {:induction false} RStripSpaceProperties(s: string)
    ensures |RStripSpace(s)| <= |s| && RStripSpace(s) == s[..|RStripSpace(s)|]
    ensures forall k :: |RStripSpace(s)| <= k < |s| ==> IsSpace(s[k])
    ensures RStripSpace(s) != "" ==> !IsSpace(RStripSpace(s)[|RStripSpace(s)| - 1])
    decreases |s|
  {
    if |s| > 0 && IsSpace(s[|s| - 1]) {
      RStripSpaceProperties(s[..|s| - 1]);
    }
  }

  /** `strip` keeps a slice of `s` whose cut-away ends are whitespace and
      which neither starts nor ends with whitespace; it is empty exactly
      when `s` is all whitespace. */
  lemma StripProperties(s: string)
    ensures exists i, j :: Trims(s, i, j) && Strip(s) == s[i..j]
    ensures Strip(s) == "" <==> forall k :: 0 <= k < |s| ==> IsSpace(s[k])
  {
    var l := LStrip(s);
    LStripProperties(s);
    RStripSpaceProperties(l);
    var i := |s| - |l|;
    var j := i + |Strip(s)|;
    assert Strip(s) == s[i..j];
    assert forall k :: j <= k < |s| ==> s[k] == l[k - i];
    if Strip(s) != "" {
      assert s[i] == l[0];
      assert s[j - 1] == Strip(s)[|Strip(s)| - 1];
    }
    assert Trims(s, i, j);
  }

  /** Tornado's `_remove_control_chars_regex` matches these. */
  predicate IsRemovedControl(ch: char) {
    var c := ch as int;
    (0 <= c <= 8) || (14 <= c <= 31)
  }

  /** Each control character Tornado removes from an argument becomes a
      space; every other character stays. */
  function ReplaceControls(s: string): string {
    seq(|s|, k requires 0 <= k < |s| => if IsRemovedControl(s[k]) then ' ' else s[k])
  }
}
