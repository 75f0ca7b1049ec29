/** The few Python `str` operations the agent code relies on: `isspace`, `strip`,
    `strip(chars)`, `split(sep)` and `"".join`, written out so that their edge cases
    (an empty string, adjacent separators) are those of Python. */
module PyStr {

  /** Python's `str.isspace()` on one character: the characters `str.strip()` removes by default. */
  predicate IsSpace(c: char) {
    || ('\t' <= c <= '\r')               // \t \n \x0b \x0c \r
    || ('\U{1C}' <= c <= '\U{1F}')       // file, group, record and unit separators
    || c == ' ' || c == '\U{85}' || c == '\U{A0}' || c == '\U{1680}'
    || ('\U{2000}' <= c <= '\U{200A}')
    || c == '\U{2028}' || c == '\U{2029}' || c == '\U{202F}' || c == '\U{205F}' || c == '\U{3000}'
  }

  predicate IsQuote(c: char) {
    c == '\''
  }

  /** The characters a strip removes: `str.strip()` removes white space, `str.strip("'")`
      removes single quotes. */
  datatype Chars = Whitespace | Quote

  predicate Drops(d: Chars, c: char) {
    match d
    case Whitespace => IsSpace(c)
    case Quote => IsQuote(c)
  }

  /** Removes the longest prefix made of characters `d` drops (`str.lstrip`). */
  function StripLeft(s: string, d: Chars): (r: string)
    ensures |r| <= |s| && r == s[|s| - |r|..]
    ensures forall i :: 0 <= i < |s| - |r| ==> Drops(d, s[i])
    ensures r == [] || !Drops(d, r[0])
    decreases |s|
  {
    if |s| > 0 && Drops(d, s[0]) then StripLeft(s[1..], d) else s
  }

  /** Removes the longest suffix made of characters `d` drops (`str.rstrip`). */
  function StripRight(s: string, d: Chars): (r: string)
    ensures |r| <= |s| && r == s[..|r|]
    ensures forall i :: |r| <= i < |s| ==> Drops(d, s[i])
    ensures r == [] || !Drops(d, r[|r| - 1])
    decreases |s|
  {
    if |s| > 0 && Drops(d, s[|s| - 1]) then StripRight(s[..|s| - 1], d) else s
  }

  /** `r` is what is left of `s` once only characters `d` drops are cut from its two ends. */
  predicate IsTrimOf(s: string, r: string, d: Chars) {
    exists i, j :: 0 <= i <= j <= |s| && r == s[i..j]
      && (forall k :: 0 <= k < i ==> Drops(d, s[k]))
      && (forall k :: j <= k < |s| ==> Drops(d, s[k]))
  }

  /** `str.strip()` when `d` is `Whitespace`, `str.strip("'")` when it is `Quote`:
      the result neither starts nor ends with a dropped character, and a string that
      already has that shape is left alone; `StripIsTrim` adds that it is the middle of
      `s` left by cutting dropped characters from both ends. */
  function Strip(s: string, d: Chars): (r: string)
    ensures |r| <= |s|
    ensures forall c :: c in r ==> c in s
    ensures r == [] || (!Drops(d, r[0]) && !Drops(d, r[|r| - 1]))
    ensures (s == [] || (!Drops(d, s[0]) && !Drops(d, s[|s| - 1]))) ==> r == s
  {
    StripRight(StripLeft(s, d), d)
  }

  /** What `Strip` returns is the middle of `s`: only dropped characters are cut, and only
      from the two ends. */
  lemma StripIsTrim(s: string, d: Chars)
    ensures IsTrimOf(s, Strip(s, d), d)
  {
    var l := StripLeft(s, d);
    var r := StripRight(l, d);
    var i := |s| - |l|;
    var j := i + |r|;
    assert r == s[i..j];
    forall k | j <= k < |s| ensures Drops(d, s[k]) {
      assert s[k] == l[k - i];
    }
  }

  /** A single dropped character in front of an already stripped string is all `Strip` removes. */
  lemma StripOneLeading(c: char, t: string, d: Chars)
    requires Drops(d, c) && t != [] && !Drops(d, t[0]) && !Drops(d, t[|t| - 1])
    ensures Strip([c] + t, d) == t
  {
    assert ([c] + t)[1..] == t;
    assert StripLeft([c] + t, d) == StripLeft(t, d) == t;
  }

  /** `Strip` leaves a string alone whose two ends it does not drop. */
  lemma StripUnchanged(s: string, d: Chars)
    requires s != [] && !Drops(d, s[0]) && !Drops(d, s[|s| - 1])
    ensures Strip(s, d) == s
  {
  }

  /** A dropped character on each side of an already stripped string is all `Strip` removes. */
  lemma StripEnclosed(c: char, t: string, d: Chars)
    requires Drops(d, c) && t != [] && !Drops(d, t[0]) && !Drops(d, t[|t| - 1])
    ensures Strip([c] + t + [c], d) == t
  {
    var s := [c] + t + [c];
    assert s[1..] == t + [c];
    assert StripLeft(s, d) == StripLeft(t + [c], d) == t + [c];
    assert (t + [c])[..|t|] == t;
    assert StripRight(t + [c], d) == StripRight(t, d) == t;
  }

  /** `sep.join(pieces)` for a one-character separator. */
  function Join(pieces: seq<string>, sep: char): string
  {
    if |pieces| == 0 then ""
    else if |pieces| == 1 then pieces[0]
    else pieces[0] + [sep] + Join(pieces[1..], sep)
  }

  /** `s.split(sep)`: never empty (`"".split(",") == [""]`) and no piece holds the
      separator; `JoinSplit` and `SplitCount` give the rest of its meaning. */
  function Split(s: string, sep: char): (r: seq<string>)
    ensures |r| >= 1
    ensures forall k :: 0 <= k < |r| ==> sep !in r[k]
    decreases |s|
  {
    if s == [] then [""]
    else
      var rest := Split(s[1..], sep);
      if s[0] == sep then [""] + rest else [[s[0]] + rest[0]] + rest[1..]
  }

  /** Joining the pieces of a split with the same separator gives the string back. */
  lemma {:induction false} JoinSplit(s: string, sep: char)
    ensures Join(Split(s, sep), sep) == s
    decreases |s|
  {
    if s != [] {
      var rest := Split(s[1..], sep);
      JoinSplit(s[1..], sep);
      assert s == [s[0]] + s[1..];
      if s[0] == sep {
        assert Split(s, sep) == [""] + rest;
        assert ([""] + rest)[1..] == rest;
      } else {
        var r := [[s[0]] + rest[0]] + rest[1..];
        assert Split(s, sep) == r;
        if |rest| == 1 {
          assert Join(r, sep) == [s[0]] + rest[0];
        } else {
          assert r[1..] == rest[1..];
          assert Join(rest, sep) == rest[0] + [sep] + Join(rest[1..], sep);
        }
      }
    }
  }

  /** There is one more piece than there are separators. */
  lemma {:induction false} SplitCount(s: string, sep: char)
    ensures |Split(s, sep)| == multiset(s)[sep] + 1
    decreases |s|
  {
    if s != [] {
      SplitCount(s[1..], sep);
      assert s == [s[0]] + s[1..];
      assert multiset(s) == multiset{s[0]} + multiset(s[1..]);
    }
  }

  /** Splitting a joined list of separator-free pieces gives the pieces back. */
  lemma {:induction false} SplitJoin(pieces: seq<string>, sep: char)
    requires |pieces| >= 1
    requires forall k :: 0 <= k < |pieces| ==> sep !in pieces[k]
    ensures Split(Join(pieces, sep), sep) == pieces
  {
    if |pieces| == 1 {
      SplitWithoutSeparator(pieces[0], sep);
    } else {
      SplitJoin(pieces[1..], sep);
      SplitAfterPiece(pieces[0], Join(pieces[1..], sep), sep);
      assert pieces == [pieces[0]] + pieces[1..];
    }
  }

  lemma {:induction false} SplitWithoutSeparator(p: string, sep: char)
    requires sep !in p
    ensures Split(p, sep) == [p]
    decreases |p|
  {
    if p != [] {
      SplitWithoutSeparator(p[1..], sep);
      assert p == [p[0]] + p[1..];
    }
  }

  lemma {:induction false} SplitAfterPiece(p: string, t: string, sep: char)
    requires sep !in p
    ensures Split(p + [sep] + t, sep) == [p] + Split(t, sep)
    decreases |p|
  {
    var s := p + [sep] + t;
    if p == [] {
      assert s == [sep] + t;
      assert s[1..] == t;
    } else {
      assert s[0] == p[0] && p[0] != sep;
      assert s[1..] == p[1..] + [sep] + t;
      SplitAfterPiece(p[1..], t, sep);
      var rest := Split(s[1..], sep);
      assert rest == [p[1..]] + Split(t, sep);
      assert Split(s, sep) == [[p[0]] + rest[0]] + rest[1..];
      assert [p[0]] + p[1..] == p;
    }
  }

  /** `"".join(texts)`. */
  function Concat(texts: seq<string>): string
  {
    if texts == [] then "" else texts[0] + Concat(texts[1..])
  }

  lemma {:induction false} ConcatSnoc(texts: seq<string>, t: string)
    ensures Concat(texts + [t]) == Concat(texts) + t
  {
    if texts != [] {
      assert (texts + [t])[1..] == texts[1..] + [t];
      ConcatSnoc(texts[1..], t);
    }
  }
}
