/** The in-band office selection of the user's message: the regular expression
    `Considera las oficinas \[(.*?)\]`, searched for (leftmost match, lazy capture that
    cannot cross a newline), removed wherever it occurs, and the captured text turned
    into a list of office names. */
module OfficeSelection {
  import opened Wrappers
  import opened PyStr

  /** The literal part of the pattern up to and including the opening bracket. */
  const PREFIX := "Considera las oficinas ["

  /** A match found at `start`; `capture` is group 1, the text between the brackets. */
  datatype Match = Match(start: nat, capture: string)

  /** One past the closing bracket of the match. */
  function End(m: Match): nat {
    m.start + |PREFIX| + |m.capture| + 1
  }

  /** The pattern matches at `i` with group 1 equal to `cap`. `.` does not match a newline,
      and the lazy `.*?` stops at the first `]`, so the capture holds neither. */
  predicate IsMatchAt(s: string, i: nat, cap: string) {
    && i + |PREFIX| + |cap| < |s|
    && s[i..i + |PREFIX|] == PREFIX
    && s[i + |PREFIX|..i + |PREFIX| + |cap|] == cap
    && s[i + |PREFIX| + |cap|] == ']'
    && ']' !in cap && '\n' !in cap
  }

  /** `k` holds a `]` and no `]` or newline lies between `j` and `k`. */
  predicate ClosesAt(s: string, j: nat, k: nat) {
    j <= k < |s| && s[k] == ']' && ']' !in s[j..k] && '\n' !in s[j..k]
  }

  /** Scans from `j` for the bracket that closes the lazy group. */
  function CloseFrom(s: string, j: nat): (r: Option<nat>)
    requires j <= |s|
    ensures r.Some? ==> ClosesAt(s, j, r.value)
    ensures forall k: nat :: ClosesAt(s, j, k) ==> r == Some(k)
    decreases |s| - j
  {
    if j == |s| then None
    else if s[j] == ']' then Some(j)
    else if s[j] == '\n' then None
    else
      var r := CloseFrom(s, j + 1);
      assert forall k: nat :: ClosesAt(s, j, k) ==> ClosesAt(s, j + 1, k) by {
        forall k: nat | ClosesAt(s, j, k) ensures ClosesAt(s, j + 1, k) {
          assert k != j;
          assert s[j..k] == [s[j]] + s[j + 1..k];
        }
      }
      if r.Some? then
        assert s[j..r.value] == [s[j]] + s[j + 1..r.value];
        r
      else r
  }

  /** The group captured by a match at `i`, if the pattern matches there; it is unique. */
  function MatchAt(s: string, i: nat): (r: Option<string>)
    ensures r.Some? ==> IsMatchAt(s, i, r.value)
    ensures forall cap :: IsMatchAt(s, i, cap) ==> r == Some(cap)
  {
    var open := i + |PREFIX|;
    if open <= |s| && s[i..open] == PREFIX then
      match CloseFrom(s, open)
      case Some(k) => MatchFromClose(s, i, k); Some(s[open..k])
      case None => NoCloseNoMatch(s, i); None
    else
      None
  }

  lemma ClosesUnique(s: string, j: nat, k1: nat, k2: nat)
    requires ClosesAt(s, j, k1) && ClosesAt(s, j, k2)
    ensures k1 == k2
  {
  }

  lemma MatchCloses(s: string, i: nat, cap: string)
    requires IsMatchAt(s, i, cap)
    ensures ClosesAt(s, i + |PREFIX|, i + |PREFIX| + |cap|)
  {
  }

  lemma MatchFromClose(s: string, i: nat, k: nat)
    requires i + |PREFIX| <= |s| && s[i..i + |PREFIX|] == PREFIX
    requires ClosesAt(s, i + |PREFIX|, k)
    ensures IsMatchAt(s, i, s[i + |PREFIX|..k])
    ensures forall cap :: IsMatchAt(s, i, cap) ==> cap == s[i + |PREFIX|..k]
  {
    forall cap | IsMatchAt(s, i, cap) ensures cap == s[i + |PREFIX|..k] {
      MatchCloses(s, i, cap);
      ClosesUnique(s, i + |PREFIX|, k, i + |PREFIX| + |cap|);
    }
  }

  lemma NoCloseNoMatch(s: string, i: nat)
    requires i + |PREFIX| <= |s|
    requires CloseFrom(s, i + |PREFIX|).None?
    ensures forall cap :: !IsMatchAt(s, i, cap)
  {
    forall cap | IsMatchAt(s, i, cap) ensures false {
      MatchCloses(s, i, cap);
    }
  }

  /** `re.search(pattern, s[from..])`, positions counted in `s`: the leftmost match. */
  function Search(s: string, from: nat): (r: Option<Match>)
    ensures r.Some? ==> from <= r.value.start && IsMatchAt(s, r.value.start, r.value.capture)
    ensures r.Some? ==> forall j, cap :: from <= j < r.value.start ==> !IsMatchAt(s, j, cap)
    ensures r.None? ==> forall j, cap :: from <= j ==> !IsMatchAt(s, j, cap)
    decreases |s| - from
  {
    if from + |PREFIX| >= |s| then None
    else
      match MatchAt(s, from)
      case Some(cap) => Some(Match(from, cap))
      case None => Search(s, from + 1)
  }

  /** The capture of a match at a given position is unique. */
  lemma CaptureUnique(s: string, i: nat, c1: string, c2: string)
    requires IsMatchAt(s, i, c1) && IsMatchAt(s, i, c2)
    ensures c1 == c2
  {
    var _ := MatchAt(s, i);
  }

  /** `re.sub(pattern, "", s[from..])`: the matches found left to right, each search
      resuming after the previous match, are deleted; the text is unchanged exactly when
      there is nothing to delete. */
  function RemoveMatches(s: string, from: nat): (r: string)
    requires from <= |s|
    ensures |r| <= |s| - from
    ensures r == s[from..] <==> Search(s, from).None?
    decreases |s| - from
  {
    match Search(s, from)
    case None => s[from..]
    case Some(m) => s[from..m.start] + RemoveMatches(s, End(m))
  }

  /** The message forwarded once the selection has been read: `re.sub(...).strip()`, the
      text with its selections removed and only white space cut from its ends. */
  function CleanMessage(s: string): (r: string)
    ensures IsTrimOf(RemoveMatches(s, 0), r, Whitespace)
    ensures r == [] || (!IsSpace(r[0]) && !IsSpace(r[|r| - 1]))
  {
    StripIsTrim(RemoveMatches(s, 0), Whitespace);
    Strip(RemoveMatches(s, 0), Whitespace)
  }

  /** One office name: `piece.strip().strip("'")`, the piece with white space and then
      quotes cut from its ends. */
  function OfficeName(piece: string): (name: string)
    ensures forall c :: c in name ==> c in piece
    ensures name == [] || (!IsQuote(name[0]) && !IsQuote(name[|name| - 1]))
  {
    var unspaced := Strip(piece, Whitespace);
    var name := Strip(unspaced, Quote);
    assert forall c :: c in name ==> c in unspaced;
    name
  }

  /** The office name is the piece with white space cut from its ends, and then quotes cut
      from the ends of what is left. */
  lemma OfficeNameIsTrim(piece: string)
    ensures exists unspaced ::
      && IsTrimOf(piece, unspaced, Whitespace)
      && (unspaced == [] || (!IsSpace(unspaced[0]) && !IsSpace(unspaced[|unspaced| - 1])))
      && IsTrimOf(unspaced, OfficeName(piece), Quote)
  {
    var unspaced := Strip(piece, Whitespace);
    StripIsTrim(piece, Whitespace);
    StripIsTrim(unspaced, Quote);
  }

  /** `[office.strip().strip("'") for office in captured.split(",")]`. */
  function ParseOffices(captured: string): (offices: seq<string>)
    ensures |offices| == |Split(captured, ',')| >= 1
    ensures forall k :: 0 <= k < |offices| ==> offices[k] == OfficeName(Split(captured, ',')[k])
  {
    var pieces := Split(captured, ',');
    seq(|pieces|, k requires 0 <= k < |pieces| => OfficeName(pieces[k]))
  }

  /** No office name holds a comma, and none starts or ends with a quote. */
  lemma OfficesAreClean(captured: string)
    ensures var offices := ParseOffices(captured);
      forall k :: 0 <= k < |offices| ==>
        && ',' !in offices[k]
        && (offices[k] != [] ==> !IsQuote(offices[k][0]) && !IsQuote(offices[k][|offices[k]| - 1]))
  {
    var pieces := Split(captured, ',');
    var offices := ParseOffices(captured);
    forall k | 0 <= k < |offices|
      ensures ',' !in offices[k]
    {
      assert offices[k] == OfficeName(pieces[k]) && ',' !in pieces[k];
    }
  }
  /** A match that no earlier position can produce is the one `re.search` reports. */
  lemma {:induction false} LeftmostIsFound(s: string, from: nat, i: nat, cap: string)
    requires from <= i && IsMatchAt(s, i, cap)
    requires forall j, c :: from <= j < i ==> !IsMatchAt(s, j, c)
    ensures Search(s, from) == Some(Match(i, cap))
  {
    var r := Search(s, from);
    assert r.Some?;
    assert r.value.start == i;
    CaptureUnique(s, i, cap, r.value.capture);
  }

  /** Too short a tail holds no match, so nothing is removed from it. */
  lemma ShortTailKept(s: string, from: nat)
    requires from <= |s| <= from + |PREFIX|
    ensures Search(s, from).None? && RemoveMatches(s, from) == s[from..]
  {
  }

  /** A match inside `s` is a match inside any tail of `s` that contains it. */
  lemma MatchInTail(s: string, e: nat, i: nat, cap: string)
    requires e <= i && IsMatchAt(s, i, cap)
    ensures IsMatchAt(s[e..], i - e, cap)
  {
    var t := s[e..];
    var j := i - e;
    assert t[j..j + |PREFIX|] == s[i..i + |PREFIX|];
    assert t[j + |PREFIX|..j + |PREFIX| + |cap|] == s[i + |PREFIX|..i + |PREFIX| + |cap|];
  }

  /** A tail of `s` that holds no selection of its own holds none inside `s` either. */
  lemma NoMatchInTail(s: string, e: nat)
    requires e <= |s| && Search(s[e..], 0).None?
    ensures Search(s, e).None? && RemoveMatches(s, e) == s[e..]
  {
    var r := Search(s, e);
    if r.Some? {
      MatchInTail(s, e, r.value.start, r.value.capture);
    }
  }

  /** A message that opens with the selection: the bracket text is the capture, and when the
      remainder holds no selection the forwarded text is that remainder. */
  lemma {:induction false} SelectionFirst(cap: string, rest: string)
    requires ']' !in cap && '\n' !in cap
    ensures Search(PREFIX + cap + "]" + rest, 0) == Some(Match(0, cap))
    ensures Search(rest, 0).None? ==> RemoveMatches(PREFIX + cap + "]" + rest, 0) == rest
  {
    var s := PREFIX + cap + "]" + rest;
    assert s[0..|PREFIX|] == PREFIX;
    assert s[|PREFIX|..|PREFIX| + |cap|] == cap;
    assert s[|PREFIX| + |cap|] == ']';
    assert IsMatchAt(s, 0, cap);
    LeftmostIsFound(s, 0, 0, cap);
    var e := End(Match(0, cap));
    assert s[e..] == rest;
    if Search(rest, 0).None? {
      NoMatchInTail(s, e);
      assert RemoveMatches(s, 0) == s[0..0] + RemoveMatches(s, e);
    }
  }

  /** `[]` selects one office with an empty name. */
  lemma EmptyBrackets()
    ensures ParseOffices("") == [""]
  {
  }

  /** A match preceded by text in which no match starts and followed by a tail that holds
      no selection is cut out, and the text around it is joined. */
  lemma {:induction false} RemovalJoinsTheSurroundings(h: string, cap: string, t: string)
    requires ']' !in cap && '\n' !in cap && Search(t, 0).None?
    requires forall j, c :: 0 <= j < |h| ==> !IsMatchAt(h + PREFIX + cap + "]" + t, j, c)
    ensures RemoveMatches(h + PREFIX + cap + "]" + t, 0) == h + t
  {
    var s := h + PREFIX + cap + "]" + t;
    var i := |h|;
    assert s[i..i + |PREFIX|] == PREFIX;
    assert s[i + |PREFIX|..i + |PREFIX| + |cap|] == cap;
    assert s[i + |PREFIX| + |cap|] == ']';
    assert IsMatchAt(s, i, cap);
    LeftmostIsFound(s, 0, i, cap);
    var e := End(Match(i, cap));
    assert s[e..] == t;
    NoMatchInTail(s, e);
    assert s[0..i] == h;
  }

  /** `re.sub` makes a single pass: in `Considera las Considera las oficinas []oficinas []`
      `RemovalJoinsTheSurroundings` cuts out the middle match, and what is left, the empty
      selection, is a match again, so the forwarded message still holds a selection. */
  lemma RemovalCanLeaveASelection()
    ensures Search(PREFIX + "]", 0) == Some(Match(0, ""))
  {
    SelectionFirst("", "");
    assert PREFIX + "" + "]" + "" == PREFIX + "]";
  }

  /** A quoted name in the conventional `'name'` form loses exactly its quotes. */
  lemma QuotedName(name: string)
    requires name != [] && !IsQuote(name[0]) && !IsQuote(name[|name| - 1])
    ensures OfficeName("'" + name + "'") == name
  {
    var q := ['\''] + name + ['\''];
    assert "'" + name + "'" == q;
    StripUnchanged(q, Whitespace);
    StripEnclosed('\'', name, Quote);
    assert OfficeName(q) == Strip(Strip(q, Whitespace), Quote);
  }

  /** A quoted name after a blank, as in the second piece of `'a', 'b'`, is that name. */
  lemma SpacedQuotedName(name: string)
    requires name != [] && !IsQuote(name[0]) && !IsQuote(name[|name| - 1])
    ensures OfficeName(" '" + name + "'") == name
  {
    var q := "'" + name + "'";
    assert q == ['\''] + name + ['\''];
    assert " '" + name + "'" == [' '] + q;
    StripOneLeading(' ', q, Whitespace);
    StripEnclosed('\'', name, Quote);
  }

  /** Two comma-free pieces joined by a comma name two offices. */
  lemma TwoPieces(p: string, q: string)
    requires ',' !in p && ',' !in q
    ensures ParseOffices(p + [','] + q) == [OfficeName(p), OfficeName(q)]
  {
    assert Split(p + [','] + q, ',') == [p, q] by {
      SplitAfterPiece(p, q, ',');
      SplitWithoutSeparator(q, ',');
    }
  }

  /** `'a','b'` names the offices `a` and `b`. */
  lemma TwoQuotedOffices(a: string, b: string)
    requires a != [] && !IsQuote(a[0]) && !IsQuote(a[|a| - 1]) && ',' !in a
    requires b != [] && !IsQuote(b[0]) && !IsQuote(b[|b| - 1]) && ',' !in b
    ensures ParseOffices("'" + a + "'" + "," + "'" + b + "'") == [a, b]
  {
    var qa, qb := "'" + a + "'", "'" + b + "'";
    assert ',' !in qa by { assert forall c :: c in qa ==> c == '\'' || c in a; }
    assert ',' !in qb by { assert forall c :: c in qb ==> c == '\'' || c in b; }
    assert "'" + a + "'" + "," + "'" + b + "'" == qa + [','] + qb;
    TwoPieces(qa, qb);
    QuotedName(a);
    QuotedName(b);
  }

  /** `'a', 'b'`, with a blank after the comma as in the source's own example
      `['001 - Huerfanos 740 EDW', '356 - El Bosque']`, also names `a` and `b`. */
  lemma TwoQuotedOfficesSpaced(a: string, b: string)
    requires a != [] && !IsQuote(a[0]) && !IsQuote(a[|a| - 1]) && ',' !in a
    requires b != [] && !IsQuote(b[0]) && !IsQuote(b[|b| - 1]) && ',' !in b
    ensures ParseOffices("'" + a + "'" + ", " + "'" + b + "'") == [a, b]
  {
    var qa, qb := "'" + a + "'", " '" + b + "'";
    assert ',' !in qa by { assert forall c :: c in qa ==> c == '\'' || c in a; }
    assert ',' !in qb by { assert forall c :: c in qb ==> c == '\'' || c == ' ' || c in b; }
    assert "'" + a + "'" + ", " + "'" + b + "'" == qa + [','] + qb;
    TwoPieces(qa, qb);
    QuotedName(a);
    SpacedQuotedName(b);
  }
}
