/** `createBubbleContent` inside `appendMessage` (script.js:59-66): the text
    is cut with `split(/\n\s*\n/)` and every section, trimmed, becomes one
    paragraph of the bubble. */
module BubbleContent {
  import opened Text

  /** A string the regular expression `\n\s*\n` matches as a whole: a line
      feed, any white space, and a closing line feed. */
  predicate IsSeparator(t: string) {
    |t| >= 2 && t[0] == '\n' && t[|t| - 1] == '\n' && AllSpace(t)
  }

  /** Some substring of `s` is a separator. */
  predicate HasSeparator(s: string) {
    exists i, j :: 0 <= i < j <= |s| && IsSeparator(s[i..j])
  }

  /** The matcher for `\n\s*\n` anchored at the start of `x`, after the
      leading line feed: `i` scans the greedy `\s*` run, `best` is the end of
      the longest separator seen so far (0 while there is none). Backtracking
      from the end of the run to its last line feed is the same as keeping
      `best` up to date during the scan. */
  function SeparatorScan(x: string, i: nat, best: nat): (r: nat)
    requires 1 <= i <= |x| && best <= i && (best == 0 || best >= 2)
    ensures r <= |x| && (r == 0 || r >= 2)
    decreases |x| - i
  {
    if i < |x| && IsSpace(x[i]) then
      SeparatorScan(x, i + 1, if x[i] == '\n' then i + 1 else best)
    else
      best
  }

  /** The scan ends on the longest prefix of `x` that is a separator, or on
      0 when no prefix is one. */
  lemma {:induction false} SeparatorScanFinds(x: string, i: nat, best: nat)
    requires 1 <= i <= |x| && x[0] == '\n' && AllSpace(x[..i])
    requires best == 0 || (2 <= best <= i && IsSeparator(x[..best]))
    requires forall m :: best < m <= i ==> !IsSeparator(x[..m])
    ensures var r := SeparatorScan(x, i, best);
      && (r == 0 || IsSeparator(x[..r]))
      && forall m :: r < m <= |x| ==> !IsSeparator(x[..m])
    decreases |x| - i
  {
    if i < |x| && IsSpace(x[i]) {
      assert x[..i + 1] == x[..i] + [x[i]];
      var best' := if x[i] == '\n' then i + 1 else best;
      assert forall m :: best' < m <= i + 1 ==> m <= i || x[..m][m - 1] != '\n';
      SeparatorScanFinds(x, i + 1, best');
    } else {
      assert forall m :: i < m <= |x| ==> x[..m][i] == x[i];
    }
  }

  /** Length of the match of `\n\s*\n` at the start of `x`, 0 for no match. */
  function SeparatorLength(x: string): (n: nat)
    ensures n <= |x| && (n == 0 || n >= 2)
  {
    if |x| > 0 && x[0] == '\n' then SeparatorScan(x, 1, 0) else 0
  }

  /** The match at the start of `x` is its longest prefix that is a
      separator; there is none when the length is 0. */
  lemma SeparatorLengthIsLongestMatch(x: string)
    ensures var n := SeparatorLength(x);
      && (n == 0 || IsSeparator(x[..n]))
      && forall m :: n < m <= |x| ==> !IsSeparator(x[..m])
  {
    if |x| > 0 && x[0] == '\n' {
      assert forall m :: 0 < m <= 1 ==> |x[..m]| < 2;
      SeparatorScanFinds(x, 1, 0);
    } else {
      assert forall m :: 0 < m <= |x| ==> x[..m][0] == x[0];
    }
  }

  /** The first position at or after `q` where a separator match starts, or
      `|s|` when there is none. */
  function FindSeparator(s: string, q: nat): (r: nat)
    requires q <= |s|
    ensures q <= r <= |s|
    ensures r < |s| ==> SeparatorLength(s[r..]) > 0
    decreases |s| - q
  {
    if q == |s| || SeparatorLength(s[q..]) > 0 then q else FindSeparator(s, q + 1)
  }

  /** No match starts between `q` and the position the search returns. */
  lemma {:induction false} FindSeparatorIsFirst(s: string, q: nat)
    requires q <= |s|
    ensures forall t :: q <= t < FindSeparator(s, q) ==> SeparatorLength(s[t..]) == 0
    decreases |s| - q
  {
    if q < |s| && SeparatorLength(s[q..]) == 0 {
      FindSeparatorIsFirst(s, q + 1);
    }
  }

  /** Sections of a split and the separators cut out between them. */
  datatype Cuts = Cuts(sections: seq<string>, separators: seq<string>)

  /** Sections and separators laid back end to end. */
  function Interleave(sections: seq<string>, separators: seq<string>): string
    requires |sections| == |separators| + 1
    decreases |separators|
  {
    if separators == [] then sections[0]
    else sections[0] + separators[0] + Interleave(sections[1..], separators[1..])
  }

  /** No separator starts before position `q` of `s`. */
  lemma NoSeparatorBefore(s: string, q: nat)
    requires q <= |s|
    requires forall t :: 0 <= t < q ==> SeparatorLength(s[t..]) == 0
    ensures !HasSeparator(s[..q])
  {
    forall i, j | 0 <= i < j <= q
      ensures !IsSeparator(s[..q][i..j])
    {
      SeparatorLengthIsLongestMatch(s[i..]);
      assert s[..q][i..j] == s[i..][..j - i];
    }
  }

  /** `String(s).split(/\n\s*\n/)` following ECMAScript's split: the leftmost
      match is cut out, the text before it is a section, and the split goes on
      after the match; what is left at the end is the last section. The
      sections and separators laid back together give `s` again; the lemmas
      below say so, and that every separator is one and no section holds
      one. */
  function Cut(s: string): (c: Cuts)
    ensures |c.sections| == |c.separators| + 1
    decreases |s|
  {
    var q := FindSeparator(s, 0);
    if q == |s| then
      Cuts([s], [])
    else
      var e := q + SeparatorLength(s[q..]);
      var rest := Cut(s[e..]);
      Cuts([s[..q]] + rest.sections, [s[q..e]] + rest.separators)
  }

  /** Laying the sections and separators back together gives the text: the
      split loses and reorders nothing. */
  lemma {:induction false} CutRejoins(s: string)
    ensures Interleave(Cut(s).sections, Cut(s).separators) == s
    decreases |s|
  {
    var q := FindSeparator(s, 0);
    if q < |s| {
      var e := q + SeparatorLength(s[q..]);
      CutRejoins(s[e..]);
      RejoinStep(s, q, e, Cut(s[e..]).sections, Cut(s[e..]).separators);
    }
  }

  /** A section and a separator in front of a rejoined rest of the text
      give the text back. */
  lemma RejoinStep(s: string, q: nat, e: nat, sections: seq<string>, separators: seq<string>)
    requires q <= e <= |s| && |sections| == |separators| + 1
    requires Interleave(sections, separators) == s[e..]
    ensures Interleave([s[..q]] + sections, [s[q..e]] + separators) == s
  {
    InterleaveCons(s[..q], s[q..e], sections, separators);
    assert s == s[..q] + s[q..e] + s[e..];
  }

  /** One more section and separator in front add them in front of the
      text. */
  lemma InterleaveCons(a: string, sep: string, sections: seq<string>, separators: seq<string>)
    requires |sections| == |separators| + 1
    ensures Interleave([a] + sections, [sep] + separators) == a + sep + Interleave(sections, separators)
  {
    assert ([a] + sections)[1..] == sections;
    assert ([sep] + separators)[1..] == separators;
  }

  /** The match found at `q` is a separator. */
  lemma MatchAt(s: string, q: nat)
    requires q < |s| && SeparatorLength(s[q..]) > 0
    ensures q + SeparatorLength(s[q..]) <= |s|
    ensures IsSeparator(s[q..q + SeparatorLength(s[q..])])
  {
    var e := q + SeparatorLength(s[q..]);
    SeparatorLengthIsLongestMatch(s[q..]);
    assert s[q..][..e - q] == s[q..e];
  }

  /** Every string of `seps` is a separator. */
  predicate AllSeparators(seps: seq<string>)
    decreases |seps|
  {
    seps == [] || (IsSeparator(seps[0]) && AllSeparators(seps[1..]))
  }

  /** No string of `sections` holds a separator. */
  predicate NoneHoldSeparator(sections: seq<string>)
    decreases |sections|
  {
    sections == [] || (!HasSeparator(sections[0]) && NoneHoldSeparator(sections[1..]))
  }

  lemma {:induction false} AllSeparatorsAt(seps: seq<string>, k: nat)
    requires AllSeparators(seps) && k < |seps|
    ensures IsSeparator(seps[k])
    decreases k
  {
    if k > 0 {
      AllSeparatorsAt(seps[1..], k - 1);
    }
  }

  lemma {:induction false} NoneHoldSeparatorAt(sections: seq<string>, k: nat)
    requires NoneHoldSeparator(sections) && k < |sections|
    ensures !HasSeparator(sections[k])
    decreases k
  {
    if k > 0 {
      NoneHoldSeparatorAt(sections[1..], k - 1);
    }
  }

  /** The pieces `Cut` removes, one after another, are separators. */
  lemma {:induction false} CutSeparatorsAll(s: string)
    ensures AllSeparators(Cut(s).separators)
    decreases |s|
  {
    var q := FindSeparator(s, 0);
    if q < |s| {
      var e := q + SeparatorLength(s[q..]);
      MatchAt(s, q);
      CutSeparatorsAll(s[e..]);
      AllSeparatorsCons(s[q..e], Cut(s[e..]).separators);
    }
  }

  lemma AllSeparatorsCons(sep: string, seps: seq<string>)
    requires IsSeparator(sep) && AllSeparators(seps)
    ensures AllSeparators([sep] + seps)
  {
    assert ([sep] + seps)[1..] == seps;
  }

  lemma NoneHoldSeparatorCons(section: string, sections: seq<string>)
    requires !HasSeparator(section) && NoneHoldSeparator(sections)
    ensures NoneHoldSeparator([section] + sections)
  {
    assert ([section] + sections)[1..] == sections;
  }

  /** The sections `Cut` keeps, one after another, hold no separator. */
  lemma {:induction false} CutSectionsNone(s: string)
    ensures NoneHoldSeparator(Cut(s).sections)
    decreases |s|
  {
    var q := FindSeparator(s, 0);
    FindSeparatorIsFirst(s, 0);
    NoSeparatorBefore(s, q);
    if q == |s| {
      assert s[..q] == s;
      NoneHoldSeparatorCons(s, []);
    } else {
      var e := q + SeparatorLength(s[q..]);
      CutSectionsNone(s[e..]);
      NoneHoldSeparatorCons(s[..q], Cut(s[e..]).sections);
    }
  }

  /** Every piece `Cut` removes is a separator. */
  lemma CutSeparatorsAreSeparators(s: string)
    ensures forall k :: 0 <= k < |Cut(s).separators| ==> IsSeparator(Cut(s).separators[k])
  {
    CutSeparatorsAll(s);
    forall k | 0 <= k < |Cut(s).separators|
      ensures IsSeparator(Cut(s).separators[k])
    {
      AllSeparatorsAt(Cut(s).separators, k);
    }
  }

  /** No section `Cut` keeps holds a separator. */
  lemma CutSectionsHoldNone(s: string)
    ensures forall k :: 0 <= k < |Cut(s).sections| ==> !HasSeparator(Cut(s).sections[k])
  {
    CutSectionsNone(s);
    forall k | 0 <= k < |Cut(s).sections|
      ensures !HasSeparator(Cut(s).sections[k])
    {
      NoneHoldSeparatorAt(Cut(s).sections, k);
    }
  }

  /** The split cuts something out exactly when the text holds a separator. */
  lemma CutSeparatesIff(s: string)
    ensures Cut(s).separators == [] <==> !HasSeparator(s)
    ensures !HasSeparator(s) ==> Cut(s).sections == [s]
  {
    if FindSeparator(s, 0) == |s| {
      NoMatchNoCut(s);
    } else {
      MatchCuts(s);
    }
  }

  /** Without a match the split cuts nothing, and the text holds no
      separator. */
  lemma NoMatchNoCut(s: string)
    requires FindSeparator(s, 0) == |s|
    ensures Cut(s) == Cuts([s], []) && !HasSeparator(s)
  {
    FindSeparatorIsFirst(s, 0);
    NoSeparatorBefore(s, |s|);
    assert s[..|s|] == s;
  }

  /** With a match the split cuts it out, and the text holds a separator. */
  lemma MatchCuts(s: string)
    requires FindSeparator(s, 0) < |s|
    ensures Cut(s).separators != [] && HasSeparator(s)
  {
    MatchIsSeparator(s, FindSeparator(s, 0));
  }

  /** A match found at `q` is a separator held by the text. */
  lemma MatchIsSeparator(s: string, q: nat)
    requires q < |s| && SeparatorLength(s[q..]) > 0
    ensures HasSeparator(s)
  {
    var e := q + SeparatorLength(s[q..]);
    MatchAt(s, q);
    assert 0 <= q < e <= |s| && IsSeparator(s[q..e]);
  }

  /** The sections `split` returns. */
  function Split(s: string): (r: seq<string>)
    ensures |r| >= 1
  {
    Cut(s).sections
  }

  /** The paragraph texts of a bubble built from `txt`: each section,
      trimmed. There is at least one. */
  function Paragraphs(txt: string): (r: seq<string>)
    ensures |r| == |Split(txt)| >= 1
  {
    var sections := Split(txt);
    seq(|sections|, k requires 0 <= k < |sections| => Trim(sections[k]))
  }

  /** Every paragraph is trimmed, and it is empty exactly when its section is
      all white space. */
  lemma ParagraphsTrimmed(txt: string)
    ensures forall k :: 0 <= k < |Paragraphs(txt)| ==>
      && IsTrimmed(Paragraphs(txt)[k])
      && (Paragraphs(txt)[k] == [] <==> AllSpace(Split(txt)[k]))
  {
    forall k | 0 <= k < |Paragraphs(txt)|
      ensures Paragraphs(txt)[k] == [] <==> AllSpace(Split(txt)[k])
    {
      TrimEmptyIff(Split(txt)[k]);
    }
  }

  /** A text without a separator is one paragraph, its trimmed self. */
  lemma NoSeparatorOneParagraph(txt: string)
    requires !HasSeparator(txt)
    ensures Paragraphs(txt) == [Trim(txt)]
  {
    CutSeparatesIff(txt);
  }

  /** Text without a line feed cannot hold a separator. */
  lemma NoLineFeedNoSeparator(s: string)
    requires forall k :: 0 <= k < |s| ==> s[k] != '\n'
    ensures !HasSeparator(s)
  {
    forall i, j | 0 <= i < j <= |s|
      ensures !IsSeparator(s[i..j])
    {
      assert s[i..j][0] == s[i];
    }
  }

  /** A one-line text renders as one paragraph holding its trimmed self. */
  lemma SingleLineIsOneParagraph(s: string)
    requires forall k :: 0 <= k < |s| ==> s[k] != '\n'
    ensures Paragraphs(s) == [Trim(s)]
  {
    NoLineFeedNoSeparator(s);
    NoSeparatorOneParagraph(s);
  }

  /** The search stops at the first position with a match. */
  lemma {:induction false} FindSeparatorAt(s: string, q: nat, p: nat)
    requires q <= p < |s| && SeparatorLength(s[p..]) > 0
    requires forall t :: q <= t < p ==> SeparatorLength(s[t..]) == 0
    ensures FindSeparator(s, q) == p
    decreases p - q
  {
    if q < p {
      FindSeparatorAt(s, q + 1, p);
    }
  }

  /** A line without line feeds, a blank line `"\n\n"` and text that does not
      start with white space: the line is the first section and the split
      goes on with the rest. */
  lemma CutAtBlankLine(h: string, r: string)
    requires forall k :: 0 <= k < |h| ==> h[k] != '\n'
    requires r == [] || !IsSpace(r[0])
    ensures Cut(h + "\n\n" + r).sections == [h] + Cut(r).sections
  {
    var s := h + "\n\n" + r;
    BlankLineIsFirstMatch(h, r);
    assert s[..|h|] == h;
    assert s[|h| + 2..] == r;
  }

  /** In a line, `"\n\n"` and text not starting with white space, the first
      match is the blank line, and it is two characters long. */
  lemma BlankLineIsFirstMatch(h: string, r: string)
    requires forall k :: 0 <= k < |h| ==> h[k] != '\n'
    requires r == [] || !IsSpace(r[0])
    ensures FindSeparator(h + "\n\n" + r, 0) == |h|
    ensures SeparatorLength((h + "\n\n" + r)[|h|..]) == 2
  {
    var s := h + "\n\n" + r;
    forall t | 0 <= t < |h| ensures SeparatorLength(s[t..]) == 0 {
      assert s[t..][0] == h[t];
    }
    var x := s[|h|..];
    assert x == "\n\n" + r;
    assert SeparatorScan(x, 2, 2) == 2;
    FindSeparatorAt(s, 0, |h|);
  }

  /** When every section is already trimmed, the paragraphs are the sections. */
  lemma ParagraphsOfTrimmedSections(txt: string)
    requires forall k :: 0 <= k < |Split(txt)| ==> IsTrimmed(Split(txt)[k])
    ensures Paragraphs(txt) == Split(txt)
  {
    forall k | 0 <= k < |Split(txt)| ensures Trim(Split(txt)[k]) == Split(txt)[k] {
      TrimOfPadded([], Split(txt)[k], []);
      assert [] + Split(txt)[k] + [] == Split(txt)[k];
    }
  }

  /** A line without line feeds is one section. */
  lemma OneSection(c: string)
    requires forall k :: 0 <= k < |c| ==> c[k] != '\n'
    ensures Split(c) == [c]
  {
    NoLineFeedNoSeparator(c);
    CutSeparatesIff(c);
  }

  /** Two lines without line feeds, the second not starting with white
      space, joined by a blank line, split into those two lines. */
  lemma TwoSections(b: string, c: string)
    requires forall k :: 0 <= k < |b| ==> b[k] != '\n'
    requires forall k :: 0 <= k < |c| ==> c[k] != '\n'
    requires c != [] && !IsSpace(c[0])
    ensures Split(b + "\n\n" + c) == [b, c]
  {
    OneSection(c);
    CutAtBlankLine(b, c);
  }

  /** Three lines without line feeds, the second and third not starting
      with white space, joined by blank lines, split into those three lines. */
  lemma ThreeSections(a: string, b: string, c: string)
    requires forall k :: 0 <= k < |a| ==> a[k] != '\n'
    requires forall k :: 0 <= k < |b| ==> b[k] != '\n'
    requires forall k :: 0 <= k < |c| ==> c[k] != '\n'
    requires b != [] && !IsSpace(b[0]) && c != [] && !IsSpace(c[0])
    ensures Split(a + "\n\n" + b + "\n\n" + c) == [a, b, c]
  {
    var bc := b + "\n\n" + c;
    TwoSections(b, c);
    assert bc[0] == b[0];
    CutAtBlankLine(a, bc);
    var x := a + "\n\n";
    assert x + (b + "\n\n" + c) == x + (b + "\n\n") + c;
    assert x + (b + "\n\n") == x + b + "\n\n";
  }

  /** Three non-empty trimmed lines joined by blank lines render as those
      three lines, one paragraph each (for instance "A\n\nB\n\nC" gives
      "A", "B", "C"). */
  lemma ThreeParagraphs(a: string, b: string, c: string)
    requires a != [] && b != [] && c != []
    requires IsTrimmed(a) && IsTrimmed(b) && IsTrimmed(c)
    requires forall k :: 0 <= k < |a| ==> a[k] != '\n'
    requires forall k :: 0 <= k < |b| ==> b[k] != '\n'
    requires forall k :: 0 <= k < |c| ==> c[k] != '\n'
    ensures Paragraphs(a + "\n\n" + b + "\n\n" + c) == [a, b, c]
  {
    ThreeSections(a, b, c);
    ParagraphsOfTrimmedSections(a + "\n\n" + b + "\n\n" + c);
  }
}
