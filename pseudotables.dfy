/**
 * The pseudo-table pass of the preprocessor: lines with dot leaders ("Introduction .... 3"), as
 * in tables of contents and lists of figures, are tagged `pseudo_table` and their leaders are
 * replaced by a tab; once a page has such a line, the lines after it are tagged too.
 *
 * The two regular expressions of the pass are written out as functions over the text:
 * `re.match(r".+\.\s*\.\s*\.\s*\.\s*.*", t)` is `LeaderMatch` and
 * `re.sub(r"(\.)(\s*\.){2,}", "\t", t)` is `ReplaceLeaders`. `\s` is Python's Unicode
 * whitespace, the same class `str.strip` removes (`IsSpace`), and `.` matches any character
 * but a newline.
 */
module PseudoTables {
  import opened Wrappers
  import opened Strings
  import opened DocModel

  /** `look_ahead` of the pass. */
  const LookAhead: nat := 3

  /** The end of the whitespace run that starts at `j` (a greedy `\s*`). */
  function SkipSpace(t: string, j: nat): (m: nat)
    requires j <= |t|
    ensures j <= m <= |t|
    ensures forall i :: j <= i < m ==> IsSpace(t[i])
    ensures m == |t| || !IsSpace(t[m])
    decreases |t| - j
  {
    if j < |t| && IsSpace(t[j]) then SkipSpace(t, j + 1) else j
  }

  /**
   * `(\s*\.)` repeated `n` times matches at `j`. A dot is not whitespace, so each `\s*` has
   * only one way to be followed by a dot: skip all the whitespace.
   */
  predicate DotsAfter(t: string, j: nat, n: nat)
    requires j <= |t|
    decreases n
  {
    n == 0 || (var m := SkipSpace(t, j); m < |t| && t[m] == '.' && DotsAfter(t, m + 1, n - 1))
  }

  /** `\.\s*\.\s*\.\s*\.` matches at `i` (the tail `\s*.*` always matches). */
  predicate LeaderAt(t: string, i: nat)
    requires i < |t|
  {
    t[i] == '.' && DotsAfter(t, i + 1, 3)
  }

  /** `.+` has reached `i` and can stop here or at a later index of the same line. */
  predicate LeaderFrom(t: string, i: nat)
    decreases |t| - i
  {
    i < |t| && (LeaderAt(t, i) || (t[i] != '\n' && LeaderFrom(t, i + 1)))
  }

  /** `re.match(r".+\.\s*\.\s*\.\s*\.\s*.*", t)` succeeds: `.+` takes at least the first character. */
  predicate LeaderMatch(t: string) {
    |t| > 0 && t[0] != '\n' && LeaderFrom(t, 1)
  }

  /** A match has its leader at some index after a non-empty first line. */
  lemma {:induction false} LeaderFromAt(t: string, j: nat) returns (i: nat)
    requires LeaderFrom(t, j)
    ensures j <= i < |t| && LeaderAt(t, i) && '\n' !in t[j..i]
    decreases |t| - j
  {
    if LeaderAt(t, j) {
      i := j;
    } else {
      i := LeaderFromAt(t, j + 1);
      assert t[j..i] == [t[j]] + t[j + 1..i];
    }
  }

  /** Conversely, a leader after a newline-free stretch is found by the search. */
  lemma {:induction false} LeaderFromReaches(t: string, j: nat, i: nat)
    requires j <= i < |t| && LeaderAt(t, i) && '\n' !in t[j..i]
    ensures LeaderFrom(t, j)
    decreases i - j
  {
    if j < i {
      assert t[j] == t[j..i][0];
      assert t[j + 1..i] == t[j..i][1..];
      LeaderFromReaches(t, j + 1, i);
    }
  }

  /** The match test in one formula: a leader at some `i >= 1` with no newline before it. */
  lemma {:induction false} LeaderMatchIff(t: string)
    ensures LeaderMatch(t) <==> exists i :: 1 <= i < |t| && LeaderAt(t, i) && '\n' !in t[..i]
  {
    if LeaderMatch(t) {
      var i := LeaderFromAt(t, 1);
      assert t[..i] == [t[0]] + t[1..i];
    }
    if exists i :: 1 <= i < |t| && LeaderAt(t, i) && '\n' !in t[..i] {
      var i :| 1 <= i < |t| && LeaderAt(t, i) && '\n' !in t[..i];
      assert t[1..i] == t[..i][1..];
      assert t[0] == t[..i][0];
      LeaderFromReaches(t, 1, i);
    }
  }

  /** In particular four consecutive dots after a non-empty first line match. */
  lemma {:induction false} FourDotsMatch(t: string, i: nat)
    requires 1 <= i && OccursAt(t, "....", i) && '\n' !in t[..i]
    ensures LeaderMatch(t)
  {
    assert t[i..i + 4] == "....";
    assert t[i] == '.' && t[i + 1] == '.' && t[i + 2] == '.' && t[i + 3] == '.';
    assert SkipSpace(t, i + 3) == i + 3;
    assert DotsAfter(t, i + 4, 0);
    assert SkipSpace(t, i + 2) == i + 2;
    assert DotsAfter(t, i + 3, 1);
    assert SkipSpace(t, i + 1) == i + 1;
    assert DotsAfter(t, i + 2, 2);
    assert LeaderAt(t, i);
    LeaderMatchIff(t);
  }

  /** The greedy `(\s*\.)*` at `j`: how many groups it takes and where the last one ends. */
  datatype Groups = Groups(count: nat, end: nat)

  function DotGroups(t: string, j: nat): (g: Groups)
    requires j <= |t|
    ensures j <= g.end <= |t|
    ensures g.count == 0 <==> g.end == j
    ensures forall i :: j <= i < g.end ==> t[i] == '.' || IsSpace(t[i])
    decreases |t| - j
  {
    var m := SkipSpace(t, j);
    if m < |t| && t[m] == '.' then
      var rest := DotGroups(t, m + 1);
      Groups(rest.count + 1, rest.end)
    else Groups(0, j)
  }

  /** Where `(\s*\.){n}` matches, the greedy repetition takes at least `n` groups. */
  lemma {:induction false} DotsAfterGroups(t: string, j: nat, n: nat)
    requires j <= |t| && DotsAfter(t, j, n)
    ensures DotGroups(t, j).count >= n
    decreases n
  {
    if n > 0 {
      DotsAfterGroups(t, SkipSpace(t, j) + 1, n - 1);
    }
  }

  /** A leader, `(\.)(\s*\.){2,}`, starts at `p`. */
  predicate LeaderStart(t: string, p: nat)
    requires p < |t|
  {
    t[p] == '.' && DotGroups(t, p + 1).count >= 2
  }

  /** `re.sub(r"(\.)(\s*\.){2,}", "\t", t[p..])`: leftmost leaders, each replaced by one tab. */
  function SubFrom(t: string, p: nat): string
    requires p <= |t|
    decreases |t| - p
  {
    if p == |t| then ""
    else if LeaderStart(t, p) then "\t" + SubFrom(t, DotGroups(t, p + 1).end)
    else [t[p]] + SubFrom(t, p + 1)
  }

  function ReplaceLeaders(t: string): string {
    SubFrom(t, 0)
  }

  /** The characters other than dots and whitespace, the ones a reader of the entry sees. */
  predicate Visible(c: char) {
    c != '.' && !IsSpace(c)
  }

  function VisibleTest(): char -> bool {
    (c: char) => Visible(c)
  }

  /** A stretch of dots and whitespace contributes no visible character. */
  lemma {:induction false} InvisibleStretch(t: string, p: nat, e: nat)
    requires p <= e <= |t|
    requires forall i :: p <= i < e ==> t[i] == '.' || IsSpace(t[i])
    ensures Filter(t[p..], VisibleTest()) == Filter(t[e..], VisibleTest())
    decreases e - p
  {
    if p < e {
      assert t[p..] == [t[p]] + t[p + 1..];
      FilterCons(t[p], t[p + 1..], VisibleTest());
      InvisibleStretch(t, p + 1, e);
    }
  }

  /** Leader replacement removes only dots and whitespace: the visible text is kept, in order. */
  lemma {:induction false} SubFromKeepsVisible(t: string, p: nat)
    requires p <= |t|
    ensures Filter(SubFrom(t, p), VisibleTest()) == Filter(t[p..], VisibleTest())
    decreases |t| - p
  {
    if p < |t| {
      assert t[p..] == [t[p]] + t[p + 1..];
      FilterCons(t[p], t[p + 1..], VisibleTest());
      if LeaderStart(t, p) {
        var e := DotGroups(t, p + 1).end;
        SubFromKeepsVisible(t, e);
        FilterCons('\t', SubFrom(t, e), VisibleTest());
        InvisibleStretch(t, p + 1, e);
      } else {
        SubFromKeepsVisible(t, p + 1);
        FilterCons(t[p], SubFrom(t, p + 1), VisibleTest());
      }
    }
  }

  lemma {:induction false} ReplaceKeepsVisible(t: string)
    ensures Filter(ReplaceLeaders(t), VisibleTest()) == Filter(t, VisibleTest())
  {
    SubFromKeepsVisible(t, 0);
    assert t[0..] == t;
  }

  /** If a leader starts at or after `p`, the replacement from `p` contains a tab. */
  lemma {:induction false} SubFromHasTab(t: string, p: nat, q: nat)
    requires p <= q < |t| && LeaderStart(t, q)
    ensures '\t' in SubFrom(t, p)
    decreases |t| - p
  {
    if !LeaderStart(t, p) {
      SubFromHasTab(t, p + 1, q);
    }
  }

  /** A text the match test accepts gets at least one tab from the replacement. */
  lemma {:induction false} LeaderReplaced(t: string)
    requires LeaderMatch(t)
    ensures '\t' in ReplaceLeaders(t)
  {
    var i := LeaderFromAt(t, 1);
    DotsAfterGroups(t, i + 1, 3);
    SubFromHasTab(t, 0, i);
  }

  predicate NoTripleDot(s: string) {
    forall i :: 0 <= i < |s| - 2 ==> !(s[i] == '.' && s[i + 1] == '.' && s[i + 2] == '.')
  }

  /** The replacement starts with a dot only where the text has a dot that starts no leader. */
  lemma SubFromLeadingDot(t: string, p: nat)
    requires p <= |t|
    ensures SubFrom(t, p) != [] && SubFrom(t, p)[0] == '.'
            ==> p < |t| && t[p] == '.' && SubFrom(t, p) == [t[p]] + SubFrom(t, p + 1)
  {
  }

  /** Three dots in a row start a leader. */
  lemma {:induction false} ThreeDotsStart(t: string, p: nat)
    requires p + 2 < |t| && t[p] == '.' && t[p + 1] == '.' && t[p + 2] == '.'
    ensures LeaderStart(t, p)
  {
    assert SkipSpace(t, p + 1) == p + 1;
    assert SkipSpace(t, p + 2) == p + 2;
    assert DotGroups(t, p + 2).count >= 1;
  }

  lemma {:induction false} ConsNoTripleDot(c: char, x: string)
    requires NoTripleDot(x) && !(c == '.' && |x| > 1 && x[0] == '.' && x[1] == '.')
    ensures NoTripleDot([c] + x)
  {
    var s := [c] + x;
    assert forall i :: 1 <= i < |s| ==> s[i] == x[i - 1];
  }

  /** No run of three dots survives the replacement. */
  lemma {:induction false} SubFromNoTripleDot(t: string, p: nat)
    requires p <= |t|
    ensures NoTripleDot(SubFrom(t, p))
    decreases |t| - p
  {
    if p < |t| {
      if LeaderStart(t, p) {
        var e := DotGroups(t, p + 1).end;
        SubFromNoTripleDot(t, e);
        ConsNoTripleDot('\t', SubFrom(t, e));
      } else {
        var rest := SubFrom(t, p + 1);
        SubFromNoTripleDot(t, p + 1);
        SubFromLeadingDot(t, p + 1);
        if p + 2 <= |t| {
          SubFromLeadingDot(t, p + 2);
        }
        if p + 2 < |t| && t[p] == '.' && t[p + 1] == '.' && t[p + 2] == '.' {
          ThreeDotsStart(t, p);
        }
        ConsNoTripleDot(t[p], rest);
      }
    }
  }

  lemma {:induction false} ReplaceLeavesNoLeader(t: string)
    ensures NoTripleDot(ReplaceLeaders(t)) && !Contains(ReplaceLeaders(t), "...")
  {
    var s := ReplaceLeaders(t);
    SubFromNoTripleDot(t, 0);
    forall i
      ensures !OccursAt(s, "...", i)
    {
      if 0 <= i <= |s| - 3 {
        var w := s[i..i + 3];
        assert w[0] == s[i] && w[1] == s[i + 1] && w[2] == s[i + 2];
      }
    }
  }

  /** The loop state on one page: inside a pseudo-table, paragraphs since the last leader line, stopped by `break`. */
  datatype Mode = Mode(inTable: bool, misses: nat, stopped: bool)

  const Start: Mode := Mode(false, 0, false)

  /** A paragraph that is no caption and whose stripped text has a dot leader. */
  predicate IsLeaderLine(p: Paragraph) {
    p.isType != Caption && LeaderMatch(Strip(p.text))
  }

  /** `non_matching_count += 1` when the stripped text has no "..." inside a pseudo-table. */
  function CountMiss(text: string, m: Mode): Mode {
    if !Contains(text, "...") && m.inTable then m.(misses := m.misses + 1) else m
  }

  /** What happens to one paragraph in mode `m`. */
  function TagOne(p: Paragraph, m: Mode): Paragraph {
    if m.stopped || p.isType == Caption then p
    else
      var text := Strip(p.text);
      if LeaderMatch(text) then p.(text := ReplaceLeaders(text), isType := PseudoTable)
      else if m.inTable && m.misses < LookAhead then p.(isType := PseudoTable)
      else p
  }

  /** The mode after one paragraph. */
  function NextMode(p: Paragraph, m: Mode): Mode {
    if m.stopped || p.isType == Caption then m
    else
      var text := Strip(p.text);
      if LeaderMatch(text) then CountMiss(text, Mode(true, 0, false))
      else if m.inTable then
        if m.misses >= LookAhead then m.(stopped := true) else CountMiss(text, Mode(true, 0, false))
      else CountMiss(text, m)
  }

  datatype Tagging = Tagging(tagged: seq<Paragraph>, mode: Mode)

  /** The page loop from mode `m0`. */
  function Run(ps: seq<Paragraph>, m0: Mode): (r: Tagging)
    ensures |r.tagged| == |ps|
    decreases |ps|
  {
    if ps == [] then Tagging([], m0)
    else
      var init := Run(ps[..|ps| - 1], m0);
      var p := ps[|ps| - 1];
      Tagging(init.tagged + [TagOne(p, init.mode)], NextMode(p, init.mode))
  }

  lemma {:induction false} RunSnoc(ps: seq<Paragraph>, i: nat, m0: Mode)
    requires i < |ps|
    ensures Run(ps[..i + 1], m0).tagged == Run(ps[..i], m0).tagged + [TagOne(ps[i], Run(ps[..i], m0).mode)]
    ensures Run(ps[..i + 1], m0).mode == NextMode(ps[i], Run(ps[..i], m0).mode)
  {
    assert ps[..i + 1][..i] == ps[..i];
  }

  /** Once stopped, the loop leaves every further paragraph as it is. */
  lemma {:induction false} RunStopped(ps: seq<Paragraph>, m: Mode)
    requires m.stopped
    ensures Run(ps, m) == Tagging(ps, m)
    decreases |ps|
  {
    if ps != [] {
      RunStopped(ps[..|ps| - 1], m);
    }
  }

  /** Running over `a + b` is running over `a` and then over `b` from the mode reached. */
  lemma {:induction false} RunAppend(a: seq<Paragraph>, b: seq<Paragraph>, m0: Mode)
    ensures Run(a + b, m0).tagged == Run(a, m0).tagged + Run(b, Run(a, m0).mode).tagged
    ensures Run(a + b, m0).mode == Run(b, Run(a, m0).mode).mode
    decreases |b|
  {
    if b == [] {
      assert a + b == a;
    } else {
      assert (a + b)[..|a + b| - 1] == a + b[..|b| - 1];
      RunAppend(a, b[..|b| - 1], m0);
    }
  }

  /** What the `break` leaves: the tagged prefix and the untouched rest of the page. */
  lemma {:induction false} RunBreak(ps: seq<Paragraph>, i: nat, m0: Mode)
    requires i < |ps| && Run(ps[..i + 1], m0).mode.stopped
    ensures Run(ps, m0).tagged == Run(ps[..i + 1], m0).tagged + ps[i + 1..]
  {
    var a, b := ps[..i + 1], ps[i + 1..];
    assert a + b == ps;
    RunAppend(a, b, m0);
    RunStopped(b, Run(a, m0).mode);
  }

  /** At the `break` the paragraphs tagged so far are followed by the rest of the page as it is. */
  lemma {:induction false} BreakLeavesRest(ps: seq<Paragraph>, i: nat, qs: seq<Paragraph>)
    requires i < |ps| && Run(ps[..i + 1], Start).mode.stopped
    requires Run(ps[..i + 1], Start).tagged == qs + [ps[i]]
    ensures Run(ps, Start).tagged == qs + ps[i..]
  {
    RunBreak(ps, i, Start);
    assert ps[i..] == [ps[i]] + ps[i + 1..];
  }

  /** Paragraph `k` is tagged in the mode the loop has reached before it. */
  lemma {:induction false} TaggedAt(ps: seq<Paragraph>, m0: Mode, k: nat)
    requires k < |ps|
    ensures Run(ps, m0).tagged[k] == TagOne(ps[k], Run(ps[..k], m0).mode)
    decreases |ps|
  {
    var init := ps[..|ps| - 1];
    if k < |ps| - 1 {
      TaggedAt(init, m0, k);
      assert init[..k] == ps[..k];
    } else {
      assert init == ps[..k];
    }
  }

  function LeaderLineTest(): Paragraph -> bool {
    (p: Paragraph) => IsLeaderLine(p)
  }

  /** Some paragraph of `ps` is a leader line. */
  predicate SeenLeader(ps: seq<Paragraph>) {
    Any(ps, LeaderLineTest())
  }

  /**
   * From the start of a page the count of paragraphs without a leader is never above 1, so the
   * `break` (at 3) is never taken; the loop is inside a pseudo-table exactly when a leader line
   * has been seen.
   */
  lemma {:induction false} ModeReached(ps: seq<Paragraph>)
    ensures var m := Run(ps, Start).mode;
            m.misses <= 1 && !m.stopped && (m.inTable <==> SeenLeader(ps))
    decreases |ps|
  {
    if ps != [] {
      var init := ps[..|ps| - 1];
      var p := ps[|ps| - 1];
      ModeReached(init);
      NextModeStep(p, Run(init, Start).mode);
      AnySnoc(ps, LeaderLineTest());
    }
  }

  /** One step keeps the count at most 1 and enters a pseudo-table exactly at a leader line. */
  lemma NextModeStep(p: Paragraph, m: Mode)
    requires m.misses <= 1 && !m.stopped
    ensures var n := NextMode(p, m);
            n.misses <= 1 && !n.stopped && (n.inTable <==> m.inTable || IsLeaderLine(p))
  {
  }

  /**
   * The pass in closed form: captions are untouched; a paragraph whose stripped text has a
   * leader becomes a pseudo-table line with its leaders replaced; any other paragraph after a
   * leader line of the same page becomes a pseudo-table line with its text as it was; the
   * paragraphs before the first leader line stay as they are.
   */
  lemma {:induction false} PseudoTablesAt(ps: seq<Paragraph>, k: nat)
    requires k < |ps|
    ensures var q := Run(ps, Start).tagged[k];
            var text := Strip(ps[k].text);
            q == (if ps[k].isType == Caption then ps[k]
                  else if LeaderMatch(text) then ps[k].(text := ReplaceLeaders(text), isType := PseudoTable)
                  else if SeenLeader(ps[..k]) then ps[k].(isType := PseudoTable)
                  else ps[k])
  {
    TaggedAt(ps, Start, k);
    ModeReached(ps[..k]);
  }

  /** The loop over one page, with the `break` of the source. */
  method TagPseudoTablesOnPage(ps: seq<Paragraph>) returns (qs: seq<Paragraph>)
    ensures qs == Run(ps, Start).tagged
  {
    qs := [];
    var inTable := false;
    var misses: nat := 0;
    var i := 0;
    while i < |ps|
      invariant 0 <= i <= |ps|
      invariant qs == Run(ps[..i], Start).tagged && Run(ps[..i], Start).mode == Mode(inTable, misses, false)
    {
      RunSnoc(ps, i, Start);
      var para, stop;
      para, inTable, misses, stop := TagStep(ps[i], inTable, misses);
      if stop {
        BreakLeavesRest(ps, i, qs);
        qs := qs + ps[i..];
        break;
      }
      qs := qs + [para];
      i := i + 1;
    }
    if i == |ps| {
      assert ps[..|ps|] == ps;
    }
  }

  /**
   * The body of the page loop for one paragraph: a caption is skipped, a leader line is
   * rewritten and opens a pseudo-table, a paragraph inside one is tagged unless the count of
   * paragraphs without a leader has reached the look-ahead (`stop`, the `break`).
   */
  method TagStep(para: Paragraph, inTable: bool, misses: nat)
      returns (q: Paragraph, inTable': bool, misses': nat, stop: bool)
    ensures q == TagOne(para, Mode(inTable, misses, false))
    ensures Mode(inTable', misses', stop) == NextMode(para, Mode(inTable, misses, false))
    ensures stop ==> q == para
  {
    q, inTable', misses', stop := para, inTable, misses, false;
    if para.isType == Caption {
      return;
    }
    var text := Strip(para.text);
    if LeaderMatch(text) {
      q := para.(text := ReplaceLeaders(text), isType := PseudoTable);
      inTable', misses' := true, 0;
    } else if inTable {
      if misses >= LookAhead {
        stop := true;
        return;
      }
      q := para.(isType := PseudoTable);
      misses' := 0;
    }
    if !Contains(text, "...") && inTable' {
      misses' := misses' + 1;
    }
  }

  /** `_detect_pseudo_tables` over the whole document. */
  function DetectPseudoTables(pages: seq<Page>): (r: seq<Page>)
    ensures |r| == |pages|
  {
    seq(|pages|, k requires 0 <= k < |pages| => pages[k].(paragraphs := Run(pages[k].paragraphs, Start).tagged))
  }

  /** The page loop of the pass. */
  method DetectPseudoTablesIn(pages: seq<Page>) returns (r: seq<Page>)
    ensures r == DetectPseudoTables(pages)
  {
    r := [];
    for i := 0 to |pages|
      invariant r == DetectPseudoTables(pages[..i])
    {
      var qs := TagPseudoTablesOnPage(pages[i].paragraphs);
      r := r + [pages[i].(paragraphs := qs)];
    }
    assert pages[..|pages|] == pages;
  }
}
