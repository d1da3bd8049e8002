/**
 * Heading levels (`_detect_headings`): every distinct rounded size of a qualifying paragraph
 * larger than the main size gets a level by dense rank (largest size = level 1); then every
 * paragraph is tagged as a heading with its size's level, as body text (level 0) or as small
 * text (level -1).
 */
module Headings {
  import opened Wrappers
  import opened Strings
  import opened DocModel

  /** `epsilon`: 0.1 pt. */
  const Epsilon: int := Unit / 10
  /** `min_length` */
  const MinLength: nat := 4

  predicate AllDigits(s: string) {
    |s| >= 1 && forall i :: 0 <= i < |s| ==> IsDigit(s[i])
  }

  /** `re.fullmatch(r"[\d]+[.)]?", t) or t in ["-", "•", "●"]` */
  predicate IsNumeralOrBullet(t: string) {
    AllDigits(t)
    || (|t| >= 2 && (t[|t| - 1] == '.' || t[|t| - 1] == ')') && AllDigits(t[..|t| - 1]))
    || t == "-" || t == "•" || t == "●"
  }

  /** The text test of both passes, on the stripped text. */
  predicate QualifyingText(text: string) {
    |Strip(text)| >= MinLength && !IsNumeralOrBullet(Strip(text))
  }

  /** Pass 1 reads the raw size. */
  predicate CountsAsHeading(p: Paragraph, main: int) {
    p.fontSize > main + Epsilon && QualifyingText(p.text)
  }

  function HeadingTest(main: int): Paragraph -> bool {
    (p: Paragraph) => CountsAsHeading(p, main)
  }

  function SizeKey(): Paragraph -> int {
    (p: Paragraph) => Round2(p.fontSize)
  }

  /** `heading_sizes`: the rounded sizes of the qualifying paragraphs (pass 1). */
  function HeadingSizes(snap: seq<Paragraph>, main: int): set<int> {
    KeysOf(snap, HeadingTest(main), SizeKey())
  }

  lemma {:induction false} HeadingSizesSnoc(snap: seq<Paragraph>, p: Paragraph, main: int)
    ensures HeadingSizes(snap + [p], main)
            == HeadingSizes(snap, main) + (if CountsAsHeading(p, main) then {Round2(p.fontSize)} else {})
  {
    KeysOfSnoc(snap, p, HeadingTest(main), SizeKey());
  }

  /** Pass 1: the loop over the paragraph snapshot. */
  method CollectHeadingSizes(snap: seq<Paragraph>, main: int) returns (sizes: set<int>)
    ensures sizes == HeadingSizes(snap, main)
  {
    sizes := {};
    for i := 0 to |snap|
      invariant sizes == HeadingSizes(snap[..i], main)
    {
      var para := snap[i];
      assert snap[..i + 1] == snap[..i] + [para];
      HeadingSizesSnoc(snap[..i], para, main);
      var text := Strip(para.text);
      if para.fontSize <= main + Epsilon {
        continue;
      }
      if |text| < MinLength {
        continue;
      }
      if IsNumeralOrBullet(text) {
        continue;
      }
      sizes := sizes + {Round2(para.fontSize)};
    }
    assert snap[..|snap|] == snap;
  }

  /** The position of `s` in `sorted(sizes, reverse=True)`, plus one: one more than the number of larger sizes. */
  function Rank(sizes: set<int>, s: int): (r: nat)
    ensures r >= 1
  {
    |set t | t in sizes && t > s| + 1
  }

  /** `size_to_level.get(size)`, falling back to level 1. */
  function LevelFor(sizes: set<int>, s: int): int {
    if s in sizes then Rank(sizes, s) else 1
  }

  lemma {:induction false} ProperSubsetSmaller(a: set<int>, b: set<int>, x: int)
    requires a <= b && x in b && x !in a
    ensures |a| < |b|
  {
    assert a <= b - {x};
    assert |b - {x}| == |b| - 1;
    SubsetNotLarger(a, b - {x});
  }

  lemma {:induction false} SubsetNotLarger(a: set<int>, b: set<int>)
    requires a <= b
    ensures |a| <= |b|
  {
    assert b == a + (b - a);
  }

  /** A strictly larger heading size gets a strictly smaller level, and levels lie in 1..|sizes|. */
  lemma {:induction false} RankOrder(sizes: set<int>, s: int, t: int)
    requires s in sizes && t in sizes
    ensures 1 <= Rank(sizes, s) <= |sizes|
    ensures s > t ==> Rank(sizes, s) < Rank(sizes, t)
    ensures s == t ==> Rank(sizes, s) == Rank(sizes, t)
  {
    var above := set u | u in sizes && u > s;
    assert above <= sizes - {s};
    SubsetNotLarger(above, sizes - {s});
    if s > t {
      var aboveT := set u | u in sizes && u > t;
      assert above <= aboveT;
      assert s in aboveT;
      ProperSubsetSmaller(above, aboveT, s);
    }
  }

  /** The tag pass 2 gives one paragraph on page `number`, and its `headings` entry if it is a heading. */
  function Classify(p: Paragraph, main: int, sizes: set<int>, number: int): (Paragraph, Option<HeadingEntry>) {
    var size := Round2(p.fontSize);
    var text := Strip(p.text);
    if size > main + Epsilon then
      if QualifyingText(p.text) then
        var level := LevelFor(sizes, size);
        (p.(headingLevel := level, isType := Heading), Some(HeadingEntry(text, level, size, number)))
      else (p.(headingLevel := 0, isType := Normal), None)
    else if Abs(size - main) <= Epsilon then (p.(headingLevel := 0, isType := Normal), None)
    else if size < main - Epsilon then (p.(headingLevel := -1, isType := Normal), None)
    else (p.(headingLevel := 0, isType := Normal), None)
  }

  /**
   * A paragraph becomes a heading exactly when its rounded size exceeds the main size by more
   * than epsilon and its stripped text qualifies; its level is then the rank of its size, and it
   * is reported with its stripped text, rounded size and page. Any other paragraph becomes body
   * text, with level -1 exactly when its rounded size is below the main size by more than epsilon.
   * Only the level and the tag change.
   */
  lemma {:induction false} ClassifySpec(p: Paragraph, main: int, sizes: set<int>, number: int)
    ensures var (q, e) := Classify(p, main, sizes, number);
            var size := Round2(p.fontSize);
            q == p.(headingLevel := q.headingLevel, isType := q.isType)
            && (q.isType == Heading <==> size > main + Epsilon && QualifyingText(p.text))
            && (q.isType != Heading ==> q.isType == Normal && e.None?
                                        && q.headingLevel == (if size < main - Epsilon then -1 else 0))
            && (q.isType == Heading ==> q.headingLevel == LevelFor(sizes, size) >= 1
                                        && e == Some(HeadingEntry(Strip(p.text), q.headingLevel, size, number)))
  {
    var size := Round2(p.fontSize);
    if size > main + Epsilon {
      if QualifyingText(p.text) {
      } else {
      }
    } else if Abs(size - main) <= Epsilon {
    } else if size < main - Epsilon {
    } else {
    }
  }

  /**
   * Pass 2 never needs the fallback level: a paragraph of the snapshot that is a heading in
   * pass 2 was counted in pass 1, because a rounded size above main + epsilon puts the raw size
   * above it too (the main size is itself a rounded size).
   */
  lemma {:induction false} FallbackLevelUnused(snap: seq<Paragraph>, p: Paragraph, main: int)
    requires p in snap && main % 100 == 0
    requires Round2(p.fontSize) > main + Epsilon && QualifyingText(p.text)
    ensures Round2(p.fontSize) in HeadingSizes(snap, main)
    ensures LevelFor(HeadingSizes(snap, main), Round2(p.fontSize)) == Rank(HeadingSizes(snap, main), Round2(p.fontSize))
  {
    RoundedAboveMain(p.fontSize, main);
    var i :| 0 <= i < |snap| && snap[i] == p;
    assert HeadingTest(main)(snap[i]);
  }

  /** A size that rounds above main + epsilon is itself above it, when main is a rounded size. */
  lemma {:induction false} RoundedAboveMain(x: int, main: int)
    requires main % 100 == 0 && Round2(x) > main + Epsilon
    ensures x > main + Epsilon
  {
    var r := Round2(x);
    var qr, qm := r / 100, main / 100;
    assert r == 100 * qr && main == 100 * qm;
    assert qr >= qm + 11;
  }

  /** Pass 2 over one page: the retagged paragraphs and the page's headings, in order. */
  function LevelPage(ps: seq<Paragraph>, main: int, sizes: set<int>, number: int): (r: (seq<Paragraph>, seq<HeadingEntry>))
    ensures |r.0| == |ps|
    decreases |ps|
  {
    if ps == [] then ([], [])
    else
      var init := LevelPage(ps[..|ps| - 1], main, sizes, number);
      var c := Classify(ps[|ps| - 1], main, sizes, number);
      (init.0 + [c.0], init.1 + (if c.1.Some? then [c.1.value] else []))
  }

  lemma {:induction false} LevelPageAt(ps: seq<Paragraph>, main: int, sizes: set<int>, number: int, k: nat)
    requires k < |ps|
    ensures LevelPage(ps, main, sizes, number).0[k] == Classify(ps[k], main, sizes, number).0
    decreases |ps|
  {
    if k < |ps| - 1 {
      LevelPageAt(ps[..|ps| - 1], main, sizes, number, k);
    }
  }

  lemma {:induction false} LevelPageSnoc(ps: seq<Paragraph>, i: nat, main: int, sizes: set<int>, number: int)
    requires i < |ps|
    ensures var init := LevelPage(ps[..i], main, sizes, number);
            var c := Classify(ps[i], main, sizes, number);
            LevelPage(ps[..i + 1], main, sizes, number).0 == init.0 + [c.0]
            && LevelPage(ps[..i + 1], main, sizes, number).1 == init.1 + (if c.1.Some? then [c.1.value] else [])
  {
    assert ps[..i + 1][..i] == ps[..i];
  }

  /** The body of the pass 2 loop for one paragraph. */
  method ClassifyParagraph(para: Paragraph, main: int, sizes: set<int>, number: int)
    returns (q: Paragraph, heading: Option<HeadingEntry>)
    ensures q == Classify(para, main, sizes, number).0 && heading == Classify(para, main, sizes, number).1
  {
    var size := Round2(para.fontSize);
    var text := Strip(para.text);
    ClassifyCases(para, main, sizes, number);
    var level: int;
    heading := None;
    if size > main + Epsilon {
      if |text| >= MinLength && !IsNumeralOrBullet(text) {
        level := LevelFor(sizes, size);
        q := para.(headingLevel := level, isType := Heading);
        heading := Some(HeadingEntry(text, level, size, number));
        return;
      } else {
        level := 0;
      }
    } else if Abs(size - main) <= Epsilon {
      level := 0;
    } else if size < main - Epsilon {
      level := -1;
    } else {
      level := 0;
    }
    q := para.(headingLevel := level, isType := Normal);
  }

  /** The two outcomes of `Classify`, with the size and the stripped text named. */
  lemma ClassifyCases(p: Paragraph, main: int, sizes: set<int>, number: int)
    ensures var size, text := Round2(p.fontSize), Strip(p.text);
            if size > main + Epsilon && |text| >= MinLength && !IsNumeralOrBullet(text) then
              Classify(p, main, sizes, number)
                == (p.(headingLevel := LevelFor(sizes, size), isType := Heading),
                    Some(HeadingEntry(text, LevelFor(sizes, size), size, number)))
            else
              Classify(p, main, sizes, number)
                == (p.(headingLevel := if size < main - Epsilon then -1 else 0, isType := Normal), None)
  {
  }

  /** Pass 2 over one page. */
  method LevelParagraphs(ps: seq<Paragraph>, main: int, sizes: set<int>, number: int)
    returns (qs: seq<Paragraph>, headings: seq<HeadingEntry>)
    ensures qs == LevelPage(ps, main, sizes, number).0 && headings == LevelPage(ps, main, sizes, number).1
  {
    qs := [];
    headings := [];
    for i := 0 to |ps|
      invariant qs == LevelPage(ps[..i], main, sizes, number).0
      invariant headings == LevelPage(ps[..i], main, sizes, number).1
    {
      LevelPageSnoc(ps, i, main, sizes, number);
      var q, heading := ClassifyParagraph(ps[i], main, sizes, number);
      qs := qs + [q];
      if heading.Some? {
        headings := headings + [heading.value];
      }
    }
    assert ps[..|ps|] == ps;
  }

  /** Without a main size every paragraph becomes body text at level 0. */
  function ResetPage(ps: seq<Paragraph>): (r: seq<Paragraph>)
    ensures |r| == |ps|
    ensures forall k :: 0 <= k < |ps| ==> r[k] == ps[k].(headingLevel := 0, isType := Normal)
  {
    seq(|ps|, k requires 0 <= k < |ps| => ps[k].(headingLevel := 0, isType := Normal))
  }

  function ResetPages(pages: seq<Page>): (r: seq<Page>)
    ensures |r| == |pages|
    ensures forall k :: 0 <= k < |pages| ==> r[k] == pages[k].(paragraphs := ResetPage(pages[k].paragraphs))
  {
    seq(|pages|, k requires 0 <= k < |pages| => pages[k].(paragraphs := ResetPage(pages[k].paragraphs)))
  }

  function LevelPages(pages: seq<Page>, main: int, sizes: set<int>): (r: seq<Page>)
    ensures |r| == |pages|
  {
    seq(|pages|, k requires 0 <= k < |pages| =>
      pages[k].(paragraphs := LevelPage(pages[k].paragraphs, main, sizes, pages[k].number).0))
  }

  function PageHeadings(pages: seq<Page>, main: int, sizes: set<int>): seq<HeadingEntry>
    decreases |pages|
  {
    if pages == [] then []
    else
      var p := pages[|pages| - 1];
      PageHeadings(pages[..|pages| - 1], main, sizes) + LevelPage(p.paragraphs, main, sizes, p.number).1
  }

  /** `_detect_headings`: the retagged pages and the `headings` list. */
  function DetectHeadings(pages: seq<Page>, snap: seq<Paragraph>, main: Option<int>): (r: (seq<Page>, seq<HeadingEntry>))
    ensures |r.0| == |pages|
  {
    if main.None? then (ResetPages(pages), [])
    else
      var sizes := HeadingSizes(snap, main.value);
      (LevelPages(pages, main.value, sizes), PageHeadings(pages, main.value, sizes))
  }

  /** Without a main size there are no headings and every paragraph is level-0 body text. */
  lemma NoMainSizeNoHeadings(pages: seq<Page>, snap: seq<Paragraph>, k: nat, j: nat)
    requires k < |pages| && j < |pages[k].paragraphs|
    ensures var r := DetectHeadings(pages, snap, None);
            r.1 == [] && r.0[k].paragraphs[j] == pages[k].paragraphs[j].(headingLevel := 0, isType := Normal)
  {
  }

  /**
   * With a main size, each paragraph is tagged by `Classify` against the sizes pass 1 collected
   * from the snapshot, and nothing but its paragraphs changes on a page.
   */
  lemma {:induction false} HeadingsAt(pages: seq<Page>, snap: seq<Paragraph>, main: int, k: nat, j: nat)
    requires k < |pages| && j < |pages[k].paragraphs|
    ensures var r := DetectHeadings(pages, snap, Some(main));
            r.0[k] == pages[k].(paragraphs := r.0[k].paragraphs)
            && |r.0[k].paragraphs| == |pages[k].paragraphs|
            && r.0[k].paragraphs[j]
               == Classify(pages[k].paragraphs[j], main, HeadingSizes(snap, main), pages[k].number).0
  {
    LevelPageAt(pages[k].paragraphs, main, HeadingSizes(snap, main), pages[k].number, j);
  }

  /**
   * Two headings of the same document: the one with the larger rounded size has the smaller
   * level, and two headings of equal size share a level.
   */
  lemma {:induction false} HeadingLevelsRanked(snap: seq<Paragraph>, main: int, p: Paragraph, q: Paragraph, n1: int, n2: int)
    requires p in snap && q in snap && main % 100 == 0
    requires Classify(p, main, HeadingSizes(snap, main), n1).0.isType == Heading
    requires Classify(q, main, HeadingSizes(snap, main), n2).0.isType == Heading
    ensures var lp := Classify(p, main, HeadingSizes(snap, main), n1).0.headingLevel;
            var lq := Classify(q, main, HeadingSizes(snap, main), n2).0.headingLevel;
            1 <= lp <= |HeadingSizes(snap, main)|
            && (Round2(p.fontSize) > Round2(q.fontSize) ==> lp < lq)
            && (Round2(p.fontSize) == Round2(q.fontSize) ==> lp == lq)
  {
    var sizes := HeadingSizes(snap, main);
    ClassifySpec(p, main, sizes, n1);
    ClassifySpec(q, main, sizes, n2);
    FallbackLevelUnused(snap, p, main);
    FallbackLevelUnused(snap, q, main);
    RankOrder(sizes, Round2(p.fontSize), Round2(q.fontSize));
  }

  /** What a `headings` entry records: a qualifying stripped text above the main size, a level of 1 or more, its page. */
  predicate EntryOk(h: HeadingEntry, main: int, numbers: set<int>) {
    h.level >= 1 && |h.text| >= MinLength && !IsNumeralOrBullet(h.text)
    && h.fontSize > main + Epsilon && h.fontSize % 100 == 0 && h.page in numbers
  }

  lemma {:induction false} LevelPageEntries(ps: seq<Paragraph>, main: int, sizes: set<int>, number: int, h: HeadingEntry)
    requires h in LevelPage(ps, main, sizes, number).1
    ensures EntryOk(h, main, {number})
    decreases |ps|
  {
    var init := LevelPage(ps[..|ps| - 1], main, sizes, number);
    var p := ps[|ps| - 1];
    if h in init.1 {
      LevelPageEntries(ps[..|ps| - 1], main, sizes, number, h);
    } else {
      ClassifySpec(p, main, sizes, number);
      assert QualifyingText(p.text);
    }
  }

  /** Every page number of `pages`. */
  function Numbers(pages: seq<Page>): (r: set<int>)
    ensures forall k :: 0 <= k < |pages| ==> pages[k].number in r
    ensures forall n :: n in r ==> exists k :: 0 <= k < |pages| && pages[k].number == n
  {
    set k | 0 <= k < |pages| :: pages[k].number
  }

  /** Every entry of the `headings` list is a qualifying heading of one of the document's pages. */
  lemma {:induction false} HeadingEntriesOk(pages: seq<Page>, main: int, sizes: set<int>, h: HeadingEntry)
    requires h in PageHeadings(pages, main, sizes)
    ensures EntryOk(h, main, Numbers(pages))
    decreases |pages|
  {
    var init := pages[..|pages| - 1];
    var p := pages[|pages| - 1];
    if h in PageHeadings(init, main, sizes) {
      HeadingEntriesOk(init, main, sizes, h);
      var n := Numbers(init);
      assert h.page in n;
      var k :| 0 <= k < |init| && init[k].number == h.page;
      assert pages[k].number == h.page;
    } else {
      LevelPageEntries(p.paragraphs, main, sizes, p.number, h);
      assert pages[|pages| - 1].number == h.page;
    }
  }

  /** Without a main size: every paragraph of a page becomes level-0 body text. */
  method ResetParagraphs(ps: seq<Paragraph>) returns (qs: seq<Paragraph>)
    ensures qs == ResetPage(ps)
  {
    qs := [];
    for i := 0 to |ps|
      invariant |qs| == i && forall j :: 0 <= j < i ==> qs[j] == ps[j].(headingLevel := 0, isType := Normal)
    {
      var para := ps[i];
      qs := qs + [para.(headingLevel := 0, isType := Normal)];
    }
  }

  lemma {:induction false} PageHeadingsSnoc(pages: seq<Page>, i: nat, main: int, sizes: set<int>)
    requires i < |pages|
    ensures PageHeadings(pages[..i + 1], main, sizes)
            == PageHeadings(pages[..i], main, sizes) + LevelPage(pages[i].paragraphs, main, sizes, pages[i].number).1
  {
    assert pages[..i + 1][..i] == pages[..i];
  }

  lemma {:induction false} LevelPagesSnoc(pages: seq<Page>, i: nat, main: int, sizes: set<int>)
    requires i < |pages|
    ensures LevelPages(pages[..i + 1], main, sizes)
            == LevelPages(pages[..i], main, sizes)
               + [pages[i].(paragraphs := LevelPage(pages[i].paragraphs, main, sizes, pages[i].number).0)]
  {
    var a := LevelPages(pages[..i + 1], main, sizes);
    var b := LevelPages(pages[..i], main, sizes)
             + [pages[i].(paragraphs := LevelPage(pages[i].paragraphs, main, sizes, pages[i].number).0)];
    forall k | 0 <= k < |a|
      ensures a[k] == b[k]
    {
      assert pages[..i + 1][k] == pages[k];
    }
  }

  /** `_detect_headings`: pass 1 over the snapshot, then pass 2 page by page. */
  method DetectHeadingsIn(pages: seq<Page>, snap: seq<Paragraph>, main: Option<int>)
    returns (r: seq<Page>, headings: seq<HeadingEntry>)
    ensures r == DetectHeadings(pages, snap, main).0 && headings == DetectHeadings(pages, snap, main).1
  {
    if main.None? {
      r := ResetAllPages(pages);
      headings := [];
      return;
    }
    var m := main.value;
    var sizes := CollectHeadingSizes(snap, m);
    r, headings := LevelAllPages(pages, m, sizes);
  }

  /** The page loop of `_detect_headings` without a main size. */
  method ResetAllPages(pages: seq<Page>) returns (r: seq<Page>)
    ensures r == ResetPages(pages)
  {
    r := [];
    for i := 0 to |pages|
      invariant |r| == i && forall j :: 0 <= j < i ==> r[j] == ResetPages(pages)[j]
    {
      var qs := ResetParagraphs(pages[i].paragraphs);
      r := r + [pages[i].(paragraphs := qs)];
    }
  }

  /** Pass 2 of `_detect_headings`, page by page. */
  method LevelAllPages(pages: seq<Page>, m: int, sizes: set<int>) returns (r: seq<Page>, headings: seq<HeadingEntry>)
    ensures r == LevelPages(pages, m, sizes) && headings == PageHeadings(pages, m, sizes)
  {
    r, headings := [], [];
    for i := 0 to |pages|
      invariant r == LevelPages(pages[..i], m, sizes)
      invariant headings == PageHeadings(pages[..i], m, sizes)
    {
      PageHeadingsSnoc(pages, i, m, sizes);
      LevelPagesSnoc(pages, i, m, sizes);
      var qs, hs := LevelParagraphs(pages[i].paragraphs, m, sizes, pages[i].number);
      r := r + [pages[i].(paragraphs := qs)];
      headings := headings + hs;
    }
    assert pages[..|pages|] == pages;
  }
}
