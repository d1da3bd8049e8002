/**
 * The pure layer of the PDF loader (`UniversalPDFLoader`): positioned characters become lines,
 * lines become paragraphs, URLs are attached to paragraphs in two passes, tables are cleaned and
 * flattened, and the per-page text and link bookkeeping of `load_pdf` is done.
 *
 * PDF decoding is not modelled: a page is given as its characters, its extracted text, its
 * annotation URIs and its raw tables. MD5, the URL regex, `urlparse(..).netloc` and `langdetect`
 * are parameters (`Libs`).
 */
module Loader {
  import opened Wrappers
  import opened Strings
  import opened DocModel

  /** `merge_threshold_factor = 1.5` and `font_size_tolerance = 0.2` pt, written out in `StartsNew`. */
  /** `_safe_detect_language(.., min_length=20)` */
  const MinSampleLength: nat := 20
  /** The language sample is the first 5 page texts, cut to 10000 characters. */
  const SamplePages: nat := 5
  const SampleChars: nat := 10000

  /** One character of `page.chars`: its text, `size`, `fontname` and `top`. */
  datatype PdfChar = PdfChar(text: string, size: int, fontName: string, top: int)

  /** The foreign functions the loader calls. */
  datatype Libs = Libs(
    md5: string -> string,          // hashlib.md5(s.encode("utf-8")).hexdigest()
    findUrls: string -> seq<string>, // re.findall of the URL pattern
    netloc: string -> string,       // urlparse(url).netloc
    detect: string -> string)       // langdetect.detect

  /** A visual line: every character whose `top` rounds to `y`. */
  datatype Line = Line(y: int, text: string, maxSize: int, fontNames: seq<string>)

  // ---------------------------------------------------------------------------------------
  // Characters to lines
  // ---------------------------------------------------------------------------------------

  function RoundedTops(cs: seq<PdfChar>): (r: seq<int>)
    ensures |r| == |cs| && forall i :: 0 <= i < |cs| ==> r[i] == Round1(cs[i].top)
  {
    seq(|cs|, i requires 0 <= i < |cs| => Round1(cs[i].top))
  }

  /** The characters of the line at `y`, in `page.chars` order. */
  function CharsAt(cs: seq<PdfChar>, y: int): (r: seq<PdfChar>)
    ensures forall c :: c in r ==> c in cs && Round1(c.top) == y
    ensures |r| <= |cs|
    decreases |cs|
  {
    if cs == [] then []
    else
      var c := cs[|cs| - 1];
      CharsAt(cs[..|cs| - 1], y) + (if Round1(c.top) == y then [c] else [])
  }

  lemma {:induction false} CharsAtNonEmpty(cs: seq<PdfChar>, y: int)
    requires y in RoundedTops(cs)
    ensures CharsAt(cs, y) != []
    decreases |cs|
  {
    var c := cs[|cs| - 1];
    if Round1(c.top) != y {
      assert y in RoundedTops(cs[..|cs| - 1]) by {
        var i :| 0 <= i < |cs| && RoundedTops(cs)[i] == y;
        assert i < |cs| - 1;
        assert RoundedTops(cs[..|cs| - 1])[i] == y;
      }
      CharsAtNonEmpty(cs[..|cs| - 1], y);
    }
  }

  function ConcatTexts(cs: seq<PdfChar>): string
    decreases |cs|
  {
    if cs == [] then "" else ConcatTexts(cs[..|cs| - 1]) + cs[|cs| - 1].text
  }

  function MaxSize(cs: seq<PdfChar>): (m: int)
    requires cs != []
    ensures forall c :: c in cs ==> c.size <= m
    ensures exists c :: c in cs && c.size == m
    decreases |cs|
  {
    if |cs| == 1 then cs[0].size
    else
      var m := MaxSize(cs[..|cs| - 1]);
      assert cs == cs[..|cs| - 1] + [cs[|cs| - 1]];
      Max(m, cs[|cs| - 1].size)
  }

  function FontNames(cs: seq<PdfChar>): (r: seq<string>)
    ensures |r| == |cs| && forall i :: 0 <= i < |cs| ==> r[i] == cs[i].fontName
  {
    seq(|cs|, i requires 0 <= i < |cs| => cs[i].fontName)
  }

  /** The line built from the (non-empty) characters at `y`: stripped text, largest size, font set. */
  function LineOf(y: int, cs: seq<PdfChar>): (l: Line)
    requires cs != []
    ensures l.y == y
  {
    Line(y, Strip(ConcatTexts(cs)), MaxSize(cs), Dedup(FontNames(cs)))
  }

  /** The line keys of a page, ascending: `sorted(y_positions.keys())`. */
  function LineKeys(cs: seq<PdfChar>): seq<int> {
    SortAsc(Dedup(RoundedTops(cs)))
  }

  /** The keys are strictly ascending, each once, and exactly the keys that occur. */
  lemma {:induction false} LineKeysSpec(cs: seq<PdfChar>)
    ensures SortedAsc(LineKeys(cs))
    ensures forall y :: y in LineKeys(cs) <==> y in RoundedTops(cs)
    ensures forall i, j :: 0 <= i < j < |LineKeys(cs)| ==> LineKeys(cs)[i] != LineKeys(cs)[j]
  {
    var keys := Dedup(RoundedTops(cs));
    var ys := SortAsc(keys);
    assert forall y :: y in ys <==> y in keys by {
      forall y ensures y in ys <==> y in keys {
        assert y in ys <==> y in multiset(ys);
        assert y in keys <==> y in multiset(keys);
      }
    }
    assert forall i, j :: 0 <= i < j < |ys| ==> ys[i] != ys[j] by {
      forall i, j | 0 <= i < j < |ys| ensures ys[i] != ys[j] {
        DistinctCount(keys, ys[i]);
        CountOnce(ys, i, j);
      }
    }
  }

  lemma {:induction false} DistinctCount(xs: seq<int>, x: int)
    requires forall i, j :: 0 <= i < j < |xs| ==> xs[i] != xs[j]
    ensures multiset(xs)[x] <= 1
    decreases |xs|
  {
    if xs != [] {
      assert xs == [xs[0]] + xs[1..];
      DistinctCount(xs[1..], x);
      if xs[0] == x {
        assert x !in xs[1..];
      }
    }
  }

  /** An element that occurs once sits at one index only. */
  lemma {:induction false} CountOnce(xs: seq<int>, i: int, j: int)
    requires 0 <= i < j < |xs| && multiset(xs)[xs[i]] <= 1
    ensures xs[i] != xs[j]
  {
    assert xs == xs[..i] + [xs[i]] + xs[i + 1..j] + [xs[j]] + xs[j + 1..];
  }

  /** The non-blank lines at the keys `ys`, in key order (blank lines are skipped). */
  function LinesAt(cs: seq<PdfChar>, ys: seq<int>): (r: seq<Line>)
    ensures forall l :: l in r ==> l.text != ""
    ensures |r| <= |ys|
    decreases |ys|
  {
    if ys == [] then []
    else
      var y := ys[|ys| - 1];
      var chars := CharsAt(cs, y);
      // every key has at least one character (`CharsAtNonEmpty`); the guard only keeps `max` defined
      var tail := if chars != [] && LineOf(y, chars).text != "" then [LineOf(y, chars)] else [];
      LinesAt(cs, ys[..|ys| - 1]) + tail
  }

  /** The lines of a page, top to bottom. */
  function Lines(cs: seq<PdfChar>): seq<Line> {
    LinesAt(cs, LineKeys(cs))
  }

  // ---------------------------------------------------------------------------------------
  // Lines to paragraphs
  // ---------------------------------------------------------------------------------------

  /** A line opens a new paragraph when its gap or its size change to the previous line is too large. */
  predicate StartsNew(prev: Line, cur: Line) {
    // |y - prev_y| > prev_font_size * 1.5  or  |max_size - prev_font_size| > 0.2
    2 * Abs(cur.y - prev.y) > 3 * prev.maxSize
    || Abs(cur.maxSize - prev.maxSize) > 2000
  }

  /** The paragraph a line opens: its text, size and position, the hash of its (stripped) text. */
  function OpenParagraph(l: Line, libs: Libs): Paragraph {
    Paragraph(l.text, l.maxSize, l.fontNames, libs.md5(Strip(l.text)), l.y, [], 0, Normal)
  }

  /** Paragraphs of a line sequence, before any links are attached. */
  function GroupLines(lines: seq<Line>, libs: Libs): (r: seq<Paragraph>)
    ensures |lines| > 0 <==> |r| > 0
    decreases |lines|
  {
    if lines == [] then []
    else
      var ps := GroupLines(lines[..|lines| - 1], libs);
      var l := lines[|lines| - 1];
      if |lines| == 1 || StartsNew(lines[|lines| - 2], l) then ps + [OpenParagraph(l, libs)]
      else
        var last := ps[|ps| - 1];
        ps[..|ps| - 1] + [last.(text := last.text + (" " + l.text))]
  }

  /** The indices of the lines that open a paragraph. */
  function Starts(lines: seq<Line>): (r: seq<nat>)
    ensures forall k :: 0 <= k < |r| ==> r[k] < |lines|
    ensures forall j, k :: 0 <= j < k < |r| ==> r[j] < r[k]
    decreases |lines|
  {
    if lines == [] then []
    else
      var n := |lines|;
      Starts(lines[..n - 1]) + (if n == 1 || StartsNew(lines[n - 2], lines[n - 1]) then [n - 1] else [])
  }

  /** The paragraph-breaking rule: line `i` opens a paragraph iff it is the first or `StartsNew` holds. */
  lemma {:induction false} StartsIff(lines: seq<Line>, i: nat)
    requires i < |lines|
    ensures i in Starts(lines) <==> i == 0 || StartsNew(lines[i - 1], lines[i])
    decreases |lines|
  {
    var n := |lines|;
    if i < n - 1 {
      StartsIff(lines[..n - 1], i);
      assert lines[..n - 1][i] == lines[i];
      if i > 0 { assert lines[..n - 1][i - 1] == lines[i - 1]; }
    }
  }

  function ParagraphTexts(ps: seq<Paragraph>): (r: seq<string>)
    ensures |r| == |ps| && forall i :: 0 <= i < |ps| ==> r[i] == ps[i].text
  {
    seq(|ps|, i requires 0 <= i < |ps| => ps[i].text)
  }

  function LineTexts(ls: seq<Line>): (r: seq<string>)
    ensures |r| == |ls| && forall i :: 0 <= i < |ls| ==> r[i] == ls[i].text
  {
    seq(|ls|, i requires 0 <= i < |ls| => ls[i].text)
  }

  /** There is one paragraph per line that opens one. */
  lemma {:induction false} GroupLinesCount(lines: seq<Line>, libs: Libs)
    ensures |GroupLines(lines, libs)| == |Starts(lines)|
    decreases |lines|
  {
    if lines != [] {
      GroupLinesCount(lines[..|lines| - 1], libs);
    }
  }

  /** Each paragraph keeps the size, position, fonts and text hash of the line that opened it. */
  lemma {:induction false} GroupLinesFirstLine(lines: seq<Line>, libs: Libs, k: nat)
    requires k < |Starts(lines)| && k < |GroupLines(lines, libs)|
    ensures var p := GroupLines(lines, libs)[k]; var l := lines[Starts(lines)[k]];
      p.fontSize == l.maxSize && p.y == l.y && p.fontNames == l.fontNames
      && p.textHash == libs.md5(Strip(l.text))
      && p.links == [] && p.headingLevel == 0 && p.isType == Normal
    decreases |lines|
  {
    var n := |lines|;
    var init := lines[..n - 1];
    var l := lines[n - 1];
    var ps := GroupLines(init, libs);
    var r := GroupLines(lines, libs);
    GroupLinesCount(init, libs);
    var opens := n == 1 || StartsNew(lines[n - 2], l);
    assert Starts(lines) == Starts(init) + (if opens then [n - 1] else []);
    if k < |Starts(init)| {
      GroupLinesFirstLine(init, libs, k);
      assert init[Starts(init)[k]] == lines[Starts(init)[k]];
      if opens {
        assert r == ps + [OpenParagraph(l, libs)];
        assert r[k] == ps[k];
      } else {
        var last := ps[|ps| - 1];
        assert r == ps[..|ps| - 1] + [last.(text := last.text + (" " + l.text))];
        if k < |ps| - 1 {
          assert r[k] == ps[k];
        } else {
          assert r[k] == ps[k].(text := ps[k].text + (" " + l.text));
        }
      }
    } else {
      assert opens && Starts(lines)[k] == n - 1;
      assert r == ps + [OpenParagraph(l, libs)];
    }
  }

  /** Joining the paragraph texts with spaces gives the line texts joined with spaces: no text is lost. */
  lemma {:induction false} GroupLinesText(lines: seq<Line>, libs: Libs)
    ensures Join(" ", ParagraphTexts(GroupLines(lines, libs))) == Join(" ", LineTexts(lines))
    decreases |lines|
  {
    if |lines| == 1 {
      GroupTextsOpen(lines, libs);
      assert LineTexts(lines) == [lines[0].text];
    } else if |lines| > 1 {
      var init := lines[..|lines| - 1];
      var t := lines[|lines| - 1].text;
      GroupLinesText(init, libs);
      if StartsNew(lines[|lines| - 2], lines[|lines| - 1]) {
        JoinTextsOpen(lines, libs);
      } else {
        JoinTextsMerge(lines, libs);
      }
      LineTextsSnoc(lines);
      JoinGlue(ParagraphTexts(GroupLines(init, libs)), LineTexts(init),
               ParagraphTexts(GroupLines(lines, libs)), LineTexts(lines), t);
    }
  }

  lemma LineTextsSnoc(lines: seq<Line>)
    requires |lines| >= 2
    ensures LineTexts(lines) == LineTexts(lines[..|lines| - 1]) + [lines[|lines| - 1].text]
  {
  }

  lemma {:induction false} JoinGlue(pt: seq<string>, lt: seq<string>, pt2: seq<string>, lt2: seq<string>, t: string)
    requires lt != [] && Join(" ", pt) == Join(" ", lt)
    requires Join(" ", pt2) == Join(" ", pt) + " " + t && lt2 == lt + [t]
    ensures Join(" ", pt2) == Join(" ", lt2)
  {
    JoinSnoc(" ", lt, t);
  }

  lemma {:induction false} JoinTextsOpen(lines: seq<Line>, libs: Libs)
    requires |lines| >= 2 && StartsNew(lines[|lines| - 2], lines[|lines| - 1])
    ensures Join(" ", ParagraphTexts(GroupLines(lines, libs)))
         == Join(" ", ParagraphTexts(GroupLines(lines[..|lines| - 1], libs))) + " " + lines[|lines| - 1].text
  {
    var pt := ParagraphTexts(GroupLines(lines[..|lines| - 1], libs));
    GroupTextsOpen(lines, libs);
    JoinSnoc(" ", pt, lines[|lines| - 1].text);
  }

  lemma {:induction false} JoinTextsMerge(lines: seq<Line>, libs: Libs)
    requires |lines| >= 2 && !StartsNew(lines[|lines| - 2], lines[|lines| - 1])
    ensures Join(" ", ParagraphTexts(GroupLines(lines, libs)))
         == Join(" ", ParagraphTexts(GroupLines(lines[..|lines| - 1], libs))) + " " + lines[|lines| - 1].text
  {
    var l := lines[|lines| - 1];
    var pt := ParagraphTexts(GroupLines(lines[..|lines| - 1], libs));
    GroupTextsMerge(lines, libs);
    JoinExtendLast(" ", pt, " " + l.text);
    SeqAssoc(Join(" ", pt), " ", l.text);
  }

  lemma SeqAssoc(a: string, b: string, c: string)
    ensures a + (b + c) == a + b + c
  {
  }

  /** A line that opens a paragraph adds its text as a new last paragraph text. */
  lemma GroupTextsOpen(lines: seq<Line>, libs: Libs)
    requires |lines| == 1 || (|lines| >= 2 && StartsNew(lines[|lines| - 2], lines[|lines| - 1]))
    ensures ParagraphTexts(GroupLines(lines, libs))
      == ParagraphTexts(GroupLines(lines[..|lines| - 1], libs)) + [lines[|lines| - 1].text]
  {
  }

  /** A line that continues a paragraph extends the last paragraph text by a space and its text. */
  lemma {:induction false} GroupTextsMerge(lines: seq<Line>, libs: Libs)
    requires |lines| >= 2 && !StartsNew(lines[|lines| - 2], lines[|lines| - 1])
    ensures var n := |lines|; var l := lines[n - 1];
      var pt := ParagraphTexts(GroupLines(lines[..n - 1], libs));
      ParagraphTexts(GroupLines(lines, libs)) == pt[..|pt| - 1] + [pt[|pt| - 1] + (" " + l.text)]
  {
    var n := |lines|;
    var ps := GroupLines(lines[..n - 1], libs);
    var last := ps[|ps| - 1];
    assert GroupLines(lines, libs) == ps[..|ps| - 1] + [last.(text := last.text + (" " + lines[n - 1].text))];
    TextsExtendLast(ps, " " + lines[n - 1].text);
  }

  lemma TextsExtendLast(ps: seq<Paragraph>, suffix: string)
    requires ps != []
    ensures var last := ps[|ps| - 1]; var pt := ParagraphTexts(ps);
      ParagraphTexts(ps[..|ps| - 1] + [last.(text := last.text + suffix)]) == pt[..|pt| - 1] + [pt[|pt| - 1] + suffix]
  {
  }

  /** The paragraphs of a page's characters, before links are attached. */
  function BaseParagraphs(cs: seq<PdfChar>, libs: Libs): seq<Paragraph> {
    GroupLines(Lines(cs), libs)
  }

  // ---------------------------------------------------------------------------------------
  // Domains and links
  // ---------------------------------------------------------------------------------------

  /** `_extract_text_links`: nothing for an empty text, else every match of the URL pattern. */
  function TextLinks(libs: Libs, text: string): (r: seq<string>)
    ensures text == "" ==> r == []
  {
    if text == "" then [] else libs.findUrls(text)
  }

  /** `s.lstrip(chars)`: drops leading characters that belong to `chars`. */
  function LStripChars(s: string, chars: set<char>): (r: string)
    ensures |r| <= |s|
    decreases |s|
  {
    if s != [] && s[0] in chars then LStripChars(s[1..], chars) else s
  }

  /** What `lstrip` keeps is a suffix that does not start with a stripped character; all it drops is in `chars`. */
  lemma {:induction false} LStripCharsSpec(s: string, chars: set<char>)
    ensures var r := LStripChars(s, chars);
      r == s[|s| - |r|..]
      && (r == [] || r[0] !in chars)
      && forall i :: 0 <= i < |s| - |r| ==> s[i] in chars
    decreases |s|
  {
    if s != [] && s[0] in chars {
      LStripCharsSpec(s[1..], chars);
      var r := LStripChars(s, chars);
      assert forall i :: 1 <= i < |s| - |r| ==> s[i] == s[1..][i - 1];
    }
  }

  /** `_extract_domain_from_url` once the netloc is known: lowercase, then strip leading 'w' and '.'. */
  function DomainOfNetloc(netloc: string): (d: string)
    ensures d == [] || (d[0] != 'w' && d[0] != '.')
  {
    LStripCharsSpec(Lower(netloc), {'w', '.'});
    LStripChars(Lower(netloc), {'w', '.'})
  }

  function DomainOf(libs: Libs, url: string): string {
    DomainOfNetloc(libs.netloc(url))
  }

  /** `lstrip` drops a prefix made only of stripped characters when what follows does not start with one. */
  lemma {:induction false} LStripPrefix(p: string, d: string, chars: set<char>)
    requires forall i :: 0 <= i < |p| ==> p[i] in chars
    requires d == [] || d[0] !in chars
    ensures LStripChars(p + d, chars) == d
    decreases |p|
  {
    if p == [] {
      assert p + d == d;
    } else {
      assert (p + d)[1..] == p[1..] + d;
      LStripPrefix(p[1..], d, chars);
    }
  }

  /**
   * `lstrip("www.")` removes a leading "www.", in any case: a run of 'w', 'W' and '.' in front of a
   * lower-case domain that does not start with 'w' or '.' (as in "WWW.fhnw.ch") leaves that domain ...
   */
  lemma {:induction false} DomainDropsWww(p: string, d: string)
    requires forall i :: 0 <= i < |p| ==> p[i] == 'w' || p[i] == 'W' || p[i] == '.'
    requires forall i :: 0 <= i < |d| ==> !IsUpper(d[i])
    requires d == [] || (d[0] != 'w' && d[0] != '.')
    ensures DomainOfNetloc(p + d) == d
  {
    LowerAppend(p, d);
    LowerNoCapitals(d);
    LStripPrefix(Lower(p), d, {'w', '.'});
  }

  /** ... but it strips a character set, not a prefix: a domain starting with 'w' loses that letter. */
  lemma DomainStripsCharacterSet()
    ensures DomainOfNetloc("web.de") == "eb.de"
  {
  }

  predicate IsDomainSeparator(c: char) { c == '.' || c == '-' || c == '/' }

  /** `re.split(r"[.\-/]", s)`: the pieces between separators, empty pieces included. */
  function SplitDomain(s: string): (r: seq<string>)
    ensures |r| >= 1
    ensures forall k :: 0 <= k < |r| ==> forall i :: 0 <= i < |r[k]| ==> !IsDomainSeparator(r[k][i])
    decreases |s|
  {
    if s == [] then [""]
    else
      var rest := SplitDomain(s[1..]);
      if IsDomainSeparator(s[0]) then [""] + rest
      else [[s[0]] + rest[0]] + rest[1..]
  }

  function CountSeparators(s: string): nat
    decreases |s|
  {
    if s == [] then 0 else (if IsDomainSeparator(s[0]) then 1 else 0) + CountSeparators(s[1..])
  }

  /** `s` with its separators removed. */
  function WithoutSeparators(s: string): string
    decreases |s|
  {
    if s == [] then [] else (if IsDomainSeparator(s[0]) then [] else [s[0]]) + WithoutSeparators(s[1..])
  }

  /** There is one piece more than there are separators, and the pieces together hold every other character. */
  lemma {:induction false} SplitDomainPieces(s: string)
    ensures |SplitDomain(s)| == 1 + CountSeparators(s)
    ensures Join("", SplitDomain(s)) == WithoutSeparators(s)
  {
    SplitDomainCount(s);
    SplitDomainJoin(s);
  }

  lemma {:induction false} SplitDomainCount(s: string)
    ensures |SplitDomain(s)| == 1 + CountSeparators(s)
    decreases |s|
  {
    if s != [] {
      SplitDomainCount(s[1..]);
    }
  }

  lemma {:induction false} SplitDomainJoin(s: string)
    ensures Join("", SplitDomain(s)) == WithoutSeparators(s)
    decreases |s|
  {
    if s != [] {
      var rest := SplitDomain(s[1..]);
      SplitDomainJoin(s[1..]);
      assert [rest[0]] + rest[1..] == rest;
      JoinEmptyCons(rest[0], rest[1..]);
      if IsDomainSeparator(s[0]) {
        assert SplitDomain(s) == [""] + rest;
        JoinEmptyCons("", rest);
      } else {
        assert SplitDomain(s) == [[s[0]] + rest[0]] + rest[1..];
        JoinEmptyCons([s[0]] + rest[0], rest[1..]);
        assert WithoutSeparators(s) == [s[0]] + WithoutSeparators(s[1..]);
      }
    }
  }

  /** Joining with nothing in between is plain concatenation. */
  lemma {:induction false} JoinEmptyCons(a: string, t: seq<string>)
    ensures Join("", [a] + t) == a + Join("", t)
  {
    assert ([a] + t)[1..] == t;
  }

  lemma {:induction false} JoinCons(sep: string, a: string, t: seq<string>)
    ensures Join(sep, [a] + t) == if t == [] then a else a + sep + Join(sep, t)
  {
    assert ([a] + t)[1..] == t;
  }

  /** Some non-empty piece of `tokens` occurs in `lowered`. */
  function AnyTokenIn(lowered: string, tokens: seq<string>): (b: bool)
    ensures b <==> exists k :: 0 <= k < |tokens| && tokens[k] != "" && Contains(lowered, Lower(tokens[k]))
    decreases |tokens|
  {
    if tokens == [] then false
    else if tokens[0] != "" && Contains(lowered, Lower(tokens[0])) then true
    else
      assert forall k :: 1 <= k < |tokens| ==> tokens[k] == tokens[1..][k - 1];
      AnyTokenIn(lowered, tokens[1..])
  }

  /** `_text_matches_domain` */
  function TextMatchesDomain(text: string, domain: string): (b: bool)
    ensures text == "" || domain == "" ==> !b
    ensures text != "" && domain != "" && Contains(Lower(text), domain) ==> b
  {
    if text == "" || domain == "" then false
    else Contains(Lower(text), domain) || AnyTokenIn(Lower(text), SplitDomain(domain))
  }

  /** A piece of the domain found in the text is a match, even when the whole domain is not there. */
  lemma TokenMatch(text: string, domain: string, k: nat)
    requires text != "" && domain != "" && k < |SplitDomain(domain)|
    requires SplitDomain(domain)[k] != "" && Contains(Lower(text), Lower(SplitDomain(domain)[k]))
    ensures TextMatchesDomain(text, domain)
  {
  }

  predicate IsLabel(a: string) {
    forall i :: 0 <= i < |a| ==> !IsDomainSeparator(a[i])
  }

  lemma {:induction false} SplitLabel(a: string)
    requires IsLabel(a)
    ensures SplitDomain(a) == [a]
    decreases |a|
  {
    if a != [] {
      SplitLabel(a[1..]);
      assert [a[0]] + a[1..] == a;
    }
  }

  lemma {:induction false} SplitAfterLabel(a: string, c: char, b: string)
    requires IsLabel(a) && IsDomainSeparator(c)
    ensures SplitDomain(a + [c] + b) == [a] + SplitDomain(b)
    decreases |a|
  {
    var s := a + [c] + b;
    if a == [] {
      assert s[1..] == b;
    } else {
      assert s[1..] == a[1..] + [c] + b;
      SplitAfterLabel(a[1..], c, b);
      assert [a[0]] + a[1..] == a;
    }
  }

  /**
   * Matching by pieces over-matches: a two-label domain such as "fhnw.ch" matches every text that
   * contains its last label, e.g. "Architecture" for "ch".
   */
  lemma {:induction false} ShortLabelOverMatches(text: string, a: string, b: string)
    requires IsLabel(a) && IsLabel(b) && b != ""
    requires Contains(Lower(text), Lower(b))
    ensures TextMatchesDomain(text, a + "." + b)
  {
    SplitAfterLabel(a, '.', b);
    SplitLabel(b);
    assert a + "." + b == a + ['.'] + b;
    assert |Lower(text)| >= |Lower(b)| > 0 by {
      var i :| OccursAt(Lower(text), Lower(b), i);
    }
    TokenMatch(text, a + "." + b, 1);
  }

  /** The index of the first paragraph whose text matches `domain`. */
  function FirstMatch(ps: seq<Paragraph>, domain: string): (r: Option<nat>)
    ensures r.Some? ==> (r.value < |ps| && TextMatchesDomain(ps[r.value].text, domain)
                         && forall j :: 0 <= j < r.value ==> !TextMatchesDomain(ps[j].text, domain))
    ensures r.None? ==> forall j :: 0 <= j < |ps| ==> !TextMatchesDomain(ps[j].text, domain)
  {
    FirstMatchFrom(ps, domain, 0)
  }

  /** The first match at or after position `i`. */
  function FirstMatchFrom(ps: seq<Paragraph>, domain: string, i: nat): (r: Option<nat>)
    requires i <= |ps|
    ensures r.Some? ==> (i <= r.value < |ps| && TextMatchesDomain(ps[r.value].text, domain)
                         && forall j :: i <= j < r.value ==> !TextMatchesDomain(ps[j].text, domain))
    ensures r.None? ==> forall j :: i <= j < |ps| ==> !TextMatchesDomain(ps[j].text, domain)
    decreases |ps| - i
  {
    if i == |ps| then None
    else if TextMatchesDomain(ps[i].text, domain) then Some(i)
    else FirstMatchFrom(ps, domain, i + 1)
  }

  /** Every URL found in the text of some paragraph. */
  function TextLinkSet(libs: Libs, ps: seq<Paragraph>): set<string> {
    set k, u | 0 <= k < |ps| && u in TextLinks(libs, ps[k].text) :: u
  }

  /** The known URIs that pass 2 attaches: a non-empty domain that some paragraph matches. */
  function DomainLinks(libs: Libs, ps: seq<Paragraph>, known: set<string>): set<string> {
    set u | u in known && Target(libs, ps, u).Some?
  }

  /** The paragraph pass 2 picks for `u`: the first one matching its domain, when the domain is not empty. */
  function Target(libs: Libs, ps: seq<Paragraph>, u: string): (r: Option<nat>)
    ensures r.Some? ==> DomainOf(libs, u) != "" && r.value < |ps|
  {
    var d := DomainOf(libs, u);
    if d == "" then None else FirstMatch(ps, d)
  }

  /** `assigned_links` as returned by `_extract_paragraphs_with_fonts`. */
  function AssignedLinks(libs: Libs, ps: seq<Paragraph>, known: set<string>): set<string> {
    TextLinkSet(libs, ps) + DomainLinks(libs, ps, known)
  }

  predicate NoDuplicates(xs: seq<string>) {
    forall i, j :: 0 <= i < j < |xs| ==> xs[i] != xs[j]
  }

  /**
   * `ps` are the paragraphs `base` with links attached: pass 1 puts the paragraph's own URLs first,
   * once each; pass 2 adds a known URI to the first paragraph matching its domain, and nowhere else.
   */
  ghost predicate LinkedFrom(libs: Libs, base: seq<Paragraph>, known: set<string>, ps: seq<Paragraph>) {
    |ps| == |base|
    && forall k :: 0 <= k < |ps| ==>
         ps[k] == base[k].(links := ps[k].links) && LinksOk(libs, base, known, k, ps[k].links)
  }

  /** The links of paragraph `k`: its own URLs first, once each, then the known URIs targeting it. */
  ghost predicate LinksOk(libs: Libs, base: seq<Paragraph>, known: set<string>, k: nat, links: seq<string>)
    requires k < |base|
  {
    NoDuplicates(links)
    && Dedup(TextLinks(libs, base[k].text)) <= links
    && forall u :: u in links <==> u in TextLinks(libs, base[k].text) || (u in known && Target(libs, base, u) == Some(k))
  }

  /** A URI attached by domain sits on exactly one paragraph unless some paragraph's own text has it. */
  lemma {:induction false} DomainLinkOnOneParagraph(libs: Libs, base: seq<Paragraph>, known: set<string>,
                                 ps: seq<Paragraph>, u: string, j: nat, k: nat)
    requires LinkedFrom(libs, base, known, ps)
    requires j < k < |ps| && u in ps[j].links && u in ps[k].links
    ensures u in TextLinkSet(libs, base)
  {
    var fm := Target(libs, base, u);
    assert LinksOk(libs, base, known, j, ps[j].links) && LinksOk(libs, base, known, k, ps[k].links);
    assert u in TextLinks(libs, base[j].text) || fm == Some(j);
    assert u in TextLinks(libs, base[k].text) || fm == Some(k);
    assert 0 <= j < |base| && 0 <= k < |base|;
  }

  // ---------------------------------------------------------------------------------------
  // _extract_paragraphs_with_fonts
  // ---------------------------------------------------------------------------------------

  /** Pass 1 for one paragraph: append every URL of its text that it does not hold yet. */
  method AttachTextLinks(libs: Libs, p: Paragraph) returns (q: Paragraph, added: set<string>)
    requires p.links == []
    ensures q == p.(links := Dedup(TextLinks(libs, p.text)))
    ensures added == set u | u in TextLinks(libs, p.text)
  {
    var found := TextLinks(libs, p.text);
    var links: seq<string> := [];
    added := {};
    var i := 0;
    while i < |found|
      invariant 0 <= i <= |found|
      invariant links == Dedup(found[..i])
      invariant added == set u | u in found[..i]
    {
      assert found[..i + 1][..i] == found[..i];
      if found[i] !in links {
        links := links + [found[i]];
      }
      added := added + {found[i]};
      i := i + 1;
    }
    assert found[..i] == found;
    q := p.(links := links);
  }

  /** Pass 2's inner loop: the first paragraph whose text matches the domain. */
  method FindFirstMatch(ps: seq<Paragraph>, domain: string) returns (r: Option<nat>)
    ensures r == FirstMatch(ps, domain)
  {
    var i := 0;
    while i < |ps|
      invariant 0 <= i <= |ps|
      invariant forall j :: 0 <= j < i ==> !TextMatchesDomain(ps[j].text, domain)
    {
      if TextMatchesDomain(ps[i].text, domain) {
        FirstMatchIsFirst(ps, domain, i);
        return Some(i);
      }
      i := i + 1;
    }
    FirstMatchNone(ps, domain);
    return None;
  }

  lemma FirstMatchIsFirst(ps: seq<Paragraph>, domain: string, i: nat)
    requires i < |ps| && TextMatchesDomain(ps[i].text, domain)
    requires forall j :: 0 <= j < i ==> !TextMatchesDomain(ps[j].text, domain)
    ensures FirstMatch(ps, domain) == Some(i)
  {
  }

  lemma FirstMatchNone(ps: seq<Paragraph>, domain: string)
    requires forall j :: 0 <= j < |ps| ==> !TextMatchesDomain(ps[j].text, domain)
    ensures FirstMatch(ps, domain) == None
  {
  }

  /**
   * The `y_positions` dict after the first `i` characters: the keys seen so far in insertion
   * order, each with the characters under it.
   */
  ghost predicate Grouped(cs: seq<PdfChar>, i: nat, keys: seq<int>, groups: map<int, seq<PdfChar>>)
    requires i <= |cs|
  {
    keys == Dedup(RoundedTops(cs[..i]))
    && (forall y :: y in groups <==> y in keys)
    && (forall y :: y in groups ==> groups[y] == CharsAt(cs[..i], y))
  }

  /** The `y_positions` dict: the line keys in insertion order and the characters under each key. */
  method GroupCharsByLine(cs: seq<PdfChar>) returns (keys: seq<int>, groups: map<int, seq<PdfChar>>)
    ensures keys == Dedup(RoundedTops(cs))
    ensures forall y :: y in groups <==> y in keys
    ensures forall y :: y in groups ==> groups[y] == CharsAt(cs, y)
  {
    groups := map[];
    keys := [];
    var i := 0;
    assert cs[..0] == [];
    while i < |cs|
      invariant 0 <= i <= |cs|
      invariant Grouped(cs, i, keys, groups)
    {
      keys, groups := AddChar(cs, i, keys, groups);
      i := i + 1;
    }
    assert cs[..i] == cs;
  }

  /** One character of the grouping loop: a new key opens an empty line, then the character joins its line. */
  method AddChar(cs: seq<PdfChar>, i: nat, keys: seq<int>, groups: map<int, seq<PdfChar>>)
    returns (keys': seq<int>, groups': map<int, seq<PdfChar>>)
    requires i < |cs| && Grouped(cs, i, keys, groups)
    ensures Grouped(cs, i + 1, keys', groups')
  {
    keys', groups' := keys, groups;
    var y := Round1(cs[i].top);
    GroupStep(cs, i);
    if y !in groups' {
      CharsAtAbsent(cs[..i], y);
      groups' := groups'[y := []];
      keys' := keys' + [y];
    }
    GroupsGrow(cs, i, groups');
    groups' := groups'[y := groups'[y] + [cs[i]]];
  }

  /** The character joins the line of its key; every other line stays as it was. */
  lemma {:induction false} GroupsGrow(cs: seq<PdfChar>, i: nat, groups: map<int, seq<PdfChar>>)
    requires i < |cs| && Round1(cs[i].top) in groups
    requires forall y :: y in groups ==> groups[y] == CharsAt(cs[..i], y)
    ensures var y := Round1(cs[i].top);
            var g := groups[y := groups[y] + [cs[i]]];
            forall y' :: y' in g ==> g[y'] == CharsAt(cs[..i + 1], y')
  {
    forall y' | y' in groups {
      CharsAtSnoc(cs, i, y');
    }
  }

  lemma {:induction false} CharsAtSnoc(cs: seq<PdfChar>, i: nat, y: int)
    requires i < |cs|
    ensures CharsAt(cs[..i + 1], y) == CharsAt(cs[..i], y) + (if Round1(cs[i].top) == y then [cs[i]] else [])
  {
    assert cs[..i + 1][..i] == cs[..i];
  }

  /** One more character: its key is appended to the key list when it is new. */
  lemma {:induction false} GroupStep(cs: seq<PdfChar>, i: nat)
    requires i < |cs|
    ensures RoundedTops(cs[..i + 1]) == RoundedTops(cs[..i]) + [Round1(cs[i].top)]
    ensures Dedup(RoundedTops(cs[..i + 1]))
         == (var d := Dedup(RoundedTops(cs[..i])); if Round1(cs[i].top) in d then d else d + [Round1(cs[i].top)])
  {
    assert cs[..i + 1][..i] == cs[..i];
    assert RoundedTops(cs[..i + 1])[..i] == RoundedTops(cs[..i]);
  }

  /** A key that was never seen has no characters yet. */
  lemma {:induction false} CharsAtAbsent(cs: seq<PdfChar>, y: int)
    ensures y !in Dedup(RoundedTops(cs)) ==> CharsAt(cs, y) == []
  {
    if CharsAt(cs, y) != [] {
      var c := CharsAt(cs, y)[0];
      var j :| 0 <= j < |cs| && cs[j] == c;
      assert RoundedTops(cs)[j] == y;
    }
  }

  /**
   * The state of the line loop after `lines`: the closed paragraphs `ps` and the open one
   * `current` are the grouping of those lines, and `prev_y`/`prev_font_size` are the last line's.
   */
  ghost predicate GroupState(lines: seq<Line>, ps: seq<Paragraph>, current: Option<Paragraph>,
                             prevY: int, prevSize: int, libs: Libs) {
      (current.None? <==> lines == [])
      && (current.Some? ==> ps + [current.value] == GroupLines(lines, libs))
      && (current.None? ==> ps == [])
      && (lines != [] ==> prevY == lines[|lines| - 1].y && prevSize == lines[|lines| - 1].maxSize)
  }
  /** One non-blank line of the loop: open a new paragraph or append the line with one space. */
  method VisitLine(ghost lines: seq<Line>, ps: seq<Paragraph>, current: Option<Paragraph>,
                   prevY: int, prevSize: int, line: Line, libs: Libs)
    returns (ps': seq<Paragraph>, current': Option<Paragraph>, prevY': int, prevSize': int)
    requires GroupState(lines, ps, current, prevY, prevSize, libs)
    ensures GroupState(lines + [line], ps', current', prevY', prevSize', libs)
  {
        ps', current' := ps, current;
        var newPara := false;
        if current.None? {
          newPara := true;
        } else {
          var dy := Abs(line.y - prevY);
          if 2 * dy > 3 * prevSize || Abs(line.maxSize - prevSize) > 2000 {
            newPara := true;
          }
        }
        if newPara {
          if current.Some? {
            OpensParagraph(lines[|lines| - 1], line, prevY, prevSize);
          }
          GroupOpenStep(lines, line, libs);
          if current.Some? {
            ps' := ps + [current.value];
          }
          current' := Some(OpenParagraph(line, libs));
        } else {
          KeepsParagraph(lines[|lines| - 1], line, prevY, prevSize);
          GroupMergeStep(lines, line, libs);
          var p := current.value;
          current' := Some(p.(text := p.text + (" " + line.text)));
        }
        prevY' := line.y;
        prevSize' := line.maxSize;
  }
  /** The line loop: visit the keys in ascending order, skip blank lines, open or extend paragraphs. */
  method BuildParagraphs(cs: seq<PdfChar>, ys: seq<int>, groups: map<int, seq<PdfChar>>, libs: Libs)
    returns (ps: seq<Paragraph>)
    requires forall y :: y in ys ==> y in groups && groups[y] == CharsAt(cs, y) && groups[y] != []
    ensures ps == GroupLines(LinesAt(cs, ys), libs)
  {
    ps := [];
    var current: Option<Paragraph> := None;
    var prevY := 0;
    var prevSize := 0;
    var n := 0;
    ghost var lines: seq<Line> := [];
    while n < |ys|
      invariant 0 <= n <= |ys|
      invariant lines == LinesAt(cs, ys[..n])
      invariant GroupState(lines, ps, current, prevY, prevSize, libs)
    {
      var y := ys[n];
      var chars := groups[y];
      assert chars == CharsAt(cs, ys[n]) && chars != [];
      var line := LineOf(y, chars);
      LinesAtStep(cs, ys, n, line);
      if line.text != "" {
        ps, current, prevY, prevSize := VisitLine(lines, ps, current, prevY, prevSize, line, libs);
        lines := lines + [line];
      }
      n := n + 1;
    }
    assert ys[..n] == ys;
    if current.Some? {
      ps := ps + [current.value];
    }
  }

  /** The loop's test on `prev_y` and `prev_font_size` is `StartsNew` on the previous line. */
  lemma KeepsParagraph(prev: Line, line: Line, prevY: int, prevSize: int)
    requires prevY == prev.y && prevSize == prev.maxSize
    requires !(2 * Abs(line.y - prevY) > 3 * prevSize || Abs(line.maxSize - prevSize) > 2000)
    ensures !StartsNew(prev, line)
  {
  }

  lemma OpensParagraph(prev: Line, line: Line, prevY: int, prevSize: int)
    requires prevY == prev.y && prevSize == prev.maxSize
    requires 2 * Abs(line.y - prevY) > 3 * prevSize || Abs(line.maxSize - prevSize) > 2000
    ensures StartsNew(prev, line)
  {
  }

  lemma {:induction false} LinesAtStep(cs: seq<PdfChar>, ys: seq<int>, n: nat, l: Line)
    requires n < |ys| && CharsAt(cs, ys[n]) != [] && l == LineOf(ys[n], CharsAt(cs, ys[n]))
    ensures LinesAt(cs, ys[..n + 1]) == LinesAt(cs, ys[..n]) + (if l.text != "" then [l] else [])
  {
    assert ys[..n + 1][..n] == ys[..n];
  }

  lemma {:induction false} GroupOpenStep(lines: seq<Line>, line: Line, libs: Libs)
    requires lines == [] || StartsNew(lines[|lines| - 1], line)
    ensures GroupLines(lines + [line], libs) == GroupLines(lines, libs) + [OpenParagraph(line, libs)]
  {
    assert (lines + [line])[..|lines|] == lines;
  }

  lemma {:induction false} GroupMergeStep(lines: seq<Line>, line: Line, libs: Libs)
    requires lines != [] && !StartsNew(lines[|lines| - 1], line)
    ensures var ps := GroupLines(lines, libs); var last := ps[|ps| - 1];
      GroupLines(lines + [line], libs) == ps[..|ps| - 1] + [last.(text := last.text + (" " + line.text))]
  {
    assert (lines + [line])[..|lines|] == lines;
  }

  /** Pass 1: every paragraph gets the URLs of its own text; `linked` collects them all. */
  method AttachAllTextLinks(libs: Libs, base: seq<Paragraph>) returns (ps: seq<Paragraph>, linked: set<string>)
    requires forall j :: 0 <= j < |base| ==> base[j].links == []
    ensures |ps| == |base|
    ensures forall j :: 0 <= j < |ps| ==> ps[j] == base[j].(links := Dedup(TextLinks(libs, base[j].text)))
    ensures linked == TextLinkSet(libs, base)
  {
    ps := base;
    linked := {};
    var k := 0;
    while k < |ps|
      invariant 0 <= k <= |ps| && |ps| == |base|
      invariant forall j :: 0 <= j < k ==> ps[j] == base[j].(links := Dedup(TextLinks(libs, base[j].text)))
      invariant forall j :: k <= j < |ps| ==> ps[j] == base[j]
      invariant linked == set j, u | 0 <= j < k && u in TextLinks(libs, base[j].text) :: u
    {
      var q, added := AttachTextLinks(libs, ps[k]);
      ps := ps[k := q];
      linked := linked + added;
      k := k + 1;
    }
  }

  /** Pass 2 for one URI: find the first paragraph matching its domain and append it there if missing. */
  method AttachUri(libs: Libs, base: seq<Paragraph>, ps: seq<Paragraph>, ghost done: set<string>, uri: string)
    returns (ps': seq<Paragraph>, added: bool)
    requires LinkedFrom(libs, base, done, ps) && uri !in done
    ensures LinkedFrom(libs, base, done + {uri}, ps')
    ensures added ==> uri in DomainLinks(libs, base, {uri})
    ensures !added && uri in DomainLinks(libs, base, {uri}) ==> uri in TextLinkSet(libs, base)
  {
    ps', added := ps, false;
    var domain := DomainOf(libs, uri);
    if domain != "" {
      FirstMatchSameTexts(ps, base, domain);
      var m := FindFirstMatch(ps, domain);
      if m.Some? {
        var j := m.value;
        if uri !in ps[j].links {
          var p := ps[j];
          ps' := ps[j := p.(links := p.links + [uri])];
          added := true;
          LinkedFromAppend(libs, base, ps, done, uri, j);
        } else {
          LinkedFromKeep(libs, base, ps, done, uri);
          assert LinksOk(libs, base, done, j, ps[j].links);
          assert uri in TextLinks(libs, base[j].text);
          assert uri in TextLinkSet(libs, base) by { assert 0 <= j < |base|; }
        }
      } else {
        LinkedFromKeep(libs, base, ps, done, uri);
      }
    } else {
      LinkedFromKeep(libs, base, ps, done, uri);
    }
  }

  lemma VisitStep<T>(all: set<T>, todo: set<T>, done: set<T>, x: T)
    requires todo + done == all && todo !! done && x in todo
    ensures (todo - {x}) + (done + {x}) == all && (todo - {x}) !! (done + {x})
  {
  }

  /** The set of assigned links grows by `uri` exactly when pass 2 attaches it to a paragraph. */
  lemma {:induction false} LinkedStep(libs: Libs, base: seq<Paragraph>, done: set<string>, uri: string, linked: set<string>, added: bool)
    requires linked == TextLinkSet(libs, base) + DomainLinks(libs, base, done)
    requires added ==> uri in DomainLinks(libs, base, {uri})
    requires !added && uri in DomainLinks(libs, base, {uri}) ==> uri in TextLinkSet(libs, base)
    ensures (if added then linked + {uri} else linked) == TextLinkSet(libs, base) + DomainLinks(libs, base, done + {uri})
  {
    assert DomainLinks(libs, base, done + {uri}) == DomainLinks(libs, base, done) + DomainLinks(libs, base, {uri});
    GrowBy(linked, TextLinkSet(libs, base), DomainLinks(libs, base, done), DomainLinks(libs, base, {uri}), uri, added);
  }

  /** Set bookkeeping of `LinkedStep`, over plain sets. */
  lemma GrowBy<T>(linked: set<T>, text: set<T>, before: set<T>, visit: set<T>, u: T, added: bool)
    requires linked == text + before && visit <= {u}
    requires added ==> u in visit
    requires !added && u in visit ==> u in text
    ensures (if added then linked + {u} else linked) == text + (before + visit)
  {
  }

  /** A paragraph that does not receive `uri` keeps valid links with `uri` counted as visited. */
  lemma LinksOkKeep(libs: Libs, base: seq<Paragraph>, done: set<string>, k: nat, links: seq<string>, uri: string)
    requires k < |base| && LinksOk(libs, base, done, k, links) && uri !in done
    requires Target(libs, base, uri) != Some(k) || uri in links
    ensures LinksOk(libs, base, done + {uri}, k, links)
  {
  }

  /** Appending `uri` to the paragraph it targets keeps that paragraph's links valid. */
  lemma {:induction false} LinksOkAppend(libs: Libs, base: seq<Paragraph>, done: set<string>, k: nat, links: seq<string>, uri: string)
    requires k < |base| && LinksOk(libs, base, done, k, links) && uri !in done
    requires Target(libs, base, uri) == Some(k) && uri !in links
    ensures LinksOk(libs, base, done + {uri}, k, links + [uri])
  {
    var t := Dedup(TextLinks(libs, base[k].text));
    assert (links + [uri])[..|t|] == links[..|t|];
  }

  /** A URI that pass 2 does not append leaves the state valid with the URI counted as visited. */
  lemma {:induction false} LinkedFromKeep(libs: Libs, base: seq<Paragraph>, ps: seq<Paragraph>, done: set<string>, uri: string)
    requires LinkedFrom(libs, base, done, ps) && uri !in done
    requires Target(libs, base, uri).None? || uri in ps[Target(libs, base, uri).value].links
    ensures LinkedFrom(libs, base, done + {uri}, ps)
  {
    forall k | 0 <= k < |ps|
      ensures ps[k] == base[k].(links := ps[k].links) && LinksOk(libs, base, done + {uri}, k, ps[k].links)
    {
      LinksOkKeep(libs, base, done, k, ps[k].links, uri);
    }
  }

  /** Appending the URI to the paragraph its domain first matches keeps the state valid. */
  lemma {:induction false} LinkedFromAppend(libs: Libs, base: seq<Paragraph>, ps: seq<Paragraph>, done: set<string>, uri: string, j: nat)
    requires LinkedFrom(libs, base, done, ps) && uri !in done
    requires Target(libs, base, uri) == Some(j) && uri !in ps[j].links
    ensures LinkedFrom(libs, base, done + {uri}, ps[j := ps[j].(links := ps[j].links + [uri])])
  {
    var ps' := ps[j := ps[j].(links := ps[j].links + [uri])];
    forall k | 0 <= k < |ps'|
      ensures ps'[k] == base[k].(links := ps'[k].links) && LinksOk(libs, base, done + {uri}, k, ps'[k].links)
    {
      if k == j {
        LinksOkAppend(libs, base, done, k, ps[k].links, uri);
      } else {
        LinksOkKeep(libs, base, done, k, ps[k].links, uri);
      }
    }
  }

  /**
   * Pass 2: each known URI with a non-empty domain goes to the first paragraph whose text matches
   * the domain, unless that paragraph holds it already. The URIs are visited in the set's order,
   * which is left open here.
   */
  method AttachDomainLinks(libs: Libs, base: seq<Paragraph>, ps0: seq<Paragraph>, known: set<string>,
                           linked0: set<string>)
    returns (ps: seq<Paragraph>, linked: set<string>)
    requires |ps0| == |base|
    requires forall j :: 0 <= j < |ps0| ==> ps0[j] == base[j].(links := Dedup(TextLinks(libs, base[j].text)))
    requires linked0 == TextLinkSet(libs, base)
    ensures LinkedFrom(libs, base, known, ps)
    ensures linked == AssignedLinks(libs, base, known)
  {
    ps := ps0;
    linked := linked0;
    var todo := known;
    ghost var done: set<string> := {};
    assert DomainLinks(libs, base, done) == {};
    assert LinkedFrom(libs, base, done, ps) by {
      forall k | 0 <= k < |ps| ensures LinksOk(libs, base, done, k, ps[k].links) {
        assert ps[k].links == Dedup(TextLinks(libs, base[k].text));
      }
    }
    while todo != {}
      invariant todo + done == known && todo !! done
      invariant LinkedFrom(libs, base, done, ps)
      invariant linked == TextLinkSet(libs, base) + DomainLinks(libs, base, done)
      decreases |todo|
    {
      var uri :| uri in todo;
      var added;
      ps, added := AttachUri(libs, base, ps, done, uri);
      LinkedStep(libs, base, done, uri, linked, added);
      if added {
        linked := linked + {uri};
      }
      VisitStep(known, todo, done, uri);
      todo := todo - {uri};
      done := done + {uri};
    }
  }

  /**
   * `_extract_paragraphs_with_fonts`: group the page's characters by rounded `top`, visit the lines
   * top to bottom, build paragraphs, then attach links in two passes.
   */
  method ExtractParagraphsWithFonts(cs: seq<PdfChar>, known: set<string>, libs: Libs)
    returns (ps: seq<Paragraph>, linked: set<string>)
    ensures LinkedFrom(libs, BaseParagraphs(cs, libs), known, ps)
    ensures linked == AssignedLinks(libs, BaseParagraphs(cs, libs), known)
    ensures cs == [] ==> ps == [] && linked == {}
  {
    if cs == [] {
      // `if not page.chars: return [], set()`
      return [], {};
    }
    var keys, groups := GroupCharsByLine(cs);
    var ys := SortAsc(keys);
    assert forall y :: y in ys <==> y in keys by {
      forall y ensures y in ys <==> y in keys {
        assert y in ys <==> y in multiset(ys);
        assert y in keys <==> y in multiset(keys);
      }
    }
    assert ys == LineKeys(cs);
    forall y | y in ys ensures groups[y] != [] {
      CharsAtNonEmpty(cs, y);
    }
    var base := BuildParagraphs(cs, ys, groups, libs);
    forall j | 0 <= j < |base| ensures base[j].links == [] {
      BaseLinksEmpty(Lines(cs), libs, j);
    }
    var ps1, textLinked := AttachAllTextLinks(libs, base);
    ps, linked := AttachDomainLinks(libs, base, ps1, known, textLinked);
  }

  lemma {:induction false} BaseLinksEmpty(lines: seq<Line>, libs: Libs, j: nat)
    requires j < |GroupLines(lines, libs)|
    ensures GroupLines(lines, libs)[j].links == []
    decreases |lines|
  {
    var n := |lines|;
    var ps := GroupLines(lines[..n - 1], libs);
    if j < |ps| {
      BaseLinksEmpty(lines[..n - 1], libs, j);
    }
  }

  lemma {:induction false} FirstMatchSameTexts(ps: seq<Paragraph>, qs: seq<Paragraph>, domain: string)
    requires |ps| == |qs| && forall j :: 0 <= j < |ps| ==> ps[j].text == qs[j].text
    ensures FirstMatch(ps, domain) == FirstMatch(qs, domain)
  {
    var a, b := FirstMatch(ps, domain), FirstMatch(qs, domain);
    if a.Some? && b.Some? {
      assert !(a.value < b.value) && !(b.value < a.value);
    }
  }

  // ---------------------------------------------------------------------------------------
  // Tables
  // ---------------------------------------------------------------------------------------

  /** A table of `page.extract_tables()`: rows of cells, None where a cell is missing. */
  type RawTable = seq<seq<Option<string>>>

  /** `[[cell if cell is not None else "" for cell in row] for row in table]` */
  function CleanTable(t: RawTable): (r: seq<seq<string>>)
    ensures |r| == |t|
    ensures forall i :: 0 <= i < |t| ==> |r[i]| == |t[i]|
    ensures forall i, j :: 0 <= i < |t| && 0 <= j < |t[i]| ==>
              r[i][j] == (if t[i][j].Some? then t[i][j].value else "")
  {
    seq(|t|, i requires 0 <= i < |t| => seq(|t[i]|, j requires 0 <= j < |t[i]| => t[i][j].GetOr("")))
  }

  /** A cell counts as content when it is not all whitespace (`cell.strip()` is truthy). */
  predicate NonBlank(cell: string) {
    Strip(cell) != []
  }

  /** `any(cell.strip() for cell in row)` */
  function RowHasContent(row: seq<string>): bool
    decreases |row|
  {
    if row == [] then false else NonBlank(row[0]) || RowHasContent(row[1..])
  }

  /** A row has content exactly when one of its cells is not blank. */
  lemma {:induction false} RowHasContentIff(row: seq<string>)
    ensures RowHasContent(row) <==> exists j :: 0 <= j < |row| && NonBlank(row[j])
    decreases |row|
  {
    if row != [] && !NonBlank(row[0]) {
      RowHasContentIff(row[1..]);
      if RowHasContent(row[1..]) {
        var j :| 0 <= j < |row[1..]| && NonBlank(row[1..][j]);
        assert row[j + 1] == row[1..][j];
      }
      if exists j :: 0 <= j < |row| && NonBlank(row[j]) {
        var j :| 0 <= j < |row| && NonBlank(row[j]);
        assert row[1..][j - 1] == row[j];
      }
    }
  }

  /** `any(any(cell.strip() for cell in row) for row in table)` */
  function HasContent(t: seq<seq<string>>): bool
    decreases |t|
  {
    if t == [] then false else RowHasContent(t[0]) || HasContent(t[1..])
  }

  /** A table has content exactly when one of its cells is not blank. */
  lemma {:induction false} HasContentIff(t: seq<seq<string>>)
    ensures HasContent(t) <==> exists i, j :: 0 <= i < |t| && 0 <= j < |t[i]| && NonBlank(t[i][j])
    decreases |t|
  {
    if t != [] {
      RowHasContentIff(t[0]);
      HasContentIff(t[1..]);
      if HasContent(t) && !RowHasContent(t[0]) {
        var i, j :| 0 <= i < |t[1..]| && 0 <= j < |t[1..][i]| && NonBlank(t[1..][i][j]);
        assert t[i + 1] == t[1..][i];
      }
      if exists i, j :: 0 <= i < |t| && 0 <= j < |t[i]| && NonBlank(t[i][j]) {
        var i, j :| 0 <= i < |t| && 0 <= j < |t[i]| && NonBlank(t[i][j]);
        if i > 0 {
          assert t[1..][i - 1] == t[i];
        }
      }
    }
  }

  /** One row of `_table_to_text`: the cells joined by " | ". */
  function RowText(row: seq<string>): string {
    Join(" | ", row)
  }

  function RowTexts(t: seq<seq<string>>): (r: seq<string>)
    ensures |r| == |t| && forall i :: 0 <= i < |t| ==> r[i] == RowText(t[i])
  {
    seq(|t|, i requires 0 <= i < |t| => RowText(t[i]))
  }

  /** `_table_to_text` on a cleaned table: one line per row. */
  function TableToText(t: seq<seq<string>>): string {
    Join("\n", RowTexts(t))
  }

  /**
   * The rows of a flattened table can be read back by splitting on newlines, as long as no
   * cell holds a newline itself.
   */
  lemma {:induction false} TableTextLines(t: seq<seq<string>>)
    requires t != []
    requires forall i, j :: 0 <= i < |t| && 0 <= j < |t[i]| ==> '\n' !in t[i][j]
    ensures SplitOn(TableToText(t), '\n') == RowTexts(t)
  {
    var rows := RowTexts(t);
    forall i | 0 <= i < |rows| ensures '\n' !in rows[i] {
      JoinAvoids(" | ", t[i], '\n');
    }
    SplitJoin(rows, '\n');
  }

  /** A join holds a character only if the separator or some part holds it. */
  lemma {:induction false} JoinAvoids(sep: string, parts: seq<string>, c: char)
    requires c !in sep && forall k :: 0 <= k < |parts| ==> c !in parts[k]
    ensures c !in Join(sep, parts)
    decreases |parts|
  {
    if |parts| > 1 {
      JoinAvoids(sep, parts[1..], c);
    }
  }

  /** The tables of page `number` that `load_pdf` keeps, cleaned and flattened, in page order. */
  function PageTables(ts: seq<RawTable>, number: int): (r: seq<TableEntry>)
    ensures |r| <= |ts|
    decreases |ts|
  {
    if ts == [] then []
    else
      var rest := PageTables(ts[..|ts| - 1], number);
      var t := CleanTable(ts[|ts| - 1]);
      if HasContent(t) then rest + [TableEntry(number, t, TableToText(t))] else rest
  }

  /** Every kept table belongs to the page and has a non-blank cell, and none that has one is dropped. */
  lemma {:induction false} PageTablesKept(ts: seq<RawTable>, number: int)
    ensures forall e :: e in PageTables(ts, number) ==>
              e.page == number && HasContent(e.table) && e.tableText == TableToText(e.table)
              && exists k :: 0 <= k < |ts| && e.table == CleanTable(ts[k])
    ensures forall k :: 0 <= k < |ts| && HasContent(CleanTable(ts[k])) ==>
              TableEntry(number, CleanTable(ts[k]), TableToText(CleanTable(ts[k]))) in PageTables(ts, number)
  {
    PageTablesFrom(ts, number);
    PageTablesComplete(ts, number);
  }

  lemma {:induction false} PageTablesFrom(ts: seq<RawTable>, number: int)
    ensures forall e :: e in PageTables(ts, number) ==>
              e.page == number && HasContent(e.table) && e.tableText == TableToText(e.table)
              && exists k :: 0 <= k < |ts| && e.table == CleanTable(ts[k])
  {
    forall e | e in PageTables(ts, number)
      ensures e.page == number && HasContent(e.table) && e.tableText == TableToText(e.table)
      ensures exists k :: 0 <= k < |ts| && e.table == CleanTable(ts[k])
    {
      var k := PageTableOrigin(ts, number, e);
    }
  }

  /** The raw table an entry of `PageTables` was cleaned from. */
  lemma {:induction false} PageTableOrigin(ts: seq<RawTable>, number: int, e: TableEntry) returns (k: nat)
    requires e in PageTables(ts, number)
    ensures k < |ts| && e == TableEntry(number, CleanTable(ts[k]), TableToText(CleanTable(ts[k])))
            && HasContent(e.table)
    decreases |ts|
  {
    var n := |ts| - 1;
    var init := ts[..n];
    if e in PageTables(init, number) {
      k := PageTableOrigin(init, number, e);
      assert init[k] == ts[k];
    } else {
      k := n;
    }
  }

  lemma {:induction false} PageTablesComplete(ts: seq<RawTable>, number: int)
    ensures forall k :: 0 <= k < |ts| && HasContent(CleanTable(ts[k])) ==>
              TableEntry(number, CleanTable(ts[k]), TableToText(CleanTable(ts[k]))) in PageTables(ts, number)
    decreases |ts|
  {
    if ts != [] {
      var init := ts[..|ts| - 1];
      PageTablesComplete(init, number);
      forall k | 0 <= k < |ts| - 1 && HasContent(CleanTable(ts[k]))
        ensures TableEntry(number, CleanTable(ts[k]), TableToText(CleanTable(ts[k]))) in PageTables(ts, number)
      {
        assert init[k] == ts[k];
      }
    }
  }

  /** The inner loop of `load_pdf` over `page.extract_tables()`. */
  method CollectPageTables(ts: seq<RawTable>, number: int) returns (entries: seq<TableEntry>)
    ensures entries == PageTables(ts, number)
  {
    entries := [];
    var k := 0;
    while k < |ts|
      invariant 0 <= k <= |ts|
      invariant entries == PageTables(ts[..k], number)
    {
      var cleaned := CleanTable(ts[k]);
      assert ts[..k + 1][..k] == ts[..k];
      if HasContent(cleaned) {
        entries := entries + [TableEntry(number, cleaned, TableToText(cleaned))];
      }
      k := k + 1;
    }
    assert ts[..k] == ts;
  }

  // ---------------------------------------------------------------------------------------
  // Language detection
  // ---------------------------------------------------------------------------------------

  /** `"\n".join(all_raw_texts[:5])[:10000]` */
  function Sample(raws: seq<string>): (r: string)
    ensures |r| <= SampleChars
    ensures var whole := Join("\n", raws[..Min(SamplePages, |raws|)]);
            r == whole[..Min(SampleChars, |whole|)]
  {
    var whole := Join("\n", raws[..Min(SamplePages, |raws|)]);
    whole[..Min(SampleChars, |whole|)]
  }

  /** Only the first five pages reach the language sample. */
  lemma {:induction false} SampleIgnoresLaterPages(raws: seq<string>, later: seq<string>)
    requires |raws| >= SamplePages
    ensures Sample(raws + later) == Sample(raws)
  {
    assert (raws + later)[..SamplePages] == raws[..SamplePages];
  }

  /** `_safe_detect_language`: "unknown" for a blank or short sample, else the detector's answer. */
  function SafeDetectLanguage(libs: Libs, sample: string, minLength: nat): (r: string)
    ensures Strip(sample) == [] || |Strip(sample)| < minLength ==> r == "unknown"
    ensures Strip(sample) != [] && |Strip(sample)| >= minLength ==> r == libs.detect(Strip(sample))
  {
    var text := Strip(sample);
    if text == [] || |text| < minLength then "unknown" else libs.detect(text)
  }

  /** Whatever detector is plugged in, pages whose sample is all whitespace are "unknown". */
  lemma {:induction false} BlankSampleUnknown(libs: Libs, raws: seq<string>)
    requires forall i, k :: 0 <= i < |raws| && 0 <= k < |raws[i]| ==> IsSpace(raws[i][k])
    ensures SafeDetectLanguage(libs, Sample(raws), MinSampleLength) == "unknown"
  {
    var first := raws[..Min(SamplePages, |raws|)];
    var whole := Join("\n", first);
    forall i, k | 0 <= i < |first| && 0 <= k < |first[i]| ensures IsSpace(first[i][k]) {
      assert first[i] == raws[i];
    }
    JoinAllSpace(first);
    BlankIffAllSpace(Sample(raws));
  }

  lemma {:induction false} JoinAllSpace(parts: seq<string>)
    requires forall i, k :: 0 <= i < |parts| && 0 <= k < |parts[i]| ==> IsSpace(parts[i][k])
    ensures forall k :: 0 <= k < |Join("\n", parts)| ==> IsSpace(Join("\n", parts)[k])
    decreases |parts|
  {
    if |parts| > 1 {
      JoinAllSpace(parts[1..]);
      var j := Join("\n", parts);
      var rest := Join("\n", parts[1..]);
      assert j == parts[0] + "\n" + rest;
      forall k | 0 <= k < |j| ensures IsSpace(j[k]) {
        if k < |parts[0]| {
          assert j[k] == parts[0][k];
        } else if k == |parts[0]| {
          assert j[k] == '\n';
        } else {
          assert j[k] == rest[k - |parts[0]| - 1];
        }
      }
    } else if |parts| == 1 {
      assert Join("\n", parts) == parts[0];
    }
  }

  // ---------------------------------------------------------------------------------------
  // load_pdf
  // ---------------------------------------------------------------------------------------

  /**
   * One page as the PDF library gives it: `page.chars`, `page.extract_text() or ""`, the `uri`
   * entries of `page.annots` (None where an annotation has none) and `page.extract_tables()`.
   */
  datatype RawPage = RawPage(chars: seq<PdfChar>, text: string, annotUris: seq<Option<string>>, tables: seq<RawTable>)

  /** The PDF's document information entries; None where the PDF has no such entry. */
  datatype PdfInfo = PdfInfo(
    title: Option<string>, author: Option<string>, subject: Option<string>,
    producer: Option<string>, createdAt: Option<string>)

  /** What `load_pdf` learns from the file system: name, path, size and MD5 of the file. */
  datatype FileInfo = FileInfo(name: string, path: string, size: nat, hash: string)

  /** `_extract_annotation_links`: every non-empty `uri` of the page's annotations. */
  function AnnotationLinks(uris: seq<Option<string>>): (r: set<string>)
    ensures "" !in r
    ensures forall u :: u in r <==> u != "" && Some(u) in uris
  {
    set k | 0 <= k < |uris| && uris[k].Some? && uris[k].value != "" :: uris[k].value
  }

  /** `page_links_on_this_page`: the URLs of the page text and of its annotations. */
  function PageLinks(libs: Libs, p: RawPage): set<string> {
    (set u | u in TextLinks(libs, p.text)) + AnnotationLinks(p.annotUris)
  }

  /**
   * The global link bookkeeping of `load_pdf`, over the pages' link sets `pls` and their grouped
   * paragraphs `bases` (before links are attached).
   */
  predicate Aligned(pls: seq<set<string>>, bases: seq<seq<Paragraph>>) {
    |pls| == |bases|
  }

  /**
   * A running union: before step `n`, the union of what steps `0 .. n-1` added, where each step
   * sees the union so far.
   */
  function Accumulate(step: (nat, set<string>) -> set<string>, n: nat): set<string>
    decreases n
  {
    if n == 0 then {} else Accumulate(step, n - 1) + step(n - 1, Accumulate(step, n - 1))
  }

  /** A running union only grows. */
  lemma {:induction false} AccumulateGrows(step: (nat, set<string>) -> set<string>, k: nat, n: nat)
    requires k <= n
    ensures Accumulate(step, k) <= Accumulate(step, n)
    decreases n - k
  {
    if k < n {
      AccumulateGrows(step, k + 1, n);
      assert Accumulate(step, k) <= Accumulate(step, k + 1);
    }
  }

  /** What page `i` assigns when the links assigned before it are `before`. */
  function AssignStep(libs: Libs, pls: seq<set<string>>, bases: seq<seq<Paragraph>>): (nat, set<string>) -> set<string>
    requires Aligned(pls, bases)
  {
    (i: nat, before: set<string>) => if i < |pls| then AssignedLinks(libs, bases[i], pls[i] - before) else {}
  }

  /** `global_assigned_links` before page `n` (0-based) is visited. */
  function Assigned(libs: Libs, pls: seq<set<string>>, bases: seq<seq<Paragraph>>, n: nat): set<string>
    requires Aligned(pls, bases) && n <= |pls|
  {
    Accumulate(AssignStep(libs, pls, bases), n)
  }

  /** `remaining_links` of page `i`: its links that no earlier page has assigned. */
  function Remaining(libs: Libs, pls: seq<set<string>>, bases: seq<seq<Paragraph>>, i: nat): set<string>
    requires Aligned(pls, bases) && i < |pls|
  {
    pls[i] - Assigned(libs, pls, bases, i)
  }

  /** The `assigned_links` that `_extract_paragraphs_with_fonts` returns for page `i`. */
  function PageAssigned(libs: Libs, pls: seq<set<string>>, bases: seq<seq<Paragraph>>, i: nat): set<string>
    requires Aligned(pls, bases) && i < |pls|
  {
    AssignedLinks(libs, bases[i], Remaining(libs, pls, bases, i))
  }

  /** After page `i`, the assigned links are those before it plus what page `i` assigned. */
  lemma AssignedNext(libs: Libs, pls: seq<set<string>>, bases: seq<seq<Paragraph>>, i: nat)
    requires Aligned(pls, bases) && i < |pls|
    ensures Assigned(libs, pls, bases, i + 1) == Assigned(libs, pls, bases, i) + PageAssigned(libs, pls, bases, i)
  {
  }

  /** Once assigned, a link stays assigned for every later page. */
  lemma {:induction false} AssignedGrows(libs: Libs, pls: seq<set<string>>, bases: seq<seq<Paragraph>>, k: nat, n: nat)
    requires Aligned(pls, bases) && k <= n <= |pls|
    ensures Assigned(libs, pls, bases, k) <= Assigned(libs, pls, bases, n)
  {
    AccumulateGrows(AssignStep(libs, pls, bases), k, n);
  }

  /** `page_links_on_this_page` of every page. */
  function PageLinkSets(libs: Libs, raw: seq<RawPage>): (r: seq<set<string>>)
    ensures |r| == |raw| && forall i :: 0 <= i < |raw| ==> r[i] == PageLinks(libs, raw[i])
  {
    seq(|raw|, i requires 0 <= i < |raw| => PageLinks(libs, raw[i]))
  }

  /** The paragraphs of every page as grouped from its characters. */
  function Bases(libs: Libs, raw: seq<RawPage>): (r: seq<seq<Paragraph>>)
    ensures |r| == |raw| && forall i :: 0 <= i < |raw| ==> r[i] == BaseParagraphs(raw[i].chars, libs)
  {
    seq(|raw|, i requires 0 <= i < |raw| => BaseParagraphs(raw[i].chars, libs))
  }

  /**
   * The page record `load_pdf` builds for page `i`: numbered from 1, its paragraphs linked against
   * the links not assigned on earlier pages, its text the paragraph texts one per line, and its
   * `links` the page's links that neither this page nor an earlier one assigned to a paragraph.
   */
  ghost predicate PageBuilt(libs: Libs, pls: seq<set<string>>, bases: seq<seq<Paragraph>>, i: nat, p: Page)
    requires Aligned(pls, bases) && i < |pls|
  {
    p.number == i + 1
    && LinkedFrom(libs, bases[i], Remaining(libs, pls, bases, i), p.paragraphs)
    && p.text == Join("\n", ParagraphTexts(p.paragraphs))
    && p.textLength == |p.text|
    && p.pageHash == libs.md5(p.text)
    && (p.isEmpty <==> Strip(p.text) == [])
    && p.links == pls[i] - Assigned(libs, pls, bases, i + 1)
  }

  /** A link left on page `i`'s `links` was assigned to a paragraph on no page up to and including `i`. */
  lemma {:induction false} PageLinksUnassigned(libs: Libs, pls: seq<set<string>>, bases: seq<seq<Paragraph>>, i: nat, p: Page, k: nat)
    requires Aligned(pls, bases) && i < |pls| && PageBuilt(libs, pls, bases, i, p) && k <= i
    ensures p.links !! PageAssigned(libs, pls, bases, k)
  {
    LinksUnassigned(libs, pls, bases, i, k);
  }

  lemma {:induction false} LinksUnassigned(libs: Libs, pls: seq<set<string>>, bases: seq<seq<Paragraph>>, i: nat, k: nat)
    requires Aligned(pls, bases) && k <= i < |pls|
    ensures pls[i] - Assigned(libs, pls, bases, i + 1) !! PageAssigned(libs, pls, bases, k)
  {
    AssignedGrows(libs, pls, bases, k + 1, i + 1);
    AssignedNext(libs, pls, bases, k);
  }

  /** Every link of every page, text or annotation (`all_links_global`). */
  function AllLinks(libs: Libs, raw: seq<RawPage>): set<string> {
    set i, u | 0 <= i < |raw| && u in PageLinks(libs, raw[i]) :: u
  }

  function RawTexts(raw: seq<RawPage>): (r: seq<string>)
    ensures |r| == |raw| && forall i :: 0 <= i < |raw| ==> r[i] == raw[i].text
  {
    seq(|raw|, i requires 0 <= i < |raw| => raw[i].text)
  }

  /** `tables_data`: the kept tables of the pages, page by page. */
  function AllTables(raw: seq<RawPage>): (r: seq<TableEntry>)
    decreases |raw|
  {
    if raw == [] then [] else AllTables(raw[..|raw| - 1]) + PageTables(raw[|raw| - 1].tables, |raw|)
  }

  /** Tables come in page order, carry a page number in 1..N and are never blank. */
  lemma {:induction false} AllTablesOrdered(raw: seq<RawPage>)
    ensures forall k :: 0 <= k < |AllTables(raw)| ==>
              1 <= AllTables(raw)[k].page <= |raw| && HasContent(AllTables(raw)[k].table)
    ensures forall k, l :: 0 <= k < l < |AllTables(raw)| ==> AllTables(raw)[k].page <= AllTables(raw)[l].page
    decreases |raw|
  {
    if raw != [] {
      var init := raw[..|raw| - 1];
      AllTablesOrdered(init);
      var last := PageTables(raw[|raw| - 1].tables, |raw|);
      PageTablesKept(raw[|raw| - 1].tables, |raw|);
      var r := AllTables(raw);
      assert r == AllTables(init) + last;
      forall k | 0 <= k < |r| ensures 1 <= r[k].page <= |raw| && HasContent(r[k].table) {
        if k >= |AllTables(init)| {
          assert r[k] in last;
        }
      }
      forall k, l | 0 <= k < l < |r| ensures r[k].page <= r[l].page {
        if l >= |AllTables(init)| {
          assert r[l] in last;
          if k >= |AllTables(init)| {
            assert r[k] in last;
          }
        }
      }
    }
  }

  /**
   * The metadata block of `load_pdf`: "document_title" holds the PDF's Title entry, null when
   * there is none, and the keys later stages add start out absent.
   */
  function LoadedMetadata(libs: Libs, info: PdfInfo, file: FileInfo, raw: seq<RawPage>): (m: Metadata)
    ensures m.documentTitle == info.title
    ensures m.author == info.author && m.subject == info.subject && m.producer == info.producer
            && m.createdAt == info.createdAt
    ensures m.numPages == |raw| && m.fileName == file.name && m.fileHash == file.hash
    ensures m.language == SafeDetectLanguage(libs, Sample(RawTexts(raw)), MinSampleLength)
    ensures m.allLinks == AllLinks(libs, raw)
    ensures m.mainFontSize.None? && m.headings.None? && m.tables.None? && m.pseudoTables.None?
            && m.captions.None? && m.recognizedHeaders.None? && m.recognizedFooters.None?
  {
    Metadata(
      SafeDetectLanguage(libs, Sample(RawTexts(raw)), MinSampleLength),
      info.title, info.author, info.subject, info.producer, info.createdAt,
      file.name, file.path, file.size, file.hash, |raw|, AllLinks(libs, raw),
      [], None, [], None, None, None, None, None, None)
  }

  lemma {:induction false} AllLinksSnoc(libs: Libs, raw: seq<RawPage>, p: RawPage)
    ensures AllLinks(libs, raw + [p]) == AllLinks(libs, raw) + PageLinks(libs, p)
  {
    var r := raw + [p];
    forall u | u in AllLinks(libs, r) ensures u in AllLinks(libs, raw) + PageLinks(libs, p) {
      var i :| 0 <= i < |r| && u in PageLinks(libs, r[i]);
      if i < |raw| {
        assert r[i] == raw[i];
      }
    }
    forall u | u in AllLinks(libs, raw) ensures u in AllLinks(libs, r) {
      var i :| 0 <= i < |raw| && u in PageLinks(libs, raw[i]);
      assert r[i] == raw[i];
    }
    assert forall u :: u in PageLinks(libs, p) ==> u in PageLinks(libs, r[|raw|]);
  }

  /** One iteration of the page loop of `load_pdf`. */
  method LoadPage(libs: Libs, raw: seq<RawPage>, ghost pls: seq<set<string>>, ghost bases: seq<seq<Paragraph>>,
                  i: nat, global: set<string>)
    returns (page: Page, global': set<string>)
    requires pls == PageLinkSets(libs, raw) && bases == Bases(libs, raw) && i < |raw|
    requires global == Assigned(libs, pls, bases, i)
    ensures PageBuilt(libs, pls, bases, i, page)
    ensures global' == Assigned(libs, pls, bases, i + 1)
  {
    var p := raw[i];
    var pageLinks := (set u | u in TextLinks(libs, p.text)) + AnnotationLinks(p.annotUris);
    var remaining := pageLinks - global;
    var ps, linked := ExtractParagraphsWithFonts(p.chars, remaining, libs);
    BuiltPage(libs, raw, pls, bases, i, ps, linked);
    global' := global + linked;
    var still := remaining - linked;
    var text := Join("\n", ParagraphTexts(ps));
    page := Page(i + 1, text, Strip(text) == [], |text|, libs.md5(text), ps, still);
  }

  /** The facts `LoadPage` needs about page `i`, from what `_extract_paragraphs_with_fonts` returns. */
  lemma {:induction false} BuiltPage(libs: Libs, raw: seq<RawPage>, pls: seq<set<string>>, bases: seq<seq<Paragraph>>,
                  i: nat, ps: seq<Paragraph>, linked: set<string>)
    requires pls == PageLinkSets(libs, raw) && bases == Bases(libs, raw) && i < |raw|
    requires var remaining := PageLinks(libs, raw[i]) - Assigned(libs, pls, bases, i);
             LinkedFrom(libs, BaseParagraphs(raw[i].chars, libs), remaining, ps)
             && linked == AssignedLinks(libs, BaseParagraphs(raw[i].chars, libs), remaining)
    ensures var text := Join("\n", ParagraphTexts(ps));
            var remaining := PageLinks(libs, raw[i]) - Assigned(libs, pls, bases, i);
            PageBuilt(libs, pls, bases, i, Page(i + 1, text, Strip(text) == [], |text|, libs.md5(text), ps, remaining - linked))
            && Assigned(libs, pls, bases, i) + linked == Assigned(libs, pls, bases, i + 1)
  {
    assert pls[i] == PageLinks(libs, raw[i]) && bases[i] == BaseParagraphs(raw[i].chars, libs);
    BuiltPageAt(libs, pls, bases, i, ps, linked);
  }

  /** Page `i` built from the paragraphs linked against its remaining links. */
  lemma {:induction false} BuiltPageAt(libs: Libs, pls: seq<set<string>>, bases: seq<seq<Paragraph>>,
                                       i: nat, ps: seq<Paragraph>, linked: set<string>)
    requires Aligned(pls, bases) && i < |pls|
    requires LinkedFrom(libs, bases[i], Remaining(libs, pls, bases, i), ps)
    requires linked == AssignedLinks(libs, bases[i], Remaining(libs, pls, bases, i))
    ensures var text := Join("\n", ParagraphTexts(ps));
            var remaining := pls[i] - Assigned(libs, pls, bases, i);
            PageBuilt(libs, pls, bases, i, Page(i + 1, text, Strip(text) == [], |text|, libs.md5(text), ps, remaining - linked))
            && Assigned(libs, pls, bases, i) + linked == Assigned(libs, pls, bases, i + 1)
  {
    assert linked == PageAssigned(libs, pls, bases, i);
    AssignedNext(libs, pls, bases, i);
  }

  /** The first loop of `load_pdf`: every page's raw text and `all_links_global`. */
  method CollectRawTexts(libs: Libs, raw: seq<RawPage>) returns (texts: seq<string>, allLinks: set<string>)
    ensures texts == RawTexts(raw) && allLinks == AllLinks(libs, raw)
  {
    texts := [];
    allLinks := {};
    for i := 0 to |raw|
      invariant texts == RawTexts(raw[..i])
      invariant allLinks == AllLinks(libs, raw[..i])
    {
      texts := texts + [raw[i].text];
      allLinks := allLinks + (set u | u in TextLinks(libs, raw[i].text)) + AnnotationLinks(raw[i].annotUris);
      AllLinksSnoc(libs, raw[..i], raw[i]);
      assert raw[..i + 1] == raw[..i] + [raw[i]];
    }
    assert raw[..|raw|] == raw;
  }

  /** Every page of `pages` is the one `load_pdf` builds at its position. */
  ghost predicate PagesBuilt(libs: Libs, pls: seq<set<string>>, bases: seq<seq<Paragraph>>, pages: seq<Page>)
    requires Aligned(pls, bases) && |pages| <= |pls|
    decreases |pages|
  {
    pages == [] ||
    (PagesBuilt(libs, pls, bases, pages[..|pages| - 1]) && PageBuilt(libs, pls, bases, |pages| - 1, pages[|pages| - 1]))
  }

  lemma {:induction false} PagesBuiltAt(libs: Libs, pls: seq<set<string>>, bases: seq<seq<Paragraph>>, pages: seq<Page>, k: nat)
    requires Aligned(pls, bases) && |pages| <= |pls| && PagesBuilt(libs, pls, bases, pages) && k < |pages|
    ensures PageBuilt(libs, pls, bases, k, pages[k])
    decreases |pages|
  {
    if k < |pages| - 1 {
      PagesBuiltAt(libs, pls, bases, pages[..|pages| - 1], k);
    }
  }

  lemma {:induction false} AllTablesSnoc(raw: seq<RawPage>, i: nat)
    requires i < |raw|
    ensures AllTables(raw[..i + 1]) == AllTables(raw[..i]) + PageTables(raw[i].tables, i + 1)
  {
    assert raw[..i + 1][..i] == raw[..i];
  }

  lemma {:induction false} PagesBuiltSnoc(libs: Libs, pls: seq<set<string>>, bases: seq<seq<Paragraph>>, pages: seq<Page>, page: Page)
    requires Aligned(pls, bases) && |pages| < |pls|
    requires PagesBuilt(libs, pls, bases, pages) && PageBuilt(libs, pls, bases, |pages|, page)
    ensures PagesBuilt(libs, pls, bases, pages + [page])
  {
    assert (pages + [page])[..|pages|] == pages;
  }

  /** The state of the second loop of `load_pdf` after `i` pages. */
  ghost predicate LoadedUpTo(libs: Libs, raw: seq<RawPage>, extractTables: bool, i: nat,
                             pages: seq<Page>, tables: seq<TableEntry>, global: set<string>) {
    var pls := PageLinkSets(libs, raw);
    var bases := Bases(libs, raw);
    i <= |raw| && |pages| == i
    && PagesBuilt(libs, pls, bases, pages)
    && global == Assigned(libs, pls, bases, i)
    && tables == (if extractTables then AllTables(raw[..i]) else [])
  }

  /** The second loop of `load_pdf`: the pages and, when asked for, their tables. */
  method LoadPages(libs: Libs, raw: seq<RawPage>, extractTables: bool) returns (pages: seq<Page>, tables: seq<TableEntry>)
    ensures |pages| == |raw| && PagesBuilt(libs, PageLinkSets(libs, raw), Bases(libs, raw), pages)
    ensures tables == if extractTables then AllTables(raw) else []
  {
    pages := [];
    tables := [];
    var global: set<string> := {};
    for i := 0 to |raw|
      invariant LoadedUpTo(libs, raw, extractTables, i, pages, tables, global)
    {
      pages, tables, global := LoadStep(libs, raw, extractTables, i, pages, tables, global);
    }
    assert raw[..|raw|] == raw;
  }

  /** One page of the second loop: the page record, the links it assigned and its tables. */
  method LoadStep(libs: Libs, raw: seq<RawPage>, extractTables: bool, i: nat,
                  pages: seq<Page>, tables: seq<TableEntry>, global: set<string>)
    returns (pages': seq<Page>, tables': seq<TableEntry>, global': set<string>)
    requires i < |raw| && LoadedUpTo(libs, raw, extractTables, i, pages, tables, global)
    ensures LoadedUpTo(libs, raw, extractTables, i + 1, pages', tables', global')
  {
    ghost var pls := PageLinkSets(libs, raw);
    ghost var bases := Bases(libs, raw);
    var page;
    page, global' := LoadPage(libs, raw, pls, bases, i, global);
    PagesBuiltSnoc(libs, pls, bases, pages, page);
    pages' := pages + [page];
    tables' := tables;
    if extractTables {
      var entries := CollectPageTables(raw[i].tables, i + 1);
      AllTablesSnoc(raw, i);
      tables' := tables + entries;
    }
  }

  /**
   * `load_pdf`: collect every page's raw text and links, detect the language from the first
   * pages, then build page after page, passing on the links already assigned to paragraphs, and
   * keep the non-blank tables when `extractTables` holds.
   */
  method LoadPdf(libs: Libs, info: PdfInfo, file: FileInfo, raw: seq<RawPage>, extractTables: bool)
    returns (doc: Document)
    ensures doc.metadata == LoadedMetadata(libs, info, file, raw)
    ensures |doc.pages| == |raw| && PagesBuilt(libs, PageLinkSets(libs, raw), Bases(libs, raw), doc.pages)
    ensures doc.tables == Some(if extractTables then AllTables(raw) else [])
  {
    var texts, allLinks := CollectRawTexts(libs, raw);
    var language := SafeDetectLanguage(libs, Sample(texts), MinSampleLength);
    var pages, tables := LoadPages(libs, raw, extractTables);
    var metadata := Metadata(
      language, info.title, info.author, info.subject, info.producer, info.createdAt,
      file.name, file.path, file.size, file.hash, |pages|, allLinks,
      [], None, [], None, None, None, None, None, None);
    doc := Document(metadata, pages, Some(tables));
  }
}
