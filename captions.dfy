/**
 * The caption pass of the preprocessor: on each page, a paragraph that lies far below (or above)
 * the previous reference paragraph and is smaller than the body text becomes a caption.
 *
 * The reference paragraph is the last one the loop "saw": a later paragraph at a positive heading
 * level is skipped without becoming the reference, so the gap is measured from the last
 * paragraph at level 0 or below (or from the page's first paragraph).
 */
module Captions {
  import opened Wrappers
  import opened Strings
  import opened DocModel

  /** `merge_threshold_factor` of the caption pass. */
  const CaptionGapFactor: int := 2

  /** A gap larger than twice the reference paragraph's font size. */
  predicate FarFrom(last: Paragraph, p: Paragraph) {
    Abs(p.y - last.y) > last.fontSize * CaptionGapFactor
  }

  /** The tag one paragraph gets, given the reference paragraph so far. */
  function TagOne(p: Paragraph, last: Option<Paragraph>): Paragraph {
    if last.None? then p.(isType := Normal)
    else if FarFrom(last.value, p) && p.headingLevel < 0 then p.(isType := Caption)
    else if p.headingLevel > 0 then p
    else p.(isType := Normal)
  }

  /** The reference paragraph after one paragraph: unchanged exactly when the paragraph was skipped. */
  function Advance(p: Paragraph, last: Option<Paragraph>): Option<Paragraph> {
    if last.Some? && !(FarFrom(last.value, p) && p.headingLevel < 0) && p.headingLevel > 0 then last
    else Some(TagOne(p, last))
  }

  datatype Tagging = Tagging(tagged: seq<Paragraph>, last: Option<Paragraph>)

  /** The page loop: the retagged paragraphs and the reference paragraph at the end. */
  function CaptionScan(ps: seq<Paragraph>): (r: Tagging)
    ensures |r.tagged| == |ps|
    decreases |ps|
  {
    if ps == [] then Tagging([], None)
    else
      var init := CaptionScan(ps[..|ps| - 1]);
      var p := ps[|ps| - 1];
      Tagging(init.tagged + [TagOne(p, init.last)], Advance(p, init.last))
  }

  /**
   * The index of the reference paragraph when paragraph `k` is reached: the last index before `k`
   * that is the first paragraph or is not at a positive heading level.
   */
  function LastRef(ps: seq<Paragraph>, k: nat): (j: nat)
    requires 0 < k <= |ps|
    ensures j < k && (j == 0 || ps[j].headingLevel <= 0)
    ensures forall i :: j < i < k ==> ps[i].headingLevel > 0
    decreases k
  {
    if k - 1 == 0 || ps[k - 1].headingLevel <= 0 then k - 1 else LastRef(ps, k - 1)
  }

  /** The tag of paragraph `k` stated without the loop. */
  function ExpectedType(ps: seq<Paragraph>, k: nat): ParaType
    requires k < |ps|
  {
    if k == 0 then Normal
    else if FarFrom(ps[LastRef(ps, k)], ps[k]) && ps[k].headingLevel < 0 then Caption
    else if ps[k].headingLevel > 0 then ps[k].isType
    else Normal
  }

  /** After `k > 0` paragraphs the reference has the position and size of paragraph `LastRef(ps, k)`. */
  lemma {:induction false} ReferenceAfter(ps: seq<Paragraph>, k: nat)
    requires 0 < k <= |ps|
    ensures var st := CaptionScan(ps[..k]);
            st.last.Some? && st.last.value.y == ps[LastRef(ps, k)].y
            && st.last.value.fontSize == ps[LastRef(ps, k)].fontSize
    decreases k
  {
    assert ps[..k][..k - 1] == ps[..k - 1];
    assert ps[..k][k - 1] == ps[k - 1];
    if k > 1 {
      ReferenceAfter(ps, k - 1);
    }
  }

  /** Paragraph `k` of the result is the one the loop tags with the reference it has then. */
  lemma {:induction false} TaggedAt(ps: seq<Paragraph>, k: nat)
    requires k < |ps|
    ensures CaptionScan(ps).tagged[k] == TagOne(ps[k], CaptionScan(ps[..k]).last)
    decreases |ps|
  {
    var init := ps[..|ps| - 1];
    if k < |ps| - 1 {
      TaggedAt(init, k);
      assert init[..k] == ps[..k];
    } else {
      assert init == ps[..k];
    }
  }

  /**
   * The pass in closed form: only the tag changes; the first paragraph of a page is body text
   * (even a heading); a later paragraph is a caption exactly when it is below the body size
   * (level -1) and far from the reference paragraph; otherwise it keeps a heading tag if it
   * is at a positive level and becomes body text if not.
   */
  lemma {:induction false} CaptionsAt(ps: seq<Paragraph>, k: nat)
    requires k < |ps|
    ensures CaptionScan(ps).tagged[k] == ps[k].(isType := ExpectedType(ps, k))
  {
    TaggedAt(ps, k);
    if k > 0 {
      ReferenceAfter(ps, k);
      var last := CaptionScan(ps[..k]).last;
      assert FarFrom(last.value, ps[k]) == FarFrom(ps[LastRef(ps, k)], ps[k]);
      if FarFrom(last.value, ps[k]) && ps[k].headingLevel < 0 {
        assert ExpectedType(ps, k) == Caption;
      } else if ps[k].headingLevel > 0 {
        assert ps[k].(isType := ps[k].isType) == ps[k];
      }
    } else {
      assert ps[..k] == [];
    }
  }

  /**
   * On paragraphs as the heading pass leaves them (a positive level only on headings), a caption
   * is always a paragraph below the body size, and a heading past the first paragraph stays one.
   */
  lemma {:induction false} CaptionsKeepHeadings(ps: seq<Paragraph>, k: nat)
    requires k < |ps| && (ps[k].headingLevel > 0 ==> ps[k].isType == Heading)
    ensures CaptionScan(ps).tagged[k].isType == Caption ==> ps[k].headingLevel < 0
    ensures k > 0 && ps[k].headingLevel > 0 ==> CaptionScan(ps).tagged[k] == ps[k]
  {
    CaptionsAt(ps, k);
    if k > 0 && ps[k].headingLevel > 0 {
      assert ps[k].(isType := ps[k].isType) == ps[k];
    }
  }

  /** The loop over one page, with `continue` for the skipped heading paragraphs. */
  method TagCaptionsOnPage(ps: seq<Paragraph>) returns (qs: seq<Paragraph>)
    ensures qs == CaptionScan(ps).tagged
  {
    qs := [];
    var last: Option<Paragraph> := None;
    for i := 0 to |ps|
      invariant qs == CaptionScan(ps[..i]).tagged && last == CaptionScan(ps[..i]).last
    {
      assert ps[..i + 1][..i] == ps[..i];
      var para := ps[i];
      if last.Some? {
        if Abs(para.y - last.value.y) > last.value.fontSize * CaptionGapFactor && para.headingLevel < 0 {
          para := para.(isType := Caption);
        } else {
          if para.headingLevel > 0 {
            qs := qs + [para];
            continue;
          }
          para := para.(isType := Normal);
        }
      } else {
        para := para.(isType := Normal);
      }
      qs := qs + [para];
      last := Some(para);
    }
    assert ps[..|ps|] == ps;
  }

  /** `_detect_table_and_image_captions` over the whole document. */
  function DetectCaptions(pages: seq<Page>): (r: seq<Page>)
    ensures |r| == |pages|
  {
    seq(|pages|, k requires 0 <= k < |pages| => pages[k].(paragraphs := CaptionScan(pages[k].paragraphs).tagged))
  }

  /** On every page only the paragraph tags change, each as `CaptionsAt` states. */
  lemma {:induction false} CaptionsOfDocument(pages: seq<Page>, k: nat, j: nat)
    requires k < |pages| && j < |pages[k].paragraphs|
    ensures var page := DetectCaptions(pages)[k];
            page == pages[k].(paragraphs := page.paragraphs)
            && |page.paragraphs| == |pages[k].paragraphs|
            && page.paragraphs[j] == pages[k].paragraphs[j].(isType := ExpectedType(pages[k].paragraphs, j))
  {
    CaptionsAt(pages[k].paragraphs, j);
  }

  /** The page loop of the pass. */
  method DetectCaptionsIn(pages: seq<Page>) returns (r: seq<Page>)
    ensures r == DetectCaptions(pages)
  {
    r := [];
    for i := 0 to |pages|
      invariant r == DetectCaptions(pages[..i])
    {
      var qs := TagCaptionsOnPage(pages[i].paragraphs);
      r := r + [pages[i].(paragraphs := qs)];
    }
    assert pages[..|pages|] == pages;
  }
}
