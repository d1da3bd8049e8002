/**
 * Header and footer detection (`_detect_and_remove_headers_footers`, `_detect_candidates`,
 * `_cluster_repeated_texts`): per page, the paragraphs near the top or bottom edge in a
 * candidate font size are collected; their texts are clustered across pages; then every
 * paragraph whose text is one of the collected texts is removed, and when no header (or no
 * footer) cluster repeats often enough a fallback removes short edge paragraphs instead.
 */
module Headers {
  import opened Wrappers
  import opened Strings
  import opened DocModel

  /** `header_threshold`: a paragraph with y above 100 pt lies in the header band. */
  const HeaderLimit: int := 100 * Unit
  /** `footer_threshold`: a paragraph with y below 700 pt lies in the footer band. */
  const FooterLimit: int := 700 * Unit
  /** `merge_threshold_factor` */
  const MergeFactor: int := 2
  /** `short_text_len` of the fallback. */
  const ShortTextLen: nat := 10
  /** `similarity_threshold` */
  const SimilarityThreshold: real := 0.9

  /** `SequenceMatcher(None, a, b).ratio()`, a foreign function. */
  type Ratio = (string, string) -> real

  // ------------------------------------------------------------------------------------------
  // _detect_candidates
  // ------------------------------------------------------------------------------------------

  /** A paragraph the scan keeps: a candidate size that is not the main size. */
  predicate IsCandidate(p: Paragraph, main: int, sizes: set<int>) {
    p.fontSize != main && p.fontSize in sizes
  }

  function CandidateTest(main: int, sizes: set<int>): Paragraph -> bool {
    (p: Paragraph) => IsCandidate(p, main, sizes)
  }

  function OtherTest(main: int, sizes: set<int>): Paragraph -> bool {
    (p: Paragraph) => !IsCandidate(p, main, sizes)
  }

  /** `dy > size * merge_threshold_factor` against the last kept candidate, which ends the scan. */
  predicate Breaks(p: Paragraph, lastY: Option<int>) {
    lastY.Some? && Abs(p.y - lastY.value) > p.fontSize * MergeFactor
  }

  datatype Split = Split(candidates: seq<Paragraph>, remaining: seq<Paragraph>)

  /** The scan of `_detect_candidates` from the last kept candidate's position `lastY` on. */
  function Scan(ps: seq<Paragraph>, main: int, sizes: set<int>, lastY: Option<int>): Split
    decreases |ps|
  {
    if ps == [] then Split([], [])
    else
      var p := ps[0];
      if p.fontSize == main then
        var r := Scan(ps[1..], main, sizes, lastY);
        r.(remaining := [p] + r.remaining)
      else if p.fontSize in sizes then
        if Breaks(p, lastY) then Split([], [])
        else
          var r := Scan(ps[1..], main, sizes, Some(p.y));
          r.(candidates := [p] + r.candidates)
      else
        var r := Scan(ps[1..], main, sizes, lastY);
        r.(remaining := [p] + r.remaining)
  }

  /** The y-position the next candidate is compared with, after keeping `kept`. */
  function LastY(kept: seq<Paragraph>, lastY: Option<int>): Option<int> {
    if kept == [] then lastY else Some(kept[|kept| - 1].y)
  }

  /**
   * The scan stops at index `n`: up to `n` every paragraph is either kept, when it is a
   * candidate, or left over, in input order; at `n` sits the first candidate too far from the
   * last kept one, or the input has ended.
   */
  ghost predicate StopsAt(ps: seq<Paragraph>, main: int, sizes: set<int>, lastY: Option<int>, n: nat) {
    var s := Scan(ps, main, sizes, lastY);
    n <= |ps|
    && s.candidates == Filter(ps[..n], CandidateTest(main, sizes))
    && s.remaining == Filter(ps[..n], OtherTest(main, sizes))
    && (n < |ps| ==> IsCandidate(ps[n], main, sizes) && Breaks(ps[n], LastY(s.candidates, lastY)))
  }

  /** Every scan stops somewhere. */
  lemma {:induction false} ScanStops(ps: seq<Paragraph>, main: int, sizes: set<int>, lastY: Option<int>)
    returns (n: nat)
    ensures StopsAt(ps, main, sizes, lastY, n)
    decreases |ps|
  {
    if ps == [] || (IsCandidate(ps[0], main, sizes) && Breaks(ps[0], lastY)) {
      n := 0;
      ScanStopsAtOnce(ps, main, sizes, lastY);
    } else {
      var next := if IsCandidate(ps[0], main, sizes) then Some(ps[0].y) else lastY;
      var m := ScanStops(ps[1..], main, sizes, next);
      ScanStopsStep(ps, main, sizes, lastY, m);
      n := m + 1;
    }
  }

  /** An empty input, or a first candidate too far away, ends the scan at once. */
  lemma {:induction false} ScanStopsAtOnce(ps: seq<Paragraph>, main: int, sizes: set<int>, lastY: Option<int>)
    requires ps == [] || (IsCandidate(ps[0], main, sizes) && Breaks(ps[0], lastY))
    ensures StopsAt(ps, main, sizes, lastY, 0)
  {
    assert Scan(ps, main, sizes, lastY) == Split([], []);
    assert ps[..0] == [];
  }

  /** `Scan` past a first paragraph that does not end it. */
  lemma ScanPast(ps: seq<Paragraph>, main: int, sizes: set<int>, lastY: Option<int>)
    requires ps != [] && !(IsCandidate(ps[0], main, sizes) && Breaks(ps[0], lastY))
    ensures var p := ps[0];
            var s := Scan(ps[1..], main, sizes, if IsCandidate(p, main, sizes) then Some(p.y) else lastY);
            Scan(ps, main, sizes, lastY)
              == if IsCandidate(p, main, sizes) then s.(candidates := [p] + s.candidates)
                 else s.(remaining := [p] + s.remaining)
  {
  }

  /** The step of `ScanStops` past a first paragraph that does not end the scan. */
  lemma {:induction false} ScanStopsStep(ps: seq<Paragraph>, main: int, sizes: set<int>, lastY: Option<int>, m: nat)
    requires ps != [] && !(IsCandidate(ps[0], main, sizes) && Breaks(ps[0], lastY))
    ensures StopsAt(ps[1..], main, sizes, if IsCandidate(ps[0], main, sizes) then Some(ps[0].y) else lastY, m)
            ==> StopsAt(ps, main, sizes, lastY, m + 1)
  {
    if !StopsAt(ps[1..], main, sizes, if IsCandidate(ps[0], main, sizes) then Some(ps[0].y) else lastY, m) {
      return;
    }
    var p := ps[0];
    var next := if IsCandidate(p, main, sizes) then Some(p.y) else lastY;
    var s := Scan(ps[1..], main, sizes, next);
    var s' := Scan(ps, main, sizes, lastY);
    ScanPast(ps, main, sizes, lastY);
    assert LastY(s'.candidates, lastY) == LastY(s.candidates, next);
    FilterPast(ps, m, CandidateTest(main, sizes));
    FilterPast(ps, m, OtherTest(main, sizes));
    if m + 1 < |ps| {
      assert ps[1..][m] == ps[m + 1];
    }
  }

  lemma {:induction false} FilterPast<T(!new)>(ps: seq<T>, m: nat, f: T -> bool)
    requires m < |ps|
    ensures Filter(ps[..m + 1], f) == (if f(ps[0]) then [ps[0]] else []) + Filter(ps[1..][..m], f)
  {
    assert ps[..m + 1] == [ps[0]] + ps[1..][..m];
    FilterCons(ps[0], ps[1..][..m], f);
  }

  /** Consecutive kept candidates are never further apart than the merge threshold. */
  lemma {:induction false} ScanChained(ps: seq<Paragraph>, main: int, sizes: set<int>, lastY: Option<int>)
    ensures var c := Scan(ps, main, sizes, lastY).candidates;
            (forall k :: 0 < k < |c| ==> Abs(c[k].y - c[k - 1].y) <= c[k].fontSize * MergeFactor)
            && (c != [] && lastY.Some? ==> Abs(c[0].y - lastY.value) <= c[0].fontSize * MergeFactor)
    decreases |ps|
  {
    if ps != [] {
      var p := ps[0];
      if p.fontSize == main || p.fontSize !in sizes {
        ScanChained(ps[1..], main, sizes, lastY);
        assert Scan(ps, main, sizes, lastY).candidates == Scan(ps[1..], main, sizes, lastY).candidates;
      } else if !Breaks(p, lastY) {
        ScanChained(ps[1..], main, sizes, Some(p.y));
        var t := Scan(ps[1..], main, sizes, Some(p.y)).candidates;
        var c := Scan(ps, main, sizes, lastY).candidates;
        assert c == [p] + t;
        assert forall k :: 0 < k < |c| ==> c[k] == t[k - 1];
      }
    }
  }

  /** `Scan` at index `i`, unfolded once. */
  lemma {:induction false} ScanFront(ps: seq<Paragraph>, i: nat, main: int, sizes: set<int>, lastY: Option<int>)
    requires i < |ps|
    ensures var p := ps[i];
            Scan(ps[i..], main, sizes, lastY)
            == if p.fontSize == main then
                 var r := Scan(ps[i + 1..], main, sizes, lastY); r.(remaining := [p] + r.remaining)
               else if p.fontSize in sizes then
                 if Breaks(p, lastY) then Split([], [])
                 else var r := Scan(ps[i + 1..], main, sizes, Some(p.y)); r.(candidates := [p] + r.candidates)
               else
                 var r := Scan(ps[i + 1..], main, sizes, lastY); r.(remaining := [p] + r.remaining)
  {
    assert ps[i..][1..] == ps[i + 1..];
  }

  /** The loop state of `_detect_candidates` at index `i`: the scan of the rest completes the result. */
  ghost predicate ScanSoFar(ps: seq<Paragraph>, main: int, sizes: set<int>, i: nat, lastY: Option<int>,
                            candidates: seq<Paragraph>, remaining: seq<Paragraph>) {
    i <= |ps| &&
    var s := Scan(ps[i..], main, sizes, lastY);
    Scan(ps, main, sizes, None) == Split(candidates + s.candidates, remaining + s.remaining)
  }

  /** A paragraph that does not end the scan is added to the candidates or to the rest. */
  lemma {:induction false} ScanKeeps(ps: seq<Paragraph>, main: int, sizes: set<int>, i: nat, lastY: Option<int>,
                                     candidates: seq<Paragraph>, remaining: seq<Paragraph>)
    requires i < |ps|
    requires !(ps[i].fontSize != main && ps[i].fontSize in sizes && Breaks(ps[i], lastY))
    ensures var p := ps[i];
            var isCandidate := p.fontSize != main && p.fontSize in sizes;
            ScanSoFar(ps, main, sizes, i, lastY, candidates, remaining) ==>
              ScanSoFar(ps, main, sizes, i + 1, if isCandidate then Some(p.y) else lastY,
                        if isCandidate then candidates + [p] else candidates,
                        if isCandidate then remaining else remaining + [p])
  {
    if ScanSoFar(ps, main, sizes, i, lastY, candidates, remaining) {
      ScanFront(ps, i, main, sizes, lastY);
      var p := ps[i];
      if p.fontSize != main && p.fontSize in sizes {
        var s := Scan(ps[i + 1..], main, sizes, Some(p.y));
        assert candidates + ([p] + s.candidates) == (candidates + [p]) + s.candidates;
      } else {
        var s := Scan(ps[i + 1..], main, sizes, lastY);
        assert remaining + ([p] + s.remaining) == (remaining + [p]) + s.remaining;
      }
    }
  }

  /** A candidate too far from the previous one ends the scan with what was gathered. */
  lemma {:induction false} ScanBreaksAt(ps: seq<Paragraph>, main: int, sizes: set<int>, i: nat, lastY: Option<int>,
                                        candidates: seq<Paragraph>, remaining: seq<Paragraph>)
    requires i < |ps| && ps[i].fontSize != main && ps[i].fontSize in sizes && Breaks(ps[i], lastY)
    ensures ScanSoFar(ps, main, sizes, i, lastY, candidates, remaining) ==>
              Scan(ps, main, sizes, None) == Split(candidates, remaining)
  {
    ScanFront(ps, i, main, sizes, lastY);
    assert candidates + [] == candidates && remaining + [] == remaining;
  }

  /** At the end of the page the scan is what was gathered. */
  lemma {:induction false} ScanDone(ps: seq<Paragraph>, main: int, sizes: set<int>, lastY: Option<int>,
                                    candidates: seq<Paragraph>, remaining: seq<Paragraph>)
    ensures ScanSoFar(ps, main, sizes, |ps|, lastY, candidates, remaining) ==>
              Scan(ps, main, sizes, None) == Split(candidates, remaining)
  {
    assert ps[|ps|..] == [];
    assert candidates + [] == candidates && remaining + [] == remaining;
  }

  /**
   * `_detect_candidates`: the candidate paragraphs (reversed when `reverse` is set) and the
   * main-size or non-candidate paragraphs seen before the scan stopped.
   */
  method DetectCandidates(ps: seq<Paragraph>, main: int, sizes: set<int>, reverse: bool)
    returns (candidates: seq<Paragraph>, remaining: seq<Paragraph>)
    ensures var s := Scan(ps, main, sizes, None);
            candidates == (if reverse then Reverse(s.candidates) else s.candidates)
            && remaining == s.remaining
  {
    candidates := [];
    remaining := [];
    var lastY: Option<int> := None;
    var i := 0;
    while i < |ps|
      invariant 0 <= i <= |ps|
      invariant ScanSoFar(ps, main, sizes, i, lastY, candidates, remaining)
    {
      var p := ps[i];
      if p.fontSize == main {
        ScanKeeps(ps, main, sizes, i, lastY, candidates, remaining);
        remaining := remaining + [p];
      } else if p.fontSize in sizes {
        if lastY.Some? && Abs(p.y - lastY.value) > p.fontSize * MergeFactor {
          ScanBreaksAt(ps, main, sizes, i, lastY, candidates, remaining);
          break;
        }
        ScanKeeps(ps, main, sizes, i, lastY, candidates, remaining);
        candidates := candidates + [p];
        lastY := Some(p.y);
      } else {
        ScanKeeps(ps, main, sizes, i, lastY, candidates, remaining);
        remaining := remaining + [p];
      }
      i := i + 1;
    }
    if i == |ps| {
      ScanDone(ps, main, sizes, lastY, candidates, remaining);
    }
    if reverse {
      candidates := Reverse(candidates);
    }
  }

  // ------------------------------------------------------------------------------------------
  // Candidate zones of a page
  // ------------------------------------------------------------------------------------------

  function InHeaderBand(): Paragraph -> bool { (p: Paragraph) => p.y < HeaderLimit }
  function InFooterBand(): Paragraph -> bool { (p: Paragraph) => p.y > FooterLimit }

  /** The header candidates of a page, top-down. */
  function HeaderCandidates(ps: seq<Paragraph>, main: int, sizes: set<int>): seq<Paragraph> {
    Scan(Filter(ps, InHeaderBand()), main, sizes, None).candidates
  }

  /**
   * The footer candidates of a page: the footer band is scanned bottom-up, and both the
   * `reverse=True` flag and the caller's `.reverse()` turn the list around, so it stays bottom-up.
   */
  function FooterCandidates(ps: seq<Paragraph>, main: int, sizes: set<int>): seq<Paragraph> {
    Scan(Reverse(Filter(ps, InFooterBand())), main, sizes, None).candidates
  }

  /** `[p["text"].strip() for p in candidates]` */
  function Texts(ps: seq<Paragraph>): (r: seq<string>)
    ensures |r| == |ps| && forall k :: 0 <= k < |ps| ==> r[k] == Strip(ps[k].text)
  {
    seq(|ps|, k requires 0 <= k < |ps| => Strip(ps[k].text))
  }

  /** `" ".join(texts).strip()` */
  function Combined(texts: seq<string>): string {
    Strip(Join(" ", texts))
  }

  /** The stripped header candidate texts of every page. */
  function HeaderZones(pages: seq<Page>, main: int, sizes: set<int>): (r: seq<seq<string>>)
    ensures |r| == |pages|
  {
    seq(|pages|, k requires 0 <= k < |pages| => Texts(HeaderCandidates(pages[k].paragraphs, main, sizes)))
  }

  /** The stripped footer candidate texts of every page, each bottom-up. */
  function FooterZones(pages: seq<Page>, main: int, sizes: set<int>): (r: seq<seq<string>>)
    ensures |r| == |pages|
  {
    seq(|pages|, k requires 0 <= k < |pages| => Texts(FooterCandidates(pages[k].paragraphs, main, sizes)))
  }

  /** `all_header_texts` / `all_footer_texts`: one combined text per page, blank ones included. */
  function Combineds(zones: seq<seq<string>>): (r: seq<string>)
    ensures |r| == |zones| && forall k :: 0 <= k < |zones| ==> r[k] == Combined(zones[k])
  {
    seq(|zones|, k requires 0 <= k < |zones| => Combined(zones[k]))
  }

  /**
   * `header_paras_flat` / `footer_paras_flat`: every candidate text of every page whose combined
   * text is not blank (the union of the values of `header_text_map`).
   */
  function Flat(zones: seq<seq<string>>, combined: seq<string>): set<string>
    requires |combined| == |zones|
  {
    FlatUpTo(zones, combined, |zones|)
  }

  function Members(z: seq<string>): (r: set<string>)
    ensures forall t :: t in r <==> t in z
  {
    set t | t in z
  }

  /** The flat set collected from the first `n` pages, given each page's combined text. */
  function FlatUpTo(zones: seq<seq<string>>, combined: seq<string>, n: nat): set<string>
    requires |combined| == |zones| && n <= |zones|
    decreases n
  {
    if n == 0 then {}
    else FlatUpTo(zones, combined, n - 1) + (if combined[n - 1] != "" then Members(zones[n - 1]) else {})
  }

  predicate InFlat(zones: seq<seq<string>>, combined: seq<string>, n: nat, t: string)
    requires |combined| == |zones| && n <= |zones|
  {
    exists k :: 0 <= k < n && combined[k] != "" && t in zones[k]
  }

  lemma {:induction false} FlatUpToMember(zones: seq<seq<string>>, combined: seq<string>, n: nat, t: string)
    requires |combined| == |zones| && n <= |zones|
    ensures t in FlatUpTo(zones, combined, n) <==> InFlat(zones, combined, n, t)
    decreases n
  {
    if n > 0 {
      FlatUpToMember(zones, combined, n - 1, t);
      if InFlat(zones, combined, n, t) {
        var k :| 0 <= k < n && combined[k] != "" && t in zones[k];
        if k < n - 1 {
          assert InFlat(zones, combined, n - 1, t);
        }
      }
    }
  }

  /** A text is in the flat set exactly when it is a candidate text of a page whose combined text is not blank. */
  lemma {:induction false} FlatMember(zones: seq<seq<string>>, t: string)
    ensures t in Flat(zones, Combineds(zones))
            <==> exists k :: 0 <= k < |zones| && Combined(zones[k]) != "" && t in zones[k]
  {
    var c := Combineds(zones);
    FlatUpToMember(zones, c, |zones|, t);
    if InFlat(zones, c, |zones|, t) {
      var k :| 0 <= k < |zones| && c[k] != "" && t in zones[k];
      assert Combined(zones[k]) != "";
    }
  }

  // ------------------------------------------------------------------------------------------
  // _cluster_repeated_texts
  // ------------------------------------------------------------------------------------------

  predicate Similar(ratio: Ratio, a: string, b: string) {
    ratio(a, b) >= SimilarityThreshold
  }

  /** The first representative from index `i` on that `t` is similar to. */
  function FirstSimilar(reps: seq<string>, t: string, ratio: Ratio, i: nat): (r: Option<nat>)
    requires i <= |reps|
    ensures r.Some? ==> i <= r.value < |reps| && Similar(ratio, t, reps[r.value])
                        && forall j :: i <= j < r.value ==> !Similar(ratio, t, reps[j])
    ensures r.None? ==> forall j :: i <= j < |reps| ==> !Similar(ratio, t, reps[j])
    decreases |reps| - i
  {
    if i == |reps| then None
    else if Similar(ratio, t, reps[i]) then Some(i)
    else FirstSimilar(reps, t, ratio, i + 1)
  }

  /** `clusters` and `cluster_counts`, index-aligned. */
  datatype Clusters = Clusters(reps: seq<string>, counts: seq<nat>)

  /** Cluster one more text: a blank text is skipped, a text similar to a representative bumps the first such one, any other text opens a cluster. */
  function AddText(c: Clusters, t: string, ratio: Ratio): (r: Clusters)
    requires |c.reps| == |c.counts|
    ensures |r.reps| == |r.counts|
  {
    if t == "" then c
    else
      match FirstSimilar(c.reps, t, ratio, 0)
      case Some(i) => c.(counts := c.counts[i := c.counts[i] + 1])
      case None => Clusters(c.reps + [t], c.counts + [1])
  }

  function ClusterTexts(texts: seq<string>, ratio: Ratio): (r: Clusters)
    ensures |r.reps| == |r.counts|
    decreases |texts|
  {
    if texts == [] then Clusters([], [])
    else AddText(ClusterTexts(texts[..|texts| - 1], ratio), texts[|texts| - 1], ratio)
  }

  /** `[clusters[i] for i, count in enumerate(cluster_counts) if count >= min_occurrences]` */
  function Frequent(reps: seq<string>, counts: seq<nat>, min: int): (r: seq<string>)
    requires |reps| == |counts|
    ensures |r| <= |reps|
    decreases |reps|
  {
    if reps == [] then []
    else
      var rest := Frequent(reps[1..], counts[1..], min);
      if counts[0] >= min then [reps[0]] + rest else rest
  }

  /** A text is kept exactly when some cluster it represents reached `min`. */
  lemma {:induction false} FrequentIff(reps: seq<string>, counts: seq<nat>, min: int, x: string)
    requires |reps| == |counts|
    ensures x in Frequent(reps, counts, min) <==> exists i :: 0 <= i < |reps| && reps[i] == x && counts[i] >= min
    decreases |reps|
  {
    if reps != [] {
      FrequentIff(reps[1..], counts[1..], min, x);
      if exists i :: 0 <= i < |reps| && reps[i] == x && counts[i] >= min {
        var i :| 0 <= i < |reps| && reps[i] == x && counts[i] >= min;
        if i > 0 {
          assert reps[1..][i - 1] == x && counts[1..][i - 1] >= min;
        }
      }
      if exists i :: 0 <= i < |reps[1..]| && reps[1..][i] == x && counts[1..][i] >= min {
        var i :| 0 <= i < |reps[1..]| && reps[1..][i] == x && counts[1..][i] >= min;
        assert reps[i + 1] == x && counts[i + 1] >= min;
      }
    }
  }

  /** `min_occurrences = int(len(text_list) * occurrence_ratio)` with the ratio 0.5: blank texts count. */
  function MinOccurrences(texts: seq<string>): nat {
    |texts| / 2
  }

  /** The recognized repeated texts. */
  function Recognized(texts: seq<string>, ratio: Ratio): seq<string> {
    var c := ClusterTexts(texts, ratio);
    Frequent(c.reps, c.counts, MinOccurrences(texts))
  }

  function Sum(xs: seq<nat>): nat
    decreases |xs|
  {
    if xs == [] then 0 else xs[0] + Sum(xs[1..])
  }

  lemma {:induction false} SumUpdate(xs: seq<nat>, i: nat, v: nat)
    requires i < |xs|
    ensures Sum(xs[i := v]) == Sum(xs) - xs[i] + v
    decreases |xs|
  {
    if i > 0 {
      assert xs[i := v][1..] == xs[1..][i - 1 := v];
      SumUpdate(xs[1..], i - 1, v);
    }
  }

  lemma {:induction false} SumSnoc(xs: seq<nat>, v: nat)
    ensures Sum(xs + [v]) == Sum(xs) + v
    decreases |xs|
  {
    if xs != [] {
      assert (xs + [v])[1..] == xs[1..] + [v];
      SumSnoc(xs[1..], v);
    }
  }

  /** The number of non-blank texts. */
  function NonBlankCount(texts: seq<string>): nat
    decreases |texts|
  {
    if texts == [] then 0
    else NonBlankCount(texts[..|texts| - 1]) + (if texts[|texts| - 1] != "" then 1 else 0)
  }

  /**
   * Every non-blank text lands in exactly one cluster: the counts add up to the number of
   * non-blank texts, every cluster was counted at least once, and every representative is one
   * of the texts and not blank.
   */
  lemma {:induction false} ClusterCounts(texts: seq<string>, ratio: Ratio)
    ensures var c := ClusterTexts(texts, ratio);
            Sum(c.counts) == NonBlankCount(texts)
            && (forall i :: 0 <= i < |c.counts| ==> c.counts[i] >= 1)
            && (forall i :: 0 <= i < |c.reps| ==> c.reps[i] != "" && c.reps[i] in texts)
    decreases |texts|
  {
    if texts != [] {
      var init := texts[..|texts| - 1];
      var t := texts[|texts| - 1];
      ClusterCounts(init, ratio);
      assert forall x :: x in init ==> x in texts;
      AddTextOk(ClusterTexts(init, ratio), t, ratio, NonBlankCount(init), init, texts);
    }
  }

  /** The clusters count `n` texts, every cluster at least once, under non-blank representatives from `texts`. */
  ghost predicate ClustersOk(c: Clusters, n: nat, texts: seq<string>) {
    |c.reps| == |c.counts|
    && Sum(c.counts) == n
    && (forall i :: 0 <= i < |c.counts| ==> c.counts[i] >= 1)
    && (forall i :: 0 <= i < |c.reps| ==> c.reps[i] != "" && c.reps[i] in texts)
  }

  /** Adding one more text of `texts` keeps the clusters in order and counts it when it is not blank. */
  lemma {:induction false} AddTextOk(c: Clusters, t: string, ratio: Ratio, n: nat, init: seq<string>, texts: seq<string>)
    requires |c.reps| == |c.counts| && t in texts && forall x :: x in init ==> x in texts
    ensures ClustersOk(c, n, init) ==> ClustersOk(AddText(c, t, ratio), n + (if t != "" then 1 else 0), texts)
  {
    if ClustersOk(c, n, init) && t != "" {
      match FirstSimilar(c.reps, t, ratio, 0)
      case Some(i) => SumUpdate(c.counts, i, c.counts[i] + 1);
      case None => SumSnoc(c.counts, 1);
    }
  }

  /** A representative is recognized exactly when its cluster reached `int(len(text_list) * 0.5)`. */
  lemma {:induction false} RecognizedIff(texts: seq<string>, ratio: Ratio, x: string)
    ensures var c := ClusterTexts(texts, ratio);
            x in Recognized(texts, ratio)
            <==> exists i :: 0 <= i < |c.reps| && c.reps[i] == x && c.counts[i] >= |texts| / 2
  {
    var c := ClusterTexts(texts, ratio);
    assert Recognized(texts, ratio) == Frequent(c.reps, c.counts, |texts| / 2);
    FrequentIff(c.reps, c.counts, |texts| / 2, x);
  }

  /** Every recognized text is a non-blank text of the list it was clustered from. */
  lemma {:induction false} RecognizedFromTexts(texts: seq<string>, ratio: Ratio, x: string)
    requires x in Recognized(texts, ratio)
    ensures x != "" && x in texts
  {
    ClusterCounts(texts, ratio);
    RecognizedIff(texts, ratio, x);
  }

  /** The inner loop of `_cluster_repeated_texts`: the first similar representative. */
  method FindCluster(reps: seq<string>, t: string, ratio: Ratio) returns (found: Option<nat>)
    ensures found == FirstSimilar(reps, t, ratio, 0)
  {
    found := None;
    var idx := 0;
    while idx < |reps|
      invariant 0 <= idx <= |reps|
      invariant FirstSimilar(reps, t, ratio, 0) == FirstSimilar(reps, t, ratio, idx)
    {
      if ratio(t, reps[idx]) >= SimilarityThreshold {
        found := Some(idx);
        break;
      }
      idx := idx + 1;
    }
  }

  /** `_cluster_repeated_texts` */
  method ClusterRepeatedTexts(texts: seq<string>, ratio: Ratio) returns (recognized: seq<string>)
    ensures recognized == Recognized(texts, ratio)
  {
    var clusters: seq<string> := [];
    var counts: seq<nat> := [];
    for i := 0 to |texts|
      invariant Clusters(clusters, counts) == ClusterTexts(texts[..i], ratio)
    {
      assert texts[..i + 1][..i] == texts[..i];
      var text := texts[i];
      if text != "" {
        var found := FindCluster(clusters, text, ratio);
        if found.Some? {
          counts := counts[found.value := counts[found.value] + 1];
        } else {
          clusters := clusters + [text];
          counts := counts + [1];
        }
      }
    }
    assert texts[..|texts|] == texts;
    recognized := Frequent(clusters, counts, |texts| / 2);
  }

  // ------------------------------------------------------------------------------------------
  // Removal of candidate texts, and the fallback
  // ------------------------------------------------------------------------------------------

  /** The paragraphs of one page after a removal pass, and the stripped texts it removed. */
  datatype Cleaned = Cleaned(kept: seq<Paragraph>, headers: seq<string>, footers: seq<string>)

  function KeepTest(hf: set<string>, ff: set<string>): Paragraph -> bool {
    (p: Paragraph) => Strip(p.text) !in hf && Strip(p.text) !in ff
  }

  /** The candidate pass over one page: header texts are tested first, then footer texts. */
  function CleanPage(ps: seq<Paragraph>, hf: set<string>, ff: set<string>): Cleaned
    decreases |ps|
  {
    if ps == [] then Cleaned([], [], [])
    else
      var r := CleanPage(ps[..|ps| - 1], hf, ff);
      var p := ps[|ps| - 1];
      var t := Strip(p.text);
      if t in hf then r.(headers := r.headers + [t])
      else if t in ff then r.(footers := r.footers + [t])
      else r.(kept := r.kept + [p])
  }

  /**
   * The survivors are exactly the paragraphs whose stripped text is no candidate text, in their
   * order; every other paragraph is reported once, as a header when its text is a header text.
   */
  lemma {:induction false} CleanPageSpec(ps: seq<Paragraph>, hf: set<string>, ff: set<string>)
    ensures var r := CleanPage(ps, hf, ff);
            r.kept == Filter(ps, KeepTest(hf, ff))
            && |r.kept| + |r.headers| + |r.footers| == |ps|
            && (forall t :: t in r.headers ==> t in hf)
            && (forall t :: t in r.footers ==> t in ff && t !in hf)
    decreases |ps|
  {
    if ps != [] {
      CleanPageSpec(ps[..|ps| - 1], hf, ff);
    }
  }

  /** One page of the candidate removal loop. */
  method CleanParagraphs(ps: seq<Paragraph>, hf: set<string>, ff: set<string>) returns (r: Cleaned)
    ensures r == CleanPage(ps, hf, ff)
  {
    var newParagraphs: seq<Paragraph> := [];
    var headers: seq<string> := [];
    var footers: seq<string> := [];
    for i := 0 to |ps|
      invariant Cleaned(newParagraphs, headers, footers) == CleanPage(ps[..i], hf, ff)
    {
      assert ps[..i + 1][..i] == ps[..i];
      var text := Strip(ps[i].text);
      if text in hf {
        headers := headers + [text];
      } else if text in ff {
        footers := footers + [text];
      } else {
        newParagraphs := newParagraphs + [ps[i]];
      }
    }
    assert ps[..|ps|] == ps;
    r := Cleaned(newParagraphs, headers, footers);
  }

  predicate ShortHeader(p: Paragraph) { p.y < HeaderLimit && |Strip(p.text)| <= ShortTextLen }
  predicate ShortFooter(p: Paragraph) { p.y > FooterLimit && |Strip(p.text)| <= ShortTextLen }

  function FallbackTest(main: int, fbHeader: bool, fbFooter: bool): Paragraph -> bool {
    (p: Paragraph) => p.fontSize == main || (!(fbHeader && ShortHeader(p)) && !(fbFooter && ShortFooter(p)))
  }

  /** The fallback pass over one page. */
  function FallbackPage(ps: seq<Paragraph>, main: int, fbHeader: bool, fbFooter: bool): Cleaned
    decreases |ps|
  {
    if ps == [] then Cleaned([], [], [])
    else
      var r := FallbackPage(ps[..|ps| - 1], main, fbHeader, fbFooter);
      var p := ps[|ps| - 1];
      var t := Strip(p.text);
      if p.fontSize == main then r.(kept := r.kept + [p])
      else if fbHeader && ShortHeader(p) then r.(headers := r.headers + [t])
      else if fbFooter && ShortFooter(p) then r.(footers := r.footers + [t])
      else r.(kept := r.kept + [p])
  }

  /**
   * The fallback keeps exactly the paragraphs of main size and those that are not short edge
   * text of an enabled side, in their order; everything it removes is short edge text.
   */
  lemma {:induction false} FallbackPageSpec(ps: seq<Paragraph>, main: int, fbHeader: bool, fbFooter: bool)
    ensures var r := FallbackPage(ps, main, fbHeader, fbFooter);
            r.kept == Filter(ps, FallbackTest(main, fbHeader, fbFooter))
            && |r.kept| + |r.headers| + |r.footers| == |ps|
            && (forall t :: t in r.headers ==> fbHeader && |t| <= ShortTextLen)
            && (forall t :: t in r.footers ==> fbFooter && |t| <= ShortTextLen)
    decreases |ps|
  {
    if ps != [] {
      FallbackPageSpec(ps[..|ps| - 1], main, fbHeader, fbFooter);
    }
  }

  /** With both sides disabled the fallback keeps every paragraph. */
  lemma {:induction false} FallbackDisabled(ps: seq<Paragraph>, main: int)
    ensures FallbackPage(ps, main, false, false) == Cleaned(ps, [], [])
    decreases |ps|
  {
    if ps != [] {
      FallbackDisabled(ps[..|ps| - 1], main);
      assert ps[..|ps| - 1] + [ps[|ps| - 1]] == ps;
    }
  }

  /** One page of the fallback loop. */
  method FallbackParagraphs(ps: seq<Paragraph>, main: int, fbHeader: bool, fbFooter: bool) returns (r: Cleaned)
    ensures r == FallbackPage(ps, main, fbHeader, fbFooter)
  {
    var remaining: seq<Paragraph> := [];
    var headers: seq<string> := [];
    var footers: seq<string> := [];
    for i := 0 to |ps|
      invariant Cleaned(remaining, headers, footers) == FallbackPage(ps[..i], main, fbHeader, fbFooter)
    {
      assert ps[..i + 1][..i] == ps[..i];
      var para := ps[i];
      var text := Strip(para.text);
      if para.fontSize == main {
        remaining := remaining + [para];
      } else if fbHeader && para.y < HeaderLimit && |text| <= ShortTextLen {
        headers := headers + [text];
      } else if fbFooter && para.y > FooterLimit && |text| <= ShortTextLen {
        footers := footers + [text];
      } else {
        remaining := remaining + [para];
      }
    }
    assert ps[..|ps| - 0] == ps;
    r := Cleaned(remaining, headers, footers);
  }

  // ------------------------------------------------------------------------------------------
  // The whole pass
  // ------------------------------------------------------------------------------------------

  /** The dictionary `_detect_and_remove_headers_footers` returns. */
  datatype RemovedInfo = RemovedInfo(
    headersCandidates: seq<string>,
    footersCandidates: seq<string>,
    headersFallback: seq<string>,
    footersFallback: seq<string>)

  /** `header_paras_flat`: the header candidate texts that the candidate pass removes. */
  function HeaderTexts(pages: seq<Page>, main: int, sizes: set<int>): set<string> {
    var hz := HeaderZones(pages, main, sizes);
    Flat(hz, Combineds(hz))
  }

  /** `footer_paras_flat` */
  function FooterTexts(pages: seq<Page>, main: int, sizes: set<int>): set<string> {
    var fz := FooterZones(pages, main, sizes);
    Flat(fz, Combineds(fz))
  }

  /** Every page with its paragraphs replaced by what a per-page pass keeps. */
  function CleanedPages(pages: seq<Page>, hf: set<string>, ff: set<string>): (r: seq<Page>)
    ensures |r| == |pages|
  {
    seq(|pages|, k requires 0 <= k < |pages| => pages[k].(paragraphs := CleanPage(pages[k].paragraphs, hf, ff).kept))
  }

  function CleanedHeaders(pages: seq<Page>, hf: set<string>, ff: set<string>): seq<string>
    decreases |pages|
  {
    if pages == [] then []
    else CleanedHeaders(pages[..|pages| - 1], hf, ff) + CleanPage(pages[|pages| - 1].paragraphs, hf, ff).headers
  }

  function CleanedFooters(pages: seq<Page>, hf: set<string>, ff: set<string>): seq<string>
    decreases |pages|
  {
    if pages == [] then []
    else CleanedFooters(pages[..|pages| - 1], hf, ff) + CleanPage(pages[|pages| - 1].paragraphs, hf, ff).footers
  }

  function FallbackPages(pages: seq<Page>, main: int, fbHeader: bool, fbFooter: bool): (r: seq<Page>)
    ensures |r| == |pages|
  {
    seq(|pages|, k requires 0 <= k < |pages| =>
      pages[k].(paragraphs := FallbackPage(pages[k].paragraphs, main, fbHeader, fbFooter).kept))
  }

  function FallbackHeaders(pages: seq<Page>, main: int, fbHeader: bool, fbFooter: bool): seq<string>
    decreases |pages|
  {
    if pages == [] then []
    else FallbackHeaders(pages[..|pages| - 1], main, fbHeader, fbFooter)
         + FallbackPage(pages[|pages| - 1].paragraphs, main, fbHeader, fbFooter).headers
  }

  function FallbackFooters(pages: seq<Page>, main: int, fbHeader: bool, fbFooter: bool): seq<string>
    decreases |pages|
  {
    if pages == [] then []
    else FallbackFooters(pages[..|pages| - 1], main, fbHeader, fbFooter)
         + FallbackPage(pages[|pages| - 1].paragraphs, main, fbHeader, fbFooter).footers
  }

  /** The outcome of the pass: the new pages, the recognized texts and what was removed. */
  datatype Outcome = Outcome(pages: seq<Page>, headers: seq<string>, footers: seq<string>, info: RemovedInfo)

  /** `_detect_and_remove_headers_footers` for a known main font size. */
  function RemoveHeadersFooters(pages: seq<Page>, main: int, sizes: set<int>, ratio: Ratio): (r: Outcome)
    ensures |r.pages| == |pages|
  {
    var hz := HeaderZones(pages, main, sizes);
    var fz := FooterZones(pages, main, sizes);
    var recH := Recognized(Combineds(hz), ratio);
    var recF := Recognized(Combineds(fz), ratio);
    var hf := HeaderTexts(pages, main, sizes);
    var ff := FooterTexts(pages, main, sizes);
    var cleaned := CleanedPages(pages, hf, ff);
    var fbH := recH == [];
    var fbF := recF == [];
    if fbH || fbF then
      Outcome(FallbackPages(cleaned, main, fbH, fbF), recH, recF,
              RemovedInfo(CleanedHeaders(pages, hf, ff), CleanedFooters(pages, hf, ff),
                          FallbackHeaders(cleaned, main, fbH, fbF), FallbackFooters(cleaned, main, fbH, fbF)))
    else
      Outcome(cleaned, recH, recF,
              RemovedInfo(CleanedHeaders(pages, hf, ff), CleanedFooters(pages, hf, ff), [], []))
  }

  /**
   * What survives the pass on a page is the page's own paragraphs with every paragraph whose
   * stripped text is a header or footer candidate text of some page dropped (whether or not its
   * cluster was recognized), followed by the fallback filter when a side recognized nothing, in
   * their original order. Nothing else on the page changes.
   */
  lemma {:induction false} PageAfterRemoval(pages: seq<Page>, main: int, sizes: set<int>, ratio: Ratio, k: nat)
    requires k < |pages|
    ensures var hz := HeaderZones(pages, main, sizes);
            var fz := FooterZones(pages, main, sizes);
            var r := RemoveHeadersFooters(pages, main, sizes, ratio);
            var once := Filter(pages[k].paragraphs, KeepTest(HeaderTexts(pages, main, sizes), FooterTexts(pages, main, sizes)));
            r.pages[k] == pages[k].(paragraphs := r.pages[k].paragraphs)
            && r.pages[k].paragraphs
               == (if r.headers == [] || r.footers == []
                   then Filter(once, FallbackTest(main, r.headers == [], r.footers == []))
                   else once)
  {
    var hz := HeaderZones(pages, main, sizes);
    var fz := FooterZones(pages, main, sizes);
    CleanPageSpec(pages[k].paragraphs, HeaderTexts(pages, main, sizes), FooterTexts(pages, main, sizes));
    var r := RemoveHeadersFooters(pages, main, sizes, ratio);
    var cleaned := CleanedPages(pages, HeaderTexts(pages, main, sizes), FooterTexts(pages, main, sizes));
    if r.headers == [] || r.footers == [] {
      FallbackPageSpec(cleaned[k].paragraphs, main, r.headers == [], r.footers == []);
    }
  }

  /** No survivor's stripped text is a candidate text of any page with a non-blank combined text. */
  lemma {:induction false} NoCandidateTextSurvives(pages: seq<Page>, main: int, sizes: set<int>, ratio: Ratio, k: nat, p: Paragraph)
    requires k < |pages|
    requires p in RemoveHeadersFooters(pages, main, sizes, ratio).pages[k].paragraphs
    ensures p in pages[k].paragraphs
    ensures forall j :: 0 <= j < |pages| && Combined(HeaderZones(pages, main, sizes)[j]) != ""
                        ==> Strip(p.text) !in HeaderZones(pages, main, sizes)[j]
    ensures forall j :: 0 <= j < |pages| && Combined(FooterZones(pages, main, sizes)[j]) != ""
                        ==> Strip(p.text) !in FooterZones(pages, main, sizes)[j]
  {
    var hz := HeaderZones(pages, main, sizes);
    var fz := FooterZones(pages, main, sizes);
    var r := RemoveHeadersFooters(pages, main, sizes, ratio);
    PageAfterRemoval(pages, main, sizes, ratio, k);
    var once := Filter(pages[k].paragraphs, KeepTest(HeaderTexts(pages, main, sizes), FooterTexts(pages, main, sizes)));
    assert p in once;
    FlatMember(hz, Strip(p.text));
    FlatMember(fz, Strip(p.text));
  }

  /** The fallback never removes a paragraph of exactly the main font size. */
  lemma {:induction false} FallbackKeepsMainSize(pages: seq<Page>, main: int, sizes: set<int>, ratio: Ratio, k: nat, p: Paragraph)
    requires k < |pages|
    requires p in pages[k].paragraphs && p.fontSize == main
    requires Strip(p.text) !in HeaderTexts(pages, main, sizes) + FooterTexts(pages, main, sizes)
    ensures p in RemoveHeadersFooters(pages, main, sizes, ratio).pages[k].paragraphs
  {
    PageAfterRemoval(pages, main, sizes, ratio, k);
  }

  /** The fallback runs only when a side recognized nothing; otherwise it removes nothing. */
  lemma {:induction false} FallbackOnlyWhenUnrecognized(pages: seq<Page>, main: int, sizes: set<int>, ratio: Ratio)
    ensures var r := RemoveHeadersFooters(pages, main, sizes, ratio);
            r.headers != [] && r.footers != [] ==> r.info.headersFallback == [] && r.info.footersFallback == []
    ensures var r := RemoveHeadersFooters(pages, main, sizes, ratio);
            (r.info.headersFallback != [] ==> r.headers == []) && (r.info.footersFallback != [] ==> r.footers == [])
  {
    var r := RemoveHeadersFooters(pages, main, sizes, ratio);
    var hf := HeaderTexts(pages, main, sizes);
    var ff := FooterTexts(pages, main, sizes);
    var cleaned := CleanedPages(pages, hf, ff);
    if r.headers != [] && r.footers == [] {
      FallbackHeadersDisabled(cleaned, main, true);
    }
    if r.headers == [] && r.footers != [] {
      FallbackFootersDisabled(cleaned, main, true);
    }
  }

  lemma {:induction false} FallbackPageNoHeaders(ps: seq<Paragraph>, main: int, fbFooter: bool)
    ensures FallbackPage(ps, main, false, fbFooter).headers == []
    decreases |ps|
  {
    if ps != [] {
      FallbackPageNoHeaders(ps[..|ps| - 1], main, fbFooter);
    }
  }

  lemma {:induction false} FallbackPageNoFooters(ps: seq<Paragraph>, main: int, fbHeader: bool)
    ensures FallbackPage(ps, main, fbHeader, false).footers == []
    decreases |ps|
  {
    if ps != [] {
      FallbackPageNoFooters(ps[..|ps| - 1], main, fbHeader);
    }
  }

  lemma {:induction false} FallbackHeadersDisabled(pages: seq<Page>, main: int, fbFooter: bool)
    ensures FallbackHeaders(pages, main, false, fbFooter) == []
    decreases |pages|
  {
    if pages != [] {
      FallbackHeadersDisabled(pages[..|pages| - 1], main, fbFooter);
      FallbackPageNoHeaders(pages[|pages| - 1].paragraphs, main, fbFooter);
    }
  }

  lemma {:induction false} FallbackFootersDisabled(pages: seq<Page>, main: int, fbHeader: bool)
    ensures FallbackFooters(pages, main, fbHeader, false) == []
    decreases |pages|
  {
    if pages != [] {
      FallbackFootersDisabled(pages[..|pages| - 1], main, fbHeader);
      FallbackPageNoFooters(pages[|pages| - 1].paragraphs, main, fbHeader);
    }
  }

  /**
   * A recognized header that is the combined text of a page with a single header candidate is
   * that candidate's text, so no paragraph with that stripped text survives. A recognized text
   * combined from several candidates is not itself a candidate text and is not removed as such.
   */
  lemma {:induction false} SingleRecognizedHeaderRemoved(pages: seq<Page>, main: int, sizes: set<int>, ratio: Ratio,
                                      j: nat, k: nat, p: Paragraph)
    requires j < |pages| && k < |pages|
    requires |HeaderZones(pages, main, sizes)[j]| == 1
    requires Combined(HeaderZones(pages, main, sizes)[j]) in RemoveHeadersFooters(pages, main, sizes, ratio).headers
    requires p in RemoveHeadersFooters(pages, main, sizes, ratio).pages[k].paragraphs
    ensures Strip(p.text) != Combined(HeaderZones(pages, main, sizes)[j])
  {
    var hz := HeaderZones(pages, main, sizes);
    var z := hz[j];
    var recH := Recognized(Combineds(hz), ratio);
    RecognizedFromTexts(Combineds(hz), ratio, Combined(z));
    var c := HeaderCandidates(pages[j].paragraphs, main, sizes);
    assert z[0] == Strip(c[0].text);
    StripStrip(c[0].text);
    assert Join(" ", z) == z[0];
    assert Combined(z) == z[0];
    NoCandidateTextSurvives(pages, main, sizes, ratio, k, p);
  }

  // ------------------------------------------------------------------------------------------
  // The loops of the whole pass
  // ------------------------------------------------------------------------------------------

  /**
   * The first page loop: each page's header and footer candidate texts, the combined texts
   * (`all_header_texts`, `all_footer_texts`) and the flat sets of candidate texts of the pages
   * whose combined text is not blank. The flat sets are built here as the pages go by; the
   * source first groups the same texts in a dictionary keyed by the combined text and takes the
   * union of its values afterwards, which is the same set.
   */
  method CollectZones(pages: seq<Page>, main: int, sizes: set<int>)
    returns (allHeaderTexts: seq<string>, allFooterTexts: seq<string>, hf: set<string>, ff: set<string>)
    ensures allHeaderTexts == Combineds(HeaderZones(pages, main, sizes))
    ensures allFooterTexts == Combineds(FooterZones(pages, main, sizes))
    ensures hf == HeaderTexts(pages, main, sizes) && ff == FooterTexts(pages, main, sizes)
  {
    ghost var hz := HeaderZones(pages, main, sizes);
    ghost var fz := FooterZones(pages, main, sizes);
    ghost var ch := Combineds(hz);
    ghost var cf := Combineds(fz);
    allHeaderTexts, allFooterTexts, hf, ff := [], [], {}, {};
    for k := 0 to |pages|
      invariant allHeaderTexts == ch[..k] && allFooterTexts == cf[..k]
      invariant hf == FlatUpTo(hz, ch, k) && ff == FlatUpTo(fz, cf, k)
    {
      var headerTexts, footerTexts := PageZones(pages[k], main, sizes);
      assert headerTexts == hz[k] && footerTexts == fz[k];
      allHeaderTexts, hf := AddZone(hz, allHeaderTexts, hf, k, headerTexts);
      allFooterTexts, ff := AddZone(fz, allFooterTexts, ff, k, footerTexts);
    }
    assert ch[..|pages|] == ch && cf[..|pages|] == cf;
  }

  /** One side of one page: the combined text is appended, and a non-blank page's texts join the flat set. */
  method AddZone(ghost zones: seq<seq<string>>, all: seq<string>, flat: set<string>, k: nat, texts: seq<string>)
    returns (all': seq<string>, flat': set<string>)
    requires k < |zones| && texts == zones[k]
    requires all == Combineds(zones)[..k] && flat == FlatUpTo(zones, Combineds(zones), k)
    ensures all' == Combineds(zones)[..k + 1] && flat' == FlatUpTo(zones, Combineds(zones), k + 1)
  {
    ZoneStep(zones, all, flat, k);
    var combined := Combined(texts);
    all' := all + [combined];
    flat' := flat;
    if combined != "" {
      flat' := flat + Members(texts);
    }
  }

  /** One page of the first loop: the combined text is appended and the page's texts join the flat set. */
  lemma {:induction false} ZoneStep(zones: seq<seq<string>>, all: seq<string>, flat: set<string>, k: nat)
    requires k < |zones|
    requires all == Combineds(zones)[..k] && flat == FlatUpTo(zones, Combineds(zones), k)
    ensures all + [Combined(zones[k])] == Combineds(zones)[..k + 1]
    ensures flat + (if Combined(zones[k]) != "" then Members(zones[k]) else {})
            == FlatUpTo(zones, Combineds(zones), k + 1)
  {
    var c := Combineds(zones);
    var ck := c[k];
    assert ck == Combined(zones[k]);
    TakeSnoc(c, k);
    FlatUpToNext(zones, c, k);
  }

  lemma FlatUpToNext(zones: seq<seq<string>>, combined: seq<string>, k: nat)
    requires |combined| == |zones| && k < |zones|
    ensures FlatUpTo(zones, combined, k + 1)
            == FlatUpTo(zones, combined, k) + (if combined[k] != "" then Members(zones[k]) else {})
  {
  }

  /** The candidate texts of one page: header candidates top-down, footer candidates bottom-up. */
  method PageZones(page: Page, main: int, sizes: set<int>) returns (headerTexts: seq<string>, footerTexts: seq<string>)
    ensures headerTexts == Texts(HeaderCandidates(page.paragraphs, main, sizes))
    ensures footerTexts == Texts(FooterCandidates(page.paragraphs, main, sizes))
  {
    var paras := page.paragraphs;
    var headerCandidates, headerRest := DetectCandidates(Filter(paras, InHeaderBand()), main, sizes, false);
    var footerCandidates, footerRest := DetectCandidates(Reverse(Filter(paras, InFooterBand())), main, sizes, true);
    footerCandidates := Reverse(footerCandidates);
    ReverseReverse(Scan(Reverse(Filter(paras, InFooterBand())), main, sizes, None).candidates);
    headerTexts := Texts(headerCandidates);
    footerTexts := Texts(footerCandidates);
  }

  lemma {:induction false} CleanedPagesSnoc(pages: seq<Page>, k: nat, hf: set<string>, ff: set<string>)
    requires k < |pages|
    ensures CleanedPages(pages[..k + 1], hf, ff)
            == CleanedPages(pages[..k], hf, ff) + [pages[k].(paragraphs := CleanPage(pages[k].paragraphs, hf, ff).kept)]
    ensures CleanedHeaders(pages[..k + 1], hf, ff) == CleanedHeaders(pages[..k], hf, ff) + CleanPage(pages[k].paragraphs, hf, ff).headers
    ensures CleanedFooters(pages[..k + 1], hf, ff) == CleanedFooters(pages[..k], hf, ff) + CleanPage(pages[k].paragraphs, hf, ff).footers
  {
    assert pages[..k + 1][..k] == pages[..k];
    var a := CleanedPages(pages[..k + 1], hf, ff);
    var b := CleanedPages(pages[..k], hf, ff);
    assert forall j :: 0 <= j < k ==> a[j] == b[j];
  }

  /** The removal loop over the pages. */
  method CleanAllPages(pages: seq<Page>, hf: set<string>, ff: set<string>)
    returns (cleaned: seq<Page>, headers: seq<string>, footers: seq<string>)
    ensures cleaned == CleanedPages(pages, hf, ff)
    ensures headers == CleanedHeaders(pages, hf, ff) && footers == CleanedFooters(pages, hf, ff)
  {
    cleaned, headers, footers := [], [], [];
    for k := 0 to |pages|
      invariant cleaned == CleanedPages(pages[..k], hf, ff)
      invariant headers == CleanedHeaders(pages[..k], hf, ff) && footers == CleanedFooters(pages[..k], hf, ff)
    {
      CleanedPagesSnoc(pages, k, hf, ff);
      var r := CleanParagraphs(pages[k].paragraphs, hf, ff);
      cleaned := cleaned + [pages[k].(paragraphs := r.kept)];
      headers := headers + r.headers;
      footers := footers + r.footers;
    }
    assert pages[..|pages|] == pages;
  }

  lemma {:induction false} FallbackPagesSnoc(pages: seq<Page>, k: nat, main: int, fbHeader: bool, fbFooter: bool)
    requires k < |pages|
    ensures FallbackPages(pages[..k + 1], main, fbHeader, fbFooter)
            == FallbackPages(pages[..k], main, fbHeader, fbFooter)
               + [pages[k].(paragraphs := FallbackPage(pages[k].paragraphs, main, fbHeader, fbFooter).kept)]
  {
    var a := FallbackPages(pages[..k + 1], main, fbHeader, fbFooter);
    var b := FallbackPages(pages[..k], main, fbHeader, fbFooter);
    assert forall j :: 0 <= j < k ==> a[j] == b[j];
  }

  lemma {:induction false} FallbackRemovedSnoc(pages: seq<Page>, k: nat, main: int, fbHeader: bool, fbFooter: bool)
    requires k < |pages|
    ensures FallbackHeaders(pages[..k + 1], main, fbHeader, fbFooter)
            == FallbackHeaders(pages[..k], main, fbHeader, fbFooter) + FallbackPage(pages[k].paragraphs, main, fbHeader, fbFooter).headers
    ensures FallbackFooters(pages[..k + 1], main, fbHeader, fbFooter)
            == FallbackFooters(pages[..k], main, fbHeader, fbFooter) + FallbackPage(pages[k].paragraphs, main, fbHeader, fbFooter).footers
  {
    assert pages[..k + 1][..k] == pages[..k];
  }

  /** The fallback loop over the pages. */
  method FallbackAllPages(pages: seq<Page>, main: int, fbHeader: bool, fbFooter: bool)
    returns (kept: seq<Page>, headers: seq<string>, footers: seq<string>)
    ensures kept == FallbackPages(pages, main, fbHeader, fbFooter)
    ensures headers == FallbackHeaders(pages, main, fbHeader, fbFooter)
    ensures footers == FallbackFooters(pages, main, fbHeader, fbFooter)
  {
    kept, headers, footers := [], [], [];
    for k := 0 to |pages|
      invariant kept == FallbackPages(pages[..k], main, fbHeader, fbFooter)
      invariant headers == FallbackHeaders(pages[..k], main, fbHeader, fbFooter)
      invariant footers == FallbackFooters(pages[..k], main, fbHeader, fbFooter)
    {
      FallbackPagesSnoc(pages, k, main, fbHeader, fbFooter);
      FallbackRemovedSnoc(pages, k, main, fbHeader, fbFooter);
      var r := FallbackParagraphs(pages[k].paragraphs, main, fbHeader, fbFooter);
      kept := kept + [pages[k].(paragraphs := r.kept)];
      headers := headers + r.headers;
      footers := footers + r.footers;
    }
    assert pages[..|pages|] == pages;
  }

  /** `_detect_and_remove_headers_footers` for a known main font size, loop by loop. */
  method DetectAndRemove(pages: seq<Page>, main: int, sizes: set<int>, ratio: Ratio) returns (r: Outcome)
    ensures r == RemoveHeadersFooters(pages, main, sizes, ratio)
  {
    var allHeaderTexts, allFooterTexts, hf, ff := CollectZones(pages, main, sizes);
    var recognizedHeaders := ClusterRepeatedTexts(allHeaderTexts, ratio);
    var recognizedFooters := ClusterRepeatedTexts(allFooterTexts, ratio);
    var cleaned, removedHeaders, removedFooters := CleanAllPages(pages, hf, ff);
    var fallbackHeaderNeeded := |recognizedHeaders| == 0;
    var fallbackFooterNeeded := |recognizedFooters| == 0;
    var result := cleaned;
    var fallbackHeaders: seq<string> := [];
    var fallbackFooters: seq<string> := [];
    if fallbackHeaderNeeded || fallbackFooterNeeded {
      result, fallbackHeaders, fallbackFooters := FallbackAllPages(cleaned, main, fallbackHeaderNeeded, fallbackFooterNeeded);
    }
    r := Outcome(result, recognizedHeaders, recognizedFooters,
                 RemovedInfo(removedHeaders, removedFooters, fallbackHeaders, fallbackFooters));
  }
}
