/**
 * Font statistics of the preprocessor (`_analyze_font_sizes`): a count of paragraphs per font
 * size rounded to two decimals, the most frequent size as the main font size, and the up to five
 * other sizes nearest to it as header/footer candidate sizes.
 */
module FontStats {
  import opened Wrappers
  import opened Strings
  import opened DocModel

  /** `dict(Counter)`: (rounded size, count) pairs, keys in order of first occurrence. */
  type Stats = seq<(int, nat)>

  /** The number of header/footer candidate sizes kept (`other_sizes[:5]`). */
  const NearbyCount: nat := 5

  function Keys(st: Stats): (r: seq<int>)
    ensures |r| == |st| && forall k :: 0 <= k < |st| ==> r[k] == st[k].0
  {
    seq(|st|, k requires 0 <= k < |st| => st[k].0)
  }

  /** `s in counter` */
  predicate HasKey(st: Stats, s: int)
    decreases |st|
  {
    st != [] && (st[0].0 == s || HasKey(st[1..], s))
  }

  predicate DistinctKeys(st: Stats)
    decreases |st|
  {
    st == [] || (!HasKey(st[1..], st[0].0) && DistinctKeys(st[1..]))
  }

  lemma {:induction false} HasKeyIndex(st: Stats, s: int) returns (k: nat)
    requires HasKey(st, s)
    ensures k < |st| && st[k].0 == s
    decreases |st|
  {
    if st[0].0 == s {
      k := 0;
    } else {
      var k' := HasKeyIndex(st[1..], s);
      k := k' + 1;
    }
  }

  lemma {:induction false} KeyAt(st: Stats, k: nat)
    requires k < |st|
    ensures HasKey(st, st[k].0)
    decreases k
  {
    if k > 0 {
      KeyAt(st[1..], k - 1);
    }
  }

  /** The count stored under `s`, 0 when `s` is not a key (`counter[s]`). */
  function CountOf(st: Stats, s: int): nat
    decreases |st|
  {
    if st == [] then 0 else if st[0].0 == s then st[0].1 else CountOf(st[1..], s)
  }

  /** The sum of all counts. */
  function Total(st: Stats): nat
    decreases |st|
  {
    if st == [] then 0 else st[0].1 + Total(st[1..])
  }

  /** `counter[s] += 1` */
  function Bump(st: Stats, s: int): (r: Stats)
    ensures r != []
    decreases |st|
  {
    if st == [] then [(s, 1)]
    else if st[0].0 == s then [(s, st[0].1 + 1)] + st[1..]
    else [st[0]] + Bump(st[1..], s)
  }

  /** After bumping `s`, the keys are the old keys and `s`. */
  lemma {:induction false} BumpKeys(st: Stats, s: int)
    ensures forall t :: HasKey(Bump(st, s), t) <==> HasKey(st, t) || t == s
    decreases |st|
  {
    if st != [] {
      var r := Bump(st, s);
      if st[0].0 == s {
        assert r[1..] == st[1..];
      } else {
        assert r[1..] == Bump(st[1..], s);
        BumpKeys(st[1..], s);
      }
    }
  }

  /** Bumping a new or an existing key keeps the keys distinct. */
  lemma {:induction false} BumpDistinct(st: Stats, s: int)
    requires DistinctKeys(st)
    ensures DistinctKeys(Bump(st, s))
    decreases |st|
  {
    if st != [] {
      var r := Bump(st, s);
      if st[0].0 == s {
        assert r[1..] == st[1..];
      } else {
        assert r[1..] == Bump(st[1..], s);
        BumpKeys(st[1..], s);
        BumpDistinct(st[1..], s);
      }
    }
  }

  /** Bumping `s` adds one to the count of `s`, to no other count, and to the total. */
  lemma {:induction false} BumpCount(st: Stats, s: int)
    ensures forall t :: CountOf(Bump(st, s), t) == CountOf(st, t) + (if t == s then 1 else 0)
    ensures Total(Bump(st, s)) == Total(st) + 1
    decreases |st|
  {
    if st != [] {
      var r := Bump(st, s);
      if st[0].0 == s {
        assert r[1..] == st[1..];
      } else {
        assert r[1..] == Bump(st[1..], s);
        BumpCount(st[1..], s);
      }
    }
  }

  /** The paragraphs whose font size rounds to `s`. */
  function SizeCount(ps: seq<Paragraph>, s: int): nat
    decreases |ps|
  {
    if ps == [] then 0
    else SizeCount(ps[..|ps| - 1], s) + (if Round2(ps[|ps| - 1].fontSize) == s then 1 else 0)
  }

  /** `font_counter` after counting the paragraphs `ps`. */
  function CountSizes(ps: seq<Paragraph>): Stats
    decreases |ps|
  {
    if ps == [] then [] else Bump(CountSizes(ps[..|ps| - 1]), Round2(ps[|ps| - 1].fontSize))
  }

  /**
   * Every paragraph is counted exactly once under its rounded size: the keys are distinct, a
   * size is a key exactly when some paragraph has it, the count of each size is the number of
   * paragraphs of that size, and the counts add up to the number of paragraphs.
   */
  lemma {:induction false} CountSizesSpec(ps: seq<Paragraph>)
    ensures DistinctKeys(CountSizes(ps))
    ensures forall s :: CountOf(CountSizes(ps), s) == SizeCount(ps, s)
    ensures forall s :: HasKey(CountSizes(ps), s) <==> SizeCount(ps, s) > 0
    ensures Total(CountSizes(ps)) == |ps|
    decreases |ps|
  {
    if ps != [] {
      var init := ps[..|ps| - 1];
      var s := Round2(ps[|ps| - 1].fontSize);
      CountSizesSpec(init);
      BumpKeys(CountSizes(init), s);
      BumpDistinct(CountSizes(init), s);
      BumpCount(CountSizes(init), s);
    }
  }

  /** `SizeCount` in the quantified form: the number of indices whose size rounds to `s` is positive iff one exists. */
  lemma {:induction false} SizeCountPositive(ps: seq<Paragraph>, s: int)
    ensures SizeCount(ps, s) > 0 <==> exists i :: 0 <= i < |ps| && Round2(ps[i].fontSize) == s
    decreases |ps|
  {
    if ps != [] {
      var init := ps[..|ps| - 1];
      SizeCountPositive(init, s);
      if SizeCount(init, s) > 0 {
        var i :| 0 <= i < |init| && Round2(init[i].fontSize) == s;
        assert ps[i] == init[i];
      }
      if exists i :: 0 <= i < |ps| && Round2(ps[i].fontSize) == s {
        var i :| 0 <= i < |ps| && Round2(ps[i].fontSize) == s;
        if i < |init| {
          assert init[i] == ps[i];
        }
      }
    }
  }

  /** The index of the first entry with the largest count (`max(font_stats, key=font_stats.get)`). */
  function FirstMax(st: Stats): (k: nat)
    requires st != []
    ensures k < |st|
    ensures forall j :: 0 <= j < |st| ==> st[j].1 <= st[k].1
    ensures forall j :: 0 <= j < k ==> st[j].1 < st[k].1
    decreases |st|
  {
    if |st| == 1 then 0
    else
      var k := FirstMax(st[..|st| - 1]);
      if st[|st| - 1].1 > st[k].1 then |st| - 1 else k
  }

  /** `main_font_size`: a size of maximal count, the first one counted on ties; None without sizes. */
  function MainSize(st: Stats): (m: Option<int>)
    ensures m.None? <==> st == []
    ensures m.Some? ==> exists k :: 0 <= k < |st| && st[k].0 == m.value
                          && (forall j :: 0 <= j < |st| ==> st[j].1 <= st[k].1)
                          && (forall j :: 0 <= j < k ==> st[j].1 < st[k].1)
  {
    if st == [] then None else Some(st[FirstMax(st)].0)
  }

  /** `[(size, count) for size, count in font_stats.items() if size != main_font_size]` */
  function Others(st: Stats, main: int): (r: Stats)
    ensures forall x :: x in r <==> x in st && x.0 != main
    ensures |r| <= |st|
    decreases |st|
  {
    if st == [] then []
    else
      var rest := Others(st[1..], main);
      assert forall x :: x in st <==> x == st[0] || x in st[1..];
      if st[0].0 != main then [st[0]] + rest else rest
  }

  function Dist(x: (int, nat), main: int): nat {
    Abs(x.0 - main)
  }

  predicate SortedByDist(s: Stats, main: int) {
    forall i, j :: 0 <= i < j < |s| ==> Dist(s[i], main) <= Dist(s[j], main)
  }

  /** Insert `x` after every element at most as far from `main` (keeps the sort stable). */
  function InsertByDist(x: (int, nat), s: Stats, main: int): (r: Stats)
    requires SortedByDist(s, main)
    ensures SortedByDist(r, main) && multiset(r) == multiset(s) + multiset{x}
    decreases |s|
  {
    if s == [] then [x]
    else if Dist(s[0], main) > Dist(x, main) then [x] + s
    else
      var t := InsertByDist(x, s[1..], main);
      InsertByDistCons(s[0], x, s[1..], t, main);
      assert s == [s[0]] + s[1..];
      [s[0]] + t
  }

  /** A sorted `t` holding `rest` and `x`, all at least as far as `a`, stays sorted with `a` in front. */
  lemma {:induction false} InsertByDistCons(a: (int, nat), x: (int, nat), rest: Stats, t: Stats, main: int)
    requires SortedByDist([a] + rest, main) && Dist(a, main) <= Dist(x, main) && SortedByDist(t, main)
    requires multiset(t) == multiset(rest) + multiset{x}
    ensures SortedByDist([a] + t, main)
  {
    forall k | 0 <= k < |t| ensures Dist(a, main) <= Dist(t[k], main) {
      assert t[k] in multiset(t);
      if t[k] != x {
        assert t[k] in multiset(rest);
        var i :| 0 <= i < |rest| && rest[i] == t[k];
        assert ([a] + rest)[0] == a && ([a] + rest)[i + 1] == t[k];
      }
    }
  }

  /** `other_sizes.sort(key=lambda x: abs(x[0] - main_font_size))`, a stable sort. */
  function SortByDist(xs: Stats, main: int): (r: Stats)
    ensures SortedByDist(r, main) && multiset(r) == multiset(xs)
    decreases |xs|
  {
    if xs == [] then []
    else
      assert xs == xs[..|xs| - 1] + [xs[|xs| - 1]];
      InsertByDist(xs[|xs| - 1], SortByDist(xs[..|xs| - 1], main), main)
  }

  /** `top_nearby_sizes`: the sizes of the first five entries after sorting by distance. */
  function Nearby(st: Stats, main: int): seq<int> {
    var sorted := SortByDist(Others(st, main), main);
    Keys(sorted[..Min(NearbyCount, |sorted|)])
  }

  /** `header_footer_candidate_sizes`; empty when there is no main size (then there are no sizes). */
  function CandidateSizes(st: Stats, main: Option<int>): set<int> {
    if main.None? then {} else set s | s in Nearby(st, main.value)
  }

  /** At most five sizes are candidates, and the main size is never one of them. */
  lemma {:induction false} CandidatesFew(st: Stats, main: int)
    ensures |CandidateSizes(st, Some(main))| <= NearbyCount
    ensures main !in CandidateSizes(st, Some(main))
  {
    var others := Others(st, main);
    var sorted := SortByDist(others, main);
    var near := Nearby(st, main);
    SetOfSeqSize(near);
    forall s | s in near ensures s != main {
      var k :| 0 <= k < |near| && near[k] == s;
      assert sorted[k] in multiset(others);
    }
  }

  /** Every candidate is a size that was counted. */
  lemma {:induction false} CandidatesCounted(st: Stats, main: int)
    ensures forall s :: s in CandidateSizes(st, Some(main)) ==> HasKey(st, s)
  {
    var others := Others(st, main);
    var sorted := SortByDist(others, main);
    var near := Nearby(st, main);
    forall s | s in near ensures HasKey(st, s) {
      var k :| 0 <= k < |near| && near[k] == s;
      assert sorted[k] in multiset(others);
      var j :| 0 <= j < |st| && st[j] == sorted[k];
      KeyAt(st, j);
    }
  }

  /** Every candidate is at least as near to the main size as every other size left out. */
  lemma {:induction false} CandidatesNearest(st: Stats, main: int, s: int, t: int)
    requires s in CandidateSizes(st, Some(main))
    requires HasKey(st, t) && t != main && t !in CandidateSizes(st, Some(main))
    ensures Abs(s - main) <= Abs(t - main)
  {
    var others := Others(st, main);
    var sorted := SortByDist(others, main);
    var n := Min(NearbyCount, |sorted|);
    var j := HasKeyIndex(st, t);
    assert st[j] in others;
    assert st[j] in multiset(sorted);
    var l :| 0 <= l < |sorted| && sorted[l] == st[j];
    NearerFirst(sorted, main, n, s, t, l);
  }

  /** In a list sorted by distance, a key of the first `n` entries is no further than a key after them. */
  lemma {:induction false} NearerFirst(sorted: Stats, main: int, n: nat, s: int, t: int, l: nat)
    requires SortedByDist(sorted, main) && n <= |sorted|
    requires s in Keys(sorted[..n]) && t !in Keys(sorted[..n])
    requires l < |sorted| && sorted[l].0 == t
    ensures Abs(s - main) <= Abs(t - main)
  {
    var near := Keys(sorted[..n]);
    var k :| 0 <= k < n && near[k] == s;
    PrefixKeysAvoid(sorted, n, t);
    assert sorted[k].0 == s && k < l;
  }

  /** A key missing from the keys of a prefix is at none of its positions. */
  lemma {:induction false} PrefixKeysAvoid(sorted: Stats, n: nat, t: int)
    requires n <= |sorted| && t !in Keys(sorted[..n])
    ensures forall i :: 0 <= i < n ==> sorted[i].0 != t
  {
    forall i | 0 <= i < n
      ensures sorted[i].0 != t
    {
      assert Keys(sorted[..n])[i] == sorted[i].0;
    }
  }

  /** `sorted(header_footer_candidate_sizes)`, as the metadata stores it. */
  function StoredCandidates(st: Stats, main: Option<int>): seq<int> {
    if main.None? then [] else SortAsc(Dedup(Nearby(st, main.value)))
  }

  /** The stored list holds exactly the candidate sizes, each once, in strictly ascending order. */
  lemma {:induction false} StoredCandidatesSorted(st: Stats, main: Option<int>)
    ensures var r := StoredCandidates(st, main);
            (forall s :: s in r <==> s in CandidateSizes(st, main))
            && forall i, j :: 0 <= i < j < |r| ==> r[i] < r[j]
  {
    if main.Some? {
      var d := Dedup(Nearby(st, main.value));
      var r := SortAsc(d);
      forall s ensures s in r <==> s in d {
        assert s in r <==> s in multiset(r);
      }
      SortedDistinct(r, d);
    }
  }

  lemma {:induction false} DistinctOnce(d: seq<int>, x: int)
    requires forall i, j :: 0 <= i < j < |d| ==> d[i] != d[j]
    ensures multiset(d)[x] <= 1
    decreases |d|
  {
    if d != [] {
      var init := d[..|d| - 1];
      DistinctOnce(init, x);
      assert d == init + [d[|d| - 1]];
      if x == d[|d| - 1] {
        assert x !in init;
      }
    }
  }

  lemma {:induction false} SortedDistinct(r: seq<int>, d: seq<int>)
    requires SortedAsc(r) && multiset(r) == multiset(d)
    requires forall i, j :: 0 <= i < j < |d| ==> d[i] != d[j]
    ensures forall i, j :: 0 <= i < j < |r| ==> r[i] < r[j]
  {
    forall i, j | 0 <= i < j < |r| ensures r[i] < r[j] {
      if r[i] == r[j] {
        assert r == r[..j] + r[j..];
        assert r[i] in multiset(r[..j]) && r[j] in multiset(r[j..]);
        DistinctOnce(d, r[i]);
        assert false;
      }
    }
  }

  lemma {:induction false} SetOfSeqSize(xs: seq<int>)
    ensures |set s | s in xs| <= |xs|
    decreases |xs|
  {
    if xs != [] {
      var init := xs[..|xs| - 1];
      SetOfSeqSize(init);
      assert (set s | s in xs) == (set s | s in init) + {xs[|xs| - 1]} by {
        assert xs == init + [xs[|xs| - 1]];
      }
    }
  }

  /**
   * The counting loop of `_analyze_font_sizes`: every paragraph (all of them carry a font size)
   * bumps the count of its size rounded to two decimals.
   */
  method CountFontSizes(ps: seq<Paragraph>) returns (st: Stats)
    ensures st == CountSizes(ps)
  {
    st := [];
    for i := 0 to |ps|
      invariant st == CountSizes(ps[..i])
    {
      assert ps[..i + 1][..i] == ps[..i];
      st := Bump(st, Round2(ps[i].fontSize));
    }
    assert ps[..|ps|] == ps;
  }
}
