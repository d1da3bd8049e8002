/** The handful of Python string and list builtins the core relies on, written out. */
module Strings {
  import opened Wrappers

  /** Python's `str.isspace` for one character. */
  predicate IsSpace(c: char) {
    c == ' ' || ('\t' <= c <= '\r') || ('\U{1c}' <= c <= '\U{1f}')
    || c == '\U{85}' || c == '\U{a0}' || c == '\U{1680}' || ('\U{2000}' <= c <= '\U{200a}')
    || c == '\U{2028}' || c == '\U{2029}' || c == '\U{202f}' || c == '\U{205f}' || c == '\U{3000}'
  }

  /** `s.lstrip()` */
  function StripLeft(s: string): (r: string)
    ensures |r| <= |s| && r == s[|s| - |r|..]
    ensures r == [] || !IsSpace(r[0])
    ensures forall i :: 0 <= i < |s| - |r| ==> IsSpace(s[i])
  {
    if s != [] && IsSpace(s[0]) then StripLeft(s[1..]) else s
  }

  /** `s.rstrip()` */
  function StripRight(s: string): (r: string)
    ensures |r| <= |s| && r == s[..|r|]
    ensures r == [] || !IsSpace(r[|r| - 1])
    ensures forall i :: |r| <= i < |s| ==> IsSpace(s[i])
  {
    if s != [] && IsSpace(s[|s| - 1]) then StripRight(s[..|s| - 1]) else s
  }

  /** `s.strip()`: what is left after removing leading and trailing whitespace. */
  function Strip(s: string): (r: string)
    ensures |r| <= |s|
    ensures r == [] || (!IsSpace(r[0]) && !IsSpace(r[|r| - 1]))
  {
    StripRight(StripLeft(s))
  }

  /** A string is blank when stripping leaves nothing, i.e. when it is all whitespace. */
  lemma {:induction false} BlankIffAllSpace(s: string)
    ensures Strip(s) == [] <==> forall i :: 0 <= i < |s| ==> IsSpace(s[i])
  {
    var l := StripLeft(s);
    if Strip(s) == [] {
      assert |l| == 0;
    } else {
      var r := Strip(s);
      assert r[0] == l[0] == s[|s| - |l|];
    }
  }

  /** The capitals of ASCII and of Latin-1 ('À' to 'Þ' without '×', which includes the German umlauts). */
  predicate IsUpper(c: char) {
    'A' <= c <= 'Z' || ('\U{00C0}' <= c <= '\U{00DE}' && c != '\U{00D7}')
  }

  /** `str.lower()` for the capitals `IsUpper` names; other characters are left as they are. */
  function LowerChar(c: char): char {
    if IsUpper(c) then (c as int + 32) as char else c
  }

  function Lower(s: string): (r: string)
    ensures |r| == |s| && forall i :: 0 <= i < |s| ==> r[i] == LowerChar(s[i])
    decreases |s|
  {
    if s == [] then [] else [LowerChar(s[0])] + Lower(s[1..])
  }

  lemma {:induction false} LowerAppend(a: string, b: string)
    ensures Lower(a + b) == Lower(a) + Lower(b)
    decreases |a|
  {
    if a != [] {
      assert (a + b)[1..] == a[1..] + b;
      LowerAppend(a[1..], b);
    }
  }

  /** Lowering leaves a string without capital letters unchanged. */
  lemma {:induction false} LowerNoCapitals(s: string)
    requires forall i :: 0 <= i < |s| ==> !IsUpper(s[i])
    ensures Lower(s) == s
  {
    assert forall i :: 0 <= i < |s| ==> Lower(s)[i] == s[i];
  }

  /** `sep.join(parts)` */
  function Join(sep: string, parts: seq<string>): string
    decreases |parts|
  {
    if |parts| == 0 then ""
    else if |parts| == 1 then parts[0]
    else parts[0] + sep + Join(sep, parts[1..])
  }

  lemma {:induction false} JoinSnoc(sep: string, parts: seq<string>, last: string)
    requires parts != []
    ensures Join(sep, parts + [last]) == Join(sep, parts) + sep + last
    decreases |parts|
  {
    if |parts| == 1 {
      assert parts + [last] == [parts[0], last];
      assert Join(sep, [last]) == last;
    } else {
      assert (parts + [last])[1..] == parts[1..] + [last];
      JoinSnoc(sep, parts[1..], last);
    }
  }

  /** Appending to the text of the last part extends the joined string by the same suffix. */
  lemma {:induction false} JoinExtendLast(sep: string, parts: seq<string>, suffix: string)
    requires parts != []
    ensures Join(sep, parts[..|parts| - 1] + [parts[|parts| - 1] + suffix]) == Join(sep, parts) + suffix
  {
    var init := parts[..|parts| - 1];
    var lst := parts[|parts| - 1];
    if init == [] {
      assert parts == [lst];
    } else {
      JoinSnoc(sep, init, lst + suffix);
      JoinSnoc(sep, init, lst);
      assert init + [lst] == parts;
    }
  }

  /** `p` occurs in `s` starting at index `i`. */
  predicate OccursAt(s: string, p: string, i: int) {
    0 <= i <= |s| - |p| && s[i..i + |p|] == p
  }

  /** `p in s` for strings: `p` occurs as a contiguous piece of `s`. */
  function Contains(s: string, p: string): (b: bool)
    ensures b <==> exists i :: OccursAt(s, p, i)
    decreases |s|
  {
    if |p| > |s| then false
    else if s[..|p|] == p then assert OccursAt(s, p, 0); true
    else
      var b := Contains(s[1..], p);
      assert forall i :: OccursAt(s[1..], p, i) <==> OccursAt(s, p, i + 1) by {
        forall i ensures OccursAt(s[1..], p, i) <==> OccursAt(s, p, i + 1) {
          if 0 <= i <= |s| - 1 - |p| {
            assert s[1..][i..i + |p|] == s[i + 1..i + 1 + |p|];
          }
        }
      }
      assert b ==> exists i :: OccursAt(s, p, i) by {
        if b {
          var i :| OccursAt(s[1..], p, i);
          assert OccursAt(s, p, i + 1);
        }
      }
      assert (exists i :: OccursAt(s, p, i)) ==> b by {
        if exists i :: OccursAt(s, p, i) {
          var i :| OccursAt(s, p, i);
          assert i != 0;
          assert OccursAt(s[1..], p, i - 1);
        }
      }
      b
  }

  /** `s.replace(a, b)` for single characters (the document title's spaces become underscores). */
  function ReplaceChar(s: string, a: char, b: char): (r: string)
    ensures |r| == |s|
    ensures forall i :: 0 <= i < |s| ==> r[i] == (if s[i] == a then b else s[i])
  {
    seq(|s|, i requires 0 <= i < |s| => if s[i] == a then b else s[i])
  }

  /** Python's `s[-n:]`: note that `s[-0:]` is the whole string. */
  function PySuffix<T>(s: seq<T>, n: int): (r: seq<T>)
    ensures n > 0 ==> r == s[|s| - Min(n, |s|)..]
    ensures n == 0 ==> r == s
    ensures n < 0 ==> r == s[Min(-n, |s|)..]
  {
    if n > 0 then s[|s| - Min(n, |s|)..]
    else if n == 0 then s
    else s[Min(-n, |s|)..]
  }

  function Min(a: int, b: int): int { if a <= b then a else b }
  function Max(a: int, b: int): int { if a >= b then a else b }
  function Abs(a: int): nat { if a < 0 then -a else a }

  function DigitChar(d: nat): char
    requires d < 10
  {
    "0123456789"[d]
  }

  predicate IsDigit(c: char) { '0' <= c <= '9' }

  /** `str(n)` for a natural number. */
  function NatToString(n: nat): (r: string)
    ensures |r| >= 1 && forall i :: 0 <= i < |r| ==> IsDigit(r[i])
    decreases n
  {
    if n < 10 then [DigitChar(n)] else NatToString(n / 10) + [DigitChar(n % 10)]
  }

  /** `str(i)` for any integer. */
  function IntToString(i: int): (r: string)
    ensures |r| >= 1
  {
    if i < 0 then "-" + NatToString(-i) else NatToString(i)
  }

  /** Python's `repr` of a list of integers, e.g. `[-1, 0]`. */
  function IntListRepr(xs: seq<int>): string {
    "[" + Join(", ", IntsToStrings(xs)) + "]"
  }

  function IntsToStrings(xs: seq<int>): (r: seq<string>)
    ensures |r| == |xs| && forall i :: 0 <= i < |xs| ==> r[i] == IntToString(xs[i])
  {
    seq(|xs|, i requires 0 <= i < |xs| => IntToString(xs[i]))
  }

  /** `list(set(xs))`, with the order a set happens to keep fixed as first occurrence. */
  function Dedup<T(==,!new)>(xs: seq<T>): (r: seq<T>)
    ensures forall x :: x in r <==> x in xs
    ensures forall i, j :: 0 <= i < j < |r| ==> r[i] != r[j]
    ensures |r| <= |xs|
    decreases |xs|
  {
    if xs == [] then []
    else
      var d := Dedup(xs[..|xs| - 1]);
      var x := xs[|xs| - 1];
      assert forall y :: y in xs <==> y in xs[..|xs| - 1] || y == x by {
        assert xs == xs[..|xs| - 1] + [x];
      }
      if x in d then d else d + [x]
  }

  /** Python's `xs[i]` for a possibly negative `i` (counted from the end). */
  function PyIndex<T>(xs: seq<T>, i: int): (r: Option<T>)
    ensures r.Some? <==> -|xs| <= i < |xs|
    ensures 0 <= i < |xs| ==> r == Some(xs[i])
    ensures -|xs| <= i < 0 ==> r == Some(xs[|xs| + i])
  {
    if 0 <= i < |xs| then Some(xs[i])
    else if -|xs| <= i < 0 then Some(xs[|xs| + i])
    else None
  }

  /** The last position below `n` that holds `x`, if any. */
  function LastIndexBelow<T(==)>(xs: seq<T>, x: T, n: nat): (r: Option<nat>)
    requires n <= |xs|
    ensures r.None? <==> forall j :: 0 <= j < n ==> xs[j] != x
    ensures r.Some? ==> r.value < n && xs[r.value] == x && forall j :: r.value < j < n ==> xs[j] != x
    decreases n
  {
    if n == 0 then None
    else if xs[n - 1] == x then Some(n - 1)
    else LastIndexBelow(xs, x, n - 1)
  }

  predicate SortedAsc(s: seq<int>) {
    forall i, j :: 0 <= i < j < |s| ==> s[i] <= s[j]
  }

  function InsertAsc(x: int, s: seq<int>): (r: seq<int>)
    requires SortedAsc(s)
    ensures SortedAsc(r) && multiset(r) == multiset(s) + multiset{x} && |r| == |s| + 1
    decreases |s|
  {
    if s == [] then [x]
    else if x <= s[0] then [x] + s
    else
      var t := InsertAsc(x, s[1..]);
      InsertAscCons(s[0], x, s[1..], t);
      assert s == [s[0]] + s[1..];
      [s[0]] + t
  }

  /** A sorted `t` holding `rest` and `x`, all at least `a`, stays sorted with `a` in front. */
  lemma {:induction false} InsertAscCons(a: int, x: int, rest: seq<int>, t: seq<int>)
    requires SortedAsc([a] + rest) && a < x && SortedAsc(t)
    requires multiset(t) == multiset(rest) + multiset{x}
    ensures SortedAsc([a] + t)
  {
    forall k | 0 <= k < |t| ensures a <= t[k] {
      assert t[k] in multiset(t);
      if t[k] != x {
        assert t[k] in multiset(rest);
        var i :| 0 <= i < |rest| && rest[i] == t[k];
        assert ([a] + rest)[0] == a && ([a] + rest)[i + 1] == t[k];
      }
    }
  }

  /** `sorted(xs)` for integers: the same elements, in ascending order. */
  function SortAsc(xs: seq<int>): (r: seq<int>)
    ensures SortedAsc(r) && multiset(r) == multiset(xs) && |r| == |xs|
    decreases |xs|
  {
    if xs == [] then []
    else
      assert xs == xs[..|xs| - 1] + [xs[|xs| - 1]];
      InsertAsc(xs[|xs| - 1], SortAsc(xs[..|xs| - 1]))
  }

  /** `s.split(c)` for one separator character: the pieces between the occurrences of `c`. */
  function SplitOn(s: string, c: char): (r: seq<string>)
    ensures |r| >= 1
    decreases |s|
  {
    if s == [] then [""]
    else if s[0] == c then [""] + SplitOn(s[1..], c)
    else
      var t := SplitOn(s[1..], c);
      [[s[0]] + t[0]] + t[1..]
  }

  lemma {:induction false} SplitOnFree(a: string, c: char, rest: string)
    requires c !in a
    ensures SplitOn(a + rest, c) == [a + SplitOn(rest, c)[0]] + SplitOn(rest, c)[1..]
    decreases |a|
  {
    var t := SplitOn(rest, c);
    if a != [] {
      assert (a + rest)[1..] == a[1..] + rest;
      assert (a + rest)[0] == a[0] != c;
      SplitOnFree(a[1..], c, rest);
      var u := SplitOn(a[1..] + rest, c);
      assert u[0] == a[1..] + t[0] && u[1..] == t[1..];
      assert [a[0]] + (a[1..] + t[0]) == a + t[0];
    } else {
      assert a + rest == rest;
      assert a + t[0] == t[0];
      assert t == [t[0]] + t[1..];
    }
  }

  /** Splitting a join on its one-character separator gives back the parts, when no part holds it. */
  lemma {:induction false} SplitJoin(parts: seq<string>, c: char)
    requires parts != [] && forall k :: 0 <= k < |parts| ==> c !in parts[k]
    ensures SplitOn(Join([c], parts), c) == parts
    decreases |parts|
  {
    if |parts| == 1 {
      SplitOnFree(parts[0], c, "");
      assert parts[0] + "" == parts[0];
    } else {
      var tail := Join([c], parts[1..]);
      SplitJoin(parts[1..], c);
      assert Join([c], parts) == parts[0] + ([c] + tail);
      SplitOnFree(parts[0], c, [c] + tail);
      assert ([c] + tail)[1..] == tail;
      var sp := SplitOn([c] + tail, c);
      assert sp == [""] + parts[1..];
      assert sp[0] == "" && sp[1..] == parts[1..];
      assert parts[0] + sp[0] == parts[0];
      assert parts == [parts[0]] + parts[1..];
    }
  }

  /** `list(reversed(xs))` */
  function Reverse<T>(xs: seq<T>): (r: seq<T>)
    ensures |r| == |xs| && forall k :: 0 <= k < |xs| ==> r[k] == xs[|xs| - 1 - k]
  {
    seq(|xs|, k requires 0 <= k < |xs| => xs[|xs| - 1 - k])
  }

  lemma ReverseReverse<T>(xs: seq<T>)
    ensures Reverse(Reverse(xs)) == xs
  {
  }

  /** `[x for x in xs if keep(x)]` */
  function Filter<T(!new)>(xs: seq<T>, keep: T -> bool): (r: seq<T>)
    ensures |r| <= |xs|
    ensures forall x :: x in r <==> x in xs && keep(x)
    decreases |xs|
  {
    if xs == [] then []
    else
      var init := Filter(xs[..|xs| - 1], keep);
      var x := xs[|xs| - 1];
      assert forall y :: y in xs <==> y in xs[..|xs| - 1] || y == x by {
        assert xs == xs[..|xs| - 1] + [x];
      }
      if keep(x) then init + [x] else init
  }

  lemma {:induction false} FilterSnoc<T(!new)>(xs: seq<T>, x: T, keep: T -> bool)
    ensures Filter(xs + [x], keep) == Filter(xs, keep) + (if keep(x) then [x] else [])
  {
    assert (xs + [x])[..|xs|] == xs;
  }

  lemma {:induction false} MapFilterSnoc<T(!new), U>(xs: seq<T>, x: T, keep: T -> bool, f: T -> U)
    ensures MapSeq(Filter(xs + [x], keep), f) == MapSeq(Filter(xs, keep), f) + (if keep(x) then [f(x)] else [])
  {
    FilterSnoc(xs, x, keep);
    if keep(x) {
      assert MapSeq(Filter(xs, keep) + [x], f) == MapSeq(Filter(xs, keep), f) + [f(x)];
    }
  }

  lemma {:induction false} FilterAppend<T(!new)>(xs: seq<T>, ys: seq<T>, keep: T -> bool)
    ensures Filter(xs + ys, keep) == Filter(xs, keep) + Filter(ys, keep)
    decreases |ys|
  {
    if ys == [] {
      assert xs + ys == xs;
    } else {
      var init := ys[..|ys| - 1];
      assert (xs + ys)[..|xs + ys| - 1] == xs + init;
      FilterAppend(xs, init, keep);
    }
  }

  lemma {:induction false} FilterCons<T(!new)>(x: T, xs: seq<T>, keep: T -> bool)
    ensures Filter([x] + xs, keep) == (if keep(x) then [x] else []) + Filter(xs, keep)
  {
    FilterAppend([x], xs, keep);
    assert [x][..0] == [];
  }

  lemma TakeSnoc<T>(s: seq<T>, k: nat)
    requires k < |s|
    ensures s[..k + 1] == s[..k] + [s[k]]
  {
  }

  /** Some element satisfies `f` (Python's `any`). */
  predicate Any<T>(xs: seq<T>, f: T -> bool) {
    exists j :: 0 <= j < |xs| && f(xs[j])
  }

  lemma {:induction false} AnySnoc<T>(xs: seq<T>, f: T -> bool)
    requires xs != []
    ensures Any(xs, f) <==> Any(xs[..|xs| - 1], f) || f(xs[|xs| - 1])
  {
    var init := xs[..|xs| - 1];
    if Any(init, f) {
      var j :| 0 <= j < |init| && f(init[j]);
      assert xs[j] == init[j];
    }
    if Any(xs, f) {
      var j :| 0 <= j < |xs| && f(xs[j]);
      if j < |init| {
        assert init[j] == xs[j];
      }
    }
  }

  /** The keys of the elements of `xs` that pass `keep` (a Python set comprehension over a list). */
  function KeysOf<T, U>(xs: seq<T>, keep: T -> bool, key: T -> U): set<U> {
    set i | 0 <= i < |xs| && keep(xs[i]) :: key(xs[i])
  }

  lemma {:induction false} KeysOfSnoc<T, U>(xs: seq<T>, x: T, keep: T -> bool, key: T -> U)
    ensures KeysOf(xs + [x], keep, key) == KeysOf(xs, keep, key) + (if keep(x) then {key(x)} else {})
  {
    var ys := xs + [x];
    forall k | k in KeysOf(xs, keep, key)
      ensures k in KeysOf(ys, keep, key)
    {
      var i :| 0 <= i < |xs| && keep(xs[i]) && key(xs[i]) == k;
      assert ys[i] == xs[i];
    }
    if keep(x) {
      assert ys[|xs|] == x;
    }
    forall k | k in KeysOf(ys, keep, key)
      ensures k in KeysOf(xs, keep, key) + (if keep(x) then {key(x)} else {})
    {
      var i :| 0 <= i < |ys| && keep(ys[i]) && key(ys[i]) == k;
      if i < |xs| {
        assert ys[i] == xs[i];
      }
    }
  }

  /** Stripping is idempotent. */
  lemma {:induction false} StripStrip(s: string)
    ensures Strip(Strip(s)) == Strip(s)
  {
    var r := Strip(s);
    assert StripLeft(r) == r;
    assert StripRight(r) == r;
  }
  /** The elements of the inner sequences, one after the other (`sum(xss, [])`). */
  function Flatten<T>(xss: seq<seq<T>>): seq<T>
    decreases |xss|
  {
    if xss == [] then [] else Flatten(xss[..|xss| - 1]) + xss[|xss| - 1]
  }

  lemma {:induction false} FlattenSnoc<T>(xss: seq<seq<T>>, xs: seq<T>)
    ensures Flatten(xss + [xs]) == Flatten(xss) + xs
  {
    assert (xss + [xs])[..|xss|] == xss;
  }

  lemma {:induction false} FlattenCons<T>(xs: seq<T>, xss: seq<seq<T>>)
    ensures Flatten([xs] + xss) == xs + Flatten(xss)
    decreases |xss|
  {
    if xss == [] {
      assert [xs] + xss == [] + [xs];
      FlattenSnoc([], xs);
    } else {
      var init := xss[..|xss| - 1];
      var lst := xss[|xss| - 1];
      assert [xs] + xss == ([xs] + init) + [lst];
      FlattenSnoc([xs] + init, lst);
      FlattenCons(xs, init);
      assert init + [lst] == xss;
      FlattenSnoc(init, lst);
    }
  }

  /** `[f(x) for x in xs]` */
  function MapSeq<T, U>(xs: seq<T>, f: T -> U): (r: seq<U>)
    ensures |r| == |xs| && forall i :: 0 <= i < |xs| ==> r[i] == f(xs[i])
  {
    seq(|xs|, i requires 0 <= i < |xs| => f(xs[i]))
  }

  lemma MapSnoc<T, U>(xs: seq<T>, k: nat, f: T -> U)
    requires k < |xs|
    ensures MapSeq(xs[..k + 1], f) == MapSeq(xs[..k], f) + [f(xs[k])]
  {
  }

  /** `[f(i, x) for i, x in enumerate(xs)]` */
  function Numbered<T, U>(xs: seq<T>, f: (nat, T) -> U): (r: seq<U>)
    ensures |r| == |xs| && forall i :: 0 <= i < |xs| ==> r[i] == f(i, xs[i])
  {
    seq(|xs|, i requires 0 <= i < |xs| => f(i, xs[i]))
  }

  lemma {:induction false} NumberedSnoc<T, U>(xs: seq<T>, k: nat, f: (nat, T) -> U)
    requires k < |xs|
    ensures Numbered(xs[..k + 1], f) == Numbered(xs[..k], f) + [f(k, xs[k])]
  {
    var a := Numbered(xs[..k + 1], f);
    var b := Numbered(xs[..k], f) + [f(k, xs[k])];
    forall i | 0 <= i < |a|
      ensures a[i] == b[i]
    {
      assert xs[..k + 1][i] == xs[i];
    }
  }
}
