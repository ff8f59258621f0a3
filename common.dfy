/** Small vocabulary shared by the page modules: optional values, the JavaScript
    string operations the pages use (`includes`, ASCII `toLowerCase`), and the
    order-preserving `Array.prototype.filter`. */
module Common {

  datatype Option<+T> = None | Some(value: T)

  /** `p` is a prefix of `s`. */
  predicate IsPrefix(p: string, s: string) {
    |p| <= |s| && s[..|p|] == p
  }

  /** JavaScript `s.includes(sub)`: `sub` occurs in `s` at some offset, so it is no
      longer than `s`. */
  predicate Contains(s: string, sub: string)
    ensures Contains(s, sub) ==> |sub| <= |s|
  {
    exists i :: 0 <= i <= |s| && IsPrefix(sub, s[i..])
  }

  lemma ContainsEmpty(s: string)
    ensures Contains(s, "")
  {
    assert IsPrefix("", s[0..]);
  }

  /** A witness offset proves containment. */
  lemma ContainsAt(s: string, sub: string, i: nat)
    requires i + |sub| <= |s| && s[i..i + |sub|] == sub
    ensures Contains(s, sub)
  {
    assert IsPrefix(sub, s[i..]);
  }

  /** A text contains each of its prefixes. */
  lemma PrefixContained(s: string, p: string)
    ensures IsPrefix(p, s) ==> Contains(s, p)
  {
    assert s[0..] == s;
  }

  /** ASCII case folding of one character. */
  function LowerChar(c: char): (d: char)
    ensures 'A' <= c <= 'Z' ==> d as int == c as int + 32
    ensures !('A' <= c <= 'Z') ==> d == c
  {
    if 'A' <= c <= 'Z' then (c as int + 32) as char else c
  }

  /** `s.toLowerCase()` restricted to ASCII letters. */
  function ToLower(s: string): (r: string)
    ensures |r| == |s|
    ensures forall i :: 0 <= i < |s| ==> r[i] == LowerChar(s[i])
  {
    seq(|s|, i requires 0 <= i < |s| => LowerChar(s[i]))
  }

  /** Lower-casing is idempotent, so a query already lower-cased filters the same. */
  lemma ToLowerIdempotent(s: string)
    ensures ToLower(ToLower(s)) == ToLower(s)
  {
  }

  /** `xs` is an order-preserving subsequence of `ys`. */
  predicate IsSubsequence<T(==)>(xs: seq<T>, ys: seq<T>)
    decreases |ys|
  {
    if xs == [] then true
    else if ys == [] then false
    else if xs[0] == ys[0] then IsSubsequence(xs[1..], ys[1..])
    else IsSubsequence(xs, ys[1..])
  }

  /** `xs.filter(keep)`: the elements that pass, in their original order. */
  function Filter<T(==, !new)>(xs: seq<T>, keep: T -> bool): (r: seq<T>)
    ensures forall x :: x in r <==> x in xs && keep(x)
    ensures IsSubsequence(r, xs)
    ensures |r| <= |xs|
    ensures (forall x :: x in xs ==> keep(x)) ==> r == xs
    ensures r == [] <==> forall x :: x in xs ==> !keep(x)
  {
    if xs == [] then []
    else
      var rest := Filter(xs[1..], keep);
      assert forall x :: x in xs <==> x == xs[0] || x in xs[1..];
      if keep(xs[0]) then
        assert ([xs[0]] + rest)[1..] == rest;
        [xs[0]] + rest
      else
        SubsequenceSkip(rest, xs);
        rest
  }

  /** Dropping the head of the longer sequence keeps a subsequence relation. */
  lemma {:induction false} SubsequenceSkip<T>(xs: seq<T>, ys: seq<T>)
    requires ys != [] && IsSubsequence(xs, ys[1..])
    ensures IsSubsequence(xs, ys)
    decreases |ys|, |xs|
  {
    if xs != [] && xs[0] == ys[0] {
      SubsequenceDropHead(xs, ys[1..]);
    }
  }

  /** A subsequence without its head is still a subsequence. */
  lemma {:induction false} SubsequenceDropHead<T>(xs: seq<T>, ys: seq<T>)
    requires xs != [] && IsSubsequence(xs, ys)
    ensures IsSubsequence(xs[1..], ys)
    decreases |ys|, |xs|
  {
    if xs[0] != ys[0] {
      SubsequenceDropHead(xs, ys[1..]);
    }
    if xs[1..] != [] {
      SubsequenceSkip(xs[1..], ys);
    }
  }

  /** Filtering twice with the same test changes nothing the second time. */
  lemma {:induction false} FilterIdempotent<T(!new)>(xs: seq<T>, keep: T -> bool)
    ensures Filter(Filter(xs, keep), keep) == Filter(xs, keep)
  {
    var r := Filter(xs, keep);
    assert forall x :: x in r ==> keep(x);
  }

  /** Filtering with two tests that agree on every element gives the same result. */
  lemma {:induction false} FilterExtensional<T(!new)>(xs: seq<T>, p: T -> bool, q: T -> bool)
    requires forall x :: x in xs ==> p(x) == q(x)
    ensures Filter(xs, p) == Filter(xs, q)
  {
    if xs != [] {
      assert forall x :: x in xs[1..] ==> x in xs;
      FilterExtensional(xs[1..], p, q);
    }
  }

  /** Number of elements that satisfy a test (`xs.filter(p).length`). */
  function Count<T(==, !new)>(xs: seq<T>, p: T -> bool): (n: nat)
    ensures n <= |xs|
  {
    if xs == [] then 0 else (if p(xs[0]) then 1 else 0) + Count(xs[1..], p)
  }

  /** Counting is the length of the filtered list. */
  lemma {:induction false} CountIsFilterLength<T(!new)>(xs: seq<T>, p: T -> bool)
    ensures Count(xs, p) == |Filter(xs, p)|
  {
    if xs != [] {
      CountIsFilterLength(xs[1..], p);
    }
  }

  /** Counting over a list of five, element by element. */
  lemma CountFive<T(!new)>(xs: seq<T>, p: T -> bool)
    requires |xs| == 5
    ensures Count(xs, p) ==
      (if p(xs[0]) then 1 else 0) + (if p(xs[1]) then 1 else 0) + (if p(xs[2]) then 1 else 0) +
      (if p(xs[3]) then 1 else 0) + (if p(xs[4]) then 1 else 0)
  {
    var t1 := xs[1..];
    var t2 := t1[1..];
    var t3 := t2[1..];
    var t4 := t3[1..];
    assert t4[1..] == [];
    assert Count(t4, p) == (if p(xs[4]) then 1 else 0);
    assert Count(t3, p) == (if p(xs[3]) then 1 else 0) + Count(t4, p);
    assert Count(t2, p) == (if p(xs[2]) then 1 else 0) + Count(t3, p);
    assert Count(t1, p) == (if p(xs[1]) then 1 else 0) + Count(t2, p);
  }

  /** A lower-cased extended query still contains the lower-cased original. */
  lemma ToLowerPrefix(query: string, more: string)
    ensures IsPrefix(ToLower(query), ToLower(query + more))
  {
    assert forall i :: 0 <= i < |query| ==> (query + more)[i] == query[i];
  }

  /** A text containing `p + rest` contains `p`. */
  lemma ContainsShorter(s: string, p: string, longer: string)
    requires IsPrefix(p, longer) && Contains(s, longer)
    ensures Contains(s, p)
  {
    var i :| 0 <= i <= |s| && IsPrefix(longer, s[i..]);
    assert IsPrefix(p, s[i..]);
  }

  /** Counting distributes over concatenation. */
  lemma {:induction false} CountAppend<T(!new)>(xs: seq<T>, ys: seq<T>, p: T -> bool)
    ensures Count(xs + ys, p) == Count(xs, p) + Count(ys, p)
  {
    if xs == [] {
      assert xs + ys == ys;
    } else {
      assert (xs + ys)[0] == xs[0];
      assert (xs + ys)[1..] == xs[1..] + ys;
      CountAppend(xs[1..], ys, p);
    }
  }

  /** Counting over a list of ten, as two lists of five. */
  lemma CountTen<T(!new)>(xs: seq<T>, p: T -> bool)
    requires |xs| == 10
    ensures Count(xs, p) ==
      (if p(xs[0]) then 1 else 0) + (if p(xs[1]) then 1 else 0) + (if p(xs[2]) then 1 else 0) +
      (if p(xs[3]) then 1 else 0) + (if p(xs[4]) then 1 else 0) + (if p(xs[5]) then 1 else 0) +
      (if p(xs[6]) then 1 else 0) + (if p(xs[7]) then 1 else 0) + (if p(xs[8]) then 1 else 0) +
      (if p(xs[9]) then 1 else 0)
  {
    var front, back := xs[..5], xs[5..];
    assert xs == front + back;
    CountAppend(front, back, p);
    CountFive(front, p);
    CountFive(back, p);
    assert front[0] == xs[0] && front[1] == xs[1] && front[2] == xs[2] && front[3] == xs[3] && front[4] == xs[4];
    assert back[0] == xs[5] && back[1] == xs[6] && back[2] == xs[7] && back[3] == xs[8] && back[4] == xs[9];
  }

  /** One step of the filter. */
  lemma FilterStep<T(!new)>(xs: seq<T>, p: T -> bool)
    requires xs != []
    ensures Filter(xs, p) == (if p(xs[0]) then [xs[0]] + Filter(xs[1..], p) else Filter(xs[1..], p))
  {
  }

  /** The kept and the dropped elements together are the whole list. */
  lemma {:induction false} FilterPartition<T(!new)>(xs: seq<T>, p: T -> bool, q: T -> bool)
    requires forall x :: x in xs ==> (q(x) <==> !p(x))
    ensures multiset(Filter(xs, p)) + multiset(Filter(xs, q)) == multiset(xs)
  {
    if xs != [] {
      var tail := xs[1..];
      assert forall x :: x in tail ==> x in xs;
      FilterPartition(tail, p, q);
      FilterStep(xs, p);
      FilterStep(xs, q);
      MultisetCons(xs);
    }
  }

  /** A non-empty list is its head and its tail. */
  lemma MultisetCons<T>(xs: seq<T>)
    requires xs != []
    ensures multiset(xs) == multiset{xs[0]} + multiset(xs[1..])
  {
    assert xs == [xs[0]] + xs[1..];
  }
}
