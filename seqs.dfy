/** Sequence specifications shared by the row builders: mapping, filtering and concatenation. */
module Seqs {

  /** Every element transformed, in order: `[f(x) for x in xs]`. */
  function Map<A, B>(xs: seq<A>, f: A -> B): (r: seq<B>)
    ensures |r| == |xs|
    ensures forall i :: 0 <= i < |xs| ==> r[i] == f(xs[i])
  {
    seq(|xs|, i requires 0 <= i < |xs| => f(xs[i]))
  }

  /** A non-empty sequence is its front followed by its last element. */
  lemma InitLast<A>(xs: seq<A>)
    requires xs != []
    ensures xs[..|xs| - 1] + [xs[|xs| - 1]] == xs
  {
  }

  /** A non-empty sequence is its head followed by its tail. */
  lemma HeadTail<A>(xs: seq<A>)
    requires xs != []
    ensures [xs[0]] + xs[1..] == xs
  {
  }

  /** Mapping distributes over concatenation. */
  lemma MapAppend<A, B>(a: seq<A>, b: seq<A>, f: A -> B)
    ensures Map(a + b, f) == Map(a, f) + Map(b, f)
  {
  }

  /** One more element at the end of a mapped run. */
  lemma MapSnoc<A, B>(xs: seq<A>, x: A, f: A -> B)
    ensures Map(xs + [x], f) == Map(xs, f) + [f(x)]
  {
  }

  /** Every element satisfies `p`, checked from the back: `all(p(x) for x in xs)`. */
  predicate All<A>(xs: seq<A>, p: A -> bool) {
    xs == [] || (All(xs[..|xs| - 1], p) && p(xs[|xs| - 1]))
  }

  /** `All` holds exactly when every element satisfies the predicate. */
  lemma {:induction false} AllMembers<A>(xs: seq<A>, p: A -> bool)
    ensures All(xs, p) <==> forall i :: 0 <= i < |xs| ==> p(xs[i])
  {
    if xs != [] {
      var n := |xs|;
      AllMembers(xs[..n - 1], p);
      assert forall i :: 0 <= i < n - 1 ==> xs[..n - 1][i] == xs[i];
    }
  }

  /** One more element of `xs` at the end of a checked prefix. */
  lemma AllPrefixSnoc<A>(xs: seq<A>, p: A -> bool, i: int)
    requires 0 <= i < |xs|
    ensures All(xs[..i + 1], p) <==> All(xs[..i], p) && p(xs[i])
  {
    assert xs[..i + 1][..i] == xs[..i];
  }

  /** The elements that satisfy `p`, in order: `[x for x in xs if p(x)]`. */
  function Filter<A>(xs: seq<A>, p: A -> bool): (r: seq<A>)
    ensures |r| <= |xs|
  {
    if xs == [] then []
    else Filter(xs[..|xs| - 1], p) + (if p(xs[|xs| - 1]) then [xs[|xs| - 1]] else [])
  }

  /** What a filter keeps: exactly the elements that satisfy the predicate. */
  lemma {:induction false} FilterMembers<A>(xs: seq<A>, p: A -> bool)
    ensures forall i :: 0 <= i < |Filter(xs, p)| ==> Filter(xs, p)[i] in xs && p(Filter(xs, p)[i])
    ensures forall i :: 0 <= i < |xs| && p(xs[i]) ==> xs[i] in Filter(xs, p)
  {
    if xs != [] {
      var n := |xs|;
      FilterMembers(xs[..n - 1], p);
      var a := Filter(xs[..n - 1], p);
      var r := Filter(xs, p);
      assert r == a + (if p(xs[n - 1]) then [xs[n - 1]] else []);
      forall i | 0 <= i < |r| ensures r[i] in xs && p(r[i]) {
        if i < |a| {
          assert r[i] == a[i];
          assert r[i] in xs[..n - 1];
        }
      }
      forall i | 0 <= i < n && p(xs[i]) ensures xs[i] in r {
        if i < n - 1 {
          assert xs[i] == xs[..n - 1][i];
          assert xs[i] in a;
        }
      }
    }
  }

  /** Filtering keeps the order of the input: it distributes over concatenation. */
  lemma {:induction false} FilterAppend<A>(a: seq<A>, b: seq<A>, p: A -> bool)
    ensures Filter(a + b, p) == Filter(a, p) + Filter(b, p)
  {
    if b == [] {
      assert a + b == a;
    } else {
      assert (a + b)[..|a + b| - 1] == a + b[..|b| - 1];
      FilterAppend(a, b[..|b| - 1], p);
    }
  }

  /** The pages joined end to end: `for page in pages: out.extend(page)`. */
  function Concat<A>(xss: seq<seq<A>>): seq<A> {
    if xss == [] then [] else Concat(xss[..|xss| - 1]) + xss[|xss| - 1]
  }

  /** Concatenation keeps page order and every element of every page. */
  lemma {:induction false} ConcatAppend<A>(a: seq<seq<A>>, b: seq<seq<A>>)
    ensures Concat(a + b) == Concat(a) + Concat(b)
  {
    if b == [] {
      assert a + b == a;
    } else {
      var init, last := b[..|b| - 1], b[|b| - 1];
      assert (a + b)[..|a + b| - 1] == a + init;
      assert (a + b)[|a + b| - 1] == last;
      ConcatAppend(a, init);
      calc {
        Concat(a + b);
        Concat(a + init) + last;
        (Concat(a) + Concat(init)) + last;
        Concat(a) + (Concat(init) + last);
        Concat(a) + Concat(b);
      }
    }
  }

  /** Every element of a concatenation comes from one of the pages. */
  lemma {:induction false} ConcatMember<A>(xss: seq<seq<A>>, j: int)
    requires 0 <= j < |Concat(xss)|
    ensures exists i, k :: 0 <= i < |xss| && 0 <= k < |xss[i]| && Concat(xss)[j] == xss[i][k]
  {
    var n := |xss|;
    var init := xss[..n - 1];
    if j < |Concat(init)| {
      ConcatMember(init, j);
      var i, k :| 0 <= i < |init| && 0 <= k < |init[i]| && Concat(init)[j] == init[i][k];
      assert xss[i] == init[i];
    } else {
      assert Concat(xss)[j] == xss[n - 1][j - |Concat(init)|];
    }
  }

  /** The length of a concatenation is the sum of the page lengths. */
  function SumLengths<A>(xss: seq<seq<A>>): nat {
    if xss == [] then 0 else SumLengths(xss[..|xss| - 1]) + |xss[|xss| - 1]|
  }

  lemma {:induction false} ConcatLength<A>(xss: seq<seq<A>>)
    ensures |Concat(xss)| == SumLengths(xss)
  {
    if xss != [] {
      ConcatLength(xss[..|xss| - 1]);
    }
  }

  /** One more page at the end of a run of pages. */
  lemma ConcatMapSnoc<A, B>(xs: seq<A>, f: A -> seq<B>, i: int)
    requires 0 <= i < |xs|
    ensures Concat(Map(xs[..i + 1], f)) == Concat(Map(xs[..i], f)) + f(xs[i])
  {
    assert Map(xs[..i + 1], f)[..i] == Map(xs[..i], f);
  }

  /** One more element of `xs` at the end of a mapped prefix. */
  lemma MapPrefixSnoc<A, B>(xs: seq<A>, f: A -> B, i: int)
    requires 0 <= i < |xs|
    ensures Map(xs[..i + 1], f) == Map(xs[..i], f) + [f(xs[i])]
  {
    assert xs[..i + 1] == xs[..i] + [xs[i]];
  }

  /** One more element at the end of a filtered and mapped run. */
  lemma MapFilterSnoc<A, B>(xs: seq<A>, p: A -> bool, f: A -> B, i: int)
    requires 0 <= i < |xs|
    ensures Map(Filter(xs[..i + 1], p), f)
      == Map(Filter(xs[..i], p), f) + (if p(xs[i]) then [f(xs[i])] else [])
  {
    assert xs[..i + 1][..i] == xs[..i];
    var a := Filter(xs[..i], p);
    if p(xs[i]) {
      assert Filter(xs[..i + 1], p) == a + [xs[i]];
      assert Map(a + [xs[i]], f)[..|a|] == Map(a, f);
    } else {
      assert Filter(xs[..i + 1], p) == a;
    }
  }

  /**
   * Mapping after filtering: every output is the image of a kept element, and every kept
   * element's image is output.
   */
  lemma MapFilterMembers<A, B>(xs: seq<A>, p: A -> bool, f: A -> B)
    ensures |Map(Filter(xs, p), f)| <= |xs|
    ensures forall y :: y in Map(Filter(xs, p), f) ==> exists x :: x in xs && p(x) && y == f(x)
    ensures forall x :: x in xs && p(x) ==> f(x) in Map(Filter(xs, p), f)
  {
    var kept := Filter(xs, p);
    var out := Map(kept, f);
    FilterMembers(xs, p);
    forall y | y in out ensures exists x :: x in xs && p(x) && y == f(x) {
      var i :| 0 <= i < |out| && out[i] == y;
      assert kept[i] in xs && p(kept[i]) && y == f(kept[i]);
    }
    forall x | x in xs && p(x) ensures f(x) in out {
      var k :| 0 <= k < |xs| && xs[k] == x;
      var i :| 0 <= i < |kept| && kept[i] == x;
      assert out[i] == f(x);
    }
  }

  /** The row-building loop of an `extract`: `for x in raw: rows.append(build(x))`. */
  method BuildRows<A, B>(raw: seq<A>, build: A -> B) returns (rows: seq<B>)
    ensures rows == Map(raw, build)
  {
    rows := [];
    for i := 0 to |raw|
      invariant rows == Map(raw[..i], build)
    {
      MapPrefixSnoc(raw, build, i);
      rows := rows + [build(raw[i])];
    }
    assert raw[..|raw|] == raw;
  }
}
