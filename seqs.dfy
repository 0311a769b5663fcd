/** Generic sequence combinators standing in for the LINQ operators the
    source uses (`Select`, `SelectMany`, `Where`). */
module Seqs {

  /** `Select(f)`. */
  function Map<A, B>(f: A -> B, s: seq<A>): (r: seq<B>)
    ensures |r| == |s|
    ensures forall i :: 0 <= i < |s| ==> r[i] == f(s[i])
  {
    seq(|s|, i requires 0 <= i < |s| => f(s[i]))
  }

  /** A heading followed by the mapped elements: element `k` is at `k + 1`. */
  lemma MapAfterHead<A, B>(f: A -> B, head: B, s: seq<A>)
    ensures |[head] + Map(f, s)| == 1 + |s|
    ensures forall k :: 0 <= k < |s| ==> ([head] + Map(f, s))[k + 1] == f(s[k])
  {
  }

  lemma MapAppend<A, B>(f: A -> B, a: seq<A>, b: seq<A>)
    ensures Map(f, a + b) == Map(f, a) + Map(f, b)
  {
  }

  /** `SelectMany(f)`: the parts `f` gives for each element, in order. */
  function FlatMap<A, B>(f: A -> seq<B>, s: seq<A>): seq<B>
  {
    if s == [] then [] else FlatMap(f, s[..|s| - 1]) + f(s[|s| - 1])
  }

  lemma FlatMapSnoc<A, B>(f: A -> seq<B>, s: seq<A>, x: A)
    ensures FlatMap(f, s + [x]) == FlatMap(f, s) + f(x)
  {
    assert (s + [x])[..|s|] == s;
  }

  lemma FlatMapPrefix<A, B>(f: A -> seq<B>, s: seq<A>, i: nat)
    requires i < |s|
    ensures FlatMap(f, s[..i + 1]) == FlatMap(f, s[..i]) + f(s[i])
  {
    assert s[..i + 1] == s[..i] + [s[i]];
    FlatMapSnoc(f, s[..i], s[i]);
  }

  lemma {:induction false} FlatMapAppend<A, B>(f: A -> seq<B>, a: seq<A>, b: seq<A>)
    ensures FlatMap(f, a + b) == FlatMap(f, a) + FlatMap(f, b)
    decreases |b|
  {
    if b == [] {
      assert a + b == a;
    } else {
      var b' := b[..|b| - 1];
      assert a + b == (a + b') + [b[|b| - 1]];
      FlatMapSnoc(f, a + b', b[|b| - 1]);
      FlatMapAppend(f, a, b');
      assert b == b' + [b[|b| - 1]];
      FlatMapSnoc(f, b', b[|b| - 1]);
    }
  }

  /** When every element gives exactly one part, `SelectMany` is `Select`. */
  lemma {:induction false} FlatMapSingletons<A, B>(f: A -> seq<B>, g: A -> B, s: seq<A>)
    requires forall x :: x in s ==> f(x) == [g(x)]
    ensures FlatMap(f, s) == Map(g, s)
  {
    if s != [] {
      var s' := s[..|s| - 1];
      assert forall x :: x in s' ==> x in s;
      FlatMapSingletons(f, g, s');
      assert s == s' + [s[|s| - 1]];
      MapAppend(g, s', [s[|s| - 1]]);
    }
  }

  /** Every element of a part of some element is in the `SelectMany`. */
  lemma {:induction false} FlatMapContains<A, B>(f: A -> seq<B>, s: seq<A>, k: nat, y: B)
    requires k < |s| && y in f(s[k])
    ensures y in FlatMap(f, s)
  {
    if k < |s| - 1 {
      FlatMapContains(f, s[..|s| - 1], k, y);
    }
  }

  /** An element of a flattened sequence comes from the image of some element. */
  lemma {:induction false} FlatMapMembership<A, B>(f: A -> seq<B>, s: seq<A>, y: B)
    ensures y in FlatMap(f, s) <==> exists k :: 0 <= k < |s| && y in f(s[k])
  {
    if s != [] {
      var s' := s[..|s| - 1];
      FlatMapMembership(f, s', y);
      if y in FlatMap(f, s') {
        var k :| 0 <= k < |s'| && y in f(s'[k]);
        assert s[k] == s'[k];
      }
      if exists k :: 0 <= k < |s| && y in f(s[k]) {
        var k :| 0 <= k < |s| && y in f(s[k]);
        if k < |s'| {
          assert s'[k] == s[k];
        }
      }
    }
  }

  /** Flattening two sequences where the first's elements all occur in the
      second: everything produced by the first is produced by the second. */
  lemma FlatMapMonotone<A, B>(f: A -> seq<B>, s: seq<A>, t: seq<A>, y: B)
    requires forall x :: x in s ==> x in t
    requires y in FlatMap(f, s)
    ensures y in FlatMap(f, t)
  {
    FlatMapMembership(f, s, y);
    var k :| 0 <= k < |s| && y in f(s[k]);
    assert s[k] in t;
    var j :| 0 <= j < |t| && t[j] == s[k];
    FlatMapMembership(f, t, y);
  }

  /** `Where(p)`. */
  function Filter<A>(p: A -> bool, s: seq<A>): (r: seq<A>)
    ensures |r| <= |s|
  {
    if s == [] then [] else Filter(p, s[..|s| - 1]) + (if p(s[|s| - 1]) then [s[|s| - 1]] else [])
  }

  lemma {:induction false} FilterAppend<A>(p: A -> bool, a: seq<A>, b: seq<A>)
    ensures Filter(p, a + b) == Filter(p, a) + Filter(p, b)
    decreases |b|
  {
    if b == [] {
      assert a + b == a;
    } else {
      var b', x := b[..|b| - 1], b[|b| - 1];
      FilterAppend(p, a, b');
      assert (a + b)[..|a + b| - 1] == a + b';
    }
  }

  lemma FilterPrefix<A>(p: A -> bool, s: seq<A>, i: nat)
    requires i < |s|
    ensures Filter(p, s[..i + 1]) == Filter(p, s[..i]) + (if p(s[i]) then [s[i]] else [])
  {
    assert s[..i + 1][..i] == s[..i];
  }

  /** An element is kept exactly when it is in the input and satisfies `p`. */
  lemma {:induction false} FilterMembership<A>(p: A -> bool, s: seq<A>, x: A)
    ensures x in Filter(p, s) <==> x in s && p(x)
  {
    if s != [] {
      var s' := s[..|s| - 1];
      FilterMembership(p, s', x);
      assert s == s' + [s[|s| - 1]];
    }
  }

  /** What flattening the kept elements produces is what some kept element produces. */
  lemma FlatMapFilterMembership<A, B>(f: A -> seq<B>, p: A -> bool, s: seq<A>, y: B)
    ensures y in FlatMap(f, Filter(p, s)) <==> exists x :: x in s && p(x) && y in f(x)
  {
    var picked := Filter(p, s);
    FlatMapMembership(f, picked, y);
    forall x ensures x in picked <==> x in s && p(x) {
      FilterMembership(p, s, x);
    }
    if y in FlatMap(f, picked) {
      var k :| 0 <= k < |picked| && y in f(picked[k]);
      assert picked[k] in picked;
    }
    if exists x :: x in s && p(x) && y in f(x) {
      var x :| x in s && p(x) && y in f(x);
      var k :| 0 <= k < |picked| && picked[k] == x;
    }
  }

  /** Nothing is kept when no element satisfies `p`. */
  lemma {:induction false} FilterNone<A>(p: A -> bool, s: seq<A>)
    requires forall i :: 0 <= i < |s| ==> !p(s[i])
    ensures Filter(p, s) == []
  {
    if s != [] {
      FilterNone(p, s[..|s| - 1]);
    }
  }

  /** Everything kept satisfies `p`, and nothing is lost when all elements do. */
  lemma {:induction false} FilterAll<A>(p: A -> bool, s: seq<A>)
    ensures (forall i :: 0 <= i < |s| ==> p(s[i])) ==> Filter(p, s) == s
    ensures |Filter(p, s)| == |s| ==> forall i :: 0 <= i < |s| ==> p(s[i])
  {
    if s != [] {
      var s' := s[..|s| - 1];
      FilterAll(p, s');
      assert s == s' + [s[|s| - 1]];
      if |Filter(p, s)| == |s| {
        assert p(s[|s| - 1]);
        assert |Filter(p, s')| == |s'|;
        forall i | 0 <= i < |s| ensures p(s[i]) {
          if i < |s| - 1 { assert s[i] == s'[i]; }
        }
      }
    }
  }

  /** Elements whose image is empty can be filtered out first. */
  lemma {:induction false} FlatMapFilter<A, B>(f: A -> seq<B>, p: A -> bool, s: seq<A>)
    requires forall x :: x in s && !p(x) ==> f(x) == []
    ensures FlatMap(f, s) == FlatMap(f, Filter(p, s))
  {
    if s != [] {
      var s', x := s[..|s| - 1], s[|s| - 1];
      assert s == s' + [x];
      FlatMapFilter(f, p, s');
      assert FlatMap(f, s) == FlatMap(f, s') + f(x);
      if p(x) {
        assert Filter(p, s) == Filter(p, s') + [x];
        FlatMapSnoc(f, Filter(p, s'), x);
      } else {
        assert Filter(p, s) == Filter(p, s');
      }
    }
  }

  /** When every image is a singleton, the flattening has one element per input. */
  lemma {:induction false} FlatMapOnes<A, B>(f: A -> seq<B>, s: seq<A>)
    requires forall x :: x in s ==> |f(x)| == 1
    ensures |FlatMap(f, s)| == |s|
    ensures forall i :: 0 <= i < |s| ==> FlatMap(f, s)[i] == f(s[i])[0]
  {
    if s != [] {
      var s' := s[..|s| - 1];
      FlatMapOnes(f, s');
      assert forall i :: 0 <= i < |s'| ==> s'[i] == s[i];
    }
  }

  /** A flattening that picks one value from each element satisfying `p` and
      nothing from the others lines up with `Filter(p, s)`. */
  lemma FlatMapSelect<A, B>(f: A -> seq<B>, p: A -> bool, s: seq<A>)
    requires forall x :: x in s ==> |f(x)| == (if p(x) then 1 else 0)
    ensures |FlatMap(f, s)| == |Filter(p, s)|
    ensures forall i :: 0 <= i < |Filter(p, s)| ==>
      |f(Filter(p, s)[i])| == 1 && FlatMap(f, s)[i] == f(Filter(p, s)[i])[0]
  {
    FlatMapFilter(f, p, s);
    forall x | x in Filter(p, s) ensures x in s && p(x) {
      FilterMembership(p, s, x);
    }
    FlatMapOnes(f, Filter(p, s));
  }
}
