/** String operations of the .NET base library that the pipeline relies on,
    written out over `seq<char>` (ordinal comparison, "\n" as the newline). */
module Text {

  /** The text a StringBuilder holds after one `AppendLine(l)` per element of
      `lines`, in order. */
  function Render(lines: seq<string>): string
  {
    if lines == [] then "" else lines[0] + "\n" + Render(lines[1..])
  }

  lemma {:induction false} RenderAppend(a: seq<string>, b: seq<string>)
    ensures Render(a + b) == Render(a) + Render(b)
  {
    if a == [] {
      assert a + b == b;
    } else {
      assert (a + b)[1..] == a[1..] + b;
      RenderAppend(a[1..], b);
    }
  }

  /** `string.Join(sep, xs)`. */
  function Join(sep: string, xs: seq<string>): string
  {
    if xs == [] then "" else if |xs| == 1 then xs[0] else xs[0] + sep + Join(sep, xs[1..])
  }

  /** The concatenation of `xs` with nothing between the parts. */
  function Concat(xs: seq<string>): string
  {
    if xs == [] then "" else xs[0] + Concat(xs[1..])
  }

  /** Joining with the empty separator is plain concatenation. */
  lemma {:induction false} JoinEmptyIsConcat(xs: seq<string>)
    ensures Join("", xs) == Concat(xs)
  {
    if |xs| > 1 {
      JoinEmptyIsConcat(xs[1..]);
      assert Concat(xs[1..][1..]) == "" + Concat(xs[1..][1..]);
    } else if |xs| == 1 {
      assert Concat(xs[1..]) == "";
      assert xs[0] + "" == xs[0];
    }
  }

  lemma {:induction false} ConcatAppend(xs: seq<string>, x: string)
    ensures Concat(xs + [x]) == Concat(xs) + x
  {
    if xs == [] {
      assert xs + [x] == [x];
      assert Concat([x][1..]) == "";
    } else {
      assert (xs + [x])[1..] == xs[1..] + [x];
      ConcatAppend(xs[1..], x);
    }
  }

  predicate StartsWith(s: string, prefix: string)
  {
    |prefix| <= |s| && s[..|prefix|] == prefix
  }

  predicate EndsWith(s: string, suffix: string)
  {
    |suffix| <= |s| && s[|s| - |suffix|..] == suffix
  }

  lemma ConcatAssoc(a: string, b: string, c: string)
    ensures a + b + c == a + (b + c)
  {
  }

  /** Rendering lines after others ends with the rendering of those lines. */
  lemma RenderEndsWith(a: seq<string>, b: seq<string>)
    ensures EndsWith(Render(a + b), Render(b))
  {
    RenderAppend(a, b);
    var x, y := Render(a), Render(b);
    assert (x + y)[|x + y| - |y|..] == y;
  }

  /** Rendering lines before others starts with the rendering of those lines. */
  lemma RenderStartsWith(a: seq<string>, b: seq<string>)
    ensures StartsWith(Render(a + b), Render(a))
  {
    RenderAppend(a, b);
    var x, y := Render(a), Render(b);
    assert (x + y)[..|x|] == x;
  }

  /** Two lines and a blank one render as each line followed by a newline. */
  lemma RenderTwoThenBlank(x: string, y: string)
    ensures Render([x, y, ""]) == x + "\n" + y + "\n" + "\n"
  {
    var r1 := Render([""]);
    assert [""][1..] == [];
    assert r1 == "\n";
    var r2 := Render([y, ""]);
    assert [y, ""][1..] == [""];
    assert r2 == y + "\n" + r1;
    assert [x, y, ""][1..] == [y, ""];
  }

  /** `p` occurs in `s` starting at index `i`. */
  predicate OccursAt(s: string, p: string, i: nat)
  {
    i + |p| <= |s| && s[i..i + |p|] == p
  }

  /** Ordinal `string.Contains(p)`. */
  predicate Contains(s: string, p: string)
  {
    exists i: nat | i <= |s| :: OccursAt(s, p, i)
  }

  /** A text contains whatever is spliced into it. */
  lemma ContainsSpliced(a: string, p: string, b: string)
    ensures Contains(a + p + b, p)
  {
    assert (a + p + b)[|a|..|a| + |p|] == p;
    assert OccursAt(a + p + b, p, |a|);
  }

  /** What a prefix contains, the whole text contains. */
  lemma ContainsThroughPrefix(s: string, r: string, p: string)
    requires StartsWith(s, r) && Contains(r, p)
    ensures Contains(s, p)
  {
    var i: nat :| i <= |r| && OccursAt(r, p, i);
    assert s[i..i + |p|] == r[i..i + |p|];
    assert OccursAt(s, p, i);
  }

  /** Ordinal `s.IndexOf(p)` searching from index `from`: the first occurrence
      at or after `from`, or -1. */
  function IndexOfFrom(s: string, p: string, from: nat): (r: int)
    requires from <= |s|
    ensures r == -1 || from <= r <= |s| - |p|
    ensures r >= 0 ==> OccursAt(s, p, r)
    ensures forall j: nat :: from <= j && (r == -1 || j < r) ==> !OccursAt(s, p, j)
    decreases |s| - from
  {
    if from + |p| > |s| then -1
    else if s[from..from + |p|] == p then from
    else IndexOfFrom(s, p, from + 1)
  }

  /** Ordinal `s.IndexOf(p)`: the index of the first occurrence, or -1. */
  function IndexOf(s: string, p: string): (r: int)
    ensures r == -1 <==> !Contains(s, p)
    ensures r >= 0 ==> OccursAt(s, p, r) && forall j: nat :: j < r ==> !OccursAt(s, p, j)
  {
    IndexOfFrom(s, p, 0)
  }

  /** The first occurrence is at 0 whenever `s` starts with `p`. */
  lemma IndexOfAtStart(s: string, p: string)
    requires StartsWith(s, p)
    ensures IndexOf(s, p) == 0
  {
    assert OccursAt(s, p, 0);
  }

  /** `s.Replace(o, n)`: every non-overlapping occurrence of `o`, scanning left
      to right, replaced by `n`. */
  function ReplaceAll(s: string, o: string, n: string): (r: string)
    requires |o| > 0
    ensures |o| == |n| ==> |r| == |s|
    decreases |s|
  {
    if |s| < |o| then s
    else if s[..|o|] == o then n + ReplaceAll(s[|o|..], o, n)
    else [s[0]] + ReplaceAll(s[1..], o, n)
  }

  /** The number of bytes of `s` in UTF-8 (a Dafny `char` is a Unicode scalar
      value, so every character takes one to four bytes). */
  function Utf8Length(s: string): (n: nat)
    ensures |s| <= n <= 4 * |s|
  {
    if s == [] then 0 else Utf8Width(s[0]) + Utf8Length(s[1..])
  }

  function Utf8Width(c: char): (w: nat)
    ensures 1 <= w <= 4
  {
    var v := c as int;
    if v < 0x80 then 1 else if v < 0x800 then 2 else if v < 0x1_0000 then 3 else 4
  }

  lemma {:induction false} Utf8LengthAppend(a: string, b: string)
    ensures Utf8Length(a + b) == Utf8Length(a) + Utf8Length(b)
  {
    if a != [] {
      assert (a + b)[0] == a[0];
      assert (a + b)[1..] == a[1..] + b;
      Utf8LengthAppend(a[1..], b);
    } else {
      assert a + b == b;
    }
  }

  /** Text made only of ASCII characters takes one byte per character. */
  lemma {:induction false} Utf8LengthAscii(s: string)
    requires forall i :: 0 <= i < |s| ==> s[i] as int < 0x80
    ensures Utf8Length(s) == |s|
  {
    if s != [] {
      Utf8LengthAscii(s[1..]);
    }
  }
}
