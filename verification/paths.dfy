/**
 `System.IO.Path.Combine` over relative path components.

 The model joins components with `/` and, like .NET, skips an empty
 component; the platform's own separator, rooted components and components
 that already end in a separator are not modelled.
 */
module Paths {
  import Text

  const Separator: char := '/'

  /** `Path.Combine(a, b)`. */
  function Combine(a: string, b: string): (r: string)
    ensures |r| >= |a| && |r| >= |b|
    ensures r[..|a|] == a && r[|r| - |b|..] == b
  {
    if b == "" then a
    else if a == "" then b
    else a + [Separator] + b
  }

  /** `Path.Combine(p0, p1, ...)`: the non-empty components, separated by `/`. */
  function CombineAll(parts: seq<string>): (r: string)
    ensures r == "" <==> forall i :: 0 <= i < |parts| ==> parts[i] == ""
  {
    var kept := Text.RemoveEmpty(parts);
    assert |kept| > 0 ==> Text.Join(kept, [Separator]) != "" && kept[0] in parts by {
      if |kept| > 0 {
        Text.JoinNonEmpty(kept, [Separator]);
      }
    }
    Text.Join(kept, [Separator])
  }

  /** Combining one component at a time gives the same path as combining them all at once. */
  lemma {:induction false} CombineAllAppend(parts: seq<string>, last: string)
    ensures CombineAll(parts + [last]) == Combine(CombineAll(parts), last)
  {
    var kept := Text.RemoveEmpty(parts);
    Text.RemoveEmptyAppend(parts, last);
    if last == "" {
      assert kept + [] == kept;
    } else if |kept| == 0 {
      assert kept + [last] == [last];
    } else {
      Text.JoinAppend(kept, last, [Separator]);
      Text.JoinNonEmpty(kept, [Separator]);
    }
  }

  /** The three-component form used throughout the storage layout. */
  lemma CombineThree(a: string, b: string, c: string)
    ensures CombineAll([a, b, c]) == Combine(Combine(a, b), c)
  {
    CombineAllAppend([a], b);
    assert [a] + [b] == [a, b];
    CombineAllAppend([a, b], c);
    assert [a, b] + [c] == [a, b, c];
    assert CombineAll([a]) == a by {
      assert a == "" ==> Text.RemoveEmpty([a]) == [];
    }
  }

  /** With the base fixed, different components always give different paths. */
  lemma CombineInjective(a: string, b1: string, b2: string)
    requires Combine(a, b1) == Combine(a, b2)
    ensures b1 == b2
  {
    if b1 != "" && b2 != "" && a != "" {
      PrefixCancel(a + [Separator], b1, b2);
    }
  }

  /** A shared prefix can be cancelled. */
  lemma PrefixCancel(p: string, x: string, y: string)
    requires p + x == p + y
    ensures x == y
  {
    assert x == (p + x)[|p|..];
  }

  /**
   When two paths agree and each starts with a separator-free component,
   those first components agree and so does the rest.
   */
  lemma {:induction false} FirstComponent(a: string, b: string, c: string, d: string)
    requires Separator !in a && Separator !in c
    requires a + [Separator] + b == c + [Separator] + d
    ensures a == c && b == d
    decreases |a|
  {
    var x := a + [Separator] + b;
    if |a| == 0 || |c| == 0 {
      assert x[0] == Separator;
      assert |a| == 0 && |c| == 0;
      assert a + [Separator] + b == [Separator] + b;
      assert c + [Separator] + d == [Separator] + d;
      PrefixCancel([Separator], b, d);
    } else {
      assert a[0] == x[0] == c[0];
      assert a[1..] + [Separator] + b == x[1..] == c[1..] + [Separator] + d;
      FirstComponent(a[1..], b, c[1..], d);
      assert a == [a[0]] + a[1..];
      assert c == [c[0]] + c[1..];
    }
  }

  /**
   A path below a directory, regrouped around the directory's last
   component. The body is empty: the lemma only states this regrouping of
   concatenations as a fact of its own, so that callers need not unfold it.
   */
  lemma Nest(path: string, dir: string, base: string, last: string, rest: string)
    requires path == dir + [Separator] + rest
    requires dir == base + last
    ensures path == base + (last + [Separator] + rest)
  {
  }
}
