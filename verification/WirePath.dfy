/** `under_any`'s test on forward-slash strings is the component-wise prefix test. */
module WirePath {
  import opened Text
  import opened Walk

  /** What a path component is: not empty, and without the separator. */
  ghost predicate IsComponent(c: string)
  {
    c != "" && forall i :: 0 <= i < |c| ==> c[i] != '/'
  }

  ghost predicate IsPath(p: Path)
  {
    forall i :: 0 <= i < |p| ==> IsComponent(p[i])
  }

  /** The wire spelling of a path. */
  function Wire(p: Path): string
  {
    Join(p, "/")
  }

  /** One subtree of `under_any`: empty, or a string prefix that ends at a separator or the end. */
  predicate UnderString(relative: string, subtree: string)
  {
    || subtree == ""
    || (StartsWith(relative, subtree) && (|relative| == |subtree| || relative[|subtree|] == '/'))
  }

  predicate UnderAnyString(relative: string, subtrees: seq<string>)
  {
    exists s :: s in subtrees && UnderString(relative, s)
  }

  /** A wire spelling starts with its first component, and goes on with a separator iff there is more. */
  lemma FirstComponent(p: Path)
    requires p != [] && IsPath(p)
    ensures |p| == 1 ==> Wire(p) == p[0]
    ensures |p| > 1 ==> Wire(p) == p[0] + "/" + Wire(p[1..])
    ensures |Wire(p)| >= |p[0]| > 0 && Wire(p)[..|p[0]|] == p[0]
    ensures |Wire(p)| > |p[0]| <==> |p| > 1
    ensures |p| > 1 ==> Wire(p)[|p[0]|] == '/'
  {
    assert IsComponent(p[0]);
  }

  /** If `s` is a string prefix of `p` up to a separator, their first components are the same. */
  lemma SameFirstComponent(p: Path, s: Path)
    requires IsPath(p) && IsPath(s) && s != [] && UnderString(Wire(p), Wire(s))
    ensures p != [] && p[0] == s[0]
  {
    FirstComponent(s);
    assert |Wire(p)| > 0;
    FirstComponent(p);
    var a, b := p[0], s[0];
    var w := Wire(p);
    assert w[..|Wire(s)|] == Wire(s);
    assert b == Wire(s)[..|b|] == w[..|b|];
    assert IsComponent(a) && IsComponent(b);
    assert forall i :: 0 <= i < |b| ==> w[i] == b[i];
    assert forall i :: 0 <= i < |a| ==> w[i] == a[i];
    assert |w| > |b| ==> w[|b|] == '/' by {
      assert |s| > 1 ==> w[|b|] == Wire(s)[|b|];
    }
    assert |a| == |b|;
  }

  lemma {:induction false} StringTestIsPrefix(p: Path, s: Path)
    requires IsPath(p) && IsPath(s)
    ensures UnderString(Wire(p), Wire(s)) <==> s <= p
    decreases |s|
  {
    if s != [] {
      FirstComponent(s);
      if UnderString(Wire(p), Wire(s)) || s <= p {
        if s <= p { assert p[0] == s[0]; } else { SameFirstComponent(p, s); }
        FirstComponent(p);
        TailTest(p, s);
        StringTestIsPrefix(p[1..], s[1..]);
        assert s == [s[0]] + s[1..] && p == [p[0]] + p[1..];
      }
    }
  }

  /** With the first components equal, both tests go on behind them. */
  lemma TailTest(p: Path, s: Path)
    requires IsPath(p) && IsPath(s) && p != [] && s != [] && p[0] == s[0]
    ensures UnderString(Wire(p), Wire(s)) <==> UnderString(Wire(p[1..]), Wire(s[1..]))
    ensures s <= p <==> s[1..] <= p[1..]
  {
    FirstComponent(p);
    FirstComponent(s);
    var n := |p[0]|;
    if |s| > 1 {
      FirstComponent(s[1..]);
      if |p| > 1 {
        FirstComponent(p[1..]);
        assert Wire(p)[n + 1..] == Wire(p[1..]) && Wire(s)[n + 1..] == Wire(s[1..]);
        assert Wire(p) == p[0] + "/" + Wire(p[1..]) && Wire(s) == p[0] + "/" + Wire(s[1..]);
        StartsWithTail(p[0] + "/", Wire(p[1..]), Wire(s[1..]));
      } else {
        assert |Wire(s)| > |Wire(p)|;
      }
    }
  }

  lemma StartsWithTail(head: string, a: string, b: string)
    ensures StartsWith(head + a, head + b) <==> StartsWith(a, b)
  {
    if |b| <= |a| {
      assert (head + a)[..|head + b|] == head + a[..|b|];
      assert (head + a[..|b|])[|head|..] == a[..|b|] && (head + b)[|head|..] == b;
    }
  }

  /** The whole of `under_any`, for subtrees spelled on the wire. */
  lemma UnderAnyIsPrefix(p: Path, subtrees: seq<Path>, wires: seq<string>)
    requires IsPath(p) && (forall s :: s in subtrees ==> IsPath(s))
    requires |wires| == |subtrees| && forall i :: 0 <= i < |wires| ==> wires[i] == Wire(subtrees[i])
    ensures UnderAnyString(Wire(p), wires) <==> UnderAny(subtrees, p)
  {
    forall i | 0 <= i < |subtrees|
      ensures UnderString(Wire(p), wires[i]) <==> subtrees[i] <= p
    {
      StringTestIsPrefix(p, subtrees[i]);
    }
    if UnderAnyString(Wire(p), wires) {
      var w :| w in wires && UnderString(Wire(p), w);
      var i :| 0 <= i < |wires| && wires[i] == w;
      assert subtrees[i] in subtrees;
    }
    if UnderAny(subtrees, p) {
      var s :| s in subtrees && s <= p;
      var i :| 0 <= i < |subtrees| && subtrees[i] == s;
      assert wires[i] in wires;
    }
  }
}
