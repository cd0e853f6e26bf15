/**
 * The cut of the cross-encoder fixture (`gm698_ce_text_fixture.py`): keep only the source lines from
 * the node's start to the last line the body field reads, rebase the node to line 0, and build the
 * same text. The script asserts this for the nodes it samples; here it is a theorem.
 */
module CeCut {
  import opened Prelude
  import opened Text
  import opened CeText

  // ---- how far the body field reads ----

  /** The number of lines of `rest` the token loop looks at: up to the line that does not fit. */
  function LoopReads(rest: seq<string>, n: nat, tok: Counter, budget: nat): (k: nat)
    ensures k <= |rest|
  {
    if rest == [] then 0
    else if PunctOnly(rest[0]) then 1 + LoopReads(rest[1..], n, tok, budget)
    else if n + tok(CutLine(rest[0])) > budget then 1
    else 1 + LoopReads(rest[1..], n + tok(CutLine(rest[0])), tok, budget)
  }

  /** The number of lines after the signature that `last_read` counts as read. */
  function Reads(rest: seq<string>, py: bool, tok: Counter, budget: nat): (k: nat)
    ensures k <= |rest|
  {
    var skip := if py then SkipDocstring(rest) else 0;
    if skip > |rest| then |rest|
    else if skip == |rest| then 0
    else skip + LoopReads(rest[skip..], 0, tok, budget)
  }

  function LastReadOf(lines: seq<string>, start: nat, end: nat, hasBody: bool, py: bool, tok: Counter, budget: nat): nat
  {
    if !hasBody || lines == [] then start
    else SignatureEnd(lines, start, end, py) + Reads(AfterSignature(lines, start, end, py), py, tok, budget)
  }

  function LastRead(node: Node, lines: seq<string>, tok: Counter, budget: nat): nat
  {
    LastReadOf(lines, node.start, node.end, HasBody(node.kind), IsPython(node.language), tok, budget)
  }

  // ---- truncating the lines after the signature ----

  lemma {:induction false} LoopIgnoresUnread(rest: seq<string>, t: nat, n: nat, tok: Counter, budget: nat)
    requires LoopReads(rest, n, tok, budget) <= t <= |rest|
    ensures Fitting(Kept(rest[..t]), n, tok, budget) == Fitting(Kept(rest), n, tok, budget)
    decreases |rest|
  {
    hide PunctOnly, CutLine;
    if rest != [] {
      assert rest[..t][1..] == rest[1..][..t - 1];
      if PunctOnly(rest[0]) {
        LoopIgnoresUnread(rest[1..], t - 1, n, tok, budget);
      } else if n + tok(CutLine(rest[0])) <= budget {
        LoopIgnoresUnread(rest[1..], t - 1, n + tok(CutLine(rest[0])), tok, budget);
      }
    }
  }

  lemma {:induction false} BlankGivesNothing(rest: seq<string>)
    requires forall i :: 0 <= i < |rest| ==> IsBlank(rest[i])
    ensures Kept(rest) == []
    decreases |rest|
  {
    if rest != [] {
      assert IsBlank(rest[0]) && PunctOnly(rest[0]);
      BlankGivesNothing(rest[1..]);
    }
  }

  lemma {:induction false} FirstNonBlankOfPrefix(rest: seq<string>, t: nat, i: nat)
    requires i <= t <= |rest|
    ensures FirstNonBlank(rest[..t], i) == Min(t, FirstNonBlank(rest, i))
    decreases t - i
  {
    if i < t { FirstNonBlankOfPrefix(rest, t, i + 1); }
  }

  lemma {:induction false} FirstHoldingOfPrefix(rest: seq<string>, t: nat, i: nat, part: string)
    requires i <= t <= |rest|
    ensures FirstHolding(rest[..t], i, part) == Min(t, FirstHolding(rest, i, part))
    decreases t - i
  {
    if i < t { FirstHoldingOfPrefix(rest, t, i + 1, part); }
  }

  /** A docstring that ends before the cut is skipped alike; one the cut runs through swallows what is
      left; a cut before it leaves blank lines only. */
  lemma SkipOfPrefix(rest: seq<string>, t: nat)
    requires t <= |rest|
    ensures
      var k, k' := SkipDocstring(rest), SkipDocstring(rest[..t]);
      || k' == k
      || (t < k && (k' > t || (k' == 0 && forall i :: 0 <= i < t ==> IsBlank(rest[i]))))
  {
    var i := FirstNonBlank(rest, 0);
    FirstNonBlankOfPrefix(rest, t, 0);
    forall m | 0 <= m < i ensures IsBlank(rest[m]) { BlankBefore(rest, 0, m); }
    if i < t {
      var open := DocstringOpen(Strip(rest[i]));
      if open.Some? {
        FirstHoldingOfPrefix(rest, t, i + 1, open.value.0);
      }
    }
  }

  /** A cut below the docstring cuts what follows it. */
  lemma AfterDocstringOfCut(rest: seq<string>, t: nat, py: bool)
    requires t <= |rest| && (py ==> SkipDocstring(rest) <= t)
    ensures AfterDocstring(rest[..t], py) == AfterDocstring(rest, py)[..t - (if py then SkipDocstring(rest) else 0)]
  {
    if py {
      SkipOfPrefix(rest, t);
      CutAfter(rest, t, SkipDocstring(rest));
    }
  }

  lemma CutAfter(rest: seq<string>, t: nat, skip: nat)
    requires skip <= t <= |rest|
    ensures Slice(rest[..t], skip, t) == Slice(rest, skip, |rest|)[..t - skip]
  {
  }

  /** Cutting the lines after the signature anywhere at or after the last line read keeps the text: when
      lines are left after the docstring, */
  lemma BodyIgnoresUnreadLines(rest: seq<string>, t: nat, py: bool, tok: Counter, budget: nat, skip: nat)
    requires skip < |rest| && skip == (if py then SkipDocstring(rest) else 0)
    requires Reads(rest, py, tok, budget) <= t < |rest|
    ensures BodyOf(rest[..t], py, tok, budget) == BodyOf(rest, py, tok, budget)
  {
    assert skip <= t;
    AfterDocstringOfCut(rest, t, py);
    assert AfterDocstring(rest, py) == rest[skip..];
    LoopIgnoresUnread(rest[skip..], t - skip, 0, tok, budget);
  }

  /** when the docstring takes them all, */
  lemma BodyIgnoresDocstring(rest: seq<string>, t: nat, tok: Counter, budget: nat)
    requires Reads(rest, true, tok, budget) <= t < |rest| && SkipDocstring(rest) >= |rest|
    ensures BodyOf(rest[..t], true, tok, budget) == BodyOf(rest, true, tok, budget)
  {
    SkipOfPrefix(rest, t);
    assert AfterDocstring(rest, true) == [];
    if SkipDocstring(rest[..t]) == 0 {
      BlankGivesNothing(rest[..t]);
      assert AfterDocstring(rest[..t], true) == rest[..t];
    } else {
      assert AfterDocstring(rest[..t], true) == [];
    }
  }

  /** and so always. */
  lemma BodyIgnoresUnread(rest: seq<string>, t: nat, py: bool, tok: Counter, budget: nat)
    requires Reads(rest, py, tok, budget) <= t <= |rest|
    ensures BodyOf(rest[..t], py, tok, budget) == BodyOf(rest, py, tok, budget)
  {
    var skip := if py then SkipDocstring(rest) else 0;
    if t == |rest| {
      assert rest[..t] == rest;
    } else if skip < |rest| {
      BodyIgnoresUnreadLines(rest, t, py, tok, budget, skip);
    } else {
      BodyIgnoresDocstring(rest, t, tok, budget);
    }
  }

  // ---- truncating and rebasing the source ----

  /** On the source cut after line `cut` and rebased, the signature ends on the same line if that line
      is kept, and nowhere if it ended nowhere. */
  lemma {:induction false} SignatureOfCut(lines: seq<string>, start: nat, cut: nat, i: nat, end: nat,
                                          depth: nat, quote: Option<char>, py: bool)
    requires start <= i && start <= end
    ensures
      var found := SignatureFrom(lines, i, end, depth, quote, py);
      var found' := SignatureFrom(Slice(lines, start, cut + 1), i - start, end - start, depth, quote, py);
      && (found.None? ==> found'.None?)
      && (found.Some? ==> start <= found.value <= end && (found.value <= cut ==> found' == Some(found.value - start)))
    decreases |lines| - i
  {
    hide ScanLine, QuoteAfterLine;
    if i <= end && i < |lines| {
      SliceIs(lines, start, cut + 1);
      assert i <= cut ==> Slice(lines, start, cut + 1)[i - start] == lines[i];
      match ScanLine(lines[i], 0, depth, quote, None, py)
      case SignatureEnds =>
      case LineOver(d, q, tail) =>
        SignatureOfCut(lines, start, cut, i + 1, end, d, QuoteAfterLine(q, py), py);
    }
  }

  lemma SliceIs<T>(lines: seq<T>, from: nat, to: nat)
    ensures |Slice(lines, from, to)| == Max(0, Min(to, |lines|) - from)
    ensures forall i :: 0 <= i < |Slice(lines, from, to)| ==> Slice(lines, from, to)[i] == lines[from + i]
  {
  }

  lemma SliceOfSlice<T>(lines: seq<T>, start: nat, from: nat, cut: nat, end: nat)
    requires start <= from <= cut && from <= end
    ensures
      var rest := Slice(lines, from + 1, end + 1);
      Slice(Slice(lines, start, cut + 1), from - start + 1, end - start + 1) == rest[..Min(|rest|, cut - from)]
  {
    var rest, span := Slice(lines, from + 1, end + 1), Slice(lines, start, cut + 1);
    SliceIs(lines, from + 1, end + 1);
    SliceIs(lines, start, cut + 1);
    SliceIs(span, from - start + 1, end - start + 1);
    var rest' := Slice(span, from - start + 1, end - start + 1);
    assert |rest'| == Min(|rest|, cut - from);
    forall i | 0 <= i < |rest'| ensures rest'[i] == rest[i] {
      assert rest'[i] == span[from - start + 1 + i];
    }
  }

  lemma SignatureEndOfCut(lines: seq<string>, start: nat, cut: nat, end: nat, py: bool)
    requires start <= end && SignatureEnd(lines, start, end, py) <= cut
    ensures start <= SignatureEnd(lines, start, end, py) <= end
    ensures SignatureEnd(Slice(lines, start, cut + 1), 0, end - start, py) == SignatureEnd(lines, start, end, py) - start
  {
    SignatureOfCut(lines, start, cut, start, end, 0, None, py);
  }

  /** The lines after the signature of the cut source are the first ones after the signature. */
  lemma RestOfCut(lines: seq<string>, start: nat, cut: nat, end: nat, py: bool)
    requires start <= end && SignatureEnd(lines, start, end, py) <= cut
    ensures
      var rest := AfterSignature(lines, start, end, py);
      AfterSignature(Slice(lines, start, cut + 1), 0, end - start, py)
      == rest[..Min(|rest|, cut - SignatureEnd(lines, start, end, py))]
  {
    hide SignatureEnd, Slice;
    SignatureEndOfCut(lines, start, cut, end, py);
    SliceOfSlice(lines, start, SignatureEnd(lines, start, end, py), cut, end);
  }

  /** The node with its span rebased to line 0. */
  function Rebased(node: Node): Node
    requires node.start <= node.end
  {
    node.(start := 0, end := node.end - node.start)
  }

  lemma BodyOfCut(lines: seq<string>, start: nat, end: nat, cut: nat, py: bool, tok: Counter, budget: nat)
    requires start <= end
    requires cut >= SignatureEnd(lines, start, end, py) + Reads(AfterSignature(lines, start, end, py), py, tok, budget)
    ensures BodyOf(AfterSignature(Slice(lines, start, cut + 1), 0, end - start, py), py, tok, budget)
         == BodyOf(AfterSignature(lines, start, end, py), py, tok, budget)
  {
    hide SignatureEnd, AfterSignature, Reads, BodyOf, Slice;
    var rest := AfterSignature(lines, start, end, py);
    RestOfCut(lines, start, cut, end, py);
    BodyIgnoresUnread(rest, Min(|rest|, cut - SignatureEnd(lines, start, end, py)), py, tok, budget);
  }

  /** The body field of the cut source is that of the whole, also where nothing is left of it. */
  lemma BodyFieldOfCut(lines: seq<string>, start: nat, end: nat, cut: nat, hasBody: bool, py: bool, tok: Counter, budget: nat)
    requires start <= end && cut >= LastReadOf(lines, start, end, hasBody, py, tok, budget)
    ensures Body(Slice(lines, start, cut + 1), 0, end - start, hasBody, py, tok, budget)
         == Body(lines, start, end, hasBody, py, tok, budget)
  {
    hide SignatureEnd, Reads, BodyOf, Slice;
    if hasBody && lines != [] {
      var span := Slice(lines, start, cut + 1);
      BodyOfCut(lines, start, end, cut, py, tok, budget);
      if span == [] {
        NothingAfter(span, SignatureEnd(span, 0, end - start, py) + 1, end - start + 1);
        EmptyBody(py, tok, budget);
      }
    } else if lines == [] {
      NothingAfter(lines, start, cut + 1);
    }
  }

  lemma NothingAfter(lines: seq<string>, from: nat, to: nat)
    requires lines == []
    ensures Slice(lines, from, to) == []
  {
  }

  /** For every node, source, counter and budget: cutting the source after the last line read, or after
      any later line, and rebasing leaves the text unchanged. */
  lemma CutIsHarmless(node: Node, lines: seq<string>, cut: nat, withBody: bool, tok: Counter, budget: nat)
    requires node.start <= node.end
    requires cut >= LastRead(node, lines, tok, budget)
    ensures Build(Rebased(node), Slice(lines, node.start, cut + 1), withBody, tok, budget)
         == Build(node, lines, withBody, tok, budget)
  {
    hide Body, LastReadOf, Fields, HasBody, IsPython, Slice;
    BodyFieldOfCut(lines, node.start, node.end, cut, HasBody(node.kind), IsPython(node.language), tok, budget);
  }

  lemma EmptyBody(py: bool, tok: Counter, budget: nat)
    ensures BodyOf([], py, tok, budget) == ""
  {
    assert AfterDocstring([], py) == [];
  }

  // ---- the loops of the source ----

  method ComputeLastRead(node: Node, lines: seq<string>, tok: Counter, budget: nat) returns (last: nat)
    ensures last == LastRead(node, lines, tok, budget)
  {
    last := ComputeLastReadOf(lines, node.start, node.end, HasBody(node.kind), IsPython(node.language), tok, budget);
  }

  method ComputeLastReadOf(lines: seq<string>, start: nat, end: nat, hasBody: bool, py: bool, tok: Counter, budget: nat)
    returns (last: nat)
    ensures last == LastReadOf(lines, start, end, hasBody, py, tok, budget)
  {
    hide SignatureEnd, Reads, Slice;
    if !hasBody || lines == [] {
      return start;
    }
    var se := ComputeSignatureEnd(lines, start, end, py);
    last := LastAfterSignature(Slice(lines, se + 1, end + 1), py, se, tok, budget);
  }

  method LastAfterSignature(rest: seq<string>, py: bool, se: nat, tok: Counter, budget: nat) returns (last: nat)
    ensures last == se + Reads(rest, py, tok, budget)
  {
    var skip := 0;
    if py {
      skip := ComputeSkipDocstring(rest);
      if skip > |rest| {
        return se + |rest|;
      }
    }
    last := LastOfLoop(rest, skip, se, tok, budget);
  }

  /** The token loop of `last_read`, over the lines after the signature (line `se`) and the docstring. */
  method LastOfLoop(rest: seq<string>, skip: nat, se: nat, tok: Counter, budget: nat) returns (last: nat)
    requires skip <= |rest|
    ensures last == if skip == |rest| then se else se + skip + LoopReads(rest[skip..], 0, tok, budget)
  {
    hide PunctOnly, CutLine;
    var n: nat, i := 0, skip;
    last := se;
    while i < |rest|
      invariant skip <= i <= |rest|
      invariant last == if i == skip then se else se + i
      invariant LoopReads(rest[skip..], 0, tok, budget) == i - skip + LoopReads(rest[i..], n, tok, budget)
    {
      assert rest[i..][1..] == rest[i + 1..];
      last := se + 1 + i;
      if !PunctOnly(rest[i]) {
        n := n + tok(CutLine(rest[i]));
        if n > budget {
          return;
        }
      }
      i := i + 1;
    }
  }

  /** The fixture's case for a real node: one cut that serves every counter. */
  method SpanFor(node: Node, lines: seq<string>, toks: seq<Counter>, budget: nat)
    returns (rebased: Node, span: seq<string>, cut: nat)
    requires toks != [] && node.start <= node.end
    ensures rebased.front == node.front && rebased.kind == node.kind && rebased.language == node.language
    ensures rebased.start == 0 && rebased.end == node.end - node.start
    ensures span == Slice(lines, node.start, cut + 1)
    ensures forall i :: 0 <= i < |toks| ==> LastRead(node, lines, toks[i], budget) <= cut
    ensures exists i :: 0 <= i < |toks| && LastRead(node, lines, toks[i], budget) == cut
    ensures forall i, withBody :: 0 <= i < |toks| ==>
              Build(rebased, span, withBody, toks[i], budget) == Build(node, lines, withBody, toks[i], budget)
  {
    hide LastRead, Build, Slice;
    cut := ComputeLastRead(node, lines, toks[0], budget);
    var k := 1;
    while k < |toks|
      invariant 1 <= k <= |toks|
      invariant exists i :: 0 <= i < k && LastRead(node, lines, toks[i], budget) == cut
      invariant forall i :: 0 <= i < k ==> LastRead(node, lines, toks[i], budget) <= cut
    {
      var last := ComputeLastRead(node, lines, toks[k], budget);
      cut := Max(cut, last);
      k := k + 1;
    }
    span := Slice(lines, node.start, cut + 1);
    rebased := Rebased(node);
    forall i, withBody | 0 <= i < |toks|
      ensures Build(rebased, span, withBody, toks[i], budget) == Build(node, lines, withBody, toks[i], budget)
    {
      CutIsHarmless(node, lines, cut, withBody, toks[i], budget);
    }
  }

  /** The last line read lies in the node's span. */
  lemma LastReadInSpan(node: Node, lines: seq<string>, tok: Counter, budget: nat)
    requires node.start <= node.end
    ensures node.start <= LastRead(node, lines, tok, budget) <= node.end
  {
    SignatureOfCut(lines, node.start, node.end, node.start, node.end, 0, None, IsPython(node.language));
  }
}
