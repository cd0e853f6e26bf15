/**
 * The lines of the body field, said of the source: which lines a docstring takes, which lines are kept,
 * what a line is cut to, and where reading stops.
 */
module CeLines {
  import opened Prelude
  import opened Text
  import opened CeText
  import opened CeCut

  // ---- the docstring ----

  /** `part` stands in `s` somewhere from character `from` on. */
  ghost predicate Holds(s: string, part: string, from: int)
  {
    exists k :: from <= k && OccursAt(s, k, part)
  }

  predicate OccursAt(s: string, k: int, part: string)
  {
    0 <= k && k + |part| <= |s| && s[k..k + |part|] == part
  }

  lemma OccursInTail(s: string, n: nat, part: string)
    requires n <= |s|
    ensures forall k :: 0 <= k ==> (OccursAt(s[n..], k, part) <==> OccursAt(s, n + k, part))
  {
    forall k | 0 <= k ensures OccursAt(s[n..], k, part) <==> OccursAt(s, n + k, part) {
      if n + k + |part| <= |s| { assert s[n..][k..k + |part|] == s[n + k..n + k + |part|]; }
    }
  }

  lemma HoldsInTail(s: string, n: nat, part: string)
    requires n <= |s|
    ensures Holds(s[n..], part, 0) <==> Holds(s, part, n)
  {
    OccursInTail(s, n, part);
    hide OccursAt;
    if Holds(s, part, n) {
      var k :| n <= k && OccursAt(s, k, part);
      assert OccursAt(s[n..], k - n, part) <==> OccursAt(s, n + (k - n), part);
    }
    if Holds(s[n..], part, 0) {
      var k :| 0 <= k && OccursAt(s[n..], k, part);
      assert OccursAt(s, n + k, part);
    }
  }

  lemma HoldsFirst(s: string, part: string)
    requires s != []
    ensures Holds(s, part, 0) <==> OccursAt(s, 0, part) || Holds(s, part, 1)
  {
    hide OccursAt;
    if Holds(s, part, 0) {
      var k :| 0 <= k && OccursAt(s, k, part);
    }
  }

  lemma {:induction false} ContainsIff(s: string, part: string)
    ensures Contains(s, part) <==> Holds(s, part, 0)
    decreases |s|
  {
    assert StartsWith(s, part) <==> OccursAt(s, 0, part);
    if s != [] {
      ContainsIff(s[1..], part);
      HoldsInTail(s, 1, part);
      HoldsFirst(s, part);
    } else {
      assert Holds(s, part, 0) ==> part == "";
    }
  }

  /** `head` is `after - 3` prefix letters, at most two, then three quotes of one kind. */
  predicate OpensDoc(head: string, quote: string, after: nat)
  {
    && 3 <= after <= 5 && after <= |head| && (quote == "\"\"\"" || quote == "'''")
    && head[after - 3..after] == quote
    && forall i :: 0 <= i < after - 3 ==> head[i] in "rRbBuUfF"
  }

  lemma QuotesAt(head: string, k: nat, quote: string)
    requires |quote| == 3
    ensures StartsWith(Slice(head, k, |head|), quote) <==> k + 3 <= |head| && head[k..k + 3] == quote
  {
    if k < |head| { assert Slice(head, k, |head|) == head[k..]; }
    if k + 3 <= |head| { assert head[k..][..3] == head[k..k + 3]; }
  }

  lemma {:induction false} OpenIs(head: string, k: nat, quote: string, after: nat)
    requires k <= 2 && forall i :: 0 <= i < k ==> i < |head| && head[i] in "rRbBuUfF"
    ensures DocstringOpen(head, k) == Some((quote, after)) <==> OpensDoc(head, quote, after) && k + 3 <= after
    decreases 2 - k
  {
    QuotesAt(head, k, "\"\"\"");
    QuotesAt(head, k, "'''");
    if k + 3 <= |head| && (head[k..k + 3] == "\"\"\"" || head[k..k + 3] == "'''") {
      assert head[k] == head[k..k + 3][0];
    } else if k < 2 && k < |head| && head[k] in "rRbBuUfF" {
      OpenIs(head, k + 1, quote, after);
    }
  }

  lemma {:induction false} HoldingIsFirst(lines: seq<string>, i: nat, part: string)
    requires i <= |lines|
    ensures var k := FirstHolding(lines, i, part);
            (forall m :: i <= m < k ==> !Contains(lines[m], part)) && (k < |lines| ==> Contains(lines[k], part))
    decreases |lines| - i
  {
    if i < |lines| && !Contains(lines[i], part) { HoldingIsFirst(lines, i + 1, part); }
  }

  lemma {:induction false} NonBlankIsFirst(lines: seq<string>, i: nat)
    requires i <= |lines|
    ensures var k := FirstNonBlank(lines, i);
            (forall m :: i <= m < k ==> IsBlank(lines[m])) && (k < |lines| ==> !IsBlank(lines[k]))
    decreases |lines| - i
  {
    if i < |lines| && IsBlank(lines[i]) { NonBlankIsFirst(lines, i + 1); }
  }

  /** Line `o` is the first that is not blank, and a docstring opens on it. */
  predicate DocstringOn(lines: seq<string>, o: nat, quote: string, after: nat)
  {
    && o < |lines| && (forall m :: 0 <= m < o ==> IsBlank(lines[m])) && !IsBlank(lines[o])
    && OpensDoc(Strip(lines[o]), quote, after)
  }

  /** The docstring that opens on line `o` takes the lines before `k`: it closes on its own line, or on the
      next line that holds its quotes, or never. */
  ghost predicate ClosesBefore(lines: seq<string>, o: nat, quote: string, after: nat, k: nat)
    requires DocstringOn(lines, o, quote, after)
  {
    if Holds(Strip(lines[o]), quote, after) then k == o + 1
    else && o + 2 <= k <= |lines| + 1
         && (forall m :: o < m < k - 1 ==> !Holds(lines[m], quote, 0))
         && (k <= |lines| ==> Holds(lines[k - 1], quote, 0))
  }

  /** The lines skipped are those of the docstring that opens the body, and none if no docstring does. */
  lemma SkippedIsDocstring(lines: seq<string>) returns (o: nat, quote: string, after: nat)
    ensures
      var k := SkipDocstring(lines);
      if k == 0 then forall o, quote, after :: !DocstringOn(lines, o, quote, after)
      else DocstringOn(lines, o, quote, after) && ClosesBefore(lines, o, quote, after, k)
  {
    o, quote, after := FirstNonBlank(lines, 0), "", 0;
    NonBlankIsFirst(lines, 0);
    if o < |lines| {
      var head := Strip(lines[o]);
      forall q, a: nat ensures DocstringOpen(head) == Some((q, a)) <==> OpensDoc(head, q, a) { OpenIs(head, 0, q, a); }
      if DocstringOpen(head).Some? {
        quote, after := DocstringOpen(head).value.0, DocstringOpen(head).value.1;
        SkippedFrom(lines, o, quote, after);
      } else {
        forall p: nat, q, a: nat ensures !DocstringOn(lines, p, q, a) {
          assert DocstringOn(lines, p, q, a) ==> p == o;
        }
      }
    }
  }

  lemma SkipValue(lines: seq<string>, o: nat, head: string, quote: string, after: nat)
    requires o < |lines| && o == FirstNonBlank(lines, 0) && head == Strip(lines[o])
    requires DocstringOpen(head) == Some((quote, after))
    ensures SkipDocstring(lines) ==
              if Contains(Slice(head, after, |head|), quote) then o + 1 else FirstHolding(lines, o + 1, quote) + 1
  {
    hide Strip, DocstringOpen, Contains, FirstHolding, FirstNonBlank, Slice;
  }

  lemma ClosedOn(head: string, after: nat, quote: string)
    requires after <= |head|
    ensures Contains(Slice(head, after, |head|), quote) <==> Holds(head, quote, after)
  {
    assert Slice(head, after, |head|) == head[after..];
    HoldsInTail(head, after, quote);
    ContainsIff(head[after..], quote);
  }

  lemma ClosedBelow(lines: seq<string>, i: nat, quote: string)
    requires i <= |lines|
    ensures var k := FirstHolding(lines, i, quote);
            && (forall m :: i <= m < k ==> !Holds(lines[m], quote, 0)) && (k < |lines| ==> Holds(lines[k], quote, 0))
  {
    HoldingIsFirst(lines, i, quote);
    forall m | 0 <= m < |lines| ensures Contains(lines[m], quote) <==> Holds(lines[m], quote, 0) {
      ContainsIff(lines[m], quote);
    }
    hide Contains, Holds, FirstHolding;
  }

  lemma SkippedFrom(lines: seq<string>, o: nat, quote: string, after: nat)
    requires DocstringOn(lines, o, quote, after) && o == FirstNonBlank(lines, 0)
    requires DocstringOpen(Strip(lines[o])) == Some((quote, after))
    ensures SkipDocstring(lines) > 0 && ClosesBefore(lines, o, quote, after, SkipDocstring(lines))
  {
    hide Strip, DocstringOpen, Contains, Holds, FirstHolding, FirstNonBlank, Slice, SkipDocstring;
    SkipValue(lines, o, Strip(lines[o]), quote, after);
    ClosedOn(Strip(lines[o]), after, quote);
    ClosedBelow(lines, o + 1, quote);
  }

  // ---- which lines are kept ----

  /** The line has a character that is neither white space nor one of the punctuation the field drops. */
  predicate Telling(line: string)
  {
    exists i :: 0 <= i < |line| && !IsSpace(line[i]) && line[i] != '{' && line[i] != '}' && line[i] != '('
                && line[i] != ')' && line[i] != '[' && line[i] != ']' && line[i] != ';' && line[i] != ','
  }

  function TellingAt(rest: seq<string>): nat -> bool { (m: nat) => m < |rest| && Telling(rest[m]) }

  function CutAt(rest: seq<string>): nat -> string { (m: nat) => if m < |rest| then CutLine(rest[m]) else "" }

  lemma {:induction false} KeptFrom(rest: seq<string>, d: nat) returns (at: seq<nat>)
    requires d <= |rest|
    ensures Picks(d, |rest|, TellingAt(rest), CutAt(rest), Kept(rest[d..]), at)
    decreases |rest| - d
  {
    hide CutLine, Picks;
    at := [];
    if d < |rest| {
      assert rest[d..][0] == rest[d] && rest[d..][1..] == rest[d + 1..];
      assert PunctOnly(rest[d]) <==> !Telling(rest[d]);
      at := KeptFrom(rest, d + 1);
      hide PunctOnly, Telling;
      PicksMore(d, |rest|, TellingAt(rest), CutAt(rest), Kept(rest[d + 1..]), at);
      if !PunctOnly(rest[d]) { at := [d] + at; }
    } else {
      PicksNone(d, |rest|, TellingAt(rest), CutAt(rest));
    }
  }

  /** The kept lines are the telling ones, in order, each cut. */
  lemma KeptAreTelling(rest: seq<string>) returns (at: seq<nat>)
    ensures Picks(0, |rest|, TellingAt(rest), CutAt(rest), Kept(rest), at)
  {
    assert rest[0..] == rest;
    at := KeptFrom(rest, 0);
  }

  // ---- what a line is cut to ----

  /** `s[a..b]` is a word: no white space in it, and none of it beyond its ends. */
  predicate IsWord(s: string, a: nat, b: nat)
  {
    && a < b <= |s| && (forall i :: a <= i < b ==> !IsSpace(s[i]))
    && (a > 0 ==> IsSpace(s[a - 1])) && (b < |s| ==> IsSpace(s[b]))
  }

  /** `words` are the words of `s` from `a` on, in order: word `i` is `s[from[i]..to[i]]`. */
  ghost predicate AreWords(s: string, a: nat, words: seq<string>, from: seq<nat>, to: seq<nat>)
  {
    && Spans(a, from, to) && |words| == |from|
    && (forall i :: 0 <= i < |words| ==> IsWord(s, from[i], to[i]) && words[i] == s[from[i]..to[i]])
    && (forall m :: a <= m < |s| && !IsSpace(s[m]) ==> InSome(from, to, m))
  }

  lemma OneMoreWord(s: string, a: nat, p: nat, words: seq<string>, from: seq<nat>, to: seq<nat>)
    requires IsWord(s, a, p) && p < |s| && AreWords(s, p + 1, words, from, to)
    ensures AreWords(s, a, [s[a..p]] + words, [a] + from, [p] + to)
  {
    hide IsSpace;
    var words', from', to' := [s[a..p]] + words, [a] + from, [p] + to;
    forall m | a <= m < |s| && !IsSpace(s[m]) ensures InSome(from', to', m) {
      InMore(from, to, a, p, m);
    }
    assert Spans(p, from, to);
    MoreSpans(from, to, a, p);
    hide InSome, Spans, IsWord;
    forall i | 0 <= i < |words'| ensures IsWord(s, from'[i], to'[i]) && words'[i] == s[from'[i]..to'[i]] {
      if i > 0 { assert words'[i] == words[i - 1] && from'[i] == from[i - 1] && to'[i] == to[i - 1]; }
    }
  }

  /** The words of `s[p..]`, read one character at a time: `s[a..p]` is the run under way. */
  lemma {:induction false} WordsAreRuns(s: string, a: nat, p: nat) returns (from: seq<nat>, to: seq<nat>)
    requires a <= p <= |s| && (forall i :: a <= i < p ==> !IsSpace(s[i])) && (a > 0 ==> IsSpace(s[a - 1]))
    ensures AreWords(s, a, Words(s[p..], s[a..p]), from, to)
    decreases |s| - p
  {
    hide IsSpace, AreWords;
    from, to := [], [];
    if p == |s| {
      if a < p { from, to := [a], [p]; assert s[a..p] == s[a..]; }
      LastWord(s, a);
    } else {
      assert s[p..][0] == s[p] && s[p..][1..] == s[p + 1..];
      if !IsSpace(s[p]) {
        assert s[a..p] + [s[p]] == s[a..p + 1];
        from, to := WordsAreRuns(s, a, p + 1);
      } else {
        assert s[p + 1..p + 1] == [];
        from, to := WordsAreRuns(s, p + 1, p + 1);
        if a < p {
          OneMoreWord(s, a, p, Words(s[p + 1..], []), from, to);
          from, to := [a] + from, [p] + to;
        } else {
          NoWordHere(s, p, Words(s[p + 1..], []), from, to);
        }
      }
    }
  }

  lemma NoWordHere(s: string, p: nat, words: seq<string>, from: seq<nat>, to: seq<nat>)
    requires p < |s| && IsSpace(s[p]) && AreWords(s, p + 1, words, from, to)
    ensures AreWords(s, p, words, from, to)
  {
    hide IsSpace;
  }

  lemma LastWord(s: string, a: nat)
    requires a == |s| || IsWord(s, a, |s|)
    ensures if a == |s| then AreWords(s, a, [], [], []) else AreWords(s, a, [s[a..]], [a], [|s|])
  {
    hide IsSpace;
    forall m | a <= m < |s| ensures InSome([a], [|s|], m) { assert [a][0] <= m < [|s|][0]; }
  }

  /** A kept line is its words, one space between them, cut at 200 characters. */
  lemma CutLineIs(line: string) returns (from: seq<nat>, to: seq<nat>, words: seq<string>)
    ensures AreWords(line, 0, words, from, to)
    ensures CutLine(line) <= Join(words, " ") && |CutLine(line)| == Min(200, |Join(words, " ")|)
  {
    assert line[0..] == line && line[0..0] == "";
    from, to := WordsAreRuns(line, 0, 0);
    words := Words(line);
  }

  // ---- where reading stops ----

  /** The tokens of the telling lines among the first `m`. */
  function TokensTo(rest: seq<string>, m: nat, tok: Counter): nat
    requires m <= |rest|
  {
    if m == 0 then 0
    else TokensTo(rest, m - 1, tok) + if PunctOnly(rest[m - 1]) then 0 else tok(CutLine(rest[m - 1]))
  }

  lemma {:induction false} TokensFirst(rest: seq<string>, m: nat, tok: Counter)
    requires 0 < m <= |rest|
    ensures TokensTo(rest, m, tok) == TokensTo(rest[1..], m - 1, tok) + if PunctOnly(rest[0]) then 0 else tok(CutLine(rest[0]))
  {
    hide PunctOnly, CutLine;
    if m > 1 { TokensFirst(rest, m - 1, tok); }
  }

  /** The loop reads up to the first line that makes the tokens pass the budget, or to the end. */
  lemma {:induction false} ReadsUpTo(rest: seq<string>, n: nat, tok: Counter, budget: nat)
    requires n <= budget
    ensures var k := LoopReads(rest, n, tok, budget);
            && (forall m :: 0 <= m < k ==> n + TokensTo(rest, m, tok) <= budget)
            && (k < |rest| ==> n + TokensTo(rest, k, tok) > budget)
    decreases |rest|
  {
    hide PunctOnly, CutLine;
    if rest != [] {
      forall m | 0 < m <= |rest|
        ensures TokensTo(rest, m, tok) == TokensTo(rest[1..], m - 1, tok) + if PunctOnly(rest[0]) then 0 else tok(CutLine(rest[0]))
      {
        TokensFirst(rest, m, tok);
      }
      var n' := if PunctOnly(rest[0]) then n else n + tok(CutLine(rest[0]));
      if n' <= budget {
        ReadsUpTo(rest[1..], n', tok, budget);
      } else {
        assert TokensTo(rest[1..], 0, tok) == 0;
      }
    }
  }

  /** How many of the lines after the signature are read: all of them when a docstring never closes, none
      when it takes them all, else the docstring and the loop's lines after it. */
  lemma ReadsIs(rest: seq<string>, py: bool, tok: Counter, budget: nat)
    ensures LinesRead(rest, py, Reads(rest, py, tok, budget), tok, budget)
  {
    hide SkipDocstring, TokensTo;
    var skip := if py then SkipDocstring(rest) else 0;
    assert rest[0..] == rest;
    if skip < |rest| {
      ReadsUpTo(rest[skip..], 0, tok, budget);
      assert LoopReads(rest[skip..], 0, tok, budget) > 0;
    }
  }

  ghost predicate LinesRead(rest: seq<string>, py: bool, k: nat, tok: Counter, budget: nat)
  {
    var skip := SkipDocstring(rest);
    && (rest == [] ==> k == 0)
    && (py && skip > |rest| ==> k == |rest|)
    && (py && skip == |rest| ==> k == 0)
    && (py && skip < |rest| ==> skip < k && ReadsTo(rest[skip..], k - skip, tok, budget))
    && (!py && rest != [] ==> ReadsTo(rest, k, tok, budget))
  }

  /** The last line read is the start of a node without a body or a source; else it is the signature's last
      line and, counted from there, the lines read after it. */
  lemma LastReadIs(node: Node, lines: seq<string>, tok: Counter, budget: nat)
    ensures
      var last, py := LastRead(node, lines, tok, budget), IsPython(node.language);
      if lines == [] || (node.kind != "Function" && node.kind != "Type") then last == node.start
      else
        var se, rest := SignatureEnd(lines, node.start, node.end, py), AfterSignature(lines, node.start, node.end, py);
        se <= last <= se + |rest| && LinesRead(rest, py, last - se, tok, budget)
  {
    hide SignatureEnd, AfterSignature, LinesRead, Reads, IsPython;
    var py := IsPython(node.language);
    HasBodyIff(node.kind);
    ReadsIs(AfterSignature(lines, node.start, node.end, py), py, tok, budget);
  }

  /** `k` is the least number of first lines whose tokens pass the budget, or all of them. */
  ghost predicate ReadsTo(rest: seq<string>, k: nat, tok: Counter, budget: nat)
  {
    && 0 < k <= |rest| && (forall m :: 0 <= m < k ==> TokensTo(rest, m, tok) <= budget)
    && (k < |rest| ==> TokensTo(rest, k, tok) > budget)
  }

  // ---- the text ----

  /** Functions and types have a body field, nothing else has. */
  lemma HasBodyIff(kind: string)
    ensures HasBody(kind) <==> kind == "Function" || kind == "Type"
  {
  }

  function FilledAt(fields: seq<string>): nat -> bool { (m: nat) => m < |fields| && fields[m] != "" }

  function FieldAt(fields: seq<string>): nat -> string { (m: nat) => if m < |fields| then fields[m] else "" }

  lemma {:induction false} NonEmptyFrom(fields: seq<string>, d: nat) returns (at: seq<nat>)
    requires d <= |fields|
    ensures Picks(d, |fields|, FilledAt(fields), FieldAt(fields), NonEmpty(fields[d..]), at)
    decreases |fields| - d
  {
    hide Picks;
    at := [];
    if d < |fields| {
      assert fields[d..][0] == fields[d] && fields[d..][1..] == fields[d + 1..];
      at := NonEmptyFrom(fields, d + 1);
      PicksMore(d, |fields|, FilledAt(fields), FieldAt(fields), NonEmpty(fields[d + 1..]), at);
      if fields[d] != "" { at := [d] + at; }
    } else {
      PicksNone(d, |fields|, FilledAt(fields), FieldAt(fields));
    }
  }

  /** The text is the fields that are not empty, in order, the body last, a newline between them. */
  lemma TextIs(node: Node, lines: seq<string>, withBody: bool, tok: Counter, budget: nat)
    returns (body: string, kept: seq<string>, at: seq<nat>)
    ensures
      var fields := node.front + [body];
      Picks(0, |fields|, FilledAt(fields), FieldAt(fields), kept, at)
      && Build(node, lines, withBody, tok, budget) == Join(kept, "\n")
    ensures
      var py := IsPython(node.language);
      body == if withBody && HasBody(node.kind) && lines != []
              then BodyOf(AfterSignature(lines, node.start, node.end, py), py, tok, budget) else ""
  {
    hide BodyOf, AfterSignature, HasBody, IsPython, Join, Picks;
    body := if withBody then Body(lines, node.start, node.end, HasBody(node.kind), IsPython(node.language), tok, budget) else "";
    var fields := node.front + [body];
    assert fields[0..] == fields;
    kept := NonEmpty(fields);
    at := NonEmptyFrom(fields, 0);
  }
}
