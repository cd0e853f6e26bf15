/**
 * The body field of the cross-encoder text (`gm462_ce_text.py`): where a declaration's signature
 * ends, which lines after it the field takes, and how many lines of source that reads.
 *
 * Every loop of the source is a method here, proved against the specification function it names.
 */
module CeText {
  import opened Prelude
  import opened Text

  const BODY_KINDS: set<string> := {"Function", "Type"}
  const LINE_CHARS := 200

  /** A token counter: any function from text to a count. */
  type Counter = string -> nat

  // ---- lines ----

  predicate PunctOnly(line: string)
  {
    forall i :: 0 <= i < |line| ==> IsSpace(line[i]) || line[i] in "{}()[];,"
  }

  /** Whitespace collapsed, cut at LINE_CHARS characters. */
  function CutLine(line: string): string
  {
    var collapsed := Join(Words(line), " ");
    collapsed[..Min(LINE_CHARS, |collapsed|)]
  }

  /** Python's `lines[from:to]` for non-negative bounds. */
  function Slice<T>(lines: seq<T>, from: nat, to: nat): seq<T>
  {
    if from < to && from < |lines| then lines[from..Min(to, |lines|)] else []
  }

  // ---- the signature ----

  datatype LineScan = SignatureEnds | LineOver(depth: nat, quote: Option<char>, tail: Option<char>)

  predicate OpensString(ch: char, py: bool)
  {
    ch == '\"' || ch == (if py then '\'' else '`')
  }

  predicate OpensComment(line: string, j: nat, py: bool)
    requires j < |line|
  {
    if py then line[j] == '#' else StartsWith(line[j..], "//")
  }

  predicate EndsSignature(line: string, j: nat)
    requires j < |line|
  {
    line[j] in "{;" || StartsWith(line[j..], "=>")
  }

  /** The tail after reading `ch` outside a string. */
  function Seen(ch: char, tail: Option<char>): Option<char>
  {
    if IsSpace(ch) then tail else Some(ch)
  }

  /** Scans `line` from character `j`: bracket depth, the open quote, the last character read outside a
      string. Python's signature ends with a line; the other languages' at a character. */
  function ScanLine(line: string, j: nat, depth: nat, quote: Option<char>, tail: Option<char>, py: bool): LineScan
    decreases |line| - j
  {
    if j >= |line| then LineOver(depth, quote, tail)
    else
      var ch := line[j];
      if quote.Some? then
        if ch == '\\' then ScanLine(line, j + 2, depth, quote, tail, py)
        else if ch == quote.value then ScanLine(line, j + 1, depth, None, Seen(ch, tail), py)
        else ScanLine(line, j + 1, depth, quote, tail, py)
      else if OpensString(ch, py) then ScanLine(line, j + 1, depth, Some(ch), tail, py)
      else if OpensComment(line, j, py) then LineOver(depth, quote, tail)
      else if ch in "([" then ScanLine(line, j + 1, depth + 1, quote, Seen(ch, tail), py)
      else if ch in ")]" then ScanLine(line, j + 1, Max(0, depth - 1), quote, Seen(ch, tail), py)
      else if depth == 0 && !py && EndsSignature(line, j) then SignatureEnds
      else ScanLine(line, j + 1, depth, quote, Seen(ch, tail), py)
  }

  /** A Python string ends with its line; a backtick string goes on. */
  function QuoteAfterLine(quote: Option<char>, py: bool): Option<char>
  {
    if py && quote in {Some('\''), Some('\"')} then None else quote
  }

  /** The first line from `i` on, up to `end`, on which the signature ends. */
  function SignatureFrom(lines: seq<string>, i: nat, end: nat, depth: nat, quote: Option<char>, py: bool): Option<nat>
    decreases |lines| - i
  {
    if i > end || i >= |lines| then None
    else
      match ScanLine(lines[i], 0, depth, quote, None, py)
      case SignatureEnds => Some(i)
      case LineOver(d, q, tail) =>
        if py && d == 0 && tail == Some(':') then Some(i)
        else SignatureFrom(lines, i + 1, end, d, QuoteAfterLine(q, py), py)
  }

  function SignatureEnd(lines: seq<string>, start: nat, end: nat, py: bool): nat
  {
    var found := SignatureFrom(lines, start, end, 0, None, py);
    if found.Some? then found.value else start
  }

  // ---- the docstring ----

  function FirstNonBlank(lines: seq<string>, i: nat): (k: nat)
    requires i <= |lines|
    ensures i <= k <= |lines|
    decreases |lines| - i
  {
    if i < |lines| && IsBlank(lines[i]) then FirstNonBlank(lines, i + 1) else i
  }

  lemma {:induction false} BlankBefore(lines: seq<string>, i: nat, m: nat)
    requires i <= |lines| && i <= m < FirstNonBlank(lines, i)
    ensures IsBlank(lines[m])
    decreases |lines| - i
  {
    if i < m { BlankBefore(lines, i + 1, m); }
  }

  function FirstHolding(lines: seq<string>, i: nat, part: string): (k: nat)
    requires i <= |lines|
    ensures i <= k <= |lines|
    decreases |lines| - i
  {
    if i < |lines| && !Contains(lines[i], part) then FirstHolding(lines, i + 1, part) else i
  }

  /** The opening quote of a docstring and the index after it: at most two prefix letters before it. */
  function DocstringOpen(head: string, k: nat := 0): Option<(string, nat)>
    requires k <= 2
    decreases 2 - k
  {
    if StartsWith(Slice(head, k, |head|), "\"\"\"") then Some(("\"\"\"", k + 3))
    else if StartsWith(Slice(head, k, |head|), "'''") then Some(("'''", k + 3))
    else if k < 2 && k < |head| && head[k] in "rRbBuUfF" then DocstringOpen(head, k + 1)
    else None
  }

  /** The number of lines a leading docstring takes; one more than there are when it never closes. */
  function SkipDocstring(lines: seq<string>): nat
  {
    var i := FirstNonBlank(lines, 0);
    if i == |lines| then 0
    else
      var head := Strip(lines[i]);
      match DocstringOpen(head)
      case None => 0
      case Some((quote, after)) =>
        if Contains(Slice(head, after, |head|), quote) then i + 1
        else FirstHolding(lines, i + 1, quote) + 1
  }

  // ---- the body ----

  /** The lines after the signature, up to `end`. */
  function AfterSignature(lines: seq<string>, start: nat, end: nat, py: bool): seq<string>
  {
    Slice(lines, SignatureEnd(lines, start, end, py) + 1, end + 1)
  }

  function AfterDocstring(rest: seq<string>, py: bool): seq<string>
  {
    if py then Slice(rest, SkipDocstring(rest), |rest|) else rest
  }

  /** The cut lines that are not punctuation only. */
  function Kept(rest: seq<string>): seq<string>
  {
    if rest == [] then []
    else if PunctOnly(rest[0]) then Kept(rest[1..])
    else [CutLine(rest[0])] + Kept(rest[1..])
  }

  /** Whole lines while the count stays within `budget`; `n` tokens are spent already. */
  function Fitting(body: seq<string>, n: nat, tok: Counter, budget: nat): seq<string>
  {
    if body == [] || n + tok(body[0]) > budget then []
    else [body[0]] + Fitting(body[1..], n + tok(body[0]), tok, budget)
  }

  /** The tokens the first `j` lines take. */
  function Tokens(body: seq<string>, j: nat, tok: Counter): nat
    requires j <= |body|
  {
    if j == 0 then 0 else tok(body[0]) + Tokens(body[1..], j - 1, tok)
  }

  /** The lines that fit are the longest run of first lines within the budget. */
  lemma {:induction false} FittingIsLongest(body: seq<string>, n: nat, tok: Counter, budget: nat) returns (j: nat)
    requires n <= budget
    ensures j <= |body| && Fitting(body, n, tok, budget) == body[..j] && n + Tokens(body, j, tok) <= budget
    ensures forall m :: 0 <= m <= |body| ==> (m <= j <==> n + Tokens(body, m, tok) <= budget)
    decreases |body|
  {
    j := 0;
    if body != [] && n + tok(body[0]) <= budget {
      var k := FittingIsLongest(body[1..], n + tok(body[0]), tok, budget);
      j := k + 1;
      assert body[..j] == [body[0]] + body[1..][..k];
      forall m | 0 < m <= |body| ensures m <= j <==> n + Tokens(body, m, tok) <= budget {
        assert m - 1 <= k <==> n + tok(body[0]) + Tokens(body[1..], m - 1, tok) <= budget;
      }
    }
  }

  /** The body field is the longest run of kept lines whose tokens fit the budget. */
  lemma BodyIsLongest(rest: seq<string>, py: bool, tok: Counter, budget: nat) returns (j: nat)
    ensures
      var kept := Kept(AfterDocstring(rest, py));
      && j <= |kept| && BodyOf(rest, py, tok, budget) == Join(kept[..j], "\n")
      && forall m :: 0 <= m <= |kept| ==> (m <= j <==> Tokens(kept, m, tok) <= budget)
  {
    j := FittingIsLongest(Kept(AfterDocstring(rest, py)), 0, tok, budget);
  }

  /** The text the lines after a signature give. */
  function BodyOf(rest: seq<string>, py: bool, tok: Counter, budget: nat): string
  {
    Join(Fitting(Kept(AfterDocstring(rest, py)), 0, tok, budget), "\n")
  }

  /** The body field. */
  function Body(lines: seq<string>, start: nat, end: nat, hasBody: bool, py: bool, tok: Counter, budget: nat): string
  {
    if !hasBody || lines == [] then "" else BodyOf(AfterSignature(lines, start, end, py), py, tok, budget)
  }

  /** The node's columns the text is built from. `front` are its fields that read no source line: the
      enclosing words, the identifiers, the path words and the base text. */
  datatype Node = Node(kind: string, language: string, start: nat, end: nat, front: seq<string>)

  predicate HasBody(kind: string) { kind in BODY_KINDS }

  predicate IsPython(language: string) { language == "python" }

  function NonEmpty(fields: seq<string>): seq<string>
  {
    if fields == [] then []
    else if fields[0] == "" then NonEmpty(fields[1..])
    else [fields[0]] + NonEmpty(fields[1..])
  }

  /** The fields that are not empty, one per line, the body last. */
  function Fields(front: seq<string>, body: string): string
  {
    Join(NonEmpty(front + [body]), "\n")
  }

  /** `build`. */
  function Build(node: Node, lines: seq<string>, withBody: bool, tok: Counter, budget: nat): string
  {
    Fields(node.front,
           if withBody then Body(lines, node.start, node.end, HasBody(node.kind), IsPython(node.language), tok, budget) else "")
  }

  // ---- the loops of the source ----

  method ComputeSignatureEnd(lines: seq<string>, start: nat, end: nat, py: bool) returns (r: nat)
    ensures r == SignatureEnd(lines, start, end, py)
  {
    var depth: nat, quote: Option<char>, i := 0, None, start;
    while i <= end && i < |lines|
      invariant start <= i
      invariant SignatureFrom(lines, i, end, depth, quote, py) == SignatureFrom(lines, start, end, 0, None, py)
      decreases |lines| - i
    {
      var line, tail: Option<char>, j: nat := lines[i], None, 0;
      ghost var whole := ScanLine(line, 0, depth, quote, None, py);
      var comment := false;
      while j < |line| && !comment
        invariant ScanLine(line, j, depth, quote, tail, py) == whole
        invariant comment ==> j < |line| && quote.None? && !OpensString(line[j], py) && OpensComment(line, j, py)
        decreases !comment, |line| - j
      {
        var ch := line[j];
        if quote.Some? {
          if ch == '\\' {
            j := j + 1;
          } else if ch == quote.value {
            quote := None;
            tail := Seen(ch, tail);
          }
        } else if OpensString(ch, py) {
          quote := Some(ch);
        } else if OpensComment(line, j, py) {
          comment := true;
        } else if ch in "([" {
          depth := depth + 1;
          tail := Seen(ch, tail);
        } else if ch in ")]" {
          depth := Max(0, depth - 1);
          tail := Seen(ch, tail);
        } else if depth == 0 && !py && EndsSignature(line, j) {
          return i;
        } else {
          tail := Seen(ch, tail);
        }
        if !comment {
          j := j + 1;
        }
      }
      assert whole == LineOver(depth, quote, tail);
      if py && depth == 0 && tail == Some(':') {
        return i;
      }
      quote := QuoteAfterLine(quote, py);
      i := i + 1;
    }
    return start;
  }

  method ComputeSkipDocstring(lines: seq<string>) returns (r: nat)
    ensures r == SkipDocstring(lines)
  {
    var i := 0;
    while i < |lines| && IsBlank(lines[i])
      invariant i <= |lines| && FirstNonBlank(lines, i) == FirstNonBlank(lines, 0)
    {
      i := i + 1;
    }
    if i == |lines| {
      return 0;
    }
    var head := Strip(lines[i]);
    var open := DocstringOpen(head);
    if open.None? {
      return 0;
    }
    var (quote, after) := open.value;
    if Contains(Slice(head, after, |head|), quote) {
      return i + 1;
    }
    i := i + 1;
    ghost var from := i;
    while i < |lines| && !Contains(lines[i], quote)
      invariant from <= i <= |lines| && FirstHolding(lines, i, quote) == FirstHolding(lines, from, quote)
    {
      i := i + 1;
    }
    return i + 1;
  }

  /** The budgeted loop. */
  method FitLines(body: seq<string>, tok: Counter, budget: nat) returns (out: seq<string>)
    ensures out == Fitting(body, 0, tok, budget)
  {
    assert body[0..] == body;
    out := [];
    var n: nat, k := 0, 0;
    while k < |body|
      invariant k <= |body|
      invariant Fitting(body, 0, tok, budget) == out + Fitting(body[k..], n, tok, budget)
    {
      assert body[k..][1..] == body[k + 1..];
      n := n + tok(body[k]);
      if n > budget {
        assert out + [] == out;
        return;
      }
      out := out + [body[k]];
      k := k + 1;
    }
    assert body[k..] == [] && out + [] == out;
  }

  method ComputeBody(lines: seq<string>, start: nat, end: nat, hasBody: bool, py: bool, tok: Counter, budget: nat)
    returns (r: string)
    ensures r == Body(lines, start, end, hasBody, py, tok, budget)
  {
    hide SignatureEnd, SkipDocstring, Kept, Fitting, Join, Slice;
    if !hasBody || lines == [] {
      return "";
    }
    var se := ComputeSignatureEnd(lines, start, end, py);
    var rest := Slice(lines, se + 1, end + 1);
    if py {
      var skip := ComputeSkipDocstring(rest);
      rest := Slice(rest, skip, |rest|);
    }
    var out := FitLines(Kept(rest), tok, budget);
    r := Join(out, "\n");
  }
}
