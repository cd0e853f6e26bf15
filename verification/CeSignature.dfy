/**
 * Where a declaration's signature ends, said of the text and not of the scanner: which characters are
 * code, how brackets balance over them, and on which line the first end of a signature stands.
 */
module CeSignature {
  import opened Prelude
  import opened Text
  import opened CeText

  // ---- code, strings and comments ----

  /** Double quotes open a string in every language; single quotes in Python, backticks elsewhere. */
  predicate StringMark(c: char, py: bool)
  {
    c == '\"' || (c == '\'' && py) || (c == '`' && !py)
  }

  predicate CommentMark(line: string, j: nat, py: bool)
    requires j < |line|
  {
    if py then line[j] == '#' else line[j] == '/' && j + 1 < |line| && line[j + 1] == '/'
  }

  /** A brace, a semicolon, or the arrow of an expression-bodied function. */
  predicate EndMark(line: string, j: nat)
    requires j < |line|
  {
    line[j] == '{' || line[j] == ';' || (line[j] == '=' && j + 1 < |line| && line[j + 1] == '>')
  }

  /** Where a character stands: inside the string opened by `quote`, behind a line comment's start, or
      right after a backslash in a string. */
  datatype Place = Place(quote: Option<char>, comment: bool, escaped: bool)

  function Next(here: Place, line: string, j: nat, py: bool): Place
    requires j < |line|
  {
    if here.comment then here
    else if here.escaped then here.(escaped := false)
    else if here.quote.Some? then
      if line[j] == '\\' then here.(escaped := true)
      else if Some(line[j]) == here.quote then here.(quote := None)
      else here
    else if StringMark(line[j], py) then here.(quote := Some(line[j]))
    else here.(comment := CommentMark(line, j, py))
  }

  /** The place before character `j` of a line that starts inside the string `open`, if any. */
  function PlaceAt(line: string, j: nat, open: Option<char>, py: bool): Place
    requires j <= |line|
  {
    if j == 0 then Place(open, false, false) else Next(PlaceAt(line, j - 1, open, py), line, j - 1, py)
  }

  /** Character `j` is code: once it is read, neither a string nor a comment is open. */
  predicate IsCode(line: string, j: nat, open: Option<char>, py: bool)
    requires j < |line|
  {
    PlaceAt(line, j + 1, open, py).quote.None? && !PlaceAt(line, j + 1, open, py).comment
  }

  /** The brackets open before character `j`, never below zero; `depth` are open before the line. */
  function Balance(line: string, j: nat, open: Option<char>, depth: nat, py: bool): nat
    requires j <= |line|
  {
    if j == 0 then depth
    else
      var before := Balance(line, j - 1, open, depth, py);
      if !IsCode(line, j - 1, open, py) then before
      else if line[j - 1] == '(' || line[j - 1] == '[' then before + 1
      else if line[j - 1] == ')' || line[j - 1] == ']' then Max(0, before - 1)
      else before
  }

  /** The string open at the start of line `i`: a Python string does not outlive its line. */
  function OpenBefore(lines: seq<string>, start: nat, i: nat, py: bool): Option<char>
    requires start <= i <= |lines|
  {
    if i == start || py then None
    else PlaceAt(lines[i - 1], |lines[i - 1]|, OpenBefore(lines, start, i - 1, py), py).quote
  }

  function DepthBefore(lines: seq<string>, start: nat, i: nat, py: bool): nat
    requires start <= i <= |lines|
  {
    if i == start then 0
    else
      var line := lines[i - 1];
      Balance(line, |line|, OpenBefore(lines, start, i - 1, py), DepthBefore(lines, start, i - 1, py), py)
  }

  // ---- the end of a signature ----

  /** A `{`, `;` or `=>` in the code of the line, outside brackets. */
  predicate HoldsEnd(line: string, from: nat, open: Option<char>, depth: nat)
  {
    exists j :: from <= j < |line| && EndMark(line, j) && IsCode(line, j, open, false)
                && Balance(line, j, open, depth, false) == 0
  }

  /** The code of the line ends in a colon, outside brackets. */
  predicate EndsInColon(line: string, open: Option<char>, depth: nat)
  {
    && Balance(line, |line|, open, depth, true) == 0
    && exists j :: 0 <= j < |line| && line[j] == ':' && IsCode(line, j, open, true)
                   && forall k :: j < k < |line| && IsCode(line, k, open, true) ==> IsSpace(line[k])
  }

  predicate EndsOn(lines: seq<string>, start: nat, i: nat, py: bool)
    requires start <= i < |lines|
  {
    var open, depth := OpenBefore(lines, start, i, py), DepthBefore(lines, start, i, py);
    if py then EndsInColon(lines[i], open, depth) else HoldsEnd(lines[i], 0, open, depth)
  }

  // ---- the scanner finds it ----

  lemma SameMarks(line: string, j: nat, py: bool)
    requires j < |line|
    ensures OpensString(line[j], py) <==> StringMark(line[j], py)
    ensures OpensComment(line, j, py) <==> CommentMark(line, j, py)
    ensures EndsSignature(line, j) <==> EndMark(line, j)
  {
    if j + 1 < |line| { assert line[j..][..2] == [line[j], line[j + 1]]; }
  }

  /** The last code character before `j` that is not white space. */
  function LastSeen(line: string, j: nat, open: Option<char>, py: bool): Option<char>
    requires j <= |line|
  {
    if j == 0 then None
    else if IsCode(line, j - 1, open, py) && !IsSpace(line[j - 1]) then Some(line[j - 1])
    else LastSeen(line, j - 1, open, py)
  }

  lemma {:induction false} ColonLast(line: string, n: nat, open: Option<char>, py: bool)
    requires n <= |line|
    ensures LastSeen(line, n, open, py) == Some(':') <==>
              exists j :: 0 <= j < n && line[j] == ':' && IsCode(line, j, open, py)
                          && forall k :: j < k < n && IsCode(line, k, open, py) ==> IsSpace(line[k])
  {
    hide IsCode;
    if n > 0 {
      ColonLast(line, n - 1, open, py);
    }
  }

  /** Inside a comment nothing more is read. */
  lemma {:induction false} CommentIsOver(line: string, j: nat, n: nat, open: Option<char>, depth: nat, py: bool)
    requires j <= n <= |line| && PlaceAt(line, j, open, py).comment
    ensures PlaceAt(line, n, open, py) == PlaceAt(line, j, open, py)
    ensures Balance(line, n, open, depth, py) == Balance(line, j, open, depth, py)
    ensures LastSeen(line, n, open, py) == LastSeen(line, j, open, py)
  {
    if j < n { CommentIsOver(line, j, n - 1, open, depth, py); }
  }

  /** What the scanner answers for a line, from character `j` on. */
  function Answer(line: string, j: nat, open: Option<char>, depth: nat, py: bool): LineScan
  {
    if !py && HoldsEnd(line, j, open, depth) then SignatureEnds
    else LineOver(Balance(line, |line|, open, depth, py), PlaceAt(line, |line|, open, py).quote,
                  LastSeen(line, |line|, open, py))
  }

  /** Character `j` does not end a signature, so the answer from `j` is the answer from `j + 1`. */
  lemma NoEndAt(line: string, j: nat, open: Option<char>, depth: nat, py: bool)
    requires j < |line|
    requires EndMark(line, j) && IsCode(line, j, open, py) ==> py || Balance(line, j, open, depth, py) > 0
    ensures Answer(line, j, open, depth, py) == Answer(line, j + 1, open, depth, py)
  {
    hide IsCode, Balance, EndMark, PlaceAt, LastSeen;
  }

  lemma NoEndInComment(line: string, j: nat, open: Option<char>, depth: nat, py: bool)
    requires j <= |line| && PlaceAt(line, j, open, py).comment
    ensures !py ==> !HoldsEnd(line, j, open, depth)
  {
    forall k | j <= k < |line| ensures !IsCode(line, k, open, py) { CommentIsOver(line, j, k + 1, open, depth, py); }
  }

  predicate IsQuote(open: Option<char>, py: bool)
  {
    open.Some? ==> StringMark(open.value, py)
  }

  lemma {:induction false} OnlyQuotesOpen(line: string, j: nat, open: Option<char>, py: bool)
    requires j <= |line| && IsQuote(open, py)
    ensures IsQuote(PlaceAt(line, j, open, py).quote, py)
  {
    if j > 0 { OnlyQuotesOpen(line, j - 1, open, py); }
  }

  /** In a string no character ends a signature, its closing quote included. */
  lemma NoEndInString(line: string, j: nat, open: Option<char>, depth: nat, py: bool)
    requires j < |line| && IsQuote(open, py) && PlaceAt(line, j, open, py).quote.Some?
    ensures Answer(line, j, open, depth, py) == Answer(line, j + 1, open, depth, py)
    ensures Balance(line, j + 1, open, depth, py) == Balance(line, j, open, depth, py)
  {
    OnlyQuotesOpen(line, j, open, py);
    assert IsCode(line, j, open, py) ==> StringMark(line[j], py);
    NoEndAt(line, j, open, depth, py);
  }

  lemma CommentEndsScan(line: string, j: nat, open: Option<char>, depth: nat, py: bool)
    requires j < |line| && !PlaceAt(line, j, open, py).comment && !PlaceAt(line, j, open, py).escaped
    requires PlaceAt(line, j + 1, open, py).comment
    ensures ScanLine(line, j, Balance(line, j, open, depth, py), PlaceAt(line, j, open, py).quote,
                     LastSeen(line, j, open, py), py)
         == Answer(line, j, open, depth, py)
  {
    SameMarks(line, j, py);
    CommentIsOver(line, j + 1, |line|, open, depth, py);
    NoEndAt(line, j, open, depth, py);
    NoEndInComment(line, j + 1, open, depth, py);
    assert !IsCode(line, j, open, py);
  }

  /** The scanner, at a character that is not right after a backslash, answers what the text says. */
  lemma {:induction false} ScanIsAnswer(line: string, j: nat, open: Option<char>, depth: nat, py: bool)
    requires IsQuote(open, py)
    requires j <= |line| && !PlaceAt(line, j, open, py).comment && !PlaceAt(line, j, open, py).escaped
    ensures ScanLine(line, j, Balance(line, j, open, depth, py), PlaceAt(line, j, open, py).quote,
                     LastSeen(line, j, open, py), py)
         == Answer(line, j, open, depth, py)
    decreases |line| - j, 1
  {
    if j < |line| {
      SameMarks(line, j, py);
      if PlaceAt(line, j, open, py).quote.Some? {
        ScanInString(line, j, open, depth, py);
      } else if PlaceAt(line, j + 1, open, py).comment {
        CommentEndsScan(line, j, open, depth, py);
      } else if !py && IsCode(line, j, open, py) && EndMark(line, j) && Balance(line, j, open, depth, py) == 0 {
        assert HoldsEnd(line, j, open, depth);
      } else {
        NoEndAt(line, j, open, depth, py);
        ScanIsAnswer(line, j + 1, open, depth, py);
      }
    }
  }

  lemma {:induction false} ScanInString(line: string, j: nat, open: Option<char>, depth: nat, py: bool)
    requires IsQuote(open, py)
    requires j < |line| && !PlaceAt(line, j, open, py).comment && !PlaceAt(line, j, open, py).escaped
    requires PlaceAt(line, j, open, py).quote.Some?
    ensures ScanLine(line, j, Balance(line, j, open, depth, py), PlaceAt(line, j, open, py).quote,
                     LastSeen(line, j, open, py), py)
         == Answer(line, j, open, depth, py)
    decreases |line| - j, 0
  {
    NoEndInString(line, j, open, depth, py);
    if PlaceAt(line, j + 1, open, py).escaped {
      EscapedIsSkipped(line, j, open, depth, py);
      if j + 2 <= |line| { ScanIsAnswer(line, j + 2, open, depth, py); }
    } else {
      ScanIsAnswer(line, j + 1, open, depth, py);
    }
  }

  /** A backslash in a string and the character after it are no code, and the string stays open. */
  lemma EscapedIsSkipped(line: string, j: nat, open: Option<char>, depth: nat, py: bool)
    requires j < |line| && PlaceAt(line, j + 1, open, py).escaped
    requires !PlaceAt(line, j, open, py).comment && !PlaceAt(line, j, open, py).escaped
    ensures var n := Min(j + 2, |line|);
            && PlaceAt(line, n, open, py).quote == PlaceAt(line, j, open, py).quote
            && !PlaceAt(line, n, open, py).comment && (n == j + 2 ==> !PlaceAt(line, n, open, py).escaped)
            && Balance(line, n, open, depth, py) == Balance(line, j, open, depth, py)
            && LastSeen(line, n, open, py) == LastSeen(line, j, open, py)
            && Answer(line, j, open, depth, py) == Answer(line, n, open, depth, py)
  {
    NoEndAt(line, j, open, depth, py);
    if j + 1 < |line| { NoEndAt(line, j + 1, open, depth, py); }
  }

  /** A line's place at its end is an open string that is a quote of the language. */
  lemma {:induction false} OpenIsQuote(lines: seq<string>, start: nat, i: nat, py: bool)
    requires start <= i <= |lines|
    ensures IsQuote(OpenBefore(lines, start, i, py), py)
  {
    if i != start && !py {
      OpenIsQuote(lines, start, i - 1, py);
      OnlyQuotesOpen(lines[i - 1], |lines[i - 1]|, OpenBefore(lines, start, i - 1, py), py);
    }
  }

  /** What the scanner makes of line `i`: it ends there, or the next line starts where the text says. */
  lemma LineIs(lines: seq<string>, start: nat, i: nat, py: bool)
    requires start <= i < |lines|
    ensures
      var scan := ScanLine(lines[i], 0, DepthBefore(lines, start, i, py), OpenBefore(lines, start, i, py), None, py);
      && (EndsOn(lines, start, i, py) <==>
            scan.SignatureEnds? || (py && scan.depth == 0 && scan.tail == Some(':')))
      && (scan.LineOver? ==> scan.depth == DepthBefore(lines, start, i + 1, py)
                             && QuoteAfterLine(scan.quote, py) == OpenBefore(lines, start, i + 1, py))
  {
    var line, open, depth := lines[i], OpenBefore(lines, start, i, py), DepthBefore(lines, start, i, py);
    OpenIsQuote(lines, start, i, py);
    ScanIsAnswer(line, 0, open, depth, py);
    ColonLast(line, |line|, open, py);
    OnlyQuotesOpen(line, |line|, open, py);
  }

  lemma {:induction false} FoundIsFirst(lines: seq<string>, start: nat, i: nat, end: nat, py: bool)
    requires start <= i <= |lines|
    ensures
      var found := SignatureFrom(lines, i, end, DepthBefore(lines, start, i, py), OpenBefore(lines, start, i, py), py);
      && (found.Some? ==> i <= found.value <= end && found.value < |lines| && EndsOn(lines, start, found.value, py))
      && (forall k :: i <= k < (if found.Some? then found.value else Min(end + 1, |lines|)) ==> !EndsOn(lines, start, k, py))
    decreases |lines| - i
  {
    hide EndsOn, ScanLine, DepthBefore, OpenBefore, QuoteAfterLine;
    if i <= end && i < |lines| {
      LineIs(lines, start, i, py);
      FoundIsFirst(lines, start, i + 1, end, py);
    }
  }

  /** The signature ends on the first line, from `start` to `end`, that holds the end of one; on `start`
      when there is none. */
  lemma SignatureEndIsFirst(lines: seq<string>, start: nat, end: nat, py: bool)
    ensures
      var r := SignatureEnd(lines, start, end, py);
      || (&& start <= r <= end && r < |lines| && EndsOn(lines, start, r, py)
          && forall k :: start <= k < r ==> !EndsOn(lines, start, k, py))
      || (r == start && forall k :: start <= k <= end && k < |lines| ==> !EndsOn(lines, start, k, py))
  {
    if start <= |lines| {
      FoundIsFirst(lines, start, start, end, py);
    }
  }
}
