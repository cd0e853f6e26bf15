/**
 * Where the paragraphs of a doc comment begin and end, said of its lines: a paragraph is a heading alone
 * or a run of adjacent prose lines outside fences that no further prose line adjoins.
 */
module DocRuns {
  import opened Prelude
  import opened Text
  import opened StructuredDoc
  import opened Outline

  // ---- lines ----

  lemma {:induction false} SplitIs(s: string, c: char)
    ensures Join(Split(s, c), [c]) == s
    ensures forall i :: 0 <= i < |Split(s, c)| ==> c !in Split(s, c)[i]
    decreases |s|
  {
    if s != [] {
      SplitIs(s[1..], c);
      var rest := Split(s[1..], c);
      if s[0] == c {
        assert ([""] + rest)[1..] == rest;
      } else {
        var parts := [[s[0]] + rest[0]] + rest[1..];
        assert parts[1..] == rest[1..];
        assert |rest| == 1 ==> Join(parts, [c]) == [s[0]] + Join(rest, [c]);
        assert |rest| > 1 ==> Join(parts, [c]) == [s[0]] + Join(rest, [c]);
      }
    }
  }

  /** The lines of a text are its parts between newlines, each without one carriage return at its end; an
      empty last part is no line. */
  lemma LinesAre(text: string)
    ensures |Lines(text)| == |Split(text, '\n')| - if Split(text, '\n')[|Split(text, '\n')| - 1] == "" then 1 else 0
    ensures forall i :: 0 <= i < |Lines(text)| ==>
              var part, line := Split(text, '\n')[i], Lines(text)[i];
              part == line + "\r" || (part == line && (line != "" ==> line[|line| - 1] != '\r'))
  {
    var parts := Split(text, '\n');
    forall i | 0 <= i < |Lines(text)|
      ensures parts[i] == Lines(text)[i] + "\r"
           || (parts[i] == Lines(text)[i] && (Lines(text)[i] != "" ==> Lines(text)[i][|Lines(text)[i]| - 1] != '\r'))
    {
      assert Lines(text)[i] == WithoutCr(parts[i]);
      WithoutCrIs(parts[i]);
    }
  }

  lemma WithoutCrIs(part: string)
    ensures part == WithoutCr(part) + "\r" || (part == WithoutCr(part) && (part != "" ==> part[|part| - 1] != '\r'))
  {
    if EndsWith(part, "\r") {
      assert part == part[..|part| - 1] + part[|part| - 1..];
    } else if part != "" {
      assert part[|part| - 1..] == [part[|part| - 1]];
    }
  }

  /** A heading is one to six hashes, a space, and something more than white space. */
  predicate IsHeading(line: string, level: nat)
  {
    && 1 <= level <= 6 && level < |line|
    && (forall i :: 0 <= i < level ==> line[i] == '#') && line[level] == ' '
    && exists i :: level < i < |line| && !IsSpace(line[i])
  }

  lemma {:induction false} LeadingAre(s: string, c: char)
    ensures var n := CountLeading(s, c);
            n <= |s| && (forall i :: 0 <= i < n ==> s[i] == c) && (n < |s| ==> s[n] != c)
  {
    if s != [] && s[0] == c {
      LeadingAre(s[1..], c);
      assert forall i :: 0 < i < |s| ==> s[i] == s[1..][i - 1];
    }
  }

  lemma HeadingLevelIff(line: string, level: nat)
    ensures HeadingLevel(line) == Some(level) <==> IsHeading(line, level)
  {
    var n := CountLeading(line, '#');
    LeadingAre(line, '#');
    if IsHeading(line, level) {
      assert n == level;
      var i :| level < i < |line| && !IsSpace(line[i]);
      assert line[level..][i - level] == line[i];
    }
    if HeadingLevel(line) == Some(level) {
      var i :| 0 <= i < |line[level..]| && !IsSpace(line[level..][i]);
      assert line[level + i] == line[level..][i] && IsSpace(' ');
    }
  }

  lemma HashFirst(line: string, level: nat)
    requires IsHeading(line, level)
    ensures StripLeft(line) == line && line[0] == '#' && !IsBlank(line)
  {
    assert !IsSpace('#');
  }

  /** The kinds of line do not depend on the order they are tried in: a fence is three backticks or three tildes
      past the indentation, a heading is as above, a blank line is white space. */
  lemma KindIs(line: string, marker: string, level: nat)
    ensures KindOf(line) == Fence(marker) <==> (marker == "```" || marker == "~~~") && marker <= StripLeft(line)
    ensures KindOf(line) == Heading(level) <==> IsHeading(line, level)
    ensures KindOf(line) == Blank <==> forall i :: 0 <= i < |line| ==> IsSpace(line[i])
  {
    HeadingLevelIff(line, level);
    if IsHeading(line, level) { HashFirst(line, level); }
    if HeadingLevel(line).Some? {
      HeadingLevelIff(line, HeadingLevel(line).value);
      HashFirst(line, HeadingLevel(line).value);
    }
    if IsBlank(line) { BlankStrips(line); }
    forall m: string | |m| == 3 ensures StartsWith(StripLeft(line), m) <==> m <= StripLeft(line) {}
  }

  lemma {:induction false} BlankStrips(s: string)
    requires IsBlank(s)
    ensures StripLeft(s) == ""
  {
    if s != [] { BlankStrips(s[1..]); }
  }

  // ---- dropped sections ----

  lemma {:induction false} StripLeftIs(s: string) returns (pad: string)
    ensures IsBlank(pad) && s == pad + StripLeft(s) && (StripLeft(s) != "" ==> !IsSpace(StripLeft(s)[0]))
  {
    pad := "";
    if s != [] && IsSpace(s[0]) {
      pad := StripLeftIs(s[1..]);
      pad := [s[0]] + pad;
    }
  }

  lemma {:induction false} StripRightIs(s: string) returns (pad: string)
    ensures IsBlank(pad) && s == StripRight(s) + pad && (StripRight(s) != "" ==> !IsSpace(StripRight(s)[|StripRight(s)| - 1]))
    ensures StripRight(s) != "" ==> StripRight(s)[0] == s[0]
  {
    pad := "";
    if s != [] && IsSpace(s[|s| - 1]) {
      pad := StripRightIs(s[..|s| - 1]);
      pad := pad + [s[|s| - 1]];
    }
  }

  /** Stripping leaves the part between the first and the last character that is not white space. */
  lemma StripIs(s: string) returns (left: string, right: string)
    ensures IsBlank(left) && IsBlank(right) && s == left + Strip(s) + right
    ensures Strip(s) != "" ==> !IsSpace(Strip(s)[0]) && !IsSpace(Strip(s)[|Strip(s)| - 1])
  {
    left := StripLeftIs(s);
    right := StripRightIs(StripLeft(s));
  }

  predicate AllColons(s: string) { forall i :: 0 <= i < |s| ==> s[i] == ':' }

  lemma {:induction false} StripColonsIs(s: string) returns (colons: string)
    ensures AllColons(colons) && s == StripColons(s) + colons
    ensures StripColons(s) != "" ==> StripColons(s)[|StripColons(s)| - 1] != ':'
  {
    colons := "";
    if s != [] && s[|s| - 1] == ':' {
      colons := StripColonsIs(s[..|s| - 1]);
      colons := colons + [':'];
    }
  }

  /** The word is this name with any of its letters in upper case. */
  predicate SpellsName(word: string, name: string)
  {
    && |word| == |name|
    && forall i :: 0 <= i < |word| ==> word[i] == name[i] || ('A' <= word[i] <= 'Z' && name[i] as int == word[i] as int + 32)
  }

  ghost predicate IsSectionName(word: string)
  {
    exists name :: name in DROPPED_SECTIONS && SpellsName(word, name)
  }

  lemma NamesAreLower(name: string, i: nat)
    requires name in DROPPED_SECTIONS && i < |name|
    ensures 'a' <= name[i] <= 'z'
  {
  }

  lemma LowerSpells(word: string)
    ensures Lower(word) in DROPPED_SECTIONS <==> IsSectionName(word)
  {
    assert SpellsName(word, Lower(word));
    forall name | name in DROPPED_SECTIONS && SpellsName(word, name) ensures name == Lower(word) {
      forall i | 0 <= i < |name| ensures name[i] == Lower(word)[i] { NamesAreLower(name, i); }
    }
  }

  /** `core` is what is left of `s` without the white space around it and the colons at its end. */
  ghost predicate Around(s: string, left: string, core: string, mid: string, colons: string, right: string)
  {
    && s == left + core + mid + colons + right
    && IsBlank(left) && IsBlank(mid) && IsBlank(right) && AllColons(colons)
    && (core != "" ==> !IsSpace(core[0]) && !IsSpace(core[|core| - 1]))
    && (core != "" && mid == "" ==> core[|core| - 1] != ':')
  }

  /** A name of a dropped section is one of the fourteen in any case, with white space around it and
      colons behind it. */
  lemma DroppedNameIs(name: string) returns (left: string, core: string, mid: string, colons: string, right: string)
    ensures Around(name, left, core, mid, colons, right)
    ensures IsDroppedName(name) <==> IsSectionName(core)
  {
    hide IsSectionName, Lower, Strip, StripColons;
    left, right := StripIs(name);
    colons := StripColonsIs(Strip(name));
    var inner := StripColons(Strip(name));
    var l, r := StripIs(inner);
    core, mid := Strip(inner), r;
    LowerSpells(core);
    left := left + l;
  }

  // ---- prose outside fences ----

  /** The fence open before line `k`. */
  function FenceBefore(rd: Reader, lines: seq<string>, k: nat): Option<string>
    requires k <= |lines|
  {
    if k == 0 then None
    else
      var fence, line := FenceBefore(rd, lines, k - 1), lines[k - 1];
      if fence.Some? then (if rd.closes(line, fence.value) then None else fence)
      else if rd.kind(line).Fence? then Some(rd.kind(line).marker)
      else None
  }

  predicate ProseAt(rd: Reader, lines: seq<string>, k: nat)
    requires k < |lines|
  {
    FenceBefore(rd, lines, k).None? && rd.kind(lines[k]).Prose?
  }

  predicate HeadingAt(rd: Reader, lines: seq<string>, k: nat)
    requires k < |lines|
  {
    FenceBefore(rd, lines, k).None? && rd.kind(lines[k]).Heading?
  }

  /** `lines[a..b]` is a run of prose that goes on at neither end. */
  predicate IsRun(rd: Reader, lines: seq<string>, a: nat, b: nat)
  {
    && a < b <= |lines| && (forall k :: a <= k < b ==> ProseAt(rd, lines, k))
    && (a > 0 ==> !ProseAt(rd, lines, a - 1)) && (b < |lines| ==> !ProseAt(rd, lines, b))
  }

  predicate IsPiece(rd: Reader, lines: seq<string>, a: nat, b: nat)
  {
    IsRun(rd, lines, a, b) || (b == a + 1 <= |lines| && HeadingAt(rd, lines, a))
  }

  /** `blocks` are the headings and runs of prose from line `a` on, in order, and all of them. */
  ghost predicate ArePieces(rd: Reader, lines: seq<string>, a: nat, blocks: seq<seq<string>>, from: seq<nat>, to: seq<nat>)
  {
    && Spans(a, from, to) && |blocks| == |from|
    && (forall i :: 0 <= i < |blocks| ==> IsPiece(rd, lines, from[i], to[i]) && blocks[i] == lines[from[i]..to[i]])
    && (forall m :: a <= m < |lines| && (ProseAt(rd, lines, m) || HeadingAt(rd, lines, m)) ==> InSome(from, to, m))
  }

  lemma OneMorePiece(rd: Reader, lines: seq<string>, a: nat, p: nat, blocks: seq<seq<string>>, from: seq<nat>, to: seq<nat>)
    requires IsPiece(rd, lines, a, p) && ArePieces(rd, lines, p, blocks, from, to)
    ensures ArePieces(rd, lines, a, [lines[a..p]] + blocks, [a] + from, [p] + to)
  {
    assert a < p <= |lines|;
    hide IsPiece, ProseAt, HeadingAt;
    var blocks', from', to' := [lines[a..p]] + blocks, [a] + from, [p] + to;
    forall m | a <= m < |lines| && (ProseAt(rd, lines, m) || HeadingAt(rd, lines, m)) ensures InSome(from', to', m) {
      InMore(from, to, a, p, m);
    }
    MoreSpans(from, to, a, p);
    hide InSome, Spans;
    forall i | 0 <= i < |blocks'| ensures IsPiece(rd, lines, from'[i], to'[i]) && blocks'[i] == lines[from'[i]..to'[i]] {
      if i > 0 { assert blocks'[i] == blocks[i - 1] && from'[i] == from[i - 1] && to'[i] == to[i - 1]; }
    }
  }

  lemma NothingHere(rd: Reader, lines: seq<string>, p: nat, blocks: seq<seq<string>>, from: seq<nat>, to: seq<nat>)
    requires p < |lines| && !ProseAt(rd, lines, p) && !HeadingAt(rd, lines, p)
    requires ArePieces(rd, lines, p + 1, blocks, from, to)
    ensures ArePieces(rd, lines, p, blocks, from, to)
  {
    hide IsPiece, ProseAt, HeadingAt;
  }

  /** The run under way, `lines[a..p]`, ends before line `p`. */
  lemma Flushed(rd: Reader, lines: seq<string>, a: nat, p: nat, blocks: seq<seq<string>>, from: seq<nat>, to: seq<nat>)
    returns (from': seq<nat>, to': seq<nat>)
    requires a <= p <= |lines| && (a < p ==> IsRun(rd, lines, a, p)) && ArePieces(rd, lines, p, blocks, from, to)
    ensures ArePieces(rd, lines, a, AsBlock(lines[a..p]) + blocks, from', to')
  {
    from', to' := from, to;
    if a < p {
      OneMorePiece(rd, lines, a, p, blocks, from, to);
      from', to' := [a] + from, [p] + to;
    } else {
      assert [] + blocks == blocks;
    }
  }

  /** The paragraphs of the lines from `p` on, `lines[a..p]` being the run under way. */
  lemma {:induction false} FromHere(rd: Reader, lines: seq<string>, a: nat, p: nat) returns (from: seq<nat>, to: seq<nat>)
    requires a <= p <= |lines| && (forall k :: a <= k < p ==> ProseAt(rd, lines, k))
    requires a > 0 ==> !ProseAt(rd, lines, a - 1)
    ensures ArePieces(rd, lines, a, ParagraphsFrom(rd, lines[p..], lines[a..p], FenceBefore(rd, lines, p)), from, to)
    decreases |lines| - p
  {
    hide ArePieces;
    if p == |lines| {
      NoPieces(rd, lines);
      from, to := Flushed(rd, lines, a, p, [], [], []);
      assert AsBlock(lines[a..p]) + [] == AsBlock(lines[a..p]);
    } else {
      assert lines[p..][0] == lines[p] && lines[p..][1..] == lines[p + 1..];
      if ProseAt(rd, lines, p) {
        TakeOneMore(lines, a, p);
        from, to := FromHere(rd, lines, a, p + 1);
      } else {
        from, to := AfterBreak(rd, lines, a, p);
      }
    }
  }

  lemma TakeOneMore(lines: seq<string>, a: nat, p: nat)
    requires a <= p < |lines|
    ensures lines[a..p] + [lines[p]] == lines[a..p + 1]
  {
  }

  lemma {:induction false} AfterBreak(rd: Reader, lines: seq<string>, a: nat, p: nat) returns (from: seq<nat>, to: seq<nat>)
    requires a <= p < |lines| && (forall k :: a <= k < p ==> ProseAt(rd, lines, k)) && !ProseAt(rd, lines, p)
    requires a > 0 ==> !ProseAt(rd, lines, a - 1)
    ensures ArePieces(rd, lines, a, ParagraphsFrom(rd, lines[p..], lines[a..p], FenceBefore(rd, lines, p)), from, to)
    decreases |lines| - p, 0
  {
    hide ArePieces;
    assert lines[p..][0] == lines[p] && lines[p..][1..] == lines[p + 1..];
    assert lines[p + 1..p + 1] == [];
    var rest := ParagraphsFrom(rd, lines[p + 1..], [], FenceBefore(rd, lines, p + 1));
    from, to := FromHere(rd, lines, p + 1, p + 1);
    if HeadingAt(rd, lines, p) {
      assert lines[p..p + 1] == [lines[p]];
      OneMorePiece(rd, lines, p, p + 1, rest, from, to);
      rest, from, to := [[lines[p]]] + rest, [p] + from, [p + 1] + to;
    } else {
      NothingHere(rd, lines, p, rest, from, to);
    }
    if FenceBefore(rd, lines, p).Some? {
      assert a < p ==> ProseAt(rd, lines, p - 1);
      assert lines[a..p] == [];
    } else {
      from, to := Flushed(rd, lines, a, p, rest, from, to);
    }
  }

  lemma NoPieces(rd: Reader, lines: seq<string>)
    ensures ArePieces(rd, lines, |lines|, [], [], [])
  {
  }

  // ---- the text of a paragraph ----

  lemma {:induction false} AfterLetters(s: string) returns (n: nat)
    ensures n <= |s| && StripLetters(s) == s[n..]
    ensures (forall i :: 0 <= i < n ==> IsLetter(s[i])) && (n < |s| ==> !IsLetter(s[n]))
  {
    n := 0;
    if s != [] && IsLetter(s[0]) {
      n := AfterLetters(s[1..]);
      assert forall i :: 0 < i < |s| ==> s[i] == s[1..][i - 1];
      n := n + 1;
    }
  }

  lemma {:induction false} ContainsColon(s: string)
    ensures Contains(s, ":") <==> ':' in s
  {
    if s != [] {
      ContainsColon(s[1..]);
      assert StartsWith(s, ":") <==> s[0] == ':';
    }
  }

  /** A tag line, past its indentation, is `@` and a letter, or a colon, a letter, and another colon later on. */
  lemma TagLineIff(line: string)
    ensures IsTagLine(line) <==>
              var t := StripLeft(line);
              |t| > 1 && IsLetter(t[1]) && (t[0] == '@' || (t[0] == ':' && ':' in t[2..]))
  {
    var t := StripLeft(line);
    if t != "" {
      assert t[..1] == [t[0]];
      var rest := t[1..];
      var n := AfterLetters(rest);
      ContainsColon(rest[n..]);
      assert !IsLetter(':');
      if |t| > 1 && IsLetter(t[1]) {
        assert rest[0] == t[1] && t[2..] == rest[1..];
        forall k | 1 <= k < |rest| && rest[k] == ':' ensures ':' in rest[n..] { assert rest[n..][k - n] == ':'; }
        forall k | n <= k < |rest| && rest[k] == ':' ensures ':' in t[2..] { assert t[2..][k - 1] == ':'; }
      }
    }
  }

  lemma {:induction false} AfterDigits(s: string) returns (n: nat)
    ensures n <= |s| && StripDigits(s) == s[n..]
    ensures (forall i :: 0 <= i < n ==> IsDigit(s[i])) && (n < |s| ==> !IsDigit(s[n]))
  {
    n := 0;
    if s != [] && IsDigit(s[0]) {
      n := AfterDigits(s[1..]);
      assert forall i :: 0 < i < |s| ==> s[i] == s[1..][i - 1];
      n := n + 1;
    }
  }

  /** `n` digits, a full stop or a closing parenthesis, a space. */
  predicate Numbered(t: string, n: int)
  {
    n > 0 && n + 1 < |t| && (forall i :: 0 <= i < n ==> IsDigit(t[i])) && t[n] in ".)" && t[n + 1] == ' '
  }

  /** A list item, past its indentation, is one of three bullets or a number, and a space. */
  lemma ListItemIff(line: string)
    ensures IsListItem(line) <==>
              var t := StripLeft(line);
              (|t| > 1 && t[0] in "-*+" && t[1] == ' ') || exists n :: Numbered(t, n)
  {
    var t := StripLeft(line);
    if |t| > 1 { assert t[..2] == [t[0], t[1]]; }
    var n := AfterDigits(t);
    if n + 1 < |t| { assert t[n..][..2] == [t[n], t[n + 1]]; }
    forall m | Numbered(t, m) ensures m == n { assert !IsDigit(t[m]); }
    assert IsListItem(line) && !(|t| > 1 && t[0] in "-*+" && t[1] == ' ') ==> Numbered(t, n);
  }

  lemma {:induction false} IndexStands(s: string, part: string)
    requires Contains(s, part)
    ensures var k := IndexOf(s, part); s[k..k + |part|] == part
  {
    var k, n := IndexOf(s, part), |part|;
    if StartsWith(s, part) {
      assert s[0..n] == s[..n];
    } else {
      IndexStands(s[1..], part);
      assert s[1..][k - 1..k - 1 + n] == s[k..k + n];
    }
  }

  /** The index of a part is where it first stands. */
  lemma {:induction false} IndexIsFirst(s: string, part: string, j: nat)
    requires j + |part| <= |s| && s[j..j + |part|] == part
    ensures Contains(s, part) && IndexOf(s, part) <= j
    ensures var k := IndexOf(s, part); s[k..k + |part|] == part
    decreases j
  {
    assert s[0..|part|] == s[..|part|];
    if !StartsWith(s, part) {
      assert s[1..][j - 1..j - 1 + |part|] == s[j..j + |part|];
      IndexIsFirst(s[1..], part, j - 1);
      IndexStands(s, part);
    }
  }

  lemma StripKeeps(s: string)
    requires s != "" && !IsSpace(s[0]) && !IsSpace(s[|s| - 1])
    ensures Strip(s) == s
  {
  }

  lemma {:induction false} StripsLeft(pad: string, s: string)
    requires IsBlank(pad) && s != "" && !IsSpace(s[0])
    ensures StripLeft(pad + s) == s
  {
    if pad != [] {
      assert (pad + s)[1..] == pad[1..] + s;
      StripsLeft(pad[1..], s);
    } else {
      assert pad + s == s;
    }
  }

  /** A definition of a link, `[name]:` and a target without white space, is a link only. */
  lemma DefinitionIsLink(name: string, pad: string, target: string)
    requires name != "" && (forall j :: 0 <= j < |name| - 1 ==> !(name[j] == ']' && name[j + 1] == ':'))
    requires IsBlank(pad) && target != "" && !HasSpace(target)
    ensures IsLinkOnly("[" + name + "]:" + pad + target)
  {
    var t, k := "[" + name + "]:" + pad + target, |name| + 1;
    assert t[..1] == "[";
    MarkIsFirst(name, pad + target);
    assert t == "[" + name + "]:" + (pad + target);
    assert t[|t| - 1] == target[|target| - 1] && !IsSpace(t[0]);
    StripKeeps(t);
    assert t[k + 2..] == pad + target;
    StripsLeft(pad, target);
    StripKeeps(target);
  }

  lemma MarkIsFirst(name: string, rest: string)
    requires forall j :: 0 <= j < |name| - 1 ==> !(name[j] == ']' && name[j + 1] == ':')
    ensures var t := "[" + name + "]:" + rest; Contains(t, "]:") && IndexOf(t, "]:") == |name| + 1
  {
    hide Contains, IndexOf;
    var t, k := "[" + name + "]:" + rest, |name| + 1;
    assert t[k..k + 2] == "]:";
    IndexIsFirst(t, "]:", k);
    var end := IndexOf(t, "]:");
    assert t[end] == t[end..end + 2][0] && t[end + 1] == t[end..end + 2][1];
    assert forall j :: 0 < j < k ==> t[j] == name[j - 1];
  }

  /** A bare address, with or without angle brackets, and with or without `See` before it, is a link only. */
  lemma AddressIsLink(see: string, angles: bool, url: string)
    requires see == "" || see == "See:" || see == "See "
    requires ("https://" <= url || "http://" <= url) && !HasSpace(url)
    ensures IsLinkOnly(see + if angles then "<" + url + ">" else url)
  {
    var body := if angles then "<" + url + ">" else url;
    InBrackets(url, angles);
    hide WithoutSee, WithoutAngles, Strip, Contains, HasSpace;
    SeeIsLeftOut(see, body);
    AnglesAreLeftOut(url, angles);
    Address(see + body, url);
  }

  lemma InBrackets(url: string, angles: bool)
    requires ("https://" <= url || "http://" <= url) && !HasSpace(url)
    ensures var body := if angles then "<" + url + ">" else url;
            url[0] == 'h' && (body[0] == '<' || body[0] == 'h') && !IsSpace(body[|body| - 1])
  {
    assert url[0] == 'h';
  }

  lemma Address(t: string, url: string)
    requires Strip(t) == t && !StartsWith(t, "[") && WithoutAngles(WithoutSee(t)) == url
    requires ("https://" <= url || "http://" <= url) && !HasSpace(url)
    ensures IsLinkOnly(t)
  {
    hide WithoutSee, WithoutAngles, Strip, Contains, HasSpace;
    assert StartsWith(url, "https://") || StartsWith(url, "http://");
  }

  lemma SeeIsLeftOut(see: string, body: string)
    requires see == "" || see == "See:" || see == "See "
    requires body != "" && (body[0] == '<' || body[0] == 'h') && !IsSpace(body[|body| - 1])
    ensures WithoutSee(see + body) == body
    ensures Strip(see + body) == see + body && !StartsWith(see + body, "[")
  {
    var t := see + body;
    StripKeeps(body);
    assert t[0] == 'S' || t[0] == body[0];
    assert t[|t| - 1] == body[|body| - 1];
    StripKeeps(t);
    hide Strip;
    assert t[..1] == [t[0]];
    if see == "" {
      assert t == body;
      assert |t| >= 4 ==> t[..4][0] == t[0];
    } else {
      assert t[..4] == see && t[4..] == body;
    }
  }

  lemma AnglesAreLeftOut(url: string, angles: bool)
    requires url != "" && url[0] == 'h'
    ensures WithoutAngles(if angles then "<" + url + ">" else url) == url
  {
    if angles {
      var t := "<" + url + ">";
      assert t[..1] == "<" && t[|t| - 1..] == ">" && t[1..|t| - 1] == url;
    } else {
      assert url[..1] == [url[0]];
    }
  }

  /** Line `t` is the first tag line of the block, or the block's end. */
  ghost predicate TagsFrom(block: seq<string>, t: nat)
  {
    t <= |block| && (forall i :: 0 <= i < t ==> !IsTagLine(block[i])) && (t < |block| ==> IsTagLine(block[t]))
  }

  /** The lines before line `t` that are more than a link. */
  function KeptAt(block: seq<string>, t: nat): nat -> bool { (m: nat) => m < |block| && m < t && !IsLinkOnly(block[m]) }

  function LineAt(block: seq<string>): nat -> string { (m: nat) => if m < |block| then block[m] else "" }

  lemma {:induction false} BeforeTagsFrom(block: seq<string>, d: nat, t: nat) returns (at: seq<nat>)
    requires d <= t && TagsFrom(block, t)
    ensures Picks(d, |block|, KeptAt(block, t), LineAt(block), BeforeTags(block[d..]), at)
    decreases t - d
  {
    hide IsTagLine, IsLinkOnly, Picks;
    at := [];
    if d < t {
      assert block[d..][0] == block[d] && block[d..][1..] == block[d + 1..];
      at := BeforeTagsFrom(block, d + 1, t);
      PicksMore(d, |block|, KeptAt(block, t), LineAt(block), BeforeTags(block[d + 1..]), at);
      if IsLinkOnly(block[d]) {
        assert [] + BeforeTags(block[d + 1..]) == BeforeTags(block[d + 1..]);
      } else {
        at := [d] + at;
      }
    } else {
      if d < |block| { assert block[d..][0] == block[d]; }
      PicksNone(d, |block|, KeptAt(block, t), LineAt(block));
    }
  }

  lemma FirstTag(block: seq<string>) returns (t: nat)
    ensures TagsFrom(block, t)
  {
    hide IsTagLine;
    t := 0;
    while t < |block| && !IsTagLine(block[t])
      invariant t <= |block| && forall i :: 0 <= i < t ==> !IsTagLine(block[i])
    {
      t := t + 1;
    }
  }

  /** What is left of a paragraph: its lines before the first tag line, without those that are a link only. */
  lemma BeforeTagsAre(block: seq<string>) returns (t: nat, at: seq<nat>)
    ensures TagsFrom(block, t) && Picks(0, |block|, KeptAt(block, t), LineAt(block), BeforeTags(block), at)
  {
    assert block[0..] == block;
    t := FirstTag(block);
    at := BeforeTagsFrom(block, 0, t);
  }

  // ---- what a block is ----

  lemma {:induction false} StripHashesIs(s: string, level: nat)
    requires level < |s| && (forall i :: 0 <= i < level ==> s[i] == '#') && s[level] != '#'
    ensures StripHashes(s) == s[level..]
    decreases level
  {
    if level > 0 {
      StripHashesIs(s[1..], level - 1);
      assert s[1..][level - 1..] == s[level..];
    }
  }

  /** A heading is kept without the white space behind it. */
  lemma HeadTextIs(block: seq<string>, level: nat) returns (pad: string)
    requires block != [] && IsHeading(block[0], level)
    ensures ItemOf(block).Head? && ItemOf(block).level == level
    ensures block[0] == ItemOf(block).text + pad && IsBlank(pad)
    ensures ItemOf(block).text != "" && !IsSpace(ItemOf(block).text[|ItemOf(block).text| - 1])
  {
    hide IsDroppedName;
    HeadingLevelIff(block[0], level);
    assert StripLeft(block[0]) == block[0];
    pad := StripRightIs(block[0]);
    assert block[0][0] == '#';
  }

  /** A heading is dropped with its section exactly when what follows its hashes is one of the names. */
  lemma HeadDroppedIff(block: seq<string>, level: nat)
    returns (left: string, core: string, mid: string, colons: string, right: string)
    requires block != [] && IsHeading(block[0], level)
    ensures Around(block[0][level..], left, core, mid, colons, right)
    ensures ItemOf(block).Head? && (ItemOf(block).dropped <==> IsSectionName(core))
  {
    HeadingLevelIff(block[0], level);
    StripHashesIs(block[0], level);
    hide IsDroppedName, IsSectionName, IsHeading, HeadingLevel;
    left, core, mid, colons, right := StrippedName(block[0][level..]);
  }

  lemma StrippedName(s: string) returns (left: string, core: string, mid: string, colons: string, right: string)
    ensures Around(s, left, core, mid, colons, right)
    ensures IsDroppedName(Strip(s)) <==> IsSectionName(core)
  {
    hide IsDroppedName, IsSectionName;
    var l, r := StripIs(s);
    left, core, mid, colons, right := DroppedNameIs(Strip(s));
    left, right := l + left, right + r;
  }

  /** A label line is one of the names with at least one colon behind it. */
  lemma LabelIs(line: string) returns (left: string, core: string, mid: string, colons: string, right: string)
    ensures Around(line, left, core, mid, colons, right)
    ensures IsLabelLine(line) <==> colons != "" && IsSectionName(core)
  {
    hide IsDroppedName, IsSectionName;
    var t := Strip(line);
    var l, r := StripIs(line);
    left, core, mid, colons, right := DroppedNameIs(t);
    assert right == "";
    NoEmptyName();
    if core != "" { LastOf(t, left, core, mid, colons); }
    left, right := l + left, right + r;
  }

  lemma NoEmptyName()
    ensures !IsSectionName("")
  {
  }

  lemma LastOf(t: string, left: string, core: string, mid: string, colons: string)
    requires t == left + core + mid + colons && core != "" && IsBlank(mid) && AllColons(colons)
    requires mid == "" ==> core[|core| - 1] != ':'
    ensures EndsWith(t, ":") <==> colons != ""
  {
    assert !IsSpace(':');
    if colons != "" { assert t[|t| - 1] == colons[|colons| - 1]; }
    else if mid != "" { assert t[|t| - 1] == mid[|mid| - 1]; }
    else { assert t[|t| - 1] == core[|core| - 1]; }
    assert t[|t| - 1..] == [t[|t| - 1]];
  }

  /** Any other block is a paragraph; its text is its lines before the first tag line that are more than a
      link, between the first and the last character that is not white space. It is unwanted when its
      first line is a label or it is code. */
  lemma ParaIs(block: seq<string>) returns (t: nat, lines: seq<string>, at: seq<nat>, left: string, right: string)
    requires block != [] && forall level :: !IsHeading(block[0], level)
    ensures ItemOf(block).Para? && (ItemOf(block).unwanted <==> IsLabelLine(block[0]) || IsCode(block))
    ensures TagsFrom(block, t) && Picks(0, |block|, KeptAt(block, t), LineAt(block), lines, at)
    ensures var text := ItemOf(block).text;
            && Join(lines, "\n") == left + text + right && IsBlank(left) && IsBlank(right)
            && (text != "" ==> !IsSpace(text[0]) && !IsSpace(text[|text| - 1]))
  {
    hide IsTagLine, IsLinkOnly, Picks, IsLabelLine, IsCode;
    if HeadingLevel(block[0]).Some? { HeadingLevelIff(block[0], HeadingLevel(block[0]).value); }
    t, at := BeforeTagsAre(block);
    lines := BeforeTags(block);
    left, right := StripIs(Join(lines, "\n"));
  }

  // ---- the paragraphs of a doc comment ----

  /** The paragraphs of a doc comment are its headings and its maximal runs of prose outside fences, in
      order: two prose lines share a paragraph exactly when every line between them is prose. */
  lemma ParagraphsAreRuns(rd: Reader, lines: seq<string>) returns (from: seq<nat>, to: seq<nat>)
    ensures ArePieces(rd, lines, 0, ParagraphsFrom(rd, lines, [], None), from, to)
  {
    assert lines[0..] == lines && lines[0..0] == [];
    from, to := FromHere(rd, lines, 0, 0);
  }

  lemma PieceOfProse(rd: Reader, lines: seq<string>, a: nat, b: nat, x: nat)
    requires IsPiece(rd, lines, a, b) && a <= x < b && ProseAt(rd, lines, x)
    ensures IsRun(rd, lines, a, b)
  {
  }

  lemma RunGoesOn(rd: Reader, lines: seq<string>, a: nat, b: nat, x: nat, y: nat)
    requires IsRun(rd, lines, a, b) && a <= x < b && x < y < |lines|
    ensures y < b <==> forall k :: x <= k <= y ==> ProseAt(rd, lines, k)
  {
    hide ProseAt;
  }

  lemma ShareIff(rd: Reader, lines: seq<string>, from: seq<nat>, to: seq<nat>, blocks: seq<seq<string>>, x: nat, y: nat)
    requires ArePieces(rd, lines, 0, blocks, from, to) && x < y < |lines|
    requires ProseAt(rd, lines, x) && ProseAt(rd, lines, y)
    ensures (exists i :: 0 <= i < |from| && from[i] <= x < y < to[i]) <==> forall k :: x <= k <= y ==> ProseAt(rd, lines, k)
  {
    hide ProseAt, HeadingAt, IsPiece, IsRun;
    forall i | 0 <= i < |from| && from[i] <= x < to[i]
      ensures y < to[i] <==> forall k :: x <= k <= y ==> ProseAt(rd, lines, k)
    {
      PieceOfProse(rd, lines, from[i], to[i], x);
      RunGoesOn(rd, lines, from[i], to[i], x, y);
    }
    assert InSome(from, to, x);
  }
}
