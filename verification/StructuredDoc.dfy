/**
 * The "structured" form of a doc comment (`gm423_token_lengths.py`): paragraphs outside code fences,
 * whole sections dropped by their heading, long paragraphs after the first dropped.
 */
module StructuredDoc {
  import opened Prelude
  import opened Text

  const SHORT_PARAGRAPH_CHARS := 200
  const DROPPED_SECTIONS: set<string> := {
    "arguments", "args", "parameters", "params", "returns", "return", "errors",
    "panics", "raises", "throws", "yields", "examples", "example", "usage"
  }

  // ---- lines ----

  function Split(s: string, c: char): seq<string>
    ensures Split(s, c) != []
  {
    if s == [] then [""]
    else if s[0] == c then [""] + Split(s[1..], c)
    else var rest := Split(s[1..], c); [[s[0]] + rest[0]] + rest[1..]
  }

  function WithoutCr(line: string): string
  {
    if EndsWith(line, "\r") then line[..|line| - 1] else line
  }

  /** Lines split on newlines, one trailing carriage return removed, no final empty line. */
  function Lines(text: string): seq<string>
  {
    var parts := Split(text, '\n');
    var kept := if parts[|parts| - 1] == "" then parts[..|parts| - 1] else parts;
    seq(|kept|, i requires 0 <= i < |kept| => WithoutCr(kept[i]))
  }

  function CountLeading(s: string, c: char): nat
  {
    if s != [] && s[0] == c then 1 + CountLeading(s[1..], c) else 0
  }

  function HeadingLevel(line: string): Option<nat>
  {
    var level := CountLeading(line, '#');
    if 1 <= level <= 6 && level < |line| && line[level] == ' ' && !IsBlank(line[level..]) then Some(level) else None
  }

  function StripHashes(s: string): string
  {
    if s != [] && s[0] == '#' then StripHashes(s[1..]) else s
  }

  function StripColons(s: string): string
  {
    if s != [] && s[|s| - 1] == ':' then StripColons(s[..|s| - 1]) else s
  }

  function Lower(s: string): string
  {
    seq(|s|, i requires 0 <= i < |s| => if 'A' <= s[i] <= 'Z' then (s[i] as int + 32) as char else s[i])
  }

  predicate IsDroppedName(name: string)
  {
    Lower(Strip(StripColons(Strip(name)))) in DROPPED_SECTIONS
  }

  predicate IsLabelLine(line: string)
  {
    EndsWith(Strip(line), ":") && IsDroppedName(Strip(line))
  }

  predicate IsDigit(c: char)
  {
    '0' <= c <= '9'
  }

  function StripDigits(s: string): string
  {
    if s != [] && IsDigit(s[0]) then StripDigits(s[1..]) else s
  }

  predicate IsListItem(line: string)
  {
    var t := StripLeft(line);
    var rest := StripDigits(t);
    || StartsWith(t, "- ") || StartsWith(t, "* ") || StartsWith(t, "+ ")
    || (|rest| < |t| && (StartsWith(rest, ". ") || StartsWith(rest, ") ")))
  }

  predicate IsCode(block: seq<string>)
    requires block != []
  {
    || StartsWith(StripLeft(block[0]), ">>>")
    || (!IsListItem(block[0]) && forall i :: 0 <= i < |block| && !IsBlank(block[i]) ==>
                                   StartsWith(block[i], "\t") || StartsWith(block[i], "    "))
  }

  predicate IsLetter(c: char)
  {
    'a' <= c <= 'z' || 'A' <= c <= 'Z'
  }

  function StripLetters(s: string): string
  {
    if s != [] && IsLetter(s[0]) then StripLetters(s[1..]) else s
  }

  predicate IsTagLine(line: string)
  {
    var t := StripLeft(line);
    if StartsWith(t, "@") then |t| > 1 && IsLetter(t[1])
    else if StartsWith(t, ":") then |StripLetters(t[1..])| < |t| - 1 && Contains(StripLetters(t[1..]), ":")
    else false
  }

  predicate HasSpace(s: string)
  {
    exists i :: 0 <= i < |s| && IsSpace(s[i])
  }

  function IndexOf(s: string, part: string): (k: nat)
    requires Contains(s, part)
    ensures k + |part| <= |s|
  {
    if StartsWith(s, part) then 0 else 1 + IndexOf(s[1..], part)
  }

  function WithoutSee(t: string): string
  {
    if StartsWith(t, "See:") || StartsWith(t, "See ") then Strip(t[4..]) else Strip(t)
  }

  function WithoutAngles(t: string): string
  {
    if StartsWith(t, "<") && EndsWith(t, ">") && |t| >= 2 then t[1..|t| - 1] else t
  }

  predicate IsLinkOnly(line: string)
  {
    var t := Strip(line);
    if StartsWith(t, "[") && Contains(t, "]:") then
      var end := IndexOf(t, "]:");
      var target := Strip(t[end + 2..]);
      end > 1 && target != "" && !HasSpace(target)
    else
      var url := WithoutAngles(WithoutSee(t));
      (StartsWith(url, "https://") || StartsWith(url, "http://")) && !HasSpace(url)
  }

  // ---- paragraphs ----

  /** What `_paragraphs` makes of a line outside a fence, tested in this order. */
  datatype LineKind = Fence(marker: string) | Heading(level: nat) | Blank | Prose

  function KindOf(line: string): LineKind
  {
    var t := StripLeft(line);
    if StartsWith(t, "```") then Fence("```")
    else if StartsWith(t, "~~~") then Fence("~~~")
    else if HeadingLevel(line).Some? then Heading(HeadingLevel(line).value)
    else if IsBlank(line) then Blank
    else Prose
  }

  predicate ClosesFence(line: string, marker: string)
  {
    StartsWith(StripLeft(line), marker)
  }

  /** How lines are read. The paragraph rules hold for any reader; `MARKDOWN` is the script's. */
  datatype Reader = Reader(kind: string -> LineKind, closes: (string, string) -> bool)

  const MARKDOWN := Reader(KindOf, ClosesFence)

  /** The open fence after `line`, read inside the fence `marker`. */
  function InFence(rd: Reader, line: string, marker: string): Option<string>
  {
    if rd.closes(line, marker) then None else Some(marker)
  }

  /** The non-blank lines outside fences, in order: neither fence lines nor what they enclose. */
  function Unfenced(rd: Reader, lines: seq<string>, fence: Option<string>): seq<string>
  {
    if lines == [] then []
    else if fence.Some? then Unfenced(rd, lines[1..], InFence(rd, lines[0], fence.value))
    else
      match rd.kind(lines[0])
      case Fence(marker) => Unfenced(rd, lines[1..], Some(marker))
      case Blank => Unfenced(rd, lines[1..], None)
      case _ => [lines[0]] + Unfenced(rd, lines[1..], None)
  }

  function Flatten(blocks: seq<seq<string>>): seq<string>
  {
    if blocks == [] then [] else blocks[0] + Flatten(blocks[1..])
  }

  /** A heading alone, or prose lines. */
  predicate IsBlock(rd: Reader, block: seq<string>)
  {
    || (|block| == 1 && rd.kind(block[0]).Heading?)
    || (block != [] && forall i :: 0 <= i < |block| ==> rd.kind(block[i]).Prose?)
  }

  predicate AreBlocks(rd: Reader, blocks: seq<seq<string>>)
  {
    forall i :: 0 <= i < |blocks| ==> IsBlock(rd, blocks[i])
  }

  function AsBlock(current: seq<string>): seq<seq<string>>
  {
    if current == [] then [] else [current]
  }

  /** The paragraphs of what is left to read, `current` being the lines of the one under way. */
  function ParagraphsFrom(rd: Reader, lines: seq<string>, current: seq<string>, fence: Option<string>): seq<seq<string>>
    decreases |lines|
  {
    if lines == [] then AsBlock(current)
    else if fence.Some? then ParagraphsFrom(rd, lines[1..], current, InFence(rd, lines[0], fence.value))
    else
      match rd.kind(lines[0])
      case Fence(marker) => AsBlock(current) + ParagraphsFrom(rd, lines[1..], [], Some(marker))
      case Heading(_) => AsBlock(current) + ([[lines[0]]] + ParagraphsFrom(rd, lines[1..], [], None))
      case Blank => AsBlock(current) + ParagraphsFrom(rd, lines[1..], [], None)
      case Prose => ParagraphsFrom(rd, lines[1..], current + [lines[0]], None)
  }

  /** `_paragraphs`. */
  method Paragraphs(rd: Reader, lines: seq<string>) returns (out: seq<seq<string>>)
    ensures out == ParagraphsFrom(rd, lines, [], None)
  {
    out := [];
    var current: seq<string>, fence: Option<string>, i := [], None, 0;
    while i < |lines|
      invariant i <= |lines|
      invariant out + ParagraphsFrom(rd, lines[i..], current, fence) == ParagraphsFrom(rd, lines, [], None)
    {
      var line := lines[i];
      assert lines[i..][0] == line && lines[i..][1..] == lines[i + 1..];
      i := i + 1;
      if fence.Some? {
        if rd.closes(line, fence.value) {
          fence := None;
        }
        continue;
      }
      var kind := rd.kind(line);
      if !kind.Prose? {
        if current != [] {
          out := out + [current];
          current := [];
        }
        if kind.Fence? {
          fence := Some(kind.marker);
        } else if kind.Heading? {
          out := out + [[line]];
        }
        continue;
      }
      current := current + [line];
    }
    if current != [] {
      out := out + [current];
    }
  }

  lemma {:induction false} FlattenConcat(a: seq<seq<string>>, b: seq<seq<string>>)
    ensures Flatten(a + b) == Flatten(a) + Flatten(b)
    decreases |a|
  {
    if a == [] {
      assert a + b == b;
    } else {
      assert (a + b)[1..] == a[1..] + b;
      FlattenConcat(a[1..], b);
    }
  }

  lemma FlattenBlock(current: seq<string>, blocks: seq<seq<string>>)
    ensures Flatten(AsBlock(current) + blocks) == current + Flatten(blocks)
  {
    FlattenConcat(AsBlock(current), blocks);
    if current != [] { assert Flatten([]) == []; }
  }

  /** Every non-blank line outside fences is in the paragraphs, in order, once. */
  lemma {:induction false} ParagraphsConserveLines(rd: Reader, lines: seq<string>, current: seq<string>, fence: Option<string>)
    requires fence.Some? ==> current == []
    ensures Flatten(ParagraphsFrom(rd, lines, current, fence)) == current + Unfenced(rd, lines, fence)
    decreases |lines|
  {
    if lines == [] {
      FlattenBlock(current, []);
      assert AsBlock(current) + [] == AsBlock(current);
    } else if fence.Some? {
      ParagraphsConserveLines(rd, lines[1..], current, InFence(rd, lines[0], fence.value));
    } else {
      match rd.kind(lines[0])
      case Fence(marker) =>
        ParagraphsConserveLines(rd, lines[1..], [], Some(marker));
        FlattenBlock(current, ParagraphsFrom(rd, lines[1..], [], Some(marker)));
      case Heading(_) =>
        var rest := ParagraphsFrom(rd, lines[1..], [], None);
        ParagraphsConserveLines(rd, lines[1..], [], None);
        FlattenBlock(current, [[lines[0]]] + rest);
        FlattenBlock([lines[0]], rest);
      case Blank =>
        ParagraphsConserveLines(rd, lines[1..], [], None);
        FlattenBlock(current, ParagraphsFrom(rd, lines[1..], [], None));
      case Prose =>
        ParagraphsConserveLines(rd, lines[1..], current + [lines[0]], None);
    }
  }

  /** Every paragraph is a heading alone or prose lines; none is empty. */
  lemma {:induction false} ParagraphsAreBlocks(rd: Reader, lines: seq<string>, current: seq<string>, fence: Option<string>)
    requires forall i :: 0 <= i < |current| ==> rd.kind(current[i]).Prose?
    ensures AreBlocks(rd, ParagraphsFrom(rd, lines, current, fence))
    decreases |lines|
  {
    if lines != [] {
      if fence.Some? {
        ParagraphsAreBlocks(rd, lines[1..], current, InFence(rd, lines[0], fence.value));
      } else {
        match rd.kind(lines[0])
        case Fence(marker) => ParagraphsAreBlocks(rd, lines[1..], [], Some(marker));
        case Heading(_) => ParagraphsAreBlocks(rd, lines[1..], [], None);
        case Blank => ParagraphsAreBlocks(rd, lines[1..], [], None);
        case Prose => ParagraphsAreBlocks(rd, lines[1..], current + [lines[0]], None);
      }
    }
  }
}
