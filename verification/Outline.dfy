/**
 * Which blocks of a doc comment the structured form keeps (`structured_doc`). The script carries one
 * `skipping` level from heading to heading; the outline says it without state: a block is skipped
 * exactly when some dropped heading before it has only strictly deeper headings since.
 */
module Outline {
  import opened Prelude
  import opened Text
  import opened StructuredDoc

  /** A block as `structured_doc` sees it: a heading, or a paragraph with the text left of it. */
  datatype Item = Head(level: nat, dropped: bool, text: string) | Para(unwanted: bool, text: string)

  // ---- the outline ----

  /** `j` is a dropped heading, and every heading after it and before `i` is strictly deeper. */
  predicate Covers(items: seq<Item>, j: nat, i: nat)
    requires i <= |items|
  {
    && j < i && items[j].Head? && items[j].dropped
    && forall k :: j < k < i && items[k].Head? ==> items[k].level > items[j].level
  }

  predicate Skipped(items: seq<Item>, i: nat)
    requires i < |items|
  {
    exists j :: 0 <= j < i && Covers(items, j, i) && (items[i].Head? ==> items[i].level > items[j].level)
  }

  /** A paragraph that is not dropped for what it is or where it stands. */
  predicate Readable(items: seq<Item>, i: nat)
    requires i < |items|
  {
    items[i].Para? && !items[i].unwanted && items[i].text != "" && !Skipped(items, i)
  }

  /** Headings stand unless skipped or dropped; of the readable paragraphs, the first and the short ones. */
  predicate Stands(items: seq<Item>, i: nat)
    requires i < |items|
  {
    if items[i].Head? then !Skipped(items, i) && !items[i].dropped
    else Readable(items, i)
         && (|items[i].text| <= SHORT_PARAGRAPH_CHARS || forall j :: 0 <= j < i ==> !Readable(items, j))
  }

  function Standing(items: seq<Item>, n: nat): seq<string>
    requires n <= |items|
  {
    if n == 0 then []
    else Standing(items, n - 1) + if Stands(items, n - 1) then [items[n - 1].text] else []
  }

  // ---- the state machine ----

  /** What `skipping` says at block `i`: the least level of the headings that cover it. */
  ghost predicate Knows(items: seq<Item>, i: nat, skipping: Option<nat>)
    requires i <= |items|
  {
    match skipping
    case None => forall j :: 0 <= j < i ==> !Covers(items, j, i)
    case Some(level) =>
      && (exists j :: 0 <= j < i && Covers(items, j, i) && items[j].level == level)
      && (forall j :: 0 <= j < i && Covers(items, j, i) ==> level <= items[j].level)
  }

  function NextSkipping(item: Item, skipping: Option<nat>): Option<nat>
  {
    if !item.Head? || (skipping.Some? && item.level > skipping.value) then skipping
    else if item.dropped then Some(item.level)
    else None
  }

  /** At block `i`, being skipped is being below the level carried. */
  lemma SkippedIffBelow(items: seq<Item>, i: nat, skipping: Option<nat>)
    requires i < |items| && Knows(items, i, skipping)
    ensures Skipped(items, i) <==> skipping.Some? && (items[i].Head? ==> items[i].level > skipping.value)
  {
    if skipping.Some? {
      var j :| 0 <= j < i && Covers(items, j, i) && items[j].level == skipping.value;
    }
  }

  lemma CoversOneMore(items: seq<Item>, i: nat, j: nat)
    requires j <= i < |items|
    ensures j < i ==>
              (Covers(items, j, i + 1) <==> Covers(items, j, i) && (items[i].Head? ==> items[i].level > items[j].level))
    ensures j == i ==> (Covers(items, j, i + 1) <==> items[i].Head? && items[i].dropped)
  {
  }

  lemma SkippingStaysRight(items: seq<Item>, i: nat, skipping: Option<nat>)
    requires i < |items| && Knows(items, i, skipping)
    ensures Knows(items, i + 1, NextSkipping(items[i], skipping))
  {
    forall j | 0 <= j <= i
      ensures j < i ==> (Covers(items, j, i + 1) <==>
                         Covers(items, j, i) && (items[i].Head? ==> items[i].level > items[j].level))
      ensures j == i ==> (Covers(items, j, i + 1) <==> items[i].Head? && items[i].dropped)
    {
      CoversOneMore(items, i, j);
    }
    if skipping.Some? {
      var j :| 0 <= j < i && Covers(items, j, i) && items[j].level == skipping.value;
      assert !items[i].Head? || items[i].level > skipping.value ==> Covers(items, j, i + 1);
    }
    assert items[i].Head? && items[i].dropped ==> Covers(items, i, i + 1);
  }

  /** The loop of `structured_doc` keeps exactly the blocks that stand in the outline. */
  method KeepStanding(items: seq<Item>) returns (kept: seq<string>)
    ensures kept == Standing(items, |items|)
  {
    kept := [];
    var haveSummary, skipping: Option<nat>, i := false, None, 0;
    while i < |items|
      invariant i <= |items|
      invariant Knows(items, i, skipping)
      invariant haveSummary <==> exists j :: 0 <= j < i && Readable(items, j)
      invariant kept == Standing(items, i)
    {
      var item := items[i];
      SkippedIffBelow(items, i, skipping);
      SkippingStaysRight(items, i, skipping);
      if item.Head? {
        assert !Readable(items, i);
        if skipping.Some? && item.level > skipping.value {
        } else {
          skipping := None;
          if item.dropped {
            skipping := Some(item.level);
          } else {
            kept := kept + [item.text];
          }
        }
      } else if skipping.Some? || item.unwanted || item.text == "" {
        assert !Readable(items, i);
      } else {
        assert Readable(items, i);
        if !haveSummary || |item.text| <= SHORT_PARAGRAPH_CHARS {
          kept := kept + [item.text];
        }
        haveSummary := true;
      }
      i := i + 1;
    }
  }

  // ---- from the doc comment ----

  /** The lines before the first tag line, links to elsewhere left out. */
  function BeforeTags(block: seq<string>): seq<string>
  {
    if block == [] || IsTagLine(block[0]) then []
    else (if IsLinkOnly(block[0]) then [] else [block[0]]) + BeforeTags(block[1..])
  }

  function ItemOf(block: seq<string>): Item
    requires block != []
  {
    if HeadingLevel(block[0]).Some? then
      Head(HeadingLevel(block[0]).value, IsDroppedName(Strip(StripHashes(block[0]))), Strip(block[0]))
    else Para(IsLabelLine(block[0]) || IsCode(block), Strip(Join(BeforeTags(block), "\n")))
  }

  function Items(blocks: seq<seq<string>>): (r: seq<Item>)
    requires forall i :: 0 <= i < |blocks| ==> blocks[i] != []
    ensures |r| == |blocks|
  {
    seq(|blocks|, i requires 0 <= i < |blocks| => ItemOf(blocks[i]))
  }

  /** `structured_doc`: the standing blocks of the doc comment's outline, blank lines between them. */
  method Structured(doc: string) returns (text: string, blocks: seq<seq<string>>)
    ensures blocks == ParagraphsFrom(MARKDOWN, Lines(Strip(doc)), [], None)
    ensures forall i :: 0 <= i < |blocks| ==> blocks[i] != []
    ensures text == Join(Standing(Items(blocks), |blocks|), "\n\n")
  {
    blocks := Paragraphs(MARKDOWN, Lines(Strip(doc)));
    ParagraphsAreBlocks(MARKDOWN, Lines(Strip(doc)), [], None);
    var kept := KeepStanding(Items(blocks));
    text := Join(kept, "\n\n");
  }
}
