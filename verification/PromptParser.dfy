/** The parser of rendered prompts: `<name title="...">` blocks, lenient or covering the whole text. */
module PromptParsing {
  import opened Options
  import opened Text

  datatype Block = Block(name: string, opening: string, title: string, content: string, start: nat, end: nat)

  datatype Error = MissingTitle(name: string) | TextOutsideBlocks

  datatype Parsed = Blocks(blocks: seq<Block>) | Refused(error: Error)

  // ---- Searching ----

  predicate OccursAt(s: string, pattern: string, i: nat) { i + |pattern| <= |s| && s[i..i + |pattern|] == pattern }

  /** `s.find(pattern, i)`. */
  function Find(s: string, pattern: string, i: nat): (r: Option<nat>)
    ensures r.Some? ==> i <= r.value && OccursAt(s, pattern, r.value)
    ensures forall j :: i <= j < (if r.Some? then r.value else |s|) ==> !OccursAt(s, pattern, j)
    decreases |s| - i
  {
    if i + |pattern| > |s| then None
    else if s[i..i + |pattern|] == pattern then Some(i)
    else if i == |s| then None
    else Find(s, pattern, i + 1)
  }

  predicate LineStart(s: string, p: nat)
    requires p <= |s|
  {
    p == 0 || s[p - 1] == '\n'
  }

  predicate NameStart(c: char) { 'a' <= c <= 'z' || 'A' <= c <= 'Z' || c == '_' }
  predicate NameChar(c: char) { NameStart(c) || '0' <= c <= '9' || c == '-' }

  /** A word boundary; `word` is the class `\w`, of which nothing need be known here. */
  predicate Boundary(word: char -> bool, s: string, i: nat)
    requires i <= |s|
  {
    (i > 0 && word(s[i - 1])) != (i < |s| && word(s[i]))
  }

  function NameEnd(s: string, i: nat): (e: nat)
    requires i <= |s|
    ensures i <= e <= |s|
    decreases |s| - i
  {
    if i < |s| && NameChar(s[i]) then NameEnd(s, i + 1) else i
  }

  /** Last boundary in `lo + 1 .. hi`: what backtracking from `hi` finds. */
  function LastBoundary(word: char -> bool, s: string, lo: nat, hi: nat): (r: Option<nat>)
    requires hi <= |s|
    ensures r.Some? ==> lo < r.value <= hi
  {
    if hi <= lo then None
    else if Boundary(word, s, hi) then Some(hi)
    else LastBoundary(word, s, lo, hi - 1)
  }

  /** Where the name ends, if a tag starts at `p`. */
  function TagAt(word: char -> bool, s: string, p: nat): (r: Option<nat>)
    ensures r.Some? ==> p + 1 < r.value <= |s| && s[p] == '<'
  {
    if p + 1 < |s| && LineStart(s, p) && s[p] == '<' && NameStart(s[p + 1])
    then LastBoundary(word, s, p + 1, NameEnd(s, p + 2)) else None
  }

  /** A tag's name is the longest run of name characters from `p + 1` on that ends at a word boundary. */
  lemma {:induction false} LastBoundaryIsLast(word: char -> bool, s: string, lo: nat, hi: nat)
    requires hi <= |s|
    ensures var r := LastBoundary(word, s, lo, hi);
      && (r.Some? ==> Boundary(word, s, r.value))
      && forall j: nat :: (if r.Some? then r.value else lo) < j <= hi ==> !Boundary(word, s, j)
  {
    if hi > lo && !Boundary(word, s, hi) { LastBoundaryIsLast(word, s, lo, hi - 1); }
  }

  /** The first tag from `cursor` on. */
  function NextTag(word: char -> bool, s: string, cursor: nat): (r: Option<nat>)
    ensures r.Some? ==> cursor <= r.value < |s| && TagAt(word, s, r.value).Some?
    ensures forall j :: cursor <= j < (if r.Some? then r.value else |s|) ==> TagAt(word, s, j).None?
    decreases |s| - cursor
  {
    if cursor >= |s| then None
    else if TagAt(word, s, cursor).Some? then Some(cursor)
    else NextTag(word, s, cursor + 1)
  }

  /** `_find_opening_tag_end`. */
  function OpeningEnd(s: string, start: nat): (r: Option<nat>)
    ensures r.Some? ==> start < r.value <= |s|
  {
    var newline := Find(s, "\n", start);
    if newline.Some? then Some(newline.value + 1)
    else
      var close := Find(s, ">", start);
      if close.Some? then Some(close.value + 1) else None
  }

  // ---- Titles ----

  function SkipSpaces(s: string, i: nat): (e: nat)
    requires i <= |s|
    ensures i <= e <= |s|
    decreases |s| - i
  {
    if i < |s| && IsSpace(s[i]) then SkipSpaces(s, i + 1) else i
  }

  /** The quoted value at `i`. */
  function Quoted(s: string, i: nat): Option<string> {
    if i < |s| && s[i] in {'"', '\''} then
      var close := Find(s, [s[i]], i + 1);
      if close.Some? then Some(s[i + 1..close.value]) else None
    else None
  }

  function TitleAt(word: char -> bool, s: string, i: nat): Option<string> {
    if OccursAt(s, "title", i) && Boundary(word, s, i) then
      var equals := SkipSpaces(s, i + 5);
      if equals < |s| && s[equals] == '=' then Quoted(s, SkipSpaces(s, equals + 1)) else None
    else None
  }

  /** `_extract_block_title`: the first title attribute from `i` on. */
  function Title(word: char -> bool, s: string, i: nat): Option<string>
    decreases |s| - i
  {
    if i >= |s| then None
    else if TitleAt(word, s, i).Some? then Some(Strip(TitleAt(word, s, i).value))
    else Title(word, s, i + 1)
  }

  // ---- One tag ----

  function ClosingTag(name: string): string { "</" + name + ">" }

  /** What the parser makes of one tag: go on behind it, miss its title, or a block. */
  datatype Reading = Skip(next: nat) | Untitled(name: string, next: nat) | Complete(block: Block)

  /** End of the opening tag and start of the closing one: first with the whole line as opening, then
      with the tag alone. */
  function Span(s: string, p: nat, lineEnd: nat, name: string): (r: Option<(nat, nat)>)
    requires p < lineEnd <= |s|
    ensures r.Some? ==> p < r.value.0 <= r.value.1 && OccursAt(s, ClosingTag(name), r.value.1)
  {
    var closing := Find(s, ClosingTag(name), lineEnd);
    if closing.Some? then Some((lineEnd, closing.value))
    else
      var close := Find(s, ">", p);
      if close.None? then None
      else
        var inline := Find(s, ClosingTag(name), close.value + 1);
        if inline.Some? then Some((close.value + 1, inline.value)) else None
  }

  /** The tag of a section from `from` to `to`. */
  function ReadSection(word: char -> bool, s: string, p: nat, name: string, from: nat, to: nat): (r: Reading)
    requires p < from <= to && OccursAt(s, ClosingTag(name), to)
    ensures r == Untitled(name, from) || (r.Complete? && r.block.name == name)
    ensures r.Complete? ==> r.block.start == p && r.block.end == to + |ClosingTag(name)|
  {
    var opening := Strip(s[p..from]);
    var title := Title(word, opening, 0);
    if title.None? then Untitled(name, from)
    else Complete(Block(name, opening, title.value, Strip(s[from..to]), p, to + |ClosingTag(name)|))
  }

  function ReadTag(word: char -> bool, s: string, p: nat): (r: Reading)
    requires TagAt(word, s, p).Some?
    ensures !r.Complete? ==> p < r.next <= |s|
    ensures r.Complete? ==> r.block.start == p && p < r.block.end <= |s|
  {
    var nameEnd := TagAt(word, s, p).value;
    var name := s[p + 1..nameEnd];
    var lineEnd := OpeningEnd(s, p);
    if lineEnd.None? then Skip(nameEnd)
    else
      var span := Span(s, p, lineEnd.value, name);
      if span.None? then Skip(lineEnd.value) else ReadSection(word, s, p, name, span.value.0, span.value.1)
  }

  // ---- The whole text ----

  function Prepend(b: Block, r: Parsed): Parsed { if r.Blocks? then Blocks([b] + r.blocks) else r }

  /** `_parse` from `cursor` on; before `validated` the text is accounted for. */
  function ParseFrom(word: char -> bool, s: string, strict: bool, cursor: nat, validated: nat): Parsed
    decreases |s| - cursor
  {
    var p := NextTag(word, s, cursor);
    if p.None? then Blocks([])
    else
      match ReadTag(word, s, p.value)
      case Skip(next) => ParseFrom(word, s, strict, next, validated)
      case Untitled(name, next) =>
        if strict || '_' in name then Refused(MissingTitle(name)) else ParseFrom(word, s, strict, next, validated)
      case Complete(b) =>
        if strict && !(validated <= b.start && Blank(s[validated..b.start])) then Refused(TextOutsideBlocks)
        else Prepend(b, ParseFrom(word, s, strict, b.end, b.end))
  }

  function LastEnd(blocks: seq<Block>): nat { if blocks == [] then 0 else blocks[|blocks| - 1].end }

  /** What follows the last block. */
  function Rest(s: string, blocks: seq<Block>): string { if LastEnd(blocks) <= |s| then s[LastEnd(blocks)..] else "" }

  /** The constructor: parsing, then the last validation when strict. */
  function Parse(word: char -> bool, s: string, strict: bool): Parsed {
    var r := ParseFrom(word, s, strict, 0, 0);
    if strict && r.Blocks? && !Blank(s) && (r.blocks == [] || !Blank(Rest(s, r.blocks)))
    then Refused(TextOutsideBlocks) else r
  }

  // ---- The loop ----

  function Behind(blocks: seq<Block>, r: Parsed): Parsed { if r.Blocks? then Blocks(blocks + r.blocks) else r }

  /** With these blocks found and the scan at `cursor`, the outcome is what the rest makes of it. */
  predicate Resumes(word: char -> bool, s: string, strict: bool, blocks: seq<Block>, cursor: nat) {
    && LastEnd(blocks) <= cursor <= |s|
    && ParseFrom(word, s, strict, 0, 0) == Behind(blocks, ParseFrom(word, s, strict, cursor, LastEnd(blocks)))
  }

  lemma ResumesAtTheStart(word: char -> bool, s: string, strict: bool)
    ensures Resumes(word, s, strict, [], 0)
  {
    var r := ParseFrom(word, s, strict, 0, 0);
    if r.Blocks? { assert [] + r.blocks == r.blocks; }
  }

  lemma ResumesBehindATag(word: char -> bool, s: string, strict: bool, blocks: seq<Block>, cursor: nat)
    requires Resumes(word, s, strict, blocks, cursor) && NextTag(word, s, cursor).Some?
    ensures var r := ReadTag(word, s, NextTag(word, s, cursor).value);
      && (r.Skip? ==> Resumes(word, s, strict, blocks, r.next))
      && (r.Untitled? ==>
            if strict || '_' in r.name then ParseFrom(word, s, strict, 0, 0) == Refused(MissingTitle(r.name))
            else Resumes(word, s, strict, blocks, r.next))
  {}

  lemma ResumesBehindABlock(word: char -> bool, s: string, strict: bool, blocks: seq<Block>, cursor: nat)
    requires Resumes(word, s, strict, blocks, cursor) && NextTag(word, s, cursor).Some?
    requires ReadTag(word, s, NextTag(word, s, cursor).value).Complete?
    ensures var b := ReadTag(word, s, NextTag(word, s, cursor).value).block;
      && !Blank(s) && LastEnd(blocks) <= b.start <= |s|
      && if strict && !Blank(s[LastEnd(blocks)..b.start])
         then ParseFrom(word, s, strict, 0, 0) == Refused(TextOutsideBlocks)
         else Resumes(word, s, strict, blocks + [b], b.end)
  {
    var p := NextTag(word, s, cursor).value;
    var b := ReadTag(word, s, p).block;
    TagIsNotBlank(word, s, p);
    BehindOneMore(blocks, b, ParseFrom(word, s, strict, b.end, b.end));
  }

  lemma BehindOneMore(blocks: seq<Block>, b: Block, r: Parsed)
    ensures Behind(blocks, Prepend(b, r)) == Behind(blocks + [b], r)
  {
    if r.Blocks? { assert blocks + ([b] + r.blocks) == (blocks + [b]) + r.blocks; }
  }

  lemma ResumesToTheEnd(word: char -> bool, s: string, strict: bool, blocks: seq<Block>, cursor: nat)
    requires Resumes(word, s, strict, blocks, cursor) && NextTag(word, s, cursor).None?
    ensures ParseFrom(word, s, strict, 0, 0) == Blocks(blocks)
  {
    BehindNothing(blocks);
  }

  lemma BehindNothing(blocks: seq<Block>)
    ensures Behind(blocks, Blocks([])) == Blocks(blocks)
  {
    assert blocks + [] == blocks;
  }

  class PromptParser {
    const text: string
    const strict: bool
    var validatedCursor: nat
    var blocks: seq<Block>

    constructor (text: string, strict: bool)
      ensures this.text == text && this.strict == strict && validatedCursor == 0 && blocks == []
    {
      this.text, this.strict := text, strict;
      validatedCursor, blocks := 0, [];
    }

    /** `validate(block)`: the text since the last block must be blank. */
    method ValidateBlock(b: Block) returns (ok: bool)
      requires validatedCursor <= b.start <= |text| && !Blank(text)
      modifies this`validatedCursor
      ensures ok == Blank(text[old(validatedCursor)..b.start])
      ensures validatedCursor == if ok then b.end else old(validatedCursor)
    {
      ok := Blank(text[validatedCursor..b.start]);
      if ok {
        validatedCursor := b.end;
      }
    }

    /** `_parse` and the final `validate()`. */
    method Run(word: char -> bool) returns (result: Parsed)
      requires validatedCursor == 0 && blocks == []
      modifies this
      ensures result == Parse(word, text, strict)
      ensures result.Blocks? ==> blocks == result.blocks
    {
      var cursor := 0;
      ResumesAtTheStart(word, text, strict);
      while cursor < |text|
        invariant Resumes(word, text, strict, blocks, cursor)
        invariant strict ==> validatedCursor == LastEnd(blocks)
        decreases |text| - cursor
      {
        var found := NextTag(word, text, cursor);
        if found.None? {
          break;
        }
        var reading := ReadTag(word, text, found.value);
        if reading.Complete? {
          ResumesBehindABlock(word, text, strict, blocks, cursor);
          if strict {
            var ok := ValidateBlock(reading.block);
            if !ok {
              return Refused(TextOutsideBlocks);
            }
          }
          blocks := blocks + [reading.block];
          cursor := reading.block.end;
        } else {
          ResumesBehindATag(word, text, strict, blocks, cursor);
          if reading.Untitled? && (strict || '_' in reading.name) {
            return Refused(MissingTitle(reading.name));
          }
          cursor := reading.next;
        }
      }
      ResumesToTheEnd(word, text, strict, blocks, cursor);
      if strict && !Blank(text) && (blocks == [] || !Blank(text[validatedCursor..])) {
        return Refused(TextOutsideBlocks);
      }
      return Blocks(blocks);
    }
  }

  lemma TagIsNotBlank(word: char -> bool, s: string, p: nat)
    requires TagAt(word, s, p).Some?
    ensures !Blank(s) && p < |s| && !IsSpace(s[p])
  {}

  // ---- Where blocks lie ----

  /** The block is a stretch of the text from its tag to its closing tag. */
  predicate BlockOk(word: char -> bool, s: string, b: Block) {
    && b.start < b.end <= |s|
    && TagAt(word, s, b.start).Some? && b.name == s[b.start + 1..TagAt(word, s, b.start).value]
    && |ClosingTag(b.name)| <= b.end - b.start && OccursAt(s, ClosingTag(b.name), b.end - |ClosingTag(b.name)|)
  }

  /** Blocks in order, each after the one before it, the first not before `from`. */
  predicate InOrder(word: char -> bool, s: string, blocks: seq<Block>, from: nat) {
    blocks == [] || (
      BlockOk(word, s, blocks[0]) && from <= blocks[0].start && InOrder(word, s, blocks[1..], blocks[0].end))
  }

  /** Blocks in order are disjoint, pairwise. */
  lemma {:induction false} InOrderMeansDisjoint(word: char -> bool, s: string, blocks: seq<Block>, from: nat, i: nat, j: nat)
    requires InOrder(word, s, blocks, from) && i <= j < |blocks|
    ensures BlockOk(word, s, blocks[j]) && from <= blocks[j].start
    ensures i < j ==> blocks[i].end <= blocks[j].start
  {
    if j > 0 {
      InOrderMeansDisjoint(word, s, blocks[1..], blocks[0].end, if i > 0 then i - 1 else j - 1, j - 1);
    }
  }

  lemma ReadBlockIsOk(word: char -> bool, s: string, p: nat)
    requires TagAt(word, s, p).Some? && ReadTag(word, s, p).Complete?
    ensures BlockOk(word, s, ReadTag(word, s, p).block)
  {
    var name := s[p + 1..TagAt(word, s, p).value];
    var span := Span(s, p, OpeningEnd(s, p).value, name).value;
    var b := ReadTag(word, s, p).block;
    assert b.name == name && b.start == p;
    assert b.end == span.1 + |ClosingTag(name)|;
    assert OccursAt(s, ClosingTag(name), span.1);
  }

  lemma ParsedBlockFirst(word: char -> bool, s: string, strict: bool, cursor: nat, validated: nat)
    requires NextTag(word, s, cursor).Some? && ReadTag(word, s, NextTag(word, s, cursor).value).Complete?
    requires ParseFrom(word, s, strict, cursor, validated).Blocks?
    ensures var b := ReadTag(word, s, NextTag(word, s, cursor).value).block;
      var r := ParseFrom(word, s, strict, b.end, b.end);
      r.Blocks? && ParseFrom(word, s, strict, cursor, validated).blocks == [b] + r.blocks
  {}

  lemma ParsedBehindTag(word: char -> bool, s: string, strict: bool, cursor: nat, validated: nat)
    requires NextTag(word, s, cursor).Some? && !ReadTag(word, s, NextTag(word, s, cursor).value).Complete?
    requires ParseFrom(word, s, strict, cursor, validated).Blocks?
    ensures ParseFrom(word, s, strict, cursor, validated) ==
      ParseFrom(word, s, strict, ReadTag(word, s, NextTag(word, s, cursor).value).next, validated)
  {}

  /** In either mode the blocks are stretches of the text, in order and disjoint. */
  lemma {:induction false} BlocksAreInOrder(word: char -> bool, s: string, strict: bool, cursor: nat, validated: nat)
    requires ParseFrom(word, s, strict, cursor, validated).Blocks?
    ensures InOrder(word, s, ParseFrom(word, s, strict, cursor, validated).blocks, cursor)
    decreases |s| - cursor
  {
    var found := NextTag(word, s, cursor);
    if found.Some? {
      var r := ReadTag(word, s, found.value);
      if r.Complete? {
        ReadBlockIsOk(word, s, found.value);
        ParsedBlockFirst(word, s, strict, cursor, validated);
        BlocksAreInOrder(word, s, strict, r.block.end, r.block.end);
      } else {
        ParsedBehindTag(word, s, strict, cursor, validated);
        BlocksAreInOrder(word, s, strict, r.next, validated);
        InOrderFromEarlier(word, s, ParseFrom(word, s, strict, r.next, validated).blocks, cursor, r.next);
      }
    }
  }

  lemma InOrderFromEarlier(word: char -> bool, s: string, blocks: seq<Block>, earlier: nat, from: nat)
    requires earlier <= from && InOrder(word, s, blocks, from)
    ensures InOrder(word, s, blocks, earlier)
  {}

  /** Behind a tag that gives no block the scan goes on no later than the next line. */
  lemma NoLineIsPassedOver(word: char -> bool, s: string, p: nat, q: nat)
    requires TagAt(word, s, p).Some? && !ReadTag(word, s, p).Complete? && p < q <= |s| && LineStart(s, q)
    ensures ReadTag(word, s, p).next <= q
  {
    assert s[q - 1] == '\n' && OccursAt(s, "\n", q - 1);
    assert OpeningEnd(s, p).Some? && OpeningEnd(s, p).value <= q;
  }

  predicate InABlock(blocks: seq<Block>, q: nat) { exists i :: 0 <= i < |blocks| && blocks[i].start <= q < blocks[i].end }

  lemma InTheRest(blocks: seq<Block>, b: Block, q: nat)
    ensures InABlock([b] + blocks, q) <==> b.start <= q < b.end || InABlock(blocks, q)
  {
    assert ([b] + blocks)[0] == b;
    if InABlock(blocks, q) {
      var i :| 0 <= i < |blocks| && blocks[i].start <= q < blocks[i].end;
      assert ([b] + blocks)[i + 1] == blocks[i];
    }
  }

  /** No block is missed: a tag from `cursor` on that could be read as a block is in one. */
  lemma {:induction false} NoBlockIsMissed(word: char -> bool, s: string, strict: bool, cursor: nat, validated: nat, q: nat)
    requires ParseFrom(word, s, strict, cursor, validated).Blocks?
    requires cursor <= q && TagAt(word, s, q).Some? && ReadTag(word, s, q).Complete?
    ensures InABlock(ParseFrom(word, s, strict, cursor, validated).blocks, q)
    decreases |s| - cursor
  {
    var p := NextTag(word, s, cursor).value;
    assert p <= q;
    if ReadTag(word, s, p).Complete? {
      var b := ReadTag(word, s, p).block;
      ParsedBlockFirst(word, s, strict, cursor, validated);
      InTheRest(ParseFrom(word, s, strict, b.end, b.end).blocks, b, q);
      if b.end <= q { NoBlockIsMissed(word, s, strict, b.end, b.end, q); }
    } else {
      NoLineIsPassedOver(word, s, p, q);
      ParsedBehindTag(word, s, strict, cursor, validated);
      NoBlockIsMissed(word, s, strict, ReadTag(word, s, p).next, validated, q);
    }
  }

  // ---- Strictness ----

  /** All text from `from` on that is in no block is blank. */
  predicate GapsBlank(s: string, blocks: seq<Block>, from: nat)
    requires from <= |s|
  {
    if blocks == [] then Blank(s[from..])
    else
      && from <= blocks[0].start <= blocks[0].end <= |s|
      && Blank(s[from..blocks[0].start]) && GapsBlank(s, blocks[1..], blocks[0].end)
  }

  /** ... but for what follows the last block. */
  predicate GapsBefore(s: string, blocks: seq<Block>, from: nat)
    requires from <= |s|
  {
    blocks == [] || (
      && from <= blocks[0].start <= blocks[0].end <= |s|
      && Blank(s[from..blocks[0].start]) && GapsBefore(s, blocks[1..], blocks[0].end))
  }

  lemma {:induction false} GapsAndRest(s: string, blocks: seq<Block>, from: nat)
    requires from <= |s|
    ensures GapsBlank(s, blocks, from) <==>
      GapsBefore(s, blocks, from) && Blank(if blocks == [] then s[from..] else Rest(s, blocks))
  {
    if blocks != [] && from <= blocks[0].start <= blocks[0].end <= |s| {
      GapsAndRest(s, blocks[1..], blocks[0].end);
      if |blocks| > 1 { assert blocks[1..][|blocks| - 2] == blocks[|blocks| - 1]; }
    }
  }

  /** What strict parsing accepts lenient parsing accepts too, with the same blocks. */
  lemma {:induction false} StrictImpliesLenient(word: char -> bool, s: string, cursor: nat, validated: nat)
    requires validated <= cursor <= |s| && ParseFrom(word, s, true, cursor, validated).Blocks?
    ensures ParseFrom(word, s, false, cursor, validated) == ParseFrom(word, s, true, cursor, validated)
    ensures GapsBefore(s, ParseFrom(word, s, true, cursor, validated).blocks, validated)
    decreases |s| - cursor
  {
    var p := NextTag(word, s, cursor);
    if p.Some? {
      match ReadTag(word, s, p.value)
      case Skip(next) => StrictImpliesLenient(word, s, next, validated);
      case Untitled(_, _) =>
      case Complete(b) => StrictImpliesLenient(word, s, b.end, b.end);
    }
  }

  /** When the gaps are blank the scan met no tag outside the blocks, so being strict changes nothing. */
  lemma {:induction false} BlankGapsImplyStrict(word: char -> bool, s: string, cursor: nat, validated: nat)
    requires validated <= cursor <= |s| && ParseFrom(word, s, false, cursor, validated).Blocks?
    requires GapsBlank(s, ParseFrom(word, s, false, cursor, validated).blocks, validated)
    ensures ParseFrom(word, s, true, cursor, validated) == ParseFrom(word, s, false, cursor, validated)
    decreases |s| - cursor
  {
    var p := NextTag(word, s, cursor);
    if p.Some? {
      match ReadTag(word, s, p.value)
      case Skip(next) => BlankGapsImplyStrict(word, s, next, validated);
      case Untitled(_, next) => TagInAGap(word, s, p.value, next, validated);
      case Complete(b) => BlankGapsImplyStrict(word, s, b.end, b.end);
    }
  }

  lemma TagInAGap(word: char -> bool, s: string, p: nat, next: nat, validated: nat)
    requires TagAt(word, s, p).Some? && validated <= p < next <= |s|
    requires ParseFrom(word, s, false, next, validated).Blocks?
    ensures !GapsBlank(s, ParseFrom(word, s, false, next, validated).blocks, validated)
  {
    var blocks := ParseFrom(word, s, false, next, validated).blocks;
    BlocksAreInOrder(word, s, false, next, validated);
    TagIsNotBlank(word, s, p);
    if blocks == [] {
      assert s[validated..][p - validated] == s[p];
    } else if validated <= blocks[0].start {
      assert s[validated..blocks[0].start][p - validated] == s[p];
    }
  }

  lemma BlankTextHasNoTag(word: char -> bool, s: string)
    requires Blank(s)
    ensures NextTag(word, s, 0).None?
  {
    if NextTag(word, s, 0).Some? {
      TagIsNotBlank(word, s, NextTag(word, s, 0).value);
    }
  }

  /** A strict parse succeeds exactly when the lenient one does and leaves nothing but blank text
      between, before and after at least one block; or when all the text is blank. The blocks
      are then the same. */
  lemma StrictSucceedsExactlyWhen(word: char -> bool, s: string, blocks: seq<Block>)
    ensures Parse(word, s, true) == Blocks(blocks) <==>
      && Parse(word, s, false) == Blocks(blocks)
      && (Blank(s) || (blocks != [] && GapsBlank(s, blocks, 0)))
  {
    if Blank(s) {
      BlankTextHasNoTag(word, s);
    } else {
      if ParseFrom(word, s, true, 0, 0) == Blocks(blocks) {
        StrictImpliesLenient(word, s, 0, 0);
      }
      GapsAndRest(s, blocks, 0);
      if ParseFrom(word, s, false, 0, 0) == Blocks(blocks) && GapsBlank(s, blocks, 0) {
        BlankGapsImplyStrict(word, s, 0, 0);
      }
    }
  }

  /** Gaps and blocks in turn. */
  function Woven(s: string, blocks: seq<Block>, from: nat): string
    requires from <= |s|
  {
    if blocks == [] then s[from..]
    else if from <= blocks[0].start <= blocks[0].end <= |s|
    then s[from..blocks[0].start] + s[blocks[0].start..blocks[0].end] + Woven(s, blocks[1..], blocks[0].end)
    else ""
  }

  lemma ThreeParts(s: string, a: nat, b: nat, c: nat)
    requires a <= b <= c <= |s|
    ensures s[a..b] + s[b..c] + s[c..] == s[a..]
  {}

  lemma {:induction false} WeavingRebuildsTheText(word: char -> bool, s: string, blocks: seq<Block>, from: nat)
    requires from <= |s| && InOrder(word, s, blocks, from)
    ensures Woven(s, blocks, from) == s[from..]
  {
    if blocks != [] {
      WeavingRebuildsTheText(word, s, blocks[1..], blocks[0].end);
      ThreeParts(s, from, blocks[0].start, blocks[0].end);
    }
  }

  /** A strict success on text that is not blank: the text is blank gaps and blocks in turn. */
  lemma StrictTextIsBlocksAndBlanks(word: char -> bool, s: string)
    requires Parse(word, s, true).Blocks? && !Blank(s)
    ensures var blocks := Parse(word, s, true).blocks;
      && blocks != [] && InOrder(word, s, blocks, 0) && GapsBlank(s, blocks, 0) && Woven(s, blocks, 0) == s
  {
    var blocks := Parse(word, s, true).blocks;
    StrictSucceedsExactlyWhen(word, s, blocks);
    BlocksAreInOrder(word, s, true, 0, 0);
    WeavingRebuildsTheText(word, s, blocks, 0);
    assert s[0..] == s;
  }
}
