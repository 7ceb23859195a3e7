/** Prompts written out block by block are read back as they were written. */
module PromptRendering {
  import opened Options
  import opened PromptParsing
  import opened Text

  datatype Item = Item(name: string, title: string, content: string)

  function Header(it: Item): string { "<" + it.name + " title=\"" + it.title + "\">" }

  /** The lines of one block. */
  function Lines(it: Item): string { Header(it) + "\n" + it.content + "\n" + ClosingTag(it.name) }

  function Render(items: seq<Item>): string {
    if items == [] then "" else Lines(items[0]) + "\n" + Render(items[1..])
  }

  predicate Letter(c: char) { 'a' <= c <= 'z' || 'A' <= c <= 'Z' || c == '_' }

  predicate IsName(name: string) {
    && name != "" && Letter(name[0]) && name[|name| - 1] != '-'
    && forall i :: 0 <= i < |name| ==> Letter(name[i]) || '0' <= name[i] <= '9' || name[i] == '-'
  }

  /** A name of letters, digits, `_` and `-` that starts with a letter or `_` and does not end with `-`;
      a title of one line without double quotes; and a content in which the block is not closed. */
  predicate Writable(it: Item) {
    && IsName(it.name) && (forall i :: 0 <= i < |it.title| ==> it.title[i] !in {'\n', '"'})
    && forall j :: 0 <= j < |it.content| + 1 ==>
         !OccursAt((it.content + "\n") + ClosingTag(it.name), ClosingTag(it.name), j)
  }

  /** What is known of the class `\w`. */
  predicate WordClass(word: char -> bool) {
    !word(' ') && forall c :: Letter(c) || '0' <= c <= '9' ==> word(c)
  }

  // ---- Parts of texts ----

  lemma PartAt(s: string, a: string, b: string, c: string, i: nat)
    requires OccursAt(s, a + b + c, i)
    ensures OccursAt(s, a, i) && OccursAt(s, b, i + |a|) && OccursAt(s, c, i + |a| + |b|)
  {
    assert (a + b + c)[..|a|] == a && (a + b + c)[|a|..|a| + |b|] == b && (a + b + c)[|a| + |b|..] == c;
    SliceOccurs(s, a + b + c, i, 0, |a|);
    SliceOccurs(s, a + b + c, i, |a|, |a| + |b|);
    SliceOccurs(s, a + b + c, i, |a| + |b|, |a + b + c|);
  }

  lemma SliceOccurs(s: string, t: string, i: nat, lo: nat, hi: nat)
    requires OccursAt(s, t, i) && lo <= hi <= |t|
    ensures OccursAt(s, t[lo..hi], i + lo)
  {
    var part := s[i + lo..i + hi];
    forall k | 0 <= k < |part| ensures part[k] == t[lo..hi][k] {
      CharAt(s, t, i, lo + k);
    }
  }

  lemma OccursInside(s: string, t: string, pattern: string, i: nat, j: nat)
    requires OccursAt(s, t, i) && j + |pattern| <= |t|
    ensures OccursAt(t, pattern, j) <==> OccursAt(s, pattern, i + j)
  {
    SliceOccurs(s, t, i, j, j + |pattern|);
  }

  lemma CharAt(s: string, t: string, i: nat, k: nat)
    requires OccursAt(s, t, i) && k < |t|
    ensures s[i + k] == t[k]
  {
    assert s[i..i + |t|][k] == s[i + k];
  }

  // ---- Stripping ----

  lemma {:induction false} StripLeftSnoc(s: string)
    ensures StripLeft(s + "\n") == if StripLeft(s) == "" then "" else StripLeft(s) + "\n"
  {
    if s == "" {
      assert (s + "\n")[1..] == "";
    } else if IsSpace(s[0]) {
      assert (s + "\n")[1..] == s[1..] + "\n";
      StripLeftSnoc(s[1..]);
    }
  }

  lemma StripDropsTheNewline(s: string)
    ensures Strip(s + "\n") == Strip(s)
  {
    StripLeftSnoc(s);
    var left := StripLeft(s);
    assert (left + "\n")[..|left|] == left;
  }

  lemma StripKeepsTheHeader(it: Item)
    ensures Strip(Header(it) + "\n") == Header(it)
  {
    StripDropsTheNewline(Header(it));
  }

  // ---- One block ----

  lemma {:induction false} NameEndsAt(s: string, i: nat, e: nat)
    requires i <= e < |s| && (forall j :: i <= j < e ==> NameChar(s[j])) && !NameChar(s[e])
    ensures NameEnd(s, i) == e
    decreases e - i
  {
    if i < e { NameEndsAt(s, i + 1, e); }
  }

  lemma TagIsSeen(word: char -> bool, s: string, name: string, p: nat, e: nat)
    requires WordClass(word) && IsName(name) && e == p + 1 + |name| && e < |s|
    requires LineStart(s, p) && s[p] == '<' && s[p + 1..e] == name && s[e] == ' '
    ensures TagAt(word, s, p) == Some(e)
  {
    assert forall j :: p + 1 <= j < e ==> s[j] == name[j - p - 1];
    NameEndsAt(s, p + 2, e);
  }

  lemma OpeningIsTheLine(s: string, p: nat, q: nat)
    requires p <= q < |s| && s[q] == '\n' && forall j :: p <= j < q ==> s[j] != '\n'
    ensures OpeningEnd(s, p) == Some(q + 1)
  {
    assert OccursAt(s, "\n", q);
    forall j | p <= j < q ensures !OccursAt(s, "\n", j) {
      if OccursAt(s, "\n", j) { CharAt(s, "\n", j, 0); }
    }
  }

  /** `lines` are followed by the first closing `tag`. */
  lemma ClosingIsFound(s: string, lines: string, tag: string, from: nat)
    requires OccursAt(s, lines + tag, from) && forall j :: 0 <= j < |lines| ==> !OccursAt(lines + tag, tag, j)
    ensures Find(s, tag, from) == Some(from + |lines|)
  {
    var rest := lines + tag;
    assert rest[|lines|..] == tag;
    SliceOccurs(s, rest, from, |lines|, |rest|);
    forall j | from <= j < from + |lines| ensures !OccursAt(s, tag, j) {
      OccursInside(s, rest, tag, from, j - from);
    }
  }

  lemma PartsOfTheHeader(it: Item)
    requires Writable(it)
    ensures var h, n := Header(it), |it.name|;
      && n + 2 < |h| && h[0] == '<' && h[1..n + 1] == it.name && h[n + 1] == ' '
      && forall j :: 0 <= j < |h| ==> h[j] != '\n'
  {}

  /** A header with a name of `n` characters at `p`, up to the end of the line at `q`. */
  predicate HeaderLaid(s: string, header: string, n: nat, p: nat, q: nat) {
    && p + n + 2 < q < |s| && s[p..q] == header && s[q] == '\n'
    && s[p] == '<' && s[p + n + 1] == ' ' && forall j :: p <= j < q ==> s[j] != '\n'
  }

  lemma HeaderIsLaid(s: string, header: string, n: nat, p: nat, q: nat)
    requires OccursAt(s, header, p) && q == p + |header| < |s| && s[q] == '\n'
    requires n + 2 < |header| && header[0] == '<' && header[n + 1] == ' '
    requires forall j :: 0 <= j < |header| ==> header[j] != '\n'
    ensures HeaderLaid(s, header, n, p, q) && s[p + 1..p + n + 1] == header[1..n + 1]
  {
    CharAt(s, header, p, 0);
    CharAt(s, header, p, n + 1);
    SliceOccurs(s, header, p, 1, n + 1);
    forall j | p <= j < q ensures s[j] != '\n' {
      CharAt(s, header, p, j - p);
    }
  }

  lemma LinesAreLaid(s: string, header: string, n: nat, body: string, tag: string, p: nat, q: nat)
    requires OccursAt(s, header + "\n" + (body + tag), p) && q == p + |header|
    requires n + 2 < |header| && header[0] == '<' && header[n + 1] == ' '
    requires forall j :: 0 <= j < |header| ==> header[j] != '\n'
    ensures HeaderLaid(s, header, n, p, q) && s[p + 1..p + n + 1] == header[1..n + 1]
    ensures OccursAt(s, body + tag, q + 1)
  {
    PartAt(s, header, "\n", body + tag, p);
    CharAt(s, "\n", q, 0);
    HeaderIsLaid(s, header, n, p, q);
  }

  // ---- Its title ----

  /** Within the name no attribute starts: what follows is a character of the name, or the space. */
  lemma NoTitleInTheName(word: char -> bool, it: Item, i: nat)
    requires Writable(it) && i < |it.name| + 2
    ensures TitleAt(word, Header(it), i).None?
  {
    var h, n := Header(it), |it.name|;
    assert h[n + 1] == ' ' && h[n + 2] == 't';
    if OccursAt(h, "title", i) {
      CharAt(h, "title", i, 0);
      if n + 1 < i + 5 {
        CharAt(h, "title", i, n + 1 - i);
      } else if i + 5 == n + 1 {
        assert SkipSpaces(h, i + 5) == n + 2;
      } else {
        assert h[i + 5] == it.name[i + 4];
      }
    }
  }

  lemma PartsOfTheTitle(it: Item)
    ensures var h, n, m := Header(it), |it.name|, |it.title|;
      && n + m + 9 < |h| && h[n + 1] == ' ' && h[n + 2] == 't' && h[n + 2..n + 7] == "title"
      && h[n + 7] == '=' && h[n + 8] == '"' && h[n + 9..n + m + 9] == it.title && h[n + m + 9] == '"'
  {}

  lemma QuotedIs(s: string, i: nat, text: string, j: nat)
    requires j == i + 1 + |text| < |s| && s[i] == s[j] == '"' && s[i + 1..j] == text && '"' !in text
    ensures Quoted(s, i) == Some(text)
  {
    forall k | i + 1 <= k < j ensures !OccursAt(s, "\"", k) {
      assert s[k] == text[k - i - 1];
      if OccursAt(s, "\"", k) { CharAt(s, "\"", k, 0); }
    }
    assert OccursAt(s, "\"", j);
    assert [s[i]] == "\"";
  }

  lemma TitleIsThere(word: char -> bool, it: Item)
    requires WordClass(word) && Writable(it)
    ensures TitleAt(word, Header(it), |it.name| + 2) == Some(it.title)
  {
    PartsOfTheTitle(it);
    AttributeIs(word, Header(it), |it.name| + 2, it.title);
  }

  lemma AttributeIs(word: char -> bool, s: string, i: nat, text: string)
    requires WordClass(word) && 0 < i && i + 7 + |text| < |s| && '"' !in text
    requires s[i - 1] == ' ' && s[i] == 't' && s[i..i + 5] == "title" && s[i + 5] == '=' && s[i + 6] == '"'
    requires s[i + 7..i + 7 + |text|] == text && s[i + 7 + |text|] == '"'
    ensures TitleAt(word, s, i) == Some(text)
  {
    QuotedIs(s, i + 6, text, i + 7 + |text|);
    assert SkipSpaces(s, i + 5) == i + 5 && SkipSpaces(s, i + 6) == i + 6;
  }

  lemma {:induction false} TitleIsFound(word: char -> bool, it: Item, i: nat)
    requires WordClass(word) && Writable(it) && i <= |it.name| + 2
    ensures Title(word, Header(it), i) == Some(Strip(it.title))
    decreases |it.name| + 2 - i
  {
    if i < |it.name| + 2 {
      NoTitleInTheName(word, it, i);
      TitleIsFound(word, it, i + 1);
    } else {
      TitleIsThere(word, it);
    }
  }

  // ---- The whole text ----

  /** The block shows the item. */
  predicate Shows(b: Block, it: Item) {
    b.name == it.name && b.opening == Header(it) && b.title == Strip(it.title) && b.content == Strip(it.content)
  }

  /** The opening tag of a block that lies so. */
  lemma OpeningIsRead(word: char -> bool, s: string, name: string, header: string, p: nat, q: nat)
    requires WordClass(word) && IsName(name) && p <= |s| && LineStart(s, p)
    requires HeaderLaid(s, header, |name|, p, q) && s[p + 1..p + |name| + 1] == name
    requires Strip(header + "\n") == header
    ensures TagAt(word, s, p) == Some(p + |name| + 1) && OpeningEnd(s, p) == Some(q + 1)
    ensures Strip(s[p..q + 1]) == header
  {
    TagIsSeen(word, s, name, p, p + 1 + |name|);
    OpeningIsTheLine(s, p, q);
    assert s[p..q + 1] == s[p..q] + [s[q]];
  }

  /** The section between the tags. */
  lemma SectionIsRead(s: string, name: string, body: string, tag: string, p: nat, from: nat, to: nat)
    requires p < from && OccursAt(s, body + tag, from) && tag == ClosingTag(name) && to == from + |body|
    requires forall j :: 0 <= j < |body| ==> !OccursAt(body + tag, tag, j)
    ensures Span(s, p, from, name) == Some((from, to)) && to <= |s| && s[from..to] == body
  {
    ClosingIsFound(s, body, tag, from);
    assert (body + tag)[..|body|] == body;
    SliceOccurs(s, body + tag, from, 0, |body|);
  }

  lemma TagIsRead(word: char -> bool, s: string, p: nat, e: nat, name: string, from: nat, to: nat)
    requires TagAt(word, s, p) == Some(e) && s[p + 1..e] == name && p < from && to <= |s|
    requires OpeningEnd(s, p) == Some(from) && Span(s, p, from, name) == Some((from, to))
    ensures ReadTag(word, s, p) == ReadSection(word, s, p, name, from, to)
  {}

  /** A header at `p` and a body from `from` to `to` are read. */
  lemma LaidIsRead(word: char -> bool, s: string, name: string, header: string, body: string, tag: string, p: nat,
                   from: nat, to: nat)
    requires WordClass(word) && IsName(name) && tag == ClosingTag(name) && p <= |s| && LineStart(s, p)
    requires 0 < from && HeaderLaid(s, header, |name|, p, from - 1) && s[p + 1..p + |name| + 1] == name
    requires Strip(header + "\n") == header && OccursAt(s, body + tag, from) && to == from + |body|
    requires forall j :: 0 <= j < |body| ==> !OccursAt(body + tag, tag, j)
    ensures TagAt(word, s, p) == Some(p + |name| + 1) && OpeningEnd(s, p) == Some(from)
    ensures Span(s, p, from, name) == Some((from, to)) && to <= |s| && s[from..to] == body
    ensures Strip(s[p..from]) == header
  {
    OpeningIsRead(word, s, name, header, p, from - 1);
    SectionIsRead(s, name, body, tag, p, from, to);
  }

  /** A block of a header and a body is read. */
  lemma LinesAreRead(word: char -> bool, s: string, name: string, header: string, body: string, tag: string, p: nat,
                     from: nat, to: nat)
    requires WordClass(word) && IsName(name) && tag == ClosingTag(name)
    requires |name| + 2 < |header| && header[0] == '<' && header[1..|name| + 1] == name && header[|name| + 1] == ' '
    requires Strip(header + "\n") == header && forall j :: 0 <= j < |header| ==> header[j] != '\n'
    requires forall j :: 0 <= j < |body| ==> !OccursAt(body + tag, tag, j)
    requires OccursAt(s, header + "\n" + (body + tag), p) && LineStart(s, p)
    requires from == p + |header| + 1 && to == from + |body|
    ensures TagAt(word, s, p) == Some(p + |name| + 1) && s[p + 1..p + |name| + 1] == name
    ensures OpeningEnd(s, p) == Some(from) && Span(s, p, from, name) == Some((from, to))
    ensures to <= |s| && Strip(s[p..from]) == header && s[from..to] == body
  {
    LinesAreLaid(s, header, |name|, body, tag, p, from - 1);
    LaidIsRead(word, s, name, header, body, tag, p, from, to);
  }

  function BlockOf(it: Item, p: nat, end: nat): Block {
    Block(it.name, Header(it), Strip(it.title), Strip(it.content), p, end)
  }

  lemma LinesInParts(it: Item)
    ensures Lines(it) == Header(it) + "\n" + ((it.content + "\n") + ClosingTag(it.name))
  {}

  lemma ItemIsLaid(word: char -> bool, s: string, it: Item, header: string, p: nat, from: nat, to: nat)
    requires WordClass(word) && Writable(it) && header == Header(it) && p <= |s| && LineStart(s, p)
    requires OccursAt(s, header + "\n" + ((it.content + "\n") + ClosingTag(it.name)), p)
    requires from == p + |header| + 1 && to == from + |it.content| + 1
    ensures TagAt(word, s, p) == Some(p + |it.name| + 1) && s[p + 1..p + |it.name| + 1] == it.name
    ensures OpeningEnd(s, p) == Some(from) && Span(s, p, from, it.name) == Some((from, to))
    ensures to <= |s| && Strip(s[p..from]) == header && s[from..to] == it.content + "\n"
  {
    PartsOfTheHeader(it);
    StripKeepsTheHeader(it);
    LinesAreRead(word, s, it.name, header, it.content + "\n", ClosingTag(it.name), p, from, to);
  }

  /** What lies so is read as the item. */
  lemma ItemIsRead(word: char -> bool, s: string, it: Item, header: string, p: nat, from: nat, to: nat)
    requires WordClass(word) && Writable(it) && header == Header(it) && p < from <= to <= |s|
    requires TagAt(word, s, p) == Some(p + |it.name| + 1) && s[p + 1..p + |it.name| + 1] == it.name
    requires OpeningEnd(s, p) == Some(from) && Span(s, p, from, it.name) == Some((from, to))
    requires Strip(s[p..from]) == header && s[from..to] == it.content + "\n"
    ensures ReadTag(word, s, p) == Complete(BlockOf(it, p, to + |ClosingTag(it.name)|))
  {
    TagIsRead(word, s, p, p + |it.name| + 1, it.name, from, to);
    StripDropsTheNewline(it.content);
    TitleIsFound(word, it, 0);
  }

  lemma BlockIsRead(word: char -> bool, s: string, it: Item, header: string, p: nat, from: nat, to: nat)
    requires WordClass(word) && Writable(it) && header == Header(it) && p <= |s| && LineStart(s, p)
    requires OccursAt(s, header + "\n" + ((it.content + "\n") + ClosingTag(it.name)), p)
    requires from == p + |header| + 1 && to == from + |it.content| + 1
    ensures TagAt(word, s, p).Some?
    ensures ReadTag(word, s, p) == Complete(BlockOf(it, p, to + |ClosingTag(it.name)|))
  {
    ItemIsLaid(word, s, it, header, p, from, to);
    ItemIsRead(word, s, it, header, p, from, to);
  }

  predicate ShowAll(blocks: seq<Block>, items: seq<Item>) {
    |blocks| == |items| && forall i :: 0 <= i < |items| ==> Shows(blocks[i], items[i])
  }

  /** The text from `cursor` on reads as these items. */
  predicate ReadsAs(word: char -> bool, s: string, items: seq<Item>, cursor: nat)
    requires cursor <= |s|
  {
    var r := ParseFrom(word, s, false, cursor, cursor);
    r.Blocks? && ShowAll(r.blocks, items) && GapsBlank(s, r.blocks, cursor)
  }

  lemma OneMoreBlock(word: char -> bool, s: string, items: seq<Item>, cursor: nat, p: nat)
    requires cursor <= |s| && items != [] && NextTag(word, s, cursor) == Some(p) && Blank(s[cursor..p])
    requires var r := ReadTag(word, s, p);
      r.Complete? && Shows(r.block, items[0]) && r.block.start == p && ReadsAs(word, s, items[1..], r.block.end)
    ensures ReadsAs(word, s, items, cursor)
  {
    var b := ReadTag(word, s, p).block;
    var r := ParseFrom(word, s, false, b.end, b.end);
    assert ParseFrom(word, s, false, cursor, cursor) == Blocks([b] + r.blocks);
    assert ([b] + r.blocks)[1..] == r.blocks;
    assert forall i :: 1 <= i < |items| ==> items[i] == items[1..][i - 1];
  }

  /** The items are written from `p` on. */
  predicate Written(s: string, items: seq<Item>, p: nat) { p <= |s| && s[p..] == Render(items) }

  lemma FirstIsRead(word: char -> bool, s: string, items: seq<Item>, p: nat) returns (end: nat)
    requires WordClass(word) && items != [] && Writable(items[0]) && Written(s, items, p) && LineStart(s, p)
    ensures TagAt(word, s, p).Some? && p < end < |s| && s[end] == '\n' && Written(s, items[1..], end + 1)
    ensures ReadTag(word, s, p) == Complete(BlockOf(items[0], p, end))
  {
    var it := items[0];
    end := p + |Lines(it)|;
    FirstIsWritten(s, it, Header(it), Render(items[1..]), p, end);
    var from := p + |Header(it)| + 1;
    BlockIsRead(word, s, it, Header(it), p, from, from + |it.content| + 1);
  }

  lemma FirstIsWritten(s: string, it: Item, header: string, rest: string, p: nat, end: nat)
    requires p <= |s| && s[p..] == Lines(it) + "\n" + rest && header == Header(it) && end == p + |Lines(it)|
    ensures OccursAt(s, header + "\n" + ((it.content + "\n") + ClosingTag(it.name)), p)
    ensures end < |s| && s[end] == '\n' && s[end + 1..] == rest
    ensures end == p + |header| + 1 + |it.content| + 1 + |ClosingTag(it.name)|
  {
    assert OccursAt(s, Lines(it) + "\n" + rest, p);
    PartAt(s, Lines(it), "\n", rest, p);
    CharAt(s, "\n", p + |Lines(it)|, 0);
    LinesInParts(it);
  }

  /** A gap before the items: none at the start of the text, else the end of a line. */
  predicate Gap(s: string, cursor: nat, p: nat) {
    p <= |s| && ((cursor == p == 0) || (cursor + 1 == p && s[cursor] == '\n'))
  }

  lemma NoTagInTheGap(word: char -> bool, s: string, cursor: nat, p: nat)
    requires Gap(s, cursor, p) && (p == |s| || TagAt(word, s, p).Some?)
    ensures NextTag(word, s, cursor) == if p == |s| then None else Some(p)
    ensures Blank(s[cursor..p])
  {}

  lemma NothingIsRead(word: char -> bool, s: string, cursor: nat, p: nat)
    requires Written(s, [], p) && Gap(s, cursor, p)
    ensures ReadsAs(word, s, [], cursor)
  {
    NoTagInTheGap(word, s, cursor, p);
    assert s[cursor..p] == s[cursor..];
  }

  lemma NextIsRead(word: char -> bool, s: string, items: seq<Item>, cursor: nat, p: nat) returns (end: nat)
    requires WordClass(word) && items != [] && Writable(items[0]) && Written(s, items, p) && Gap(s, cursor, p)
    ensures Written(s, items[1..], end + 1) && Gap(s, end, end + 1)
    ensures ReadsAs(word, s, items[1..], end) ==> ReadsAs(word, s, items, cursor)
  {
    end := FirstIsRead(word, s, items, p);
    NoTagInTheGap(word, s, cursor, p);
    if ReadsAs(word, s, items[1..], end) {
      OneMoreBlock(word, s, items, cursor, p);
    }
  }

  /** From the end of a block, or the start of the text, the rest is read as it was written. */
  lemma {:induction false} RestIsReadBack(word: char -> bool, s: string, items: seq<Item>, cursor: nat, p: nat)
    requires WordClass(word) && forall i :: 0 <= i < |items| ==> Writable(items[i])
    requires Written(s, items, p) && Gap(s, cursor, p)
    ensures ReadsAs(word, s, items, cursor)
    decreases |items|
  {
    if items == [] {
      NothingIsRead(word, s, cursor, p);
    } else {
      var end := NextIsRead(word, s, items, cursor, p);
      RestIsReadBack(word, s, items[1..], end, end + 1);
    }
  }

  /** A prompt written out as blocks is read back block by block, strictly or not: the names and opening
      lines as they are, titles and contents stripped. */
  lemma RenderedPromptIsReadBack(word: char -> bool, items: seq<Item>, strict: bool)
    requires WordClass(word) && forall i :: 0 <= i < |items| ==> Writable(items[i])
    ensures var r := Parse(word, Render(items), strict);
      && r.Blocks? && |r.blocks| == |items|
      && forall i :: 0 <= i < |items| ==>
           && r.blocks[i].name == items[i].name && r.blocks[i].title == Strip(items[i].title)
           && r.blocks[i].content == Strip(items[i].content)
           && r.blocks[i].opening == "<" + items[i].name + " title=\"" + items[i].title + "\">"
  {
    var s := Render(items);
    assert s[0..] == s;
    RestIsReadBack(word, s, items, 0, 0);
    var blocks := ParseFrom(word, s, false, 0, 0).blocks;
    StrictSucceedsExactlyWhen(word, s, blocks);
  }

  // ---- A block on one line ----

  /** As above, with no `>` in the title, and a content of one line. */
  predicate WritableInline(it: Item) {
    && IsName(it.name) && (forall i :: 0 <= i < |it.title| ==> it.title[i] !in {'\n', '"', '>'})
    && (forall i :: 0 <= i < |it.content| ==> it.content[i] != '\n')
    && forall j :: 0 <= j < |it.content| ==>
         !OccursAt(it.content + ClosingTag(it.name), ClosingTag(it.name), j)
  }

  lemma InlineHeader(it: Item)
    requires WritableInline(it)
    ensures Writable(it.(content := "")) && Header(it.(content := "")) == Header(it)
    ensures var h := Header(it);
      h != "" && h[|h| - 1] == '>' && forall j :: 0 <= j < |h| - 1 ==> h[j] != '>' && h[j] != '\n'
  {
    var tag := ClosingTag(it.name);
    assert (("" + "\n") + tag)[0] == '\n';
    if OccursAt(("" + "\n") + tag, tag, 0) { CharAt(("" + "\n") + tag, tag, 0, 0); }
    assert forall j :: 0 <= j < |it.name| ==> it.name[j] != '>' && it.name[j] != '\n';
  }

  /** The first `c` of the text. */
  lemma CharIsFound(s: string, c: char, q: nat)
    requires q < |s| && s[q] == c && forall j :: 0 <= j < q ==> s[j] != c
    ensures Find(s, [c], 0) == Some(q)
  {
    assert OccursAt(s, [c], q);
    forall j | 0 <= j < q ensures !OccursAt(s, [c], j) {
      if OccursAt(s, [c], j) { CharAt(s, [c], j, 0); }
    }
  }

  lemma CharIsNotFound(s: string, c: char)
    requires forall j :: 0 <= j < |s| ==> s[j] != c
    ensures Find(s, [c], 0).None?
  {
    var found := Find(s, [c], 0);
    if found.Some? { CharAt(s, [c], found.value, 0); }
  }

  /** Without a line end the opening tag ends at its `>`; with one behind it the line is tried first. */
  lemma InlineTagEnds(s: string, name: string, body: string, tag: string, from: nat, to: nat, lineEnds: bool)
    requires 0 < from && to == from + |body| && tag == ClosingTag(name)
    requires |s| == to + |tag| + if lineEnds then 1 else 0
    requires s[from - 1] == '>' && (forall j :: 0 <= j < from - 1 ==> s[j] != '>')
    requires forall j :: 0 <= j < |s| ==> (s[j] == '\n' <==> lineEnds && j == |s| - 1)
    requires Find(s, tag, from) == Some(to)
    ensures OpeningEnd(s, 0).Some? && Span(s, 0, OpeningEnd(s, 0).value, name) == Some((from, to))
  {
    CharIsFound(s, '>', from - 1);
    if lineEnds {
      CharIsFound(s, '\n', |s| - 1);
      assert Find(s, tag, |s|).None?;
    } else {
      CharIsNotFound(s, '\n');
    }
  }

  lemma InlineTagIsRead(word: char -> bool, s: string, e: nat, name: string, from: nat, to: nat)
    requires TagAt(word, s, 0) == Some(e) && s[1..e] == name && OpeningEnd(s, 0).Some?
    requires Span(s, 0, OpeningEnd(s, 0).value, name) == Some((from, to))
    ensures 0 < from <= to && OccursAt(s, ClosingTag(name), to)
    ensures ReadTag(word, s, 0) == ReadSection(word, s, 0, name, from, to)
  {}

  /** Where the parts of a text of one such block lie. */
  lemma InlineIsLaid(s: string, it: Item, h: string, tag: string, tail: string, from: nat, to: nat)
    requires WritableInline(it) && h == Header(it) && tag == ClosingTag(it.name) && tail in {"", "\n"}
    requires s == h + it.content + tag + tail && from == |h| && to == from + |it.content|
    ensures 0 < from && s[from - 1] == '>' && forall j :: 0 <= j < from - 1 ==> s[j] != '>'
    ensures s[..from] == h && s[from..to] == it.content
    ensures forall j :: 0 <= j < |s| ==> (s[j] == '\n' <==> tail == "\n" && j == |s| - 1)
    ensures Find(s, tag, from) == Some(to)
  {
    InlineHeader(it);
    assert '\n' !in tag by {
      assert forall j :: 0 <= j < |it.name| ==> it.name[j] != '\n';
    }
    FourParts(s, h, it.content, tag, tail);
    ClosingIsFound(s, it.content, tag, from);
  }

  lemma FourParts(s: string, a: string, b: string, c: string, d: string)
    requires s == a + b + c + d && a != "" && d in {"", "\n"}
    requires '\n' !in a[..|a| - 1] && a[|a| - 1] != '\n' && '\n' !in b && '\n' !in c
    ensures s[..|a|] == a && s[|a|..|a| + |b|] == b && OccursAt(s, b + c, |a|)
    ensures forall j :: 0 <= j < |s| ==> (s[j] == '\n' <==> d == "\n" && j == |s| - 1)
    ensures forall j :: 0 <= j < |a| ==> s[j] == a[j]
  {}

  lemma InlineTagIsSeen(word: char -> bool, s: string, it: Item, h: string)
    requires WordClass(word) && WritableInline(it) && h == Header(it) && h <= s
    ensures TagAt(word, s, 0) == Some(|it.name| + 1) && s[1..|it.name| + 1] == it.name
  {
    InlineHeader(it);
    PartsOfTheHeader(it.(content := ""));
    assert forall j :: 0 <= j < |h| ==> s[j] == h[j];
    assert s[1..|it.name| + 1] == h[1..|it.name| + 1];
    TagIsSeen(word, s, it.name, 0, |it.name| + 1);
  }

  lemma NothingBehind(word: char -> bool, s: string, end: nat)
    requires end == |s| || (end + 1 == |s| && s[end] == '\n')
    ensures ReadsAs(word, s, [], end)
  {
    if end + 1 == |s| { NothingIsRead(word, s, end, |s|); }
  }

  lemma InlineIsRead(word: char -> bool, s: string, it: Item, h: string, tag: string, tail: string)
    requires WordClass(word) && WritableInline(it) && h == Header(it) && tag == ClosingTag(it.name)
    requires tail in {"", "\n"} && s == h + it.content + tag + tail
    ensures TagAt(word, s, 0).Some?
    ensures ReadTag(word, s, 0) == Complete(BlockOf(it, 0, |h| + |it.content| + |tag|))
  {
    var from: nat, to: nat := |h|, |h| + |it.content|;
    InlineTagIsSeen(word, s, it, h);
    assert s[..from] == h && s[from..to] == it.content by {
      InlineIsLaid(s, it, h, tag, tail, from, to);
    }
    assert OpeningEnd(s, 0).Some? && Span(s, 0, OpeningEnd(s, 0).value, it.name) == Some((from, to)) by {
      InlineIsLaid(s, it, h, tag, tail, from, to);
      InlineTagEnds(s, it.name, it.content, tag, from, to, tail == "\n");
    }
    InlineTagIsRead(word, s, |it.name| + 1, it.name, from, to);
    InlineSectionIsRead(word, s, it, h, from, to);
  }

  lemma InlineSectionIsRead(word: char -> bool, s: string, it: Item, h: string, from: nat, to: nat)
    requires WordClass(word) && WritableInline(it) && h == Header(it) && 0 < from <= to
    requires OccursAt(s, ClosingTag(it.name), to) && s[..from] == h && s[from..to] == it.content
    ensures ReadSection(word, s, 0, it.name, from, to) == Complete(BlockOf(it, 0, to + |ClosingTag(it.name)|))
  {
    InlineHeader(it);
    StripKeepsTheHeader(it);
    StripDropsTheNewline(h);
    TitleIsFound(word, it.(content := ""), 0);
    assert s[0..from] == s[..from];
  }

  /** A block on one line, at the end of the text or with its line ended, is read back as well. */
  lemma AnInlineBlockIsReadBack(word: char -> bool, it: Item, lineEnds: bool, strict: bool)
    requires WordClass(word) && WritableInline(it)
    ensures var s := Header(it) + it.content + ClosingTag(it.name) + if lineEnds then "\n" else "";
      var r := Parse(word, s, strict);
      && r.Blocks? && |r.blocks| == 1 && r.blocks[0].name == it.name && r.blocks[0].title == Strip(it.title)
      && r.blocks[0].content == Strip(it.content) && r.blocks[0].opening == Header(it)
  {
    var h, tag, tail := Header(it), ClosingTag(it.name), if lineEnds then "\n" else "";
    var s := h + it.content + tag + tail;
    InlineIsRead(word, s, it, h, tag, tail);
    NothingBehind(word, s, |h| + |it.content| + |tag|);
    OneMoreBlock(word, s, [it], 0, 0);
    StrictSucceedsExactlyWhen(word, s, ParseFrom(word, s, false, 0, 0).blocks);
  }
}
