/** What becomes of a pair of markers in a template, from the text and the context alone. */
module PromptPairs {
  import opened Options
  import opened PromptConditionals
  import opened PromptParsing
  import opened PromptRendering
  import opened Text

  predicate IsKey(key: string) {
    key != "" && Letter(key[0]) && forall i :: 0 <= i < |key| ==> Letter(key[i]) || '0' <= key[i] <= '9'
  }

  function Comment(word: string): string { "<!-- " + word + " -->" }

  function Opening(negated: bool, key: string): string { Comment((if negated then "NOT_IF:" else "IF:") + key) }

  function Closing(negated: bool, key: string): string { Comment((if negated then "ENDNOT_IF:" else "ENDIF:") + key) }

  /** The condition a section depends on: a missing key and `None` are false, a word is false when it
      says so, in any case and with any space around it, and so is the empty one. */
  predicate Holds(context: Context, key: string) {
    key in context &&
    match context[key]
    case Flag(b) => b
    case Missing => false
    case Words(text) => Lower(Strip(text)) !in {"0", "false", "no", "off", ""}
    case Other(truthy) => truthy
  }

  predicate Plain(s: string) { forall i :: 0 <= i < |s| ==> s[i] != '<' }

  lemma IncludedExactlyWhen(context: Context, negated: bool, key: string)
    ensures Included(context, negated, key) <==> Holds(context, key) != negated
  {
    if key in context && context[key].Words? { WordsAreFalseExactlyWhen(context[key].text); }
  }

  // ---- Markers ----

  lemma CommentAt(s: string, word: string, i: nat, e: nat)
    requires OccursAt(s, Comment(word), i) && word != "" && !IsSpace(word[0]) && e == i + 5 + |word|
    ensures OccursAt(s, "<!--", i) && SkipSpaces(s, i + 4) == i + 5 && OccursAt(s, word, i + 5)
    ensures e < |s| && s[e] == ' ' && CommentEnd(s, e) == Some(e + 4)
  {
    PartAt(s, "<!-- ", word, " -->", i);
    SliceOccurs(s, "<!-- ", i, 0, 4);
    CharAt(s, "<!-- ", i, 4);
    CharAt(s, word, i + 5, 0);
    CharAt(s, " -->", e, 0);
    CharAt(s, " -->", e, 1);
    SliceOccurs(s, " -->", e, 1, 4);
    assert SkipSpaces(s, e) == e + 1;
  }

  lemma {:induction false} KeyEndsAt(s: string, i: nat, e: nat)
    requires i <= e < |s| && (forall j :: i <= j < e ==> KeyChar(s[j])) && !KeyChar(s[e])
    ensures KeyEnd(s, i) == e
    decreases e - i
  {
    if i < e { KeyEndsAt(s, i + 1, e); }
  }

  lemma MarkerKeyIs(s: string, negated: bool, key: string, i: nat, e: nat)
    requires IsKey(key) && OccursAt(s, key, i) && e == i + |key| < |s| && s[e] == ' '
    requires CommentEnd(s, e) == Some(e + 4)
    ensures MarkerKey(s, negated, i) == Some(Marker(negated, key, e + 4))
  {
    forall j | i <= j < e ensures s[j] == key[j - i] {
      CharAt(s, key, i, j - i);
    }
    KeyEndsAt(s, i + 1, e);
  }

  lemma WordAndKey(s: string, word: string, key: string, i: nat)
    requires OccursAt(s, word + key, i)
    ensures OccursAt(s, word, i) && OccursAt(s, key, i + |word|)
  {
    assert (word + key)[..|word|] == word && (word + key)[|word|..] == key;
    SliceOccurs(s, word + key, i, 0, |word|);
    SliceOccurs(s, word + key, i, |word|, |word + key|);
  }

  lemma OpeningWord(s: string, negated: bool, i: nat)
    requires OccursAt(s, "<!--", i) && SkipSpaces(s, i + 4) == i + 5
    requires OccursAt(s, if negated then "NOT_IF:" else "IF:", i + 5)
    ensures OpeningAt(s, i) == MarkerKey(s, negated, i + if negated then 12 else 8)
  {
    if !negated && OccursAt(s, "NOT_IF:", i + 5) {
      CharAt(s, "NOT_IF:", i + 5, 0);
      CharAt(s, "IF:", i + 5, 0);
    }
  }

  lemma OpeningIsSeen(s: string, negated: bool, key: string, i: nat, after: nat)
    requires IsKey(key) && OccursAt(s, Opening(negated, key), i) && after == i + |Opening(negated, key)|
    ensures OpeningAt(s, i) == Some(Marker(negated, key, after))
  {
    var word := if negated then "NOT_IF:" else "IF:";
    assert MarkerKey(s, negated, i + 5 + |word|) == Some(Marker(negated, key, after)) by {
      CommentAt(s, word + key, i, after - 4);
      WordAndKey(s, word, key, i + 5);
      MarkerKeyIs(s, negated, key, i + 5 + |word|, after - 4);
    }
    assert OpeningAt(s, i) == MarkerKey(s, negated, i + 5 + |word|) by {
      CommentAt(s, word + key, i, after - 4);
      WordAndKey(s, word, key, i + 5);
      OpeningWord(s, negated, i);
    }
  }

  lemma ClosingIsSeen(s: string, m: Marker, i: nat, after: nat)
    requires OccursAt(s, Closing(m.negated, m.key), i) && after == i + |Closing(m.negated, m.key)|
    ensures ClosingAt(s, m, i) == Some(after) && OpeningAt(s, i).None?
  {
    CommentAt(s, EndWord(m), i, after - 4);
    CharAt(s, EndWord(m), i + 5, 0);
    if OccursAt(s, "NOT_IF:", i + 5) { CharAt(s, "NOT_IF:", i + 5, 0); }
    if OccursAt(s, "IF:", i + 5) { CharAt(s, "IF:", i + 5, 0); }
  }

  lemma NoMarkerAt(s: string, m: Marker, i: nat)
    requires i < |s| ==> s[i] != '<'
    ensures OpeningAt(s, i).None? && ClosingAt(s, m, i).None?
  {
    if OccursAt(s, "<!--", i) { CharAt(s, "<!--", i, 0); }
  }

  // ---- Inline ----

  /** An opening marker at `i`, the closing one from `close` to `end`, and no other `<` in the text. */
  ghost predicate OnePair(s: string, m: Marker, i: nat, close: nat, end: nat) {
    && i < m.after <= close < end <= |s| && OpeningAt(s, i) == Some(m) && ClosingAt(s, m, close) == Some(end)
    && OpeningAt(s, close).None? && Bracketed(s, i, close)
  }

  predicate Bracketed(s: string, i: nat, close: nat) {
    forall k :: 0 <= k < |s| ==> (s[k] == '<' <==> k == i || k == close)
  }

  lemma {:induction false} ClosingIsNext(s: string, m: Marker, q: nat, close: nat, end: nat)
    requires q <= close && ClosingAt(s, m, close) == Some(end) && forall k :: q <= k < close ==> s[k] != '<'
    ensures FindClosing(s, m, q) == Some((close, end))
    decreases close - q
  {
    if q < close {
      NoMarkerAt(s, m, q);
      ClosingIsNext(s, m, q + 1, close, end);
    }
  }

  lemma {:induction false} InlinePairIsNext(s: string, m: Marker, from: nat, i: nat, close: nat, end: nat)
    requires OnePair(s, m, i, close, end) && from <= i
    ensures InlineIfAt(s, i) == Some(Match(m, m.after, close, end)) && NextInlineIf(s, from) == Some(i)
    decreases i - from
  {
    ClosingIsNext(s, m, m.after, close, end);
    if from < i {
      NoMarkerAt(s, m, from);
      InlinePairIsNext(s, m, from + 1, i, close, end);
    }
  }

  lemma {:induction false} NoInlineIf(s: string, from: nat)
    requires from <= |s| && forall k :: from <= k < |s| ==> s[k] != '<'
    ensures NextInlineIf(s, from).None?
    decreases |s| - from
  {
    if from < |s| {
      NoMarkerAt(s, Marker(false, "", 0), from);
      NoInlineIf(s, from + 1);
    }
  }

  lemma OnePairInline(s: string, context: Context, m: Marker, i: nat, close: nat, end: nat)
    requires OnePair(s, m, i, close, end)
    ensures InlinePass(s, context, 0) ==
      s[..i] + (if Holds(context, m.key) != m.negated then Strip(s[m.after..close]) else "") + s[end..]
  {
    InlinePairIsNext(s, m, 0, i, close, end);
    NoInlineIf(s, end);
    IncludedExactlyWhen(context, m.negated, m.key);
  }

  // ---- Whole lines ----

  predicate IsBlank(c: char) { c == ' ' || c == '\t' }

  lemma NoBlanks(s: string, p: nat)
    requires p < |s| && !IsBlank(s[p])
    ensures SkipBlanks(s, p) == p
  {}

  lemma {:induction false} BlanksStop(s: string, p: nat, q: nat)
    requires p <= q < |s| && !IsBlank(s[q])
    ensures SkipBlanks(s, p) <= q && !IsBlank(s[SkipBlanks(s, p)])
    decreases q - p
  {
    if p < q && IsBlank(s[p]) { BlanksStop(s, p + 1, q); }
  }

  /** From `p` the first character that is no blank, before `q`, starts no marker. */
  lemma NoLineMarker(s: string, m: Marker, p: nat, q: nat)
    requires p < q <= |s| && s[q - 1] == '\n' && forall k :: p <= k < q ==> s[k] != '<'
    ensures LineIfAt(s, p).None? && ClosingLineAt(s, m, p).None?
  {
    BlanksStop(s, p, q - 1);
    NoMarkerAt(s, m, SkipBlanks(s, p));
  }

  lemma ClosingLineIsSeen(s: string, m: Marker, close: nat, end: nat)
    requires close < end < |s| && ClosingAt(s, m, close) == Some(end)
    requires LineStart(s, close) && s[close] == '<' && s[end] == '\n'
    ensures ClosingLineAt(s, m, close) == Some(end + 1)
  {
    NoBlanks(s, close);
    NoBlanks(s, end);
  }

  /** A search that goes up from where it starts; `at` is what it finds there. */
  ghost predicate GoesUp<T>(at: nat -> Option<T>, next: nat -> Option<T>, limit: nat) {
    forall p: nat {:trigger at(p)} :: p < limit ==> next(p) == if at(p).Some? then at(p) else next(p + 1)
  }

  lemma {:induction false} FirstIsNext<T>(at: nat -> Option<T>, next: nat -> Option<T>, limit: nat, from: nat, i: nat)
    requires GoesUp(at, next, limit) && from <= i < limit && at(i).Some?
    requires forall p: nat :: from <= p < i ==> at(p).None?
    ensures next(from) == at(i)
    decreases i - from
  {
    if from < i {
      assert at(from).None?;
      FirstIsNext(at, next, limit, from + 1, i);
    }
  }

  function ClosingLines(s: string, m: Marker): nat -> Option<(nat, nat)> {
    (q: nat) =>
      if q <= |s| && ClosingLineAt(s, m, q).Some? then Some((q, ClosingLineAt(s, m, q).value)) else None
  }

  function NextClosingLine(s: string, m: Marker): nat -> Option<(nat, nat)> {
    (q: nat) => if q <= |s| then FindClosingLine(s, m, q) else None
  }

  lemma ClosingSearchGoesUp(s: string, m: Marker)
    ensures GoesUp(ClosingLines(s, m), NextClosingLine(s, m), |s|)
  {}

  lemma ClosingLineIsNext(s: string, m: Marker, from: nat, close: nat, end: nat)
    requires from <= close < end <= |s| && ClosingLineAt(s, m, close) == Some(end) && 0 < close
    requires s[close - 1] == '\n' && forall k :: from <= k < close ==> s[k] != '<'
    ensures FindClosingLine(s, m, from) == Some((close, end))
  {
    ClosingSearchGoesUp(s, m);
    forall q: nat | from <= q < close ensures ClosingLines(s, m)(q).None? {
      NoLineMarker(s, m, q, close);
    }
    FirstIsNext(ClosingLines(s, m), NextClosingLine(s, m), |s|, from, close);
    assert NextClosingLine(s, m)(from) == FindClosingLine(s, m, from);
  }

  lemma RestOfPairIs(s: string, m: Marker, b: nat, close: Option<(nat, nat)>)
    requires m.after <= b < |s| && SkipBlanks(s, m.after) == b && s[b] == '\n'
    requires FindClosingLine(s, m, b + 1) == close && close.Some?
    ensures LineIfBehind(s, m) == Some(Match(m, b + 1, close.value.0, close.value.1))
  {}

  lemma OpeningOfLine(s: string, m: Marker, i: nat)
    requires i < |s| && LineStart(s, i) && s[i] == '<' && OpeningAt(s, i) == Some(m)
    ensures LineIfAt(s, i) == LineIfBehind(s, m)
  {
    NoBlanks(s, i);
  }

  lemma LinePairIsSeen(s: string, m: Marker, i: nat, close: nat, end: nat)
    requires i < |s| && LineStart(s, i) && s[i] == '<' && OpeningAt(s, i) == Some(m)
    requires m.after < |s| && s[m.after] == '\n' && FindClosingLine(s, m, m.after + 1) == Some((close, end))
    ensures LineIfAt(s, i) == Some(Match(m, m.after + 1, close, end))
  {
    NoBlanks(s, m.after);
    RestOfPairIs(s, m, m.after, Some((close, end)));
    OpeningOfLine(s, m, i);
  }

  lemma ClosingOfPair(s: string, m: Marker, close: nat, end: nat)
    requires m.after < close < end < |s| && ClosingAt(s, m, close) == Some(end) && s[close] == '<' && s[end] == '\n'
    requires s[close - 1] == '\n' && forall k :: m.after <= k < close ==> s[k] != '<'
    ensures FindClosingLine(s, m, m.after + 1) == Some((close, end + 1))
  {
    ClosingLineIsSeen(s, m, close, end);
    ClosingLineIsNext(s, m, m.after + 1, close, end + 1);
  }

  function PairStarts(s: string): nat -> Option<nat> {
    (p: nat) => if p <= |s| && LineIfAt(s, p).Some? then Some(p) else None
  }

  function NextStart(s: string): nat -> Option<nat> { (p: nat) => if p <= |s| then NextLineIf(s, p) else None }

  lemma NextStartIsNext(s: string, p: nat)
    requires p < |s|
    ensures NextStart(s)(p) == if PairStarts(s)(p).Some? then Some(p) else NextStart(s)(p + 1)
  {}

  lemma SearchGoesUp(s: string)
    ensures GoesUp(PairStarts(s), NextStart(s), |s|)
  {
    forall p: nat | p < |s|
      ensures NextStart(s)(p) == if PairStarts(s)(p).Some? then PairStarts(s)(p) else NextStart(s)(p + 1)
    {
      NextStartIsNext(s, p);
    }
  }

  lemma NoPairBefore(s: string, i: nat, p: nat)
    requires p < i < |s| && LineStart(s, i) && forall k :: 0 <= k < i ==> s[k] != '<'
    ensures PairStarts(s)(p).None?
  {
    NoLineMarker(s, Marker(false, "", 0), p, i);
  }

  lemma PairIsNext(s: string, i: nat)
    requires i < |s| && LineStart(s, i) && PairStarts(s)(i) == Some(i) && forall k :: 0 <= k < i ==> s[k] != '<'
    ensures NextStart(s)(0) == Some(i)
  {
    SearchGoesUp(s);
    forall p: nat | p < i ensures PairStarts(s)(p).None? {
      NoPairBefore(s, i, p);
    }
    FirstIsNext(PairStarts(s), NextStart(s), |s|, 0, i);
  }

  lemma LinePairIsNext(s: string, i: nat)
    requires i < |s| && LineStart(s, i) && LineIfAt(s, i).Some? && forall k :: 0 <= k < i ==> s[k] != '<'
    ensures NextLineIf(s, 0) == Some(i)
  {
    PairIsNext(s, i);
  }

  lemma NoLineIfFrom(s: string, from: nat)
    requires from <= |s| && forall k :: from <= k < |s| ==> s[k] != '<'
    ensures NextLineIf(s, from).None?
  {
    forall p | from <= p <= |s| ensures LineIfAt(s, p).None? {
      NoMarkerAt(s, Marker(false, "", 0), SkipBlanks(s, p));
    }
  }

  /** The only pair the line pass finds. */
  predicate OnlyPair(s: string, i: nat, found: Match) {
    && i <= |s| && found.end <= |s|
    && NextLineIf(s, 0) == Some(i) && LineIfAt(s, i) == Some(found) && NextLineIf(s, found.end) == None
  }

  lemma OnlyPairIsResolved(s: string, context: Context, i: nat, found: Match)
    requires OnlyPair(s, i, found) && i < found.content <= found.contentEnd <= found.end
    ensures LinePass(s, context, 0) ==
      s[..i] +
      (if Holds(context, found.marker.key) != found.marker.negated then s[found.content..found.contentEnd] else "") +
      s[found.end..]
  {
    IncludedExactlyWhen(context, found.marker.negated, found.marker.key);
  }

  lemma PairOnLines(s: string, m: Marker, i: nat, close: nat, end: nat)
    requires i < m.after < close < end < |s| && OpeningAt(s, i) == Some(m) && ClosingAt(s, m, close) == Some(end)
    requires LineStart(s, i) && s[i] == '<' && s[close] == '<' && s[m.after] == s[close - 1] == s[end] == '\n'
    requires forall k :: m.after <= k < close ==> s[k] != '<'
    ensures LineIfAt(s, i) == Some(Match(m, m.after + 1, close, end + 1))
  {
    assert FindClosingLine(s, m, m.after + 1) == Some((close, end + 1)) by {
      ClosingOfPair(s, m, close, end);
    }
    LinePairIsSeen(s, m, i, close, end + 1);
  }

  /** A pair at `i` and no brackets before it or behind it. */
  lemma PairIsAlone(s: string, i: nat, found: Match)
    requires i < |s| && LineStart(s, i) && LineIfAt(s, i) == Some(found) && found.end <= |s|
    requires forall k :: 0 <= k < i || found.end <= k < |s| ==> s[k] != '<'
    ensures OnlyPair(s, i, found)
  {
    LinePairIsNext(s, i);
    NoLineIfFrom(s, found.end);
  }

  lemma NoLineIfIsFixpoint(s: string, context: Context)
    requires NoLineIf(s)
    ensures LineFixpoint(s, context) == s
  {
    PassShrinksExactlyWhenAPairIsThere(s, context);
  }

  lemma OnePassIsEnough(s: string, u: string, context: Context)
    requires LinePass(s, context, 0) == u && Plain(u)
    ensures InlinePass(LineFixpoint(s, context), context, 0) == u
  {
    PlainTextIsKept(u, context);
    PassShrinksExactlyWhenAPairIsThere(s, context);
  }

  /** A text without markers is rendered as it is. */
  lemma PlainTextIsKept(s: string, context: Context)
    requires Plain(s)
    ensures LineFixpoint(s, context) == s && InlinePass(s, context, 0) == s
  {
    NoLineIfFrom(s, 0);
    NoLineIfIsFixpoint(s, context);
    NoInlineIf(s, 0);
    assert s[0..] == s;
  }

  // ---- Texts ----

  predicate WholeLines(s: string) { s == "" || s[|s| - 1] == '\n' }

  /** Where the parts of a template with one pair lie. */
  lemma PairIsLaid(s: string, pre: string, negated: bool, key: string, body: string, post: string)
    returns (m: Marker, close: nat, end: nat)
    requires s == pre + Opening(negated, key) + body + Closing(negated, key) + post
    requires IsKey(key) && Plain(pre) && Plain(body) && Plain(post)
    ensures m.negated == negated && m.key == key && OnePair(s, m, |pre|, close, end)
    ensures s[..|pre|] == pre && s[m.after..close] == body && s[end..] == post
  {
    var open, shut := Opening(negated, key), Closing(negated, key);
    m := Marker(negated, key, |pre| + |open|);
    close := m.after + |body|;
    end := close + |shut|;
    FivePartsLie(s, pre, open, body, shut, post, m.after, close, end);
    OpeningIsSeen(s, negated, key, |pre|, m.after);
    ClosingIsSeen(s, m, close, end);
    OneBracketEach(negated, key);
    BracketsLie(s, pre, open, body, shut, post);
  }

  lemma FivePartsLie(s: string, a: string, b: string, c: string, d: string, e: string, x: nat, y: nat, z: nat)
    requires s == a + b + c + d + e && x == |a| + |b| && y == x + |c| && z == y + |d|
    ensures s[..|a|] == a && OccursAt(s, b, |a|) && s[x..y] == c && OccursAt(s, d, y) && s[z..] == e
  {}

  /** A text with a bracket in front, and no other. */
  predicate Tagged(s: string) { s != "" && s[0] == '<' && Plain(s[1..]) }

  lemma OneBracketEach(negated: bool, key: string)
    requires IsKey(key)
    ensures Tagged(Opening(negated, key)) && Tagged(Closing(negated, key))
  {
    assert forall i :: 0 <= i < |key| ==> key[i] != '<';
  }

  lemma BracketsLie(s: string, a: string, b: string, c: string, d: string, e: string)
    requires s == a + b + c + d + e && Plain(a) && Tagged(b) && Plain(c) && Tagged(d) && Plain(e)
    ensures Bracketed(s, |a|, |a| + |b| + |c|)
  {
    assert b == ['<'] + b[1..] && d == ['<'] + d[1..];
  }

  /** A pair within a line is replaced by its stripped section if the condition holds (does not hold, for
      `NOT_IF`), else by nothing; the text around it stays. */
  lemma AnInlinePairIsResolved(context: Context, pre: string, negated: bool, key: string, body: string, post: string)
    requires IsKey(key) && Plain(pre) && Plain(body) && Plain(post)
    ensures InlinePass(pre + Opening(negated, key) + body + Closing(negated, key) + post, context, 0) ==
      pre + (if Holds(context, key) != negated then Strip(body) else "") + post
  {
    var s := pre + Opening(negated, key) + body + Closing(negated, key) + post;
    var m, close, end := PairIsLaid(s, pre, negated, key, body, post);
    OnePairInline(s, context, m, |pre|, close, end);
  }

  /** A pair on lines of its own goes with its lines, and so does what is between unless the condition
      holds (does not hold, for `NOT_IF`); then it stays as it is. This is the whole rendering. */
  lemma ALinePairIsRendered(s: string, context: Context, pre: string, negated: bool, key: string, body: string,
                            post: string)
    requires s == pre + Opening(negated, key) + ("\n" + body) + Closing(negated, key) + ("\n" + post)
    requires IsKey(key) && Plain(pre) && Plain(body) && Plain(post) && WholeLines(pre) && WholeLines(body)
    ensures InlinePass(LineFixpoint(s, context), context, 0) ==
      pre + (if Holds(context, key) != negated then body else "") + post
  {
    var m, close, end := PairIsLaid(s, pre, negated, key, "\n" + body, "\n" + post);
    LaidPairIsRendered(s, context, pre, body, post, m, close, end);
  }

  lemma LaidPairIsRendered(s: string, context: Context, pre: string, body: string, post: string, m: Marker,
                           close: nat, end: nat)
    requires OnePair(s, m, |pre|, close, end) && s[..|pre|] == pre && s[m.after..close] == "\n" + body
    requires s[end..] == "\n" + post && Plain(pre) && Plain(body) && Plain(post) && WholeLines(pre) && WholeLines(body)
    ensures InlinePass(LineFixpoint(s, context), context, 0) ==
      pre + (if Holds(context, m.key) != m.negated then body else "") + post
  {
    var found := Match(m, m.after + 1, close, end + 1);
    assert LineIfAt(s, |pre|) == Some(found) && LineStart(s, |pre|) by {
      LinesAreWhole(s, pre, body, post, m.after, close, end);
      PairOnLines(s, m, |pre|, close, end);
    }
    LinesAreWhole(s, pre, body, post, m.after, close, end);
    OneLinePairIsRendered(s, context, pre, body, post, found);
  }

  lemma OneLinePairIsRendered(s: string, context: Context, pre: string, body: string, post: string, found: Match)
    requires |pre| < |s| && LineStart(s, |pre|) && LineIfAt(s, |pre|) == Some(found)
    requires |pre| < found.content <= found.contentEnd <= found.end <= |s|
    requires s[..|pre|] == pre && s[found.content..found.contentEnd] == body && s[found.end..] == post
    requires Plain(pre) && Plain(body) && Plain(post)
    requires forall k :: 0 <= k < |pre| || found.end <= k < |s| ==> s[k] != '<'
    ensures InlinePass(LineFixpoint(s, context), context, 0) ==
      pre + (if Holds(context, found.marker.key) != found.marker.negated then body else "") + post
  {
    PairIsAlone(s, |pre|, found);
    OnlyPairIsResolved(s, context, |pre|, found);
    OnePassIsEnough(s, LinePass(s, context, 0), context);
  }

  lemma LinesAreWhole(s: string, pre: string, body: string, post: string, after: nat, close: nat, end: nat)
    requires WholeLines(pre) && WholeLines(body) && |pre| <= after <= close <= end <= |s|
    requires s[..|pre|] == pre && s[after..close] == "\n" + body && s[end..] == "\n" + post
    ensures LineStart(s, |pre|) && after < close && s[after] == '\n' && LineStart(s, close)
    ensures end < |s| && s[end] == '\n' && s[after + 1..close] == body && s[end + 1..] == post
  {
    if pre != "" { assert s[|pre| - 1] == pre[|pre| - 1]; }
    assert s[after] == s[after..close][0] && s[end] == s[end..][0];
    assert s[close - 1] == s[after..close][|body|];
    assert s[after + 1..close] == s[after..close][1..] && s[end + 1..] == s[end..][1..];
  }

  predicate EndsInText(s: string) { s != "" && s[|s| - 1] !in {' ', '\t', '\n'} }

  predicate StartsWithText(s: string) { s != "" && s[0] !in {' ', '\t', '\n'} }

  /** Text before either marker on its line, or behind the closing one, keeps the line pass away from the pair. */
  lemma AnInlinePairIsRendered(context: Context, pre: string, negated: bool, key: string, body: string, post: string)
    requires IsKey(key) && Plain(pre) && Plain(body) && Plain(post)
    requires EndsInText(pre) || EndsInText(body) || StartsWithText(post)
    ensures var s := pre + Opening(negated, key) + body + Closing(negated, key) + post;
      InlinePass(LineFixpoint(s, context), context, 0) ==
        pre + (if Holds(context, key) != negated then Strip(body) else "") + post
  {
    var s := pre + Opening(negated, key) + body + Closing(negated, key) + post;
    assert NoLineIf(s) by {
      NoPairOnLines(s, pre, negated, key, body, post);
    }
    NoLineIfIsFixpoint(s, context);
    AnInlinePairIsResolved(context, pre, negated, key, body, post);
  }

  lemma NoPairOnLines(s: string, pre: string, negated: bool, key: string, body: string, post: string)
    requires s == pre + Opening(negated, key) + body + Closing(negated, key) + post
    requires IsKey(key) && Plain(pre) && Plain(body) && Plain(post)
    requires EndsInText(pre) || EndsInText(body) || StartsWithText(post)
    ensures NoLineIf(s)
  {
    var m, close, end := PairIsLaid(s, pre, negated, key, body, post);
    OpeningIsNoClosing(s, m, |pre|);
    TextAtTheEdges(s, pre, body, post, m.after, close, end);
    NoPairAnywhere(s, m, |pre|, close, end);
  }

  lemma TextAtTheEdges(s: string, pre: string, body: string, post: string, after: nat, close: nat, end: nat)
    requires |pre| <= after <= close <= end <= |s| && s[..|pre|] == pre && s[after..close] == body && s[end..] == post
    requires EndsInText(pre) || EndsInText(body) || StartsWithText(post)
    ensures Visible(s, |pre| - 1) || Visible(s, close - 1) || Visible(s, end)
  {
    if EndsInText(pre) {
      assert s[|pre| - 1] == pre[|pre| - 1];
    } else if EndsInText(body) {
      assert s[close - 1] == s[after..close][|body| - 1];
    } else {
      assert s[end] == s[end..][0];
    }
  }

  lemma NoPairAnywhere(s: string, m: Marker, i: nat, close: nat, end: nat)
    requires OnePair(s, m, i, close, end) && ClosingAt(s, m, i).None?
    requires Visible(s, i - 1) || Visible(s, close - 1) || Visible(s, end)
    ensures NoLineIf(s)
  {
    forall p | 0 <= p <= |s| ensures LineIfAt(s, p).None? {
      NotOnALine(s, m, i, close, end, p);
    }
  }

  predicate Visible(s: string, i: int) { 0 <= i < |s| && !IsBlank(s[i]) && s[i] != '\n' }

  lemma OpeningIsNoClosing(s: string, m: Marker, i: nat)
    requires OpeningAt(s, i) == Some(m)
    ensures ClosingAt(s, m, i).None?
  {
    var j := SkipSpaces(s, i + 4);
    if OccursAt(s, EndWord(m), j) {
      CharAt(s, EndWord(m), j, 0);
      if m.negated { CharAt(s, "NOT_IF:", j, 0); } else { CharAt(s, "IF:", j, 0); }
    }
  }

  lemma {:induction false} BlanksAreSkipped(s: string, p: nat)
    requires p <= |s|
    ensures forall k :: p <= k < SkipBlanks(s, p) ==> IsBlank(s[k])
    decreases |s| - p
  {
    if p < |s| && IsBlank(s[p]) { BlanksAreSkipped(s, p + 1); }
  }

  /** No line holds the closing marker only. */
  lemma NoClosingLineAt(s: string, m: Marker, i: nat, close: nat, end: nat, q: nat)
    requires Bracketed(s, i, close) && ClosingAt(s, m, i).None? && ClosingAt(s, m, close) == Some(end)
    requires (0 < close && Visible(s, close - 1)) || (end < |s| && Visible(s, end))
    requires q <= |s|
    ensures ClosingLineAt(s, m, q).None?
  {
    var j := SkipBlanks(s, q);
    BlanksAreSkipped(s, q);
    if j != i && j != close { NoMarkerAt(s, m, j); }
    if end < |s| && Visible(s, end) { NoBlanks(s, end); }
  }

  lemma {:induction false} NoClosingLineFrom(s: string, m: Marker, q: nat)
    requires q <= |s| && forall p :: q <= p <= |s| ==> ClosingLineAt(s, m, p).None?
    ensures FindClosingLine(s, m, q).None?
    decreases |s| - q
  {
    if q < |s| { NoClosingLineFrom(s, m, q + 1); }
  }

  lemma NoPairBehind(s: string, m: Marker)
    requires m.after <= |s| && forall p :: 0 <= p <= |s| ==> ClosingLineAt(s, m, p).None?
    ensures LineIfBehind(s, m).None?
  {
    var b := SkipBlanks(s, m.after);
    if b < |s| { NoClosingLineFrom(s, m, b + 1); }
  }

  lemma NotOnALine(s: string, m: Marker, i: nat, close: nat, end: nat, p: nat)
    requires OnePair(s, m, i, close, end) && ClosingAt(s, m, i).None? && p <= |s|
    requires (0 < i && Visible(s, i - 1)) || (0 < close && Visible(s, close - 1)) || (end < |s| && Visible(s, end))
    ensures LineIfAt(s, p).None?
  {
    var j := SkipBlanks(s, p);
    BlanksAreSkipped(s, p);
    if j != i && j != close {
      NoMarkerAt(s, m, j);
    } else if j == i && !(0 < i && Visible(s, i - 1)) {
      forall q | 0 <= q <= |s| ensures ClosingLineAt(s, m, q).None? {
        NoClosingLineAt(s, m, i, close, end, q);
      }
      NoPairBehind(s, m);
    }
  }
}
