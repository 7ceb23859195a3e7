/** Conditional sections of a prompt template: whole-line pairs resolved until none is left, then
    one pass over inline pairs. */
module PromptConditionals {
  import opened Options
  import opened PromptParsing
  import opened Text

  const TRUE_STRINGS := {"1", "true", "yes", "on"}
  const FALSE_STRINGS := {"0", "false", "no", "off", ""}

  /** A value of the context; of other objects only the truth value counts. */
  datatype Value = Flag(b: bool) | Missing | Words(text: string) | Other(truthy: bool)

  type Context = map<string, Value>

  /** `_resolve_condition_value`. */
  function Truth(v: Value): bool {
    match v
    case Flag(b) => b
    case Missing => false
    case Words(text) =>
      var normalized := Lower(Strip(text));
      if normalized in TRUE_STRINGS then true else if normalized in FALSE_STRINGS then false else text != ""
    case Other(truthy) => truthy
  }

  function Lookup(context: Context, key: string): Value { if key in context then context[key] else Missing }

  predicate Included(context: Context, negated: bool, key: string) { Truth(Lookup(context, key)) != negated }

  // ---- Markers ----

  function SkipBlanks(s: string, i: nat): (e: nat)
    requires i <= |s|
    ensures i <= e <= |s|
    decreases |s| - i
  {
    if i < |s| && s[i] in {' ', '\t'} then SkipBlanks(s, i + 1) else i
  }

  predicate KeyChar(c: char) { NameStart(c) || '0' <= c <= '9' }

  function KeyEnd(s: string, i: nat): (e: nat)
    requires i <= |s|
    ensures i <= e <= |s|
    decreases |s| - i
  {
    if i < |s| && KeyChar(s[i]) then KeyEnd(s, i + 1) else i
  }

  /** Past the `-->` that closes a comment whose text ends at `i`. */
  function CommentEnd(s: string, i: nat): (r: Option<nat>)
    requires i <= |s|
    ensures r.Some? ==> i < r.value <= |s|
  {
    var j := SkipSpaces(s, i);
    if OccursAt(s, "-->", j) then Some(j + 3) else None
  }

  datatype Marker = Marker(negated: bool, key: string, after: nat)

  function MarkerKey(s: string, negated: bool, i: nat): (r: Option<Marker>)
    ensures r.Some? ==> i < r.value.after <= |s|
  {
    if i < |s| && NameStart(s[i]) then
      var e := KeyEnd(s, i + 1);
      var after := CommentEnd(s, e);
      if after.Some? then Some(Marker(negated, s[i..e], after.value)) else None
    else None
  }

  /** `<!-- IF:key -->` or `<!-- NOT_IF:key -->` at `i`. */
  function OpeningAt(s: string, i: nat): (r: Option<Marker>)
    ensures r.Some? ==> i < r.value.after <= |s|
  {
    if !OccursAt(s, "<!--", i) then None
    else
      var j := SkipSpaces(s, i + 4);
      if OccursAt(s, "NOT_IF:", j) then MarkerKey(s, true, j + 7)
      else if OccursAt(s, "IF:", j) then MarkerKey(s, false, j + 3) else None
  }

  function EndWord(m: Marker): string { (if m.negated then "ENDNOT_IF:" else "ENDIF:") + m.key }

  /** Past the closing marker of `m` at `i`. */
  function ClosingAt(s: string, m: Marker, i: nat): (r: Option<nat>)
    ensures r.Some? ==> i < r.value <= |s|
  {
    if !OccursAt(s, "<!--", i) then None
    else
      var j := SkipSpaces(s, i + 4);
      if OccursAt(s, EndWord(m), j) then CommentEnd(s, j + |EndWord(m)|) else None
  }

  // ---- Whole-line pairs ----

  /** A match from its first to its last character, with the section `content .. contentEnd` in it. */
  datatype Match = Match(marker: Marker, content: nat, contentEnd: nat, end: nat)

  /** A line that holds the closing marker only, at `q`. */
  function ClosingLineAt(s: string, m: Marker, q: nat): (r: Option<nat>)
    requires q <= |s|
    ensures r.Some? ==> q < r.value <= |s|
  {
    if !LineStart(s, q) then None
    else
      var after := ClosingAt(s, m, SkipBlanks(s, q));
      if after.None? then None
      else
        var b := SkipBlanks(s, after.value);
        if b == |s| then Some(b) else if s[b] == '\n' then Some(b + 1) else None
  }

  /** The first closing line from `q` on: where it starts and ends. */
  function FindClosingLine(s: string, m: Marker, q: nat): (r: Option<(nat, nat)>)
    requires q <= |s|
    ensures r.Some? ==> q <= r.value.0 < r.value.1 <= |s|
    decreases |s| - q
  {
    if ClosingLineAt(s, m, q).Some? then Some((q, ClosingLineAt(s, m, q).value))
    else if q == |s| then None
    else FindClosingLine(s, m, q + 1)
  }

  /** The rest of a whole-line pair, behind its opening marker. */
  function LineIfBehind(s: string, m: Marker): (r: Option<Match>)
    requires m.after <= |s|
    ensures r.Some? ==> m.after < r.value.content <= r.value.contentEnd < r.value.end <= |s|
  {
    var b := SkipBlanks(s, m.after);
    if b == |s| || s[b] != '\n' then None
    else
      var close := FindClosingLine(s, m, b + 1);
      if close.None? then None else Some(Match(m, b + 1, close.value.0, close.value.1))
  }

  /** `LINE_IF_PATTERN` at `p`. */
  function LineIfAt(s: string, p: nat): (r: Option<Match>)
    requires p <= |s|
    ensures r.Some? ==> p < r.value.content <= r.value.contentEnd < r.value.end <= |s|
  {
    if !LineStart(s, p) then None
    else
      var m := OpeningAt(s, SkipBlanks(s, p));
      if m.None? then None else LineIfBehind(s, m.value)
  }

  predicate Within(m: Match, s: string) { m.content <= m.contentEnd <= m.end <= |s| }

  /** The section of a match, if its condition includes it. */
  function Section(s: string, context: Context, m: Match): (r: string)
    requires Within(m, s)
    ensures |r| <= m.contentEnd - m.content
  {
    if Included(context, m.marker.negated, m.marker.key) then s[m.content..m.contentEnd] else ""
  }

  function NextLineIf(s: string, from: nat): (r: Option<nat>)
    requires from <= |s|
    ensures r.Some? ==> from <= r.value <= |s| && LineIfAt(s, r.value).Some?
    ensures r.None? ==> forall p :: from <= p <= |s| ==> LineIfAt(s, p).None?
    decreases |s| - from
  {
    var here := LineIfAt(s, from);
    if here.Some? then Some(from) else if from == |s| then None else NextLineIf(s, from + 1)
  }

  /** `LINE_IF_PATTERN.sub` from `from` on. */
  function LinePass(s: string, context: Context, from: nat): string
    requires from <= |s|
    decreases |s| - from
  {
    var p := NextLineIf(s, from);
    if p.None? then s[from..]
    else
      var m := LineIfAt(s, p.value).value;
      s[from..p.value] + Section(s, context, m) + LinePass(s, context, m.end)
  }

  // ---- Inline pairs ----

  function FindClosing(s: string, m: Marker, q: nat): (r: Option<(nat, nat)>)
    ensures r.Some? ==> q <= r.value.0 < r.value.1 <= |s|
    decreases |s| - q
  {
    if ClosingAt(s, m, q).Some? then Some((q, ClosingAt(s, m, q).value))
    else if q >= |s| then None
    else FindClosing(s, m, q + 1)
  }

  /** `IF_PATTERN` at `p`. */
  function InlineIfAt(s: string, p: nat): (r: Option<Match>)
    ensures r.Some? ==> p < r.value.content <= r.value.contentEnd < r.value.end <= |s|
  {
    var m := OpeningAt(s, p);
    if m.None? then None
    else
      var close := FindClosing(s, m.value, m.value.after);
      if close.None? then None else Some(Match(m.value, m.value.after, close.value.0, close.value.1))
  }

  function NextInlineIf(s: string, from: nat): (r: Option<nat>)
    ensures r.Some? ==> from <= r.value < |s| && InlineIfAt(s, r.value).Some?
    decreases |s| - from
  {
    if from >= |s| then None
    else if InlineIfAt(s, from).Some? then Some(from)
    else NextInlineIf(s, from + 1)
  }

  /** `IF_PATTERN.sub` from `from` on. */
  function InlinePass(s: string, context: Context, from: nat): string
    requires from <= |s|
    decreases |s| - from
  {
    var p := NextInlineIf(s, from);
    if p.None? then s[from..]
    else
      var m := InlineIfAt(s, p.value).value;
      s[from..p.value] + Strip(Section(s, context, m)) + InlinePass(s, context, m.end)
  }

  // ---- The loop ----

  /** No whole-line pair is left. */
  predicate NoLineIf(s: string) { forall p :: 0 <= p <= |s| ==> LineIfAt(s, p).None? }

  lemma {:induction false} PassDoesNotGrow(s: string, context: Context, from: nat)
    requires from <= |s|
    ensures |LinePass(s, context, from)| <= |s| - from
    ensures NextLineIf(s, from).Some? ==> |LinePass(s, context, from)| < |s| - from
    ensures NextLineIf(s, from).None? ==> LinePass(s, context, from) == s[from..]
    decreases |s| - from
  {
    var p := NextLineIf(s, from);
    if p.Some? { PassDoesNotGrow(s, context, LineIfAt(s, p.value).value.end); }
  }

  /** A pass leaves the text as it is exactly when no whole-line pair is in it; else it gets shorter. */
  lemma PassShrinksExactlyWhenAPairIsThere(s: string, context: Context)
    ensures LinePass(s, context, 0) == s <==> NoLineIf(s)
    ensures !NoLineIf(s) ==> |LinePass(s, context, 0)| < |s|
  {
    PassDoesNotGrow(s, context, 0);
    assert s[0..] == s;
    if NextLineIf(s, 0).Some? {
      assert LineIfAt(s, NextLineIf(s, 0).value).Some?;
    }
  }

  /** The text at which the loop stops. */
  function LineFixpoint(s: string, context: Context): string
    decreases |s|
  {
    PassShrinksExactlyWhenAPairIsThere(s, context);
    if LinePass(s, context, 0) == s then s else LineFixpoint(LinePass(s, context, 0), context)
  }

  /** `resolve_conditionals`. */
  method ResolveConditionals(template: string, context: Context) returns (rendered: string)
    ensures rendered == InlinePass(LineFixpoint(template, context), context, 0)
    ensures NoLineIf(LineFixpoint(template, context))
  {
    rendered := template;
    while true
      invariant LineFixpoint(rendered, context) == LineFixpoint(template, context)
      decreases |rendered|
    {
      PassShrinksExactlyWhenAPairIsThere(rendered, context);
      var updated := LinePass(rendered, context, 0);
      if updated == rendered {
        break;
      }
      rendered := updated;
    }
    rendered := InlinePass(rendered, context, 0);
  }

  lemma {:induction false} FixpointHasNoLineIf(s: string, context: Context)
    ensures NoLineIf(LineFixpoint(s, context)) && |LineFixpoint(s, context)| <= |s|
    decreases |s|
  {
    PassShrinksExactlyWhenAPairIsThere(s, context);
    if LinePass(s, context, 0) != s { FixpointHasNoLineIf(LinePass(s, context, 0), context); }
  }

  // ---- Passes only delete ----

  /** `a` is `b` with characters left out: `at` says where each character of `a` comes from. */
  predicate PickedFrom(a: string, b: string, at: seq<nat>) {
    && |at| == |a|
    && (forall i :: 0 <= i < |at| ==> at[i] < |b| && a[i] == b[at[i]])
    && forall i, j :: 0 <= i < j < |at| ==> at[i] < at[j]
  }

  /** Positions of the characters a pass keeps. */
  function Kept(s: string, context: Context, from: nat): (at: seq<nat>)
    requires from <= |s|
    decreases |s| - from
  {
    var p := NextLineIf(s, from);
    if p.None? then Range(from, |s|)
    else
      var m := LineIfAt(s, p.value).value;
      Range(from, p.value) +
      (if Included(context, m.marker.negated, m.marker.key) then Range(m.content, m.contentEnd) else []) +
      Kept(s, context, m.end)
  }

  function Range(a: nat, b: nat): (r: seq<nat>)
    requires a <= b
    ensures |r| == b - a && forall i :: 0 <= i < |r| ==> r[i] == a + i
  {
    seq(b - a, i requires 0 <= i < b - a => a + i)
  }

  /** Positions in `lo .. hi`, ascending, with the characters of `a` there. */
  predicate Picks(a: string, s: string, at: seq<nat>, lo: nat, hi: nat) {
    PickedFrom(a, s, at) && forall i :: 0 <= i < |at| ==> lo <= at[i] < hi
  }

  lemma RangePicks(s: string, a: nat, b: nat)
    requires a <= b <= |s|
    ensures Picks(s[a..b], s, Range(a, b), a, b)
  {}

  lemma PicksJoin(a: string, b: string, s: string, x: seq<nat>, y: seq<nat>, lo: nat, mid: nat, hi: nat)
    requires Picks(a, s, x, lo, mid) && Picks(b, s, y, mid, hi) && lo <= mid <= hi
    ensures Picks(a + b, s, x + y, lo, hi)
  {}

  lemma {:induction false} PassPicks(s: string, context: Context, from: nat)
    requires from <= |s|
    ensures Picks(LinePass(s, context, from), s, Kept(s, context, from), from, |s|)
    decreases |s| - from
  {
    var p := NextLineIf(s, from);
    if p.None? {
      RangePicks(s, from, |s|);
      assert s[from..|s|] == s[from..];
    } else {
      var m := LineIfAt(s, p.value).value;
      var kept := Included(context, m.marker.negated, m.marker.key);
      var text, at := Section(s, context, m), if kept then Range(m.content, m.contentEnd) else [];
      RangePicks(s, from, p.value);
      RangePicks(s, m.content, m.contentEnd);
      assert Picks(text, s, at, p.value, m.end);
      PassPicks(s, context, m.end);
      PicksJoin(s[from..p.value], text, s, Range(from, p.value), at, from, p.value, m.end);
      PicksJoin(s[from..p.value] + text, LinePass(s, context, m.end), s,
                Range(from, p.value) + at, Kept(s, context, m.end), from, m.end, |s|);
    }
  }

  /** Resolving whole-line pairs adds and reorders nothing: what comes out is the template with
      characters left out. */
  lemma {:induction false} LineConditionalsOnlyDelete(s: string, context: Context) returns (at: seq<nat>)
    ensures PickedFrom(LineFixpoint(s, context), s, at)
    decreases |s|
  {
    PassShrinksExactlyWhenAPairIsThere(s, context);
    var once := LinePass(s, context, 0);
    if once == s {
      RangePicks(s, 0, |s|);
      assert s[0..|s|] == s;
      at := Range(0, |s|);
    } else {
      PassPicks(s, context, 0);
      var inner := LineConditionalsOnlyDelete(once, context);
      at := PicksCompose(LineFixpoint(once, context), once, s, inner, Kept(s, context, 0));
    }
  }

  lemma PicksCompose(a: string, b: string, c: string, inner: seq<nat>, outer: seq<nat>) returns (at: seq<nat>)
    requires PickedFrom(a, b, inner) && PickedFrom(b, c, outer)
    ensures PickedFrom(a, c, at)
  {
    at := seq(|inner|, i requires 0 <= i < |inner| && inner[i] < |outer| => outer[inner[i]]);
  }

  // ---- ... and so does the inline pass ----

  lemma {:induction false} LeftIsSlice(s: string) returns (a: nat)
    ensures a <= |s| && StripLeft(s) == s[a..]
    decreases |s|
  {
    a := 0;
    if s != "" && IsSpace(s[0]) {
      a := LeftIsSlice(s[1..]);
      a := a + 1;
    }
  }

  lemma {:induction false} RightIsSlice(s: string) returns (b: nat)
    ensures b <= |s| && StripRight(s) == s[..b]
    decreases |s|
  {
    b := |s|;
    if s != "" && IsSpace(s[|s| - 1]) { b := RightIsSlice(s[..|s| - 1]); }
  }

  lemma StripIsSlice(s: string) returns (a: nat, b: nat)
    ensures a <= b <= |s| && Strip(s) == s[a..b]
  {
    a := LeftIsSlice(s);
    b := RightIsSlice(s[a..]);
    b := a + b;
  }

  lemma SliceOfSlice(s: string, lo: nat, hi: nat, a: nat, b: nat)
    requires lo <= hi <= |s| && a <= b <= hi - lo
    ensures s[lo..hi][a..b] == s[lo + a..lo + b]
  {
    assert forall i :: 0 <= i < b - a ==> s[lo..hi][a..b][i] == s[lo + a + i];
  }

  /** What is left of a section, stripped, is in its place in the text. */
  lemma SectionPicks(s: string, context: Context, m: Match) returns (at: seq<nat>)
    requires Within(m, s)
    ensures Picks(Strip(Section(s, context, m)), s, at, m.content, m.contentEnd)
  {
    var text := Section(s, context, m);
    var a, b := StripIsSlice(text);
    at := [];
    if Included(context, m.marker.negated, m.marker.key) {
      at := Range(m.content + a, m.content + b);
      SliceOfSlice(s, m.content, m.contentEnd, a, b);
      RangePicks(s, m.content + a, m.content + b);
    }
  }

  lemma {:induction false} InlinePassPicks(s: string, context: Context, from: nat) returns (at: seq<nat>)
    requires from <= |s|
    ensures Picks(InlinePass(s, context, from), s, at, from, |s|)
    decreases |s| - from
  {
    var p := NextInlineIf(s, from);
    if p.None? {
      at := Range(from, |s|);
      RangePicks(s, from, |s|);
      assert s[from..|s|] == s[from..];
    } else {
      var m := InlineIfAt(s, p.value).value;
      var text := Strip(Section(s, context, m));
      var inner := SectionPicks(s, context, m);
      RangePicks(s, from, p.value);
      assert Picks(text, s, inner, p.value, m.end);
      var rest := InlinePassPicks(s, context, m.end);
      PicksJoin(s[from..p.value], text, s, Range(from, p.value), inner, from, p.value, m.end);
      PicksJoin(s[from..p.value] + text, InlinePass(s, context, m.end), s,
                Range(from, p.value) + inner, rest, from, m.end, |s|);
      at := Range(from, p.value) + inner + rest;
    }
  }

  /** Resolving conditionals, whole lines and inline, adds and reorders nothing: what is rendered is the
      template with characters left out. */
  lemma ConditionalsOnlyDelete(template: string, context: Context) returns (at: seq<nat>)
    ensures PickedFrom(InlinePass(LineFixpoint(template, context), context, 0), template, at)
  {
    var outer := LineConditionalsOnlyDelete(template, context);
    var fixpoint := LineFixpoint(template, context);
    var inner := InlinePassPicks(fixpoint, context, 0);
    at := PicksCompose(InlinePass(fixpoint, context, 0), fixpoint, template, inner, outer);
  }

  /** A word is false exactly when it says so, in any case and with any space around it. */
  lemma WordsAreFalseExactlyWhen(text: string)
    ensures Truth(Words(text)) <==> Lower(Strip(text)) !in FALSE_STRINGS
  {
    if text == "" {
      assert Strip(text) == "" && Lower("") == "";
    }
  }
}
