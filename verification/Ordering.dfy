/** Python's order on strings and on (namespace, key) pairs, and sorted listings of sets. */
module Ordering {

  predicate Less(a: string, b: string) {
    b != "" && (a == "" || a[0] < b[0] || (a[0] == b[0] && Less(a[1..], b[1..])))
  }

  lemma {:induction false} LessIrreflexive(a: string)
    ensures !Less(a, a)
  {
    if a != "" { LessIrreflexive(a[1..]); }
  }

  lemma {:induction false} LessTransitive(a: string, b: string, c: string)
    requires Less(a, b) && Less(b, c)
    ensures Less(a, c)
  {
    if a != "" && a[0] == b[0] && b[0] == c[0] { LessTransitive(a[1..], b[1..], c[1..]); }
  }

  lemma {:induction false} LessTotal(a: string, b: string)
    ensures a == b || Less(a, b) || Less(b, a)
  {
    if a != "" && b != "" && a[0] == b[0] {
      LessTotal(a[1..], b[1..]);
      if a[1..] == b[1..] { assert a == [a[0]] + a[1..] == b; }
    }
  }

  predicate PairLess(p: (string, string), q: (string, string)) {
    Less(p.0, q.0) || (p.0 == q.0 && Less(p.1, q.1))
  }

  lemma PairLessIrreflexive(p: (string, string))
    ensures !PairLess(p, p)
  {
    LessIrreflexive(p.0);
    LessIrreflexive(p.1);
  }

  lemma PairLessTransitive(p: (string, string), q: (string, string), r: (string, string))
    requires PairLess(p, q) && PairLess(q, r)
    ensures PairLess(p, r)
  {
    if Less(p.0, q.0) && Less(q.0, r.0) { LessTransitive(p.0, q.0, r.0); }
    LessIrreflexive(p.0);
    if p.0 == q.0 && q.0 == r.0 { LessTransitive(p.1, q.1, r.1); }
  }

  predicate Increasing(xs: seq<string>) { forall i, j :: 0 <= i < j < |xs| ==> Less(xs[i], xs[j]) }

  /** `sorted(names)`. */
  method Sorted(names: set<string>) returns (xs: seq<string>)
    ensures Increasing(xs) && forall x :: x in xs <==> x in names
  {
    xs := [];
    var rest := names;
    while rest != {}
      invariant rest <= names && Increasing(xs)
      invariant forall x :: x in xs <==> x in names && x !in rest
      invariant forall x, y :: x in xs && y in rest ==> Less(x, y)
      decreases |rest|
    {
      var least := Least(rest);
      forall x, y | x in xs + [least] && y in rest - {least} ensures Less(x, y) {
        if x !in xs { assert x == least; }
      }
      xs, rest := xs + [least], rest - {least};
    }
  }

  method Least(names: set<string>) returns (least: string)
    requires names != {}
    ensures least in names && forall y :: y in names && y != least ==> Less(least, y)
  {
    least :| least in names;
    var rest := names - {least};
    while rest != {}
      invariant rest <= names && least in names - rest
      invariant forall y :: y in names - rest && y != least ==> Less(least, y)
      decreases |rest|
    {
      var x :| x in rest;
      rest := rest - {x};
      LessTotal(x, least);
      if Less(x, least) {
        forall y | y in names - rest && y != x ensures Less(x, y) {
          if y != least { LessTransitive(x, least, y); }
        }
        least := x;
      }
    }
  }
}
