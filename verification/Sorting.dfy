/** sorted() on a set of strings. */
module Sorting {
  import opened Wrappers

  /** Python's < on strings, by code points. */
  predicate Less(a: string, b: string) {
    b != "" && (a == "" || a[0] < b[0] || (a[0] == b[0] && Less(a[1..], b[1..])))
  }

  lemma {:induction false} LessTotal(a: string, b: string)
    ensures Less(a, b) || a == b || Less(b, a)
  {
    if a != "" && b != "" && a[0] == b[0] {
      LessTotal(a[1..], b[1..]);
      assert a == [a[0]] + a[1..] && b == [b[0]] + b[1..];
    }
  }

  lemma {:induction false} LessOnce(a: string, b: string)
    requires Less(a, b)
    ensures a != b && !Less(b, a)
  {
    if a != "" && a[0] == b[0] {
      LessOnce(a[1..], b[1..]);
    }
  }

  lemma {:induction false} LessAgain(a: string, b: string, c: string)
    requires Less(a, b) && Less(b, c)
    ensures Less(a, c)
  {
    if a != "" && a[0] == b[0] == c[0] {
      LessAgain(a[1..], b[1..], c[1..]);
    }
  }

  predicate Increasing(s: seq<string>) { forall i, j :: 0 <= i < j < |s| ==> Less(s[i], s[j]) }

  ghost predicate Lists(s: seq<string>, names: set<string>) {
    Increasing(s) && forall n :: n in s <==> n in names
  }

  function Insert(s: seq<string>, n: string): seq<string> {
    if s == [] || Less(n, s[0]) then [n] + s else [s[0]] + Insert(s[1..], n)
  }

  lemma {:induction false} InsertLists(s: seq<string>, names: set<string>, n: string)
    requires Lists(s, names) && n !in names
    ensures Lists(Insert(s, n), names + {n})
  {
    if s != [] {
      var head, rest := s[0], s[1..];
      assert s == [head] + rest;
      assert head in s;
      if Less(n, head) {
        forall j | 0 <= j < |s| ensures Less(n, s[j]) {
          if j > 0 { LessAgain(n, head, s[j]); }
        }
      } else {
        LessTotal(n, head);
        Tail(s, names);
        InsertLists(rest, names - {head}, n);
        var r := Insert(rest, n);
        forall j | 0 <= j < |r| ensures Less(head, r[j]) {
          assert r[j] in r;
          if r[j] != n { HeadLess(s, r[j]); }
        }
      }
    }
  }

  lemma HeadLess(s: seq<string>, m: string)
    requires Increasing(s) && s != [] && m in s[1..]
    ensures Less(s[0], m)
  {
    var k :| 0 <= k < |s| - 1 && s[1..][k] == m;
    assert s[k + 1] == m;
  }

  lemma Tail(s: seq<string>, names: set<string>)
    requires Lists(s, names) && s != []
    ensures Lists(s[1..], names - {s[0]})
  {
    assert s == [s[0]] + s[1..];
    forall m | m in s[1..] ensures m != s[0] {
      HeadLess(s, m);
      LessOnce(s[0], m);
    }
  }

  /** sorted(names) */
  ghost function Sorted(names: set<string>): (s: seq<string>)
    ensures Lists(s, names)
  {
    if names == {} then []
    else
      var n :| n in names;
      InsertLists(Sorted(names - {n}), names - {n}, n);
      assert names - {n} + {n} == names;
      Insert(Sorted(names - {n}), n)
  }

  /** There is only one way to list a set in order. */
  lemma {:induction false} ListedOnce(a: seq<string>, b: seq<string>, names: set<string>)
    requires Lists(a, names) && Lists(b, names)
    ensures a == b
  {
    Empty(a, names);
    Empty(b, names);
    if a != [] {
      var x, y := a[0], b[0];
      assert x in a && y in b;
      if x != y {
        assert a == [x] + a[1..] && b == [y] + b[1..];
        HeadLess(a, y);
        HeadLess(b, x);
        LessOnce(x, y);
        assert false;
      }
      Tail(a, names);
      Tail(b, names);
      ListedOnce(a[1..], b[1..], names - {x});
      assert a == [x] + a[1..] && b == [y] + b[1..];
    }
  }

  lemma Empty(s: seq<string>, names: set<string>)
    requires Lists(s, names)
    ensures s == [] <==> names == {}
  {
    if s != [] {
      var n := s[0];
      assert n in s;
    }
  }
}
