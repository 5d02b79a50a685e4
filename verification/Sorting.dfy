/** The order on strings and the sorting of sequences by a string key. */
module Sorting {

  /** Go's `<` on strings. */
  predicate Less(a: string, b: string)
  {
    if |b| == 0 then false
    else if |a| == 0 then true
    else if a[0] != b[0] then a[0] < b[0]
    else Less(a[1..], b[1..])
  }

  lemma {:induction false} LessIsTotal(a: string, b: string)
    ensures a == b || Less(a, b) || Less(b, a)
    ensures !(Less(a, b) && Less(b, a))
    ensures a == b ==> !Less(a, b)
  {
    if |a| > 0 && |b| > 0 && a[0] == b[0] {
      LessIsTotal(a[1..], b[1..]);
      assert a == [a[0]] + a[1..] && b == [b[0]] + b[1..];
    }
  }

  lemma {:induction false} LessIsTransitive(a: string, b: string, c: string)
    requires Less(a, b) && Less(b, c)
    ensures Less(a, c)
  {
    if |a| > 0 && a[0] == b[0] == c[0] {
      LessIsTransitive(a[1..], b[1..], c[1..]);
    }
  }

  /** The order is the one of the first difference, and a proper prefix comes
      first. */
  lemma {:induction false} LessIsLexicographic(a: string, b: string)
    ensures Less(a, b) <==>
            || (|a| < |b| && b[..|a|] == a)
            || (exists i :: 0 <= i < |a| && i < |b| && a[..i] == b[..i] && a[i] < b[i])
  {
    if |a| > 0 && |b| > 0 && a[0] == b[0] {
      var c, d := a[1..], b[1..];
      LessIsLexicographic(c, d);
      assert a == [a[0]] + c && b == [b[0]] + d;
      if |c| < |d| && d[..|c|] == c {
        assert b[..|a|] == [b[0]] + d[..|c|];
      }
      if |a| < |b| && b[..|a|] == a {
        assert d[..|c|] == b[..|a|][1..];
      }
      forall i | 0 <= i < |c| && i < |d|
        ensures c[..i] == d[..i] <==> a[..i + 1] == b[..i + 1]
      {
        assert a[..i + 1] == [a[0]] + c[..i] && b[..i + 1] == [b[0]] + d[..i];
        assert a[..i + 1][1..] == c[..i] && b[..i + 1][1..] == d[..i];
      }
      FirstDifferenceMoves(a, b, c, d);
    } else if |a| > 0 && |b| > 0 {
      assert a[..0] == b[..0];
    }
  }

  lemma FirstDifferenceMoves(a: string, b: string, c: string, d: string)
    requires |a| > 0 && |b| > 0 && a[0] == b[0] && c == a[1..] && d == b[1..]
    requires forall i :: 0 <= i < |c| && i < |d| ==> (c[..i] == d[..i] <==> a[..i + 1] == b[..i + 1])
    ensures (exists i :: 0 <= i < |a| && i < |b| && a[..i] == b[..i] && a[i] < b[i])
            <==> (exists i :: 0 <= i < |c| && i < |d| && c[..i] == d[..i] && c[i] < d[i])
  {
    if i :| 0 <= i < |a| && i < |b| && a[..i] == b[..i] && a[i] < b[i] {
      assert i > 0 && c[i - 1] == a[i] && d[i - 1] == b[i] && c[..i - 1] == d[..i - 1];
    }
    if i :| 0 <= i < |c| && i < |d| && c[..i] == d[..i] && c[i] < d[i] {
      assert a[i + 1] == c[i] && b[i + 1] == d[i] && a[..i + 1] == b[..i + 1];
    }
  }

  // ------------------------------------------------------------ sorted strings

  ghost predicate StrictlySorted(s: seq<string>)
  {
    forall i, j :: 0 <= i < j < |s| ==> Less(s[i], s[j])
  }

  ghost predicate Sorted(s: seq<string>)
  {
    forall i, j :: 0 <= i < j < |s| ==> !Less(s[j], s[i])
  }

  function Insert(x: string, s: seq<string>): (r: seq<string>)
  {
    if s == [] || !Less(s[0], x) then [x] + s else [s[0]] + Insert(x, s[1..])
  }

  /** The result of `sort.Strings`. */
  function Sort(s: seq<string>): (r: seq<string>)
  {
    if s == [] then [] else Insert(s[0], Sort(s[1..]))
  }

  lemma {:induction false} InsertKeepsOrder(x: string, s: seq<string>)
    requires Sorted(s)
    ensures Sorted(Insert(x, s)) && multiset(Insert(x, s)) == multiset(s) + multiset{x}
  {
    if s == [] {
    } else if !Less(s[0], x) {
      forall j | 0 <= j < |s|
        ensures !Less(s[j], x)
      {
        if Less(s[j], x) {
          LessIsTotal(s[0], s[j]);
          if j > 0 && Less(s[0], s[j]) {
            LessIsTransitive(s[0], s[j], x);
          }
        }
      }
    } else {
      InsertKeepsOrder(x, s[1..]);
      assert s == [s[0]] + s[1..];
      var t := Insert(x, s[1..]);
      forall j | 0 <= j < |t|
        ensures !Less(t[j], s[0])
      {
        assert t[j] in multiset(t);
        assert t[j] == x || t[j] in s[1..];
        LessIsTotal(s[0], x);
      }
    }
  }

  lemma {:induction false} SortSorts(s: seq<string>)
    ensures Sorted(Sort(s)) && multiset(Sort(s)) == multiset(s)
  {
    if s != [] {
      SortSorts(s[1..]);
      InsertKeepsOrder(s[0], Sort(s[1..]));
      assert s == [s[0]] + s[1..];
    }
  }

  lemma SameSmallest(a: seq<string>, b: seq<string>)
    requires Sorted(a) && Sorted(b) && a != [] && b != [] && multiset(a) == multiset(b)
    ensures a[0] == b[0]
  {
    assert a[0] in multiset(b) && b[0] in multiset(a);
    var i :| 0 <= i < |b| && b[i] == a[0];
    var j :| 0 <= j < |a| && a[j] == b[0];
    LessIsTotal(a[0], b[0]);
  }

  /** A sorted list is determined by what it holds, so it does not matter in
      which order the elements were put into it. */
  lemma {:induction false} SortedListsAreEqual(a: seq<string>, b: seq<string>)
    requires Sorted(a) && Sorted(b) && multiset(a) == multiset(b)
    ensures a == b
  {
    if a == [] || b == [] {
      assert |a| == |multiset(a)| == |multiset(b)| == |b|;
    } else {
      SameSmallest(a, b);
      RestOf(a);
      RestOf(b);
      SortedListsAreEqual(a[1..], b[1..]);
    }
  }

  lemma RestOf(a: seq<string>)
    requires a != []
    ensures a == [a[0]] + a[1..] && multiset(a[1..]) == multiset(a) - multiset{a[0]}
  {
    assert a == [a[0]] + a[1..];
  }
}
