/** Sorted lists of strings, and joining them with a separator. */
module Ordering {
  import opened Text

  // ---- sorting a list ----

  function InsertString(x: string, s: seq<string>): seq<string> {
    if s == [] || !StringLess(s[0], x) then [x] + s else [s[0]] + InsertString(x, s[1..])
  }

  /** sort.Strings. */
  function SortStrings(s: seq<string>): seq<string> {
    if s == [] then [] else InsertString(s[0], SortStrings(s[1..]))
  }

  ghost predicate Ascending(s: seq<string>) {
    forall i, j :: 0 <= i < j < |s| ==> !StringLess(s[j], s[i])
  }

  lemma LessOrEqualTransitive(a: string, b: string, c: string)
    requires !StringLess(b, a) && !StringLess(c, b)
    ensures !StringLess(c, a)
  {
    StringLessTotal(a, b);
    StringLessTotal(b, c);
    StringLessTotal(a, c);
    if StringLess(a, b) && StringLess(b, c) {
      StringLessTransitive(a, b, c);
    }
  }

  lemma {:induction false} InsertAscends(x: string, s: seq<string>)
    requires Ascending(s)
    ensures Ascending(InsertString(x, s)) && multiset(InsertString(x, s)) == multiset(s) + multiset{x}
  {
    if s == [] || !StringLess(s[0], x) {
      forall j | 0 <= j < |s|
        ensures !StringLess(s[j], x)
      {
        if j > 0 {
          LessOrEqualTransitive(x, s[0], s[j]);
        }
      }
    } else {
      assert s == [s[0]] + s[1..];
      InsertAscends(x, s[1..]);
      var rest := InsertString(x, s[1..]);
      StringLessTotal(s[0], x);
      forall j | 0 <= j < |rest|
        ensures !StringLess(rest[j], s[0])
      {
        assert rest[j] in multiset(rest);
        if rest[j] != x {
          assert rest[j] in s[1..];
        }
      }
    }
  }

  lemma {:induction false} SortAscends(s: seq<string>)
    ensures Ascending(SortStrings(s)) && multiset(SortStrings(s)) == multiset(s)
  {
    if s != [] {
      assert s == [s[0]] + s[1..];
      SortAscends(s[1..]);
      InsertAscends(s[0], SortStrings(s[1..]));
    }
  }

  lemma HeadIsLeast(a: seq<string>, x: string)
    requires Ascending(a) && x in multiset(a)
    ensures a != [] && !StringLess(x, a[0])
  {
    var i :| 0 <= i < |a| && a[i] == x;
    StringLessIrreflexive(x);
  }

  /** A multiset has one ascending listing. */
  lemma {:induction false} AscendingIsUnique(a: seq<string>, b: seq<string>)
    requires Ascending(a) && Ascending(b) && multiset(a) == multiset(b)
    ensures a == b
    decreases |a|
  {
    assert |multiset(a)| == |a| && |multiset(b)| == |b|;
    if a != [] {
      SameHead(a, b);
      AscendingIsUnique(a[1..], b[1..]);
      assert a == [a[0]] + a[1..] && b == [b[0]] + b[1..];
    }
  }

  lemma SameHead(a: seq<string>, b: seq<string>)
    requires Ascending(a) && Ascending(b) && multiset(a) == multiset(b) && |a| == |b| > 0
    ensures a[0] == b[0] && multiset(a[1..]) == multiset(b[1..])
  {
    HeadIsLeast(a, b[0]);
    HeadIsLeast(b, a[0]);
    StringLessTotal(a[0], b[0]);
    assert a == [a[0]] + a[1..] && b == [b[0]] + b[1..];
    assert multiset(a[1..]) == multiset(a) - multiset{a[0]} && multiset(b[1..]) == multiset(b) - multiset{b[0]};
  }

  /** Sorting forgets exactly the order. */
  lemma SortForgetsOrder(a: seq<string>, b: seq<string>)
    ensures SortStrings(a) == SortStrings(b) <==> multiset(a) == multiset(b)
  {
    SortAscends(a);
    SortAscends(b);
    if multiset(a) == multiset(b) {
      AscendingIsUnique(SortStrings(a), SortStrings(b));
    }
  }

  // ---- joining ----

  function Join(parts: seq<string>, sep: char): string {
    if parts == [] then "" else if |parts| == 1 then parts[0] else parts[0] + [sep] + Join(parts[1..], sep)
  }

  ghost predicate Joinable(parts: seq<string>, sep: char) {
    forall i :: 0 <= i < |parts| ==> parts[i] != "" && sep !in parts[i]
  }

  /** Joined parts without the separator are found again by splitting. */
  lemma {:induction false} SplitJoined(parts: seq<string>, sep: char)
    requires parts != [] && Joinable(parts, sep)
    ensures Split(Join(parts, sep), sep) == parts
  {
    if |parts| == 1 {
      SplitPrefix(parts[0], "", sep);
      assert parts[0] + "" == parts[0];
    } else {
      SplitJoined(parts[1..], sep);
      var tail := [sep] + Join(parts[1..], sep);
      SplitPrefix(parts[0], tail, sep);
      assert parts[0] + [sep] + Join(parts[1..], sep) == parts[0] + tail;
      assert tail[1..] == Join(parts[1..], sep);
      assert parts[0] + "" == parts[0];
    }
  }

  lemma JoinIsInjective(a: seq<string>, b: seq<string>, sep: char)
    requires Joinable(a, sep) && Joinable(b, sep) && Join(a, sep) == Join(b, sep)
    ensures a == b
  {
    assert Split("", sep) == [""];
    assert (a != [] ==> a[0] != "") && (b != [] ==> b[0] != "");
    if a != [] {
      SplitJoined(a, sep);
    }
    if b != [] {
      SplitJoined(b, sep);
    }
  }

  /** No string of the set is another one of it followed by the separator. */
  predicate Unambiguous(strings: set<string>, sep: char) {
    forall x, y :: x in strings && y in strings ==> !(x + [sep] <= y)
  }

  // ---- the keys of a map, sorted ----

  predicate IsSmallest(k: string, s: set<string>) {
    k in s && forall j :: j in s ==> j == k || StringLess(k, j)
  }

  lemma {:induction false} HasSmallest(s: set<string>)
    requires s != {}
    ensures exists k :: IsSmallest(k, s)
    decreases |s|
  {
    var x :| x in s;
    if s == {x} {
      assert IsSmallest(x, s);
    } else {
      HasSmallest(s - {x});
      var y :| IsSmallest(y, s - {x});
      StringLessTotal(x, y);
      if StringLess(y, x) {
        assert IsSmallest(y, s);
      } else {
        forall j | j in s
          ensures j == x || StringLess(x, j)
        {
          if j != x && j != y {
            StringLessTransitive(x, y, j);
          }
        }
        assert IsSmallest(x, s);
      }
    }
  }

  ghost function SortedKeys(s: set<string>): (keys: seq<string>)
    ensures forall k :: k in keys <==> k in s
    decreases |s|
  {
    if s == {} then [] else
      HasSmallest(s);
      var k :| IsSmallest(k, s);
      [k] + SortedKeys(s - {k})
  }
}
