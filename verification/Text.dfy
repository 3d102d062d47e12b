/** Strings as the Go code compares and reads them (ASCII). */
module Text {
  import opened Types

  /** Go's < on strings. */
  predicate StringLess(a: string, b: string) {
    if b == "" then false
    else if a == "" then true
    else a[0] < b[0] || (a[0] == b[0] && StringLess(a[1..], b[1..]))
  }

  lemma {:induction false} StringLessTotal(a: string, b: string)
    ensures StringLess(a, b) || StringLess(b, a) || a == b
    ensures !(StringLess(a, b) && StringLess(b, a))
  {
    if a != "" && b != "" {
      StringLessTotal(a[1..], b[1..]);
      assert a == [a[0]] + a[1..] && b == [b[0]] + b[1..];
    }
  }

  /** They differ first at i, where a has the smaller character. */
  ghost predicate SmallerAt(a: string, b: string, i: nat) {
    i < |a| && i < |b| && a[..i] == b[..i] && a[i] < b[i]
  }

  /** Lexicographic: a is the beginning of b, or smaller where they first differ. */
  lemma {:induction false} StringLessIff(a: string, b: string)
    ensures StringLess(a, b) <==> a < b || exists i: nat :: SmallerAt(a, b, i)
  {
    if a != "" && b != "" {
      StringLessIff(a[1..], b[1..]);
      assert a == [a[0]] + a[1..] && b == [b[0]] + b[1..];
      if a[0] == b[0] {
        assert a < b <==> a[1..] < b[1..];
        forall i: nat | i > 0
          ensures SmallerAt(a, b, i) <==> SmallerAt(a[1..], b[1..], i - 1)
        {
          if i < |a| && i < |b| {
            assert a[..i] == [a[0]] + a[1..][..i - 1] && b[..i] == [b[0]] + b[1..][..i - 1];
          }
        }
        if i: nat :| SmallerAt(a[1..], b[1..], i) {
          assert SmallerAt(a, b, i + 1);
        }
      } else if a[0] < b[0] {
        assert SmallerAt(a, b, 0);
      }
    }
  }

  lemma {:induction false} StringLessIrreflexive(a: string)
    ensures !StringLess(a, a)
  {
    StringLessTotal(a, a);
  }

  lemma {:induction false} StringLessTransitive(a: string, b: string, c: string)
    requires StringLess(a, b) && StringLess(b, c)
    ensures StringLess(a, c)
  {
    if a != "" && a[0] == b[0] == c[0] {
      StringLessTransitive(a[1..], b[1..], c[1..]);
    }
  }

  predicate IsDigit(c: char) {
    '0' <= c <= '9'
  }

  predicate AllDigits(s: string) {
    forall i :: 0 <= i < |s| ==> IsDigit(s[i])
  }

  function Value(s: string): nat
    requires AllDigits(s)
  {
    if s == "" then 0 else 10 * Value(s[..|s| - 1]) + (s[|s| - 1] as int - '0' as int)
  }

  /** strconv.ParseInt(s, 10, 64), which strconv.Atoi equals on 64-bit platforms. */
  function ParseInt(s: string): Option<int> {
    var negative := s != "" && s[0] == '-';
    var digits := if s != "" && (s[0] == '-' || s[0] == '+') then s[1..] else s;
    if digits == "" || !AllDigits(digits) then None
    else
      var v: int := Value(digits);
      var n := if negative then -v else v;
      if -0x8000_0000_0000_0000 <= n < 0x8000_0000_0000_0000 then Some(n) else None
  }

  /** The number that digits behind a sign stand for. */
  function Signed(sign: string, digits: string): int
    requires AllDigits(digits)
  {
    if sign == "-" then -(Value(digits) as int) else Value(digits)
  }

  predicate Numeral(s: string, sign: string, digits: string) {
    (sign == "" || sign == "+" || sign == "-") && digits != "" && AllDigits(digits) && s == sign + digits
  }

  lemma OneReading(s: string, sign: string, digits: string)
    requires Numeral(s, sign, digits)
    ensures digits == (if s[0] == '-' || s[0] == '+' then s[1..] else s) && (sign == "-" <==> s[0] == '-')
  {
    assert IsDigit(digits[0]) && (sign == "" ==> s == digits);
    assert sign != "" ==> s[1..] == digits && s[0] == sign[0];
  }

  /** Decimal digits behind at most one sign, and a number of 64 bits. */
  lemma ParseIntIff(s: string, n: int)
    ensures ParseInt(s) == Some(n) <==>
            && -0x8000_0000_0000_0000 <= n < 0x8000_0000_0000_0000
            && exists sign, digits :: Numeral(s, sign, digits) && n == Signed(sign, digits)
  {
    if ParseInt(s).Some? {
      var sign := if s[0] == '-' then "-" else if s[0] == '+' then "+" else "";
      var digits := if s[0] == '-' || s[0] == '+' then s[1..] else s;
      assert s == sign + digits;
      assert Numeral(s, sign, digits);
    }
    forall sign, digits | Numeral(s, sign, digits)
      ensures digits == (if s[0] == '-' || s[0] == '+' then s[1..] else s) && (sign == "-" <==> s[0] == '-')
    {
      OneReading(s, sign, digits);
    }
  }

  predicate HasPrefix(s: string, prefix: string) {
    prefix <= s
  }

  /** The position of the first c (strings.IndexByte). */
  function IndexOf(s: string, c: char): (r: Option<nat>)
    ensures r.None? ==> c !in s
    ensures r.Some? ==> r.value < |s| && s[r.value] == c && c !in s[..r.value]
  {
    if s == "" then None
    else if s[0] == c then Some(0)
    else match IndexOf(s[1..], c)
      case None => None
      case Some(i) => assert s[..i + 1] == [s[0]] + s[1..][..i]; Some(i + 1)
  }

  /** strings.Split for a one-character separator. */
  function Split(s: string, sep: char): (parts: seq<string>)
    ensures |parts| >= 1
  {
    if s == "" then [""]
    else
      var rest := Split(s[1..], sep);
      if s[0] == sep then [""] + rest else [[s[0]] + rest[0]] + rest[1..]
  }

  predicate IsSpace(c: char) {
    c == ' ' || '\t' <= c <= '\r'
  }

  predicate Blank(s: string) {
    forall i :: 0 <= i < |s| ==> IsSpace(s[i])
  }

  function TrimLeft(s: string): string {
    if s != "" && IsSpace(s[0]) then TrimLeft(s[1..]) else s
  }

  function TrimRight(s: string): string {
    if s != "" && IsSpace(s[|s| - 1]) then TrimRight(s[..|s| - 1]) else s
  }

  /** strings.TrimSpace. */
  function Trim(s: string): string {
    TrimRight(TrimLeft(s))
  }

  function TrimAll(parts: seq<string>): seq<string> {
    seq(|parts|, i requires 0 <= i < |parts| => Trim(parts[i]))
  }

  lemma {:induction false} TrimLeftParts(s: string) returns (before: string)
    ensures s == before + TrimLeft(s) && Blank(before)
  {
    before := "";
    if s != "" && IsSpace(s[0]) {
      var more := TrimLeftParts(s[1..]);
      before := [s[0]] + more;
    }
  }

  lemma {:induction false} TrimRightParts(s: string) returns (after: string)
    ensures s == TrimRight(s) + after && Blank(after)
  {
    after := "";
    if s != "" && IsSpace(s[|s| - 1]) {
      var more := TrimRightParts(s[..|s| - 1]);
      after := more + [s[|s| - 1]];
      assert s == s[..|s| - 1] + [s[|s| - 1]];
    }
  }

  lemma {:induction false} TrimLeftPad(before: string, s: string)
    requires Blank(before)
    ensures TrimLeft(before + s) == TrimLeft(s)
  {
    if before == "" {
      assert before + s == s;
    } else {
      TrimLeftPad(before[1..], s);
      assert (before + s)[1..] == before[1..] + s;
    }
  }

  lemma {:induction false} TrimRightPad(s: string, after: string)
    requires Blank(after)
    ensures TrimRight(s + after) == TrimRight(s)
    decreases |after|
  {
    if after == "" {
      assert s + after == s;
    } else {
      TrimRightPad(s, after[..|after| - 1]);
      assert (s + after)[..|s + after| - 1] == s + after[..|after| - 1];
    }
  }

  lemma {:induction false} TrimLeftKeepsTail(s: string, after: string)
    requires Blank(after)
    ensures TrimRight(TrimLeft(s + after)) == TrimRight(TrimLeft(s))
  {
    if s == "" {
      TrimLeftPad(after, "");
      assert s + after == after + "" && TrimLeft("") == "";
    } else if IsSpace(s[0]) {
      TrimLeftKeepsTail(s[1..], after);
      assert (s + after)[1..] == s[1..] + after;
    } else {
      TrimRightPad(s, after);
    }
  }

  /** Space around a string does not change what is left of it. */
  lemma TrimPad(before: string, s: string, after: string)
    requires Blank(before) && Blank(after)
    ensures Trim(before + s + after) == Trim(s)
  {
    assert before + s + after == before + (s + after);
    TrimLeftPad(before, s + after);
    TrimLeftKeepsTail(s, after);
  }

  lemma TrimTwice(s: string)
    ensures Trim(Trim(s)) == Trim(s) && (forall c :: c in Trim(s) ==> c in s)
  {
    var before := TrimLeftParts(s);
    var after := TrimRightParts(TrimLeft(s));
    assert s == before + Trim(s) + after;
    TrimPad(before, Trim(s), after);
  }

  /** The parts with more text put before the first, or after the last. */
  function Ahead(before: string, parts: seq<string>): seq<string>
    requires parts != []
  {
    parts[0 := before + parts[0]]
  }

  function Behind(parts: seq<string>, after: string): seq<string>
    requires parts != []
  {
    parts[|parts| - 1 := parts[|parts| - 1] + after]
  }

  lemma {:induction false} SplitPrefix(before: string, s: string, sep: char)
    requires sep !in before
    ensures Split(before + s, sep) == Ahead(before, Split(s, sep))
  {
    if before == "" {
      assert before + s == s && before + Split(s, sep)[0] == Split(s, sep)[0];
    } else {
      SplitPrefix(before[1..], s, sep);
      assert (before + s)[1..] == before[1..] + s;
      AheadMore(before, Split(s, sep));
    }
  }

  lemma AheadMore(before: string, parts: seq<string>)
    requires before != "" && parts != []
    ensures var rest := Ahead(before[1..], parts); [[before[0]] + rest[0]] + rest[1..] == Ahead(before, parts)
  {
    assert before + parts[0] == [before[0]] + (before[1..] + parts[0]);
  }

  lemma {:induction false} SplitSuffix(s: string, after: string, sep: char)
    requires sep !in after
    ensures Split(s + after, sep) == Behind(Split(s, sep), after)
  {
    if s == "" {
      SplitPrefix(after, "", sep);
      assert s + after == after + "" && after + "" == after && "" + after == after;
    } else {
      SplitSuffix(s[1..], after, sep);
      assert (s + after)[1..] == s[1..] + after;
      BehindMore(s[0], Split(s[1..], sep), after, sep);
    }
  }

  lemma BehindMore(c: char, rest: seq<string>, after: string, sep: char)
    requires rest != []
    ensures [""] + Behind(rest, after) == Behind([""] + rest, after)
    ensures [[c] + Behind(rest, after)[0]] + Behind(rest, after)[1..] == Behind([[c] + rest[0]] + rest[1..], after)
  {
    assert [c] + (rest[0] + after) == [c] + rest[0] + after;
  }

  /** Space around the whole expression disappears with the space around its parts. */
  lemma SplitTrimmed(s: string, sep: char)
    requires !IsSpace(sep)
    ensures TrimAll(Split(Trim(s), sep)) == TrimAll(Split(s, sep))
  {
    var before := TrimLeftParts(s);
    var after := TrimRightParts(TrimLeft(s));
    var core := Trim(s);
    assert s == before + (core + after);
    SplitPrefix(before, core + after, sep);
    SplitSuffix(core, after, sep);
    BehindTrims(Split(core, sep), after);
    AheadTrims(before, Behind(Split(core, sep), after));
  }

  lemma AheadTrims(before: string, parts: seq<string>)
    requires parts != [] && Blank(before)
    ensures TrimAll(Ahead(before, parts)) == TrimAll(parts)
  {
    TrimPad(before, parts[0], "");
    assert before + parts[0] + "" == before + parts[0];
  }

  lemma BehindTrims(parts: seq<string>, after: string)
    requires parts != [] && Blank(after)
    ensures TrimAll(Behind(parts, after)) == TrimAll(parts)
  {
    var last := parts[|parts| - 1];
    TrimPad("", last, after);
    assert "" + last + after == last + after;
  }

  // ---- splitting what was put together ----

  /** Each part with the separator before it. */
  function Tails(parts: seq<string>, sep: char): string {
    if parts == [] then "" else [sep] + parts[0] + Tails(parts[1..], sep)
  }

  /** The parts with a separator between any two. */
  function Glue(parts: seq<string>, sep: char): string
    requires parts != []
  {
    parts[0] + Tails(parts[1..], sep)
  }

  ghost predicate FreeOf(parts: seq<string>, sep: char) {
    forall i :: 0 <= i < |parts| ==> sep !in parts[i]
  }

  lemma SplitFirst(a: string, rest: string, sep: char)
    requires sep !in a
    ensures Split(a, sep) == [a]
    ensures Split(a + [sep] + rest, sep) == [a] + Split(rest, sep)
  {
    SplitPrefix(a, "", sep);
    assert a + "" == a;
    SplitPrefix(a, [sep] + rest, sep);
    assert a + [sep] + rest == a + ([sep] + rest) && ([sep] + rest)[1..] == rest;
  }

  lemma {:induction false} SplitGlued(parts: seq<string>, sep: char)
    requires parts != [] && FreeOf(parts, sep)
    ensures Split(Glue(parts, sep), sep) == parts
    decreases |parts|
  {
    var rest := parts[1..];
    if rest == [] {
      SplitFirst(parts[0], "", sep);
      assert Glue(parts, sep) == parts[0];
    } else {
      SplitGlued(rest, sep);
      SplitFirst(parts[0], Glue(rest, sep), sep);
      assert Glue(parts, sep) == parts[0] + [sep] + Glue(rest, sep);
    }
  }

  lemma {:induction false} GluedSplit(s: string, sep: char)
    ensures Glue(Split(s, sep), sep) == s && FreeOf(Split(s, sep), sep)
  {
    if s != "" {
      GluedSplit(s[1..], sep);
      var rest := Split(s[1..], sep);
      if s[0] == sep {
        assert ([""] + rest)[1..] == rest && Tails(rest, sep) == [sep] + Glue(rest, sep);
      } else {
        assert ([[s[0]] + rest[0]] + rest[1..])[1..] == rest[1..];
      }
    }
  }

  predicate SpaceFree(s: string) {
    forall c :: c in s ==> !IsSpace(c)
  }

  lemma TrimSpaceFree(s: string)
    requires SpaceFree(s)
    ensures Trim(s) == s
  {
  }

  /** The first separator is the one that was put there. */
  lemma {:induction false} IndexAfter(before: string, c: char, after: string)
    requires c !in before
    ensures IndexOf(before + [c] + after, c) == Some(|before|)
  {
    if before == "" {
      assert before + [c] + after == [c] + after;
    } else {
      IndexAfter(before[1..], c, after);
      assert (before + [c] + after)[1..] == before[1..] + [c] + after;
    }
  }

  /** Two strings put together around a separator that the first does not contain come apart again. */
  lemma CutsApart(a: string, x: string, b: string, y: string, c: char)
    requires c !in a && c !in b && a + [c] + x == b + [c] + y
    ensures a == b && x == y
  {
    IndexAfter(a, c, x);
    IndexAfter(b, c, y);
    assert a == (a + [c] + x)[..|a|] && b == (b + [c] + y)[..|a|];
    assert x == (a + [c] + x)[|a| + 1..] && y == (b + [c] + y)[|a| + 1..];
  }

  lemma StartsLonger(a: string, b: string, s: string, c: char)
    requires |a| < |b| && a + [c] <= s && b <= s
    ensures a + [c] <= b
  {
    assert a + [c] == s[..|a| + 1] && b == s[..|b|];
  }

  /** It is enough that neither of the first strings is the other one followed by the separator. */
  lemma CutsApartUnless(a: string, x: string, b: string, y: string, c: char)
    requires a + [c] + x == b + [c] + y && !(a + [c] <= b) && !(b + [c] <= a)
    ensures a == b && x == y
  {
    var s := a + [c] + x;
    assert s[..|a|] == a && s[|a|] == c && s[|a| + 1..] == x;
    assert s[..|b|] == b && s[|b|] == c && s[|b| + 1..] == y;
    if |a| < |b| {
      StartsLonger(a, b, s, c);
    } else if |b| < |a| {
      StartsLonger(b, a, s, c);
    }
  }

  function Digit(d: nat): char
    requires d < 10
  {
    '0' + d as char
  }

  /** Canonical decimal (strconv.Itoa for numbers that are not negative). */
  function FormatNat(n: nat): string {
    if n < 10 then [Digit(n)] else FormatNat(n / 10) + [Digit(n % 10)]
  }

  lemma {:induction false} FormatIsDecimal(n: nat)
    ensures FormatNat(n) != "" && AllDigits(FormatNat(n)) && Value(FormatNat(n)) == n
  {
    if n < 10 {
      assert FormatNat(n)[..0] == "";
    } else {
      FormatIsDecimal(n / 10);
      assert FormatNat(n)[..|FormatNat(n)| - 1] == FormatNat(n / 10);
    }
  }

  lemma FormatParses(n: nat)
    requires n < 0x8000_0000_0000_0000
    ensures ParseInt(FormatNat(n)) == Some(n)
  {
    FormatIsDecimal(n);
    assert IsDigit(FormatNat(n)[0]);
  }
}
