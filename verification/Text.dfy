/** Text as sequences of characters: decimal numbers, splitting and joining. */
module Text {

  // ---------------------------------------------------------------- numbers

  predicate IsDigit(c: char) { '0' <= c <= '9' }

  predicate AllDigits(s: string) { forall i :: 0 <= i < |s| ==> IsDigit(s[i]) }

  function Decimal(n: nat): (s: string)
    ensures s != [] && AllDigits(s)
  {
    if n < 10 then ['0' + n as char] else Decimal(n / 10) + ['0' + (n % 10) as char]
  }

  function Number(s: string): int
  {
    if s == [] then 0 else 10 * Number(s[..|s| - 1]) + (s[|s| - 1] as int - '0' as int)
  }

  lemma {:induction false} NumberOfDecimal(n: nat)
    ensures Number(Decimal(n)) == n
  {
    if n < 10 {
      assert Number([]) == 0;
      assert Decimal(n)[..0] == [];
    } else {
      NumberOfDecimal(n / 10);
      assert Decimal(n)[..|Decimal(n)| - 1] == Decimal(n / 10);
    }
  }

  lemma {:induction false} DecimalInjective(m: nat, n: nat)
    requires Decimal(m) == Decimal(n)
    ensures m == n
  {
    NumberOfDecimal(m);
    NumberOfDecimal(n);
  }

  // ---------------------------------------------------------------- pieces

  predicate StartsWith(s: string, prefix: string) { prefix <= s }

  predicate EndsWith(s: string, suffix: string) {
    |suffix| <= |s| && s[|s| - |suffix|..] == suffix
  }

  /** `s.split(sep)`: always at least one piece. */
  function Split(s: string, sep: char): (parts: seq<string>)
    ensures |parts| >= 1
  {
    if s == [] then [[]]
    else
      var rest := Split(s[1..], sep);
      if s[0] == sep then [[]] + rest else [[s[0]] + rest[0]] + rest[1..]
  }

  /** `sep.join(parts)` */
  function Join(parts: seq<string>, sep: char): string {
    if parts == [] then []
    else if |parts| == 1 then parts[0]
    else parts[0] + [sep] + Join(parts[1..], sep)
  }

  lemma {:induction false} JoinPrepend(c: char, parts: seq<string>, sep: char)
    requires parts != []
    ensures Join([[c] + parts[0]] + parts[1..], sep) == [c] + Join(parts, sep)
  {
  }

  lemma {:induction false} JoinOfSplit(s: string, sep: char)
    ensures Join(Split(s, sep), sep) == s
  {
    if s != [] {
      var rest := Split(s[1..], sep);
      JoinOfSplit(s[1..], sep);
      assert s == [s[0]] + s[1..];
      if s[0] == sep {
        assert ([[]] + rest)[1..] == rest;
      } else {
        JoinPrepend(s[0], rest, sep);
      }
    }
  }

  lemma {:induction false} SplitWithout(s: string, sep: char)
    requires sep !in s
    ensures Split(s, sep) == [s]
  {
    if s != [] {
      SplitWithout(s[1..], sep);
      assert s[0] in s;
      assert [s[0]] + s[1..] == s;
    }
  }

  lemma {:induction false} SplitFirst(first: string, rest: string, sep: char)
    requires sep !in first
    ensures Split(first + [sep] + rest, sep) == [first] + Split(rest, sep)
  {
    var s := first + [sep] + rest;
    if first == [] {
      assert s[1..] == rest;
    } else {
      assert first[0] in first;
      assert s[1..] == first[1..] + [sep] + rest;
      SplitFirst(first[1..], rest, sep);
      assert [first[0]] + first[1..] == first;
    }
  }

  lemma {:induction false} SplitOfJoin(parts: seq<string>, sep: char)
    requires parts != [] && forall i :: 0 <= i < |parts| ==> sep !in parts[i]
    ensures Split(Join(parts, sep), sep) == parts
  {
    if |parts| == 1 {
      SplitWithout(parts[0], sep);
    } else {
      SplitFirst(parts[0], Join(parts[1..], sep), sep);
      SplitOfJoin(parts[1..], sep);
    }
  }

  lemma {:induction false} SplitPartsClean(s: string, sep: char)
    ensures forall i :: 0 <= i < |Split(s, sep)| ==> sep !in Split(s, sep)[i]
  {
    if s != [] {
      SplitPartsClean(s[1..], sep);
    }
  }

  /** A character that is not the separator goes to the end of the last piece. */
  lemma {:induction false} SplitAppend(s: string, c: char, sep: char)
    requires c != sep
    ensures var parts := Split(s, sep);
            Split(s + [c], sep) == parts[..|parts| - 1] + [parts[|parts| - 1] + [c]]
  {
    if s == [] {
      SplitWithout([c], sep);
      assert s + [c] == [c] && [] + [c] == [c];
    } else {
      SplitAppend(s[1..], c, sep);
      assert (s + [c])[0] == s[0] && (s + [c])[1..] == s[1..] + [c];
      SplitHead(s, sep);
      SplitHead(s + [c], sep);
      AppendToLast(Split(s[1..], sep), s[0], c);
    }
  }

  lemma {:induction false} SplitHead(s: string, sep: char)
    requires s != []
    ensures var rest := Split(s[1..], sep);
      Split(s, sep) == if s[0] == sep then [[]] + rest else [[s[0]] + rest[0]] + rest[1..]
  {
  }

  /** Extending the first piece and the last piece are apart, also where they are the same. */
  lemma {:induction false} AppendToLast(rest: seq<string>, first: char, c: char)
    requires rest != []
    ensures var n := |rest|; var longer := rest[..n - 1] + [rest[n - 1] + [c]];
      var own := [[first] + rest[0]] + rest[1..];
      [[first] + longer[0]] + longer[1..] == own[..n - 1] + [own[n - 1] + [c]]
      && [[]] + longer == ([[]] + rest)[..n] + [([[]] + rest)[n] + [c]]
  {
    if |rest| == 1 { assert [first] + (rest[0] + [c]) == [first] + rest[0] + [c]; }
  }

  /** Where the last separator is decides both sides of it. */
  lemma {:induction false} LastSeparator(x: string, y: string, x': string, y': string, sep: char)
    requires x + [sep] + y == x' + [sep] + y'
    requires sep !in y && sep !in y'
    ensures x == x' && y == y'
  {
    var s := x + [sep] + y;
    assert forall i :: |x| < i < |s| ==> s[i] == y[i - |x| - 1];
    assert forall i :: |x'| < i < |s| ==> s[i] == y'[i - |x'| - 1];
    assert s[|x|] == sep && s[|x'|] == sep;
    assert x == s[..|x|] && x' == s[..|x'|];
    assert y == s[|x| + 1..] && y' == s[|x'| + 1..];
  }
}
