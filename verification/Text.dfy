/**
 The string operations the printers and parsers use, as JavaScript has them: `startsWith`, `indexOf`, `split` and
 `join` on a one-character separator, and the decimal text of a number.
 */
module Text {

  predicate StartsWith(s: string, prefix: string) {
    |prefix| <= |s| && s[..|prefix|] == prefix
  }

  /** The first position of `c` from `start` on; -1 when there is none. */
  function IndexOf(s: string, c: char, start: nat): (i: int)
    requires start <= |s|
    ensures i == -1 || (start <= i < |s| && s[i] == c)
    ensures c !in s[start..(if i < 0 then |s| else i)]
    decreases |s| - start
  {
    if start == |s| then -1
    else if s[start] == c then start
    else
      var i := IndexOf(s, c, start + 1);
      assert s[start..(if i < 0 then |s| else i)] == [s[start]] + s[start + 1..(if i < 0 then |s| else i)];
      i
  }

  /** After a part without `c`, the first `c` is the one that ends it. */
  lemma FirstAfter(s: string, start: nat, part: string, c: char, rest: string)
    requires start <= |s| && s[start..] == part + [c] + rest && c !in part
    ensures IndexOf(s, c, start) == start + |part|
    ensures s[start..start + |part|] == part && s[start + |part| + 1..] == rest
  {
    var i := IndexOf(s, c, start);
    var before := s[start..(if i < 0 then |s| else i)];
    var tail := s[start..];
    assert tail[|part|] == c == s[start + |part|];
    assert forall j :: 0 <= j < |before| ==> before[j] == tail[j] && before[j] in before;
    assert forall j :: 0 <= j < |part| ==> part[j] == tail[j] == s[start + j] && part[j] in part;
    assert s[start..start + |part|] == tail[..|part|] == part;
    assert s[start + |part| + 1..] == tail[|part| + 1..] == rest;
  }

  function Split(s: string, sep: char): (parts: seq<string>)
    ensures |parts| > 0
    decreases |s|
  {
    var i := IndexOf(s, sep, 0);
    if i < 0 then [s] else [s[..i]] + Split(s[i + 1..], sep)
  }

  function Join(parts: seq<string>, sep: char): string {
    if |parts| == 0 then ""
    else if |parts| == 1 then parts[0]
    else parts[0] + [sep] + Join(parts[1..], sep)
  }

  lemma {:induction false} JoinUndoesSplit(s: string, sep: char)
    ensures Join(Split(s, sep), sep) == s
    decreases |s|
  {
    var i := IndexOf(s, sep, 0);
    if i >= 0 {
      JoinUndoesSplit(s[i + 1..], sep);
      assert Split(s, sep)[1..] == Split(s[i + 1..], sep);
      assert s == s[..i] + [sep] + s[i + 1..];
    }
  }

  /** A text that starts with a part without the separator splits there. */
  lemma SplitAfterPart(part: string, rest: string, sep: char)
    requires sep !in part
    ensures Split(part + [sep] + rest, sep) == [part] + Split(rest, sep)
  {
    var s := part + [sep] + rest;
    assert s[0..] == s;
    FirstAfter(s, 0, part, sep, rest);
  }

  /** The first separator decides where a text splits: both halves are determined. */
  lemma FirstSeparatorDecides(a: string, b: string, c: string, d: string, sep: char)
    requires sep !in a && sep !in c
    requires a + [sep] + b == c + [sep] + d
    ensures a == c && b == d
  {
    var s := a + [sep] + b;
    assert s[|a|] == sep && s == c + [sep] + d && s[|c|] == sep;
    assert forall j :: 0 <= j < |a| ==> a[j] == s[j] && a[j] in a;
    assert forall j :: 0 <= j < |c| ==> c[j] == s[j] && c[j] in c;
    assert a == s[..|a|] && c == s[..|c|];
    assert b == s[|a| + 1..] && d == s[|c| + 1..];
  }

  // ---- decimal text ----

  function Digit(v: int): (c: char)
    requires 0 <= v < 10
    ensures '0' <= c <= '9'
  {
    ('0' as int + v) as char
  }

  function Digits(n: nat): (s: string)
    ensures |s| > 0 && forall i :: 0 <= i < |s| ==> '0' <= s[i] <= '9'
  {
    if n < 10 then [Digit(n)] else Digits(n / 10) + [Digit(n % 10)]
  }

  function Decimal(n: int): (s: string)
    ensures |s| > 0
    ensures forall i :: 0 <= i < |s| ==> s[i] == '-' || '0' <= s[i] <= '9'
  {
    if n < 0 then "-" + Digits(-n) else Digits(n)
  }

  /** The number some digits stand for. */
  function NumberOf(s: string): int {
    if s == "" then 0 else NumberOf(s[..|s| - 1]) * 10 + (s[|s| - 1] as int - '0' as int)
  }

  lemma {:induction false} DigitsReadBack(n: nat)
    ensures NumberOf(Digits(n)) == n
  {
    if n >= 10 {
      DigitsReadBack(n / 10);
      assert Digits(n)[..|Digits(n)| - 1] == Digits(n / 10);
    } else {
      assert Digits(n)[..0] == "";
    }
  }

  function ReadDecimal(s: string): int
    requires s != ""
  {
    if s[0] == '-' then -NumberOf(s[1..]) else NumberOf(s)
  }

  /** Decimal text is read back: no two numbers are written alike. */
  lemma {:induction false} DecimalReadsBack(n: int)
    ensures ReadDecimal(Decimal(n)) == n
  {
    if n < 0 {
      DigitsReadBack(-n);
      assert Decimal(n)[1..] == Digits(-n);
    } else {
      DigitsReadBack(n);
    }
  }
}
