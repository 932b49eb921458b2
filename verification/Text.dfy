/** The string operations that the Go code takes from its standard library:
    `strings.Index` and `strings.Split` for one separator, `strconv.Atoi` on a
    64-bit platform, and the `%d` verb. */
module Text {
  import opened Wrappers

  const MAX_INT := 0x7fff_ffff_ffff_ffff
  const MIN_INT := -0x8000_0000_0000_0000

  predicate IsDigit(c: char) {
    '0' <= c <= '9'
  }

  predicate AllDigits(s: string) {
    forall i | 0 <= i < |s| :: IsDigit(s[i])
  }

  /** The number that a run of decimal digits denotes. */
  function Value(s: string): (n: int)
    requires AllDigits(s)
    ensures n >= 0
  {
    if s == "" then 0 else 10 * Value(s[..|s| - 1]) + (s[|s| - 1] as int - '0' as int)
  }

  function Atoi(s: string): Option<int> {
    var signed := s != "" && (s[0] == '+' || s[0] == '-');
    var digits := if signed then s[1..] else s;
    if digits == "" || !AllDigits(digits) then
      None
    else
      var n: int := if signed && s[0] == '-' then -Value(digits) else Value(digits);
      if MIN_INT <= n <= MAX_INT then Some(n) else None
  }

  /** Position of the first `c`, or -1. */
  function IndexOf(s: string, c: char): (i: int)
    ensures -1 <= i < |s|
    ensures i == -1 ==> c !in s
    ensures i >= 0 ==> s[i] == c && c !in s[..i]
  {
    if s == "" then -1
    else if s[0] == c then 0
    else
      var r := IndexOf(s[1..], c);
      if r < 0 then -1 else
        assert s[..r + 1] == [s[0]] + s[1..][..r];
        r + 1
  }

  lemma IndexOfIs(s: string, c: char, i: int)
    requires 0 <= i < |s| && s[i] == c && c !in s[..i]
    ensures IndexOf(s, c) == i
  {
  }

  /** The pieces of `s` between the occurrences of `sep`; never empty. */
  function Split(s: string, sep: char): (parts: seq<string>)
    ensures |parts| >= 1
  {
    var i := IndexOf(s, sep);
    if i < 0 then [s] else [s[..i]] + Split(s[i + 1..], sep)
  }

  lemma SplitCons(head: string, sep: char, tail: string)
    requires sep !in head
    ensures Split(head + [sep] + tail, sep) == [head] + Split(tail, sep)
  {
    var s := head + [sep] + tail;
    assert s[..|head|] == head;
    IndexOfIs(s, sep, |head|);
    assert s[|head| + 1..] == tail;
  }

  lemma SplitWhole(s: string, sep: char)
    requires sep !in s
    ensures Split(s, sep) == [s]
  {
  }

  /** A last piece after one more separator. */
  lemma {:induction false} SplitLast(s: string, sep: char, last: string)
    requires sep !in last
    ensures Split(s + [sep] + last, sep) == Split(s, sep) + [last]
    decreases |s|
  {
    hide Split, IndexOf, Atoi, Value, Digits, Decimal;
    var i := IndexOf(s, sep);
    SplitWhole(last, sep);
    if i < 0 {
      SplitWhole(s, sep);
      SplitCons(s, sep, last);
    } else {
      var head, tail := s[..i], s[i + 1..];
      SplitLast(tail, sep, last);
      SplitCons(head, sep, tail);
      SplitCons(head, sep, tail + [sep] + last);
      assert s == head + [sep] + tail;
      assert s + [sep] + last == head + [sep] + (tail + [sep] + last);
      assert [head] + (Split(tail, sep) + [last]) == ([head] + Split(tail, sep)) + [last];
    }
  }

  /** The `%d` verb. */
  function Decimal(n: int): string {
    if n < 0 then "-" + Digits(-n) else Digits(n)
  }

  function Digits(n: nat): (s: string)
    ensures s != "" && AllDigits(s)
  {
    if n < 10 then [('0' as int + n) as char] else Digits(n / 10) + [('0' as int + n % 10) as char]
  }

  lemma {:induction false} ValueOfDigits(n: nat)
    ensures Value(Digits(n)) == n
  {
    var s := Digits(n);
    if n < 10 {
      assert s[..|s| - 1] == "";
    } else {
      assert s[..|s| - 1] == Digits(n / 10);
      ValueOfDigits(n / 10);
    }
  }

  lemma AtoiOfDigits(s: string)
    requires s != "" && AllDigits(s)
    ensures Atoi(s) == if Value(s) <= MAX_INT then Some(Value(s)) else None
    ensures Atoi("-" + s) == if -Value(s) >= MIN_INT then Some(-Value(s)) else None
    ensures Atoi("+" + s) == Atoi(s)
  {
    assert IsDigit(s[0]);
    assert ("-" + s)[1..] == s && ("+" + s)[1..] == s;
  }

  /** Printing a number and reading it again gives the number back exactly if it fits 64 bits. */
  lemma AtoiOfDecimal(n: int)
    ensures Atoi(Decimal(n)) == if -0x8000_0000_0000_0000 <= n < 0x8000_0000_0000_0000 then Some(n) else None
  {
    var m := if n < 0 then -n else n;
    ValueOfDigits(m);
    AtoiOfDigits(Digits(m));
  }

  lemma DecimalIsPlain(n: int)
    ensures '\n' !in Decimal(n) && '\r' !in Decimal(n) && '\0' !in Decimal(n)
  {
    var d := Digits(if n < 0 then -n else n);
    assert forall i | 0 <= i < |d| :: IsDigit(d[i]);
  }

  /** The white space of Unicode, as `unicode.IsSpace` has it. */
  predicate IsSpace(c: char) {
    || '\t' <= c <= '\r' || c == ' ' || c == '\U{85}' || c == '\U{A0}' || c == '\U{1680}'
    || '\U{2000}' <= c <= '\U{200A}' || c == '\U{2028}' || c == '\U{2029}' || c == '\U{202F}' || c == '\U{205F}'
        || c == '\U{3000}'
  }

  function TrimSpace(s: string): (r: string)
    ensures r != "" ==> !IsSpace(r[0]) && !IsSpace(r[|r| - 1])
    ensures r == "" <==> forall i | 0 <= i < |s| :: IsSpace(s[i])
    decreases |s|
  {
    if s == "" then ""
    else if IsSpace(s[0]) then TrimSpace(s[1..])
    else if IsSpace(s[|s| - 1]) then TrimSpace(s[..|s| - 1])
    else s
  }

  /** Trimming takes white space from both ends and nothing else. */
  lemma {:induction false} TrimSpaceIs(s: string) returns (left: string, right: string)
    ensures s == left + TrimSpace(s) + right
    ensures (forall i | 0 <= i < |left| :: IsSpace(left[i])) && forall i | 0 <= i < |right| :: IsSpace(right[i])
    decreases |s|
  {
    hide IsSpace;
    if s != "" && IsSpace(s[0]) {
      var more, right' := TrimSpaceIs(s[1..]);
      hide TrimSpace;
      OneMoreInFront(s, more, TrimSpace(s[1..]), right');
      return [s[0]] + more, right';
    }
    if s != "" && IsSpace(s[|s| - 1]) {
      var left', more := TrimSpaceIs(s[..|s| - 1]);
      assert s == s[..|s| - 1] + [s[|s| - 1]];
      return left', more + [s[|s| - 1]];
    }
    return "", "";
  }

  lemma OneMoreInFront(s: string, left: string, middle: string, right: string)
    requires s != "" && s[1..] == left + middle + right
    ensures s == ([s[0]] + left) + middle + right
  {
    assert s == [s[0]] + s[1..];
  }
}
