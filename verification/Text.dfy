/** C strings: blanks, searching, and numbers as printf, atoi, strtol and strtoul handle them. */
module Text {

  predicate IsSpace(c: char) {
    c == ' ' || c == '\t' || c == '\n' || c == '\U{000B}' || c == '\U{000C}' || c == '\r'
  }

  function TrimLeft(s: string): string {
    if s != [] && IsSpace(s[0]) then TrimLeft(s[1..]) else s
  }

  function TrimRight(s: string): string {
    if s != [] && IsSpace(s[|s| - 1]) then TrimRight(s[..|s| - 1]) else s
  }

  /** The text between the outer blanks. */
  function Trim(s: string): string {
    TrimRight(TrimLeft(s))
  }

  ghost predicate Blank(s: string) {
    forall i :: 0 <= i < |s| ==> IsSpace(s[i])
  }

  /** Some text without outer blanks. */
  ghost predicate Solid(s: string) {
    s != [] && !IsSpace(s[0]) && !IsSpace(s[|s| - 1])
  }

  lemma {:induction false} TrimLeftSolid(pre: string, s: string)
    requires Blank(pre) && s != [] && !IsSpace(s[0])
    ensures TrimLeft(pre + s) == s
    decreases |pre|
  {
    if pre == [] {
      assert pre + s == s;
    } else {
      assert (pre + s)[1..] == pre[1..] + s;
      TrimLeftSolid(pre[1..], s);
    }
  }

  lemma {:induction false} TrimRightSolid(s: string, post: string)
    requires Blank(post) && s != [] && !IsSpace(s[|s| - 1])
    ensures TrimRight(s + post) == s
    decreases |post|
  {
    if post == [] {
      assert s + post == s;
    } else {
      assert (s + post)[..|s + post| - 1] == s + post[..|post| - 1];
      TrimRightSolid(s, post[..|post| - 1]);
    }
  }

  /** Trimming gives back a solid text from between any blanks. */
  lemma TrimSolid(pre: string, s: string, post: string)
    requires Blank(pre) && Solid(s) && Blank(post)
    ensures Trim(pre + s + post) == s
  {
    assert pre + s + post == pre + (s + post);
    TrimLeftSolid(pre, s + post);
    TrimRightSolid(s, post);
  }

  /** The index of the first c, or the length when there is none. */
  function Find(s: string, c: char): (i: nat)
    ensures i <= |s| && (i < |s| ==> s[i] == c) && c !in s[..i]
  {
    if s == [] || s[0] == c then 0 else
      var i := 1 + Find(s[1..], c);
      assert s[..i] == [s[0]] + s[1..][..i - 1];
      i
  }

  lemma FindIs(a: string, c: char, b: string)
    requires c !in a
    ensures Find(a + [c] + b, c) == |a|
  {
    var s := a + [c] + b;
    var i := Find(s, c);
    assert s[|a|] == c;
    assert forall k :: 0 <= k < |a| ==> s[k] == a[k];
    assert forall k :: 0 <= k < i ==> s[..i][k] == s[k];
  }

  lemma FindNone(s: string, c: char)
    requires c !in s
    ensures Find(s, c) == |s|
  {
  }

  /** The numeric value of a digit in any base up to 16, or 16. */
  function DigitValue(c: char): (d: nat)
    ensures d <= 16
  {
    if '0' <= c <= '9' then c as nat - '0' as nat
    else if 'a' <= c <= 'f' then c as nat - 'a' as nat + 10
    else if 'A' <= c <= 'F' then c as nat - 'A' as nat + 10
    else 16
  }

  /** How many digits of the base the text starts with. */
  function DigitRun(s: string, base: nat): (k: nat)
    ensures k <= |s|
  {
    if s != [] && DigitValue(s[0]) < base then 1 + DigitRun(s[1..], base) else 0
  }

  /** The number a string of digits denotes. */
  function Value(s: string, base: nat): nat {
    if s == [] then 0 else base * Value(s[..|s| - 1], base) + DigitValue(s[|s| - 1])
  }

  /** The number at the start of the text, read in the base. */
  function Leading(s: string, base: nat): nat {
    Value(s[..DigitRun(s, base)], base)
  }

  /** `atoi` for values that fit. */
  function Atoi(s: string): int {
    var t := TrimLeft(s);
    if t != [] && t[0] == '-' then (var m: int := Leading(t[1..], 10); -m)
    else if t != [] && t[0] == '+' then Leading(t[1..], 10)
    else Leading(t, 10)
  }

  /** The base `strtol` and `strtoul` choose when told 0, applied to an unsigned numeral. */
  function LeadingAnyBase(s: string): nat {
    if |s| > 2 && s[0] == '0' && (s[1] == 'x' || s[1] == 'X') && DigitValue(s[2]) < 16 then Leading(s[2..], 16)
    else if s != [] && s[0] == '0' then Leading(s, 8)
    else Leading(s, 10)
  }

  /** `strtol(s, NULL, 0)` for values that fit. */
  function StrToL(s: string): int {
    var t := TrimLeft(s);
    if t != [] && t[0] == '-' then (var m: int := LeadingAnyBase(t[1..]); -m)
    else if t != [] && t[0] == '+' then LeadingAnyBase(t[1..])
    else LeadingAnyBase(t)
  }

  function Digit(d: nat): (c: char)
    requires d < 10
    ensures '0' <= c <= '9' && DigitValue(c) == d
  {
    '0' + d as char
  }

  predicate Digits(s: string) {
    forall i :: 0 <= i < |s| ==> '0' <= s[i] <= '9'
  }

  /** `%u`. */
  function Decimal(n: nat): (s: string)
    ensures s != [] && Digits(s)
    ensures s[0] == '0' ==> n == 0 && |s| == 1
  {
    if n < 10 then [Digit(n)] else Decimal(n / 10) + [Digit(n % 10)]
  }

  /** `%d`. */
  function Integer(n: int): (s: string)
    ensures s != []
    ensures n >= 0 ==> s == Decimal(n)
  {
    if n < 0 then "-" + Decimal(-n) else Decimal(n)
  }

  lemma {:induction false} ValueOfDecimal(n: nat)
    ensures Value(Decimal(n), 10) == n
  {
    if n < 10 {
      assert [Digit(n)][..0] == [];
      assert Value([Digit(n)], 10) == 10 * Value([], 10) + n;
    } else {
      var s := Decimal(n);
      assert s[..|s| - 1] == Decimal(n / 10);
      ValueOfDecimal(n / 10);
    }
  }

  lemma {:induction false} DigitRunAll(s: string, rest: string)
    requires Digits(s) && (rest != [] ==> DigitValue(rest[0]) >= 10)
    ensures DigitRun(s + rest, 10) == |s|
    decreases |s|
  {
    if s == [] {
      assert s + rest == rest;
    } else {
      assert (s + rest)[1..] == s[1..] + rest;
      DigitRunAll(s[1..], rest);
    }
  }

  lemma LeadingDecimal(n: nat)
    ensures Leading(Decimal(n), 10) == n
  {
    var s := Decimal(n);
    DigitRunAll(s, []);
    assert s + [] == s && s[..|s|] == s;
    ValueOfDecimal(n);
  }

  /** Reading what was printed. */
  lemma AtoiOfInteger(n: int)
    ensures Atoi(Integer(n)) == n
  {
    var s := Integer(n);
    assert !IsSpace(s[0]);
    if n < 0 {
      LeadingDecimal(-n);
      assert s[1..] == Decimal(-n);
    } else {
      LeadingDecimal(n);
    }
  }

  lemma StrToLOfInteger(n: int)
    ensures StrToL(Integer(n)) == n
  {
    var s := Integer(n);
    assert !IsSpace(s[0]);
    if n < 0 {
      LeadingDecimal(-n);
      assert s[1..] == Decimal(-n);
    } else {
      LeadingDecimal(n);
      if n == 0 {
        OctalZero();
      }
    }
  }

  lemma OctalZero()
    ensures LeadingAnyBase(Decimal(0)) == 0
  {
    var s := Decimal(0);
    assert s[1..] == [];
    assert DigitRun(s, 8) == 1;
    assert s[..1][..0] == [];
    assert Value(s[..1], 8) == 8 * Value([], 8) + 0;
  }
}
