// The pieces of Go's `strings` and `strconv` packages the program uses, for ASCII text.

module Text {
  import opened Base

  // ----- Characters and case ---------------------------------------------------------

  /** White space as `strings.TrimSpace` sees it in ASCII. */
  predicate IsSpace(c: char) {
    c == ' ' || ('\t' <= c <= '\r')
  }

  predicate IsDigit(c: char) {
    '0' <= c <= '9'
  }

  function UpperChar(c: char): char {
    if 'a' <= c <= 'z' then ((c as int) - 32) as char else c
  }

  function ToUpper(s: string): (r: string)
    ensures |r| == |s|
    ensures forall i :: 0 <= i < |s| ==> r[i] == UpperChar(s[i])
  {
    seq(|s|, i requires 0 <= i < |s| => UpperChar(s[i]))
  }

  predicate HasPrefix(s: string, p: string) {
    p <= s
  }

  // ----- Trimming --------------------------------------------------------------------

  function TrimLeft(s: string): (r: string)
    ensures r == [] || !IsSpace(r[0])
  {
    if s != [] && IsSpace(s[0]) then TrimLeft(s[1..]) else s
  }

  function TrimRight(s: string): (r: string)
    ensures r == [] || !IsSpace(r[|r| - 1])
  {
    if s != [] && IsSpace(s[|s| - 1]) then TrimRight(s[..|s| - 1]) else s
  }

  function TrimSpace(s: string): string {
    TrimRight(TrimLeft(s))
  }

  /** No white space at either end. */
  predicate Trimmed(s: string) {
    s == [] || (!IsSpace(s[0]) && !IsSpace(s[|s| - 1]))
  }

  lemma {:induction false} TrimLeftSuffix(s: string)
    ensures |TrimLeft(s)| <= |s| && TrimLeft(s) == s[|s| - |TrimLeft(s)|..]
  {
    if s != [] && IsSpace(s[0]) {
      TrimLeftSuffix(s[1..]);
      assert s[1..][|s| - 1 - |TrimLeft(s)|..] == s[|s| - |TrimLeft(s)|..];
    }
  }

  lemma {:induction false} TrimRightPrefix(s: string)
    ensures |TrimRight(s)| <= |s| && TrimRight(s) == s[..|TrimRight(s)|]
    decreases |s|
  {
    if s != [] && IsSpace(s[|s| - 1]) {
      TrimRightPrefix(s[..|s| - 1]);
    }
  }

  lemma TrimSpaceTrims(s: string)
    ensures Trimmed(TrimSpace(s))
    ensures Trimmed(s) ==> TrimSpace(s) == s
    ensures forall c :: c in TrimSpace(s) ==> c in s
  {
    var l := TrimLeft(s);
    var r := TrimRight(l);
    TrimLeftSuffix(s);
    TrimRightPrefix(l);
    if r != [] { assert r[0] == l[0]; }
    forall c | c in r ensures c in s {
      var i :| 0 <= i < |r| && r[i] == c;
      assert r[i] == l[i] && l[i] == s[|s| - |l| + i];
    }
  }

  ghost predicate AllSpace(s: string) {
    forall c :: c in s ==> IsSpace(c)
  }

  lemma {:induction false} TrimLeftPad(pad: string, s: string)
    requires AllSpace(pad)
    ensures TrimLeft(pad + s) == TrimLeft(s)
    decreases |pad|
  {
    if pad == [] {
      assert pad + s == s;
    } else {
      assert pad[0] in pad;
      assert (pad + s)[1..] == pad[1..] + s;
      TrimLeftPad(pad[1..], s);
    }
  }

  lemma {:induction false} TrimRightPad(s: string, pad: string)
    requires AllSpace(pad)
    ensures TrimRight(s + pad) == TrimRight(s)
    decreases |pad|
  {
    if pad == [] {
      assert s + pad == s;
    } else {
      assert pad[|pad| - 1] in pad;
      assert (s + pad)[..|s + pad| - 1] == s + pad[..|pad| - 1];
      TrimRightPad(s, pad[..|pad| - 1]);
    }
  }

  /** Padding a trimmed text with white space on both sides is undone by trimming. */
  lemma TrimPadded(left: string, s: string, right: string)
    requires AllSpace(left) && AllSpace(right) && Trimmed(s)
    ensures TrimSpace(left + s + right) == s
  {
    assert left + s + right == left + (s + right);
    TrimLeftPad(left, s + right);
    if s == [] {
      assert s + right == right + [];
      TrimLeftPad(right, []);
    } else {
      assert (s + right)[0] == s[0];
      TrimRightPad(s, right);
    }
  }

  // ----- Splitting and joining -------------------------------------------------------

  /** `strings.Split` at every occurrence of one character. */
  function Split(s: string, sep: char): (parts: seq<string>)
    ensures |parts| >= 1
    decreases |s|
  {
    if s == [] then [""]
    else
      var rest := Split(s[1..], sep);
      if s[0] == sep then [""] + rest else [[s[0]] + rest[0]] + rest[1..]
  }

  /** Every part is a piece of the text without the separator. */
  lemma {:induction false} SplitChars(s: string, sep: char, i: nat)
    requires i < |Split(s, sep)|
    ensures sep !in Split(s, sep)[i] && forall c :: c in Split(s, sep)[i] ==> c in s
  {
    if s != [] {
      var rest := Split(s[1..], sep);
      if s[0] != sep {
        SplitChars(s[1..], sep, i);
        assert i > 0 ==> Split(s, sep)[i] == rest[i];
      } else if i > 0 {
        SplitChars(s[1..], sep, i - 1);
      }
    }
  }

  function Join(parts: seq<string>, sep: string): string
  {
    if |parts| == 0 then ""
    else if |parts| == 1 then parts[0]
    else parts[0] + sep + Join(parts[1..], sep)
  }

  lemma {:induction false} SplitNone(s: string, sep: char)
    requires sep !in s
    ensures Split(s, sep) == [s]
    decreases |s|
  {
    if s != [] {
      assert sep !in s[1..];
      SplitNone(s[1..], sep);
      assert s[0] in s && [s[0]] + s[1..] == s;
    }
  }

  lemma {:induction false} SplitCons(s: string, sep: char, rest: string)
    requires sep !in s
    ensures Split(s + [sep] + rest, sep) == [s] + Split(rest, sep)
    decreases |s|
  {
    var all := s + [sep] + rest;
    if s == [] {
      assert all[1..] == rest;
    } else {
      assert s[0] in s && sep !in s[1..];
      assert all[1..] == s[1..] + [sep] + rest;
      SplitCons(s[1..], sep, rest);
      assert [s[0]] + s[1..] == s;
    }
  }

  /** Splitting undoes joining when no part holds the separator. */
  lemma {:induction false} SplitJoin(parts: seq<string>, sep: char)
    requires |parts| >= 1
    requires forall p :: p in parts ==> sep !in p
    ensures Split(Join(parts, [sep]), sep) == parts
  {
    var first := parts[0];
    assert first in parts;
    if |parts| == 1 {
      SplitNone(first, sep);
    } else {
      var others := parts[1..];
      var rest := Join(others, [sep]);
      assert parts == [first] + others && Join(parts, [sep]) == first + [sep] + rest;
      SplitCons(first, sep, rest);
      SplitJoin(others, sep);
    }
  }

  /** How often a character occurs. */
  function Count(s: string, c: char): nat {
    if s == [] then 0 else (if s[0] == c then 1 else 0) + Count(s[1..], c)
  }

  lemma {:induction false} CountConcat(a: string, b: string, c: char)
    ensures Count(a + b, c) == Count(a, c) + Count(b, c)
    decreases |a|
  {
    if a == [] {
      assert a + b == b;
    } else {
      assert (a + b)[1..] == a[1..] + b;
      CountConcat(a[1..], b, c);
    }
  }

  lemma {:induction false} CountZero(s: string, c: char)
    ensures Count(s, c) == 0 <==> c !in s
  {
    if s != [] {
      CountZero(s[1..], c);
      assert s == [s[0]] + s[1..];
    }
  }

  // ----- Numbers ---------------------------------------------------------------------

  const MAX_UINT64: int := 0xFFFF_FFFF_FFFF_FFFF
  const MAX_INT64: int := 0x7FFF_FFFF_FFFF_FFFF
  const MIN_INT64: int := -0x8000_0000_0000_0000

  function DigitChar(d: nat): char
    requires d < 10
  {
    ('0' as int + d) as char
  }

  function DigitValue(c: char): int {
    c as int - '0' as int
  }

  function Digits(n: nat): (s: string)
    ensures |s| >= 1
    ensures forall c :: c in s ==> IsDigit(c)
  {
    if n < 10 then [DigitChar(n)] else Digits(n / 10) + [DigitChar(n % 10)]
  }

  /** `strconv.Itoa`. */
  function Itoa(n: int): (s: string)
    ensures |s| >= 1
    ensures forall c :: c in s ==> IsDigit(c) || c == '-'
  {
    if n < 0 then "-" + Digits(-n) else Digits(n)
  }

  /** The digit loop of `strconv.ParseUint`: None on a syntax error; overflow stops the scan
      at once with the largest value, whatever follows. */
  function ParseUint(s: string, acc: nat): Option<nat>
    decreases |s|
  {
    if s == [] then Some(acc)
    else if !IsDigit(s[0]) then None
    else if acc > MAX_UINT64 / 10 then Some(MAX_UINT64)
    else
      var n := acc * 10 + DigitValue(s[0]);
      if n > MAX_UINT64 then Some(MAX_UINT64) else ParseUint(s[1..], n)
  }

  /** `n, _ := strconv.ParseInt(s, 10, 64)` with the error thrown away: 0 on a syntax error,
      the nearest end of the range on overflow. `strconv.Atoi` gives the same values. */
  function ParseInt(s: string): (n: int)
    ensures MIN_INT64 <= n <= MAX_INT64
  {
    var neg := s != [] && s[0] == '-';
    var signed := neg || (s != [] && s[0] == '+');
    var body := if signed then s[1..] else s;
    if body == [] then 0
    else
      var u: int := ParseUint(body, 0).GetOr(0);
      if neg then (if u > MAX_INT64 + 1 then MIN_INT64 else -u)
      else (if u > MAX_INT64 then MAX_INT64 else u)
  }

  predicate AllDigits(d: string) {
    forall i :: 0 <= i < |d| ==> '0' <= d[i] <= '9'
  }

  /** The number a run of digits writes. */
  function Value(d: string): nat
    requires AllDigits(d)
  {
    ValueAfter(0, d)
  }

  /** ... with a number already read before it. */
  function ValueAfter(acc: nat, d: string): nat
    requires AllDigits(d)
  {
    if d == [] then acc else ValueAfter(acc, d[..|d| - 1]) * 10 + (d[|d| - 1] as int - 48)
  }

  lemma {:induction false} ValueCons(acc: nat, d: string)
    requires AllDigits(d) && d != []
    ensures ValueAfter(acc, d) == ValueAfter(acc * 10 + DigitValue(d[0]), d[1..])
    decreases |d|
  {
    var n := |d| - 1;
    if n == 0 {
      assert d[..0] == [] && d[1..] == [];
    } else {
      ValueCons(acc, d[..n]);
      assert d[..n][1..] == d[1..][..n - 1];
    }
  }

  lemma {:induction false} ValueGrows(acc: nat, d: string)
    requires AllDigits(d)
    ensures acc <= ValueAfter(acc, d)
  {
    if d != [] { ValueGrows(acc, d[..|d| - 1]); }
  }

  lemma {:induction false} ParseUintExact(d: string, rest: string, acc: nat)
    requires AllDigits(d) && acc <= MAX_UINT64 && (rest == [] || !IsDigit(rest[0]))
    ensures var v := ValueAfter(acc, d);
      ParseUint(d + rest, acc) == if v > MAX_UINT64 then Some(MAX_UINT64) else if rest == [] then Some(v) else None
    decreases |d|
  {
    if d == [] {
      assert d + rest == rest;
    } else {
      var n := acc * 10 + DigitValue(d[0]);
      assert (d + rest)[0] == d[0] && (d + rest)[1..] == d[1..] + rest;
      ValueCons(acc, d);
      if n > MAX_UINT64 {
        ValueGrows(n, d[1..]);
      } else {
        ParseUintExact(d[1..], rest, n);
      }
    }
  }

  /** What a text of any form reads as: a sign or none, digits, and the rest. Digits alone give their value, held within 64
      bits; anything after them gives 0, unless the digits have passed 64 unsigned bits by then. */
  lemma ParseIntExact(sign: string, d: string, rest: string)
    requires sign == "" || sign == "+" || sign == "-"
    requires AllDigits(d) && (rest == "" || !IsDigit(rest[0]))
    requires sign == "" && d == "" && rest != "" ==> rest[0] != '+' && rest[0] != '-'
    ensures var n := if rest != "" && Value(d) <= 0xFFFF_FFFF_FFFF_FFFF then 0 else Value(d);
      ParseInt(sign + d + rest) == if sign == "-" then Max(-n, -0x8000_0000_0000_0000) else Min(n, 0x7FFF_FFFF_FFFF_FFFF)
  {
    var s := sign + d + rest;
    ParseUintExact(d, rest, 0);
    if sign == "" {
      assert s == d + rest;
      if d != "" { assert s[0] == d[0]; } else { assert s == rest; }
    } else {
      assert s[0] == sign[0] && s[1..] == d + rest;
    }
    if d == "" && rest == "" { assert d + rest == ""; }
  }

  lemma {:induction false} ParseDigits(n: nat, rest: string)
    requires n <= MAX_UINT64
    ensures ParseUint(Digits(n) + rest, 0) == ParseUint(rest, n)
    decreases n
  {
    var d := [DigitChar(n % 10)];
    if n < 10 {
      assert (d + rest)[1..] == rest;
    } else {
      assert Digits(n) + rest == Digits(n / 10) + (d + rest);
      ParseDigits(n / 10, d + rest);
      assert (d + rest)[1..] == rest;
      assert n == (n / 10) * 10 + n % 10;
    }
  }

  /** Printing a 64-bit number and reading it back gives the number. */
  lemma ParseItoa(n: int)
    requires MIN_INT64 <= n <= MAX_INT64
    ensures ParseInt(Itoa(n)) == n
  {
    var m := if n < 0 then -n else n;
    ParseDigits(m, []);
    assert Digits(m) + [] == Digits(m);
    if n < 0 {
      assert Itoa(n)[1..] == Digits(m);
    } else {
      assert Itoa(n)[0] in Itoa(n);
      assert IsDigit(Digits(m)[0]);
    }
  }

  lemma {:induction false} DigitsInjective(a: nat, b: nat)
    requires Digits(a) == Digits(b)
    ensures a == b
    decreases a
  {
    var da, db := Digits(a), Digits(b);
    assert da[|da| - 1] == db[|db| - 1];
    assert da[|da| - 1] == DigitChar(a % 10) && db[|db| - 1] == DigitChar(b % 10);
    if a >= 10 && b >= 10 {
      assert da[..|da| - 1] == Digits(a / 10) && db[..|db| - 1] == Digits(b / 10);
      DigitsInjective(a / 10, b / 10);
    }
  }

  lemma ItoaInjective(a: int, b: int)
    requires Itoa(a) == Itoa(b)
    ensures a == b
  {
    assert a >= 0 ==> IsDigit(Itoa(a)[0]);
    assert b >= 0 ==> IsDigit(Itoa(b)[0]);
    if a < 0 && b < 0 {
      assert Itoa(a)[1..] == Digits(-a) && Itoa(b)[1..] == Digits(-b);
      DigitsInjective(-a, -b);
    } else if a >= 0 && b >= 0 {
      DigitsInjective(a, b);
    }
  }
}
