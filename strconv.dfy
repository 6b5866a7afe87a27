/** Decimal conversion and splitting of strings, as the stone-play core uses them: Go's strconv.Itoa and
    strconv.Atoi on int, and strings.Split with a one-character separator. Integers are unbounded here. */
module Strconv {

  datatype Option<+T> = None | Some(value: T)

  predicate IsDigit(ch: char) { '0' <= ch <= '9' }

  /** A non-empty run of decimal digits. */
  predicate IsDigits(s: string) {
    |s| > 0 && forall i :: 0 <= i < |s| ==> IsDigit(s[i])
  }

  function DigitChar(d: nat): (ch: char)
    requires d < 10
    ensures IsDigit(ch) && ch as int - '0' as int == d
  {
    ('0' as int + d) as char
  }

  /** The canonical decimal spelling of n: no sign, no leading zeros. */
  function Decimal(n: nat): (s: string)
    ensures IsDigits(s)
    ensures |s| > 1 ==> s[0] != '0'
  {
    if n < 10 then [DigitChar(n)] else Decimal(n / 10) + [DigitChar(n % 10)]
  }

  /** The value of a digit string, most significant digit first. */
  function DigitsValue(s: string): nat
    requires forall i :: 0 <= i < |s| ==> IsDigit(s[i])
  {
    if s == [] then 0
    else
      assert IsDigit(s[|s| - 1]);
      DigitsValue(s[..|s| - 1]) * 10 + (s[|s| - 1] as int - '0' as int)
  }

  /** strconv.Itoa: a leading '-' for negative numbers, then the canonical digits. */
  function Itoa(n: int): (s: string)
    ensures |s| > 0 && ':' !in s
  {
    if n < 0 then "-" + Decimal(-n) else Decimal(n)
  }

  /** strconv.Atoi: an optional '+' or '-' followed by at least one decimal digit; anything else is an error. */
  function Atoi(s: string): (r: Option<int>)
    ensures r.Some? <==> IsDigits(s) || (|s| > 1 && (s[0] == '+' || s[0] == '-') && IsDigits(s[1..]))
  {
    if |s| > 0 && s[0] == '-' && IsDigits(s[1..]) then Some(0 - DigitsValue(s[1..]) as int)
    else if |s| > 0 && s[0] == '+' && IsDigits(s[1..]) then Some(DigitsValue(s[1..]))
    else if IsDigits(s) then Some(DigitsValue(s))
    else None
  }

  lemma {:induction false} DecimalValue(n: nat)
    ensures DigitsValue(Decimal(n)) == n
  {
    if n >= 10 {
      var s := Decimal(n);
      assert s[..|s| - 1] == Decimal(n / 10);
      DecimalValue(n / 10);
    }
  }

  /** Atoi inverts Itoa on every integer. */
  lemma AtoiItoa(n: int)
    ensures Atoi(Itoa(n)) == Some(n)
  {
    var s := Itoa(n);
    if n < 0 {
      DecimalValue(-n);
      assert s[0] == '-' && s[1..] == Decimal(-n);
      assert IsDigits(s[1..]);
    } else {
      DecimalValue(n);
      assert s == Decimal(n) && s[0] != '-' && s[0] != '+';
    }
  }

  lemma ItoaInjective(m: int, n: int)
    requires Itoa(m) == Itoa(n)
    ensures m == n
  {
    AtoiItoa(m);
    AtoiItoa(n);
  }

  /** strings.Split(s, string(sep)): the pieces between the separators, as many as there are separators plus one. */
  function Split(s: string, sep: char): (parts: seq<string>)
    ensures |parts| > 0
  {
    if s == [] then [""]
    else
      var rest := Split(s[1..], sep);
      if s[0] == sep then [""] + rest else [[s[0]] + rest[0]] + rest[1..]
  }

  /** strings.Join(parts, string(sep)). */
  function Join(parts: seq<string>, sep: char): string
    requires |parts| > 0
  {
    if |parts| == 1 then parts[0] else parts[0] + [sep] + Join(parts[1..], sep)
  }

  /** Split and Join are inverse: joining the pieces gives back the string, and no piece holds the separator. */
  lemma {:induction false} SplitJoin(s: string, sep: char)
    ensures Join(Split(s, sep), sep) == s
    ensures forall i :: 0 <= i < |Split(s, sep)| ==> sep !in Split(s, sep)[i]
  {
    if s != [] {
      var rest := Split(s[1..], sep);
      SplitJoin(s[1..], sep);
      if s[0] == sep {
        assert Split(s, sep)[1..] == rest;
      } else {
        var parts := Split(s, sep);
        assert parts[0] == [s[0]] + rest[0];
        if |rest| == 1 {
          assert parts == [[s[0]] + rest[0]];
        } else {
          assert parts[1..] == rest[1..];
          assert Join(rest, sep) == rest[0] + [sep] + Join(rest[1..], sep);
        }
        forall i | 0 <= i < |parts| ensures sep !in parts[i] {
          if i > 0 { assert parts[i] == rest[i]; }
        }
      }
    }
  }

  /** A prefix without the separator is glued to the first piece of what follows it. */
  lemma {:induction false} SplitPrefix(a: string, t: string, sep: char)
    requires sep !in a
    ensures Split(a + t, sep) == [a + Split(t, sep)[0]] + Split(t, sep)[1..]
  {
    if a != [] {
      var u := a[1..] + t;
      assert (a + t)[0] == a[0] && (a + t)[1..] == u;
      SplitPrefix(a[1..], t, sep);
      var r := Split(u, sep);
      var v := Split(t, sep);
      assert r[0] == a[1..] + v[0] && r[1..] == v[1..];
      assert Split(a + t, sep) == [[a[0]] + r[0]] + r[1..];
      assert [a[0]] + (a[1..] + v[0]) == a + v[0];
    } else {
      var v := Split(t, sep);
      assert a + t == t;
      assert a + v[0] == v[0];
      assert v == [v[0]] + v[1..];
    }
  }

  /** Splitting "a:b" where neither part holds a colon gives exactly the two parts. */
  lemma SplitPair(a: string, b: string, sep: char)
    requires sep !in a && sep !in b
    ensures Split(a + [sep] + b, sep) == [a, b]
  {
    SplitPrefix(b, [], sep);
    assert b + [] == b;
    assert Split([sep] + b, sep) == [""] + Split(b, sep) by {
      assert ([sep] + b)[1..] == b;
    }
    SplitPrefix(a, [sep] + b, sep);
    assert a + [sep] + b == a + ([sep] + b);
    assert a + "" == a;
  }

  /** A string without the separator splits into itself alone. */
  lemma SplitNone(a: string, sep: char)
    requires sep !in a
    ensures Split(a, sep) == [a]
  {
    SplitPrefix(a, [], sep);
    assert a + [] == a;
  }
}
