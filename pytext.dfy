/** The few Python string builtins the server and the agent rely on:
    str.strip(), str.upper(), str.lower(), str(int) and int(str). */
module PyText {
  import opened Common

  /** Python's str.isspace() for a single character (the characters str.strip()
      removes when called without arguments). */
  predicate IsSpace(c: char)
  {
    || c == ' ' || c == '\t' || c == '\n' || c == '\r' || c == '\U{B}' || c == '\U{C}'
    || ('\U{1C}' <= c <= '\U{1F}') || c == '\U{85}' || c == '\U{A0}' || c == '\U{1680}'
    || ('\U{2000}' <= c <= '\U{200A}') || c == '\U{2028}' || c == '\U{2029}'
    || c == '\U{202F}' || c == '\U{205F}' || c == '\U{3000}'
  }

  predicate AllSpace(s: string)
  {
    forall i :: 0 <= i < |s| ==> IsSpace(s[i])
  }

  /** Drops leading whitespace: what remains is a suffix of s that starts with
      a non-space character, and everything dropped was whitespace. */
  function TrimLeft(s: string): (r: string)
    ensures |r| <= |s| && r == s[|s| - |r|..]
    ensures AllSpace(s[..|s| - |r|])
    ensures r == [] || !IsSpace(r[0])
  {
    if s != [] && IsSpace(s[0]) then TrimLeft(s[1..]) else s
  }

  /** Drops trailing whitespace: what remains is a prefix of s that ends with
      a non-space character, and everything dropped was whitespace. */
  function TrimRight(s: string): (r: string)
    ensures |r| <= |s| && r == s[..|r|]
    ensures AllSpace(s[|r|..])
    ensures r == [] || !IsSpace(r[|r| - 1])
  {
    if s != [] && IsSpace(s[|s| - 1]) then TrimRight(s[..|s| - 1]) else s
  }

  /** str.strip(): neither end of the result is whitespace. */
  function Strip(s: string): (r: string)
    ensures |r| <= |s|
    ensures r == [] || (!IsSpace(r[0]) && !IsSpace(r[|r| - 1]))
  {
    TrimRight(TrimLeft(s))
  }

  lemma {:induction false} TrimLeftOfPadded(w: string, t: string)
    requires AllSpace(w)
    requires t == [] || !IsSpace(t[0])
    ensures TrimLeft(w + t) == t
  {
    if w != [] {
      assert (w + t)[1..] == w[1..] + t;
      TrimLeftOfPadded(w[1..], t);
    }
  }

  lemma {:induction false} TrimRightOfPadded(t: string, w: string)
    requires AllSpace(w)
    requires t == [] || !IsSpace(t[|t| - 1])
    ensures TrimRight(t + w) == t
  {
    if w != [] {
      assert (t + w)[..|t + w| - 1] == t + w[..|w| - 1];
      TrimRightOfPadded(t, w[..|w| - 1]);
    } else {
      assert t + w == t;
    }
  }

  /** strip() undoes padding: whitespace added on either side of a text whose
      ends are not whitespace is exactly what strip() removes. */
  lemma StripOfPadded(left: string, t: string, right: string)
    requires AllSpace(left) && AllSpace(right)
    requires t == [] || (!IsSpace(t[0]) && !IsSpace(t[|t| - 1]))
    ensures Strip(left + t + right) == t
  {
    assert left + t + right == left + (t + right);
    if t == [] {
      assert AllSpace(t + right);
      assert TrimLeft(left + (t + right)) == [] by {
        assert t + right == right;
        AllSpaceTrimsAway(left + right);
      }
    } else {
      TrimLeftOfPadded(left, t + right);
      TrimRightOfPadded(t, right);
    }
  }

  lemma AllSpaceTrimsAway(s: string)
    requires AllSpace(s)
    ensures TrimLeft(s) == []
  {
  }

  function UpperChar(c: char): char
  {
    if 'a' <= c <= 'z' then (c as int - 32) as char else c
  }

  function LowerChar(c: char): char
  {
    if 'A' <= c <= 'Z' then (c as int + 32) as char else c
  }

  /** str.upper() on ASCII letters; every other character is kept. */
  function Upper(s: string): (r: string)
    ensures |r| == |s|
    ensures forall i :: 0 <= i < |s| ==> r[i] == UpperChar(s[i])
  {
    seq(|s|, i requires 0 <= i < |s| => UpperChar(s[i]))
  }

  /** str.lower() on ASCII letters; every other character is kept. */
  function Lower(s: string): (r: string)
    ensures |r| == |s|
    ensures forall i :: 0 <= i < |s| ==> r[i] == LowerChar(s[i])
  {
    seq(|s|, i requires 0 <= i < |s| => LowerChar(s[i]))
  }

  predicate IsDigit(c: char)
  {
    '0' <= c <= '9'
  }

  predicate AllDigits(s: string)
  {
    forall i :: 0 <= i < |s| ==> IsDigit(s[i])
  }

  function DigitChar(d: nat): (c: char)
    requires d < 10
    ensures IsDigit(c) && c as int - '0' as int == d
  {
    (d + '0' as int) as char
  }

  /** The number a string of decimal digits denotes (last digit least significant). */
  function DigitsValue(s: string): nat
    requires AllDigits(s)
  {
    if s == [] then 0 else 10 * DigitsValue(s[..|s| - 1]) + (s[|s| - 1] as int - '0' as int)
  }

  /** str(n) for a non-negative int: decimal digits, no leading zero. */
  function NatToString(n: nat): (r: string)
    ensures r != [] && AllDigits(r)
    ensures r[0] == '0' ==> n == 0
  {
    if n < 10 then [DigitChar(n)] else NatToString(n / 10) + [DigitChar(n % 10)]
  }

  /** str(i) for any int: a minus sign before the digits of a negative number. */
  function IntToString(i: int): (r: string)
    ensures r != []
    ensures i >= 0 ==> r == NatToString(i)
    ensures i < 0 ==> r == "-" + NatToString(-i)
  {
    if i < 0 then "-" + NatToString(-i) else NatToString(i)
  }

  /** int(s) restricted to plain digit strings: the empty string and anything
      holding a non-digit are rejected (Python raises ValueError). */
  function ParseNat(s: string): (r: Option<nat>)
    ensures r.Some? <==> (s != [] && AllDigits(s))
  {
    if s != [] && AllDigits(s) then Some(DigitsValue(s)) else None
  }

  /** int(str(n)) == n. */
  lemma {:induction false} ParseNatToString(n: nat)
    ensures ParseNat(NatToString(n)) == Some(n)
  {
    if n >= 10 {
      ParseNatToString(n / 10);
      var prefix := NatToString(n / 10);
      var s := prefix + [DigitChar(n % 10)];
      assert s[..|s| - 1] == prefix;
      assert NatToString(n) == s;
      assert DigitsValue(prefix) == n / 10;
      assert DigitsValue(s) == 10 * DigitsValue(prefix) + n % 10;
    } else {
      var s := [DigitChar(n)];
      assert NatToString(n) == s;
      assert s[..0] == [];
      assert DigitsValue(s) == n;
    }
  }

  /** str(i) reads back: it starts with '-' exactly for a negative number,
      and the digits after the sign are those of |i|. */
  lemma IntToStringReadsBack(i: int)
    ensures IntToString(i)[0] == '-' <==> i < 0
    ensures ParseNat(IntToString(i)[if i < 0 then 1 else 0..]) == Some(if i < 0 then -i else i)
  {
    var n: nat := if i < 0 then -i else i;
    ParseNatToString(n);
    var d := NatToString(n);
    assert IsDigit(d[0]);
    if i < 0 {
      assert IntToString(i)[1..] == d;
    } else {
      assert IntToString(i)[0..] == d;
    }
  }

  /** The middle of a concatenation is the piece placed there. */
  lemma MiddleOf(p: string, d: string, q: string)
    ensures (p + d + q)[|p|..|p + d + q| - |q|] == d
  {
    assert p + d + q == p + (d + q);
  }
}
