/**
 * Decimal text as the driver writes it with printf("%d") and reads it with
 * fscanf("%d"): NatStr/IntStr render an integer, ScanInt reads one integer after
 * optional white space, and ReadInts is the loop `while (fscanf(f, "%d", &i) == 1)`.
 */
module Scanning {
  import opened Wrappers

  /** isspace in the C locale. */
  predicate IsSpace(c: char) {
    c == ' ' || c == '\t' || c == '\n' || c == '\r' || c == '\U{000B}' || c == '\U{000C}'
  }

  predicate IsDigit(c: char) { '0' <= c <= '9' }

  predicate AllDigits(s: string) { forall k :: 0 <= k < |s| ==> IsDigit(s[k]) }

  predicate AllSpace(s: string) { forall k :: 0 <= k < |s| ==> IsSpace(s[k]) }

  function DigitChar(d: nat): (c: char)
    requires d < 10
    ensures IsDigit(c)
  {
    ('0' as int + d) as char
  }

  function DigitValue(c: char): (d: nat)
    requires IsDigit(c)
    ensures d < 10 && DigitChar(d) == c
  {
    c as int - '0' as int
  }

  /** The decimal digits of n, most significant first, without leading zeros. */
  function NatStr(n: nat): (s: string)
    ensures |s| > 0 && AllDigits(s)
    ensures n > 0 ==> s[0] != '0'
    decreases n
  {
    if n < 10 then [DigitChar(n)] else NatStr(n / 10) + [DigitChar(n % 10)]
  }

  /** printf("%d", i) */
  function IntStr(i: int): string {
    if i < 0 then "-" + NatStr(-i) else NatStr(i)
  }

  /** The digits part of IntStr(i). */
  function Magnitude(i: int): nat { if i < 0 then -i else i }

  /** A sign (written only when `neg`) followed by the digits of m: what "%s%d" prints for a sign and a natural. */
  function SignedToken(neg: bool, m: nat): string {
    (if neg then "-" else "") + NatStr(m)
  }

  /** The value of a string of digits. */
  function DigitsVal(ds: string): nat
    requires AllDigits(ds)
  {
    if ds == [] then 0 else DigitsVal(ds[..|ds| - 1]) * 10 + DigitValue(ds[|ds| - 1])
  }

  /** The number of leading digits of s. */
  function DigitRun(s: string): (k: nat)
    ensures k <= |s|
    ensures forall j :: 0 <= j < k ==> IsDigit(s[j])
    ensures k < |s| ==> !IsDigit(s[k])
  {
    if s != [] && IsDigit(s[0]) then 1 + DigitRun(s[1..]) else 0
  }

  /**
   * One fscanf("%d"): skip white space, then read one integer token. Gives the
   * value and the number of characters consumed, or None at the end of the text
   * or when no integer follows.
   */
  function ScanInt(s: string): (r: Option<(int, nat)>)
    ensures r.Some? ==> 0 < r.value.1 <= |s|
  {
    if s == [] then None
    else if IsSpace(s[0]) then
      var r' := ScanInt(s[1..]);
      if r'.None? then None else Some((r'.value.0, r'.value.1 + 1))
    else ScanToken(s)
  }

  /** An optional sign and a maximal run of at least one digit, at the very start of s. */
  function ScanToken(s: string): (r: Option<(int, nat)>)
    ensures r.Some? ==> 0 < r.value.1 <= |s|
  {
    var start := if s != [] && (s[0] == '-' || s[0] == '+') then 1 else 0;
    var k := DigitRun(s[start..]);
    if k == 0 then None
    else Some((TokenValue(s[0] == '-', DigitsVal(s[start..start + k])), start + k))
  }

  /** The integers that repeated fscanf("%d") calls read from s before the first failure. */
  function ReadInts(s: string): (r: seq<int>)
    ensures |r| <= |s|
    decreases |s|
  {
    match ScanInt(s)
    case None => []
    case Some(p) => [p.0] + ReadInts(s[p.1..])
  }

  lemma {:induction false} DigitsValNatStr(n: nat)
    ensures DigitsVal(NatStr(n)) == n
    decreases n
  {
    if n >= 10 {
      DigitsValNatStr(n / 10);
      var s := NatStr(n);
      assert s[..|s| - 1] == NatStr(n / 10);
    }
  }

  lemma DigitRunOf(ds: string, rest: string)
    requires AllDigits(ds)
    requires rest == [] || !IsDigit(rest[0])
    ensures DigitRun(ds + rest) == |ds|
  {
    var s := ds + rest;
    assert forall j :: 0 <= j < |ds| ==> s[j] == ds[j];
    if rest != [] {
      assert s[|ds|] == rest[0];
    }
  }

  /** The signed value a token stands for. */
  function TokenValue(neg: bool, m: nat): int {
    var v: int := m;
    if neg then -v else v
  }

  /** A run of n digits followed by a non-digit or the end. */
  lemma {:induction false} DigitRunExact(t: string, n: nat)
    requires n <= |t|
    requires forall j :: 0 <= j < n ==> IsDigit(t[j])
    requires n == |t| || !IsDigit(t[n])
    ensures DigitRun(t) == n
    decreases n
  {
    if n > 0 {
      assert forall j :: 0 <= j < n - 1 ==> t[1..][j] == t[j + 1];
      DigitRunExact(t[1..], n - 1);
    }
  }

  /** A sign `-` (when start is 1) or nothing, then n digits, then a non-digit: one token of exactly those digits. */
  lemma ScanTokenAt(s: string, start: nat, n: nat)
    requires start <= 1 && 0 < n && start + n <= |s|
    requires start == 1 ==> s[0] == '-'
    requires forall j :: start <= j < start + n ==> IsDigit(s[j])
    requires start + n == |s| || !IsDigit(s[start + n])
    ensures ScanToken(s) == Some((TokenValue(start == 1, DigitsVal(s[start..start + n])), start + n))
  {
    var t := s[start..];
    assert forall j :: 0 <= j < n ==> t[j] == s[start + j];
    DigitRunExact(t, n);
    if start == 0 {
      assert IsDigit(s[0]);
    }
  }

  /** Where the parts of c + ds + rest sit. */
  lemma ConcatParts(c: string, ds: string, rest: string)
    ensures var s := c + ds + rest;
      && |s| == |c| + |ds| + |rest|
      && s[|c|..|c| + |ds|] == ds
      && (forall j :: |c| <= j < |c| + |ds| ==> s[j] == ds[j - |c|])
      && (c != [] ==> s[0] == c[0])
      && (rest != [] ==> s[|c| + |ds|] == rest[0])
  {
    var s := c + ds + rest;
    forall j | |c| <= j < |c| + |ds|
      ensures s[j] == ds[j - |c|]
    {
      assert s[j] == (c + ds)[j];
    }
    assert s[|c|..|c| + |ds|] == ds;
  }

  /** A sign `-` or nothing, then digits, then a non-digit: one token of exactly those digits. */
  lemma ScanTokenDigits(c: string, ds: string, rest: string)
    requires c == "-" || c == ""
    requires ds != [] && AllDigits(ds)
    requires rest == [] || !IsDigit(rest[0])
    ensures ScanToken(c + ds + rest) == Some((TokenValue(c == "-", DigitsVal(ds)), |c| + |ds|))
  {
    ConcatParts(c, ds, rest);
    ScanTokenAt(c + ds + rest, |c|, |ds|);
  }

  lemma ScanIntNoSpace(s: string)
    requires s != [] && !IsSpace(s[0])
    ensures ScanInt(s) == ScanToken(s)
  {
  }

  /** A signed token starts with `-` or a digit, never with white space. */
  lemma SignedTokenHead(neg: bool, m: nat, rest: string)
    ensures var s := SignedToken(neg, m) + rest; s != [] && !IsSpace(s[0])
  {
    var ds := NatStr(m);
    var s := SignedToken(neg, m) + rest;
    if neg {
      assert s[0] == '-';
    } else {
      assert s[0] == ds[0];
    }
  }

  /** A signed token followed by a non-digit scans as exactly its value. */
  lemma ScanSignedToken(neg: bool, m: nat, rest: string)
    requires rest == [] || !IsDigit(rest[0])
    ensures ScanInt(SignedToken(neg, m) + rest) == Some((TokenValue(neg, m), |SignedToken(neg, m)|))
  {
    var ds := NatStr(m);
    var c := if neg then "-" else "";
    assert SignedToken(neg, m) + rest == c + ds + rest;
    calc {
      ScanInt(SignedToken(neg, m) + rest);
    == { SignedTokenHead(neg, m, rest); ScanIntNoSpace(SignedToken(neg, m) + rest); }
      ScanToken(c + ds + rest);
    == { ScanTokenDigits(c, ds, rest); }
      Some((TokenValue(c == "-", DigitsVal(ds)), |c| + |ds|));
    == { DigitsValNatStr(m); }
      Some((TokenValue(neg, m), |SignedToken(neg, m)|));
    }
  }

  /** One white-space character in front of the text is skipped. */
  lemma ReadIntsSkipsOne(c: char, t: string)
    requires IsSpace(c)
    ensures ReadInts([c] + t) == ReadInts(t)
  {
    var s := [c] + t;
    assert s[1..] == t;
    match ScanInt(t)
    case None =>
    case Some(p) =>
      assert s[p.1 + 1..] == t[p.1..];
  }

  /** White space in front of the text is skipped without changing what is read. */
  lemma {:induction false} ReadIntsSkipsSpace(ws: string, s: string)
    requires AllSpace(ws)
    ensures ReadInts(ws + s) == ReadInts(s)
    decreases |ws|
  {
    if ws == [] {
      assert ws + s == s;
    } else {
      assert IsSpace(ws[0]);
      assert AllSpace(ws[1..]) by {
        forall k | 0 <= k < |ws| - 1 ensures IsSpace(ws[1..][k]) {
          assert ws[1..][k] == ws[k + 1];
        }
      }
      assert ws + s == [ws[0]] + (ws[1..] + s);
      ReadIntsSkipsOne(ws[0], ws[1..] + s);
      assert ReadInts(ws + s) == ReadInts(ws[1..] + s);
      ReadIntsSkipsSpace(ws[1..], s);
    }
  }

  /** Reading a signed token followed by a non-digit yields its value, then whatever follows. */
  lemma ReadSignedToken(neg: bool, m: nat, rest: string)
    requires rest == [] || !IsDigit(rest[0])
    ensures ReadInts(SignedToken(neg, m) + rest) == [TokenValue(neg, m)] + ReadInts(rest)
  {
    ScanSignedToken(neg, m, rest);
    var tok := SignedToken(neg, m);
    assert (tok + rest)[|tok|..] == rest;
  }

  lemma IntStrIsSignedToken(i: int)
    ensures IntStr(i) == SignedToken(i < 0, Magnitude(i)) && TokenValue(i < 0, Magnitude(i)) == i
  {
  }

  /** printf("%d") then fscanf("%d") gives the integer back. */
  lemma ReadIntStr(i: int)
    ensures ReadInts(IntStr(i)) == [i]
  {
    IntStrIsSignedToken(i);
    ReadSignedToken(i < 0, Magnitude(i), "");
    assert SignedToken(i < 0, Magnitude(i)) + "" == IntStr(i);
  }
}
