/**
 * C strings of bytes: `strlen` and the kernel's `kstrtoint(s, 10, &res)`.
 * The kernel's parser is not part of this model; KStrToInt is an assumed
 * reading of it (lib/kstrtox.c): one optional '+' or '-', at least one
 * decimal digit, at most one trailing newline, then the end of the string;
 * the value must fit in a C int.
 */
module CText {
  import opened Wrappers
  import opened Bytes
  import opened Pit

  const Nul: byte := 0
  const Newline: byte := 10
  const Plus: byte := 43
  const Minus: byte := 45
  const Zero: byte := 48

  predicate IsDigit(b: byte) {
    Zero <= b <= Zero + 9
  }

  /** `strlen`: the number of bytes before the first NUL (all of them if there is none). */
  function CStrLen(s: seq<byte>): (n: nat)
    ensures n <= |s|
    ensures forall i :: 0 <= i < n ==> s[i] != Nul
    ensures n < |s| ==> s[n] == Nul
  {
    if s == [] || s[0] == Nul then 0 else 1 + CStrLen(s[1..])
  }

  /** The text a C string stored in `s` denotes. */
  function CString(s: seq<byte>): (t: seq<byte>)
    ensures |t| == CStrLen(s) && t == s[..|t|]
    ensures Nul !in t
  {
    s[..CStrLen(s)]
  }

  /** Length of the run of decimal digits that `s` starts with. */
  function DigitRun(s: seq<byte>): (n: nat)
    ensures n <= |s|
    ensures forall i :: 0 <= i < n ==> IsDigit(s[i])
    ensures n < |s| ==> !IsDigit(s[n])
  {
    if s == [] || !IsDigit(s[0]) then 0 else 1 + DigitRun(s[1..])
  }

  predicate AllDigits(ds: seq<byte>) {
    forall i :: 0 <= i < |ds| ==> IsDigit(ds[i])
  }

  /** The number a run of decimal digits spells, most significant first. */
  function DecimalValue(ds: seq<byte>): (v: nat)
    requires AllDigits(ds)
  {
    if ds == [] then 0
    else 10 * DecimalValue(ds[..|ds| - 1]) + (ds[|ds| - 1] as int - Zero as int)
  }

  /**
   * The unsigned part of the parse: a nonempty run of digits, then at most
   * one newline, then nothing. Yields the magnitude.
   */
  function ParseDigits(body: seq<byte>): (r: Option<nat>)
    ensures r.Some? ==> 0 < |body| && IsDigit(body[0])
  {
    var n := DigitRun(body);
    if n == 0 then None
    else if n == |body| || (n + 1 == |body| && body[n] == Newline) then Some(DecimalValue(body[..n]))
    else None
  }

  /** `kstrtoint(s, 10, &res)` on the text of a C string: Some(res) on success. */
  function KStrToInt(s: seq<byte>): (r: Option<int>)
    ensures r.Some? ==> IntMin <= r.value <= IntMax
    ensures r.Some? ==> 0 < |s|
  {
    var signed := |s| > 0 && (s[0] == Minus || s[0] == Plus);
    var negative := |s| > 0 && s[0] == Minus;
    match ParseDigits(if signed then s[1..] else s)
    case None => None
    case Some(magnitude) =>
      var value: int := if negative then -(magnitude as int) else magnitude;
      if IntMin <= value <= IntMax then Some(value) else None
  }

  /** Decimal text of a natural number, without leading zeros. */
  function DecimalText(n: nat): (t: seq<byte>)
    ensures 0 < |t| && AllDigits(t)
    ensures Nul !in t
  {
    if n < 10 then [Zero + n as byte]
    else DecimalText(n / 10) + [Zero + (n % 10) as byte]
  }

  lemma {:induction false} DecimalValueOfText(n: nat)
    ensures DecimalValue(DecimalText(n)) == n
  {
    if n >= 10 {
      var t := DecimalText(n);
      assert t[..|t| - 1] == DecimalText(n / 10);
      DecimalValueOfText(n / 10);
    }
  }

  function Pow10(k: nat): (p: nat)
    ensures 0 < p
  {
    if k == 0 then 1 else 10 * Pow10(k - 1)
  }

  /** A number below 10^k takes at most k digits. */
  lemma {:induction false} DecimalTextLength(n: nat, k: nat)
    requires 0 < k && n < Pow10(k)
    ensures |DecimalText(n)| <= k
  {
    if n >= 10 {
      assert k > 1;
      DecimalTextLength(n / 10, k - 1);
    }
  }

  /** A number written in decimal, with or without the newline `echo` adds, parses back to itself. */
  lemma ParseDecimal(n: nat, newline: bool)
    requires n <= IntMax
    ensures KStrToInt(DecimalText(n) + if newline then [Newline] else []) == Some(n)
  {
    var t := DecimalText(n);
    var s := t + if newline then [Newline] else [];
    assert s[0] == t[0];
    assert DigitRun(s) == |t| by {
      assert forall i :: 0 <= i < |t| ==> IsDigit(s[i]);
    }
    assert s[..|t|] == t;
    DecimalValueOfText(n);
  }

  /** A minus sign before decimal text negates the value. */
  lemma ParseNegative(n: nat)
    requires n <= -IntMin
    ensures KStrToInt([Minus] + DecimalText(n)) == Some(-(n as int))
  {
    var t := DecimalText(n);
    var s := [Minus] + t;
    assert s[1..] == t;
    assert DigitRun(t) == |t|;
    assert t[..|t|] == t;
    DecimalValueOfText(n);
  }

  /** Text without a single digit after the optional sign is rejected. */
  lemma ParseNeedsDigit(s: seq<byte>)
    requires 0 < |s| && !IsDigit(s[0]) && s[0] != Minus && s[0] != Plus
    ensures KStrToInt(s) == None
  {
  }
}
