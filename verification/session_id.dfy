/**
 * Session identifiers: `session_${cleanPhone}_${Date.now()}` (the same
 * template in both front-ends). The parser is not part of the gateway; it is
 * the inverse that shows an identifier determines the number and the
 * millisecond it was made from.
 */
module SessionIds {
  import opened Base
  import Phone

  const PREFIX: string := "session_"

  function DigitChar(d: nat): (c: char)
    requires d < 10
    ensures Phone.IsDigit(c)
  {
    ('0' as int + d) as char
  }

  function DigitValue(c: char): (d: nat)
    requires Phone.IsDigit(c)
    ensures d < 10 && DigitChar(d) == c
  {
    c as int - '0' as int
  }

  /** The decimal text JavaScript gives a non-negative integer such as `Date.now()`. */
  function Decimal(n: nat): (r: string)
    ensures |r| >= 1 && Phone.AllDigits(r)
    ensures (r[0] == '0') == (n == 0)
    decreases n
  {
    if n < 10 then [DigitChar(n)] else Decimal(n / 10) + [DigitChar(n % 10)]
  }

  /** The value of a string of decimal digits. */
  function ParseNat(s: string): nat
    requires Phone.AllDigits(s)
    decreases |s|
  {
    if |s| == 0 then 0 else ParseNat(s[..|s| - 1]) * 10 + DigitValue(s[|s| - 1])
  }

  lemma {:induction false} ParseDecimal(n: nat)
    ensures ParseNat(Decimal(n)) == n
    decreases n
  {
    if n >= 10 {
      var d := Decimal(n);
      assert d[..|d| - 1] == Decimal(n / 10);
      ParseDecimal(n / 10);
      assert DigitValue(DigitChar(n % 10)) == n % 10;
    } else {
      assert DigitValue(DigitChar(n)) == n;
    }
  }

  /** The identifier the pairing handlers build for a cleaned number at a clock reading. */
  function SessionIdOf(phone: string, now: nat): (id: string)
    ensures |id| > |PREFIX| + |phone| && id[..|PREFIX|] == PREFIX
    ensures id[|PREFIX|..|PREFIX| + |phone|] == phone && id[|PREFIX| + |phone|] == '_'
  {
    PREFIX + phone + "_" + Decimal(now)
  }

  /** Position of the first `c` in `s`, or `|s|` when there is none. */
  function IndexOf(s: string, c: char): (i: nat)
    ensures i <= |s|
    ensures i < |s| ==> s[i] == c
    ensures forall j :: 0 <= j < i ==> s[j] != c
    decreases |s|
  {
    if |s| == 0 then 0 else if s[0] == c then 0 else 1 + IndexOf(s[1..], c)
  }

  /** Splits an identifier back into its number and its clock reading. */
  function ParseSessionId(id: string): Option<(string, nat)> {
    if |id| < |PREFIX| || id[..|PREFIX|] != PREFIX then None
    else
      var rest := id[|PREFIX|..];
      var i := IndexOf(rest, '_');
      if i == |rest| then None
      else
        var stamp := rest[i + 1..];
        if |stamp| == 0 || !Phone.AllDigits(stamp) then None
        else Some((rest[..i], ParseNat(stamp)))
  }

  /** Parsing an identifier gives back the number and the time it was made from. */
  lemma ParseSessionIdOf(phone: string, now: nat)
    requires '_' !in phone
    ensures ParseSessionId(SessionIdOf(phone, now)) == Some((phone, now))
  {
    var id := SessionIdOf(phone, now);
    var rest := id[|PREFIX|..];
    assert rest == phone + "_" + Decimal(now);
    assert IndexOf(rest, '_') == |phone|;
    assert rest[|phone| + 1..] == Decimal(now);
    assert rest[..|phone|] == phone;
    ParseDecimal(now);
  }

  /** Two requests share an identifier only if they share the number and the millisecond. */
  lemma SessionIdInjective(p1: string, t1: nat, p2: string, t2: nat)
    requires Phone.AllDigits(p1) && Phone.AllDigits(p2)
    requires SessionIdOf(p1, t1) == SessionIdOf(p2, t2)
    ensures p1 == p2 && t1 == t2
  {
    assert '_' !in p1 && '_' !in p2;
    ParseSessionIdOf(p1, t1);
    ParseSessionIdOf(p2, t2);
  }
}
