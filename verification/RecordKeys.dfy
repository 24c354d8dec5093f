/** The "uid_name" keys under which applications and allow records are stored. */
module RecordKeys {

  function DigitChar(d: nat): char
    requires d < 10
  {
    '0' + d as char
  }

  predicate IsDigit(c: char) {
    '0' <= c <= '9'
  }

  /** std::to_string of a non-negative number. */
  function NatToString(n: nat): (s: string)
    ensures s != "" && forall c :: c in s ==> IsDigit(c)
  {
    if n < 10 then [DigitChar(n)] else NatToString(n / 10) + [DigitChar(n % 10)]
  }

  /** std::to_string of an int32_t. */
  function IntToString(i: int): string {
    if i < 0 then "-" + NatToString(-i) else NatToString(i)
  }

  function Key(uid: int, name: string): string {
    IntToString(uid) + "_" + name
  }

  lemma OneDigit(n: nat)
    ensures |NatToString(n)| == 1 <==> n < 10
  {
    if n >= 10 {
      assert NatToString(n) == NatToString(n / 10) + [DigitChar(n % 10)];
    }
  }

  lemma {:induction false} NatToStringIsInjective(a: nat, b: nat)
    requires NatToString(a) == NatToString(b)
    ensures a == b
  {
    var s, t := NatToString(a), NatToString(b);
    assert s[|s| - 1] == DigitChar(a % 10) && t[|t| - 1] == DigitChar(b % 10);
    OneDigit(a);
    OneDigit(b);
    if a >= 10 {
      assert s[..|s| - 1] == NatToString(a / 10) && t[..|t| - 1] == NatToString(b / 10);
      NatToStringIsInjective(a / 10, b / 10);
    }
  }

  lemma IntToStringIsInjective(a: int, b: int)
    requires IntToString(a) == IntToString(b)
    ensures a == b
  {
    var s, t := IntToString(a), IntToString(b);
    assert (a < 0) == (s[0] == '-') by { SignShows(a); }
    assert (b < 0) == (t[0] == '-') by { SignShows(b); }
    if a < 0 {
      assert s[1..] == NatToString(-a) && t[1..] == NatToString(-b);
      NatToStringIsInjective(-a, -b);
    } else {
      NatToStringIsInjective(a, b);
    }
  }

  lemma SignShows(a: int)
    ensures IntToString(a) != "" && (a < 0 <==> IntToString(a)[0] == '-')
  {
    if a >= 0 {
      assert IntToString(a)[0] in NatToString(a);
    }
  }

  lemma NoUnderscore(a: int, i: nat)
    requires i < |IntToString(a)|
    ensures IntToString(a)[i] != '_'
  {
    if a < 0 {
      if i > 0 { assert IntToString(a)[i] == NatToString(-a)[i - 1]; assert NatToString(-a)[i - 1] in NatToString(-a); }
    } else {
      assert IntToString(a)[i] in NatToString(a);
    }
  }

  /** A key determines the uid and the name, whatever characters the name contains. */
  lemma KeyIsInjective(u: int, n: string, v: int, m: string)
    requires Key(u, n) == Key(v, m)
    ensures u == v && n == m
  {
    var s, t := IntToString(u), IntToString(v);
    assert |s| >= |t| by { NotShorter(u, n, v, m); }
    assert |t| >= |s| by { NotShorter(v, m, u, n); }
    var k := Key(u, n);
    assert s == k[..|s|] && t == k[..|t|];
    IntToStringIsInjective(u, v);
    assert n == k[|s| + 1..] && m == k[|t| + 1..];
  }

  /** The first underscore of a key ends its uid. */
  lemma NotShorter(u: int, n: string, v: int, m: string)
    requires Key(u, n) == Key(v, m)
    ensures |IntToString(u)| >= |IntToString(v)|
  {
    var l := |IntToString(u)|;
    assert Key(u, n)[l] == '_';
    if l < |IntToString(v)| {
      NoUnderscore(v, l);
    }
  }
}
