/** Strings built from parts: searching, joining with colons, and decimal numerals. */
module Text {

  function IndexOf(s: string, c: char): (i: nat)
    ensures i <= |s| && (i < |s| ==> s[i] == c)
  {
    if s == "" || s[0] == c then 0 else 1 + IndexOf(s[1..], c)
  }

  lemma {:induction false} IndexOfFirst(a: string, c: char, rest: string)
    requires c !in a
    ensures IndexOf(a + [c] + rest, c) == |a|
  {
    if a != "" {
      IndexOfFirst(a[1..], c, rest);
      assert (a + [c] + rest)[1..] == a[1..] + [c] + rest;
    }
  }

  lemma {:induction false} IndexOfAbsent(s: string, c: char)
    requires c !in s
    ensures IndexOf(s, c) == |s|
  {
    if s != "" {
      IndexOfAbsent(s[1..], c);
    }
  }

  function JoinColon(parts: seq<string>): string
    requires |parts| > 0
  {
    if |parts| == 1 then parts[0] else parts[0] + ":" + JoinColon(parts[1..])
  }

  /** Joining is injective when only the last part may contain a colon. */
  lemma {:induction false} JoinInjective(a: seq<string>, b: seq<string>)
    requires |a| == |b| > 0 && JoinColon(a) == JoinColon(b)
    requires forall i :: 0 <= i < |a| - 1 ==> ':' !in a[i] && ':' !in b[i]
    ensures a == b
  {
    if |a| > 1 {
      var x, y := JoinColon(a[1..]), JoinColon(b[1..]);
      IndexOfFirst(a[0], ':', x);
      IndexOfFirst(b[0], ':', y);
      var s, n := JoinColon(a), |a[0]|;
      assert s[..n] == a[0] && s[n + 1..] == x;
      assert s[..n] == b[0] && s[n + 1..] == y;
      JoinInjective(a[1..], b[1..]);
      assert a == [a[0]] + a[1..] && b == [b[0]] + b[1..];
    }
  }

  function Colons(s: string): (n: nat)
    ensures n == 0 <==> ':' !in s
  {
    if s == "" then 0 else (if s[0] == ':' then 1 else 0) + Colons(s[1..])
  }

  lemma {:induction false} ColonsConcat(a: string, b: string)
    ensures Colons(a + b) == Colons(a) + Colons(b)
  {
    if a == "" {
      assert a + b == b;
    } else {
      ColonsConcat(a[1..], b);
      assert (a + b)[1..] == a[1..] + b;
    }
  }

  /** The colons of a joined text are its separators and those of its parts. */
  lemma {:induction false} ColonsJoined(parts: seq<string>, i: nat)
    requires i < |parts|
    ensures Colons(JoinColon(parts)) >= |parts| - 1 + Colons(parts[i])
    ensures (forall k :: 0 <= k < |parts| ==> ':' !in parts[k]) ==> Colons(JoinColon(parts)) == |parts| - 1
  {
    if |parts| > 1 {
      ColonsConcat(parts[0], ":" + JoinColon(parts[1..]));
      ColonsConcat(":", JoinColon(parts[1..]));
      assert parts[0] + ":" + JoinColon(parts[1..]) == parts[0] + (":" + JoinColon(parts[1..]));
      ColonsJoined(parts[1..], if i == 0 then 0 else i - 1);
    }
  }

  /** What joins to the same text as colon-free parts, in as many parts, has the same parts. */
  lemma JoinUnique(a: seq<string>, b: seq<string>)
    requires |a| == |b| > 0 && JoinColon(a) == JoinColon(b)
    requires forall i :: 0 <= i < |a| ==> ':' !in a[i]
    ensures a == b
  {
    forall i | 0 <= i < |b|
      ensures ':' !in b[i]
    {
      ColonsJoined(a, i);
      ColonsJoined(b, i);
    }
    JoinInjective(a, b);
  }

  function Decimal(n: nat): (s: string)
    ensures |s| > 0 && ':' !in s
    ensures |s| == 1 <==> n < 10
  {
    var digit := (48 + n % 10) as char;
    if n < 10 then [digit] else Decimal(n / 10) + [digit]
  }

  lemma {:induction false} DecimalInjective(m: nat, n: nat)
    requires Decimal(m) == Decimal(n)
    ensures m == n
  {
    var s, k := Decimal(m), |Decimal(m)| - 1;
    assert s[k] == (48 + m % 10) as char && s[k] == (48 + n % 10) as char;
    if m >= 10 {
      assert s[..k] == Decimal(m / 10) && s[..k] == Decimal(n / 10);
      DecimalInjective(m / 10, n / 10);
    }
  }
}
