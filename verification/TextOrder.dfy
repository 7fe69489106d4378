/** Text compared code point by code point, as UTF-8 bytes also compare
    (section 1 of RFC 3629). */
module TextOrder {
  import opened Sorting

  predicate Le(a: string, b: string) {
    if |a| == 0 then true
    else if |b| == 0 then false
    else if a[0] != b[0] then a[0] < b[0]
    else Le(a[1..], b[1..])
  }

  lemma {:induction false} LeTotal(a: string, b: string)
    ensures Le(a, b) || Le(b, a)
  {
    if |a| > 0 && |b| > 0 && a[0] == b[0] {
      LeTotal(a[1..], b[1..]);
    }
  }

  lemma {:induction false} LeAntisymmetric(a: string, b: string)
    requires Le(a, b) && Le(b, a)
    ensures a == b
  {
    if |a| > 0 && |b| > 0 {
      LeAntisymmetric(a[1..], b[1..]);
      assert a == [a[0]] + a[1..] && b == [b[0]] + b[1..];
    }
  }

  lemma {:induction false} LeTransitive(a: string, b: string, c: string)
    requires Le(a, b) && Le(b, c)
    ensures Le(a, c)
  {
    if |a| > 0 && |b| > 0 && |c| > 0 && a[0] == b[0] == c[0] {
      LeTransitive(a[1..], b[1..], c[1..]);
    }
  }

  lemma LeIsOrder()
    ensures TotalPreorder(Le) && forall s :: Discriminates(Le, s)
  {
    forall a, b
      ensures Le(a, b) || Le(b, a)
    {
      LeTotal(a, b);
    }
    forall a, b, c | Le(a, b) && Le(b, c)
      ensures Le(a, c)
    {
      LeTransitive(a, b, c);
    }
    forall s: multiset<string>, a, b | a in s && b in s && Le(a, b) && Le(b, a)
      ensures a == b
    {
      LeAntisymmetric(a, b);
    }
  }

  function Utf8Width(c: char): nat {
    if c as int < 0x80 then 1 else if c as int < 0x800 then 2 else if c as int < 0x1_0000 then 3 else 4
  }

  function Utf8Length(s: string): nat {
    if |s| == 0 then 0 else Utf8Length(s[..|s| - 1]) + Utf8Width(s[|s| - 1])
  }

  /** `q` lies below `p` in the path hierarchy. */
  predicate Below(q: string, p: string) {
    p + "/" <= q
  }

  /** `r` extends `p` by a character that sorts before the separator. */
  predicate Shields(r: string, p: string) {
    p < r && r[|p|] < '/'
  }

  lemma {:induction false} PrefixLe(p: string, q: string)
    requires p <= q
    ensures Le(p, q)
  {
    if |p| > 0 {
      assert p[0] == q[0] && p[1..] <= q[1..];
      PrefixLe(p[1..], q[1..]);
    }
  }

  /** What sorts between a path and something below it either lies below the path
      too or shields it. */
  lemma {:induction false} BetweenExtends(p: string, r: string, q: string)
    requires Below(q, p) && Le(p, r) && Le(r, q)
    ensures r == p || Below(r, p) || Shields(r, p)
  {
    if |p| == 0 {
      if |r| > 0 {
        assert q[0] == '/';
      }
    } else {
      assert p[0] == q[0] && |r| > 0 && r[0] == p[0];
      assert (p[1..] + "/") == (p + "/")[1..] && p[1..] + "/" <= q[1..];
      BetweenExtends(p[1..], r[1..], q[1..]);
      assert r == [r[0]] + r[1..] && p == [p[0]] + p[1..];
    }
  }

  /** A shield sorts strictly between the path and everything below it. */
  lemma {:induction false} ShieldBetween(p: string, r: string, q: string)
    requires Shields(r, p) && Below(q, p)
    ensures Le(p, r) && Le(r, q) && r != p
  {
    if |p| == 0 {
      assert r[0] < '/' && q[0] == '/';
    } else {
      assert p[0] == r[0] == q[0];
      assert (p[1..] + "/") == (p + "/")[1..] && p[1..] + "/" <= q[1..];
      assert p[1..] < r[1..] && r[1..][|p[1..]|] == r[|p|];
      ShieldBetween(p[1..], r[1..], q[1..]);
    }
  }

  lemma ShieldNotBelow(p: string, r: string)
    requires Shields(r, p)
    ensures !Below(r, p)
  {
    assert (p + "/")[|p|] == '/';
  }
}
