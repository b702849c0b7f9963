/** Strings as JavaScript sorts them. */
module Text {

  function Digit(d: nat): char
    requires d < 10
  {
    '0' + d as char
  }

  /** The decimal spelling of an integer property key. */
  function Decimal(n: nat): string
    decreases n
  {
    if n < 10 then [Digit(n)] else Decimal(n / 10) + [Digit(n % 10)]
  }

  /** The order `Array.prototype.sort` uses without a comparator: by code unit. */
  predicate StringLeq(a: string, b: string)
  {
    a == "" || (b != "" && (a[0] < b[0] || (a[0] == b[0] && StringLeq(a[1..], b[1..]))))
  }

  lemma {:induction false} StringLeqTotal(a: string, b: string)
    ensures StringLeq(a, b) || StringLeq(b, a)
  {
    if a != "" && b != "" && a[0] == b[0] {
      StringLeqTotal(a[1..], b[1..]);
    }
  }

  lemma {:induction false} StringLeqTransitive(a: string, b: string, c: string)
    requires StringLeq(a, b) && StringLeq(b, c)
    ensures StringLeq(a, c)
  {
    if a != "" && a[0] == b[0] == c[0] {
      StringLeqTransitive(a[1..], b[1..], c[1..]);
    }
  }

  lemma {:induction false} StringLeqAntisymmetric(a: string, b: string)
    requires StringLeq(a, b) && StringLeq(b, a)
    ensures a == b
  {
    if a != "" {
      StringLeqAntisymmetric(a[1..], b[1..]);
      assert a == [a[0]] + a[1..] && b == [b[0]] + b[1..];
    }
  }

  lemma {:induction false} DecimalInjective(a: nat, b: nat)
    requires Decimal(a) == Decimal(b)
    ensures a == b
    decreases a
  {
    DecimalNonEmpty(a / 10);
    DecimalNonEmpty(b / 10);
    var s, t := Decimal(a), Decimal(b);
    assert a >= 10 ==> |s| > 1;
    assert b >= 10 ==> |t| > 1;
    assert s[|s| - 1] == t[|t| - 1];
    assert s[|s| - 1] == Digit(a % 10) && t[|t| - 1] == Digit(b % 10);
    if a >= 10 {
      assert Decimal(a / 10) == s[..|s| - 1] == t[..|t| - 1] == Decimal(b / 10);
      DecimalInjective(a / 10, b / 10);
    }
  }

  lemma DecimalNonEmpty(n: nat)
    ensures |Decimal(n)| > 0
  {
  }

  /** `k` comes first when the keys are sorted as strings. */
  predicate IsStringLeast(k: nat, keys: set<nat>)
  {
    k in keys && forall j :: j in keys ==> StringLeq(Decimal(k), Decimal(j))
  }

  lemma {:induction false} StringLeastExists(keys: set<nat>) returns (k: nat)
    requires keys != {}
    ensures IsStringLeast(k, keys)
    decreases |keys|
  {
    var x :| x in keys;
    StringLeqTotal(Decimal(x), Decimal(x));
    if keys == {x} {
      k := x;
    } else {
      var y := StringLeastExists(keys - {x});
      StringLeqTotal(Decimal(x), Decimal(y));
      k := if StringLeq(Decimal(x), Decimal(y)) then x else y;
      forall j | j in keys
        ensures StringLeq(Decimal(k), Decimal(j))
      {
        if j != x {
          StringLeqTransitive(Decimal(k), Decimal(y), Decimal(j));
        }
      }
    }
  }

  lemma StringLeastUnique(j: nat, k: nat, keys: set<nat>)
    requires IsStringLeast(j, keys) && IsStringLeast(k, keys)
    ensures j == k
  {
    StringLeqAntisymmetric(Decimal(j), Decimal(k));
    DecimalInjective(j, k);
  }

  /** The key that the sorted list of keys starts with. */
  ghost function StringLeast(keys: set<nat>): (k: nat)
    requires keys != {}
    ensures IsStringLeast(k, keys)
  {
    StringLeastWitness(keys);
    var k :| IsStringLeast(k, keys);
    k
  }

  lemma StringLeastWitness(keys: set<nat>)
    requires keys != {}
    ensures exists k :: IsStringLeast(k, keys)
  {
    var k := StringLeastExists(keys);
  }

  // ---- When string order is numeric order -------------------------------------------------

  function Pow10(d: nat): (p: nat)
    ensures p > 0
  {
    if d == 0 then 1 else 10 * Pow10(d - 1)
  }

  /** A character more on the longer text, or on both of two equally long ones. */
  lemma {:induction false} LeqLonger(a: string, b: string, c: char)
    requires |a| <= |b|
    ensures StringLeq(a, b + [c]) <==> StringLeq(a, b)
  {
    if a != "" {
      assert (b + [c])[1..] == b[1..] + [c];
      LeqLonger(a[1..], b[1..], c);
    }
  }

  lemma {:induction false} LeqBoth(a: string, b: string, c: char, d: char)
    requires |a| == |b|
    ensures StringLeq(a + [c], b + [d]) <==> if a == b then c <= d else StringLeq(a, b)
  {
    if a == "" {
      assert a + [c] == [c] && b + [d] == [d];
    } else {
      assert (a + [c])[1..] == a[1..] + [c] && (b + [d])[1..] == b[1..] + [d];
      assert a == [a[0]] + a[1..] && b == [b[0]] + b[1..];
      LeqBoth(a[1..], b[1..], c, d);
    }
  }

  /** Spellings of one length are ordered like the numbers. */
  lemma {:induction false} SameLengthIff(m: nat, k: nat)
    requires |Decimal(m)| == |Decimal(k)|
    ensures StringLeq(Decimal(m), Decimal(k)) <==> m <= k
    decreases m
  {
    if m >= 10 {
      DecimalNonEmpty(k / 10);
      SameLengthIff(m / 10, k / 10);
      LeqBoth(Decimal(m / 10), Decimal(k / 10), Digit(m % 10), Digit(k % 10));
      if Decimal(m / 10) == Decimal(k / 10) {
        DecimalInjective(m / 10, k / 10);
      }
    } else {
      OneDigit(k);
      LeqBoth("", "", Digit(m), Digit(k));
      assert "" + [Digit(m)] == Decimal(m) && "" + [Digit(k)] == Decimal(k);
    }
  }

  lemma OneDigit(k: nat)
    ensures |Decimal(k)| == 1 <==> k < 10
  {
    if k >= 10 {
      DecimalNonEmpty(k / 10);
    }
  }

  lemma {:induction false} LongerIsGreater(m: nat, k: nat)
    requires m <= k
    ensures |Decimal(m)| <= |Decimal(k)|
    decreases k
  {
    if m >= 10 {
      LongerIsGreater(m / 10, k / 10);
    } else {
      DecimalNonEmpty(k);
    }
  }

  lemma QuotientTwice(k: nat, p: nat)
    requires p > 0
    ensures k / (10 * p) == (k / 10) / p
  {
    var q, r := (k / 10) / p, (k / 10) % p;
    assert k / 10 == p * q + r;
    var rest := 10 * r + k % 10;
    assert k == (10 * p) * q + rest;
    assert 0 <= rest < 10 * p;
    QuotientIs(k, 10 * p, q, rest);
  }

  lemma QuotientIs(k: nat, p: nat, q: nat, r: nat)
    requires k == p * q + r && r < p
    ensures k / p == q
  {
    var q', r' := k / p, k % p;
    assert p * q' + r' == p * q + r;
    if q' < q {
      Distribute(p, q', q);
    } else if q < q' {
      Distribute(p, q, q');
    }
  }

  lemma Distribute(p: nat, a: nat, b: nat)
    requires a < b
    ensures p * a + p <= p * b
  {
    assert p * b == p * (a + 1) + p * (b - a - 1);
  }

  /** A shorter spelling comes first exactly if the number is at most the leading digits of the other. */
  lemma {:induction false} StringLeqIff(m: nat, k: nat)
    requires |Decimal(m)| <= |Decimal(k)|
    ensures StringLeq(Decimal(m), Decimal(k)) <==> m <= k / Pow10(|Decimal(k)| - |Decimal(m)|)
    decreases k
  {
    var d := |Decimal(k)| - |Decimal(m)|;
    if d == 0 {
      SameLengthIff(m, k);
    } else {
      DecimalNonEmpty(m);
      StringLeqIff(m, k / 10);
      LeqLonger(Decimal(m), Decimal(k / 10), Digit(k % 10));
      QuotientTwice(k, Pow10(d - 1));
    }
  }

  /** `m` is the least of the keys. */
  predicate IsLeast(m: nat, keys: set<nat>)
  {
    m in keys && forall k :: k in keys ==> m <= k
  }

  /** `m` is at most the number spelled by the leading digits of `k`, as many as `m` has itself. */
  predicate AtMostLeading(m: nat, k: nat)
  {
    |Decimal(m)| <= |Decimal(k)| && m <= k / Pow10(|Decimal(k)| - |Decimal(m)|)
  }

  lemma LeadingIff(m: nat, k: nat)
    requires m <= k
    ensures StringLeq(Decimal(m), Decimal(k)) <==> AtMostLeading(m, k)
  {
    LongerIsGreater(m, k);
    StringLeqIff(m, k);
  }

  /**
   The key that comes first in string order is the least one, exactly if that one is at most the
   leading digits of every key.
   */
  lemma StringLeastIsLeastIff(m: nat, keys: set<nat>)
    requires IsLeast(m, keys)
    ensures StringLeast(keys) == m <==> forall k :: k in keys ==> AtMostLeading(m, k)
  {
    forall k | k in keys
      ensures StringLeq(Decimal(m), Decimal(k)) <==> AtMostLeading(m, k)
    {
      LeadingIff(m, k);
    }
    var least := StringLeast(keys);
    if IsStringLeast(m, keys) {
      StringLeastUnique(m, least, keys);
    }
  }
}
