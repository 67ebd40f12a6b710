/** Dotted names and decimal numbers as the loader reads and prints them. */
module Text {
  import opened Common
  import opened Arithmetic

  // ----------------------------------------------------------------- splitting

  /** `split('.')`: always at least one part. */
  function Split(s: string): (parts: seq<string>)
    ensures parts != []
  {
    if s == "" then [""]
    else
      var rest := Split(s[1..]);
      if s[0] == '.' then [""] + rest else [[s[0]] + rest[0]] + rest[1..]
  }

  predicate Dotless(s: string) {
    forall k :: 0 <= k < |s| ==> s[k] != '.'
  }

  lemma {:induction false} SplitJoined(a: string, b: string)
    ensures Split(a + "." + b) == Split(a) + Split(b)
  {
    var s := a + "." + b;
    if a == "" {
      assert s[0] == '.' && s[1..] == b;
    } else {
      assert s[0] == a[0] && s[1..] == a[1..] + "." + b;
      SplitJoined(a[1..], b);
    }
  }

  lemma {:induction false} SplitDotless(s: string)
    requires Dotless(s)
    ensures Split(s) == [s]
  {
    if s != "" {
      assert Dotless(s[1..]) by {
        forall k | 0 <= k < |s| - 1 ensures s[1..][k] != '.' { assert s[1..][k] == s[k + 1]; }
      }
      SplitDotless(s[1..]);
      assert [s[0]] + s[1..] == s;
    }
  }

  lemma SplitHead(s: string)
    requires s != ""
    ensures s[0] == '.' ==> Split(s)[0] == "" && Split(s)[1..] == Split(s[1..])
    ensures s[0] != '.' ==>
      && Split(s)[0] == [s[0]] + Split(s[1..])[0] && Split(s)[0][1..] == Split(s[1..])[0]
      && Split(s)[1..] == Split(s[1..])[1..]
  {
  }

  ghost predicate Leads(family: string, name: string) {
    |Split(family)| < |Split(name)| && Split(name)[..|Split(family)|] == Split(family)
  }

  lemma LeadsHead(family: string, name: string)
    requires family != "" && Leads(family, name)
    ensures name != "" && family[0] == name[0]
  {
    var f, n, k := Split(family), Split(name), |Split(family)|;
    SplitHead(family);
    assert n[0] == n[..k][0] == f[0];
    assert name != "";
    SplitHead(name);
    if family[0] != '.' {
      assert n[0][0] == family[0];
    }
  }

  lemma LeadsTail(family: string, name: string)
    requires family != "" && name != "" && family[0] == name[0] && Leads(family, name)
    ensures Leads(family[1..], name[1..])
    ensures Split(name[1..])[|Split(family[1..])|..] == Split(name)[|Split(family)|..]
  {
    var f, n, k := Split(family), Split(name), |Split(family)|;
    SplitHead(family);
    SplitHead(name);
    assert n[0] == n[..k][0] == f[0];
    assert n[1..k] == n[..k][1..] == f[1..];
    if family[0] == '.' {
      TailAfterDot(f, n, Split(family[1..]), Split(name[1..]));
    } else {
      TailAfterPlain(f, n, Split(family[1..]), Split(name[1..]));
    }
  }

  lemma TailAfterDot(f: seq<string>, n: seq<string>, f': seq<string>, n': seq<string>)
    requires 1 <= |f| < |n| && f' == f[1..] && n' == n[1..] && n[1..|f|] == f[1..]
    ensures |f'| < |n'| && n'[..|f'|] == f' && n'[|f'|..] == n[|f|..]
  {
  }

  lemma HeadAndTail(s: seq<string>, k: nat)
    requires 1 <= k <= |s|
    ensures s[..k] == [s[0]] + s[1..][..k - 1] && s[1..][..k - 1] == s[1..k] && s[k..] == s[1..][k - 1..]
  {
  }

  lemma TailAfterPlain(f: seq<string>, n: seq<string>, f': seq<string>, n': seq<string>)
    requires 1 <= |f| < |n| && f' != [] && n' != [] && n[1..|f|] == f[1..]
    requires f'[0] == n'[0] && f'[1..] == f[1..] && n'[1..] == n[1..]
    ensures |f'| < |n'| && n'[..|f'|] == f' && n'[|f'|..] == n[|f|..]
  {
    assert |n'| == |n'[1..]| + 1 == |n| && |f'| == |f'[1..]| + 1 == |f|;
    HeadAndTail(f', |f|);
    HeadAndTail(n', |f|);
    HeadAndTail(n, |f|);
  }

  lemma SameHead(family: string, name: string)
    requires family != "" && name != "" && family[0] == name[0] && |name| > |family|
    requires name[1..] == family[1..] + "." + name[1..][|family[1..]| + 1..]
    ensures name[|family| + 1..] == name[1..][|family[1..]| + 1..]
    ensures name == family + "." + name[|family| + 1..]
  {
    assert name == [name[0]] + name[1..] && family == [family[0]] + family[1..];
  }

  /** A name whose leading parts are those of a family continues with a dot there. */
  lemma {:induction false} LeadingParts(family: string, name: string)
    requires Leads(family, name)
    ensures |name| > |family| && name == family + "." + name[|family| + 1..]
    ensures Split(name[|family| + 1..]) == Split(name)[|Split(family)|..]
  {
    if family == "" {
      assert Split(name)[0] == Split(name)[..1][0] == "";
      SplitHead(name);
    } else {
      LeadsHead(family, name);
      LeadsTail(family, name);
      LeadingParts(family[1..], name[1..]);
      SameHead(family, name);
    }
  }

  /** The first part of a name ends at its first dot. */
  lemma {:induction false} FirstPart(s: string)
    ensures var t := Split(s)[0]; Dotless(t) && (s == t || t + "." <= s)
  {
    if s != "" {
      FirstPart(s[1..]);
      if s[0] != '.' {
        var t := Split(s[1..])[0];
        assert s == [s[0]] + s[1..];
        assert Split(s)[0] == [s[0]] + t;
        forall k | 0 <= k < |t| + 1 ensures ([s[0]] + t)[k] != '.' {
          if k > 0 { assert ([s[0]] + t)[k] == t[k - 1]; }
        }
        if s[1..] != t {
          assert [s[0]] + t + "." <= s;
        }
      }
    }
  }

  // ------------------------------------------------------------------ numbers

  predicate IsDigit(c: char) {
    '0' <= c <= '9'
  }

  predicate AllDigits(s: string) {
    forall k :: 0 <= k < |s| ==> IsDigit(s[k])
  }

  function Value(s: string): nat
    requires AllDigits(s)
  {
    if s == "" then 0 else 10 * Value(s[..|s| - 1]) + (s[|s| - 1] as int - '0' as int)
  }

  /** `10^k`. */
  function Ten(k: nat): (p: nat)
    ensures p > 0
  {
    if k == 0 then 1 else 10 * Ten(k - 1)
  }

  lemma ValueStep(s: string, i: nat)
    requires s != "" && AllDigits(s) && i < |s| - 1
    ensures Value(s) / Ten(i + 1) == Value(s[..|s| - 1]) / Ten(i)
  {
    DivDiv(Value(s), 10, Ten(i));
  }

  /** The digit in the `10^i` place. */
  ghost predicate DigitAt(s: string, n: nat, i: nat) {
    i < |s| && (n / Ten(i)) % 10 == s[|s| - 1 - i] as int - '0' as int
  }

  lemma LastDigit(s: string)
    requires s != "" && AllDigits(s)
    ensures DigitAt(s, Value(s), 0)
  {
    assert Ten(0) == 1 && Value(s) / Ten(0) == Value(s);
  }

  lemma EarlierDigit(s: string, i: nat)
    requires s != "" && AllDigits(s) && i < |s| - 1 && DigitAt(s[..|s| - 1], Value(s[..|s| - 1]), i)
    ensures DigitAt(s, Value(s), i + 1)
  {
    ValueStep(s, i);
  }

  /** A digit string is read as the number that has these decimal digits, the last
      character in the ones place, and no others. */
  lemma {:induction false} ValueByPlace(s: string, i: nat)
    requires AllDigits(s) && i < |s|
    ensures DigitAt(s, Value(s), i) && Value(s) < Ten(|s|)
    decreases |s|
  {
    var front := s[..|s| - 1];
    if i > 0 {
      ValueByPlace(front, i - 1);
      EarlierDigit(s, i - 1);
    } else {
      LastDigit(s);
      if front != "" {
        ValueByPlace(front, 0);
      }
    }
  }

  /** `str::parse::<u64>`: an optional plus sign, at least one digit, no overflow. */
  function ParseU64(s: string): Option<nat> {
    var digits := if s != "" && s[0] == '+' then s[1..] else s;
    if digits == "" || !AllDigits(digits) || Value(digits) >= U64_LIMIT then None
    else Some(Value(digits))
  }

  /** ... that is what is read: digits, at most one plus sign before them, below `2^64`. */
  lemma ParseMeans(s: string, n: nat)
    ensures ParseU64(s) == Some(n) <==>
      exists digits :: (s == digits || s == "+" + digits) && digits != "" && AllDigits(digits) &&
        Value(digits) == n && n < U64_LIMIT
  {
    var digits := if s != "" && s[0] == '+' then s[1..] else s;
    assert s == digits || s == "+" + digits;
    forall d | (s == d || s == "+" + d) && d != "" && AllDigits(d) ensures d == digits {
      assert s == "+" + d ==> s[1..] == d;
      assert s == d ==> IsDigit(s[0]);
    }
  }

  function Digit(n: nat): char
    requires n < 10
  {
    ('0' as int + n) as char
  }

  /** The decimal form `format!` prints. */
  function Decimal(n: nat): string {
    if n < 10 then [Digit(n)] else Decimal(n / 10) + [Digit(n % 10)]
  }

  /** Digits without a superfluous leading zero. */
  predicate Canonical(s: string) {
    s != "" && AllDigits(s) && (s[0] == '0' ==> |s| == 1)
  }

  /** Printing and then reading a number gives it back, in canonical form. */
  lemma {:induction false} DecimalReads(n: nat)
    ensures Canonical(Decimal(n)) && Value(Decimal(n)) == n && Dotless(Decimal(n))
    ensures n > 0 ==> Decimal(n)[0] != '0'
  {
    if n >= 10 {
      DecimalReads(n / 10);
      var d := Decimal(n / 10);
      assert Decimal(n)[..|Decimal(n)| - 1] == d && Decimal(n)[0] == d[0];
    } else {
      assert Decimal(n)[..0] == "";
    }
  }

  /** Reading and then printing gives back exactly the canonical strings. */
  lemma {:induction false} ReadsDecimal(s: string)
    requires s != "" && AllDigits(s)
    ensures Decimal(Value(s)) == s <==> Canonical(s)
  {
    if Canonical(s) {
      CanonicalPrints(s);
    } else {
      DecimalReads(Value(s));
    }
  }

  lemma {:induction false} CanonicalPrints(s: string)
    requires Canonical(s)
    ensures Decimal(Value(s)) == s
    ensures s[0] != '0' ==> Value(s) > 0
  {
    var head := s[..|s| - 1];
    assert s == head + [s[|s| - 1]];
    if head != "" {
      CanonicalPrints(head);
    } else {
      assert Value(head) == 0;
    }
  }

  lemma ParseOfDecimal(n: nat)
    ensures ParseU64(Decimal(n)) == if n < U64_LIMIT then Some(n) else None
  {
    DecimalReads(n);
    assert IsDigit(Decimal(n)[0]);
  }

  lemma ParsesDotless(s: string)
    requires ParseU64(s).Some?
    ensures Dotless(s) && s != ""
  {
    if s[0] == '+' {
      forall k | 0 <= k < |s| ensures s[k] != '.' {
        if k > 0 { assert IsDigit(s[1..][k - 1]); }
      }
    } else {
      forall k | 0 <= k < |s| ensures s[k] != '.' {
        assert IsDigit(s[k]);
      }
    }
  }

  lemma NoLaterDot(a: string, t: string, b: string, u: string)
    requires Dotless(t) && a + "." + t == b + "." + u
    ensures |b| <= |a|
  {
    var s := a + "." + t;
    forall k | |a| < k < |s| ensures s[k] != '.' {
      assert s[k] == t[k - |a| - 1];
    }
    assert s[|b|] == '.';
  }

  /** A dotted pair whose second half has no dot determines both halves. */
  lemma LastDot(a: string, t: string, b: string, u: string)
    requires Dotless(t) && Dotless(u) && a + "." + t == b + "." + u
    ensures a == b && t == u
  {
    NoLaterDot(a, t, b, u);
    NoLaterDot(b, u, a, t);
    var s := a + "." + t;
    assert s[..|a|] == a && s[..|a|] == b;
    assert s[|a| + 1..] == t && s[|a| + 1..] == u;
  }

  /** `rsplit(".", 1)`: the parts around the last dot. */
  function RSplit(s: string): Option<(string, string)> {
    if s == "" then None
    else if s[|s| - 1] == '.' then Some((s[..|s| - 1], ""))
    else
      match RSplit(s[..|s| - 1])
      case None => None
      case Some((a, t)) => Some((a, t + [s[|s| - 1]]))
  }

  lemma {:induction false} RSplitLastDot(a: string, t: string)
    requires Dotless(t)
    ensures RSplit(a + "." + t) == Some((a, t))
  {
    var s := a + "." + t;
    if t == "" {
      assert s[..|s| - 1] == a;
    } else {
      assert s[..|s| - 1] == a + "." + t[..|t| - 1];
      assert t == t[..|t| - 1] + [t[|t| - 1]];
      RSplitLastDot(a, t[..|t| - 1]);
    }
  }
}
