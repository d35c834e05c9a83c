/** The search for the first number that makes an id with a given stem unused. */
module FreshIds {
  import opened Decimals

  function Suffixed(stem: string, n: nat): string {
    stem + Decimal(n)
  }

  lemma SuffixedInjective(stem: string, m: nat, n: nat)
    requires Suffixed(stem, m) == Suffixed(stem, n)
    ensures m == n
  {
    assert Suffixed(stem, m)[|stem|..] == Decimal(m);
    assert Suffixed(stem, n)[|stem|..] == Decimal(n);
    DecimalInjective(m, n);
  }

  /** The first id of the form `${stem}${k}`, k >= n, that is not in use. */
  function Fresh(stem: string, n: nat, used: set<string>): string
    decreases |used|
  {
    if Suffixed(stem, n) in used then Fresh(stem, n + 1, used - {Suffixed(stem, n)}) else Suffixed(stem, n)
  }

  lemma {:induction false} FreshIsFirst(stem: string, n: nat, used: set<string>) returns (k: nat)
    ensures n <= k && Fresh(stem, n, used) == Suffixed(stem, k) && Suffixed(stem, k) !in used
    ensures forall j :: n <= j < k ==> Suffixed(stem, j) in used
    decreases |used|
  {
    if Suffixed(stem, n) in used {
      k := FreshIsFirst(stem, n + 1, used - {Suffixed(stem, n)});
      if Suffixed(stem, k) == Suffixed(stem, n) {
        SuffixedInjective(stem, k, n);
      }
    } else {
      k := n;
    }
  }

  /** The search ends, at the first free id. */
  method FindFresh(stem: string, n: nat, used: set<string>) returns (candidate: string)
    ensures candidate == Fresh(stem, n, used)
  {
    var suffix := n;
    candidate := Suffixed(stem, suffix);
    ghost var k := FreshIsFirst(stem, n, used);
    while candidate in used
      invariant n <= suffix <= k && candidate == Suffixed(stem, suffix)
      decreases k - suffix
    {
      suffix := suffix + 1;
      candidate := Suffixed(stem, suffix);
    }
  }
}
