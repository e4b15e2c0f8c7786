/** Small shared vocabulary: options, and the few facts about finite sets and multisets
    that the proofs about tables and queues need. */
module Common {

  datatype Option<+T> = None | Some(value: T)

  lemma {:induction false} SubsetCardinality<T>(a: set<T>, b: set<T>)
    requires a <= b
    ensures |a| <= |b|
    decreases a
  {
    if a != {} {
      var x :| x in a;
      SubsetCardinality(a - {x}, b - {x});
    }
  }

  /** Two distinct members make a set of more than one element, and the other way round. */
  lemma MoreThanOne<T>(s: set<T>, x: T)
    requires x in s
    ensures |s| > 1 <==> exists y :: y in s && y != x
  {
    var rest := s - {x};
    assert |rest| == |s| - 1;
    if |s| > 1 {
      assert rest != {};
      var y :| y in rest;
    } else {
      assert rest == {};
      assert s == rest + {x};
    }
  }

  /** Decimal, as strconv writes a number. */
  function Decimal(n: nat): (s: string)
    ensures |s| > 0 && forall i :: 0 <= i < |s| ==> '0' <= s[i] <= '9'
  {
    if n < 10 then ["0123456789"[n]] else Decimal(n / 10) + ["0123456789"[n % 10]]
  }

  lemma {:induction false} LastDigit(n: nat)
    ensures Decimal(n)[|Decimal(n)| - 1] as int == '0' as int + n % 10
    ensures |Decimal(n)| > 1 <==> n >= 10
    ensures n >= 10 ==> Decimal(n)[..|Decimal(n)| - 1] == Decimal(n / 10)
  {
  }

  lemma {:induction false} DecimalInjective(m: nat, n: nat)
    requires Decimal(m) == Decimal(n)
    ensures m == n
  {
    var s := Decimal(m);
    LastDigit(m);
    LastDigit(n);
    if m >= 10 && n >= 10 {
      DecimalInjective(m / 10, n / 10);
    }
  }
}
