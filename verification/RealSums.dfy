/** Sums of real numbers, in any order. */
module RealSums {
  import opened Sequences

  function Total(s: seq<real>): real {
    if s == [] then 0.0 else Total(s[..|s| - 1]) + s[|s| - 1]
  }

  lemma {:induction false} TotalAppend(a: seq<real>, b: seq<real>)
    ensures Total(a + b) == Total(a) + Total(b)
  {
    if b == [] {
      assert a + b == a;
    } else {
      assert (a + b)[..|a + b| - 1] == a + b[..|b| - 1];
      TotalAppend(a, b[..|b| - 1]);
    }
  }

  lemma TotalOne(x: real)
    ensures Total([x]) == x
  {
    assert [x][..0] == [];
  }

  lemma {:induction false} TotalPermutes(a: seq<real>, b: seq<real>)
    requires multiset(a) == multiset(b)
    ensures Total(a) == Total(b)
  {
    assert |a| == |multiset(a)| && |b| == |multiset(b)|;
    if a != [] {
      InitMultiset(a);
      var i := RemoveOne(b, a[|a| - 1]);
      TotalPermutes(a[..|a| - 1], b[..i] + b[i + 1..]);
      TotalWithoutOne(b, i);
    }
  }

  lemma TotalWithoutOne(b: seq<real>, i: nat)
    requires i < |b|
    ensures Total(b) == Total(b[..i] + b[i + 1..]) + b[i]
  {
    var front, back, tail := b[..i], b[i + 1..], b[i..];
    assert b == front + tail;
    assert tail == [b[i]] + back;
    TotalAppend(front, tail);
    TotalAppend([b[i]], back);
    TotalAppend(front, back);
    TotalOne(b[i]);
  }

  lemma {:induction false} TotalAdds(a: seq<real>, b: seq<real>, c: seq<real>)
    requires |a| == |b| == |c| && forall i :: 0 <= i < |a| ==> c[i] == a[i] + b[i]
    ensures Total(c) == Total(a) + Total(b)
  {
    if a != [] {
      TotalAdds(a[..|a| - 1], b[..|b| - 1], c[..|c| - 1]);
    }
  }

  lemma {:induction false} TotalDivides(s: seq<real>, d: real, t: seq<real>)
    requires d != 0.0 && |s| == |t| && forall i :: 0 <= i < |s| ==> t[i] == s[i] / d
    ensures Total(t) == Total(s) / d
  {
    if s != [] {
      var n := |s| - 1;
      TotalDivides(s[..n], d, t[..n]);
      QuotientAdds(Total(s[..n]), s[n], d);
    } else {
      assert 0.0 / d == 0.0;
    }
  }

  lemma QuotientAdds(a: real, b: real, d: real)
    requires d != 0.0
    ensures (a + b) / d == a / d + b / d
  {
  }

  /** Shares of a non-zero total sum to one. */
  lemma SharesSumToOne(s: seq<real>, shares: seq<real>)
    requires Total(s) != 0.0 && |s| == |shares|
    requires forall i :: 0 <= i < |s| ==> shares[i] == s[i] / Total(s)
    ensures Total(shares) == 1.0
  {
    hide Total;
    TotalDivides(s, Total(s), shares);
    SelfQuotient(Total(s));
  }

  lemma SelfQuotient(x: real)
    requires x != 0.0
    ensures x / x == 1.0
  {
  }
}
