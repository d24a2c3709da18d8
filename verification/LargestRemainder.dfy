/**
 Largest-remainder distribution of a scaled integer over weights
 (`distributeByWeight` in src/attribution/allocation.ts).
 */
module LargestRemainder {
  import opened Basics
  import opened Sequences

  /** Integer division that truncates towards zero, as `/` does on BigInt. */
  function TruncDiv(a: int, b: int): int
    requires b != 0
  {
    if a >= 0 then (if b > 0 then a / b else -(a / -b))
    else if b > 0 then -(-a / b) else -a / -b
  }

  function Rem(a: int, b: int): int
    requires b != 0
  {
    a - TruncDiv(a, b) * b
  }

  lemma TruncDivLaw(a: int, b: int)
    requires b != 0
    ensures TruncDiv(a, b) * b + Rem(a, b) == a
    ensures Abs(Rem(a, b)) < Abs(b)
    ensures a >= 0 ==> Rem(a, b) >= 0
    ensures a <= 0 ==> Rem(a, b) <= 0
    ensures a >= 0 && b > 0 ==> TruncDiv(a, b) == a / b >= 0
  {
    var p: int, q: int := Abs(a), Abs(b);
    assert p == (p / q) * q + p % q;
    var whole: int := (p / q) * q;
    assert TruncDiv(a, b) * b == if a >= 0 then whole else -whole;
  }

  // ------------------------------------------- handing out units by remainder

  datatype Candidate = Candidate(index: nat, rem: int)

  /** Larger remainder first, then smaller index. */
  predicate Ahead(a: Candidate, b: Candidate) {
    a.rem > b.rem || (a.rem == b.rem && a.index <= b.index)
  }

  lemma AheadIsTotal()
    ensures TotalOrder(Ahead) && Antisymmetric(Ahead)
  {
  }

  /** The indices below `n` with a positive remainder, in index order. */
  function Candidates(rems: seq<int>, n: nat): (c: seq<Candidate>)
    requires n <= |rems|
    ensures |c| <= n
    ensures forall k :: 0 <= k < |c| ==> c[k].index < n && c[k].rem == rems[c[k].index] > 0
    ensures forall k, l :: 0 <= k < l < |c| ==> c[k].index < c[l].index
  {
    if n == 0 then []
    else
      var c := Candidates(rems, n - 1);
      if rems[n - 1] > 0 then c + [Candidate(n - 1, rems[n - 1])] else c
  }

  function Order(rems: seq<int>): seq<Candidate> {
    Sort(Candidates(rems, |rems|), Ahead)
  }

  lemma OrderFacts(rems: seq<int>)
    ensures Sorted(Order(rems), Ahead)
    ensures |Order(rems)| == |Candidates(rems, |rems|)|
    ensures forall k :: 0 <= k < |Order(rems)| ==>
              Order(rems)[k].index < |rems| && Order(rems)[k].rem == rems[Order(rems)[k].index] > 0
    ensures forall k, l :: 0 <= k < l < |Order(rems)| ==> Order(rems)[k].index != Order(rems)[l].index
  {
    AheadIsTotal();
    var c, o := Candidates(rems, |rems|), Order(rems);
    SortCorrect(c, Ahead);
    PermutationDistinct(c, o);
    forall k | 0 <= k < |o|
      ensures o[k] in c
    {
      assert o[k] in multiset(o);
      assert o[k] in multiset(c);
    }
    forall k, l | 0 <= k < l < |o|
      ensures o[k].index != o[l].index
    {
      assert o[k] != o[l];
    }
  }

  lemma {:induction false} EveryPositiveRemainderIsACandidate(rems: seq<int>, n: nat, i: nat)
    requires i < n <= |rems| && rems[i] > 0
    ensures Candidate(i, rems[i]) in Candidates(rems, n)
  {
    if i < n - 1 {
      EveryPositiveRemainderIsACandidate(rems, n - 1, i);
    }
  }

  /** Adds one unit at the index of each winner. */
  function Bump(shares: seq<int>, winners: seq<Candidate>): (r: seq<int>)
    requires forall k :: 0 <= k < |winners| ==> winners[k].index < |shares|
    ensures |r| == |shares|
  {
    if winners == [] then shares
    else
      var before := Bump(shares, winners[..|winners| - 1]);
      var i := winners[|winners| - 1].index;
      before[i := before[i] + 1]
  }

  function Handed(rems: seq<int>, units: nat): (k: nat)
    ensures k <= |Order(rems)| && k <= units
  {
    if units <= |Order(rems)| then units else |Order(rems)|
  }

  /** The quotas with one unit added for each of the first `units` candidates. */
  function Assign(quotas: seq<int>, rems: seq<int>, units: nat): (r: seq<int>)
    requires |quotas| == |rems|
    ensures |r| == |quotas|
  {
    OrderFacts(rems);
    Bump(quotas, Order(rems)[..Handed(rems, units)])
  }

  ghost predicate Wins(rems: seq<int>, units: nat, i: nat) {
    exists k :: 0 <= k < Handed(rems, units) && Order(rems)[k].index == i
  }

  lemma {:induction false} SumUpdate(s: seq<int>, i: nat, v: int)
    requires i < |s|
    ensures Sum(s[i := v]) == Sum(s) - s[i] + v
  {
    var init := s[..|s| - 1];
    if i == |s| - 1 {
      assert s[i := v][..|s| - 1] == init;
    } else {
      assert s[i := v][..|s| - 1] == init[i := v];
      SumUpdate(init, i, v);
    }
  }

  lemma {:induction false} BumpTotal(shares: seq<int>, winners: seq<Candidate>)
    requires forall k :: 0 <= k < |winners| ==> winners[k].index < |shares|
    ensures Sum(Bump(shares, winners)) == Sum(shares) + |winners|
  {
    if winners != [] {
      var before := Bump(shares, winners[..|winners| - 1]);
      BumpTotal(shares, winners[..|winners| - 1]);
      SumUpdate(before, winners[|winners| - 1].index, before[winners[|winners| - 1].index] + 1);
    }
  }

  lemma {:induction false} BumpAt(shares: seq<int>, winners: seq<Candidate>, i: nat)
    requires forall k :: 0 <= k < |winners| ==> winners[k].index < |shares|
    requires forall k, l :: 0 <= k < l < |winners| ==> winners[k].index != winners[l].index
    requires i < |shares|
    ensures Bump(shares, winners)[i] ==
            shares[i] + if exists k :: 0 <= k < |winners| && winners[k].index == i then 1 else 0
  {
    if winners != [] {
      var init, last := winners[..|winners| - 1], winners[|winners| - 1];
      BumpAt(shares, init, i);
      if last.index == i {
        assert winners[|winners| - 1].index == i;
        assert forall k :: 0 <= k < |init| ==> init[k] == winners[k];
      } else if k :| 0 <= k < |winners| && winners[k].index == i {
        assert init[k].index == i;
      }
    }
  }

  lemma AssignTotal(quotas: seq<int>, rems: seq<int>, units: nat)
    requires |quotas| == |rems|
    ensures Sum(Assign(quotas, rems, units)) == Sum(quotas) + Handed(rems, units)
  {
    OrderFacts(rems);
    BumpTotal(quotas, Order(rems)[..Handed(rems, units)]);
  }

  lemma AssignAt(quotas: seq<int>, rems: seq<int>, units: nat, i: nat)
    requires |quotas| == |rems| && i < |quotas|
    ensures Assign(quotas, rems, units)[i] == quotas[i] + if Wins(rems, units, i) then 1 else 0
    ensures Wins(rems, units, i) ==> rems[i] > 0
  {
    OrderFacts(rems);
    var o, n := Order(rems), Handed(rems, units);
    BumpAt(quotas, o[..n], i);
    if Wins(rems, units, i) {
      var k :| 0 <= k < n && o[k].index == i;
      assert o[..n][k].index == i;
    } else {
      assert forall k :: 0 <= k < |o[..n]| ==> o[..n][k] == o[k];
    }
  }

  /** Units go to the largest remainders, equal ones in index order. */
  lemma WinnersRankFirst(rems: seq<int>, units: nat, i: nat, j: nat)
    requires i < |rems| && j < |rems|
    requires Wins(rems, units, i) && !Wins(rems, units, j)
    ensures rems[i] > rems[j] || (rems[i] == rems[j] && i < j)
  {
    OrderFacts(rems);
    var o, n := Order(rems), Handed(rems, units);
    var k :| 0 <= k < n && o[k].index == i;
    if rems[j] > 0 {
      EveryPositiveRemainderIsACandidate(rems, |rems|, j);
      AheadIsTotal();
      var c := Candidates(rems, |rems|);
      SortCorrect(c, Ahead);
      assert Candidate(j, rems[j]) in multiset(c);
      assert Candidate(j, rems[j]) in multiset(o);
      var l :| 0 <= l < |o| && o[l] == Candidate(j, rems[j]);
      assert k < l;
      assert Ahead(o[k], o[l]);
    }
  }

  // --------------------------------------------------------- the distribution

  function Quotas(magnitude: nat, weights: seq<int>): (q: seq<int>)
    requires Sum(weights) != 0
    ensures |q| == |weights|
  {
    seq(|weights|, i requires 0 <= i < |weights| => TruncDiv(magnitude * weights[i], Sum(weights)))
  }

  function Remainders(magnitude: nat, weights: seq<int>): (r: seq<int>)
    requires Sum(weights) != 0
    ensures |r| == |weights|
  {
    seq(|weights|, i requires 0 <= i < |weights| => Rem(magnitude * weights[i], Sum(weights)))
  }

  /** What the truncated quotas leave of the magnitude; negative when they overshoot it. */
  function Leftover(magnitude: nat, weights: seq<int>): int
    requires Sum(weights) != 0
  {
    magnitude - Sum(Quotas(magnitude, weights))
  }

  function Shares(magnitude: nat, weights: seq<int>): (r: seq<int>)
    requires Sum(weights) != 0
    ensures |r| == |weights|
  {
    Assign(Quotas(magnitude, weights), Remainders(magnitude, weights), Abs(Leftover(magnitude, weights)))
  }

  function Negate(s: seq<int>): (r: seq<int>)
    ensures |r| == |s|
    ensures forall i :: 0 <= i < |s| ==> r[i] == -s[i]
  {
    seq(|s|, i requires 0 <= i < |s| => -s[i])
  }

  function Distribute(total: int, weights: seq<int>): (parts: seq<int>)
    ensures |parts| == |weights|
  {
    if Sum(weights) == 0 then seq(|weights|, _ => 0)
    else if total < 0 then Negate(Shares(Abs(total), weights))
    else Shares(Abs(total), weights)
  }

  /** The loop of the program: one unit each until the leftover or the candidates run out. */
  method HandOut(quotas: seq<int>, order: seq<Candidate>, remainderUnits: nat) returns (shares: array<int>)
    requires forall k :: 0 <= k < |order| ==> order[k].index < |quotas|
    ensures fresh(shares)
    ensures shares[..] == Bump(quotas, order[..if remainderUnits <= |order| then remainderUnits else |order|])
  {
    shares := new int[|quotas|](i requires 0 <= i < |quotas| => quotas[i]);
    assert order[..0] == [] && shares[..] == quotas;
    var k := 0;
    while k < remainderUnits && k < |order|
      invariant 0 <= k <= |order| && k <= remainderUnits
      invariant shares[..] == Bump(quotas, order[..k])
    {
      assert order[..k + 1][..k] == order[..k];
      shares[order[k].index] := shares[order[k].index] + 1;
      k := k + 1;
    }
  }

  method DistributeByWeight(total: int, weights: seq<int>) returns (parts: seq<int>)
    ensures parts == Distribute(total, weights)
  {
    var n := |weights|;
    if n == 0 {
      return [];
    }
    var weightSum := Sum(weights);
    if weightSum == 0 {
      return seq(n, _ => 0);
    }
    var magnitude := Abs(total);
    var rems := Remainders(magnitude, weights);
    OrderFacts(rems);
    var remainderUnits := Leftover(magnitude, weights);
    if remainderUnits < 0 {
      remainderUnits := -remainderUnits;
    }
    var handed := HandOut(Quotas(magnitude, weights), Order(rems), remainderUnits);
    if total < 0 {
      parts := Negate(handed[..]);
    } else {
      parts := handed[..];
    }
  }

  // ------------------------------------------------------------ exact totals

  lemma SumNegate(s: seq<int>)
    ensures Sum(Negate(s)) == -Sum(s)
  {
    SumScales(s, -1, Negate(s));
  }

  lemma {:induction false} ZeroParts(n: nat)
    ensures Sum(seq(n, _ => 0)) == 0
  {
    if n != 0 {
      assert seq(n, _ => 0)[..n - 1] == seq(n - 1, _ => 0);
      ZeroParts(n - 1);
    }
  }

  lemma DistributeTotal(total: int, weights: seq<int>)
    requires Sum(weights) != 0
    ensures var m := Abs(total);
            var s := m - Leftover(m, weights) + Handed(Remainders(m, weights), Abs(Leftover(m, weights)));
            Sum(Distribute(total, weights)) == if total < 0 then -s else s
  {
    var m := Abs(total);
    AssignTotal(Quotas(m, weights), Remainders(m, weights), Abs(Leftover(m, weights)));
    SumNegate(Shares(m, weights));
  }

  /** The guards of the program under which a split keeps its total. */
  predicate KeepsTotal(total: int, weights: seq<int>) {
    if Sum(weights) == 0 then total == 0
    else 0 <= Leftover(Abs(total), weights) <= |Candidates(Remainders(Abs(total), weights), |weights|)|
  }

  /** For all totals and weights, negative ones included: the parts sum to the total exactly when the
      truncated quotas do not overshoot it and enough candidates remain for the leftover. */
  lemma SplitKeepsTotalExactlyWhen(total: int, weights: seq<int>)
    ensures Sum(Distribute(total, weights)) == total <==> KeepsTotal(total, weights)
  {
    if Sum(weights) == 0 {
      ZeroParts(|weights|);
    } else {
      DistributeTotal(total, weights);
      OrderFacts(Remainders(Abs(total), weights));
    }
  }

  /** How far a split misses its total: what overshooting quotas and the units handed out on top exceed it by, or
      what the missing candidates leave over, in the sign of the total. */
  function Imbalance(total: int, weights: seq<int>): int
    requires Sum(weights) != 0
  {
    var left := Leftover(Abs(total), weights);
    var candidates := |Candidates(Remainders(Abs(total), weights), |weights|)|;
    var gap :=
      if left < 0 then (if -left <= candidates then -left else candidates) - left
      else if left > candidates then candidates - left
      else 0;
    if total < 0 then -gap else gap
  }

  lemma SplitMissesBy(total: int, weights: seq<int>)
    requires Sum(weights) != 0
    ensures Sum(Distribute(total, weights)) == total + Imbalance(total, weights)
    ensures Imbalance(total, weights) == 0 <==> KeepsTotal(total, weights)
  {
    DistributeTotal(total, weights);
    OrderFacts(Remainders(Abs(total), weights));
  }

  /** Negative weights lose units too: one unit over -1 and -2 is not handed out at all. */
  lemma NegativeWeightsLoseAUnit()
    ensures Sum([-1, -2]) == -3 && Imbalance(1, [-1, -2]) == -1
    ensures Leftover(1, [-1, -2]) == 1
  {
    hide TruncDiv, Rem, Quotas, Remainders, Sum, Candidates;
    var w := [-1, -2];
    SumOfTwo(-1, -2);
    Thirds();
    var q, r := Quotas(1, w), Remainders(1, w);
    OverThree(w, q, r);
    NoneLeft(r);
  }

  lemma SumOfTwo(a: int, b: int)
    ensures Sum([a, b]) == a + b
  {
    assert [a, b][..1] == [a];
    SumSingleton(a);
  }

  lemma NoneLeft(r: seq<int>)
    requires r == [-1, -2]
    ensures Candidates(r, 2) == []
  {
    assert Candidates(r, 1) == [];
  }

  lemma Thirds()
    ensures TruncDiv(-1, -3) == 0 && TruncDiv(-2, -3) == 0
    ensures Rem(-1, -3) == -1 && Rem(-2, -3) == -2
  {
  }

  lemma OverThree(w: seq<int>, q: seq<int>, r: seq<int>)
    requires w == [-1, -2] && Sum(w) == -3 && q == Quotas(1, w) && r == Remainders(1, w)
    requires TruncDiv(-1, -3) == 0 && TruncDiv(-2, -3) == 0 && Rem(-1, -3) == -1 && Rem(-2, -3) == -2
    ensures q == [0, 0] && Sum(q) == 0 && r == [-1, -2]
  {
    hide TruncDiv, Rem, Sum;
    assert 1 * w[0] == -1 && 1 * w[1] == -2;
    assert q == [0, 0] && r == [-1, -2];
    SumOfTwo(0, 0);
  }

  lemma {:induction false} SumsOfQuotients(q: seq<int>, w: int, r: seq<int>, m: int, weights: seq<int>)
    requires |q| == |r| == |weights|
    requires forall i :: 0 <= i < |q| ==> q[i] * w + r[i] == m * weights[i]
    ensures Sum(q) * w + Sum(r) == m * Sum(weights)
  {
    if q != [] {
      var n := |q| - 1;
      SumsOfQuotients(q[..n], w, r[..n], m, weights[..n]);
      Distributes(Sum(q[..n]), q[n], w);
      Distributes(Sum(weights[..n]), weights[n], m);
    }
  }

  /** The leftover times the weight sum is the sum of the remainders. */
  lemma LeftoverTimesWeight(magnitude: nat, weights: seq<int>)
    requires Sum(weights) != 0
    ensures Leftover(magnitude, weights) * Sum(weights) == Sum(Remainders(magnitude, weights))
  {
    var q, r := Quotas(magnitude, weights), Remainders(magnitude, weights);
    forall i | 0 <= i < |weights|
      ensures q[i] * Sum(weights) + r[i] == magnitude * weights[i]
    {
      TruncDivLaw(magnitude * weights[i], Sum(weights));
    }
    SumsOfQuotients(q, Sum(weights), r, magnitude, weights);
    Distributes(magnitude, Sum(q), Sum(weights));
  }

  lemma Distributes(a: int, b: int, c: int)
    ensures (a - b) * c == a * c - c * b
    ensures (a + b) * c == a * c + b * c
  {
  }

  lemma {:induction false} RemaindersBounded(rems: seq<int>, w: int, n: nat)
    requires n <= |rems| && w > 0
    requires forall i :: 0 <= i < n ==> rems[i] < w
    ensures Sum(rems[..n]) <= |Candidates(rems, n)| * (w - 1)
  {
    if n != 0 {
      RemaindersBounded(rems, w, n - 1);
      assert rems[..n][..n - 1] == rems[..n - 1];
      Distributes(|Candidates(rems, n - 1)|, 1, w - 1);
    }
  }

  lemma BoundedByCount(l: int, w: int, c: nat)
    requires w > 0 && l * w <= c * (w - 1)
    ensures l <= c
  {
    if l > c {
      MulMonotone(c + 1, l, w);
      Distributes(c, 1, w);
      Distributes(w, 1, c);
      assert false;
    }
  }

  lemma MulMonotone(a: int, b: int, w: int)
    requires a <= b && w >= 0
    ensures a * w <= b * w
  {
  }

  /** With a positive weight sum the candidates never run out, so only an overshoot can lose the total. */
  lemma CandidatesSuffice(magnitude: nat, weights: seq<int>)
    requires Sum(weights) > 0
    ensures Leftover(magnitude, weights) <= |Candidates(Remainders(magnitude, weights), |weights|)|
  {
    var W, r := Sum(weights), Remainders(magnitude, weights);
    forall i | 0 <= i < |weights|
      ensures r[i] < W
    {
      TruncDivLaw(magnitude * weights[i], W);
    }
    LeftoverTimesWeight(magnitude, weights);
    RemaindersBounded(r, W, |r|);
    assert r[..|r|] == r;
    BoundedByCount(Leftover(magnitude, weights), W, |Candidates(r, |r|)|);
  }

  lemma NonNegativeWeightsDoNotOvershoot(magnitude: nat, weights: seq<int>)
    requires Sum(weights) > 0
    requires forall i :: 0 <= i < |weights| ==> weights[i] >= 0
    ensures Leftover(magnitude, weights) >= 0
  {
    var r := Remainders(magnitude, weights);
    forall i | 0 <= i < |weights|
      ensures r[i] >= 0
    {
      MulMonotone(0, weights[i], magnitude);
      TruncDivLaw(magnitude * weights[i], Sum(weights));
    }
    SumNonNegative(r);
    LeftoverTimesWeight(magnitude, weights);
    if Leftover(magnitude, weights) < 0 {
      MulMonotone(Leftover(magnitude, weights), -1, Sum(weights));
    }
  }

  lemma PositiveWeightSumKeepsTotalExactlyWhen(total: int, weights: seq<int>)
    requires Sum(weights) > 0
    ensures Sum(Distribute(total, weights)) == total <==> Leftover(Abs(total), weights) >= 0
  {
    SplitKeepsTotalExactlyWhen(total, weights);
    CandidatesSuffice(Abs(total), weights);
  }

  /** The promise of the program: non-negative weights with a positive sum split every total exactly. */
  lemma SplitIsExact(total: int, weights: seq<int>)
    requires Sum(weights) > 0
    requires forall i :: 0 <= i < |weights| ==> weights[i] >= 0
    ensures Sum(Distribute(total, weights)) == total
  {
    PositiveWeightSumKeepsTotalExactlyWhen(total, weights);
    NonNegativeWeightsDoNotOvershoot(Abs(total), weights);
  }

  /** Negative weights break the promise: one unit over 4, -1 and -1 becomes two. */
  lemma NegativeWeightOvershoots()
    ensures Distribute(1, [4, -1, -1]) == [2, 0, 0]
    ensures Sum(Distribute(1, [4, -1, -1])) == 2
  {
    var w := [4, -1, -1];
    assert w[..2] == [4, -1] && w[..2][..1] == [4] && [4][..0] == [];
    assert Sum(w[..2]) == 3 && Sum(w) == 2;
    var q, r := Quotas(1, w), Remainders(1, w);
    assert q == [2, 0, 0] && r == [0, -1, -1];
    assert q[..2] == [2, 0] && q[..2][..1] == [2] && [2][..0] == [];
    assert Sum(q[..2]) == 2 && Sum(q) == 2;
    assert Candidates(r, 1) == [] && Candidates(r, 2) == [] && Candidates(r, 3) == [];
    assert Order(r) == [] && Assign(q, r, 1) == q;
    assert Distribute(1, w) == q;
  }

  // ----------------------------------------------- quota, sign and fairness

  /** Every part is within one unit of its exact proportional quota when the weight sum is positive. */
  lemma WithinOneUnit(total: int, weights: seq<int>, i: nat)
    requires Sum(weights) > 0 && i < |weights|
    ensures Abs(Distribute(total, weights)[i] * Sum(weights) - total * weights[i]) < Sum(weights)
  {
    hide Shares, Sum;
    var m := Abs(total);
    ShareWithin(m, weights, i);
    var s := Shares(m, weights)[i];
    if total < 0 {
      assert Distribute(total, weights)[i] == -s;
      NegatedProduct(m, weights[i]);
    } else {
      assert Distribute(total, weights)[i] == s;
    }
  }

  /** With a negative weight sum a part can be off by a unit more. */
  lemma WithinTwoUnits(total: int, weights: seq<int>, i: nat)
    requires Sum(weights) < 0 && i < |weights|
    ensures Abs(Distribute(total, weights)[i] * Sum(weights) - total * weights[i]) < 2 * Abs(Sum(weights))
  {
    hide Shares, Sum, TruncDiv, Rem;
    var m, w := Abs(total), Sum(weights);
    var bump := ShareOf(m, weights, i);
    TruncDivLaw(m * weights[i], w);
    TwoUnitsOff(Quotas(m, weights)[i], bump, w, Remainders(m, weights)[i], m * weights[i]);
    if total < 0 {
      NegatedProduct(m, weights[i]);
      NegatedProduct(Shares(m, weights)[i], w);
    }
  }

  lemma TwoUnitsOff(q: int, bump: int, w: int, r: int, p: int)
    requires w < 0 && q * w + r == p && Abs(r) < Abs(w) && (bump == 0 || bump == 1)
    ensures Abs((q + bump) * w - p) < 2 * Abs(w)
    ensures Abs(-((q + bump) * w) + p) < 2 * Abs(w)
  {
    Distributes(q, bump, w);
  }

  lemma ShareWithin(m: nat, weights: seq<int>, i: nat)
    requires Sum(weights) > 0 && i < |weights|
    ensures Abs(Shares(m, weights)[i] * Sum(weights) - m * weights[i]) < Sum(weights)
    ensures Abs(-Shares(m, weights)[i] * Sum(weights) + m * weights[i]) < Sum(weights)
  {
    hide TruncDiv, Rem, Shares, Sum;
    var bump := ShareOf(m, weights, i);
    TruncDivLaw(m * weights[i], Sum(weights));
    OneUnitOff(Quotas(m, weights)[i], bump, Sum(weights), Remainders(m, weights)[i], m * weights[i]);
  }

  lemma ShareOf(m: nat, weights: seq<int>, i: nat) returns (bump: int)
    requires Sum(weights) != 0 && i < |weights|
    ensures Shares(m, weights)[i] == Quotas(m, weights)[i] + bump
    ensures bump == 0 || (bump == 1 && Remainders(m, weights)[i] > 0)
  {
    AssignAt(Quotas(m, weights), Remainders(m, weights), Abs(Leftover(m, weights)), i);
    bump := Shares(m, weights)[i] - Quotas(m, weights)[i];
  }

  lemma OneUnitOff(q: int, bump: int, w: int, r: int, p: int)
    requires w > 0 && q * w + r == p && -w < r < w
    requires bump == 0 || (bump == 1 && r > 0)
    ensures Abs((q + bump) * w - p) < w
    ensures Abs(-(q + bump) * w + p) < w
  {
    Distributes(q, bump, w);
    NegatedProduct(q + bump, w);
  }

  /** Negating the total negates every part. */
  lemma SplitIsOdd(total: int, weights: seq<int>, i: nat)
    requires i < |weights|
    ensures Distribute(-total, weights)[i] == -Distribute(total, weights)[i]
  {
    if total == 0 && Sum(weights) != 0 {
      AssignAt(Quotas(0, weights), Remainders(0, weights), Abs(Leftover(0, weights)), i);
      assert 0 * weights[i] == 0;
    }
  }

  /** A smaller weight never receives a larger magnitude; equal weights differ by at most the tie-break unit. */
  lemma SplitIsMonotone(total: int, weights: seq<int>, i: nat, j: nat)
    requires Sum(weights) > 0 && i < |weights| && j < |weights|
    requires 0 <= weights[i] <= weights[j]
    ensures weights[i] < weights[j] ==> Abs(Distribute(total, weights)[i]) <= Abs(Distribute(total, weights)[j])
    ensures weights[i] == weights[j] && j <= i ==>
              Abs(Distribute(total, weights)[i]) <= Abs(Distribute(total, weights)[j])
              <= Abs(Distribute(total, weights)[i]) + 1
  {
    var s := Shares(Abs(total), weights);
    QuotasOrdered(Abs(total), weights, i, j);
    AssignOrdered(Quotas(Abs(total), weights), Remainders(Abs(total), weights), Abs(Leftover(Abs(total), weights)), i, j);
    assert Abs(Distribute(total, weights)[i]) == Abs(s[i]) && Abs(Distribute(total, weights)[j]) == Abs(s[j]);
  }

  /** By how much a part exceeds its exact quota, as a multiple of the weight sum. */
  function Excess(part: int, total: int, weight: int, weightSum: int): int {
    Abs(part) * weightSum - Abs(total) * weight
  }

  /**
   The split is by largest remainder: a part rounded up and a part rounded down are never the wrong way round. The
   one rounded up was at least as close to its next unit, and on a tie it comes first.
   */
  lemma RoundsTheLargestRemaindersUp(total: int, weights: seq<int>, i: nat, j: nat)
    requires Sum(weights) > 0 && i < |weights| && j < |weights| && weights[i] >= 0 && weights[j] >= 0
    ensures var parts, w := Distribute(total, weights), Sum(weights);
            var x, y := Excess(parts[i], total, weights[i], w), Excess(parts[j], total, weights[j], w);
            -w < x < w && x - y <= w && (x - y == w ==> i < j)
  {
    hide Shares, Sum, Quotas, Remainders;
    var m, w := Abs(total), Sum(weights);
    var a, x := ExcessOf(m, weights, i);
    var b, y := ExcessOf(m, weights, j);
    assert Abs(Distribute(total, weights)[i]) == Shares(m, weights)[i];
    assert Abs(Distribute(total, weights)[j]) == Shares(m, weights)[j];
    if a == 1 && b == 0 {
      assert Wins(Remainders(m, weights), Abs(Leftover(m, weights)), i);
      WinnersRankFirst(Remainders(m, weights), Abs(Leftover(m, weights)), i, j);
    }
  }

  /** The excess of a share over its quota is read off its remainder. */
  lemma ExcessOf(m: nat, weights: seq<int>, i: nat) returns (bump: int, x: int)
    requires Sum(weights) > 0 && i < |weights| && weights[i] >= 0
    ensures Shares(m, weights)[i] >= 0 && x == Excess(Shares(m, weights)[i], m, weights[i], Sum(weights))
    ensures x == bump * Sum(weights) - Remainders(m, weights)[i] && 0 <= Remainders(m, weights)[i] < Sum(weights)
    ensures bump == if Wins(Remainders(m, weights), Abs(Leftover(m, weights)), i) then 1 else 0
    ensures bump == 1 ==> Remainders(m, weights)[i] > 0
  {
    hide TruncDiv, Rem, Shares, Sum;
    var w, r := Sum(weights), Remainders(m, weights);
    AssignAt(Quotas(m, weights), r, Abs(Leftover(m, weights)), i);
    bump := if Wins(r, Abs(Leftover(m, weights)), i) then 1 else 0;
    var p, q := m * weights[i], Quotas(m, weights)[i];
    Products(m, 0, weights[i]);
    TruncDivLaw(p, w);
    assert q == TruncDiv(p, w) && r[i] == Rem(p, w);
    Distributes(q, bump, w);
    assert Shares(m, weights)[i] == q + bump by { ShareIs(m, weights, i); }
    x := Excess(Shares(m, weights)[i], m, weights[i], w);
  }

  lemma ShareIs(m: nat, weights: seq<int>, i: nat)
    requires Sum(weights) != 0 && i < |weights|
    ensures Shares(m, weights)[i]
            == Quotas(m, weights)[i] + if Wins(Remainders(m, weights), Abs(Leftover(m, weights)), i) then 1 else 0
  {
    AssignAt(Quotas(m, weights), Remainders(m, weights), Abs(Leftover(m, weights)), i);
  }

  lemma AssignOrdered(q: seq<int>, r: seq<int>, units: nat, i: nat, j: nat)
    requires |q| == |r| && i < |q| && j < |q|
    requires 0 <= q[i] <= q[j] && (q[i] == q[j] ==> r[i] <= r[j])
    ensures q[i] < q[j] || r[i] < r[j] || j <= i ==>
              0 <= Assign(q, r, units)[i] <= Assign(q, r, units)[j]
    ensures q[i] == q[j] ==> Assign(q, r, units)[j] <= Assign(q, r, units)[i] + 1
    ensures q[i] == q[j] && r[i] <= 0 && r[j] <= 0 ==> Assign(q, r, units)[i] == Assign(q, r, units)[j]
  {
    AssignAt(q, r, units, i);
    AssignAt(q, r, units, j);
    if Wins(r, units, i) && !Wins(r, units, j) {
      WinnersRankFirst(r, units, i, j);
    }
  }

  lemma QuotasOrdered(m: nat, weights: seq<int>, i: nat, j: nat)
    requires Sum(weights) > 0 && i < |weights| && j < |weights|
    requires 0 <= weights[i] <= weights[j]
    ensures 0 <= Quotas(m, weights)[i] <= Quotas(m, weights)[j]
    ensures Quotas(m, weights)[i] == Quotas(m, weights)[j] ==> Remainders(m, weights)[i] <= Remainders(m, weights)[j]
    ensures weights[i] == weights[j] ==>
              Quotas(m, weights)[i] == Quotas(m, weights)[j] && Remainders(m, weights)[i] == Remainders(m, weights)[j]
    ensures weights[i] < weights[j] ==>
              || Quotas(m, weights)[i] < Quotas(m, weights)[j]
              || Remainders(m, weights)[i] < Remainders(m, weights)[j]
              || (Remainders(m, weights)[i] <= 0 && Remainders(m, weights)[j] <= 0)
  {
    hide TruncDiv, Rem, Sum;
    var a, b := m * weights[i], m * weights[j];
    Products(m, weights[i], weights[j]);
    QuotaMonotone(a, b, Sum(weights));
    TruncDivLaw(a, Sum(weights));
    assert Quotas(m, weights)[i] == TruncDiv(a, Sum(weights)) && Quotas(m, weights)[j] == TruncDiv(b, Sum(weights));
    assert Remainders(m, weights)[i] == Rem(a, Sum(weights)) && Remainders(m, weights)[j] == Rem(b, Sum(weights));
  }

  lemma Products(m: nat, x: int, y: int)
    requires 0 <= x <= y
    ensures 0 <= m * x <= m * y
    ensures x < y && m > 0 ==> m * x < m * y
    ensures m == 0 ==> m * y == 0
  {
  }

  lemma QuotaMonotone(a: int, b: int, w: int)
    requires 0 <= a <= b && w > 0
    ensures 0 <= TruncDiv(a, w) <= TruncDiv(b, w)
    ensures TruncDiv(a, w) == TruncDiv(b, w) ==> Rem(b, w) - Rem(a, w) == b - a
    ensures b == 0 ==> Rem(a, w) == Rem(b, w) == 0
  {
    TruncDivLaw(a, w);
    TruncDivLaw(b, w);
    var x, y := TruncDiv(a, w), TruncDiv(b, w);
    if x > y {
      MulMonotone(y + 1, x, w);
      Distributes(y, 1, w);
    }
  }
}
